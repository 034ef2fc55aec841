/**
 * The pure rules of the application form: the form record, per-step
 * validation with its messages, the email and phone patterns, the
 * application-id format, the stored record and the downloadable summary.
 */
module Intake {
  import opened Wrappers
  import opened Text
  import opened Types

  /** The named inputs of the form; a change event names one of them. */
  datatype Field =
    | FullName | Email | Phone | Whatsapp | City
    | College | Degree | Year | Status | StudyMode | StartDate
    | Source | Reason

  /** The form's values, one string per input. */
  datatype FormData = FormData(
    fullName: string, email: string, phone: string, whatsapp: string, city: string,
    college: string, degree: string, year: string, status: string, mode: string,
    startDate: string, source: string, reason: string)
  {
    /** The value of input `f`. */
    function Get(f: Field): string {
      match f
      case FullName => fullName
      case Email => email
      case Phone => phone
      case Whatsapp => whatsapp
      case City => city
      case College => college
      case Degree => degree
      case Year => year
      case Status => status
      case StudyMode => mode
      case StartDate => startDate
      case Source => source
      case Reason => reason
    }

    /** `{ ...formData, [name]: value }`: input `f` set to `v`, every other input kept. */
    function With(f: Field, v: string): (r: FormData)
      ensures r.Get(f) == v
      ensures forall g | g != f :: r.Get(g) == Get(g)
    {
      match f
      case FullName => this.(fullName := v)
      case Email => this.(email := v)
      case Phone => this.(phone := v)
      case Whatsapp => this.(whatsapp := v)
      case City => this.(city := v)
      case College => this.(college := v)
      case Degree => this.(degree := v)
      case Year => this.(year := v)
      case Status => this.(status := v)
      case StudyMode => this.(mode := v)
      case StartDate => this.(startDate := v)
      case Source => this.(source := v)
      case Reason => this.(reason := v)
    }
  }

  /** The form as it starts: everything empty except the three select boxes. */
  const INITIAL_FORM: FormData :=
    FormData("", "", "", "", "", "", "", "", "Student", "Online", "", "Website", "")

  /** The error messages, keyed by the input they belong to. */
  type Errors = map<Field, string>

  const FULL_NAME_REQUIRED := "Full Name is required"
  const EMAIL_REQUIRED := "Valid Email is required"
  const PHONE_REQUIRED := "Valid 10-digit Phone is required"
  const COLLEGE_REQUIRED := "College Name is required"
  const START_DATE_REQUIRED := "Preferred Start Date is required"
  const REASON_REQUIRED := "Please tell us why you are interested."

  /** A character the email pattern's `[^\s@]` accepts. */
  predicate Plain(c: char) {
    !IsWhite(c) && c != '@'
  }

  /** Every character is accepted by `[^\s@]`. */
  predicate AllPlain(s: string) {
    forall i | 0 <= i < |s| :: Plain(s[i])
  }

  /**
   * The email test as the code runs it: exactly one `@`, not first, nothing
   * that is white space, and a `.` after the `@` with at least one character
   * on each side of it.
   */
  predicate IsEmail(s: string): (b: bool)
    ensures b ==> |s| >= 5 && Plain(s[0]) && Plain(s[|s| - 1])
  {
    exists a | 0 < a < |s| ::
      && s[a] == '@'
      && (forall i | 0 <= i < |s| && i != a :: Plain(s[i]))
      && (exists k | a + 1 < k < |s| - 1 :: s[k] == '.')
  }

  /** `s` splits as `user@host.tld` with three non-empty parts drawn from `[^\s@]`. */
  ghost predicate EmailParts(s: string, user: string, host: string, tld: string) {
    && |user| > 0 && |host| > 0 && |tld| > 0
    && AllPlain(user) && AllPlain(host) && AllPlain(tld)
    && s == user + "@" + host + "." + tld
  }

  /** The regular expression `^[^\s@]+@[^\s@]+\.[^\s@]+$` matches `s`. */
  ghost predicate MatchesEmailPattern(s: string) {
    exists user, host, tld :: EmailParts(s, user, host, tld)
  }

  /** The email test accepts exactly the strings the regular expression matches. */
  lemma EmailTestMatchesPattern(s: string)
    ensures IsEmail(s) <==> MatchesEmailPattern(s)
  {
    if IsEmail(s) {
      EmailTestSound(s);
    }
    if MatchesEmailPattern(s) {
      EmailTestComplete(s);
    }
  }

  /** A stretch of `s` that avoids the position `a` is accepted by `[^\s@]` when all of `s` but `a` is. */
  lemma PlainSlice(s: string, a: int, lo: int, hi: int)
    requires 0 <= lo <= hi <= |s| && (a < lo || hi <= a)
    requires forall i | 0 <= i < |s| && i != a :: Plain(s[i])
    ensures AllPlain(s[lo..hi])
  {
    forall i | 0 <= i < hi - lo ensures Plain(s[lo..hi][i]) {
      assert s[lo..hi][i] == s[lo + i];
    }
  }

  /** A string the email test accepts splits into the pattern's three parts. */
  lemma EmailTestSound(s: string)
    requires IsEmail(s)
    ensures MatchesEmailPattern(s)
  {
    var a :| 0 < a < |s| && s[a] == '@' && (forall i | 0 <= i < |s| && i != a :: Plain(s[i]))
      && (exists k | a + 1 < k < |s| - 1 :: s[k] == '.');
    var k :| a + 1 < k < |s| - 1 && s[k] == '.';
    var user, host, tld := s[..a], s[a + 1..k], s[k + 1..];
    assert s == user + "@" + host + "." + tld;
    PlainSlice(s, a, 0, a);
    PlainSlice(s, a, a + 1, k);
    PlainSlice(s, a, k + 1, |s|);
    assert EmailParts(s, user, host, tld);
  }

  /** A string the pattern matches passes the email test. */
  lemma EmailTestComplete(s: string)
    requires MatchesEmailPattern(s)
    ensures IsEmail(s)
  {
    var user, host, tld :| EmailParts(s, user, host, tld);
    var a := |user|;
    var k := |user| + 1 + |host|;
    assert s[a] == '@';
    assert s[k] == '.';
    forall i | 0 <= i < |s| && i != a ensures Plain(s[i]) {
      if i < a {
        assert s[i] == user[i];
      } else if i < k {
        assert s[i] == host[i - a - 1];
      } else if i > k {
        assert s[i] == tld[i - k - 1];
      }
    }
    assert 0 < a < |s|;
  }

  /** `^\d{10}$`: exactly ten ASCII digits, which is what the anchored pattern matches. */
  predicate IsTenDigits(s: string): (b: bool)
    ensures b <==> DigitRun(s, 10)
  {
    DigitRunIff(s, 10);
    |s| == 10 && AllDigits(s)
  }

  /** The anchored pattern `^\d{n}$`, consumed one character at a time. */
  predicate DigitRun(s: string, n: nat)
    decreases n
  {
    if n == 0 then s == [] else |s| > 0 && IsDigit(s[0]) && DigitRun(s[1..], n - 1)
  }

  /** The pattern `^\d{n}$` matches exactly the strings of `n` digits. */
  lemma {:induction false} DigitRunIff(s: string, n: nat)
    ensures DigitRun(s, n) <==> |s| == n && AllDigits(s)
    decreases n
  {
    if n > 0 && |s| > 0 {
      DigitRunIff(s[1..], n - 1);
      if AllDigits(s[1..]) && IsDigit(s[0]) {
        forall i | 0 <= i < |s| ensures IsDigit(s[i]) {
          if i > 0 { assert s[i] == s[1..][i - 1]; }
        }
      }
    }
  }

  /** The error `msg` under `f` when `failed`, and no error otherwise. */
  function Check(failed: bool, f: Field, msg: string): (e: Errors)
    ensures failed ==> e == map[f := msg]
    ensures !failed ==> e == map[]
  {
    if failed then map[f := msg] else map[]
  }

  /**
   * `validateStep`: the errors for one step of the form. Step 1 checks name,
   * email and phone, step 2 the college (for students) and the start date,
   * step 3 the reason; any other step has nothing to check.
   */
  function StepErrors(step: int, form: FormData): (errs: Errors)
    ensures errs.Keys <= {FullName, Email, Phone, College, StartDate, Reason}
  {
    if step == 1 then
      Check(Trim(form.fullName) == [], FullName, FULL_NAME_REQUIRED)
      + Check(!IsEmail(form.email), Email, EMAIL_REQUIRED)
      + Check(!IsTenDigits(form.phone), Phone, PHONE_REQUIRED)
    else if step == 2 then
      Check(form.status == "Student" && Trim(form.college) == [], College, COLLEGE_REQUIRED)
      + Check(form.startDate == [], StartDate, START_DATE_REQUIRED)
    else if step == 3 then
      Check(Trim(form.reason) == [], Reason, REASON_REQUIRED)
    else
      map[]
  }

  /** A step passes when it yields no error at all. */
  predicate StepPasses(step: int, form: FormData) {
    StepErrors(step, form) == map[]
  }

  /** Two checks on distinct fields report exactly the failed ones. */
  lemma TwoChecks(p: bool, f: Field, m: string, q: bool, g: Field, n: string)
    requires f != g
    ensures var e := Check(p, f, m) + Check(q, g, n);
      && (f in e <==> p) && (g in e <==> q) && e.Keys <= {f, g}
      && (p ==> e[f] == m) && (q ==> e[g] == n)
      && (e == map[] <==> !p && !q)
  {
    var e := Check(p, f, m) + Check(q, g, n);
    if p { assert f in e; }
    if q { assert g in e; }
  }

  /** Three checks on distinct fields report exactly the failed ones. */
  lemma ThreeChecks(p: bool, f: Field, m: string, q: bool, g: Field, n: string, r: bool, h: Field, o: string)
    requires f != g && g != h && f != h
    ensures var e := Check(p, f, m) + Check(q, g, n) + Check(r, h, o);
      && (f in e <==> p) && (g in e <==> q) && (h in e <==> r) && e.Keys <= {f, g, h}
      && (p ==> e[f] == m) && (q ==> e[g] == n) && (r ==> e[h] == o)
      && (e == map[] <==> !p && !q && !r)
  {
    TwoChecks(p, f, m, q, g, n);
    var e := Check(p, f, m) + Check(q, g, n) + Check(r, h, o);
    if p { assert f in e; }
    if q { assert g in e; }
    if r { assert h in e; }
  }

  /**
   * Step 1, stated on the form's meaning: a blank name, an address the email
   * pattern rejects and a phone that is not ten digits each give their own
   * error and message, nothing else is reported, and the step passes exactly
   * when none of the three applies.
   */
  lemma StepOneRules(form: FormData)
    ensures var errs := StepErrors(1, form);
      && (FullName in errs <==> IsBlank(form.fullName))
      && (Email in errs <==> !MatchesEmailPattern(form.email))
      && (Phone in errs <==> !IsTenDigits(form.phone))
      && errs.Keys <= {FullName, Email, Phone}
      && (FullName in errs ==> errs[FullName] == "Full Name is required")
      && (Email in errs ==> errs[Email] == "Valid Email is required")
      && (Phone in errs ==> errs[Phone] == "Valid 10-digit Phone is required")
    ensures StepPasses(1, form) <==>
      !IsBlank(form.fullName) && MatchesEmailPattern(form.email) && IsTenDigits(form.phone)
  {
    TrimEmptyIffBlank(form.fullName);
    EmailTestMatchesPattern(form.email);
    ThreeChecks(Trim(form.fullName) == [], FullName, FULL_NAME_REQUIRED,
      !IsEmail(form.email), Email, EMAIL_REQUIRED,
      !IsTenDigits(form.phone), Phone, PHONE_REQUIRED);
  }

  /**
   * Step 2: a student with a blank college and a missing start date each give
   * their own error and message; non-students need no college; the step
   * passes exactly when neither applies.
   */
  lemma StepTwoRules(form: FormData)
    ensures var errs := StepErrors(2, form);
      && (College in errs <==> form.status == "Student" && IsBlank(form.college))
      && (StartDate in errs <==> form.startDate == "")
      && errs.Keys <= {College, StartDate}
      && (College in errs ==> errs[College] == "College Name is required")
      && (StartDate in errs ==> errs[StartDate] == "Preferred Start Date is required")
    ensures StepPasses(2, form) <==>
      !(form.status == "Student" && IsBlank(form.college)) && form.startDate != ""
  {
    TrimEmptyIffBlank(form.college);
    TwoChecks(form.status == "Student" && Trim(form.college) == [], College, COLLEGE_REQUIRED,
      form.startDate == [], StartDate, START_DATE_REQUIRED);
  }

  /**
   * Step 3 reports a blank reason and nothing else; every other step number
   * has no rule and always passes.
   */
  lemma StepThreeAndOtherRules(step: int, form: FormData)
    ensures var errs := StepErrors(3, form);
      && (Reason in errs <==> IsBlank(form.reason))
      && errs.Keys <= {Reason}
      && (Reason in errs ==> errs[Reason] == "Please tell us why you are interested.")
    ensures StepPasses(3, form) <==> !IsBlank(form.reason)
    ensures step !in {1, 2, 3} ==> StepPasses(step, form)
  {
    TrimEmptyIffBlank(form.reason);
  }

  /** The id prefix for an application category; unknown categories get `APP`. */
  function Prefix(kind: string): (p: string)
    ensures p in {"INT", "JOB", "CRS", "WS", "SVC", "APP"}
  {
    if kind == "Internship" then "INT"
    else if kind == "Job" then "JOB"
    else if kind == "Course" then "CRS"
    else if kind == "Workshop" then "WS"
    else if kind == "Service" then "SVC"
    else "APP"
  }

  /** The category a prefix stands for, when it stands for one. */
  function KindOfPrefix(p: string): Option<string> {
    if p == "INT" then Some("Internship")
    else if p == "JOB" then Some("Job")
    else if p == "CRS" then Some("Course")
    else if p == "WS" then Some("Workshop")
    else if p == "SVC" then Some("Service")
    else None
  }

  /** The five known categories. */
  predicate KnownKind(kind: string) {
    kind in {"Internship", "Job", "Course", "Workshop", "Service"}
  }

  /**
   * The prefix of a known category gives that category back, so no two known
   * categories share a prefix; every other category gets `APP`, which stands
   * for none.
   */
  lemma PrefixRoundTrip(kind: string)
    ensures KnownKind(kind) ==> KindOfPrefix(Prefix(kind)) == Some(kind)
    ensures !KnownKind(kind) ==> Prefix(kind) == "APP" && KindOfPrefix(Prefix(kind)) == None
  {
  }

  /** `new Date().toISOString().slice(0, 10).replace(/-/g, '')`: the date part of an ISO timestamp without its dashes. */
  function IsoDatePart(iso: string): (d: string)
    ensures |d| <= 10 && Lacks(d, '-')
  {
    RemoveAll(Seqs.Take(iso, 10), '-')
  }

  /** A date written with dashes between its dashless fields loses exactly those dashes. */
  lemma DashlessDate(y: string, m: string, d: string)
    requires Lacks(y, '-') && Lacks(m, '-') && Lacks(d, '-')
    ensures RemoveAll(y + "-" + m + "-" + d, '-') == y + m + d
  {
    RemoveAllAppend(y + "-" + m + "-", d, '-');
    RemoveAllAppend(y + "-" + m, "-", '-');
    RemoveAllAppend(y + "-", m, '-');
    RemoveAllAppend(y, "-", '-');
    RemoveAllLacking(y, '-');
    RemoveAllLacking(m, '-');
    RemoveAllLacking(d, '-');
  }

  /** For a timestamp `YYYY-MM-DDThh:mm:ss.sssZ`, the date part is `YYYYMMDD`. */
  lemma IsoDatePartOfTimestamp(y: string, m: string, d: string, rest: string)
    requires |y| == 4 && |m| == 2 && |d| == 2
    requires AllDigits(y) && AllDigits(m) && AllDigits(d)
    ensures IsoDatePart(y + "-" + m + "-" + d + rest) == y + m + d
  {
    var date := y + "-" + m + "-" + d;
    assert Seqs.Take(date + rest, 10) == date;
    assert Lacks(y, '-') && Lacks(m, '-') && Lacks(d, '-');
    DashlessDate(y, m, d);
  }

  /**
   * `generateAppId`: `WISE-<prefix>-<yyyymmdd>-<n>` where `n` is
   * `floor(1000 + Math.random() * 9000)`; the random draw enters as the
   * offset `draw` in [0, 9000), the clock as the ISO timestamp `iso`.
   */
  function AppId(kind: string, iso: string, draw: nat): (id: string)
    requires draw < 9000
    ensures 13 <= |id| <= 24 && id[..5] == "WISE-"
  {
    DrawnNumber(draw);
    "WISE-" + Prefix(kind) + "-" + IsoDatePart(iso) + "-" + DecimalString(1000 + draw)
  }

  /** The four dash-separated fields of an application id. */
  function IdFields(id: string): seq<string> {
    Split(id, '-')
  }

  /** The drawn number is written with four digits and reads back as 1000 + `draw`, in [1000, 9999]. */
  lemma DrawnNumber(draw: nat)
    requires draw < 9000
    ensures var n := DecimalString(1000 + draw);
      |n| == 4 && AllDigits(n) && Lacks(n, '-') && DigitsValue(n) == 1000 + draw
  {
    FourDigits(1000 + draw);
    DecimalRoundTrip(1000 + draw);
  }

  /** Three dashless fields joined by dashes split back into those fields. */
  lemma DashedTriple(p: string, d: string, n: string)
    requires Lacks(p, '-') && Lacks(d, '-') && Lacks(n, '-')
    ensures Split(p + "-" + d + "-" + n, '-') == [p, d, n]
  {
    var dn := d + "-" + n;
    SplitLacking(n, '-');
    SplitAt(d, '-', n);
    assert p + "-" + d + "-" + n == p + "-" + dn;
    SplitAt(p, '-', dn);
  }

  /** Four dashless fields behind `WISE-`, joined by dashes, split back into those fields. */
  lemma IdShape(p: string, d: string, n: string)
    requires Lacks(p, '-') && Lacks(d, '-') && Lacks(n, '-')
    ensures Split("WISE-" + p + "-" + d + "-" + n, '-') == ["WISE", p, d, n]
  {
    var pdn := p + "-" + d + "-" + n;
    DashedTriple(p, d, n);
    assert "WISE-" + p + "-" + d + "-" + n == "WISE" + "-" + pdn;
    SplitAt("WISE", '-', pdn);
  }

  /** No prefix contains a dash. */
  lemma PrefixLacksDash(kind: string)
    ensures Lacks(Prefix(kind), '-')
  {
  }

  /**
   * An id splits at its dashes into exactly `WISE`, the category prefix, the
   * dashless date and the drawn four-digit number.
   */
  lemma AppIdFormat(kind: string, iso: string, draw: nat)
    requires draw < 9000
    ensures IdFields(AppId(kind, iso, draw)) ==
      ["WISE", Prefix(kind), IsoDatePart(iso), DecimalString(1000 + draw)]
  {
    DrawnNumber(draw);
    PrefixLacksDash(kind);
    IdShape(Prefix(kind), IsoDatePart(iso), DecimalString(1000 + draw));
  }

  /** The role and category an apply button opens the form with. */
  datatype ModalData = ModalData(kind: string, role: string)

  /** `initialData?.type || 'Internship'`: the category, with missing or empty meaning an internship. */
  function KindOf(data: Option<ModalData>): (k: string)
    ensures k != ""
    ensures data.Some? && data.value.kind != "" ==> k == data.value.kind
    ensures data.None? || data.value.kind == "" ==> k == "Internship"
  {
    if data.Some? && data.value.kind != "" then data.value.kind else "Internship"
  }

  /** `initialData?.role || 'General'`: the role, with missing or empty meaning `General`. */
  function RoleOf(data: Option<ModalData>): (r: string)
    ensures r != ""
    ensures data.Some? && data.value.role != "" ==> r == data.value.role
    ensures data.None? || data.value.role == "" ==> r == "General"
  {
    if data.Some? && data.value.role != "" then data.value.role else "General"
  }

  /** The record `handleSubmit` stores for a form, an id and the submission's locale date. */
  function NewApplication(data: Option<ModalData>, id: string, form: FormData, localeDate: string): (app: Application)
    ensures app.id == id && app.status == Submitted && app.date == localeDate
    ensures app.kind == KindOf(data) && app.role == RoleOf(data)
    ensures app.name == form.fullName && app.email == form.email && app.phone == form.phone
  {
    Application(id, KindOf(data), RoleOf(data), form.fullName, form.email, form.phone, localeDate, Submitted)
  }

  /** How a template literal shows an optional string: `undefined` when it is missing. */
  function ShowOptional(s: Option<string>): string {
    match s
    case Some(v) => v
    case None => "undefined"
  }

  /** The summary's title block, up to the line with the id. */
  const SUMMARY_HEADER := "\nWISECREW SOLUTIONS APPLICATION SUMMARY\n--------------------------------------\n"

  /** The title block ends with a line break. */
  lemma HeaderEndsLine()
    ensures |SUMMARY_HEADER| > 0 && SUMMARY_HEADER[|SUMMARY_HEADER| - 1] == '\n'
  {
  }

  /** The lines of the summary that follow the id line, starting with the line break that ends it. */
  function SummaryTail(localeDate: string, data: Option<ModalData>, form: FormData): string {
    "\n" + SummaryLines(localeDate, data, form)
  }

  /** A text put after a line break starts with that line break. */
  lemma LeadingBreak(lines: string)
    ensures |"\n" + lines| > 0 && ("\n" + lines)[0] == '\n'
  {
  }

  /** The summary's lines from the date to the closing thanks. */
  function SummaryLines(localeDate: string, data: Option<ModalData>, form: FormData): string {
    var role := ShowOptional(if data.Some? then Some(data.value.role) else None);
    var kind := ShowOptional(if data.Some? then Some(data.value.kind) else None);
    "Date: " + localeDate
    + "\nRole: " + role
    + "\nType: " + kind
    + "\n\nAPPLICANT DETAILS\n-----------------"
    + "\nName: " + form.fullName
    + "\nEmail: " + form.email
    + "\nPhone: " + form.phone
    + "\nCity: " + form.city
    + "\n\nEDUCATION / BACKGROUND\n----------------------"
    + "\nStatus: " + form.status
    + "\nCollege: " + form.college
    + "\nDegree: " + form.degree
    + "\nMode: " + form.mode
    + "\nStart Date: " + form.startDate
    + "\n\nREASON\n------\n" + form.reason
    + "\n\n--------------------------------------\nThank you for applying to Wisecrew Solutions.\n"
  }

  /** `line` stands on a line of its own in `text`, starting at offset `at`. */
  predicate LineAt(text: string, line: string, at: int) {
    && OccursAt(text, line, at)
    && 0 < at && text[at - 1] == '\n'
    && at + |line| < |text| && text[at + |line|] == '\n'
  }

  /**
   * The text `downloadSummary` saves. It names the application id on a line
   * of its own, right after the title block.
   */
  function SummaryText(id: string, localeDate: string, data: Option<ModalData>, form: FormData): (text: string)
    ensures LineAt(text, "Application ID: " + id, |SUMMARY_HEADER|)
  {
    var header := SUMMARY_HEADER;
    HeaderEndsLine();
    var lines := SummaryLines(localeDate, data, form);
    LeadingBreak(lines);
    IdLine(header, "Application ID: " + id, "\n" + lines);
    header + ("Application ID: " + id) + SummaryTail(localeDate, data, form)
  }

  /** A line put between a text ending in a line break and one starting with a line break stands on its own. */
  lemma IdLine(header: string, line: string, tail: string)
    requires |header| > 0 && header[|header| - 1] == '\n'
    requires |tail| > 0 && tail[0] == '\n'
    ensures LineAt(header + line + tail, line, |header|)
  {
    var text := header + line + tail;
    assert text[|header|..|header| + |line|] == line;
  }

  /** The download's file name; the id can be read back from it, so distinct ids give distinct names. */
  function DownloadName(id: string): (n: string)
    ensures NamesFile(n, id)
  {
    "Wisecrew_App_" + id + ".txt"
  }

  /** `n` is `Wisecrew_App_<id>.txt`: the id sits between the 13-character stem and the extension. */
  predicate NamesFile(n: string, id: string) {
    |n| == |id| + 17 && n[13..|n| - 4] == id && n[|n| - 4..] == ".txt"
  }
}
