/**
 * The "Apply Now" section: a plain form over six text fields, a role picker
 * listing every internship and every position, and a thank-you card shown
 * for a while after submitting. Nothing is stored.
 */
module ApplySection {
  import opened Types
  import Seqs
  import Constants

  /**
   * The form's inputs, by their names. The state also holds a `message`
   * entry, but no input carries that name, so no change event reaches it.
   */
  datatype ApplyField = Name | Email | Phone | College | Role

  datatype ApplyFormData = ApplyFormData(
    name: string, email: string, phone: string, college: string, role: string, message: string)
  {
    function Get(f: ApplyField): string {
      match f
      case Name => name
      case Email => email
      case Phone => phone
      case College => college
      case Role => role
    }

    /** `{ ...formData, [name]: value }`: field `f` takes `v`, every other field keeps its value. */
    function With(f: ApplyField, v: string): (r: ApplyFormData)
      ensures r.Get(f) == v
      ensures forall g | g != f :: r.Get(g) == Get(g)
    {
      match f
      case Name => this.(name := v)
      case Email => this.(email := v)
      case Phone => this.(phone := v)
      case College => this.(college := v)
      case Role => this.(role := v)
    }
  }

  const EMPTY_APPLY_FORM: ApplyFormData := ApplyFormData("", "", "", "", "", "")

  const INTERNSHIP_PREFIX: string := "Internship: "
  const JOB_PREFIX: string := "Job: "

  function InternshipRole(i: Internship): string {
    INTERNSHIP_PREFIX + i.title
  }

  function JobRole(j: Job): string {
    JOB_PREFIX + j.title
  }

  /** `allRoles`: one entry per internship, then one per position, each list in its own order. */
  function AllRoles(internships: seq<Internship>, jobs: seq<Job>): (r: seq<string>)
    ensures |r| == |internships| + |jobs|
  {
    Seqs.Map(internships, InternshipRole) + Seqs.Map(jobs, JobRole)
  }

  /** Where a role entry came from: the internship or the position list, and the title. */
  datatype RoleSource = FromInternship(title: string) | FromJob(title: string)

  /** Reads a role entry back by its prefix; anything else is not a role entry. */
  function ParseRole(entry: string): (r: RoleSource)
    requires (|entry| >= |INTERNSHIP_PREFIX| && entry[..|INTERNSHIP_PREFIX|] == INTERNSHIP_PREFIX)
      || (|entry| >= |JOB_PREFIX| && entry[..|JOB_PREFIX|] == JOB_PREFIX)
  {
    if |entry| >= |INTERNSHIP_PREFIX| && entry[..|INTERNSHIP_PREFIX|] == INTERNSHIP_PREFIX
    then FromInternship(entry[|INTERNSHIP_PREFIX|..])
    else FromJob(entry[|JOB_PREFIX|..])
  }

  /**
   * The role list has one entry per internship and per position, and every
   * entry reads back as the title it was built from, internships first, in order.
   */
  lemma {:induction false} AllRolesDecode(internships: seq<Internship>, jobs: seq<Job>, k: nat)
    requires k < |AllRoles(internships, jobs)|
    ensures |AllRoles(internships, jobs)| == |internships| + |jobs|
    ensures k < |internships| ==> ParseRole(AllRoles(internships, jobs)[k]) == FromInternship(internships[k].title)
    ensures k >= |internships| ==> ParseRole(AllRoles(internships, jobs)[k]) == FromJob(jobs[k - |internships|].title)
  {
    var roles := AllRoles(internships, jobs);
    if k < |internships| {
      var e := roles[k];
      assert e == INTERNSHIP_PREFIX + internships[k].title;
      assert e[..|INTERNSHIP_PREFIX|] == INTERNSHIP_PREFIX;
      assert e[|INTERNSHIP_PREFIX|..] == internships[k].title;
    } else {
      var e := roles[k];
      var t := jobs[k - |internships|].title;
      assert e == JOB_PREFIX + t;
      assert e[..|JOB_PREFIX|] == JOB_PREFIX;
      assert e[|JOB_PREFIX|..] == t;
      assert e[0] == 'J';
      assert !(|e| >= |INTERNSHIP_PREFIX| && e[..|INTERNSHIP_PREFIX|] == INTERNSHIP_PREFIX) by {
        if |e| >= |INTERNSHIP_PREFIX| {
          assert e[..|INTERNSHIP_PREFIX|][0] == 'J';
        }
      }
    }
  }

  /** The site's picker offers eleven roles: five internships and six positions. */
  lemma SiteRoleCount()
    ensures |AllRoles(Constants.INTERNSHIPS, Constants.JOBS)| == 11
  {
  }

  /**
   * The browser's `required` checks, which must pass before it delivers the
   * submit event: name, email, phone and role are not empty. The role
   * picker's placeholder entry has the empty value.
   */
  predicate RequiredFilled(d: ApplyFormData) {
    d.name != "" && d.email != "" && d.phone != "" && d.role != ""
  }

  /** A timer the submit handler started and that has not fired yet. */
  datatype Timer = ShowThanks | HideThanks

  /**
   * The section's state: the form data, what the inputs on screen hold, the
   * thank-you flag and the pending timers. The inputs are uncontrolled: they
   * start empty whenever the form is mounted again, while the form data
   * keeps the values last typed.
   */
  class ApplyForm {
    var submitted: bool
    var formData: ApplyFormData
    var onScreen: ApplyFormData
    /** Timers started and not yet fired, in no particular order of firing. */
    var pending: seq<Timer>

    constructor()
      ensures !submitted && formData == EMPTY_APPLY_FORM && onScreen == EMPTY_APPLY_FORM && pending == []
    {
      submitted := false;
      formData := EMPTY_APPLY_FORM;
      onScreen := EMPTY_APPLY_FORM;
      pending := [];
    }

    /** `handleChange`: the input shows `v`, and only the named field of the form data changes. */
    method Change(f: ApplyField, v: string)
      modifies this
      ensures formData == old(formData).With(f, v) && onScreen == old(onScreen).With(f, v)
      ensures submitted == old(submitted) && pending == old(pending)
    {
      formData := formData.With(f, v);
      onScreen := onScreen.With(f, v);
    }

    /**
     * Pressing submit: when a required input on screen is empty the browser
     * withholds the event and nothing happens; otherwise `handleSubmit`
     * suppresses the default submission and starts a one-second timer.
     */
    method Submit()
      modifies this
      ensures !RequiredFilled(old(onScreen)) ==> pending == old(pending)
      ensures RequiredFilled(old(onScreen)) ==> pending == old(pending) + [ShowThanks]
      ensures submitted == old(submitted) && formData == old(formData) && onScreen == old(onScreen)
    {
      if !RequiredFilled(onScreen) {
        return;
      }
      pending := pending + [ShowThanks];
    }

    /**
     * Pending timer `k` fires: showing the thanks card starts the five-second
     * timer that hides it again; hiding it ends the sequence, and when the
     * card was up the form is mounted again with empty inputs.
     */
    method Fire(k: nat)
      requires k < |pending|
      modifies this
      ensures old(pending)[k] == ShowThanks ==>
        submitted && pending == old(pending)[..k] + old(pending)[k + 1..] + [HideThanks] && onScreen == old(onScreen)
      ensures old(pending)[k] == HideThanks ==>
        && !submitted && pending == old(pending)[..k] + old(pending)[k + 1..]
        && onScreen == (if old(submitted) then EMPTY_APPLY_FORM else old(onScreen))
      ensures formData == old(formData)
    {
      var t := pending[k];
      pending := pending[..k] + pending[k + 1..];
      if t == ShowThanks {
        submitted := true;
        pending := pending + [HideThanks];
      } else {
        if submitted {
          onScreen := EMPTY_APPLY_FORM;
        }
        submitted := false;
      }
    }
  }

  /**
   * From a quiet form whose required inputs are filled, one submission shows
   * the thank-you card and then hides it: the flag reads false, true, false,
   * no timer is left, the inputs are empty again (so a second press is
   * withheld until they are filled), and the form data still holds what was typed.
   */
  method SubmitAndWait(form: ApplyForm) returns (trace: seq<bool>)
    requires !form.submitted && form.pending == [] && RequiredFilled(form.onScreen)
    modifies form
    ensures trace == [false, true, false]
    ensures !form.submitted && form.pending == [] && form.formData == old(form.formData)
    ensures form.onScreen == EMPTY_APPLY_FORM && !RequiredFilled(form.onScreen)
  {
    trace := [form.submitted];
    form.Submit();
    form.Fire(0);
    trace := trace + [form.submitted];
    form.Fire(0);
    trace := trace + [form.submitted];
  }
}
