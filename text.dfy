/**
 * The JavaScript string operations the components rely on: `trim`,
 * `toLowerCase`, `includes`, `split`, `replace`, the `\s`/`\d` character
 * classes and the decimal rendering of a number.
 */
module Text {
  import Seqs

  /**
   * The characters JavaScript counts as white space in `trim()` and in the
   * regular-expression class `\s`: the ECMAScript WhiteSpace and
   * LineTerminator code points.
   */
  predicate IsWhite(c: char) {
    || c == '\t' || c == '\n' || c == '\U{000B}' || c == '\U{000C}' || c == '\r'
    || c == ' ' || c == '\U{00A0}' || c == '\U{1680}'
    || ('\U{2000}' <= c <= '\U{200A}')
    || c == '\U{2028}' || c == '\U{2029}' || c == '\U{202F}' || c == '\U{205F}'
    || c == '\U{3000}' || c == '\U{FEFF}'
  }

  /** Only white space (or nothing at all). */
  predicate IsBlank(s: string) {
    forall i | 0 <= i < |s| :: IsWhite(s[i])
  }

  /** `r` is the part of `s` at offset `a`, with only white space before and after it. */
  predicate FramedBy(s: string, r: string, a: int) {
    0 <= a && a + |r| <= |s| && r == s[a..a + |r|] && IsBlank(s[..a]) && IsBlank(s[a + |r|..])
  }

  /**
   * `s.trim()`: leading and trailing white space removed, so the result
   * starts and ends with a character that is not white space.
   */
  function Trim(s: string): (r: string)
    ensures |r| <= |s|
    ensures r == [] || (!IsWhite(r[0]) && !IsWhite(r[|r| - 1]))
    decreases |s|
  {
    if s == [] then []
    else if IsWhite(s[0]) then Trim(s[1..])
    else if IsWhite(s[|s| - 1]) then Trim(s[..|s| - 1])
    else s
  }

  /** White space followed by white space is white space. */
  lemma BlankAround(x: string, y: string)
    requires IsBlank(x) && IsBlank(y)
    ensures IsBlank(x + y)
  {
    forall i | 0 <= i < |x + y| ensures IsWhite((x + y)[i]) {
      if i >= |x| { assert (x + y)[i] == y[i - |x|]; }
    }
  }

  /** A framing survives white space added in front. */
  lemma FrameCons(c: char, t: string, r: string, a: int)
    requires IsWhite(c) && FramedBy(t, r, a)
    ensures FramedBy([c] + t, r, a + 1)
  {
    var s := [c] + t;
    assert s[..a + 1] == [c] + t[..a];
    BlankAround([c], t[..a]);
    assert s[a + 1..a + 1 + |r|] == t[a..a + |r|];
    assert s[a + 1 + |r|..] == t[a + |r|..];
  }

  /** A framing survives white space added at the end. */
  lemma FrameSnoc(t: string, c: char, r: string, a: int)
    requires IsWhite(c) && FramedBy(t, r, a)
    ensures FramedBy(t + [c], r, a)
  {
    var s := t + [c];
    assert s[a + |r|..] == t[a + |r|..] + [c];
    BlankAround(t[a + |r|..], [c]);
    assert s[..a] == t[..a];
    assert s[a..a + |r|] == t[a..a + |r|];
  }

  /** The trimmed string is the part of `s` between its leading and its trailing white space. */
  lemma {:induction false} TrimFrames(s: string)
    ensures exists a :: FramedBy(s, Trim(s), a)
    decreases |s|
  {
    var r := Trim(s);
    if s == [] {
      assert FramedBy(s, r, 0);
    } else if IsWhite(s[0]) {
      var t := s[1..];
      assert [s[0]] + t == s;
      TrimFrames(t);
      var a :| FramedBy(t, r, a);
      FrameCons(s[0], t, r, a);
    } else if IsWhite(s[|s| - 1]) {
      var t := s[..|s| - 1];
      assert t + [s[|s| - 1]] == s;
      TrimFrames(t);
      var a :| FramedBy(t, r, a);
      FrameSnoc(t, s[|s| - 1], r, a);
    } else {
      assert FramedBy(s, r, 0);
    }
  }

  /** `!s.trim()`: the trimmed string is empty exactly when `s` is blank. */
  lemma TrimEmptyIffBlank(s: string)
    ensures Trim(s) == [] <==> IsBlank(s)
  {
    var r := Trim(s);
    TrimFrames(s);
    var a :| FramedBy(s, r, a);
    if r == [] {
      forall i | 0 <= i < |s| ensures IsWhite(s[i]) {
        if i < a { assert s[..a][i] == s[i]; } else { assert s[a..][i - a] == s[i]; }
      }
    } else {
      assert s[a] == r[0];
    }
  }

  /** Trimming twice trims nothing more. */
  lemma TrimIdempotent(s: string)
    ensures Trim(Trim(s)) == Trim(s)
  {
  }

  /** ASCII `toLowerCase` of one character. */
  function LowerChar(c: char): (d: char)
    ensures 'A' <= c <= 'Z' ==> d as int == c as int + 32
    ensures !('A' <= c <= 'Z') ==> d == c
    ensures !('A' <= d <= 'Z')
  {
    if 'A' <= c <= 'Z' then (c as int + 32) as char else c
  }

  /** `s.toLowerCase()` for the ASCII letters. */
  function ToLower(s: string): (r: string)
    ensures |r| == |s|
    ensures forall i | 0 <= i < |s| :: r[i] == LowerChar(s[i])
  {
    seq(|s|, i requires 0 <= i < |s| => LowerChar(s[i]))
  }

  /** No ASCII capital letter. */
  predicate IsLower(s: string) {
    forall i | 0 <= i < |s| :: !('A' <= s[i] <= 'Z')
  }

  /** Lowering leaves a lower-case string as it is, and lowering twice is lowering once. */
  lemma ToLowerFacts(s: string)
    ensures IsLower(ToLower(s))
    ensures IsLower(s) ==> ToLower(s) == s
    ensures ToLower(ToLower(s)) == ToLower(s)
  {
  }

  /** `t` occurs in `s` starting at position `i`. */
  predicate OccursAt(s: string, t: string, i: int) {
    0 <= i && i + |t| <= |s| && s[i..i + |t|] == t
  }

  /** `s.includes(t)`: `t` occurs somewhere in `s`. */
  function Contains(s: string, t: string): (r: bool)
    ensures r <==> exists i :: OccursAt(s, t, i)
    decreases |s|
  {
    if |t| > |s| then false
    else if s[..|t|] == t then
      assert OccursAt(s, t, 0);
      true
    else
      var r := Contains(s[1..], t);
      if r then
        var i :| OccursAt(s[1..], t, i);
        assert s[1..][i..i + |t|] == s[i + 1..i + 1 + |t|];
        assert OccursAt(s, t, i + 1);
        true
      else
        assert !OccursAt(s, t, 0);
        assert forall i | 1 <= i && OccursAt(s, t, i) :: OccursAt(s[1..], t, i - 1) by {
          forall i | 1 <= i && OccursAt(s, t, i) ensures OccursAt(s[1..], t, i - 1) {
            assert s[1..][i - 1..i - 1 + |t|] == s[i..i + |t|];
          }
        }
        false
  }

  /** A string occurs in any string built around it. */
  lemma ContainsInfix(a: string, t: string, b: string)
    ensures Contains(a + t + b, t)
  {
    assert (a + t + b)[|a|..|a| + |t|] == t;
    assert OccursAt(a + t + b, t, |a|);
  }

  /** The character `c` does not occur in `s`. */
  predicate Lacks(s: string, c: char) {
    forall i | 0 <= i < |s| :: s[i] != c
  }

  /** `s.split(sep)` for a one-character separator: the maximal pieces between separators. */
  function Split(s: string, sep: char): (r: seq<string>)
    ensures |r| >= 1
    ensures forall k | 0 <= k < |r| :: Lacks(r[k], sep)
    decreases |s|
  {
    if s == [] then [[]]
    else
      var rest := Split(s[1..], sep);
      if s[0] == sep then [[]] + rest
      else [[s[0]] + rest[0]] + rest[1..]
  }

  /** Pieces glued back together with `sep` between them: `pieces.join(sep)`. */
  function Join(pieces: seq<string>, sep: char): string
    requires |pieces| >= 1
  {
    if |pieces| == 1 then pieces[0] else pieces[0] + [sep] + Join(pieces[1..], sep)
  }

  /** Splitting loses nothing: joining the pieces gives back `s`. */
  lemma {:induction false} JoinSplit(s: string, sep: char)
    ensures Join(Split(s, sep), sep) == s
    decreases |s|
  {
    if s != [] {
      var rest := Split(s[1..], sep);
      JoinSplit(s[1..], sep);
      if s[0] == sep {
        assert Split(s, sep)[1..] == rest;
      } else {
        var r := Split(s, sep);
        if |rest| == 1 {
          assert r == [[s[0]] + rest[0]];
        } else {
          assert r[1..] == rest[1..];
          assert Join(r, sep) == [s[0]] + rest[0] + [sep] + Join(rest[1..], sep);
        }
      }
    }
  }

  /** A string without the separator is one piece. */
  lemma {:induction false} SplitLacking(s: string, sep: char)
    requires Lacks(s, sep)
    ensures Split(s, sep) == [s]
    decreases |s|
  {
    if s != [] {
      SplitLacking(s[1..], sep);
      assert [s[0]] + s[1..] == s;
    }
  }

  /** The first piece runs up to the first separator, and is followed by the split of the rest. */
  lemma {:induction false} SplitAt(a: string, sep: char, b: string)
    requires Lacks(a, sep)
    ensures Split(a + [sep] + b, sep) == [a] + Split(b, sep)
    decreases |a|
  {
    if a == [] {
      assert (a + [sep] + b)[1..] == b;
    } else {
      SplitAt(a[1..], sep, b);
      assert (a + [sep] + b)[1..] == a[1..] + [sep] + b;
      assert [a[0]] + a[1..] == a;
    }
  }

  /** `r` is `s` without the character at `k`, which is the first `c` in `s`. */
  predicate FirstRemovedAt(s: string, c: char, k: int, r: string) {
    0 <= k < |s| && s[k] == c && Lacks(s[..k], c) && r == s[..k] + s[k + 1..]
  }

  /** The position of the first `c` in a string that has one. */
  function FirstIndex(s: string, c: char): (k: nat)
    requires !Lacks(s, c)
    ensures k < |s| && s[k] == c && Lacks(s[..k], c)
  {
    if s[0] == c then 0
    else
      assert !Lacks(s[1..], c);
      var k := FirstIndex(s[1..], c);
      assert s[..k + 1] == [s[0]] + s[1..][..k];
      k + 1
  }

  /** `s.replace(c, '')` with a one-character pattern: the first `c`, if any, removed. */
  function RemoveFirst(s: string, c: char): (r: string)
    ensures Lacks(s, c) ==> r == s
    ensures !Lacks(s, c) ==> exists k :: FirstRemovedAt(s, c, k, r)
  {
    if Lacks(s, c) then s
    else
      var k := FirstIndex(s, c);
      assert FirstRemovedAt(s, c, k, s[..k] + s[k + 1..]);
      s[..k] + s[k + 1..]
  }

  /** `s.replace(/c/g, '')`: every `c` removed. */
  function RemoveAll(s: string, c: char): (r: string)
    ensures Lacks(r, c)
    ensures forall i | 0 <= i < |r| :: r[i] in s
  {
    Seqs.Remove(s, c)
  }

  /** Removing a character the string lacks changes nothing. */
  lemma {:induction false} RemoveAllLacking(s: string, c: char)
    requires Lacks(s, c)
    ensures RemoveAll(s, c) == s
  {
    if s != [] {
      RemoveAllLacking(s[1..], c);
      assert [s[0]] + s[1..] == s;
    }
  }

  /** Removal distributes over concatenation. */
  lemma {:induction false} RemoveAllAppend(a: string, b: string, c: char)
    ensures RemoveAll(a + b, c) == RemoveAll(a, c) + RemoveAll(b, c)
  {
    if a != [] {
      RemoveAllAppend(a[1..], b, c);
      assert (a + b)[1..] == a[1..] + b;
    } else {
      assert a + b == b;
    }
  }

  /** The regular-expression class `\d`: an ASCII decimal digit. */
  predicate IsDigit(c: char) {
    '0' <= c <= '9'
  }

  /** Only decimal digits. */
  predicate AllDigits(s: string) {
    forall i | 0 <= i < |s| :: IsDigit(s[i])
  }

  /** The digit character for `d`. */
  function DigitChar(d: nat): (c: char)
    requires d < 10
    ensures IsDigit(c) && c as int - '0' as int == d
  {
    ('0' as int + d) as char
  }

  /** The number a string of digits denotes. */
  function DigitsValue(s: string): nat
    requires AllDigits(s)
  {
    if s == [] then 0 else DigitsValue(s[..|s| - 1]) * 10 + (s[|s| - 1] as int - '0' as int)
  }

  /** `String(n)` for a natural number: its decimal digits, without leading zeros. */
  function DecimalString(n: nat): (r: string)
    ensures |r| >= 1 && AllDigits(r)
    ensures |r| > 1 ==> r[0] != '0'
  {
    if n < 10 then [DigitChar(n)] else DecimalString(n / 10) + [DigitChar(n % 10)]
  }

  /** Rendering a number and reading it back gives the number. */
  lemma {:induction false} DecimalRoundTrip(n: nat)
    ensures DigitsValue(DecimalString(n)) == n
  {
    if n >= 10 {
      DecimalRoundTrip(n / 10);
      var r := DecimalString(n);
      assert r[..|r| - 1] == DecimalString(n / 10);
    }
  }

  /** A number in [1000, 9999] is written with exactly four digits. */
  lemma FourDigits(n: nat)
    requires 1000 <= n <= 9999
    ensures |DecimalString(n)| == 4
  {
    var a := n / 10;
    var b := a / 10;
    var c := b / 10;
    assert 1 <= c < 10;
    assert |DecimalString(c)| == 1;
    assert |DecimalString(b)| == 2;
    assert |DecimalString(a)| == 3;
  }
}
