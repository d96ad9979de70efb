/** String helpers with the semantics of the Python and JavaScript built-ins the
    system relies on: `str.strip`, `str.replace("\n", " ")`, `str.join`,
    decimal rendering of integers, `String.prototype.trim` for blankness. */
module Text {

  /** The characters Python's `str.isspace` accepts, hence those `str.strip()`
      removes. */
  predicate IsPySpace(c: char) {
    || c == ' ' || c == '\t' || c == '\n' || c == '\r' || c == '\U{0B}' || c == '\U{0C}'
    || ('\U{1C}' <= c <= '\U{1F}') || c == '\U{85}' || c == '\U{A0}' || c == '\U{1680}'
    || ('\U{2000}' <= c <= '\U{200A}') || c == '\U{2028}' || c == '\U{2029}'
    || c == '\U{202F}' || c == '\U{205F}' || c == '\U{3000}'
  }

  /** The characters JavaScript's `String.prototype.trim` removes. */
  predicate IsJsSpace(c: char) {
    || c == ' ' || c == '\t' || c == '\n' || c == '\r' || c == '\U{0B}' || c == '\U{0C}'
    || c == '\U{A0}' || c == '\U{FEFF}' || c == '\U{1680}'
    || ('\U{2000}' <= c <= '\U{200A}') || c == '\U{2028}' || c == '\U{2029}'
    || c == '\U{202F}' || c == '\U{205F}' || c == '\U{3000}'
  }

  /** `!s.trim()` in JavaScript: the string is empty once trimmed. */
  predicate IsJsBlank(s: string) {
    forall k | 0 <= k < |s| :: IsJsSpace(s[k])
  }

  predicate AllPySpace(s: string) {
    forall k | 0 <= k < |s| :: IsPySpace(s[k])
  }

  /** Index of the first character `str.strip` keeps. */
  function StripStart(s: string): (i: nat)
    ensures i <= |s|
    ensures AllPySpace(s[..i])
    ensures i < |s| ==> !IsPySpace(s[i])
  {
    if s == [] || !IsPySpace(s[0]) then 0 else 1 + StripStart(s[1..])
  }

  /** One past the last character `str.strip` keeps. */
  function StripEnd(s: string): (j: nat)
    ensures j <= |s|
    ensures AllPySpace(s[j..])
    ensures j > 0 ==> !IsPySpace(s[j - 1])
  {
    if s == [] || !IsPySpace(s[|s| - 1]) then |s| else StripEnd(s[..|s| - 1])
  }

  /** Python's `s.strip()`: the longest slice without surrounding whitespace. */
  function Strip(s: string): (r: string)
    ensures |r| <= |s|
    ensures r == [] || (!IsPySpace(r[0]) && !IsPySpace(r[|r| - 1]))
  {
    var i := StripStart(s);
    if i == |s| then [] else s[i..StripEnd(s)]
  }

  /** `strip` leaves nothing exactly when every character is whitespace. */
  lemma StripEmpty(s: string)
    ensures Strip(s) == [] <==> AllPySpace(s)
  {
    if !AllPySpace(s) {
      NotAllSpaceStart(s);
    }
  }

  lemma StripNoSurroundingSpace(s: string)
    requires s == [] || (!IsPySpace(s[0]) && !IsPySpace(s[|s| - 1]))
    ensures Strip(s) == s
  {
  }

  lemma StripIdempotent(s: string)
    ensures Strip(Strip(s)) == Strip(s)
  {
    StripNoSurroundingSpace(Strip(s));
  }

  /** Whitespace added around a string does not survive `strip`. */
  lemma StripPadded(pre: string, s: string, post: string)
    requires AllPySpace(pre) && AllPySpace(post)
    ensures Strip(pre + s + post) == Strip(s)
  {
    if AllPySpace(s) {
      AllPySpaceConcat(pre, s);
      AllPySpaceConcat(pre + s, post);
    } else {
      StripPaddedKept(pre, s, post);
    }
  }

  lemma StripPaddedKept(pre: string, s: string, post: string)
    requires AllPySpace(pre) && AllPySpace(post) && !AllPySpace(s)
    ensures Strip(pre + s + post) == Strip(s)
  {
    var t := pre + s + post;
    var i, j := StripStart(s), StripEnd(s);
    assert StripStart(t) == |pre| + i && StripEnd(t) == |pre| + j by {
      PaddedBounds(pre, s, post);
    }
    assert t[|pre| + i..|pre| + j] == s[i..j] by {
      MiddleOfPadded(pre, s, post, i, j);
    }
    assert |pre| + j <= |t|;
    StripShiftedBounds(t, |pre|, s);
  }

  /** Padding shifts both ends of what `strip` keeps by the length of the
      leading whitespace. */
  lemma PaddedBounds(pre: string, s: string, post: string)
    requires AllPySpace(pre) && AllPySpace(post) && !AllPySpace(s)
    ensures StripStart(pre + s + post) == |pre| + StripStart(s)
    ensures StripEnd(pre + s + post) == |pre| + StripEnd(s)
  {
    PaddedStart(pre, s, post);
    PaddedEnd(pre, s, post);
  }

  lemma PaddedStart(pre: string, s: string, post: string)
    requires AllPySpace(pre) && !AllPySpace(s)
    ensures StripStart(pre + s + post) == |pre| + StripStart(s)
  {
    assert pre + s + post == pre + (s + post);
    StripStartOverSpaces(pre, s + post);
    StripStartKept(s, post);
  }

  lemma PaddedEnd(pre: string, s: string, post: string)
    requires AllPySpace(post) && !AllPySpace(s)
    ensures StripEnd(pre + s + post) == |pre| + StripEnd(s)
  {
    StripEndOverSpaces(pre + s, post);
    StripEndKept(pre, s);
  }

  /** What `strip` keeps of a string whose ends are those of another string
      shifted by `off`, with the same characters in between. */
  lemma StripShiftedBounds(t: string, off: nat, s: string)
    requires !AllPySpace(s)
    requires StripStart(t) == off + StripStart(s) && StripEnd(t) == off + StripEnd(s)
    requires off + StripEnd(s) <= |t|
    requires t[off + StripStart(s)..off + StripEnd(s)] == s[StripStart(s)..StripEnd(s)]
    ensures Strip(t) == Strip(s)
  {
    NotAllSpaceStart(s);
    var a, b := StripStart(t), StripEnd(t);
    assert a < b <= |t|;
    assert Strip(t) == t[a..b];
  }

  lemma MiddleOfPadded(pre: string, s: string, post: string, i: nat, j: nat)
    requires i <= j <= |s|
    ensures (pre + s + post)[|pre| + i..|pre| + j] == s[i..j]
  {
    var t := pre + s + post;
    forall k | 0 <= k < j - i ensures t[|pre| + i..|pre| + j][k] == s[i..j][k] {
      assert t[|pre| + i + k] == s[i + k];
    }
  }

  lemma NotAllSpaceStart(s: string)
    requires !AllPySpace(s)
    ensures StripStart(s) < StripEnd(s) && Strip(s) == s[StripStart(s)..StripEnd(s)]
  {
  }

  /** Leading whitespace is skipped by `StripStart`. */
  lemma {:induction false} StripStartOverSpaces(pre: string, x: string)
    requires AllPySpace(pre)
    ensures StripStart(pre + x) == |pre| + StripStart(x)
    decreases |pre|
  {
    if pre == [] {
      assert pre + x == x;
    } else {
      assert (pre + x)[0] == pre[0] && (pre + x)[1..] == pre[1..] + x;
      StripStartOverSpaces(pre[1..], x);
    }
  }

  /** What follows a non-blank string does not move its first kept character. */
  lemma {:induction false} StripStartKept(x: string, post: string)
    requires !AllPySpace(x)
    ensures StripStart(x + post) == StripStart(x)
    decreases |x|
  {
    assert (x + post)[0] == x[0];
    if IsPySpace(x[0]) {
      assert (x + post)[1..] == x[1..] + post;
      assert !AllPySpace(x[1..]) by {
        var k :| 0 <= k < |x| && !IsPySpace(x[k]);
        assert x[1..][k - 1] == x[k];
      }
      StripStartKept(x[1..], post);
    }
  }

  /** Trailing whitespace is skipped by `StripEnd`. */
  lemma {:induction false} StripEndOverSpaces(x: string, post: string)
    requires AllPySpace(post)
    ensures StripEnd(x + post) == StripEnd(x)
    decreases |post|
  {
    if post == [] {
      assert x + post == x;
    } else {
      var last := |post| - 1;
      assert (x + post)[|x + post| - 1] == post[last];
      assert (x + post)[..|x + post| - 1] == x + post[..last];
      StripEndOverSpaces(x, post[..last]);
    }
  }

  /** What precedes a non-blank string shifts its last kept character. */
  lemma {:induction false} StripEndKept(pre: string, x: string)
    requires !AllPySpace(x)
    ensures StripEnd(pre + x) == |pre| + StripEnd(x)
    decreases |x|
  {
    var last := |x| - 1;
    assert (pre + x)[|pre + x| - 1] == x[last];
    if IsPySpace(x[last]) {
      assert (pre + x)[..|pre + x| - 1] == pre + x[..last];
      assert !AllPySpace(x[..last]) by {
        var k :| 0 <= k < |x| && !IsPySpace(x[k]);
        assert k < last && x[..last][k] == x[k];
      }
      StripEndKept(pre, x[..last]);
    }
  }

  lemma AllPySpaceConcat(a: string, b: string)
    requires AllPySpace(a) && AllPySpace(b)
    ensures AllPySpace(a + b)
  {
    forall k | 0 <= k < |a + b| ensures IsPySpace((a + b)[k]) {
      if k < |a| { assert (a + b)[k] == a[k]; } else { assert (a + b)[k] == b[k - |a|]; }
    }
  }

  /** `s.replace("\n", " ")`. */
  function ReplaceNewlines(s: string): (r: string)
    ensures |r| == |s|
    ensures forall k | 0 <= k < |r| :: r[k] != '\n'
    ensures forall k | 0 <= k < |r| :: s[k] != '\n' ==> r[k] == s[k]
  {
    seq(|s|, k requires 0 <= k < |s| => if s[k] == '\n' then ' ' else s[k])
  }

  /** Python's `sep.join(parts)`. */
  function Join(sep: string, parts: seq<string>): string
  {
    if |parts| == 0 then ""
    else if |parts| == 1 then parts[0]
    else parts[0] + sep + Join(sep, parts[1..])
  }

  lemma {:induction false} JoinSnoc(sep: string, parts: seq<string>, x: string)
    requires |parts| >= 1
    ensures Join(sep, parts + [x]) == Join(sep, parts) + sep + x
  {
    if |parts| == 1 {
      assert (parts + [x])[1..] == [x];
    } else {
      assert (parts + [x])[1..] == parts[1..] + [x];
      JoinSnoc(sep, parts[1..], x);
    }
  }

  function DigitChar(d: nat): char
    requires d < 10
  {
    ['0', '1', '2', '3', '4', '5', '6', '7', '8', '9'][d]
  }

  function DigitValue(c: char): nat
  {
    if '0' <= c <= '9' then (c as int - '0' as int) as nat else 0
  }

  predicate IsDigit(c: char) {
    '0' <= c <= '9'
  }

  /** The value of a string of decimal digits. */
  function DigitsValue(s: string): nat
  {
    if s == [] then 0 else 10 * DigitsValue(s[..|s| - 1]) + DigitValue(s[|s| - 1])
  }

  /** Decimal rendering of a natural number, as `str(n)` and `${n}` give it. */
  function NatToString(n: nat): (r: string)
    ensures |r| >= 1
    ensures forall k | 0 <= k < |r| :: IsDigit(r[k])
    ensures r[0] == '0' ==> n == 0 && r == "0"
  {
    if n < 10 then [DigitChar(n)] else NatToString(n / 10) + [DigitChar(n % 10)]
  }

  /** Rendering is undone by reading the digits back. */
  lemma {:induction false} NatToStringRoundTrip(n: nat)
    ensures DigitsValue(NatToString(n)) == n
  {
    if n >= 10 {
      var s := NatToString(n);
      assert s[..|s| - 1] == NatToString(n / 10);
      NatToStringRoundTrip(n / 10);
    }
  }

  lemma NatToStringInjective(a: nat, b: nat)
    requires NatToString(a) == NatToString(b)
    ensures a == b
  {
    NatToStringRoundTrip(a);
    NatToStringRoundTrip(b);
  }

  /** Decimal rendering of an integer, with a leading '-' for negatives. */
  function IntToString(i: int): (r: string)
    ensures |r| >= 1
    ensures i >= 0 ==> r == NatToString(i)
    ensures i < 0 ==> r == "-" + NatToString(-i)
  {
    if i >= 0 then NatToString(i) else "-" + NatToString(-i)
  }

  /** `pat` occurs in `s` starting at index `i`. */
  predicate OccursAt(s: string, i: int, pat: string) {
    0 <= i && i + |pat| <= |s| && s[i..i + |pat|] == pat
  }

  /** Python's `pat in s`. */
  predicate Contains(s: string, pat: string) {
    exists i | 0 <= i <= |s| :: OccursAt(s, i, pat)
  }

  /** Python's `s.endswith(suffix)`. */
  predicate EndsWith(s: string, suffix: string) {
    |suffix| <= |s| && s[|s| - |suffix|..] == suffix
  }
  /** An occurrence survives putting text around it. */
  lemma ContainsInside(pre: string, s: string, post: string, pat: string)
    requires Contains(s, pat)
    ensures Contains(pre + s + post, pat)
  {
    var i :| 0 <= i <= |s| && OccursAt(s, i, pat);
    var t := pre + s + post;
    assert t[|pre| + i..|pre| + i + |pat|] == s[i..i + |pat|];
    assert OccursAt(t, |pre| + i, pat);
  }

  /** An occurrence of an occurrence is an occurrence. */
  lemma ContainsTransitive(s: string, t: string, pat: string)
    requires Contains(s, t) && Contains(t, pat)
    ensures Contains(s, pat)
  {
    var i :| 0 <= i <= |s| && OccursAt(s, i, t);
    assert s == s[..i] + t + s[i + |t|..];
    ContainsInside(s[..i], t, s[i + |t|..], pat);
  }

  /** Every part occurs in the joined string. */
  lemma {:induction false} JoinContains(sep: string, parts: seq<string>, k: nat)
    requires k < |parts|
    ensures Contains(Join(sep, parts), parts[k])
  {
    var p := parts[k];
    assert OccursAt(p, 0, p);
    if |parts| == 1 {
    } else if k == 0 {
      ContainsInside("", p, sep + Join(sep, parts[1..]), p);
      assert "" + p + (sep + Join(sep, parts[1..])) == Join(sep, parts);
    } else {
      assert parts[1..][k - 1] == p;
      JoinContains(sep, parts[1..], k - 1);
      ContainsInside(parts[0] + sep, Join(sep, parts[1..]), "", p);
      assert parts[0] + sep + Join(sep, parts[1..]) + "" == Join(sep, parts);
    }
  }
}
