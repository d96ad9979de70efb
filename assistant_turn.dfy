/** The reading of the model server's raw output in the HTTP RAG service:
    `re.findall(r"<\|assistant\|>\s*(.*?)(?=<\|user\|>|$)", text, re.DOTALL)`
    and the last capture, stripped; the whole text, stripped, when nothing
    matches. The regex is written out as the scan the engine performs. */
module AssistantTurn {
  import opened Text

  const AssistantTag: string := "<|assistant|>"
  const UserTag: string := "<|user|>"

  /** Past `\s*`: the first position at or after `i` that is not whitespace
      (Python's `\s` on `str` patterns is `str.isspace`). */
  function SkipSpace(s: string, i: nat): (a: nat)
    requires i <= |s|
    ensures i <= a <= |s|
    ensures forall k | i <= k < a :: IsPySpace(s[k])
    ensures a < |s| ==> !IsPySpace(s[a])
    decreases |s| - i
  {
    if i == |s| || !IsPySpace(s[i]) then i else SkipSpace(s, i + 1)
  }

  /** Where the lookahead `(?=<\|user\|>|$)` succeeds: before a user tag, at
      the end, or before a final newline (`$` without MULTILINE). */
  predicate LookaheadAt(s: string, q: int) {
    OccursAt(s, q, UserTag) || q == |s| || (0 <= q && q == |s| - 1 && s[q] == '\n')
  }

  /** The end of the lazy capture `(.*?)` started at `a`: the first position
      where the lookahead succeeds. */
  function CaptureEnd(s: string, a: nat): (q: nat)
    requires a <= |s|
    ensures a <= q <= |s| && LookaheadAt(s, q)
    ensures forall k | a <= k < q :: !LookaheadAt(s, k)
    decreases |s| - a
  {
    if LookaheadAt(s, a) then a else CaptureEnd(s, a + 1)
  }

  /** The captures of `findall` scanning from position `p`. */
  function FindAll(s: string, p: nat): (ms: seq<string>)
    requires p <= |s|
    decreases |s| - p
  {
    if p + |AssistantTag| > |s| then []
    else if OccursAt(s, p, AssistantTag) then
      var a := SkipSpace(s, p + |AssistantTag|);
      var q := CaptureEnd(s, a);
      [s[a..q]] + FindAll(s, q)
    else FindAll(s, p + 1)
  }

  /** What `send_prompt` returns for a 200 response. */
  function ExtractAssistant(s: string): (r: string)
    ensures FindAll(s, 0) == [] ==> r == Strip(s)
    ensures FindAll(s, 0) != [] ==> r == Strip(FindAll(s, 0)[|FindAll(s, 0)| - 1])
  {
    var ms := FindAll(s, 0);
    if ms == [] then Strip(s) else Strip(ms[|ms| - 1])
  }

  predicate TagFrom(s: string, p: nat) {
    exists i | p <= i <= |s| :: OccursAt(s, i, AssistantTag)
  }

  /** The scan finds nothing exactly when no assistant tag starts at or
      after `p`. */
  lemma {:induction false} FindAllEmpty(s: string, p: nat)
    requires p <= |s|
    ensures FindAll(s, p) == [] <==> !TagFrom(s, p)
    decreases |s| - p
  {
    if p + |AssistantTag| > |s| {
    } else if OccursAt(s, p, AssistantTag) {
    } else {
      FindAllEmpty(s, p + 1);
      if TagFrom(s, p) {
        var i :| p <= i <= |s| && OccursAt(s, i, AssistantTag);
        assert i != p;
      }
    }
  }

  /** With no assistant tag anywhere the whole text is returned stripped. */
  lemma NoTagWholeText(s: string)
    requires !Contains(s, AssistantTag)
    ensures ExtractAssistant(s) == Strip(s)
  {
    FindAllEmpty(s, 0);
  }

  /** An occurrence inside a slice is an occurrence in the whole string. */
  lemma OccursInSlice(s: string, a: nat, q: nat, j: nat, pat: string)
    requires a <= q <= |s| && OccursAt(s[a..q], j, pat)
    ensures OccursAt(s, a + j, pat) && a + j + |pat| <= q
  {
    forall k | 0 <= k < |pat| ensures s[a + j + k] == pat[k] {
      assert s[a..q][j..j + |pat|][k] == pat[k];
      assert s[a..q][j + k] == s[a + j + k];
    }
    assert s[a + j..a + j + |pat|] == pat;
  }

  /** No capture contains a user tag: the lazy capture stops before the
      first one. */
  lemma {:induction false} CapturesWithoutUserTag(s: string, p: nat)
    requires p <= |s|
    ensures forall k | 0 <= k < |FindAll(s, p)| :: !Contains(FindAll(s, p)[k], UserTag)
    decreases |s| - p
  {
    if p + |AssistantTag| <= |s| {
      if OccursAt(s, p, AssistantTag) {
        var a := SkipSpace(s, p + |AssistantTag|);
        var q := CaptureEnd(s, a);
        CapturesWithoutUserTag(s, q);
        assert !Contains(s[a..q], UserTag) by {
          if Contains(s[a..q], UserTag) {
            var j :| 0 <= j <= |s[a..q]| && OccursAt(s[a..q], j, UserTag);
            OccursInSlice(s, a, q, j, UserTag);
            assert LookaheadAt(s, a + j);
          }
        }
        var ms := FindAll(s, p);
        assert ms == [s[a..q]] + FindAll(s, q);
        forall k | 0 < k < |ms| ensures !Contains(ms[k], UserTag) {
          assert ms[k] == FindAll(s, q)[k - 1];
        }
      } else {
        CapturesWithoutUserTag(s, p + 1);
      }
    }
  }

  /** Past an assistant tag's first character no '<' starts before the tag
      ends, so no other tag can overlap it. */
  lemma TagHasOneOpening(s: string, p: nat, i: nat)
    requires OccursAt(s, p, AssistantTag) && p < i < p + |AssistantTag|
    ensures s[i] != '<'
  {
    assert s[i] == AssistantTag[i - p];
  }

  /** Positions without a tag are skipped. */
  lemma {:induction false} FindAllSkip(s: string, p: nat, r: nat)
    requires p <= r <= |s|
    requires forall i | p <= i < r :: !OccursAt(s, i, AssistantTag)
    ensures FindAll(s, p) == FindAll(s, r)
    decreases r - p
  {
    if p < r {
      FindAllSkip(s, p + 1, r);
      if p + |AssistantTag| > |s| {
        FindAllEmpty(s, p + 1);
        FindAllEmpty(s, r);
      }
    }
  }

  /** A tag followed by nothing but whitespace, with no tag before it,
      yields the empty answer. */
  lemma BareTrailingTag(pre: string, ws: string)
    requires AllPySpace(ws)
    requires forall i | 0 <= i < |pre| :: !OccursAt(pre + AssistantTag + ws, i, AssistantTag)
    ensures ExtractAssistant(pre + AssistantTag + ws) == ""
  {
    var s := pre + AssistantTag + ws;
    assert s[|pre|..|pre| + |AssistantTag|] == AssistantTag;
    FindAllSkip(s, 0, |pre|);
    var a := SkipSpace(s, |pre| + |AssistantTag|);
    forall k | |pre| + |AssistantTag| <= k < |s| ensures IsPySpace(s[k]) {
      assert s[k] == ws[k - |pre| - |AssistantTag|];
    }
    assert a == |s|;
    assert FindAll(s, |pre|) == [s[a..a]] + FindAll(s, a);
  }
  /** A user tag cannot start inside an assistant tag. */
  lemma UserTagAfterAssistantTag(s: string, p: nat, u: nat)
    requires OccursAt(s, p, AssistantTag) && OccursAt(s, u, UserTag) && p < u
    ensures p + |AssistantTag| <= u
  {
    assert s[u] == UserTag[0];
    if u < p + |AssistantTag| {
      TagHasOneOpening(s, p, u);
    }
  }

  lemma ConsThrough<T>(all: seq<T>, x: T, tail: seq<T>, ms: seq<T>, rest: seq<T>)
    requires all == [x] + tail && tail == ms + rest
    ensures all == ([x] + ms) + rest
  {
  }

  /** A capture started before a user tag ends at or before it. */
  lemma CaptureBeforeUser(s: string, t: nat, u: nat)
    requires t <= u && OccursAt(s, u, UserTag)
    ensures SkipSpace(s, t) <= u && CaptureEnd(s, SkipSpace(s, t)) <= u
  {
    assert s[u] == UserTag[0];
    assert !IsPySpace(s[u]);
    assert LookaheadAt(s, u);
  }

  /** The scan never runs past a user tag: what it finds from `u` on is
      the tail of what it finds from any earlier position. */
  lemma {:induction false} FindAllThroughUser(s: string, p: nat, u: nat)
    requires p <= u && OccursAt(s, u, UserTag)
    ensures exists ms :: FindAll(s, p) == ms + FindAll(s, u)
    decreases u - p, 1
  {
    if p == u || p + |AssistantTag| > |s| {
      assert FindAll(s, p) == [] + FindAll(s, u);
    } else if OccursAt(s, p, AssistantTag) {
      FindAllThroughTag(s, p, u);
    } else {
      FindAllThroughUser(s, p + 1, u);
    }
  }

  /** The case of `FindAllThroughUser` where an assistant tag starts at `p`:
      its capture ends at or before the user tag. */
  lemma {:induction false} FindAllThroughTag(s: string, p: nat, u: nat)
    requires p < u && OccursAt(s, u, UserTag) && OccursAt(s, p, AssistantTag)
    ensures exists ms :: FindAll(s, p) == ms + FindAll(s, u)
    decreases u - p, 0
  {
    UserTagAfterAssistantTag(s, p, u);
    var t := p + |AssistantTag|;
    var a := SkipSpace(s, t);
    var q := CaptureEnd(s, a);
    CaptureBeforeUser(s, t, u);
    assert FindAll(s, p) == [s[a..q]] + FindAll(s, q);
    FindAllThroughUser(s, q, u);
    var ms :| FindAll(s, q) == ms + FindAll(s, u);
    ConsThrough(FindAll(s, p), s[a..q], FindAll(s, q), ms, FindAll(s, u));
  }

  /** With no user tag after position `t`, a capture started past `t` runs
      to the end, or to just before a final newline. */
  lemma CaptureReachesEnd(s: string, t: nat, a: nat)
    requires t <= a <= |s| && !Contains(s[t..], UserTag)
    ensures CaptureEnd(s, a) >= |s| - 1
  {
    var q := CaptureEnd(s, a);
    if q < |s| - 1 {
      assert OccursAt(s, q, UserTag);
      assert s[t..][q - t..q - t + |UserTag|] == s[q..q + |UserTag|];
      assert OccursAt(s[t..], q - t, UserTag);
    }
  }

  /** Whitespace cut from both ends of a newline-led tail leaves the same
      stripped text. */
  lemma StripAroundCapture(s: string, t: nat, a: nat, q: nat)
    requires t < |s| && s[t] == '\n' && t <= a <= q <= |s|
    requires AllPySpace(s[t..a]) && AllPySpace(s[q..])
    ensures Strip(s[a..q]) == Strip(s[t + 1..])
  {
    SplitTail(s, t, a, q);
    StripPadded(s[t..a], s[a..q], s[q..]);
    NewlineLed(s, t);
    StripPadded("\n", s[t + 1..], "");
  }

  lemma SplitTail(s: string, t: nat, a: nat, q: nat)
    requires t <= a <= q <= |s|
    ensures s[t..] == s[t..a] + s[a..q] + s[q..]
  {
  }

  lemma NewlineLed(s: string, t: nat)
    requires t < |s| && s[t] == '\n'
    ensures s[t..] == "\n" + s[t + 1..] + ""
  {
  }

  /** From a final assistant tag followed by a newline and text without a
      user tag, the scan yields one capture, which strips to the text. */
  lemma FinalTagCapture(s: string, c: nat)
    requires OccursAt(s, c, AssistantTag) && c + |AssistantTag| < |s| && s[c + |AssistantTag|] == '\n'
    requires !Contains(s[c + |AssistantTag| + 1..], UserTag)
    ensures |FindAll(s, c)| == 1 && Strip(FindAll(s, c)[0]) == Strip(s[c + |AssistantTag| + 1..])
  {
    var t := c + |AssistantTag|;
    var a := SkipSpace(s, t);
    CaptureReachesEnd(s, t + 1, a);
    var q := CaptureEnd(s, a);
    assert FindAll(s, c) == [s[a..q]] + FindAll(s, q);
    assert AllPySpace(s[t..a]);
    assert AllPySpace(s[q..]);
    StripAroundCapture(s, t, a, q);
  }

  /** The end of the model server's output: a rendered user turn, the
      assistant cue, then the generated text. When neither the prompt nor
      the generated text holds a tag, whatever precedes, the answer is the
      generated text, stripped. */
  lemma {:induction false} GeneratedTextExtracted(pre: string, prompt: string, generated: string)
    requires !Contains(prompt, AssistantTag) && !Contains(generated, UserTag)
    ensures ExtractAssistant(pre + UserTag + "\n" + prompt + "\n" + AssistantTag + "\n" + generated) == Strip(generated)
  {
    var s := pre + UserTag + "\n" + prompt + "\n" + AssistantTag + "\n" + generated;
    var u := |pre|;
    var c := u + |UserTag| + 2 + |prompt|;
    TurnLayout(pre, prompt, generated);
    FindAllThroughUser(s, 0, u);
    var ms :| FindAll(s, 0) == ms + FindAll(s, u);
    forall i | u <= i < c ensures !OccursAt(s, i, AssistantTag) {
      NoTagInUserTurn(s, pre, prompt, generated, i);
    }
    FindAllSkip(s, u, c);
    FinalTagCapture(s, c);
    LastOfAppend(FindAll(s, 0), ms, FindAll(s, c));
  }

  /** Where the pieces of a rendered user turn followed by the cue and the
      generated text sit. */
  lemma TurnLayout(pre: string, prompt: string, generated: string)
    ensures var s := pre + UserTag + "\n" + prompt + "\n" + AssistantTag + "\n" + generated;
      var u, c := |pre|, |pre| + |UserTag| + 2 + |prompt|;
      && OccursAt(s, u, UserTag) && OccursAt(s, c, AssistantTag)
      && c + |AssistantTag| < |s| && s[c + |AssistantTag|] == '\n'
      && s[c + |AssistantTag| + 1..] == generated
  {
    var s := pre + UserTag + "\n" + prompt + "\n" + AssistantTag + "\n" + generated;
    var u, c := |pre|, |pre| + |UserTag| + 2 + |prompt|;
    assert s[u..u + |UserTag|] == UserTag;
    assert s[c..c + |AssistantTag|] == AssistantTag;
  }

  /** The last element of a sequence that ends with a one-element tail. */
  lemma LastOfAppend<T>(all: seq<T>, ms: seq<T>, tail: seq<T>)
    requires all == ms + tail && |tail| == 1
    ensures all[|all| - 1] == tail[0]
  {
  }

  /** No assistant tag starts in a rendered user turn whose prompt holds
      none: it would have to begin inside the prompt and end past it. */
  lemma NoTagInUserTurn(s: string, pre: string, prompt: string, generated: string, i: nat)
    requires s == pre + UserTag + "\n" + prompt + "\n" + AssistantTag + "\n" + generated
    requires !Contains(prompt, AssistantTag)
    requires |pre| <= i < |pre| + |UserTag| + 2 + |prompt|
    ensures !OccursAt(s, i, AssistantTag)
  {
    var u := |pre|;
    var p0 := u + |UserTag| + 1;
    var m := p0 + |prompt|;
    assert s[u..p0] == UserTag + "\n";
    assert s[p0..m] == prompt;
    assert s[m] == '\n';
    if i < p0 {
      NoTagInUserHeader(s, u, i);
    } else if i + |AssistantTag| <= m {
      NoTagInPrompt(s, p0, prompt, i);
    } else {
      NoTagAcrossNewline(s, m, i);
    }
  }

  /** No assistant tag starts inside the user tag and its newline. */
  lemma NoTagInUserHeader(s: string, u: nat, i: nat)
    requires u + |UserTag| + 1 <= |s| && s[u..u + |UserTag| + 1] == UserTag + "\n"
    requires u <= i < u + |UserTag| + 1
    ensures !OccursAt(s, i, AssistantTag)
  {
    var h := UserTag + "\n";
    if i + |AssistantTag| <= |s| {
      var w := s[i..i + |AssistantTag|];
      if i == u {
        assert w[2] == s[u..u + |h|][2] == h[2] == 'u';
        assert w[2] != AssistantTag[2];
      } else {
        assert w[0] == s[u..u + |h|][i - u] == h[i - u];
        assert w[0] != AssistantTag[0];
      }
    }
  }

  /** No assistant tag lies wholly inside a prompt that holds none. */
  lemma NoTagInPrompt(s: string, p0: nat, prompt: string, i: nat)
    requires p0 + |prompt| <= |s| && s[p0..p0 + |prompt|] == prompt
    requires !Contains(prompt, AssistantTag)
    requires p0 <= i && i + |AssistantTag| <= p0 + |prompt|
    ensures !OccursAt(s, i, AssistantTag)
  {
    var j, n := i - p0, |AssistantTag|;
    var w, v := s[i..i + n], prompt[j..j + n];
    forall k | 0 <= k < n ensures w[k] == v[k] {
      assert prompt[j + k] == s[p0..p0 + |prompt|][j + k] == s[i + k];
    }
    assert w == v;
    assert !OccursAt(prompt, j, AssistantTag);
  }

  /** No assistant tag runs over a newline. */
  lemma NoTagAcrossNewline(s: string, m: nat, i: nat)
    requires m < |s| && s[m] == '\n'
    requires i <= m < i + |AssistantTag|
    ensures !OccursAt(s, i, AssistantTag)
  {
    assert forall k | 0 <= k < |AssistantTag| :: AssistantTag[k] != '\n';
    if i + |AssistantTag| <= |s| {
      assert s[i..i + |AssistantTag|][m - i] == '\n' != AssistantTag[m - i];
    }
  }
}
