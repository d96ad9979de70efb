/** Stable sorting by a numeric key, largest key first: what Python's
    `sorted(xs, key=f, reverse=True)` returns, and what a stable sort with the
    comparator `(a, b) => key(b) - key(a)` returns in JavaScript. The sort is
    described on positions: the result lists the input positions so that a
    larger key comes first and equal keys keep their input order. */
module StableSort {

  /** Position `i` comes before position `j` in the sorted output. */
  predicate Before(keys: seq<real>, i: nat, j: nat)
    requires i < |keys| && j < |keys|
  {
    keys[i] > keys[j] || (keys[i] == keys[j] && i < j)
  }

  predicate InRange(keys: seq<real>, s: seq<nat>) {
    forall k | 0 <= k < |s| :: s[k] < |keys|
  }

  /** Every earlier entry of `s` comes before every later one. */
  predicate Ordered(keys: seq<real>, s: seq<nat>)
    requires InRange(keys, s)
  {
    forall a, b | 0 <= a < b < |s| :: Before(keys, s[a], s[b])
  }

  /** Insert position `i` in front of the first entry it comes before. */
  function Insert(keys: seq<real>, i: nat, s: seq<nat>): (r: seq<nat>)
    requires i < |keys| && InRange(keys, s)
    ensures InRange(keys, r) && |r| == |s| + 1
    ensures forall x :: x in r <==> x == i || x in s
  {
    if s == [] then [i]
    else if Before(keys, i, s[0]) then [i] + s
    else [s[0]] + Insert(keys, i, s[1..])
  }

  lemma {:induction false} InsertOrdered(keys: seq<real>, i: nat, s: seq<nat>)
    requires i < |keys| && InRange(keys, s) && Ordered(keys, s) && i !in s
    ensures Ordered(keys, Insert(keys, i, s))
  {
    if s != [] && !Before(keys, i, s[0]) {
      OrderedRest(keys, s);
      assert i !in s[1..];
      InsertOrdered(keys, i, s[1..]);
      var t := Insert(keys, i, s[1..]);
      assert Insert(keys, i, s) == [s[0]] + t;
      assert s[0] != i by { assert s[0] in s; }
      InsertBehind(keys, i, s[0], s[1..], t);
    } else if s != [] {
      assert Insert(keys, i, s) == [i] + s;
      InsertInFront(keys, i, s);
    }
  }

  lemma BeforeTransitive(keys: seq<real>, a: nat, b: nat, c: nat)
    requires a < |keys| && b < |keys| && c < |keys|
    requires Before(keys, a, b) && Before(keys, b, c)
    ensures Before(keys, a, c)
  {
  }

  /** Dropping the first entry keeps the rest ordered. */
  lemma OrderedRest(keys: seq<real>, s: seq<nat>)
    requires s != [] && InRange(keys, s) && Ordered(keys, s)
    ensures InRange(keys, s[1..]) && Ordered(keys, s[1..])
  {
    forall a, b | 0 <= a < b < |s[1..]| ensures Before(keys, s[1..][a], s[1..][b]) {
      assert s[1..][a] == s[a + 1] && s[1..][b] == s[b + 1];
    }
  }

  /** A position that comes before the first entry can go in front. */
  lemma InsertInFront(keys: seq<real>, i: nat, s: seq<nat>)
    requires i < |keys| && s != [] && InRange(keys, s) && Ordered(keys, s) && Before(keys, i, s[0])
    ensures InRange(keys, [i] + s) && Ordered(keys, [i] + s)
  {
    var r := [i] + s;
    forall a, b | 0 <= a < b < |r| ensures Before(keys, r[a], r[b]) {
      assert r[b] == s[b - 1];
      if a == 0 {
        if b > 1 {
          BeforeTransitive(keys, i, s[0], s[b - 1]);
        }
      } else {
        assert r[a] == s[a - 1];
      }
    }
  }

  /** The first entry `h` goes in front of the ordered insertion into the
      rest when it comes before the inserted position and the rest. */
  lemma InsertBehind(keys: seq<real>, i: nat, h: nat, rest: seq<nat>, t: seq<nat>)
    requires i < |keys| && h < |keys| && h != i && !Before(keys, i, h)
    requires InRange(keys, [h] + rest) && Ordered(keys, [h] + rest)
    requires InRange(keys, t) && Ordered(keys, t)
    requires forall x :: x in t <==> x == i || x in rest
    ensures InRange(keys, [h] + t) && Ordered(keys, [h] + t)
  {
    var r := [h] + t;
    forall b | 0 <= b < |t| ensures Before(keys, h, t[b]) {
      assert t[b] in t;
      if t[b] != i {
        var k :| 0 <= k < |rest| && rest[k] == t[b];
        assert ([h] + rest)[0] == h && ([h] + rest)[k + 1] == t[b];
      }
    }
    forall a, b | 0 <= a < b < |r| ensures Before(keys, r[a], r[b]) {
      assert r[b] == t[b - 1];
      if a > 0 {
        assert r[a] == t[a - 1];
      }
    }
  }

  /** The positions `lo .. |keys| - 1` in sorted order. */
  function SortFrom(keys: seq<real>, lo: nat): (r: seq<nat>)
    requires lo <= |keys|
    ensures InRange(keys, r) && |r| == |keys| - lo
    ensures forall x :: x in r <==> lo <= x < |keys|
    ensures Ordered(keys, r)
    decreases |keys| - lo
  {
    if lo == |keys| then []
    else
      var rest := SortFrom(keys, lo + 1);
      InsertOrdered(keys, lo, rest);
      Insert(keys, lo, rest)
  }

  /** The stable descending sort of the positions of `keys`: a permutation of
      `0 .. |keys| - 1` ordered by `Before`. */
  function SortIndices(keys: seq<real>): (r: seq<nat>)
    ensures |r| == |keys| && InRange(keys, r)
    ensures forall i | 0 <= i < |keys| :: i in r
    ensures Ordered(keys, r)
  {
    SortFrom(keys, 0)
  }

  /** The element at each sorted position. */
  function Permute<T>(xs: seq<T>, order: seq<nat>): (r: seq<T>)
    requires forall k | 0 <= k < |order| :: order[k] < |xs|
    ensures |r| == |order|
    ensures forall k | 0 <= k < |r| :: r[k] == xs[order[k]]
  {
    seq(|order|, k requires 0 <= k < |order| => xs[order[k]])
  }

  /** Only one arrangement of a set of positions is ordered by `Before`: any
      stable sort by the same key yields exactly `SortIndices`. */
  lemma {:induction false} OrderedUnique(keys: seq<real>, s: seq<nat>, t: seq<nat>)
    requires InRange(keys, s) && InRange(keys, t)
    requires Ordered(keys, s) && Ordered(keys, t)
    requires forall x :: x in s <==> x in t
    ensures s == t
  {
    if s != [] {
      assert s[0] in t;
    }
    if t != [] {
      assert t[0] in s;
    }
    if s != [] {
      assert s[0] == t[0];
      forall x ensures x in s[1..] <==> x in t[1..] {
        OrderedTail(keys, s, x);
        OrderedTail(keys, t, x);
      }
      assert Ordered(keys, s[1..]) by {
        forall a, b | 0 <= a < b < |s[1..]| ensures Before(keys, s[1..][a], s[1..][b]) {
          assert s[1..][a] == s[a + 1] && s[1..][b] == s[b + 1];
        }
      }
      assert Ordered(keys, t[1..]) by {
        forall a, b | 0 <= a < b < |t[1..]| ensures Before(keys, t[1..][a], t[1..][b]) {
          assert t[1..][a] == t[a + 1] && t[1..][b] == t[b + 1];
        }
      }
      OrderedUnique(keys, s[1..], t[1..]);
      assert s == [s[0]] + s[1..] && t == [t[0]] + t[1..];
    }
  }

  /** In an ordered arrangement the first entry occurs once. */
  lemma OrderedTail(keys: seq<real>, s: seq<nat>, x: nat)
    requires InRange(keys, s) && Ordered(keys, s) && s != []
    ensures x in s[1..] <==> x in s && x != s[0]
  {
    if x in s[1..] {
      var k :| 0 <= k < |s[1..]| && s[1..][k] == x;
      assert s[k + 1] == x;
      assert Before(keys, s[0], s[k + 1]);
    }
    if x in s && x != s[0] {
      var k :| 0 <= k < |s| && s[k] == x;
      assert s[1..][k - 1] == x;
    }
  }
}
