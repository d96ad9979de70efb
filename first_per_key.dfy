/** Keeping the first element per key, the walk that both retrieval services
    and the recency reranker perform: a set of seen keys, a list of kept
    elements, an element kept only when its key is new, and (for the reranker)
    a stop once a cap is reached. */
module FirstPerKey {

  /** The keys that occur in `xs`. */
  ghost function KeySet<T, K>(xs: seq<T>, key: T -> K): set<K> {
    set x | x in xs :: key(x)
  }

  /** The first element per key of `xs`, skipping keys already in `seen`. */
  function Unique<T, K(==)>(xs: seq<T>, key: T -> K, seen: set<K>): seq<T>
    decreases |xs|
  {
    if xs == [] then []
    else if key(xs[0]) in seen then Unique(xs[1..], key, seen)
    else [xs[0]] + Unique(xs[1..], key, seen + {key(xs[0])})
  }

  /** The reranker's loop over `xs` from a state with `count` kept elements
      whose keys are `seen`: keep an element with a new key, then stop when
      the number kept equals `cap`. The test follows every element, kept or
      not, as the loop's `if len(unique_nodes) == self.top_n: break` does. */
  function KeepFirst<T, K(==)>(xs: seq<T>, key: T -> K, seen: set<K>, cap: int, count: nat): seq<T>
    decreases |xs|
  {
    if xs == [] then []
    else
      var k := key(xs[0]);
      var take := k !in seen;
      var count' := if take then count + 1 else count;
      var rest := if count' == cap then [] else KeepFirst(xs[1..], key, if take then seen + {k} else seen, cap, count');
      if take then [xs[0]] + rest else rest
  }

  /** How many elements of `xs` the capped walk looks at: every one, unless
      the element that brings the number kept to `cap` stops it. */
  function Examined<T, K(==)>(xs: seq<T>, key: T -> K, seen: set<K>, cap: int, count: nat): (n: nat)
    ensures n <= |xs|
    ensures xs != [] ==> n >= 1
    decreases |xs|
  {
    if xs == [] then 0
    else
      var k := key(xs[0]);
      var take := k !in seen;
      var count' := if take then count + 1 else count;
      if count' == cap then 1 else 1 + Examined(xs[1..], key, if take then seen + {k} else seen, cap, count')
  }

  /** The walk decides on the elements it examines alone, and it leaves
      elements unexamined only once exactly `cap` elements are kept. */
  lemma {:induction false} ExaminedDecides<T, K>(xs: seq<T>, key: T -> K, seen: set<K>, cap: int, count: nat)
    ensures KeepFirst(xs, key, seen, cap, count) ==
      KeepFirst(xs[..Examined(xs, key, seen, cap, count)], key, seen, cap, count)
    ensures Examined(xs, key, seen, cap, count) < |xs| ==> count + |KeepFirst(xs, key, seen, cap, count)| == cap
    decreases |xs|
  {
    if xs != [] {
      var k := key(xs[0]);
      var take := k !in seen;
      var count' := if take then count + 1 else count;
      var seen' := if take then seen + {k} else seen;
      var n := Examined(xs, key, seen, cap, count);
      var p := xs[..n];
      assert p[0] == xs[0];
      if count' != cap {
        ExaminedDecides(xs[1..], key, seen', cap, count');
        assert p[1..] == xs[1..][..n - 1];
      }
    }
  }

  /** With a cap that is never reached (zero or negative, starting from
      nothing kept) the walk examines every element. */
  lemma {:induction false} ExaminedUncapped<T, K>(xs: seq<T>, key: T -> K, seen: set<K>, cap: int, count: nat)
    requires cap <= 0 && (count == 0 ==> seen == {})
    ensures Examined(xs, key, seen, cap, count) == |xs|
    decreases |xs|
  {
    if xs != [] {
      var k := key(xs[0]);
      var take := k !in seen;
      ExaminedUncapped(xs[1..], key, if take then seen + {k} else seen, cap, if take then count + 1 else count);
    }
  }

  /** One iteration of a loop at position `k`: the element is examined, and
      the walk stops after it exactly when it brings the count kept to
      `cap`. */
  lemma ExaminedLoopStep<T, K>(xs: seq<T>, k: nat, key: T -> K, seen: set<K>, cap: int, count: nat)
    requires k < |xs|
    ensures var isNew := key(xs[k]) !in seen;
      var count' := if isNew then count + 1 else count;
      Examined(xs[k..], key, seen, cap, count) ==
        if count' == cap then 1
        else 1 + Examined(xs[k + 1..], key, if isNew then seen + {key(xs[k])} else seen, cap, count')
  {
    assert xs[k..][0] == xs[k];
    assert xs[k..][1..] == xs[k + 1..];
  }

  /** `f` applied to every element, in order. */
  function MapSeq<A, B>(f: A -> B, xs: seq<A>): (r: seq<B>)
    ensures |r| == |xs|
    ensures forall i | 0 <= i < |xs| :: r[i] == f(xs[i])
  {
    seq(|xs|, i requires 0 <= i < |xs| => f(xs[i]))
  }

  /** Mapping the elements by a function that keeps their keys commutes
      with the walk: the kept images are the images of the kept elements. */
  lemma {:induction false} KeepFirstMap<A, B, K>(f: A -> B, xs: seq<A>, keyA: A -> K, keyB: B -> K, seen: set<K>, cap: int, count: nat)
    requires forall a :: keyB(f(a)) == keyA(a)
    ensures MapSeq(f, KeepFirst(xs, keyA, seen, cap, count)) == KeepFirst(MapSeq(f, xs), keyB, seen, cap, count)
    decreases |xs|
  {
    if xs != [] {
      var ys := MapSeq(f, xs);
      assert ys[1..] == MapSeq(f, xs[1..]);
      var k := keyA(xs[0]);
      assert keyB(ys[0]) == k;
      var take := k !in seen;
      var count' := if take then count + 1 else count;
      var seen' := if take then seen + {k} else seen;
      if count' != cap {
        KeepFirstMap(f, xs[1..], keyA, keyB, seen', cap, count');
        var rest := KeepFirst(xs[1..], keyA, seen', cap, count');
        if take {
          assert MapSeq(f, [xs[0]] + rest) == [ys[0]] + MapSeq(f, rest);
        }
      }
    }
  }

  /** The first `n` elements of `s`, or all of them. */
  function Take<T>(s: seq<T>, n: nat): (r: seq<T>)
    ensures |r| == if n < |s| then n else |s|
    ensures forall a | 0 <= a < |r| :: r[a] == s[a]
  {
    if n < |s| then s[..n] else s
  }

  /** With room left under the cap the walk keeps a prefix of the uncapped
      walk; with a cap that is never reached (zero or negative, starting
      from nothing kept) it keeps all of it. */
  lemma {:induction false} KeepFirstIsTake<T, K>(xs: seq<T>, key: T -> K, seen: set<K>, cap: int, count: nat)
    requires cap > count || (cap <= 0 && (count == 0 ==> seen == {}))
    ensures cap > count ==> KeepFirst(xs, key, seen, cap, count) == Take(Unique(xs, key, seen), cap - count)
    ensures cap <= 0 ==> KeepFirst(xs, key, seen, cap, count) == Unique(xs, key, seen)
    decreases |xs|
  {
    if xs != [] {
      var k := key(xs[0]);
      if k in seen {
        KeepFirstIsTake(xs[1..], key, seen, cap, count);
      } else if count + 1 != cap {
        KeepFirstIsTake(xs[1..], key, seen + {k}, cap, count + 1);
      }
    }
  }

  /** Kept keys are new and pairwise distinct. */
  lemma {:induction false} UniqueFresh<T, K>(xs: seq<T>, key: T -> K, seen: set<K>)
    ensures forall a | 0 <= a < |Unique(xs, key, seen)| :: key(Unique(xs, key, seen)[a]) !in seen
    ensures forall a, b | 0 <= a < b < |Unique(xs, key, seen)| ::
      key(Unique(xs, key, seen)[a]) != key(Unique(xs, key, seen)[b])
    decreases |xs|
  {
    if xs != [] {
      if key(xs[0]) in seen {
        UniqueFresh(xs[1..], key, seen);
      } else {
        UniqueFresh(xs[1..], key, seen + {key(xs[0])});
      }
    }
  }

  /** Every key of `xs` not seen before is kept, and no other. */
  lemma {:induction false} UniqueKeySet<T, K>(xs: seq<T>, key: T -> K, seen: set<K>)
    ensures KeySet(Unique(xs, key, seen), key) == KeySet(xs, key) - seen
    decreases |xs|
  {
    if xs != [] {
      var k := key(xs[0]);
      var seen' := if k in seen then seen else seen + {k};
      UniqueKeySet(xs[1..], key, seen');
      assert KeySet(xs, key) == {k} + KeySet(xs[1..], key) by {
        assert xs == [xs[0]] + xs[1..];
        forall x | x in xs ensures x == xs[0] || x in xs[1..] { }
      }
      if k !in seen {
        assert Unique(xs, key, seen) == [xs[0]] + Unique(xs[1..], key, seen');
        assert KeySet([xs[0]] + Unique(xs[1..], key, seen'), key) == {k} + KeySet(Unique(xs[1..], key, seen'), key) by {
          var u := Unique(xs[1..], key, seen');
          forall x | x in [xs[0]] + u ensures x == xs[0] || x in u { }
        }
      }
    }
  }

  /** One element is kept per key not seen before. */
  lemma {:induction false} UniqueLength<T, K>(xs: seq<T>, key: T -> K, seen: set<K>)
    ensures |Unique(xs, key, seen)| == |KeySet(xs, key) - seen|
    decreases |xs|
  {
    if xs != [] {
      var k := key(xs[0]);
      var rest := KeySet(xs[1..], key);
      KeySetCons(xs, key);
      if k in seen {
        UniqueLength(xs[1..], key, seen);
        assert KeySet(xs, key) - seen == rest - seen;
      } else {
        UniqueLength(xs[1..], key, seen + {k});
        assert KeySet(xs, key) - seen == {k} + (rest - (seen + {k}));
        assert k !in rest - (seen + {k});
      }
    }
  }

  lemma KeySetCons<T, K>(xs: seq<T>, key: T -> K)
    requires xs != []
    ensures KeySet(xs, key) == {key(xs[0])} + KeySet(xs[1..], key)
  {
    assert xs == [xs[0]] + xs[1..];
    forall x | x in xs ensures x == xs[0] || x in xs[1..] { }
  }

  /** Kept elements come from the input. */
  lemma {:induction false} UniqueMembers<T, K>(xs: seq<T>, key: T -> K, seen: set<K>)
    ensures forall a | 0 <= a < |Unique(xs, key, seen)| :: Unique(xs, key, seen)[a] in xs
    decreases |xs|
  {
    if xs != [] {
      var seen' := if key(xs[0]) in seen then seen else seen + {key(xs[0])};
      UniqueMembers(xs[1..], key, seen');
    }
  }

  /** A relation holding between every earlier and later input element holds
      between every earlier and later kept element: the walk keeps order. */
  lemma {:induction false} UniquePairwise<T, K>(xs: seq<T>, key: T -> K, seen: set<K>, R: (T, T) -> bool)
    requires forall i, j | 0 <= i < j < |xs| :: R(xs[i], xs[j])
    ensures forall a, b | 0 <= a < b < |Unique(xs, key, seen)| ::
      R(Unique(xs, key, seen)[a], Unique(xs, key, seen)[b])
    decreases |xs|
  {
    if xs != [] {
      var k := key(xs[0]);
      var seen' := if k in seen then seen else seen + {k};
      assert forall i, j | 0 <= i < j < |xs[1..]| :: R(xs[1..][i], xs[1..][j]) by {
        forall i, j | 0 <= i < j < |xs[1..]| ensures R(xs[1..][i], xs[1..][j]) {
          assert xs[1..][i] == xs[i + 1] && xs[1..][j] == xs[j + 1];
        }
      }
      UniquePairwise(xs[1..], key, seen', R);
      if k !in seen {
        var u := Unique(xs[1..], key, seen');
        UniqueMembers(xs[1..], key, seen');
        forall b | 0 <= b < |u| ensures R(xs[0], u[b]) {
          var j :| 0 <= j < |xs[1..]| && xs[1..][j] == u[b];
          assert xs[j + 1] == u[b];
        }
      }
    }
  }

  /** Each kept element is the first of its key: under an order the input
      respects, no element with the same key precedes it. */
  lemma {:induction false} UniqueFirst<T, K>(xs: seq<T>, key: T -> K, seen: set<K>, R: (T, T) -> bool)
    requires forall i, j | 0 <= i < j < |xs| :: R(xs[i], xs[j])
    ensures forall a, i | 0 <= a < |Unique(xs, key, seen)| && 0 <= i < |xs| && key(xs[i]) == key(Unique(xs, key, seen)[a]) ::
      xs[i] == Unique(xs, key, seen)[a] || R(Unique(xs, key, seen)[a], xs[i])
    decreases |xs|
  {
    if xs != [] {
      var k := key(xs[0]);
      var seen' := if k in seen then seen else seen + {k};
      var u := Unique(xs[1..], key, seen');
      var r := Unique(xs, key, seen);
      assert forall i, j | 0 <= i < j < |xs[1..]| :: R(xs[1..][i], xs[1..][j]) by {
        forall i, j | 0 <= i < j < |xs[1..]| ensures R(xs[1..][i], xs[1..][j]) {
          assert xs[1..][i] == xs[i + 1] && xs[1..][j] == xs[j + 1];
        }
      }
      UniqueFirst(xs[1..], key, seen', R);
      UniqueFresh(xs[1..], key, seen');
      UniqueFresh(xs, key, seen);
      forall a, i | 0 <= a < |r| && 0 <= i < |xs| && key(xs[i]) == key(r[a])
        ensures xs[i] == r[a] || R(r[a], xs[i])
      {
        if k in seen {
          assert r == u;
          if i > 0 {
            assert xs[i] == xs[1..][i - 1];
          }
        } else {
          assert r == [xs[0]] + u;
          if a == 0 {
            if i > 0 {
              assert R(xs[0], xs[i]);
            }
          } else {
            assert r[a] == u[a - 1];
            if i > 0 {
              assert xs[i] == xs[1..][i - 1];
            }
          }
        }
      }
    }
  }

  /** Elements the capped walk keeps come from the input. */
  lemma {:induction false} KeepFirstMembers<T, K>(xs: seq<T>, key: T -> K, seen: set<K>, cap: int, count: nat)
    ensures forall a | 0 <= a < |KeepFirst(xs, key, seen, cap, count)| :: KeepFirst(xs, key, seen, cap, count)[a] in xs
    decreases |xs|
  {
    if xs != [] {
      var k := key(xs[0]);
      var take := k !in seen;
      var count' := if take then count + 1 else count;
      if count' != cap {
        KeepFirstMembers(xs[1..], key, if take then seen + {k} else seen, cap, count');
      }
    }
  }

  /** Under a transitive order the input respects, a key left out of the
      first `n` kept elements belongs to elements that every kept element
      precedes: the prefix holds the `n` earliest keys. */
  lemma UniqueTakeEarliest<T, K>(xs: seq<T>, key: T -> K, R: (T, T) -> bool, n: nat)
    requires forall i, j | 0 <= i < j < |xs| :: R(xs[i], xs[j])
    requires forall u, v, w :: R(u, v) && R(v, w) ==> R(u, w)
    ensures forall i, b | 0 <= i < |xs| && 0 <= b < |Take(Unique(xs, key, {}), n)|
      && key(xs[i]) !in KeySet(Take(Unique(xs, key, {}), n), key) ::
      R(Take(Unique(xs, key, {}), n)[b], xs[i])
  {
    var u := Unique(xs, key, {});
    var t := Take(u, n);
    UniqueKeySet(xs, key, {});
    UniquePairwise(xs, key, {}, R);
    UniqueFirst(xs, key, {}, R);
    forall i, b | 0 <= i < |xs| && 0 <= b < |t| && key(xs[i]) !in KeySet(t, key)
      ensures R(t[b], xs[i])
    {
      assert key(xs[i]) in KeySet(u, key);
      var y :| y in u && key(y) == key(xs[i]);
      var a :| 0 <= a < |u| && u[a] == y;
      assert t[b] == u[b];
    }
  }

  /** One step of the capped walk, from position `k`. */
  lemma KeepFirstStep<T, K>(xs: seq<T>, k: nat, key: T -> K, seen: set<K>, cap: int, count: nat)
    requires k < |xs|
    ensures KeepFirst(xs[k..], key, seen, cap, count) ==
      (if key(xs[k]) !in seen then [xs[k]] else []) +
      (var count' := if key(xs[k]) !in seen then count + 1 else count;
       if count' == cap then []
       else KeepFirst(xs[k + 1..], key, if key(xs[k]) !in seen then seen + {key(xs[k])} else seen, cap, count'))
  {
    assert xs[k..][0] == xs[k];
    assert xs[k..][1..] == xs[k + 1..];
  }

  /** One iteration of a loop that keeps `kept` with the keys `seen`: the
      element at `k` is appended when its key is new, and the walk stops
      once `cap` elements are kept. */
  lemma KeepFirstLoopStep<T, K>(xs: seq<T>, k: nat, key: T -> K, seen: set<K>, cap: int, kept: seq<T>)
    requires k < |xs|
    ensures var isNew := key(xs[k]) !in seen;
      var kept' := if isNew then kept + [xs[k]] else kept;
      var seen' := if isNew then seen + {key(xs[k])} else seen;
      kept + KeepFirst(xs[k..], key, seen, cap, |kept|) ==
      kept' + (if |kept'| == cap then [] else KeepFirst(xs[k + 1..], key, seen', cap, |kept'|))
  {
    KeepFirstStep(xs, k, key, seen, cap, |kept|);
    if key(xs[k]) !in seen {
      var seen' := seen + {key(xs[k])};
      var rest := if |kept| + 1 == cap then [] else KeepFirst(xs[k + 1..], key, seen', cap, |kept| + 1);
      assert KeepFirst(xs[k..], key, seen, cap, |kept|) == [xs[k]] + rest;
      assert kept + ([xs[k]] + rest) == (kept + [xs[k]]) + rest;
    } else {
      var rest := if |kept| == cap then [] else KeepFirst(xs[k + 1..], key, seen, cap, |kept|);
      assert KeepFirst(xs[k..], key, seen, cap, |kept|) == [] + rest == rest;
    }
  }

  /** A key is in `KeySet` exactly when some position carries it. */
  lemma KeySetAt<T, K>(xs: seq<T>, key: T -> K, k: K)
    ensures k in KeySet(xs, key) <==> exists a | 0 <= a < |xs| :: key(xs[a]) == k
  {
    if k in KeySet(xs, key) {
      var y :| y in xs && key(y) == k;
      var a :| 0 <= a < |xs| && xs[a] == y;
    }
  }
  /** `a` is `b` with some elements left out, order kept. */
  ghost predicate IsSubsequence<T>(a: seq<T>, b: seq<T>)
    decreases |b|
  {
    if a == [] then true
    else if b == [] then false
    else if a[0] == b[0] then IsSubsequence(a[1..], b[1..])
    else IsSubsequence(a, b[1..])
  }

  lemma {:induction false} EmptySubsequence<T>(b: seq<T>)
    ensures IsSubsequence([], b)
  {
  }

  /** The kept elements appear in the input in the same order. */
  lemma {:induction false} UniqueSubsequence<T, K>(xs: seq<T>, key: T -> K, seen: set<K>)
    ensures IsSubsequence(Unique(xs, key, seen), xs)
    decreases |xs|
  {
    if xs != [] {
      var k := key(xs[0]);
      if k in seen {
        UniqueSubsequence(xs[1..], key, seen);
        SubsequenceSkip(Unique(xs[1..], key, seen), xs);
      } else {
        UniqueSubsequence(xs[1..], key, seen + {k});
        var u := Unique(xs, key, seen);
        assert u[0] == xs[0] && u[1..] == Unique(xs[1..], key, seen + {k});
      }
    }
  }

  /** Dropping the head of `b` keeps `a` a subsequence of `b`. */
  lemma {:induction false} SubsequenceSkip<T>(a: seq<T>, b: seq<T>)
    requires b != [] && IsSubsequence(a, b[1..])
    ensures IsSubsequence(a, b)
    decreases |b|, |a|
  {
    if a != [] && a[0] == b[0] {
      SubsequenceTail(a, b[1..]);
    }
  }

  /** A subsequence of `b` without its head is still a subsequence of `b`. */
  lemma {:induction false} SubsequenceTail<T>(a: seq<T>, b: seq<T>)
    requires a != [] && IsSubsequence(a, b)
    ensures IsSubsequence(a[1..], b)
    decreases |b|, |a|
  {
    if b != [] {
      if a[0] == b[0] {
        if a[1..] != [] {
          SubsequenceTail(a[1..], b[1..]);
          SubsequenceSkip(a[1..], b);
        }
      } else {
        SubsequenceTail(a, b[1..]);
        if a[1..] != [] {
          SubsequenceSkip(a[1..], b);
        }
      }
    }
  }

  /** Each kept element is the first input element with its key. */
  lemma {:induction false} UniqueKeepsFirst<T, K>(xs: seq<T>, key: T -> K, seen: set<K>)
    ensures forall a, i | 0 <= a < |Unique(xs, key, seen)| && 0 <= i < |xs|
      && key(xs[i]) == key(Unique(xs, key, seen)[a]) && (forall j | 0 <= j < i :: key(xs[j]) != key(xs[i])) ::
      Unique(xs, key, seen)[a] == xs[i]
    decreases |xs|
  {
    if xs != [] {
      var k := key(xs[0]);
      var u := Unique(xs, key, seen);
      if k in seen {
        UniqueKeepsFirst(xs[1..], key, seen);
        UniqueFresh(xs, key, seen);
        assert u == Unique(xs[1..], key, seen);
        forall a, i | 0 <= a < |u| && 0 <= i < |xs| && key(xs[i]) == key(u[a]) && (forall j | 0 <= j < i :: key(xs[j]) != key(xs[i]))
          ensures u[a] == xs[i]
        {
          assert i != 0;
          assert xs[i] == xs[1..][i - 1];
          forall j | 0 <= j < i - 1 ensures key(xs[1..][j]) != key(xs[1..][i - 1]) {
            assert xs[1..][j] == xs[j + 1];
          }
        }
      } else {
        var rest := Unique(xs[1..], key, seen + {k});
        UniqueKeepsFirst(xs[1..], key, seen + {k});
        UniqueFresh(xs[1..], key, seen + {k});
        assert u == [xs[0]] + rest;
        forall a, i | 0 <= a < |u| && 0 <= i < |xs| && key(xs[i]) == key(u[a]) && (forall j | 0 <= j < i :: key(xs[j]) != key(xs[i]))
          ensures u[a] == xs[i]
        {
          if a != 0 {
            assert u[a] == rest[a - 1];
            assert key(rest[a - 1]) !in seen + {k};
            assert i != 0;
            assert xs[i] == xs[1..][i - 1];
            forall j | 0 <= j < i - 1 ensures key(xs[1..][j]) != key(xs[1..][i - 1]) {
              assert xs[1..][j] == xs[j + 1];
            }
          }
        }
      }
    }
  }
  /** Keeping the first per key never lengthens the input. */
  lemma {:induction false} UniqueNoLonger<T, K>(xs: seq<T>, key: T -> K, seen: set<K>)
    ensures |Unique(xs, key, seen)| <= |xs|
    decreases |xs|
  {
    if xs != [] {
      var k := key(xs[0]);
      UniqueNoLonger(xs[1..], key, if k in seen then seen else seen + {k});
    }
  }
}
