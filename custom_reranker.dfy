/** The recency reranker: it orders retrieved nodes newest first by the
    timestamp found in their metadata, then keeps the first node of each
    email thread until `top_n` nodes are kept. */
module CustomReranker {
  import opened Wrappers
  import opened Values
  import opened Nodes
  import opened StableSort
  import opened FirstPerKey

  /** The exceptions `postprocess_nodes` lets escape: from `extract_timestamp`,
      `json.loads` of a value that is not text (`TypeError`) and `.get` on a
      decoded window that is not an object (`AttributeError`); from the
      deduplication, the `TypeError` of looking up an `email_id` that is a
      list or dict in the `seen_ids` set. */
  datatype Raised = WindowNotText | WindowNotObject | UnhashableId(message: string)

  /** The `timestamp` found in the `window` field; Null when the field is
      missing or falsy or its text is not valid JSON. */
  function WindowTimestamp(py: Builtins, meta: Metadata): (r: Result<Value, Raised>)
    ensures !Truthy(GetOr(meta, "window", Str(""))) ==> r == Ok(Null)
    ensures r.Err? <==>
      Truthy(GetOr(meta, "window", Str(""))) &&
      (!GetOr(meta, "window", Str("")).Str? || WindowNotObjectJson(py, GetOr(meta, "window", Str("")).s))
  {
    var w := GetOr(meta, "window", Str(""));
    if !Truthy(w) then Ok(Null)
    else
      match w
      case Str(s) =>
        (match py.jsonLoads(s)
         case None => Ok(Null)
         case Some(Obj(m)) => Ok(Get(m, "timestamp"))
         case Some(_) => Err(WindowNotObject))
      case _ => Err(WindowNotText)
  }

  /** The window text decodes to JSON that is not an object. */
  predicate WindowNotObjectJson(py: Builtins, s: string) {
    py.jsonLoads(s).Some? && !py.jsonLoads(s).value.Obj?
  }

  /** `extract_timestamp(node)`: the sort key of a node. A truthy timestamp in
      the window wins; otherwise the direct `timestamp` field is used; a
      missing or empty value is 0; anything `float()` accepts is converted; any
      other value is 0, because the ISO-8601 fallback calls `strptime` on the
      `datetime` module, which raises and is caught. */
  function ExtractTimestamp(py: Builtins, n: SourceNode): (r: Result<real, Raised>)
    ensures r.Err? <==> WindowTimestamp(py, n.node.metadata).Err?
    ensures r.Err? ==> r.error == WindowTimestamp(py, n.node.metadata).error
    ensures WindowTimestamp(py, n.node.metadata).Ok? && !Truthy(WindowTimestamp(py, n.node.metadata).value) ==>
      r == Ok(if Get(n.node.metadata, "timestamp") == Str("") then 0.0
              else FloatOf(py, Get(n.node.metadata, "timestamp")).GetOr(0.0))
    ensures WindowTimestamp(py, n.node.metadata).Ok? && Truthy(WindowTimestamp(py, n.node.metadata).value) ==>
      r == Ok(FloatOf(py, WindowTimestamp(py, n.node.metadata).value).GetOr(0.0))
  {
    var meta := n.node.metadata;
    match WindowTimestamp(py, meta)
    case Err(e) => Err(e)
    case Ok(w) =>
      var ts := if Truthy(w) then w else Get(meta, "timestamp");
      if ts == Null || ts == Str("") then Ok(0.0)
      else Ok(FloatOf(py, ts).GetOr(0.0))
  }

  /** A numeric `timestamp` field, with no window, is the sort key as is. */
  lemma DirectTimestamp(py: Builtins, n: SourceNode, t: real)
    requires "window" !in n.node.metadata
    requires Get(n.node.metadata, "timestamp") == Float(t) || (t.Floor as real == t && Get(n.node.metadata, "timestamp") == Int(t.Floor))
    ensures ExtractTimestamp(py, n) == Ok(t)
  {
  }

  /** A falsy window timestamp such as 0 or "" does not win: the direct
      `timestamp` field decides. */
  lemma FalsyWindowFallsBack(py: Builtins, n: SourceNode, w: Value)
    requires WindowTimestamp(py, n.node.metadata) == Ok(w) && !Truthy(w)
    ensures ExtractTimestamp(py, n) == ExtractTimestamp(py, Bare(TextNode(n.node.id, n.node.text, n.node.metadata - {"window"})))
  {
  }

  /** A timestamp string `float()` rejects, such as an ISO-8601 date, sorts as 0. */
  lemma UnparsableTimestamp(py: Builtins, n: SourceNode, s: string)
    requires WindowTimestamp(py, n.node.metadata) == Ok(Null)
    requires Get(n.node.metadata, "timestamp") == Str(s) && py.floatOfStr(s) == None
    ensures ExtractTimestamp(py, n) == Ok(0.0)
  {
  }

  /** The sort keys of all nodes, in order; the first node whose key
      computation raises decides the exception, as `sorted` evaluates keys
      front to back. */
  function Timestamps(py: Builtins, xs: seq<SourceNode>): (r: Result<seq<real>, Raised>)
    ensures r.Ok? <==> forall i | 0 <= i < |xs| :: ExtractTimestamp(py, xs[i]).Ok?
    ensures r.Ok? ==> |r.value| == |xs| && forall i | 0 <= i < |xs| :: r.value[i] == ExtractTimestamp(py, xs[i]).value
    ensures r.Err? ==> exists i | 0 <= i < |xs| ::
      ExtractTimestamp(py, xs[i]) == Err(r.error) && forall j | 0 <= j < i :: ExtractTimestamp(py, xs[j]).Ok?
  {
    CollectAll((n: SourceNode) => ExtractTimestamp(py, n), xs)
  }

  /** `sorted(node_list, key=extract_timestamp, reverse=True)`. */
  function SortedByRecency(py: Builtins, xs: seq<SourceNode>): (r: Result<seq<SourceNode>, Raised>)
    ensures r.Err? <==> Timestamps(py, xs).Err?
    ensures r.Err? ==> r.error == Timestamps(py, xs).error
    ensures r.Ok? ==> |r.value| == |xs|
  {
    match Timestamps(py, xs)
    case Err(e) => Err(e)
    case Ok(ks) => Ok(Permute(xs, SortIndices(ks)))
  }

  /** The deduplication loop on the sorted nodes: the first node per email
      id until `top_n` are kept, or the `TypeError` the `seen_ids` lookup
      raises at the first examined node whose id is a list or dict. Nodes
      after the `break` are never looked at. */
  function Dedup(sorted: seq<SourceNode>, topN: int): (r: Result<seq<SourceNode>, Raised>)
    ensures r.Ok? <==> forall i | 0 <= i < Examined(sorted, EmailId, {}, topN, 0) :: Hashable(EmailId(sorted[i]))
    ensures r.Ok? ==> r.value == KeepFirst(sorted, EmailId, {}, topN, 0)
    ensures r.Err? ==> exists i | 0 <= i < Examined(sorted, EmailId, {}, topN, 0) ::
      && !Hashable(EmailId(sorted[i])) && (forall j | 0 <= j < i :: Hashable(EmailId(sorted[j])))
      && r.error == UnhashableId(IdLookup(sorted[i]).error)
  {
    var n := Examined(sorted, EmailId, {}, topN, 0);
    assert forall i | 0 <= i < n :: sorted[..n][i] == sorted[i];
    match CollectAll(IdLookup, sorted[..n])
    case Err(e) => Err(UnhashableId(e))
    case Ok(_) => Ok(KeepFirst(sorted, EmailId, {}, topN, 0))
  }

  /** `postprocess_nodes` on a list: stable sort by key, newest first, then one
      node per email id until `top_n` are kept. */
  function Rerank(py: Builtins, xs: seq<SourceNode>, topN: int): (r: Result<seq<SourceNode>, Raised>)
    ensures Timestamps(py, xs).Err? ==> r == Err(Timestamps(py, xs).error)
    ensures Timestamps(py, xs).Ok? ==> r == Dedup(Permute(xs, SortIndices(Timestamps(py, xs).value)), topN)
  {
    match SortedByRecency(py, xs)
    case Err(e) => Err(e)
    case Ok(sorted) => Dedup(sorted, topN)
  }

  /** The sorted nodes carry a list or dict id exactly when the input does. */
  lemma PermutedIds(xs: seq<SourceNode>, ks: seq<real>)
    requires |ks| == |xs|
    ensures (exists a | 0 <= a < |xs| :: !Hashable(EmailId(Permute(xs, SortIndices(ks))[a]))) <==>
      exists i | 0 <= i < |xs| :: !Hashable(EmailId(xs[i]))
  {
    var order := SortIndices(ks);
    var sorted := Permute(xs, order);
    forall i | 0 <= i < |xs| && !Hashable(EmailId(xs[i]))
      ensures exists a | 0 <= a < |xs| :: !Hashable(EmailId(sorted[a]))
    {
      assert i in order;
      var a :| 0 <= a < |order| && order[a] == i;
      assert sorted[a] == xs[i];
    }
  }

  /** With every `email_id` hashable the reranker fails exactly when a key
      fails. */
  lemma RerankHashableIds(py: Builtins, xs: seq<SourceNode>, topN: int)
    requires forall i | 0 <= i < |xs| :: Hashable(EmailId(xs[i]))
    ensures Rerank(py, xs, topN).Err? <==> Timestamps(py, xs).Err?
  {
    if Timestamps(py, xs).Ok? {
      PermutedIds(xs, Timestamps(py, xs).value);
    }
  }

  /** With a `top_n` that never stops the loop every node is looked up, so
      a list or dict id anywhere makes the reranker raise. */
  lemma RerankUncappedRaises(py: Builtins, xs: seq<SourceNode>, topN: int)
    requires topN <= 0 && Timestamps(py, xs).Ok?
    ensures Rerank(py, xs, topN).Err? <==> exists i | 0 <= i < |xs| :: !Hashable(EmailId(xs[i]))
  {
    var sorted := Permute(xs, SortIndices(Timestamps(py, xs).value));
    ExaminedUncapped(sorted, EmailId, {}, topN, 0);
    PermutedIds(xs, Timestamps(py, xs).value);
  }

  /** The email id of the node at a position. */
  function EmailAt(xs: seq<SourceNode>, i: nat): Value {
    if i < |xs| then EmailId(xs[i]) else Null
  }

  function EmailKey(xs: seq<SourceNode>): nat -> Value {
    (i: nat) => EmailAt(xs, i)
  }

  /** `Before` as a total relation on positions. */
  function Precedes(ks: seq<real>): (nat, nat) -> bool {
    (i: nat, j: nat) => i < |ks| && j < |ks| && Before(ks, i, j)
  }

  /** The distinct email ids among the nodes. */
  ghost function Ids(xs: seq<SourceNode>): set<Value> {
    set n | n in xs :: EmailId(n)
  }

  function Min(a: int, b: int): int {
    if a <= b then a else b
  }

  /** The positions of the nodes the reranker keeps, in output order. */
  function RankedPositions(xs: seq<SourceNode>, ks: seq<real>, topN: int): (p: seq<nat>)
    requires |ks| == |xs|
    ensures forall a | 0 <= a < |p| :: p[a] < |xs|
  {
    KeepFirstMembers<nat, Value>(SortIndices(ks), EmailKey(xs), {}, topN, 0);
    KeepFirst<nat, Value>(SortIndices(ks), EmailKey(xs), {}, topN, 0)
  }

  lemma PermuteConcat<T>(xs: seq<T>, a: seq<nat>, b: seq<nat>)
    requires forall k | 0 <= k < |a| :: a[k] < |xs|
    requires forall k | 0 <= k < |b| :: b[k] < |xs|
    ensures Permute(xs, a + b) == Permute(xs, a) + Permute(xs, b)
  {
  }

  /** The node at a position, an empty bare node past the end. */
  function NodeAt(xs: seq<SourceNode>, i: nat): SourceNode {
    if i < |xs| then xs[i] else Bare(TextNode("", "", map[]))
  }

  /** Deduplicating the sorted nodes keeps the nodes at the deduplicated
      sorted positions. */
  lemma KeepFirstPermute(xs: seq<SourceNode>, order: seq<nat>, seen: set<Value>, cap: int, count: nat)
    requires forall k | 0 <= k < |order| :: order[k] < |xs|
    ensures forall k | 0 <= k < |KeepFirst<nat, Value>(order, EmailKey(xs), seen, cap, count)| ::
      KeepFirst<nat, Value>(order, EmailKey(xs), seen, cap, count)[k] < |xs|
    ensures Permute(xs, KeepFirst<nat, Value>(order, EmailKey(xs), seen, cap, count))
      == KeepFirst(Permute(xs, order), EmailId, seen, cap, count)
  {
    var kept := KeepFirst<nat, Value>(order, EmailKey(xs), seen, cap, count);
    KeepFirstMembers<nat, Value>(order, EmailKey(xs), seen, cap, count);
    var f := (i: nat) => NodeAt(xs, i);
    forall i: nat ensures EmailId(f(i)) == EmailKey(xs)(i) {
    }
    KeepFirstMap(f, order, EmailKey(xs), EmailId, seen, cap, count);
    assert Permute(xs, order) == MapSeq(f, order);
    assert Permute(xs, kept) == MapSeq(f, kept);
  }

  /** The sorted positions carry each node's email id exactly once. */
  lemma SortedKeySet(xs: seq<SourceNode>, ks: seq<real>)
    requires |ks| == |xs|
    ensures KeySet<nat, Value>(SortIndices(ks), EmailKey(xs)) == Ids(xs)
  {
    var order := SortIndices(ks);
    forall v | v in Ids(xs) ensures v in KeySet<nat, Value>(order, EmailKey(xs)) {
      var n :| n in xs && EmailId(n) == v;
      var i :| 0 <= i < |xs| && xs[i] == n;
      assert i in order && EmailKey(xs)(i) == v;
    }
    forall v | v in KeySet<nat, Value>(order, EmailKey(xs)) ensures v in Ids(xs) {
      var i :| i in order && EmailKey(xs)(i) == v;
      assert xs[i] in xs;
    }
  }

  /** The sorted positions, one per email id, before the cap applies. */
  function UniquePositions(xs: seq<SourceNode>, ks: seq<real>): seq<nat>
    requires |ks| == |xs|
  {
    Unique<nat, Value>(SortIndices(ks), EmailKey(xs), {})
  }

  /** The cap keeps a prefix: `min(top_n, #ids)` positions, or all of them
      when `top_n` is zero or negative, as the loop then never stops early. */
  lemma RankedPrefix(xs: seq<SourceNode>, ks: seq<real>, topN: int)
    requires |ks| == |xs|
    ensures var u := UniquePositions(xs, ks); var p := RankedPositions(xs, ks, topN);
      && |p| <= |u| && (forall a | 0 <= a < |p| :: p[a] == u[a])
      && |u| == |Ids(xs)|
      && (topN >= 1 ==> |p| == Min(topN, |Ids(xs)|))
      && (topN <= 0 ==> |p| == |Ids(xs)|)
  {
    KeepFirstIsTake<nat, Value>(SortIndices(ks), EmailKey(xs), {}, topN, 0);
    UniqueLength<nat, Value>(SortIndices(ks), EmailKey(xs), {});
    SortedKeySet(xs, ks);
  }

  /** The sorted positions respect `Precedes`. */
  lemma SortedPrecedes(ks: seq<real>)
    ensures forall i, j | 0 <= i < j < |SortIndices(ks)| :: Precedes(ks)(SortIndices(ks)[i], SortIndices(ks)[j])
  {
  }

  /** Kept positions are newest first, ties in input order. */
  lemma RankedOrdered(xs: seq<SourceNode>, ks: seq<real>, topN: int)
    requires |ks| == |xs|
    ensures InRange(ks, RankedPositions(xs, ks, topN)) && Ordered(ks, RankedPositions(xs, ks, topN))
  {
    var order := SortIndices(ks);
    SortedPrecedes(ks);
    UniquePairwise<nat, Value>(order, EmailKey(xs), {}, Precedes(ks));
    RankedPrefix(xs, ks, topN);
  }

  /** Kept positions carry distinct email ids. */
  lemma RankedDistinctIds(xs: seq<SourceNode>, ks: seq<real>, topN: int)
    requires |ks| == |xs|
    ensures var p := RankedPositions(xs, ks, topN);
      forall a, b | 0 <= a < b < |p| :: EmailAt(xs, p[a]) != EmailAt(xs, p[b])
  {
    UniqueFresh<nat, Value>(SortIndices(ks), EmailKey(xs), {});
    RankedPrefix(xs, ks, topN);
  }

  /** A kept position is the newest of its email id (the first in input
      order among equally new ones). */
  lemma RankedNewestPerId(xs: seq<SourceNode>, ks: seq<real>, topN: int)
    requires |ks| == |xs|
    ensures var p := RankedPositions(xs, ks, topN);
      forall a, i | 0 <= a < |p| && 0 <= i < |xs| && EmailAt(xs, i) == EmailAt(xs, p[a]) ::
        i == p[a] || Before(ks, p[a], i)
  {
    var order := SortIndices(ks);
    var u := UniquePositions(xs, ks);
    var p := RankedPositions(xs, ks, topN);
    SortedPrecedes(ks);
    UniqueFirst<nat, Value>(order, EmailKey(xs), {}, Precedes(ks));
    RankedPrefix(xs, ks, topN);
    forall a, i | 0 <= a < |p| && 0 <= i < |xs| && EmailAt(xs, i) == EmailAt(xs, p[a])
      ensures i == p[a] || Before(ks, p[a], i)
    {
      assert i in order;
      var idx :| 0 <= idx < |order| && order[idx] == i;
      assert p[a] == u[a];
      assert EmailKey(xs)(order[idx]) == EmailKey(xs)(u[a]);
    }
  }

  /** An email id left out has no node newer than any kept node: the kept ids
      are the `top_n` most recent ones. */
  lemma RankedLeftOutOlder(xs: seq<SourceNode>, ks: seq<real>, topN: int)
    requires |ks| == |xs|
    ensures var p := RankedPositions(xs, ks, topN);
      forall a, i | 0 <= a < |p| && 0 <= i < |xs| && (forall b | 0 <= b < |p| :: EmailAt(xs, p[b]) != EmailAt(xs, i)) ::
        Before(ks, p[a], i)
  {
    var order := SortIndices(ks);
    var key := EmailKey(xs);
    var u := UniquePositions(xs, ks);
    var p := RankedPositions(xs, ks, topN);
    var n := if topN >= 1 then topN else |u|;
    KeepFirstIsTake<nat, Value>(order, key, {}, topN, 0);
    assert p == Take(u, n);
    SortedPrecedes(ks);
    UniqueTakeEarliest<nat, Value>(order, key, Precedes(ks), n);
    forall a, i | 0 <= a < |p| && 0 <= i < |xs| && (forall b | 0 <= b < |p| :: EmailAt(xs, p[b]) != EmailAt(xs, i))
      ensures Before(ks, p[a], i)
    {
      assert i in order;
      var idx :| 0 <= idx < |order| && order[idx] == i;
      KeySetAt<nat, Value>(p, key, key(i));
      assert Precedes(ks)(p[a], order[idx]);
    }
  }

  /** The reranked list is the list of nodes at the ranked positions. */
  lemma RerankByPositions(py: Builtins, xs: seq<SourceNode>, topN: int)
    requires Rerank(py, xs, topN).Ok?
    ensures |Timestamps(py, xs).value| == |xs|
    ensures Rerank(py, xs, topN).value == Permute(xs, RankedPositions(xs, Timestamps(py, xs).value, topN))
  {
    var ks := Timestamps(py, xs).value;
    KeepFirstPermute(xs, SortIndices(ks), {}, topN, 0);
  }

  /** The sort key of a node whose key computation succeeds. */
  function KeyOf(py: Builtins, n: SourceNode): real
    requires ExtractTimestamp(py, n).Ok?
  {
    ExtractTimestamp(py, n).value
  }

  /** Every kept node comes from the input, so its key computation succeeds. */
  lemma RerankFromInput(py: Builtins, xs: seq<SourceNode>, topN: int)
    requires Rerank(py, xs, topN).Ok?
    ensures var r := Rerank(py, xs, topN).value;
      forall a | 0 <= a < |r| :: r[a] in xs && ExtractTimestamp(py, r[a]).Ok?
  {
    RerankByPositions(py, xs, topN);
  }

  /** Keys never increase along the result: newest first. */
  lemma RerankNewestFirst(py: Builtins, xs: seq<SourceNode>, topN: int)
    requires Rerank(py, xs, topN).Ok?
    ensures var r := Rerank(py, xs, topN).value;
      (forall a | 0 <= a < |r| :: ExtractTimestamp(py, r[a]).Ok?) &&
      forall a, b | 0 <= a < b < |r| :: KeyOf(py, r[a]) >= KeyOf(py, r[b])
  {
    var ks := Timestamps(py, xs).value;
    var r := Rerank(py, xs, topN).value;
    RerankFromInput(py, xs, topN);
    RerankByPositions(py, xs, topN);
    RankedOrdered(xs, ks, topN);
    var p := RankedPositions(xs, ks, topN);
    forall a, b | 0 <= a < b < |r| ensures KeyOf(py, r[a]) >= KeyOf(py, r[b]) {
      assert r[a] == xs[p[a]] && r[b] == xs[p[b]];
      assert Before(ks, p[a], p[b]);
    }
  }

  /** No email id occurs twice in the result. */
  lemma RerankDistinctIds(py: Builtins, xs: seq<SourceNode>, topN: int)
    requires Rerank(py, xs, topN).Ok?
    ensures var r := Rerank(py, xs, topN).value;
      forall a, b | 0 <= a < b < |r| :: EmailId(r[a]) != EmailId(r[b])
  {
    var ks := Timestamps(py, xs).value;
    var r := Rerank(py, xs, topN).value;
    RerankByPositions(py, xs, topN);
    RankedDistinctIds(xs, ks, topN);
    var p := RankedPositions(xs, ks, topN);
    assert forall a | 0 <= a < |r| :: EmailId(r[a]) == EmailAt(xs, p[a]);
  }

  /** No input node of a kept email id is newer than the node kept for it. */
  lemma RerankNewestPerId(py: Builtins, xs: seq<SourceNode>, topN: int)
    requires Rerank(py, xs, topN).Ok?
    ensures var r := Rerank(py, xs, topN).value;
      (forall i | 0 <= i < |xs| :: ExtractTimestamp(py, xs[i]).Ok?) &&
      (forall a | 0 <= a < |r| :: ExtractTimestamp(py, r[a]).Ok?) &&
      forall a, i | 0 <= a < |r| && 0 <= i < |xs| && EmailId(xs[i]) == EmailId(r[a]) ::
        KeyOf(py, xs[i]) <= KeyOf(py, r[a])
  {
    var ks := Timestamps(py, xs).value;
    var r := Rerank(py, xs, topN).value;
    RerankFromInput(py, xs, topN);
    RerankByPositions(py, xs, topN);
    RankedNewestPerId(xs, ks, topN);
    var p := RankedPositions(xs, ks, topN);
    forall a, i | 0 <= a < |r| && 0 <= i < |xs| && EmailId(xs[i]) == EmailId(r[a])
      ensures KeyOf(py, xs[i]) <= KeyOf(py, r[a])
    {
      assert r[a] == xs[p[a]];
      assert EmailAt(xs, i) == EmailAt(xs, p[a]);
      assert ks[i] == KeyOf(py, xs[i]) && ks[p[a]] == KeyOf(py, r[a]);
      if i != p[a] {
        assert Before(ks, p[a], i);
      }
    }
  }

  /** A node whose email id was left out is no newer than any kept node. */
  lemma RerankLeftOutOlder(py: Builtins, xs: seq<SourceNode>, topN: int)
    requires Rerank(py, xs, topN).Ok?
    ensures var r := Rerank(py, xs, topN).value;
      (forall i | 0 <= i < |xs| :: ExtractTimestamp(py, xs[i]).Ok?) &&
      (forall a | 0 <= a < |r| :: ExtractTimestamp(py, r[a]).Ok?) &&
      forall a, i | 0 <= a < |r| && 0 <= i < |xs| && (forall b | 0 <= b < |r| :: EmailId(r[b]) != EmailId(xs[i])) ::
        KeyOf(py, xs[i]) <= KeyOf(py, r[a])
  {
    var ks := Timestamps(py, xs).value;
    var r := Rerank(py, xs, topN).value;
    RerankFromInput(py, xs, topN);
    RerankByPositions(py, xs, topN);
    RankedLeftOutOlder(xs, ks, topN);
    var p := RankedPositions(xs, ks, topN);
    forall a, i | 0 <= a < |r| && 0 <= i < |xs| && (forall b | 0 <= b < |r| :: EmailId(r[b]) != EmailId(xs[i]))
      ensures KeyOf(py, xs[i]) <= KeyOf(py, r[a])
    {
      assert r[a] == xs[p[a]];
      forall b | 0 <= b < |p| ensures EmailAt(xs, p[b]) != EmailAt(xs, i) {
        assert r[b] == xs[p[b]];
      }
      assert Before(ks, p[a], i);
    }
  }

  /** The result holds `min(top_n, #ids)` nodes, or one per id when `top_n`
      is zero or negative. */
  lemma RerankCount(py: Builtins, xs: seq<SourceNode>, topN: int)
    requires Rerank(py, xs, topN).Ok?
    ensures topN >= 1 ==> |Rerank(py, xs, topN).value| == Min(topN, |Ids(xs)|)
    ensures topN <= 0 ==> |Rerank(py, xs, topN).value| == |Ids(xs)|
  {
    RerankByPositions(py, xs, topN);
    RankedPrefix(xs, Timestamps(py, xs).value, topN);
  }

  /** A response object whose `source_nodes` the reranker replaces. */
  class QueryResponse {
    var sourceNodes: seq<SourceNode>

    constructor (nodes: seq<SourceNode>)
      ensures sourceNodes == nodes
    {
      sourceNodes := nodes;
    }
  }

  /** The argument of `postprocess_nodes`: an object with `source_nodes`, or a
      plain list of nodes. */
  datatype Batch = Response(resp: QueryResponse) | NodeList(items: seq<SourceNode>)

  /** The deduplication loop of `postprocess_nodes`: walk the sorted nodes,
      keep a node when its `email_id` is new, and stop once `top_n` are
      kept. */
  method KeepFirstPerEmail(sorted: seq<SourceNode>, topN: int) returns (r: Result<seq<SourceNode>, Raised>)
    ensures r == Dedup(sorted, topN)
  {
    var unique: seq<SourceNode> := [];
    var seen: set<Value> := {};
    var k := 0;
    ghost var n := Examined(sorted, EmailId, {}, topN, 0);
    assert sorted[0..] == sorted;
    while k < |sorted|
      invariant 0 <= k <= |sorted|
      invariant unique + KeepFirst(sorted[k..], EmailId, seen, topN, |unique|) == KeepFirst(sorted, EmailId, {}, topN, 0)
      invariant k + Examined(sorted[k..], EmailId, seen, topN, |unique|) == n
      invariant forall j | 0 <= j < k :: Hashable(EmailId(sorted[j]))
    {
      var node := sorted[k];
      var emailId := EmailId(node);
      if !Hashable(emailId) {
        ExaminedLoopStep(sorted, k, EmailId, seen, topN, |unique|);
        DedupRaisesAt(sorted, topN, k);
        return Err(UnhashableId("unhashable type: '" + TypeName(emailId) + "'"));
      }
      ghost var unique0, seen0 := unique, seen;
      if emailId !in seen {
        unique := unique + [node];
        seen := seen + {emailId};
      }
      DedupLoopStep(sorted, topN, k, n, seen0, unique0, seen, unique);
      HashablePrefix(sorted, k);
      if |unique| == topN {
        DedupKeeps(sorted, topN, k + 1);
        return Ok(unique);
      }
      k := k + 1;
    }
    assert sorted[k..] == [];
    assert unique == KeepFirst(sorted, EmailId, {}, topN, 0);
    assert Examined(sorted[k..], EmailId, seen, topN, |unique|) == 0;
    DedupKeeps(sorted, topN, k);
    return Ok(unique);
  }

  /** One iteration of the `seen_ids` loop at position `k`, from `unique`
      and `seen` to `unique'` and `seen'`: the node is examined, and either
      it brings the number kept to `top_n`, so the walk is complete, or the
      loop invariants hold at `k + 1`. */
  lemma DedupLoopStep(sorted: seq<SourceNode>, topN: int, k: nat, n: nat,
                      seen: set<Value>, unique: seq<SourceNode>, seen': set<Value>, unique': seq<SourceNode>)
    requires k < |sorted|
    requires EmailId(sorted[k]) !in seen ==> unique' == unique + [sorted[k]] && seen' == seen + {EmailId(sorted[k])}
    requires EmailId(sorted[k]) in seen ==> unique' == unique && seen' == seen
    requires unique + KeepFirst(sorted[k..], EmailId, seen, topN, |unique|) == KeepFirst(sorted, EmailId, {}, topN, 0)
    requires k + Examined(sorted[k..], EmailId, seen, topN, |unique|) == n
    ensures k < n
    ensures |unique'| == topN ==> unique' == KeepFirst(sorted, EmailId, {}, topN, 0) && k + 1 == n
    ensures |unique'| != topN ==>
      && unique' + KeepFirst(sorted[k + 1..], EmailId, seen', topN, |unique'|) == KeepFirst(sorted, EmailId, {}, topN, 0)
      && k + 1 + Examined(sorted[k + 1..], EmailId, seen', topN, |unique'|) == n
  {
    KeepFirstLoopStep(sorted, k, EmailId, seen, topN, unique);
    ExaminedLoopStep(sorted, k, EmailId, seen, topN, |unique|);
  }

  /** The nodes before `k + 1` have hashable ids when those before `k` and
      the node at `k` have. */
  lemma HashablePrefix(sorted: seq<SourceNode>, k: nat)
    requires k < |sorted| && Hashable(EmailId(sorted[k]))
    requires forall j | 0 <= j < k :: Hashable(EmailId(sorted[j]))
    ensures forall j | 0 <= j < k + 1 :: Hashable(EmailId(sorted[j]))
  {
  }

  /** The deduplication raises at an examined node with a list or dict id
      when every node before it was looked up. */
  lemma DedupRaisesAt(sorted: seq<SourceNode>, topN: int, k: nat)
    requires k < Examined(sorted, EmailId, {}, topN, 0)
    requires !Hashable(EmailId(sorted[k])) && forall j | 0 <= j < k :: Hashable(EmailId(sorted[j]))
    ensures Dedup(sorted, topN) == Err(UnhashableId(IdLookup(sorted[k]).error))
  {
    var n := Examined(sorted, EmailId, {}, topN, 0);
    assert sorted[..n][k] == sorted[k];
    assert forall j | 0 <= j < k :: sorted[..n][j] == sorted[j];
    CollectAllFirstFailure(IdLookup, sorted[..n], k);
  }

  /** The deduplication succeeds when every examined node was looked up. */
  lemma DedupKeeps(sorted: seq<SourceNode>, topN: int, k: nat)
    requires k == Examined(sorted, EmailId, {}, topN, 0)
    requires forall j | 0 <= j < k :: Hashable(EmailId(sorted[j]))
    ensures Dedup(sorted, topN) == Ok(KeepFirst(sorted, EmailId, {}, topN, 0))
  {
  }

  class CustomTimestampReranker {
    const topN: int

    constructor (topN: int := 3)
      ensures this.topN == topN
    {
      this.topN := topN;
    }

    /** `postprocess_nodes`: a list yields a new list; a response object has
        its `source_nodes` replaced and is itself returned. */
    method PostprocessNodes(py: Builtins, nodes: Batch) returns (r: Result<Batch, Raised>)
      modifies if nodes.Response? then {nodes.resp} else {}
      ensures nodes.NodeList? ==> r == match Rerank(py, nodes.items, topN)
        case Ok(u) => Ok(NodeList(u))
        case Err(e) => Err(e)
      ensures nodes.Response? ==> match Rerank(py, old(nodes.resp.sourceNodes), topN)
        case Ok(u) => r == Ok(nodes) && nodes.resp.sourceNodes == u
        case Err(e) => r == Err(e) && nodes.resp.sourceNodes == old(nodes.resp.sourceNodes)
    {
      var nodeList := if nodes.Response? then nodes.resp.sourceNodes else nodes.items;
      var sortedNodes := SortedByRecency(py, nodeList);
      if sortedNodes.Err? {
        return Err(sortedNodes.error);
      }
      var sorted := sortedNodes.value;
      var deduped := KeepFirstPerEmail(sorted, topN);
      assert Rerank(py, nodeList, topN) == deduped;
      if deduped.Err? {
        return Err(deduped.error);
      }
      var unique := deduped.value;
      if nodes.Response? {
        nodes.resp.sourceNodes := unique;
        return Ok(nodes);
      }
      return Ok(NodeList(unique));
    }
  }
}
