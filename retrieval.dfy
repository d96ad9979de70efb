/** Retrieval as both RAG services perform it: walk the engine's source nodes
    in order and keep the text of the first node per `email_id`; nodes
    without an id share the key None, and an id that is a list or dict makes
    the set lookup raise. */
module Retrieval {
  import opened Wrappers
  import opened Values
  import opened Nodes
  import opened FirstPerKey

  /** The nodes whose texts retrieval returns. */
  function KeptNodes(results: seq<SourceNode>): seq<SourceNode> {
    Unique(results, EmailId, {})
  }

  function Texts(nodes: seq<SourceNode>): (texts: seq<string>)
    ensures |texts| == |nodes|
    ensures forall k | 0 <= k < |nodes| :: texts[k] == nodes[k].node.text
  {
    seq(|nodes|, k requires 0 <= k < |nodes| => nodes[k].node.text)
  }

  /** `retrieve` on the engine's nodes: the texts of the first node per
      `email_id`, or the `TypeError` the set lookup raises at the first node
      whose id is a list or dict. */
  function Retrieved(results: seq<SourceNode>): (r: Result<seq<string>, string>)
    ensures r.Ok? <==> forall i | 0 <= i < |results| :: Hashable(EmailId(results[i]))
    ensures r.Ok? ==> r.value == Texts(KeptNodes(results))
    ensures r.Err? ==> exists i | 0 <= i < |results| ::
      && !Hashable(EmailId(results[i])) && (forall j | 0 <= j < i :: Hashable(EmailId(results[j])))
      && r.error == IdLookup(results[i]).error
  {
    match CollectAll(IdLookup, results)
    case Err(e) => Err(e)
    case Ok(_) => Ok(Texts(KeptNodes(results)))
  }

  /** The loop of `retrieve`: a set of seen ids and a list of kept texts. */
  method FirstTextPerEmail(results: seq<SourceNode>) returns (r: Result<seq<string>, string>)
    ensures r == Retrieved(results)
  {
    var seen: set<Value> := {};
    var texts: seq<string> := [];
    ghost var kept: seq<SourceNode> := [];
    for i := 0 to |results|
      invariant kept + Unique(results[i..], EmailId, seen) == KeptNodes(results)
      invariant texts == Texts(kept)
      invariant forall j | 0 <= j < i :: Hashable(EmailId(results[j]))
    {
      assert results[i..][0] == results[i] && results[i..][1..] == results[i + 1..];
      var id := EmailId(results[i]);
      if !Hashable(id) {
        CollectAllFirstFailure(IdLookup, results, i);
        assert Retrieved(results) == Err("unhashable type: '" + TypeName(id) + "'");
        return Err("unhashable type: '" + TypeName(id) + "'");
      }
      if id !in seen {
        seen := seen + {id};
        texts := texts + [results[i].node.text];
        kept := kept + [results[i]];
      }
    }
    assert results[|results|..] == [];
    assert kept == KeptNodes(results);
    assert Retrieved(results).Ok?;
    assert Retrieved(results) == Ok(texts);
    r := Ok(texts);
  }

  /** No two kept nodes share an `email_id`. */
  lemma KeptDistinct(results: seq<SourceNode>)
    ensures forall a, b | 0 <= a < b < |KeptNodes(results)| :: EmailId(KeptNodes(results)[a]) != EmailId(KeptNodes(results)[b])
  {
    UniqueFresh(results, EmailId, {});
  }

  /** At most one kept node lacks an `email_id`. */
  lemma KeptOneWithoutId(results: seq<SourceNode>)
    ensures forall a, b | 0 <= a < |KeptNodes(results)| && 0 <= b < |KeptNodes(results)|
      && "email_id" !in KeptNodes(results)[a].node.metadata && "email_id" !in KeptNodes(results)[b].node.metadata ::
      a == b
  {
    KeptDistinct(results);
  }

  /** Each kept node is the first node in engine order with its id. */
  lemma KeptFirst(results: seq<SourceNode>)
    ensures forall a, i | 0 <= a < |KeptNodes(results)| && 0 <= i < |results|
      && EmailId(results[i]) == EmailId(KeptNodes(results)[a])
      && (forall j | 0 <= j < i :: EmailId(results[j]) != EmailId(results[i])) ::
      KeptNodes(results)[a] == results[i]
  {
    UniqueKeepsFirst(results, EmailId, {});
  }

  /** Kept nodes keep the engine's order. */
  lemma KeptInOrder(results: seq<SourceNode>)
    ensures IsSubsequence(KeptNodes(results), results)
  {
    UniqueSubsequence(results, EmailId, {});
  }

  /** One node is kept per distinct id, never more than there are nodes. */
  lemma KeptCount(results: seq<SourceNode>)
    ensures |KeptNodes(results)| == |KeySet(results, EmailId)|
    ensures |KeptNodes(results)| <= |results|
    ensures KeySet(KeptNodes(results), EmailId) == KeySet(results, EmailId)
  {
    UniqueLength(results, EmailId, {});
    UniqueNoLonger(results, EmailId, {});
    UniqueKeySet(results, EmailId, {});
  }
}
