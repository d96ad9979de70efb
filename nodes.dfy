/** Documents and the chunks ("nodes") the vector index stores and returns. */
module Nodes {
  import opened Wrappers
  import opened Values

  /** A document handed to the index: its text and its metadata. */
  datatype Document = Document(text: string, metadata: Metadata)

  /** A stored chunk: the docstore id, its text and its metadata. */
  datatype TextNode = TextNode(id: string, text: string, metadata: Metadata)

  /** A retrieval candidate. The engine returns a node wrapped with its score;
      some call sites also see bare nodes. Both give access to `.node`, which is
      how `node.node if hasattr(node, "node") else node` is resolved here. */
  datatype SourceNode = Scored(node: TextNode, score: Option<real>) | Bare(node: TextNode)

  /** `metadata.get("email_id")`: the key duplicates are detected by. A missing
      id is Python's None, so all such nodes share one key. */
  function EmailId(n: SourceNode): Value {
    Get(n.node.metadata, "email_id")
  }

  /** `email_id in seen` with `seen` a Python `set`: it succeeds for a
      hashable id and raises `TypeError: unhashable type: '<type>'` for a
      list or dict. */
  function IdLookup(n: SourceNode): (r: Result<(), string>)
    ensures r.Ok? <==> Hashable(EmailId(n))
    ensures r.Err? ==> r.error == "unhashable type: '" + TypeName(EmailId(n)) + "'"
  {
    if Hashable(EmailId(n)) then Ok(())
    else Err("unhashable type: '" + TypeName(EmailId(n)) + "'")
  }

  function NodeText(n: SourceNode): string {
    n.node.text
  }
}
