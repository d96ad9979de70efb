/** The evaluation script's own RAG: a one-shot prompt without history, an
    index directory that is reused only while its recorded window size
    matches, and a retrieval that falls back to the raw result when it has
    no scored source nodes. */
module Evaluation {
  import opened Wrappers
  import opened Text
  import opened Values
  import opened Nodes
  import opened Indexing
  import opened Prompting

  const EvalSystem: string := "You are a helpful assistant."

  const EvalPromptHead: string :=
    "\n" +
    "You are a helpful assistant that answers " +
    "questions based on provided information.\n" +
    "\n" +
    "Context from retrieved documents:\n"

  const EvalPromptMiddle: string :=
    "\n" +
    "\n" +
    "Question: "

  const EvalPromptTail: string :=
    "\n" +
    "\n" +
    "Please provide a clear and concise answer " +
    "based on the context above.\n"

  /** `f"Document {idx + 1}: {doc}"` renders each document with `str`. */
  function Rendered(py: Builtins, docs: seq<Value>): (texts: seq<string>)
    ensures |texts| == |docs| && forall k | 0 <= k < |docs| :: texts[k] == PyStr(py, docs[k])
  {
    seq(|docs|, k requires 0 <= k < |docs| => PyStr(py, docs[k]))
  }

  /** The single user prompt: the numbered context, then the question. */
  function EvalPrompt(py: Builtins, question: string, docs: seq<Value>): (prompt: string)
    ensures Contains(prompt, question)
    ensures forall k | 0 <= k < |docs| :: Contains(prompt, DocumentEntry(k, PyStr(py, docs[k])))
  {
    PromptCarries(EvalPromptHead, EvalPromptMiddle, EvalPromptTail, Rendered(py, docs), question);
    EvalPromptHead + NumberedContext(Rendered(py, docs)) + EvalPromptMiddle + question + EvalPromptTail
  }

  /** `generate_answer`: exactly two messages, and no conversation history. */
  function EvalMessages(py: Builtins, question: string, docs: seq<Value>): (msgs: seq<ChatMessage>)
    ensures msgs == [ChatMessage("system", Str(EvalSystem)), ChatMessage("user", Str(EvalPrompt(py, question, docs)))]
    ensures msgs == Conversation(EvalSystem, [], EvalPrompt(py, question, docs))
  {
    Conversation(EvalSystem, [], EvalPrompt(py, question, docs))
  }

  /** `generate_answer(user_question, retrieved_documents)`: the fallback
      text without documents, otherwise the stripped reply or the error
      text. Without documents the client is not asked; with them it is
      asked once, and a failure, also the `strip` of a None content, becomes
      the error text rather than an exception. */
  function GenerateAnswer(py: Builtins, complete: seq<ChatMessage> -> Result<Option<string>, string>,
                          question: string, docs: seq<Value>): (a: string)
    ensures docs == [] ==> a == NoDocumentsAnswer
    ensures var reply := complete(EvalMessages(py, question, docs));
      docs != [] && reply.Err? ==> a == ErrorAnswer(reply.error)
    ensures var reply := complete(EvalMessages(py, question, docs));
      docs != [] && reply.Ok? && reply.value.Some? ==> a == Strip(reply.value.value)
    ensures complete(EvalMessages(py, question, docs)) == Ok(None) && docs != [] ==> a == ErrorAnswer(NoneStripMessage)
    ensures docs != [] ==> a == ReplyText(complete(EvalMessages(py, question, docs)))
  {
    if docs == [] then NoDocumentsAnswer
    else ReplyText(complete(EvalMessages(py, question, docs)))
  }

  /** `get_sentence_window_engine`: six candidates, the `window` metadata in
      place of each sentence, then a rerank down to three. */
  function EvalEngine(store: map<string, TextNode>): (e: QueryEngine)
    ensures e.nodes == store && e.similarityTopK == 6 && e.responseMode == "no_text"
    ensures e.postprocessors == [MetadataReplacement("window"), SentenceTransformerRerank(3, "BAAI/bge-reranker-base")]
  {
    QueryEngine(store, 6, [MetadataReplacement("window"), SentenceTransformerRerank(3, "BAAI/bge-reranker-base")], "no_text")
  }

  /** A file of the index directory: a JSON document, a file `json.load`
      rejects, or what `persist` writes (abstracted as one entry holding the
      nodes). */
  datatype FileBody = Json(value: Value) | Unparsable | Persisted(nodes: seq<TextNode>)

  const ConfigName: string := "config.json"
  const StoreName: string := "docstore.json"

  /** Python's `stored == n` for an integer `n`: booleans count as 0 and 1,
      floats compare by value, everything else differs. */
  predicate WindowSizeEquals(stored: Value, n: int) {
    match stored
    case Bool(b) => (if b then 1 else 0) == n
    case Int(i) => i == n
    case Float(r) => r == n as real
    case _ => false
  }

  /** Why `get_sentence_window_index` raises: `json.load` fails, or the
      config is not a dict and has no `.get`. */
  datatype ConfigError = ConfigNotJson | ConfigNotDict

  datatype Decision = Reuse | Rebuild | Fail(error: ConfigError)

  /** The decision `get_sentence_window_index` takes for a directory. */
  function Decide(present: bool, files: map<string, FileBody>, n: int): (d: Decision)
    ensures d == Reuse <==>
      present && ConfigName in files && files[ConfigName].Json? && files[ConfigName].value.Obj? &&
      WindowSizeEquals(Get(files[ConfigName].value.fields, "window_size"), n)
    ensures d.Fail? <==>
      present && ConfigName in files && !(files[ConfigName].Json? && files[ConfigName].value.Obj?)
  {
    if present && ConfigName in files then
      match files[ConfigName]
      case Json(Obj(config)) => if WindowSizeEquals(Get(config, "window_size"), n) then Reuse else Rebuild
      case Json(_) => Fail(ConfigNotDict)
      case _ => Fail(ConfigNotJson)
    else Rebuild
  }

  /** What a rebuild leaves in the directory: the persisted index and the
      config `{"window_size": n}`, nothing else. */
  function BuiltFiles(nodes: seq<TextNode>, n: int): map<string, FileBody> {
    map[StoreName := Persisted(nodes), ConfigName := Json(Obj(map["window_size" := Int(n)]))]
  }

  /** A directory just rebuilt for window size `n` is reused for `n` and
      rebuilt for any other size. */
  lemma RebuiltIsReused(nodes: seq<TextNode>, n: int, m: int)
    ensures Decide(true, BuiltFiles(nodes, n), m) == (if m == n then Reuse else Rebuild)
  {
    assert StoreName != ConfigName by {
      assert StoreName[0] == 'd' && ConfigName[0] == 'c';
    }
    assert BuiltFiles(nodes, n)[ConfigName] == Json(Obj(map["window_size" := Int(n)]));
  }

  /** The index directory `index_dir`. */
  class IndexDirectory {
    var present: bool
    var files: map<string, FileBody>

    /** A directory that does not exist holds no files. */
    ghost predicate Valid()
      reads this
    {
      !present ==> files == map[]
    }

    constructor (present: bool, files: map<string, FileBody>)
      requires !present ==> files == map[]
      ensures Valid() && this.present == present && this.files == files
    {
      this.present := present;
      this.files := files;
    }
  }

  /** `get_sentence_window_index(documents, index_dir, n)`. `chunk` is the
      sentence-window parser and `load` what `load_index_from_storage` reads
      back. */
  method GetSentenceWindowIndex(dir: IndexDirectory, docs: seq<Document>, n: int,
                                chunk: (seq<Document>, int) -> seq<TextNode>,
                                load: map<string, FileBody> -> seq<TextNode>)
    returns (r: Result<seq<TextNode>, ConfigError>)
    requires dir.Valid()
    modifies dir
    ensures dir.Valid()
    ensures var d := Decide(old(dir.present), old(dir.files), n);
      (d == Reuse ==> r == Ok(load(old(dir.files))) && dir.files == old(dir.files) && dir.present) &&
      (d.Fail? ==> r == Err(d.error) && dir.files == old(dir.files) && dir.present == old(dir.present)) &&
      (d == Rebuild ==> r == Ok(chunk(docs, n)) && dir.files == BuiltFiles(chunk(docs, n), n) && dir.present)
  {
    if dir.present {
      if ConfigName in dir.files {
        match dir.files[ConfigName]
        case Json(Obj(config)) =>
          if WindowSizeEquals(Get(config, "window_size"), n) {
            return Ok(load(dir.files));
          }
        case Json(_) =>
          return Err(ConfigNotDict);
        case _ =>
          return Err(ConfigNotJson);
      }
      while dir.files != map[]
        modifies dir
        invariant dir.present
        decreases |dir.files|
      {
        var name :| name in dir.files;
        dir.files := dir.files - {name};
      }
    }
    var nodes := chunk(docs, n);
    dir.files := dir.files[StoreName := Persisted(nodes)];
    dir.present := true;
    dir.files := dir.files[ConfigName := Json(Obj(map["window_size" := Int(n)]))];
    return Ok(nodes);
  }

  /** What a query returns in the evaluation: a response with source nodes
      (and its `str`), a plain list, or anything else with its `str`. */
  datatype QueryResult =
    | Response(sourceNodes: seq<SourceNode>, rendered: string)
    | ListResult(items: seq<Value>)
    | OtherResult(rendered: string)

  /** `RAG.retrieve`: `[node.node.text for node in results.source_nodes]`,
      which raises on a bare node or a result without source nodes; then
      the result itself when it is a list, else `[str(results)]`. */
  function RetrievedTexts(result: QueryResult): (texts: seq<Value>)
    ensures result.ListResult? ==> texts == result.items
    ensures result.OtherResult? ==> texts == [Str(result.rendered)]
    ensures result.Response? ==>
      if forall k | 0 <= k < |result.sourceNodes| :: result.sourceNodes[k].Scored? then
        |texts| == |result.sourceNodes| &&
        forall k | 0 <= k < |texts| :: texts[k] == Str(result.sourceNodes[k].node.text)
      else texts == [Str(result.rendered)]
  {
    match result
    case Response(nodes, rendered) =>
      if forall k | 0 <= k < |nodes| :: nodes[k].Scored? then
        seq(|nodes|, k requires 0 <= k < |nodes| => Str(nodes[k].node.text))
      else [Str(rendered)]
    case ListResult(items) => items
    case OtherResult(rendered) => [Str(rendered)]
  }
}
