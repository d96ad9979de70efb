/** The RAG service that talks to the self-hosted model server over HTTP:
    retrieval through the index manager's engine, a prompt built from the
    numbered documents, the message list posted as `{"prompt": [...]}`, and
    the last assistant turn read back from the server's raw output. */
module HttpRag {
  import opened Wrappers
  import opened Text
  import opened Values
  import opened Nodes
  import opened Indexing
  import opened Retrieval
  import opened Prompting
  import opened ChatTemplate
  import opened AssistantTurn

  /** The system message of the FEE.lix assistant, line by line. */
  const FeelixSystem: string :=
    "\n" +
    "    You are FEE.lix a chatbot assistant for " +
    "faculty of electrical engineering in Prague. \n" +
    "\n" +
    "    Important Guidelines:\n" +
    "    - Do not add any additional explanations " +
    "or interpretations.\n" +
    "    - Only use the information explicitly " +
    "provided in the documents.\n" +
    "    - If there is any ambiguity, simply state " +
    "the data as found without making assumptions.\n" +
    "    - Answer in English language.\n" +
    "    - Answer exclusively what user asked about " +
    "and do not add any additional information.\n" +
    "    - Cite only like this: Article(10)(1). when the " +
    "information is from the article 10 and point 1.\n" +
    "    - Answer in a conversational tone.\n" +
    "    - Keep the answer short and concise.\n" +
    "    - Answer yes or no if the question is you can " +
    "and then add short explanation.\n" +
    "    "

  /** What `requests.post` returns: the status code, the body as text, and
      `response.json()["response"]`, or the message of the exception that
      expression raises. */
  datatype HttpResponse = HttpResponse(status: int, text: string, response: Result<string, string>)

  /** The model server as seen from here: the JSON body posted, and the
      response or the message of the exception `requests.post` raises. */
  type Poster = Value -> Result<HttpResponse, string>

  /** `json={"prompt": prompt}`. */
  function RequestBody(msgs: seq<ChatMessage>): Value {
    Obj(map["prompt" := Arr(MessagesJson(msgs))])
  }

  const StatusPrefix: string := "Chyba: "

  /** `send_prompt`: Err carries the message of an exception it raises. */
  function SendPrompt(post: Poster, msgs: seq<ChatMessage>): (r: Result<string, string>)
    ensures post(RequestBody(msgs)).Err? ==> r == Err(post(RequestBody(msgs)).error)
    ensures post(RequestBody(msgs)).Ok? && post(RequestBody(msgs)).value.status != 200 ==>
      var resp := post(RequestBody(msgs)).value;
      r == Ok(StatusPrefix + IntToString(resp.status) + " - " + resp.text)
    ensures post(RequestBody(msgs)).Ok? && post(RequestBody(msgs)).value.status == 200 ==>
      var resp := post(RequestBody(msgs)).value;
      (r.Ok? <==> resp.response.Ok?) && (r.Ok? ==> r.value == ExtractAssistant(resp.response.value))
  {
    match post(RequestBody(msgs))
    case Err(e) => Err(e)
    case Ok(resp) =>
      if resp.status == 200 then
        match resp.response
        case Err(e) => Err(e)
        case Ok(full) => Ok(ExtractAssistant(full))
      else Ok(StatusPrefix + IntToString(resp.status) + " - " + resp.text)
  }

  /** `generate_answer` returns either the triple `(answer, context,
      messages)` or a bare string. */
  datatype GenOutcome = Triple(answer: string, context: string, messages: seq<ChatMessage>) | Text(s: string)

  /** The user prompt sent for a question and its documents. */
  function UserPrompt(py: Builtins, question: Value, docs: seq<string>): string {
    QueryPrompt(NumberedContext(docs), PyStr(py, question))
  }

  /** The messages sent for a question: system, history, prompt. */
  function Messages(py: Builtins, history: seq<ChatMessage>, question: Value, docs: seq<string>): seq<ChatMessage> {
    Conversation(FeelixSystem, history, UserPrompt(py, question, docs))
  }

  /** `generate_answer(user_question, retrieved_documents)`. */
  function GenerateAnswer(py: Builtins, post: Poster, history: seq<ChatMessage>, question: Value, docs: seq<string>): (o: GenOutcome)
    ensures docs == [] <==> o == Text(NoDocumentsAnswer)
    ensures o.Triple? <==> docs != [] && SendPrompt(post, Messages(py, history, question, docs)).Ok?
    ensures o.Triple? ==>
      o.context == NumberedContext(docs) && o.messages == Messages(py, history, question, docs) &&
      o.answer == SendPrompt(post, o.messages).value
    ensures o.Text? && docs != [] ==> o.s == ErrorAnswer(SendPrompt(post, Messages(py, history, question, docs)).error)
  {
    if docs == [] then Text(NoDocumentsAnswer)
    else
      var msgs := Messages(py, history, question, docs);
      match SendPrompt(post, msgs)
      case Ok(answer) => Triple(answer, NumberedContext(docs), msgs)
      case Err(e) =>
        ErrorAnswerDistinct(e, e);
        Text(ErrorAnswer(e))
  }

  /** A bare string never has exactly three characters, so `answer, context,
      messages = ...` raises on every string outcome: without documents, and
      whenever sending the prompt raises. */
  lemma TextNeverUnpacks(py: Builtins, post: Poster, history: seq<ChatMessage>, question: Value, docs: seq<string>)
    ensures var o := GenerateAnswer(py, post, history, question, docs);
      o.Text? ==> |o.s| > 3
  {
    assert |NoDocumentsAnswer| == 51;
  }

  /** What `query` returns: answer, documents, context and messages; the
      timings are not modelled. */
  datatype QueryOutcome = QueryOutcome(answer: string, docs: seq<string>, context: string, messages: seq<ChatMessage>)

  const UnpackMessage: string := "too many values to unpack (expected 3)"

  /** The three-way unpacking in `query`. */
  function Unpack(o: GenOutcome, docs: seq<string>): (r: Result<QueryOutcome, string>)
    ensures r.Ok? <==> o.Triple?
    ensures r.Ok? ==> r.value == QueryOutcome(o.answer, docs, o.context, o.messages)
  {
    match o
    case Triple(answer, context, messages) => Ok(QueryOutcome(answer, docs, context, messages))
    case Text(_) => Err(UnpackMessage)
  }

  /** When the model server answers 200 with the rendered chat text followed
      by a generated continuation, the answer is that continuation, stripped:
      provided the prompt holds no assistant tag and the continuation no user
      tag, whatever the history says. */
  lemma ServerReplyAnswer(py: Builtins, post: Poster, history: seq<ChatMessage>, question: Value, docs: seq<string>, generated: string)
    requires docs != []
    requires !Contains(UserPrompt(py, question, docs), AssistantTag) && !Contains(generated, UserTag)
    requires var body := RequestBody(Messages(py, history, question, docs));
      ChatText(py, body).Ok? && post(body).Ok? && post(body).value.status == 200 &&
      post(body).value.response == Ok(ChatText(py, body).value + generated)
    ensures GenerateAnswer(py, post, history, question, docs) ==
      Triple(Strip(generated), NumberedContext(docs), Messages(py, history, question, docs))
  {
    var prompt := UserPrompt(py, question, docs);
    var msgs := Messages(py, history, question, docs);
    var init := msgs[..|msgs| - 1];
    assert msgs == init + [ChatMessage("user", Str(prompt))];
    var pre := RenderTurns(TurnsOf(py, init));
    RenderedUserTurn(py, init, prompt);
    var full := ChatText(py, RequestBody(msgs)).value + generated;
    assert full == pre + UserTag + "\n" + prompt + "\n" + AssistantTag + "\n" + generated;
    GeneratedTextExtracted(pre, prompt, generated);
  }

  /** A message list ending in a user message is rendered as the earlier
      turns, the user turn and the assistant cue. */
  lemma RenderedUserTurn(py: Builtins, init: seq<ChatMessage>, prompt: string)
    ensures ChatText(py, RequestBody(init + [ChatMessage("user", Str(prompt))])) ==
      Ok(RenderTurns(TurnsOf(py, init)) + UserTag + "\n" + prompt + "\n" + AssistantTag + "\n")
  {
    var msgs := init + [ChatMessage("user", Str(prompt))];
    ChatTextOfMessages(py, msgs);
    assert TurnsOf(py, msgs) == TurnsOf(py, init) + [Turn("user", prompt)];
    RenderTurnsAppend(TurnsOf(py, init), [Turn("user", prompt)]);
    UserTurnThenCue(RenderTurns(TurnsOf(py, init)), prompt);
  }

  /** The user turn and the cue, rendered after earlier text. */
  lemma UserTurnThenCue(pre: string, prompt: string)
    ensures pre + RenderTurns([Turn("user", prompt)]) + AssistantCue ==
      pre + UserTag + "\n" + prompt + "\n" + AssistantTag + "\n"
  {
    assert "<|" + "user" + "|>\n" == UserTag + "\n";
    assert RenderTurns([Turn("user", prompt)]) == UserTag + "\n" + prompt + "\n";
    assert AssistantCue == AssistantTag + "\n";
  }

  /** `query(query)` on the engine's nodes: retrieval, generation and the
      three-way unpacking. Err is the `TypeError` of the retrieval or the
      `ValueError` of the unpacking; a success carries documents. */
  function Queried(py: Builtins, post: Poster, history: seq<ChatMessage>, query: Value, nodes: seq<SourceNode>): (r: Result<QueryOutcome, string>)
    ensures Retrieved(nodes).Err? ==> r == Err(Retrieved(nodes).error)
    ensures Retrieved(nodes).Ok? ==>
      r == Unpack(GenerateAnswer(py, post, history, query, Retrieved(nodes).value), Retrieved(nodes).value)
    ensures r.Ok? ==> r.value.docs == Texts(KeptNodes(nodes)) && r.value.docs != []
  {
    match Retrieved(nodes)
    case Err(e) => Err(e)
    case Ok(docs) => Unpack(GenerateAnswer(py, post, history, query, docs), docs)
  }

  /** `RAGService` of the HTTP variant. The conversation history is set by
      the endpoint before each query. */
  class RagHttpService {
    var conversationHistory: seq<ChatMessage>
    const manager: IndexManager
    /** `engine.query(query).source_nodes`: the retrieval itself is not
        modelled. */
    const search: (QueryEngine, Value) -> seq<SourceNode>
    const post: Poster
    const py: Builtins

    constructor (manager: IndexManager, search: (QueryEngine, Value) -> seq<SourceNode>, post: Poster, py: Builtins)
      ensures conversationHistory == []
      ensures this.manager == manager && this.search == search && this.post == post && this.py == py
    {
      this.manager := manager;
      this.search := search;
      this.post := post;
      this.py := py;
      conversationHistory := [];
    }

    /** `retrieve(query)`: the text of the first node per email id, in
        engine order, or the `TypeError` of an id that is a list or dict. */
    method Retrieve(query: Value) returns (r: Result<seq<string>, string>)
      ensures r == Retrieved(search(manager.engine, query))
    {
      var results := search(manager.engine, query);
      r := FirstTextPerEmail(results);
    }

    /** `query(query)`. */
    method Query(query: Value) returns (r: Result<QueryOutcome, string>)
      ensures r == Queried(py, post, conversationHistory, query, search(manager.engine, query))
    {
      var docs := Retrieve(query);
      if docs.Err? {
        return Err(docs.error);
      }
      var outcome := GenerateAnswer(py, post, conversationHistory, query, docs.value);
      r := Unpack(outcome, docs.value);
    }
  }
}
