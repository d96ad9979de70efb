/** The RAG service that asks a hosted chat-completion model: retrieval
    through the index manager's engine, then one of two prompt styles (the
    factual reporter and the email assistant), each answering with the
    stripped reply or an error text instead of raising. */
module OpenAiRag {
  import opened Wrappers
  import opened Text
  import opened Values
  import opened Nodes
  import opened Indexing
  import opened Retrieval
  import opened Prompting

  const EmailPromptHead: string :=
    "\n" +
    "    ---------------------------------------------------------------\n" +
    "    Context from retrieved documents " +
    "(sorted from newest to oldest):\n" +
    "\n" +
    "    "

  const EmailPromptMiddle: string :=
    "\n" +
    "    ---------------------------------------------------------------\n" +
    "    Customer Question: "

  /** `generate_answer` reports what the documents say; `generate_answer_ema`
      writes an email reply that prefers the newest document. */
  datatype Style = Factual | Email

  /** The system message of `generate_answer` and of `generate_answer_ema`. */
  function SystemOf(style: Style): string {
    match style
    case Factual =>
      "\n" +
      "    You are a factual assistant. Your task is to " +
      "report exactly what data was found in the " +
      "provided documents for the given query, and " +
      "indicate where that information was located " +
      "(for example, by document number or page number). \n" +
      "\n" +
      "    Important Guidelines:\n" +
      "    - Do not add any additional explanations " +
      "or interpretations.\n" +
      "    - Only use the information explicitly " +
      "provided in the documents.\n" +
      "    - If multiple documents contain relevant " +
      "information, list each separately.\n" +
      "    - If there is any ambiguity, simply state " +
      "the data as found without making assumptions.\n" +
      "    - Answer in Czech language.\n" +
      "    "
    case Email =>
      "\n" +
      "\n" +
      "    You are a helpful email assistant that answers " +
      "customer inquiries based on provided documents.\n" +
      "    From user you will recieve his question and " +
      "context in related documents.\n" +
      "\n" +
      "    Important Guidelines:\n" +
      "    - Always prioritize information from the " +
      "most recent document. \n" +
      "    - If newer information conflicts with older " +
      "documents, only use the latest (most recent) document.\n" +
      "\n" +
      "    Example:\n" +
      "    If the customer asks \"Do you offer delivery " +
      "to Germany?\" and the documents provided are:\n" +
      "\n" +
      "    Document 1 (newest):\n" +
      "    \"We no longer offer international shipping; " +
      "delivery is available only within the Czech Republic.\"\n" +
      "\n" +
      "    Document 2 (older):\n" +
      "    \"We deliver to countries including Germany, " +
      "Austria, and Slovakia.\"\n" +
      "\n" +
      "    Correct Response:\n" +
      "    \"Currently, we only offer delivery within " +
      "the Czech Republic.\"\n" +
      "\n" +
      "    Incorrect Response:\n" +
      "    \"Yes, we deliver to Germany.\"\n" +
      "\n" +
      "    Now, compose a clear, concise, and polite email " +
      "response to the customer's inquiry based strictly " +
      "on the above guidelines.\n" +
      "    "
  }

  /** The user prompt of each style: the context, then the question. */
  function PromptOf(style: Style, docs: seq<string>, question: string): (prompt: string)
    ensures Contains(prompt, question)
    ensures forall k | 0 <= k < |docs| :: Contains(prompt, DocumentEntry(k, docs[k]))
  {
    match style
    case Factual =>
      PromptCarries(QueryPromptHead, QueryPromptMiddle, QueryPromptTail, docs, question);
      QueryPrompt(NumberedContext(docs), question)
    case Email =>
      PromptCarries(EmailPromptHead, EmailPromptMiddle, QueryPromptTail, docs, question);
      EmailPromptHead + NumberedContext(docs) + EmailPromptMiddle + question + QueryPromptTail
  }

  /** `client.chat.completions.create(...)`: the message content of the first
      choice, which may be None, or the message of the exception raised. */
  type Completer = seq<ChatMessage> -> Result<Option<string>, string>

  /** The messages each style sends. */
  function Messages(style: Style, history: seq<ChatMessage>, question: string, docs: seq<string>): seq<ChatMessage> {
    Conversation(SystemOf(style), history, PromptOf(style, docs, question))
  }

  /** `generate_answer` and `generate_answer_ema`. They never raise: a
      failing client yields the error text. */
  function GenerateAnswer(style: Style, complete: Completer, history: seq<ChatMessage>, question: string, docs: seq<string>): (answer: string)
    ensures docs == [] ==> answer == NoDocumentsAnswer
    ensures docs != [] ==> answer == ReplyText(complete(Messages(style, history, question, docs)))
  {
    if docs == [] then NoDocumentsAnswer
    else ReplyText(complete(Messages(style, history, question, docs)))
  }

  /** Without documents the client is never asked: the answer is the same
      whatever it would have replied. */
  lemma NoDocumentsNoCall(style: Style, c1: Completer, c2: Completer, history: seq<ChatMessage>, question: string)
    ensures GenerateAnswer(style, c1, history, question, []) == GenerateAnswer(style, c2, history, question, [])
  {
  }

  /** Whatever the system message, the conversation built around a style's
      prompt hands the client the question and every numbered document. */
  lemma StyledConversationCarries(style: Style, system: string, history: seq<ChatMessage>, question: string, docs: seq<string>)
    ensures CarriesAll(Conversation(system, history, PromptOf(style, docs, question)), system, history, question, docs)
  {
    ConversationCarries(system, history, question, docs, PromptOf(style, docs, question));
  }

  /** With documents the client receives the system message, the history and
      one user prompt that carries the question and every numbered document;
      the answer depends on nothing else. */
  lemma ClientSeesEverything(style: Style, c1: Completer, c2: Completer, history: seq<ChatMessage>, question: string, docs: seq<string>)
    requires docs != []
    requires c1(Messages(style, history, question, docs)) == c2(Messages(style, history, question, docs))
    ensures GenerateAnswer(style, c1, history, question, docs) == GenerateAnswer(style, c2, history, question, docs)
    ensures CarriesAll(Messages(style, history, question, docs), SystemOf(style), history, question, docs)
  {
    StyledConversationCarries(style, SystemOf(style), history, question, docs);
  }

  /** A failing client yields the error text, a reply its stripped content. */
  lemma ReplyHandling(style: Style, complete: Completer, history: seq<ChatMessage>, question: string, docs: seq<string>)
    requires docs != []
    ensures var reply := complete(Messages(style, history, question, docs));
      var answer := GenerateAnswer(style, complete, history, question, docs);
      (reply.Err? ==> answer == ErrorAnswer(reply.error)) &&
      (reply.Ok? && reply.value.Some? ==> answer == Strip(reply.value.value))
  {
  }

  /** `RAGService` of the hosted-model variant. */
  class RagService {
    var conversationHistory: seq<ChatMessage>
    const manager: IndexManager
    /** `engine.query(query).source_nodes`. */
    const search: (QueryEngine, Value) -> seq<SourceNode>
    const complete: Completer

    constructor (manager: IndexManager, search: (QueryEngine, Value) -> seq<SourceNode>, complete: Completer)
      ensures conversationHistory == []
      ensures this.manager == manager && this.search == search && this.complete == complete
    {
      this.manager := manager;
      this.search := search;
      this.complete := complete;
      conversationHistory := [];
    }

    /** `retrieve(query)`: the text of the first node per email id, in
        engine order, or the `TypeError` of an id that is a list or dict. */
    method Retrieve(query: string) returns (r: Result<seq<string>, string>)
      ensures r == Retrieved(search(manager.engine, Str(query)))
    {
      var results := search(manager.engine, Str(query));
      r := FirstTextPerEmail(results);
    }

    /** `query(query)`: the factual answer and the documents it was given;
        an exception of the retrieval escapes. */
    method Query(query: string) returns (r: Result<(string, seq<string>), string>)
      ensures var retrieved := Retrieved(search(manager.engine, Str(query)));
        && (retrieved.Err? ==> r == Err(retrieved.error))
        && (retrieved.Ok? ==> r == Ok((GenerateAnswer(Factual, complete, conversationHistory, query, retrieved.value), retrieved.value)))
    {
      var docs := Retrieve(query);
      if docs.Err? {
        return Err(docs.error);
      }
      var answer := GenerateAnswer(Factual, complete, conversationHistory, query, docs.value);
      r := Ok((answer, docs.value));
    }
  }
}
