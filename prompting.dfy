/** What the generation step of every RAG variant shares: the chat message
    shape, the fixed fallback answers, the numbered context built from the
    retrieved documents, the message list (system, then history, then one
    user message) and the reading of a chat-completion reply. */
module Prompting {
  import opened Wrappers
  import opened Text
  import opened Values

  /** One `{"role": ..., "content": ...}` entry of a chat request. */
  datatype ChatMessage = ChatMessage(role: string, content: Value)

  /** The JSON object a message is sent as. */
  function MessageJson(m: ChatMessage): (v: Value)
    ensures v.Obj? && v.fields.Keys == {"role", "content"}
    ensures v.fields["role"] == Str(m.role) && v.fields["content"] == m.content
  {
    Obj(map["role" := Str(m.role), "content" := m.content])
  }

  function MessagesJson(msgs: seq<ChatMessage>): (vs: seq<Value>)
    ensures |vs| == |msgs|
    ensures forall k | 0 <= k < |msgs| :: vs[k] == MessageJson(msgs[k])
  {
    seq(|msgs|, k requires 0 <= k < |msgs| => MessageJson(msgs[k]))
  }

  const NoDocumentsAnswer: string := "No relevant documents " + "found to answer the question."

  const ErrorPrefix: string := "Error generating response: "

  /** `f"Error generating response: {str(e)}"`. */
  function ErrorAnswer(e: string): (r: string)
    ensures |r| == |ErrorPrefix| + |e|
    ensures r[..|ErrorPrefix|] == ErrorPrefix && r[|ErrorPrefix|..] == e
  {
    ErrorPrefix + e
  }

  /** The error message is recovered from the answer, and no error answer is
      the no-documents answer. */
  lemma ErrorAnswerDistinct(e: string, e': string)
    ensures ErrorAnswer(e) == ErrorAnswer(e') ==> e == e'
    ensures ErrorAnswer(e) != NoDocumentsAnswer
  {
    assert ErrorAnswer(e)[0] == 'E' && NoDocumentsAnswer[0] == 'N';
  }

  /** What `str(e)` gives when `.strip()` is applied to a missing reply. */
  const NoneStripMessage: string := "'NoneType' object has no attribute 'strip'"

  /** `response.choices[0].message.content.strip()` inside the `try`: the
      client either raises with a message or returns the content, which may
      be None. */
  function ReplyText(reply: Result<Option<string>, string>): (r: string)
    ensures reply.Err? ==> r == ErrorAnswer(reply.error)
    ensures reply == Ok(None) ==> r == ErrorAnswer(NoneStripMessage)
    ensures reply.Ok? && reply.value.Some? ==> r == Strip(reply.value.value)
  {
    match reply
    case Err(e) => ErrorAnswer(e)
    case Ok(None) => ErrorAnswer(NoneStripMessage)
    case Ok(Some(content)) => Strip(content)
  }

  /** `f"Document {idx + 1}: {doc}"`. */
  function DocumentEntry(i: nat, doc: string): string {
    "Document " + NatToString(i + 1) + ": " + doc
  }

  function Entries(docs: seq<string>): (entries: seq<string>)
    ensures |entries| == |docs|
    ensures forall k | 0 <= k < |docs| :: entries[k] == DocumentEntry(k, docs[k])
  {
    seq(|docs|, k requires 0 <= k < |docs| => DocumentEntry(k, docs[k]))
  }

  /** `"\n\n".join(...)` of the numbered entries. */
  function NumberedContext(docs: seq<string>): string {
    Join("\n\n", Entries(docs))
  }

  /** A single document is the whole context, numbered 1. */
  lemma NumberedContextSingle(doc: string)
    ensures NumberedContext([doc]) == "Document 1: " + doc
  {
  }

  /** One more document adds a blank line and the next numbered entry. */
  lemma NumberedContextSnoc(docs: seq<string>, doc: string)
    requires docs != []
    ensures NumberedContext(docs + [doc]) == NumberedContext(docs) + "\n\n" + DocumentEntry(|docs|, doc)
  {
    assert Entries(docs + [doc]) == Entries(docs) + [DocumentEntry(|docs|, doc)];
    JoinSnoc("\n\n", Entries(docs), DocumentEntry(|docs|, doc));
  }

  /** Each document occurs in the context under its own number. */
  lemma NumberedContextContains(docs: seq<string>, k: nat)
    requires k < |docs|
    ensures Contains(NumberedContext(docs), DocumentEntry(k, docs[k]))
  {
    JoinContains("\n\n", Entries(docs), k);
  }

  /** The messages sent: the system message, the history in order, then
      exactly one user message holding the prompt. */
  function Conversation(system: string, history: seq<ChatMessage>, prompt: string): (msgs: seq<ChatMessage>)
    ensures |msgs| == |history| + 2
    ensures msgs[0] == ChatMessage("system", Str(system))
    ensures msgs[1..|msgs| - 1] == history
    ensures msgs[|msgs| - 1] == ChatMessage("user", Str(prompt))
  {
    [ChatMessage("system", Str(system))] + history + [ChatMessage("user", Str(prompt))]
  }

  /** What the client is handed: the system message, the history in order,
      and a last user message whose text holds the question and every
      numbered document. */
  predicate CarriesAll(msgs: seq<ChatMessage>, system: string, history: seq<ChatMessage>, question: string, docs: seq<string>) {
    && |msgs| >= 2
    && msgs[0] == ChatMessage("system", Str(system)) && msgs[1..|msgs| - 1] == history
    && msgs[|msgs| - 1].role == "user" && msgs[|msgs| - 1].content.Str?
    && Contains(msgs[|msgs| - 1].content.s, question)
    && forall k | 0 <= k < |docs| :: Contains(msgs[|msgs| - 1].content.s, DocumentEntry(k, docs[k]))
  }

  /** A conversation whose prompt carries the question and the documents
      hands all of them to the client, after the system message and the
      history. */
  lemma ConversationCarries(system: string, history: seq<ChatMessage>, question: string, docs: seq<string>, prompt: string)
    requires Contains(prompt, question)
    requires forall k | 0 <= k < |docs| :: Contains(prompt, DocumentEntry(k, docs[k]))
    ensures CarriesAll(Conversation(system, history, prompt), system, history, question, docs)
  {
    var msgs := Conversation(system, history, prompt);
    assert msgs[|msgs| - 1].content.s == prompt;
  }

  /** The user prompt of the document-reporting variants: the context, then
      the query, between separator lines. */
  function QueryPrompt(context: string, question: string): string {
    QueryPromptHead + context + QueryPromptMiddle + question + QueryPromptTail
  }

  const QueryPromptHead: string :=
    "\n" +
    "    ---------------------------------------------------------------\n" +
    "    Context from retrieved documents:\n" +
    "\n" +
    "    "

  const QueryPromptMiddle: string :=
    "\n" +
    "    ---------------------------------------------------------------\n" +
    "    Query: "

  const QueryPromptTail: string :=
    "\n" +
    "    ---------------------------------------------------------------\n" +
    "    "

  /** A prompt laid out as head, context, middle, question, tail carries the
      context and the question. */
  lemma TemplateContains(head: string, context: string, middle: string, question: string, tail: string)
    ensures Contains(head + context + middle + question + tail, context)
    ensures Contains(head + context + middle + question + tail, question)
  {
    assert OccursAt(context, 0, context);
    assert OccursAt(question, 0, question);
    ContainsInside(head, context, middle + question + tail, context);
    assert head + context + (middle + question + tail) == head + context + middle + question + tail;
    ContainsInside(head + context + middle, question, tail, question);
  }

  /** A prompt laid out around the numbered context carries the question and
      every document under its own number. */
  lemma PromptCarries(head: string, middle: string, tail: string, docs: seq<string>, question: string)
    ensures var prompt := head + NumberedContext(docs) + middle + question + tail;
      Contains(prompt, question) &&
      forall k | 0 <= k < |docs| :: Contains(prompt, DocumentEntry(k, docs[k]))
  {
    var prompt := head + NumberedContext(docs) + middle + question + tail;
    TemplateContains(head, NumberedContext(docs), middle, question, tail);
    forall k | 0 <= k < |docs| ensures Contains(prompt, DocumentEntry(k, docs[k])) {
      NumberedContextContains(docs, k);
      ContainsTransitive(prompt, NumberedContext(docs), DocumentEntry(k, docs[k]));
    }
  }
}
