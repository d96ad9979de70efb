/** The `/query` endpoint of the HTTP RAG service: the request body is the
    chat's message list; the last user message is the query and every
    message but the final one becomes the conversation history. */
module RagApi {
  import opened Wrappers
  import opened Values
  import opened Nodes
  import opened Retrieval
  import opened Prompting
  import opened HttpRag

  /** A JSON reply with its status, or the 500 page Flask sends when the
      handler raises. */
  datatype ApiReply = Json(status: int, body: Value) | ServerError

  function ErrorBody(message: string): Value {
    Obj(map["error" := Str(message)])
  }

  const InvalidFormat: ApiReply := Json(400, ErrorBody("Invalid request format"))
  const NoUserMessage: ApiReply := Json(400, ErrorBody("No user message found"))

  lemma RepliesDistinct()
    ensures InvalidFormat != NoUserMessage && InvalidFormat != ServerError && NoUserMessage != ServerError
  {
    assert ErrorBody("Invalid request format").fields["error"].s[0] == 'I';
    assert ErrorBody("No user message found").fields["error"].s[0] == 'N';
  }

  /** `msg[key]` does not raise. */
  predicate HasKey(msg: Value, key: string) {
    msg.Obj? && key in msg.fields
  }

  /** `msg["sender"] == "user"`. */
  predicate FromUser(msg: Value) {
    HasKey(msg, "sender") && msg.fields["sender"] == Str("user")
  }

  /** A message both the scan and the history loop can read. */
  predicate WellFormed(msg: Value) {
    HasKey(msg, "sender") && HasKey(msg, "text")
  }

  /** `next((msg for msg in reversed(msgs[..n]) if msg["sender"] == "user"),
      None)`: the position of the last user message before `n`, None when
      there is none, Err when a message visited first has no sender. */
  function LastUser(msgs: seq<Value>, n: nat): (r: Result<Option<nat>, ()>)
    requires n <= |msgs|
    ensures r.Ok? && r.value.Some? ==>
      r.value.value < n && FromUser(msgs[r.value.value]) &&
      forall j | r.value.value < j < n :: HasKey(msgs[j], "sender") && !FromUser(msgs[j])
    ensures r == Ok(None) <==> forall j | 0 <= j < n :: HasKey(msgs[j], "sender") && !FromUser(msgs[j])
    ensures r.Err? ==> exists j | 0 <= j < n :: !HasKey(msgs[j], "sender")
    decreases n
  {
    if n == 0 then Ok(None)
    else if !HasKey(msgs[n - 1], "sender") then Err(())
    else if FromUser(msgs[n - 1]) then Ok(Some(n - 1))
    else LastUser(msgs, n - 1)
  }

  /** `{"role": role, "content": msg["text"]}`. */
  function HistoryEntry(msg: Value): ChatMessage
    requires WellFormed(msg)
  {
    ChatMessage(if FromUser(msg) then "user" else "assistant", msg.fields["text"])
  }

  /** The history list, None when some message lacks a sender or a text. */
  function HistoryOf(msgs: seq<Value>): (h: Option<seq<ChatMessage>>)
    ensures h.Some? <==> forall k | 0 <= k < |msgs| :: WellFormed(msgs[k])
    ensures h.Some? ==>
      |h.value| == |msgs| &&
      forall k | 0 <= k < |msgs| ::
        h.value[k].content == msgs[k].fields["text"] &&
        (h.value[k].role == "user" <==> FromUser(msgs[k])) &&
        (h.value[k].role == "user" || h.value[k].role == "assistant")
  {
    if forall k | 0 <= k < |msgs| :: WellFormed(msgs[k]) then
      Some(seq(|msgs|, k requires 0 <= k < |msgs| => HistoryEntry(msgs[k])))
    else None
  }

  /** The loop that builds `conversation_history`. */
  method BuildHistory(msgs: seq<Value>) returns (h: Option<seq<ChatMessage>>)
    ensures h == HistoryOf(msgs)
  {
    var entries: seq<ChatMessage> := [];
    for i := 0 to |msgs|
      invariant forall k | 0 <= k < i :: WellFormed(msgs[k])
      invariant entries == seq(i, k requires 0 <= k < i => HistoryEntry(msgs[k]))
    {
      if !WellFormed(msgs[i]) {
        return None;
      }
      entries := entries + [HistoryEntry(msgs[i])];
    }
    return Some(entries);
  }

  /** Everything `query()` does before calling the service: the query and
      the full history, or the reply it stops with. */
  function ParseRequest(body: Value): (r: Result<(Value, seq<ChatMessage>), ApiReply>)
    ensures r == Err(InvalidFormat) <==> !(body.Arr? && body.items != [])
    ensures body.Arr? && body.items != [] ==>
      (r == Err(NoUserMessage) <==> forall k | 0 <= k < |body.items| :: HasKey(body.items[k], "sender") && !FromUser(body.items[k]))
    ensures r.Err? ==> r.error == InvalidFormat || r.error == NoUserMessage || r.error == ServerError
    ensures r.Ok? ==> body.Arr? && HistoryOf(body.items) == Some(r.value.1) && |r.value.1| == |body.items| > 0
  {
    RepliesDistinct();
    if !(body.Arr? && body.items != []) then Err(InvalidFormat)
    else
      var msgs := body.items;
      match LastUser(msgs, |msgs|)
      case Err(_) => Err(ServerError)
      case Ok(None) => Err(NoUserMessage)
      case Ok(Some(i)) =>
        if !HasKey(msgs[i], "text") then Err(ServerError)
        else
          match HistoryOf(msgs)
          case None => Err(ServerError)
          case Some(h) => Ok((msgs[i].fields["text"], h))
  }

  /** The reference reading of a well-formed request: it is answered
      exactly when some message is from the user, and then the query is the
      text of the last such message. */
  lemma QueryIsLastUserText(msgs: seq<Value>, i: nat)
    requires msgs != [] && forall k | 0 <= k < |msgs| :: WellFormed(msgs[k])
    requires i < |msgs| && FromUser(msgs[i]) && forall j | i < j < |msgs| :: !FromUser(msgs[j])
    ensures ParseRequest(Arr(msgs)).Ok? && ParseRequest(Arr(msgs)).value.0 == msgs[i].fields["text"]
  {
    var r := LastUser(msgs, |msgs|);
    assert r.Ok? && r.value.Some?;
  }

  /** A well-formed request without a user message is refused. */
  lemma WellFormedWithoutUser(msgs: seq<Value>)
    requires msgs != [] && forall k | 0 <= k < |msgs| :: WellFormed(msgs[k]) && !FromUser(msgs[k])
    ensures ParseRequest(Arr(msgs)) == Err(NoUserMessage)
  {
  }

  /** `jsonify({"answer": answer, "context": context})`, or the 500 page when
      `rag.query` raises: in the retrieval's set lookup or in the unpacking. */
  function ReplyOf(r: Result<QueryOutcome, string>): (reply: ApiReply)
    ensures r.Err? <==> reply == ServerError
    ensures r.Ok? ==>
      reply.status == 200 && reply.body.Obj? && reply.body.fields.Keys == {"answer", "context"} &&
      reply.body.fields["answer"] == Str(r.value.answer) && reply.body.fields["context"] == Str(r.value.context)
  {
    match r
    case Err(_) => ServerError
    case Ok(outcome) => Json(200, Obj(map["answer" := Str(outcome.answer), "context" := Str(outcome.context)]))
  }

  /** `query()`. The history handed to the service is every message but the
      final one, whoever sent it. */
  method HandleQuery(rag: RagHttpService, body: Value) returns (reply: ApiReply)
    modifies rag
    ensures ParseRequest(body).Err? ==>
      reply == ParseRequest(body).error && rag.conversationHistory == old(rag.conversationHistory)
    ensures ParseRequest(body).Ok? ==>
      var (query, history) := ParseRequest(body).value;
      rag.conversationHistory == history[..|history| - 1] &&
      reply == ReplyOf(Queried(rag.py, rag.post, history[..|history| - 1], query, rag.search(rag.manager.engine, query)))
  {
    if !(body.Arr? && body.items != []) {
      return InvalidFormat;
    }
    var msgs := body.items;
    var last := LastUser(msgs, |msgs|);
    if last.Err? {
      return ServerError;
    }
    if last.value.None? {
      return NoUserMessage;
    }
    var i := last.value.value;
    if !HasKey(msgs[i], "text") {
      return ServerError;
    }
    var query := msgs[i].fields["text"];
    var history := BuildHistory(msgs);
    if history.None? {
      return ServerError;
    }
    rag.conversationHistory := history.value[..|history.value| - 1];
    var r := rag.Query(query);
    reply := ReplyOf(r);
  }
}
