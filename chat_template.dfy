/** The chat endpoint of the model server: the request's `prompt` message
    list rendered into `<|role|>` markup and closed by the assistant cue,
    the text the tokenizer then receives. */
module ChatTemplate {
  import opened Wrappers
  import opened Text
  import opened Values
  import opened Prompting

  /** Why building the text raises: the body is not a dict (`.get` fails),
      the prompt cannot be iterated, or a message is not a dict with `role`
      and `content`. */
  datatype TemplateError = BodyNotObject | PromptNotIterable | BadMessage

  datatype Turn = Turn(role: string, content: string)

  const AssistantCue: string := "<|assistant|>\n"

  /** The elements `for msg in messages` visits. A non-empty string or dict
      yields strings, on which `msg['role']` raises. */
  function Iterated(prompt: Value): (r: Result<seq<Value>, TemplateError>)
    ensures prompt.Arr? ==> r == Ok(prompt.items)
    ensures r.Ok? && !prompt.Arr? ==> r.value == []
    ensures r == Err(PromptNotIterable) <==> prompt.Null? || prompt.Bool? || prompt.Int? || prompt.Float?
  {
    match prompt
    case Arr(items) => Ok(items)
    case Str(s) => if s == "" then Ok([]) else Err(BadMessage)
    case Obj(m) => if m == map[] then Ok([]) else Err(BadMessage)
    case _ => Err(PromptNotIterable)
  }

  /** `msg['role']` and `msg['content']`, rendered by the f-string. */
  function TurnOf(py: Builtins, msg: Value): (r: Result<Turn, TemplateError>)
    ensures r.Ok? <==> msg.Obj? && "role" in msg.fields && "content" in msg.fields
    ensures r.Ok? ==> r.value == Turn(PyStr(py, msg.fields["role"]), PyStr(py, msg.fields["content"]))
  {
    if msg.Obj? && "role" in msg.fields && "content" in msg.fields then
      Ok(Turn(PyStr(py, msg.fields["role"]), PyStr(py, msg.fields["content"])))
    else Err(BadMessage)
  }

  /** `f"<|{msg['role']}|>\n{msg['content']}\n"`. */
  function RenderTurn(t: Turn): string {
    "<|" + t.role + "|>\n" + t.content + "\n"
  }

  function RenderTurns(ts: seq<Turn>): string {
    if ts == [] then "" else RenderTurn(ts[0]) + RenderTurns(ts[1..])
  }

  /** Rendering is a homomorphism from lists of turns to strings. */
  lemma {:induction false} RenderTurnsAppend(a: seq<Turn>, b: seq<Turn>)
    ensures RenderTurns(a + b) == RenderTurns(a) + RenderTurns(b)
  {
    if a == [] {
      assert a + b == b;
    } else {
      assert (a + b)[0] == a[0] && (a + b)[1..] == a[1..] + b;
      RenderTurnsAppend(a[1..], b);
    }
  }

  /** The turns of the first `n` messages, all of them well formed. */
  function TurnsUpTo(py: Builtins, msgs: seq<Value>, n: nat): (ts: seq<Turn>)
    requires n <= |msgs| && forall k | 0 <= k < n :: TurnOf(py, msgs[k]).Ok?
    ensures |ts| == n && forall k | 0 <= k < n :: ts[k] == TurnOf(py, msgs[k]).value
  {
    seq(n, k requires 0 <= k < n => TurnOf(py, msgs[k]).value)
  }

  /** One more well-formed message appends its rendered turn. */
  lemma RenderedUpToStep(py: Builtins, msgs: seq<Value>, i: nat)
    requires i < |msgs| && forall k | 0 <= k <= i :: TurnOf(py, msgs[k]).Ok?
    ensures RenderTurns(TurnsUpTo(py, msgs, i + 1)) == RenderTurns(TurnsUpTo(py, msgs, i)) + RenderTurn(TurnOf(py, msgs[i]).value)
  {
    var t := TurnOf(py, msgs[i]).value;
    RenderTurnsAppend(TurnsUpTo(py, msgs, i), [t]);
    assert TurnsUpTo(py, msgs, i + 1) == TurnsUpTo(py, msgs, i) + [t];
    assert RenderTurns([t]) == RenderTurn(t) + RenderTurns([]);
  }

  /** The text the endpoint builds from a request body. */
  function ChatText(py: Builtins, data: Value): (r: Result<string, TemplateError>)
    ensures !data.Obj? ==> r == Err(BodyNotObject)
    ensures r.Ok? ==> EndsWith(r.value, AssistantCue)
    ensures data.Obj? ==>
      var prompt := GetOr(data.fields, "prompt", Arr([]));
      (r.Ok? <==> Iterated(prompt).Ok? && forall k | 0 <= k < |Iterated(prompt).value| :: TurnOf(py, Iterated(prompt).value[k]).Ok?)
  {
    if !data.Obj? then Err(BodyNotObject)
    else
      var prompt := GetOr(data.fields, "prompt", Arr([]));
      match Iterated(prompt)
      case Err(e) => Err(e)
      case Ok(msgs) =>
        if forall k | 0 <= k < |msgs| :: TurnOf(py, msgs[k]).Ok? then
          var text := RenderTurns(TurnsUpTo(py, msgs, |msgs|)) + AssistantCue;
          assert text[|text| - |AssistantCue|..] == AssistantCue;
          Ok(text)
        else Err(BadMessage)
  }

  /** The loop of `chat()`: `text += ...` per message, then the cue. */
  method BuildChatText(py: Builtins, data: Value) returns (r: Result<string, TemplateError>)
    ensures r == ChatText(py, data)
  {
    if !data.Obj? {
      return Err(BodyNotObject);
    }
    var prompt := GetOr(data.fields, "prompt", Arr([]));
    var iterated := Iterated(prompt);
    if iterated.Err? {
      return Err(iterated.error);
    }
    var msgs := iterated.value;
    var text := "";
    for i := 0 to |msgs|
      invariant forall k | 0 <= k < i :: TurnOf(py, msgs[k]).Ok?
      invariant text == RenderTurns(TurnsUpTo(py, msgs, i))
    {
      var turn := TurnOf(py, msgs[i]);
      if turn.Err? {
        return Err(turn.error);
      }
      RenderedUpToStep(py, msgs, i);
      text := text + RenderTurn(turn.value);
    }
    text := text + AssistantCue;
    return Ok(text);
  }

  /** Without a `prompt` key the text is the bare cue. */
  lemma MissingPromptGivesCue(py: Builtins, fields: map<string, Value>)
    requires "prompt" !in fields
    ensures ChatText(py, Obj(fields)) == Ok(AssistantCue)
  {
  }

  /** The turns a message list becomes when each content is rendered with
      `str`. */
  function TurnsOf(py: Builtins, msgs: seq<ChatMessage>): (ts: seq<Turn>)
    ensures |ts| == |msgs|
    ensures forall k | 0 <= k < |msgs| :: ts[k] == Turn(msgs[k].role, PyStr(py, msgs[k].content))
  {
    seq(|msgs|, k requires 0 <= k < |msgs| => Turn(msgs[k].role, PyStr(py, msgs[k].content)))
  }

  /** A message list sent as `{"prompt": [...]}` is rendered turn by turn,
      in order, and closed by the cue. */
  lemma ChatTextOfMessages(py: Builtins, msgs: seq<ChatMessage>)
    ensures ChatText(py, Obj(map["prompt" := Arr(MessagesJson(msgs))])) == Ok(RenderTurns(TurnsOf(py, msgs)) + AssistantCue)
  {
    var vs := MessagesJson(msgs);
    forall k | 0 <= k < |vs| ensures TurnOf(py, vs[k]).Ok? && TurnOf(py, vs[k]).value == TurnsOf(py, msgs)[k] {
      assert vs[k] == MessageJson(msgs[k]);
    }
    assert TurnsUpTo(py, vs, |vs|) == TurnsOf(py, msgs);
  }
}
