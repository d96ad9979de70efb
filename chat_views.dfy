/** The chat backend's views over its two tables: listing a conversation's
    messages in time order, storing a message and, for a user message,
    asking the RAG endpoint and storing exactly one bot reply, and the
    rating upsert keyed by message. */
module ChatViews {
  import opened Wrappers
  import opened Values
  import opened StableSort
  import opened ChatSerializers

  /** A response with its status, or the 500 page when the view raises. */
  datatype Reply = Reply(status: int, body: Value) | ServerError

  function Abs(x: real): real {
    if x >= 0.0 then x else -x
  }

  /** What an integer column stores for a value: `int(value)`, truncating
      floats toward zero; None where the save raises (a None in a NOT NULL
      column, or a value `int` rejects). */
  function IntField(py: Builtins, v: Value): (r: Option<int>)
    ensures v.Int? ==> r == Some(v.i)
    ensures v.Null? || v.Arr? || v.Obj? ==> r == None
    ensures v.Float? ==>
      r.Some? && Abs(r.value as real) <= Abs(v.r) < Abs(r.value as real) + 1.0 &&
      (v.r >= 0.0 ==> r.value >= 0) && (v.r <= 0.0 ==> r.value <= 0)
  {
    match v
    case Null => None
    case Bool(b) => Some(if b then 1 else 0)
    case Int(i) => Some(i)
    case Float(r) => Some(if r >= 0.0 then r.Floor else -((-r).Floor))
    case Str(s) => py.intOfStr(s)
    case _ => None
  }

  /** What a text column stores: the value rendered with `str`; None for
      None, which the NOT NULL column refuses. */
  function TextField(py: Builtins, v: Value): (r: Option<string>)
    ensures r.None? <==> v.Null?
    ensures v.Str? ==> r == Some(v.s)
  {
    if v.Null? then None else Some(PyStr(py, v))
  }

  /** `filter(conversation_id=c)`, in table order. */
  function InConversation(ms: seq<MessageRow>, c: nat): (r: seq<MessageRow>)
    ensures forall m :: m in r <==> m in ms && m.conversation == c
    ensures |r| <= |ms|
  {
    if ms == [] then []
    else (if ms[0].conversation == c then [ms[0]] else []) + InConversation(ms[1..], c)
  }

  /** The sort keys: descending by negated timestamp is ascending by
      timestamp. */
  function NegatedTimes(ms: seq<MessageRow>): (keys: seq<real>)
    ensures |keys| == |ms| && forall k | 0 <= k < |ms| :: keys[k] == -(ms[k].timestamp as real)
  {
    seq(|ms|, k requires 0 <= k < |ms| => -(ms[k].timestamp as real))
  }

  /** `filter(conversation_id=c).order_by("timestamp")`: a conversation's
      messages by time, equal times in table order. */
  function Thread(ms: seq<MessageRow>, c: nat): (r: seq<MessageRow>)
    ensures |r| == |InConversation(ms, c)|
    ensures forall k | 0 <= k < |r| :: r[k] in InConversation(ms, c)
  {
    var f := InConversation(ms, c);
    Permute(f, SortIndices(NegatedTimes(f)))
  }

  /** The thread holds exactly the conversation's messages, earliest first. */
  lemma ThreadIsConversationByTime(ms: seq<MessageRow>, c: nat)
    ensures forall m :: m in Thread(ms, c) <==> m in ms && m.conversation == c
    ensures forall a, b | 0 <= a < b < |Thread(ms, c)| :: Thread(ms, c)[a].timestamp <= Thread(ms, c)[b].timestamp
  {
    var f := InConversation(ms, c);
    var keys := NegatedTimes(f);
    var order := SortIndices(keys);
    var r := Thread(ms, c);
    assert r == Permute(f, order);
    forall m | m in ms && m.conversation == c ensures m in r {
      var i :| 0 <= i < |f| && f[i] == m;
      assert i in order;
      var k :| 0 <= k < |order| && order[k] == i;
      assert r[k] == m;
    }
    forall a, b | 0 <= a < b < |r| ensures r[a].timestamp <= r[b].timestamp {
      assert Before(keys, order[a], order[b]);
    }
  }

  const FallbackAnswer: string := "Sorry, I didn't understand that."

  /** `reply_text` of `perform_create`: the reply's `answer`, the fallback
      when it has none, or the bot error text when posting or decoding
      fails or the reply has no `.get`. */
  function BotText(post: seq<Value> -> Result<Value, string>, payload: seq<Value>): (text: Value)
    ensures post(payload).Err? ==> text == Str("(bot error: " + post(payload).error + ")")
    ensures post(payload).Ok? && post(payload).value.Obj? ==>
      text == GetOr(post(payload).value.fields, "answer", Str(FallbackAnswer))
    ensures post(payload).Ok? && !post(payload).value.Obj? ==>
      text == Str("(bot error: '" + TypeName(post(payload).value) + "' object has no attribute 'get')")
  {
    match post(payload)
    case Err(e) => Str("(bot error: " + e + ")")
    case Ok(Obj(reply)) => GetOr(reply, "answer", Str(FallbackAnswer))
    case Ok(v) => Str("(bot error: '" + TypeName(v) + "' object has no attribute 'get')")
  }

  /** A row with this id exists. */
  predicate HasMessage(ms: seq<MessageRow>, id: nat) {
    exists k | 0 <= k < |ms| :: ms[k].id == id
  }

  /** What `update_or_create(message_id=..., defaults=...)` does given the
      request data: the message id, the row stored under it and whether it
      was created; None when the view raises. */
  function RatingUpsert(py: Builtins, data: Value, ms: seq<MessageRow>, ratings: map<nat, RatingRow>,
                        nextRatingId: nat, now: int): (r: Option<(nat, RatingRow, bool)>)
    ensures r.Some? ==> (r.value.0 in ratings <==> !r.value.2)
    ensures r.Some? ==>
      var (id, row, created) := r.value;
      data.Obj? && HasMessage(ms, id) &&
      IntField(py, Get(data.fields, "message")) == Some(id as int) &&
      IntField(py, Get(data.fields, "value")) == Some(row.rating) &&
      TextField(py, GetOr(data.fields, "comment", Str(""))) == Some(row.comment) &&
      (created ==> row.id == nextRatingId && row.ratedAt == now) &&
      (!created ==> row.id == ratings[id].id && row.ratedAt == ratings[id].ratedAt)
    ensures r.None? <==>
      !data.Obj? || IntField(py, Get(data.fields, "message")).None? || IntField(py, Get(data.fields, "message")).value < 0 ||
      !HasMessage(ms, IntField(py, Get(data.fields, "message")).value as nat) ||
      IntField(py, Get(data.fields, "value")).None? ||
      TextField(py, GetOr(data.fields, "comment", Str(""))).None?
  {
    if !data.Obj? then None
    else
      var message := IntField(py, Get(data.fields, "message"));
      var value := IntField(py, Get(data.fields, "value"));
      var comment := TextField(py, GetOr(data.fields, "comment", Str("")));
      if message.None? || message.value < 0 || !HasMessage(ms, message.value as nat) || value.None? || comment.None? then None
      else
        var id := message.value as nat;
        if id in ratings then Some((id, RatingRow(ratings[id].id, value.value, comment.value, ratings[id].ratedAt), false))
        else Some((id, RatingRow(nextRatingId, value.value, comment.value, now), true))
  }

  /** Clearing a rating sends `value: null`, which the NOT NULL column
      refuses: the rating can never be cleared through this view. */
  lemma ClearingIsRefused(py: Builtins, fields: map<string, Value>, ms: seq<MessageRow>, ratings: map<nat, RatingRow>, nextRatingId: nat, now: int)
    requires Get(fields, "value") == Null
    ensures RatingUpsert(py, Obj(fields), ms, ratings, nextRatingId, now).None?
  {
  }

  /** Sending the same rating twice creates it once and then finds the same
      row: the second reply is an update that stores what the first one did. */
  lemma UpsertTwice(py: Builtins, data: Value, ms: seq<MessageRow>, ratings: map<nat, RatingRow>, nextRatingId: nat, now: int, later: int)
    requires RatingUpsert(py, data, ms, ratings, nextRatingId, now).Some?
    ensures var (id, row, _) := RatingUpsert(py, data, ms, ratings, nextRatingId, now).value;
      RatingUpsert(py, data, ms, ratings[id := row], nextRatingId + 1, later) == Some((id, row, false))
  {
  }

  /** The two tables and their id counters. */
  class ChatDatabase {
    var messages: seq<MessageRow>
    var ratings: map<nat, RatingRow>
    var nextMessageId: nat
    var nextRatingId: nat

    /** Message ids increase in table order and lie below the counter; every
        rating rates a stored message and has an id below its counter. */
    ghost predicate Valid()
      reads this
    {
      (forall a, b | 0 <= a < b < |messages| :: messages[a].id < messages[b].id) &&
      (forall k | 0 <= k < |messages| :: messages[k].id < nextMessageId) &&
      (forall id | id in ratings :: HasMessage(messages, id) && ratings[id].id < nextRatingId)
    }

    constructor ()
      ensures Valid() && messages == [] && ratings == map[]
    {
      messages := [];
      ratings := map[];
      nextMessageId := 1;
      nextRatingId := 1;
    }

    /** `MessageViewSet.get_queryset`: the conversation's thread, nothing
        without a (non-empty) `conversation` parameter; Err when the
        parameter is not an integer. A negative integer is a valid lookup
        that no conversation matches. */
    function GetQueryset(py: Builtins, conversation: Option<string>): (r: Result<seq<MessageRow>, ()>)
      reads this
      ensures conversation.None? || conversation == Some("") ==> r == Ok([])
      ensures r.Err? <==>
        conversation.Some? && conversation.value != "" && py.intOfStr(conversation.value).None?
      ensures r.Ok? && conversation.Some? && conversation.value != "" && py.intOfStr(conversation.value).value < 0 ==>
        r.value == []
      ensures r.Ok? && conversation.Some? && conversation.value != "" && py.intOfStr(conversation.value).value >= 0 ==>
        r.value == Thread(messages, py.intOfStr(conversation.value).value as nat)
    {
      if conversation.None? || conversation.value == "" then Ok([])
      else
        match py.intOfStr(conversation.value)
        case None => Err(())
        case Some(c) => if c < 0 then Ok([]) else Ok(Thread(messages, c as nat))
    }

    /** `MessageViewSet.perform_create`: store the message; for a user
        message post the whole conversation, new message included, and
        store exactly one bot reply. `ok` is false when storing the reply
        raises (a None answer), after the user message is stored. */
    method PerformCreate(py: Builtins, post: seq<Value> -> Result<Value, string>,
                         conversation: nat, sender: string, text: string, now: int, later: int)
      returns (ok: bool)
      requires Valid()
      modifies this
      ensures Valid() && ratings == old(ratings)
      ensures var user := MessageRow(old(nextMessageId), conversation, sender, text, now);
        var payload := SerializeMessages(Thread(old(messages) + [user], conversation), old(ratings));
        var reply := TextField(py, BotText(post, payload));
        (ok <==> sender != "user" || reply.Some?) &&
        messages == old(messages) + [user] +
          (if sender == "user" && reply.Some? then [MessageRow(old(nextMessageId) + 1, conversation, "bot", reply.value, later)] else [])
    {
      AppendMessage(conversation, sender, text, now);
      if sender != "user" {
        return true;
      }
      var payload := SerializeMessages(Thread(messages, conversation), ratings);
      var reply := TextField(py, BotText(post, payload));
      if reply.None? {
        return false;
      }
      AppendMessage(conversation, "bot", reply.value, later);
      return true;
    }

    /** `Message.objects.create(...)`: a new row with the next id. */
    method AppendMessage(conversation: nat, sender: string, text: string, timestamp: int)
      requires Valid()
      modifies this
      ensures Valid() && ratings == old(ratings) && nextMessageId == old(nextMessageId) + 1
      ensures messages == old(messages) + [MessageRow(old(nextMessageId), conversation, sender, text, timestamp)]
    {
      ghost var before := messages;
      messages := messages + [MessageRow(nextMessageId, conversation, sender, text, timestamp)];
      nextMessageId := nextMessageId + 1;
      forall id | id in ratings ensures HasMessage(messages, id) {
        var k :| 0 <= k < |before| && before[k].id == id;
        assert messages[k] == before[k];
      }
    }

    /** `AnswerRatingViewSet.create`: 201 with the new row, 200 with the
        updated one; the 500 page, and no change, when the view raises. */
    method CreateRating(py: Builtins, data: Value, now: int) returns (reply: Reply)
      requires Valid()
      modifies this
      ensures Valid() && messages == old(messages)
      ensures var r := RatingUpsert(py, data, old(messages), old(ratings), old(nextRatingId), now);
        (r.None? ==> reply == ServerError && ratings == old(ratings)) &&
        (r.Some? ==>
          var (id, row, created) := r.value;
          ratings == old(ratings)[id := row] &&
          reply == Reply(if created then 201 else 200, SerializeRating(id, row)))
    {
      var r := RatingUpsert(py, data, messages, ratings, nextRatingId, now);
      if r.None? {
        return ServerError;
      }
      var (id, row, created) := r.value;
      ratings := ratings[id := row];
      if created {
        nextRatingId := nextRatingId + 1;
      }
      reply := Reply(if created then 201 else 200, SerializeRating(id, row));
    }
  }
}
