/** The chat window's state: the conversation list with the messages of the
    loaded conversations, the selected conversation and the draft. The
    updaters handed to `setConversations` are pure functions here; each
    handler is a method of `ChatWindow` that applies them in order, taking
    what the server answers as parameters. */
module ChatUi {
  import opened Wrappers
  import opened Text
  import opened Values
  import opened StableSort
  import opened ChatSerializers
  import opened ChatViews

  /** The thumbs a message can carry; an absent rating is `None`. */
  datatype Rating = Up | Down

  /** A message as the window holds it. Its fields come from the server's
      JSON unchecked, so they stay JSON values; a missing field reads as
      `Null`. */
  datatype UiMessage = UiMessage(id: Value, text: Value, sender: Value, rating: Option<Rating>)

  datatype UiConversation = UiConversation(id: int, title: string, messages: seq<UiMessage>)

  /** A row of `GET /api/conversations/` as far as the window reads it. */
  datatype ApiConversation = ApiConversation(id: int, title: string)

  // ----- Ratings -----

  /** Clicking the thumb a message already shows clears it; any other click
      shows the clicked thumb. */
  function NextRating(prev: Option<Rating>, clicked: Rating): (next: Option<Rating>)
    ensures next.None? <==> prev == Some(clicked)
    ensures next.Some? ==> next == Some(clicked)
  {
    if prev == Some(clicked) then None else Some(clicked)
  }

  /** Two clicks on the same thumb leave an unrated or same-rated message
      as it was. */
  lemma ClickTwice(prev: Option<Rating>, clicked: Rating)
    requires prev.None? || prev == Some(clicked)
    ensures NextRating(NextRating(prev, clicked), clicked) == prev
  {
  }

  /** `ratingValueToSend`: 1 for up, -1 for down, null when cleared. */
  function EncodeRating(r: Option<Rating>): (v: Value)
    ensures v == Int(1) <==> r == Some(Up)
    ensures v == Int(-1) <==> r == Some(Down)
    ensures v == Null <==> r.None?
  {
    match r
    case Some(Up) => Int(1)
    case Some(Down) => Int(-1)
    case None => Null
  }

  /** The frontend reading of the API's `rating` field. */
  function FromApiRating(v: Value): (r: Option<Rating>)
    ensures r == Some(Up) <==> v == Str("up")
    ensures r == Some(Down) <==> v == Str("down")
    ensures r.None? <==> v != Str("up") && v != Str("down")
  {
    if v == Str("up") then Some(Up)
    else if v == Str("down") then Some(Down)
    else None
  }

  /** The body of `POST /api/ratings/`. */
  function RatingRequest(messageId: Value, r: Option<Rating>): (body: Value)
    ensures body.Obj? && body.fields.Keys == {"message", "value"}
    ensures body.fields["message"] == messageId && body.fields["value"] == EncodeRating(r)
  {
    Obj(map["message" := messageId, "value" := EncodeRating(r)])
  }

  /** The rating of message `j` of conversation `i` replaced; every other
      message and conversation as it was. */
  function ApplyRatingAt(cs: seq<UiConversation>, i: int, j: int, r: Option<Rating>): (res: seq<UiConversation>)
    ensures |res| == |cs|
    ensures forall c | 0 <= c < |cs| && c != i :: res[c] == cs[c]
    ensures 0 <= i < |cs| ==>
      res[i].id == cs[i].id && res[i].title == cs[i].title && |res[i].messages| == |cs[i].messages| &&
      forall m | 0 <= m < |cs[i].messages| ::
        res[i].messages[m] == if m == j then cs[i].messages[m].(rating := r) else cs[i].messages[m]
  {
    seq(|cs|, c requires 0 <= c < |cs| =>
      if c == i then
        cs[c].(messages := seq(|cs[c].messages|, m requires 0 <= m < |cs[c].messages| =>
          if m == j then cs[c].messages[m].(rating := r) else cs[c].messages[m]))
      else cs[c])
  }

  /** Putting the previous rating back after any change restores the list
      exactly: the revert undoes the optimistic update. */
  lemma {:induction false} RevertRestores(cs: seq<UiConversation>, i: nat, j: nat, r: Option<Rating>)
    requires i < |cs| && j < |cs[i].messages|
    ensures ApplyRatingAt(ApplyRatingAt(cs, i, j, r), i, j, cs[i].messages[j].rating) == cs
  {
    var once := ApplyRatingAt(cs, i, j, r);
    var twice := ApplyRatingAt(once, i, j, cs[i].messages[j].rating);
    assert twice[i].messages == cs[i].messages;
    assert twice[i] == cs[i];
    forall c | 0 <= c < |cs| ensures twice[c] == cs[c] {
    }
  }

  /** `Array.prototype.findIndex`: the position of the first element that
      matches, -1 when there is none. */
  function FindIndex<T>(xs: seq<T>, matches: T -> bool): (i: int)
    ensures -1 <= i < |xs|
    ensures i >= 0 ==> matches(xs[i]) && forall k | 0 <= k < i :: !matches(xs[k])
    ensures i == -1 <==> forall k | 0 <= k < |xs| :: !matches(xs[k])
  {
    if xs == [] then -1
    else if matches(xs[0]) then 0
    else
      var i := FindIndex(xs[1..], matches);
      if i == -1 then -1 else i + 1
  }

  /** `findIndex(c => c.id === id)`. */
  function ConversationIndex(cs: seq<UiConversation>, id: int): int
  {
    FindIndex(cs, (c: UiConversation) => c.id == id)
  }

  /** `findIndex(m => m.id === id)`. */
  function MessageIndex(ms: seq<UiMessage>, id: Value): int
  {
    FindIndex(ms, (m: UiMessage) => m.id == id)
  }

  /** The conversation and message `handleRating` changes: the first
      conversation with the selected id and its first message with the
      clicked id; None when there is no selection or no match. */
  function RatingTarget(cs: seq<UiConversation>, current: Option<int>, messageId: Value): (t: Option<(nat, nat)>)
    ensures t.Some? ==>
      current.Some? && t.value.0 < |cs| && t.value.1 < |cs[t.value.0].messages| &&
      t.value.0 as int == ConversationIndex(cs, current.value) &&
      t.value.1 as int == MessageIndex(cs[t.value.0].messages, messageId)
    ensures t.None? <==>
      current.None? || ConversationIndex(cs, current.value) == -1 ||
      MessageIndex(cs[ConversationIndex(cs, current.value)].messages, messageId) == -1
  {
    if current.None? then None
    else
      var i := ConversationIndex(cs, current.value);
      if i == -1 then None
      else
        var j := MessageIndex(cs[i].messages, messageId);
        if j == -1 then None else Some((i as nat, j as nat))
  }

  // ----- Messages -----

  /** The messages without those carrying `id`, in order. */
  function Keep(ms: seq<UiMessage>, id: Value): (r: seq<UiMessage>)
    ensures forall x :: x in r <==> x in ms && x.id != id
    ensures (forall k | 0 <= k < |ms| :: ms[k].id != id) ==> r == ms
    decreases |ms|
  {
    if ms == [] then []
    else
      var init, last := ms[..|ms| - 1], ms[|ms| - 1];
      assert ms == init + [last];
      Keep(init, id) + (if last.id != id then [last] else [])
  }

  /** The optimistic update: `m` appended to every conversation with id `c`. */
  function AppendMessage(cs: seq<UiConversation>, c: int, m: UiMessage): (res: seq<UiConversation>)
    ensures |res| == |cs|
    ensures forall k | 0 <= k < |cs| ::
      if cs[k].id == c then res[k] == cs[k].(messages := cs[k].messages + [m]) else res[k] == cs[k]
  {
    seq(|cs|, k requires 0 <= k < |cs| => if cs[k].id == c then cs[k].(messages := cs[k].messages + [m]) else cs[k])
  }

  /** The messages of every conversation with id `c` replaced by `ms`. */
  function ReplaceMessages(cs: seq<UiConversation>, c: int, ms: seq<UiMessage>): (res: seq<UiConversation>)
    ensures |res| == |cs|
    ensures forall k | 0 <= k < |cs| ::
      if cs[k].id == c then res[k] == cs[k].(messages := ms) else res[k] == cs[k]
  {
    seq(|cs|, k requires 0 <= k < |cs| => if cs[k].id == c then cs[k].(messages := ms) else cs[k])
  }

  /** The rollback: every message with id `id` taken out of the
      conversations with id `c`. */
  function WithoutMessage(cs: seq<UiConversation>, c: int, id: Value): (res: seq<UiConversation>)
    ensures |res| == |cs|
    ensures forall k | 0 <= k < |cs| ::
      if cs[k].id == c then res[k] == cs[k].(messages := Keep(cs[k].messages, id)) else res[k] == cs[k]
  {
    seq(|cs|, k requires 0 <= k < |cs| => if cs[k].id == c then cs[k].(messages := Keep(cs[k].messages, id)) else cs[k])
  }

  /** A list's messages with one more appended whose id is `m.id` lose it
      again when that id is filtered out. */
  lemma {:induction false} KeepDropsAppended(ms: seq<UiMessage>, m: UiMessage)
    ensures Keep(ms + [m], m.id) == Keep(ms, m.id)
  {
    assert (ms + [m])[..|ms + [m]| - 1] == ms;
  }

  /** No message of the conversations with id `c` carries `id`. */
  predicate IdFree(cs: seq<UiConversation>, c: int, id: Value) {
    forall k, j | 0 <= k < |cs| && cs[k].id == c && 0 <= j < |cs[k].messages| :: cs[k].messages[j].id != id
  }

  /** The rollback after a failed send removes exactly the optimistic
      message, provided its id (the click time) was not already in use in
      that conversation. */
  lemma {:induction false} RollbackRestores(cs: seq<UiConversation>, c: int, m: UiMessage)
    requires IdFree(cs, c, m.id)
    ensures WithoutMessage(AppendMessage(cs, c, m), c, m.id) == cs
  {
    var shown := AppendMessage(cs, c, m);
    var res := WithoutMessage(shown, c, m.id);
    forall k | 0 <= k < |cs| ensures res[k] == cs[k] {
      if cs[k].id == c {
        KeepDropsAppended(cs[k].messages, m);
        assert shown[k].messages == cs[k].messages + [m];
      }
    }
  }

  /** A message object of `GET /api/messages/`, read as the window does:
      `msg.id`, `msg.text`, `msg.sender` and the mapped `msg.rating`. */
  function UiMessageOf(v: Value): (m: UiMessage)
    ensures v.Obj? ==>
      m.id == Get(v.fields, "id") && m.text == Get(v.fields, "text") && m.sender == Get(v.fields, "sender") &&
      m.rating == FromApiRating(Get(v.fields, "rating"))
    ensures !v.Obj? ==> m == UiMessage(Null, Null, Null, None)
  {
    if v.Obj? then
      UiMessage(Get(v.fields, "id"), Get(v.fields, "text"), Get(v.fields, "sender"), FromApiRating(Get(v.fields, "rating")))
    else UiMessage(Null, Null, Null, None)
  }

  /** `fetchMessagesForConversation`: the mapped list, or [] when the
      request fails or the mapping raises (a body that is not an array, an
      element that is null). `resp` is None when the fetch did not answer
      with a success status. */
  function FetchedMessages(resp: Option<Value>): (ms: seq<UiMessage>)
    ensures resp.None? || !resp.value.Arr? ==> ms == []
    ensures resp.Some? && resp.value.Arr? && (forall k | 0 <= k < |resp.value.items| :: !resp.value.items[k].Null?) ==>
      |ms| == |resp.value.items| && forall k | 0 <= k < |ms| :: ms[k] == UiMessageOf(resp.value.items[k])
    ensures resp.Some? && resp.value.Arr? && (exists k | 0 <= k < |resp.value.items| :: resp.value.items[k].Null?) ==> ms == []
  {
    if resp.None? || !resp.value.Arr? then []
    else
      var items := resp.value.items;
      if exists k | 0 <= k < |items| :: items[k].Null? then []
      else seq(|items|, k requires 0 <= k < |items| => UiMessageOf(items[k]))
  }

  /** A serialized message comes back into the window with its id, text and
      sender, and with the thumb its stored rating stands for. */
  lemma SerializedMessageRoundTrip(row: MessageRow, r: Option<RatingRow>)
    ensures UiMessageOf(SerializeMessage(row, r)) == UiMessage(Int(row.id), Str(row.text), Str(row.sender), FromApiRating(GetRating(r)))
    ensures FromApiRating(GetRating(r)) == Some(Up) <==> r.Some? && r.value.rating == 1
    ensures FromApiRating(GetRating(r)) == Some(Down) <==> r.Some? && r.value.rating == -1
  {
  }

  /** The thread the backend serves reloads as one window message per row,
      in the backend's order. */
  lemma {:induction false} FetchedThread(rows: seq<MessageRow>, ratings: map<nat, RatingRow>)
    ensures var ms := FetchedMessages(Some(Arr(SerializeMessages(rows, ratings))));
      |ms| == |rows| &&
      forall k | 0 <= k < |rows| ::
        ms[k] == UiMessage(Int(rows[k].id), Str(rows[k].text), Str(rows[k].sender), FromApiRating(GetRating(RatingOf(ratings, rows[k].id))))
  {
    var items := SerializeMessages(rows, ratings);
    forall k | 0 <= k < |items| ensures !items[k].Null? {
      assert items[k].Obj?;
    }
    forall k | 0 <= k < |rows| ensures UiMessageOf(items[k]) ==
      UiMessage(Int(rows[k].id), Str(rows[k].text), Str(rows[k].sender), FromApiRating(GetRating(RatingOf(ratings, rows[k].id))))
    {
      SerializedMessageRoundTrip(rows[k], RatingOf(ratings, rows[k].id));
    }
  }

  /** The rating round trip through the backend. A thumb the window sends
      for a stored message is stored as 1 or -1 and reads back as the same
      thumb; a cleared rating is sent as null and always refused, so the
      window reverts it. */
  lemma RatingRoundTrip(py: Builtins, id: nat, x: Rating, ms: seq<MessageRow>, ratings: map<nat, RatingRow>, nextRatingId: nat, now: int)
    requires HasMessage(ms, id)
    ensures var u := RatingUpsert(py, RatingRequest(Int(id), Some(x)), ms, ratings, nextRatingId, now);
      u.Some? && u.value.0 == id && u.value.1.rating == (if x == Up then 1 else -1) &&
      FromApiRating(GetRating(Some(u.value.1))) == Some(x)
    ensures RatingUpsert(py, RatingRequest(Int(id), None), ms, ratings, nextRatingId, now).None?
  {
    var body := RatingRequest(Int(id), Some(x));
    assert Get(body.fields, "message") == Int(id);
    assert Get(body.fields, "value") == EncodeRating(Some(x));
    assert GetOr(body.fields, "comment", Str("")) == Str("");
    ClearingIsRefused(py, RatingRequest(Int(id), None).fields, ms, ratings, nextRatingId, now);
  }

  // ----- Conversations -----

  /** `conv.title || \`Chat ${conv.id}\``: an empty title falls back to the
      id. */
  function TitleOf(c: ApiConversation): (t: string)
    ensures t != ""
    ensures c.title != "" ==> t == c.title
    ensures c.title == "" ==> t == "Chat " + IntToString(c.id)
  {
    if c.title != "" then c.title else "Chat " + IntToString(c.id)
  }

  function Shown(c: ApiConversation): UiConversation {
    UiConversation(c.id, TitleOf(c), [])
  }

  function IdKeys(data: seq<ApiConversation>): (keys: seq<real>)
    ensures |keys| == |data| && forall k | 0 <= k < |data| :: keys[k] == data[k].id as real
  {
    seq(|data|, k requires 0 <= k < |data| => data[k].id as real)
  }

  /** `data.sort((a, b) => b.id - a.id)` (a stable sort), then each row
      shown without messages. */
  function Formatted(data: seq<ApiConversation>): (cs: seq<UiConversation>)
    ensures |cs| == |data|
    ensures forall k | 0 <= k < |cs| :: cs[k].title != "" && cs[k].messages == []
  {
    var order := SortIndices(IdKeys(data));
    seq(|order|, k requires 0 <= k < |order| => Shown(data[order[k]]))
  }

  /** The loaded list is the fetched one rearranged: newest id first,
      equal ids in the order the server sent them, every row exactly once. */
  lemma {:induction false} FormattedIsSortedPermutation(data: seq<ApiConversation>)
    ensures var cs := Formatted(data); var order := SortIndices(IdKeys(data));
      |order| == |data| &&
      (forall j | 0 <= j < |data| :: j in order) &&
      (forall k | 0 <= k < |cs| :: order[k] < |data| && cs[k] == Shown(data[order[k]])) &&
      (forall a, b | 0 <= a < b < |cs| :: cs[a].id >= cs[b].id) &&
      (forall a, b | 0 <= a < b < |cs| && cs[a].id == cs[b].id :: order[a] < order[b])
  {
    var keys := IdKeys(data);
    var order := SortIndices(keys);
    var cs := Formatted(data);
    forall a, b | 0 <= a < b < |cs| ensures cs[a].id >= cs[b].id && (cs[a].id == cs[b].id ==> order[a] < order[b]) {
      assert Before(keys, order[a], order[b]);
    }
  }

  /** The conversation a first load selects has the largest id. */
  lemma FirstIsNewest(data: seq<ApiConversation>)
    requires data != []
    ensures forall j | 0 <= j < |data| :: Formatted(data)[0].id >= data[j].id
  {
    FormattedIsSortedPermutation(data);
    var order := SortIndices(IdKeys(data));
    forall j | 0 <= j < |data| ensures Formatted(data)[0].id >= data[j].id {
      assert j in order;
      var k :| 0 <= k < |order| && order[k] == j;
      if k > 0 {
        assert Formatted(data)[0].id >= Formatted(data)[k].id;
      }
    }
  }

  /** `prev.filter(conv => conv.id !== id)`. */
  function WithoutConversation(cs: seq<UiConversation>, id: int): (res: seq<UiConversation>)
    ensures forall x :: x in res <==> x in cs && x.id != id
    ensures |res| <= |cs|
    ensures (forall k | 0 <= k < |cs| :: cs[k].id != id) ==> res == cs
    decreases |cs|
  {
    if cs == [] then []
    else
      var init, last := cs[..|cs| - 1], cs[|cs| - 1];
      assert cs == init + [last];
      WithoutConversation(init, id) + (if last.id != id then [last] else [])
  }

  // ----- The window -----

  /** The component's state hooks that the handlers below update. */
  class ChatWindow {
    var conversations: seq<UiConversation>
    var currentConvId: Option<int>
    var newMessage: string
    var isBotLoading: bool

    constructor ()
      ensures conversations == [] && currentConvId.None? && newMessage == "" && !isBotLoading
    {
      conversations := [];
      currentConvId := None;
      newMessage := "";
      isBotLoading := false;
    }

    /** `handleSelectConversation(id)`. `fetched` is what the message
        request answers (None on failure). Selecting the conversation
        already shown with its messages does nothing. */
    method SelectConversation(id: int, fetched: Option<Value>)
      modifies this
      ensures newMessage == old(newMessage) && isBotLoading == old(isBotLoading)
      ensures var i := ConversationIndex(old(conversations), id);
        if old(currentConvId) == Some(id) && i >= 0 && old(conversations)[i].messages != [] then
          conversations == old(conversations) && currentConvId == old(currentConvId)
        else
          conversations == ReplaceMessages(old(conversations), id, FetchedMessages(fetched)) && currentConvId == Some(id)
    {
      var i := ConversationIndex(conversations, id);
      if currentConvId == Some(id) && i >= 0 && conversations[i].messages != [] {
        return;
      }
      currentConvId := Some(id);
      conversations := ReplaceMessages(conversations, id, FetchedMessages(fetched));
    }

    /** `fetchConversations`. `fetched` is the list the server returns (None
        when the request fails), `firstMessages` what the messages of the
        newest conversation load as when it gets selected. */
    method FetchConversations(fetched: Option<seq<ApiConversation>>, firstMessages: Option<Value>)
      modifies this
      ensures newMessage == old(newMessage) && isBotLoading == old(isBotLoading)
      ensures fetched.None? ==> conversations == old(conversations) && currentConvId == old(currentConvId)
      ensures fetched.Some? && fetched.value == [] ==> conversations == [] && currentConvId.None?
      ensures fetched.Some? && fetched.value != [] && old(currentConvId).Some? ==>
        conversations == Formatted(fetched.value) && currentConvId == old(currentConvId)
      ensures fetched.Some? && fetched.value != [] && old(currentConvId).None? ==>
        var formatted := Formatted(fetched.value);
        currentConvId == Some(formatted[0].id) &&
        conversations == ReplaceMessages(formatted, formatted[0].id, FetchedMessages(firstMessages))
    {
      if fetched.None? {
        return;
      }
      var formatted := Formatted(fetched.value);
      conversations := formatted;
      if |formatted| > 0 && currentConvId.None? {
        SelectConversation(formatted[0].id, firstMessages);
      } else if |formatted| == 0 {
        currentConvId := None;
      }
    }

    /** `handleSend`, sent at time `now`. `sendOk` says whether posting the
        message succeeded, `refreshed` what reloading the thread answers. */
    method HandleSend(now: int, sendOk: bool, refreshed: Option<Value>)
      modifies this
      ensures currentConvId == old(currentConvId)
      ensures IsJsBlank(old(newMessage)) || old(currentConvId).None? ==>
        conversations == old(conversations) && newMessage == old(newMessage) && isBotLoading == old(isBotLoading)
      ensures !IsJsBlank(old(newMessage)) && old(currentConvId).Some? ==>
        var c := old(currentConvId).value;
        var shown := AppendMessage(old(conversations), c, UiMessage(Int(now), Str(old(newMessage)), Str("user"), None));
        !isBotLoading &&
        (sendOk ==> conversations == ReplaceMessages(shown, c, FetchedMessages(refreshed)) && newMessage == "") &&
        (!sendOk ==> conversations == WithoutMessage(shown, c, Int(now)) && newMessage == old(newMessage))
      ensures !sendOk && old(currentConvId).Some? && IdFree(old(conversations), old(currentConvId).value, Int(now)) ==>
        conversations == old(conversations) && newMessage == old(newMessage)
    {
      if IsJsBlank(newMessage) || currentConvId.None? {
        return;
      }
      var c := currentConvId.value;
      var textToSend := newMessage;
      newMessage := "";
      var optimistic := UiMessage(Int(now), Str(textToSend), Str("user"), None);
      ghost var before := conversations;
      conversations := AppendMessage(conversations, c, optimistic);
      isBotLoading := true;
      if sendOk {
        conversations := ReplaceMessages(conversations, c, FetchedMessages(refreshed));
      } else {
        conversations := WithoutMessage(conversations, c, optimistic.id);
        newMessage := textToSend;
        if IdFree(before, c, Int(now)) {
          RollbackRestores(before, c, optimistic);
        }
      }
      isBotLoading := false;
    }

    /** `handleNewConversation`. `created` is the row the server returns,
        None when creating fails. */
    method HandleNewConversation(created: Option<ApiConversation>)
      modifies this
      ensures created.None? ==>
        conversations == old(conversations) && currentConvId == old(currentConvId) &&
        newMessage == old(newMessage) && isBotLoading == old(isBotLoading)
      ensures created.Some? ==>
        conversations == [Shown(created.value)] + old(conversations) &&
        currentConvId == Some(created.value.id) && newMessage == "" && !isBotLoading
    {
      if created.None? {
        return;
      }
      conversations := [Shown(created.value)] + conversations;
      currentConvId := Some(created.value.id);
      isBotLoading := false;
      newMessage := "";
    }

    /** `handleDeleteConversation(id)`. `ok` says whether the server
        deleted it. */
    method HandleDeleteConversation(id: int, ok: bool)
      modifies this
      ensures newMessage == old(newMessage) && isBotLoading == old(isBotLoading)
      ensures !ok ==> conversations == old(conversations) && currentConvId == old(currentConvId)
      ensures ok ==> conversations == WithoutConversation(old(conversations), id)
      ensures ok ==> currentConvId == if old(currentConvId) == Some(id) then None else old(currentConvId)
    {
      if !ok {
        return;
      }
      conversations := WithoutConversation(conversations, id);
      if currentConvId == Some(id) {
        currentConvId := None;
      }
    }

    /** `handleRating(messageId, clicked)`. `accepted` says whether the
        server accepts a rating body; `sent` is the body posted, None when
        the click does nothing. */
    method HandleRating(messageId: Value, clicked: Rating, accepted: Value -> bool) returns (sent: Option<Value>)
      modifies this
      ensures currentConvId == old(currentConvId) && newMessage == old(newMessage) && isBotLoading == old(isBotLoading)
      ensures RatingTarget(old(conversations), old(currentConvId), messageId).None? ==>
        sent.None? && conversations == old(conversations)
      ensures RatingTarget(old(conversations), old(currentConvId), messageId).Some? ==>
        var (i, j) := RatingTarget(old(conversations), old(currentConvId), messageId).value;
        var next := NextRating(old(conversations)[i].messages[j].rating, clicked);
        sent == Some(RatingRequest(messageId, next)) &&
        conversations == if accepted(sent.value) then ApplyRatingAt(old(conversations), i, j, next) else old(conversations)
    {
      var target := RatingTarget(conversations, currentConvId, messageId);
      if target.None? {
        return None;
      }
      var (i, j) := target.value;
      var previous := conversations[i].messages[j].rating;
      var next := NextRating(previous, clicked);
      ghost var before := conversations;
      conversations := ApplyRatingAt(conversations, i, j, next);
      var body := RatingRequest(messageId, next);
      sent := Some(body);
      if !accepted(body) {
        conversations := ApplyRatingAt(conversations, i, j, previous);
        RevertRestores(before, i, j, next);
      }
    }
  }
}
