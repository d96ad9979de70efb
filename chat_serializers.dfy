/** The chat backend's rows and their wire form: a message row of a
    conversation, the at most one rating attached to it, and the JSON the
    message serializer gives them. Timestamps are integers. */
module ChatSerializers {
  import opened Wrappers
  import opened Values

  /** A `Message` row: `conversation` is the conversation's primary key. */
  datatype MessageRow = MessageRow(id: nat, conversation: nat, sender: string, text: string, timestamp: int)

  /** An `AnswerRating` row; the message it rates is the key it is stored
      under. */
  datatype RatingRow = RatingRow(id: nat, rating: int, comment: string, ratedAt: int)

  /** `MessageSerializer.get_rating`: the row's rating as 'up' or 'down';
      None without a rating, or for any other value. */
  function GetRating(r: Option<RatingRow>): (v: Value)
    ensures v == Str("up") <==> r.Some? && r.value.rating == 1
    ensures v == Str("down") <==> r.Some? && r.value.rating == -1
    ensures v == Null <==> r.None? || (r.value.rating != 1 && r.value.rating != -1)
  {
    if r.Some? then
      if r.value.rating == 1 then Str("up")
      else if r.value.rating == -1 then Str("down")
      else Null
    else Null
  }

  const MessageFields: set<string> := {"id", "conversation", "sender", "text", "timestamp", "rating"}

  /** `MessageSerializer(message).data`, given the message's rating row. */
  function SerializeMessage(m: MessageRow, r: Option<RatingRow>): (v: Value)
    ensures v.Obj? && v.fields.Keys == MessageFields
    ensures v.fields["id"] == Int(m.id) && v.fields["conversation"] == Int(m.conversation)
    ensures v.fields["sender"] == Str(m.sender) && v.fields["text"] == Str(m.text)
    ensures v.fields["timestamp"] == Int(m.timestamp) && v.fields["rating"] == GetRating(r)
  {
    Obj(map["id" := Int(m.id), "conversation" := Int(m.conversation), "sender" := Str(m.sender),
            "text" := Str(m.text), "timestamp" := Int(m.timestamp), "rating" := GetRating(r)])
  }

  /** A message's rating row in a table keyed by message id. */
  function RatingOf(ratings: map<nat, RatingRow>, messageId: nat): Option<RatingRow> {
    if messageId in ratings then Some(ratings[messageId]) else None
  }

  /** `MessageSerializer(messages, many=True).data`. */
  function SerializeMessages(ms: seq<MessageRow>, ratings: map<nat, RatingRow>): (vs: seq<Value>)
    ensures |vs| == |ms|
    ensures forall k | 0 <= k < |ms| :: vs[k] == SerializeMessage(ms[k], RatingOf(ratings, ms[k].id))
  {
    seq(|ms|, k requires 0 <= k < |ms| => SerializeMessage(ms[k], RatingOf(ratings, ms[k].id)))
  }

  const RatingFields: set<string> := {"id", "message", "rating", "comment", "rated_at"}

  /** `AnswerRatingSerializer(rating).data`: every field of the row. */
  function SerializeRating(messageId: nat, r: RatingRow): (v: Value)
    ensures v.Obj? && v.fields.Keys == RatingFields
    ensures v.fields["message"] == Int(messageId) && v.fields["rating"] == Int(r.rating) && v.fields["comment"] == Str(r.comment)
  {
    Obj(map["id" := Int(r.id), "message" := Int(messageId), "rating" := Int(r.rating),
            "comment" := Str(r.comment), "rated_at" := Int(r.ratedAt)])
  }
}
