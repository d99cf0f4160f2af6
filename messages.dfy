/** The wire-level signaling message and the two delivery primitives of the broker. */
module Messages {
  import opened Wrappers

  const OfferTag: string := "offer"
  const AnswerTag: string := "answer"
  const ConnectedTag: string := "connected"
  const DisconnectedTag: string := "disconnected"
  const ConnectionFailedTag: string := "connection-failed"
  const LeaveTag: string := "leave"

  /** The six message kinds the router recognises, and a catch-all carrying any other tag. */
  datatype MessageType =
    | Offer | Answer | Connected | Disconnected | ConnectionFailed | Leave
    | Unknown(tag: string)

  predicate IsKnownTag(s: string) {
    s == OfferTag || s == AnswerTag || s == ConnectedTag
    || s == DisconnectedTag || s == ConnectionFailedTag || s == LeaveTag
  }

  /** A message type is well formed when a catch-all does not carry a recognised tag. */
  predicate WellFormedType(t: MessageType) {
    t.Unknown? ==> !IsKnownTag(t.tag)
  }

  /** The wire tag of a message type. */
  function TypeName(t: MessageType): string
  {
    match t
    case Offer => OfferTag
    case Answer => AnswerTag
    case Connected => ConnectedTag
    case Disconnected => DisconnectedTag
    case ConnectionFailed => ConnectionFailedTag
    case Leave => LeaveTag
    case Unknown(s) => s
  }

  /** The `switch` on the type string: parsing is exhaustive, keeps the tag, and
      falls into the catch-all exactly for the unrecognised tags. */
  function ParseType(s: string): (t: MessageType)
    ensures WellFormedType(t)
    ensures TypeName(t) == s
    ensures t.Unknown? <==> !IsKnownTag(s)
  {
    if s == OfferTag then Offer
    else if s == AnswerTag then Answer
    else if s == ConnectedTag then Connected
    else if s == DisconnectedTag then Disconnected
    else if s == ConnectionFailedTag then ConnectionFailed
    else if s == LeaveTag then Leave
    else Unknown(s)
  }

  /** Printing a well-formed type and parsing the tag back gives the same type. */
  lemma TypeNameRoundTrip(t: MessageType)
    requires WellFormedType(t)
    ensures ParseType(TypeName(t)) == t
  {
  }

  /** `SignalingMessage`: `kind` is the source's `type` field. */
  datatype SignalingMessage = SignalingMessage(
    kind: string,
    roomId: string,
    fromId: int,
    toId: Option<int>,
    sdp: Option<string>)

  /** What the broker carries: a relayed message verbatim, or a plain text notice. */
  datatype Payload = Relay(message: SignalingMessage) | Text(text: string)

  /** One record of the delivery fabric: `convertAndSendToUser` or `convertAndSend`. */
  datatype Delivery =
    | Unicast(user: int, destination: string, payload: Payload)
    | Broadcast(topic: string, payload: Payload)
}
