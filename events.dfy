/**
 * Event envelopes built by the message service: the closed set of type tags,
 * the payload each create*Event wrapper attaches, and createEvent itself.
 * The envelope's fresh id and creation time come from uuid.New and time.Now
 * and are not modelled; neither is the JSON encoding, whose only observable
 * effect here is that it may fail.
 */
module Events {
  import opened Outcomes
  import opened Entities

  datatype EventType =
    | MessageAPISent
    | MessagePhoneReceived
    | MessagePhoneSending
    | MessagePhoneSent
    | MessagePhoneDelivered
    | MessageSendFailed
    | MessageSendExpired
    | MessageSendExpiredCheck

  /** One payload shape per event type, with the fields the service fills in. */
  datatype Payload =
    | APISentPayload(id: Uuid, userId: UserId, owner: string, contact: string,
                     requestReceivedAt: Time, content: string)
    | PhoneReceivedPayload(id: Uuid, userId: UserId, owner: string, contact: string,
                           timestamp: Time, content: string)
    | PhoneSendingPayload(id: Uuid, owner: string, contact: string, timestamp: Time,
                          userId: UserId, content: string)
    | PhoneSentPayload(id: Uuid, owner: string, userId: UserId, timestamp: Time,
                       contact: string, content: string)
    | PhoneDeliveredPayload(id: Uuid, owner: string, userId: UserId, timestamp: Time,
                            contact: string, content: string)
    | SendFailedPayload(id: Uuid, owner: string, errorMessage: string, timestamp: Time,
                        contact: string, userId: UserId, content: string)
    | SendExpiredPayload(messageId: Uuid, owner: string, contact: string, userId: UserId,
                         timestamp: Time, content: string)
    | SendExpiredCheckPayload(messageId: Uuid, scheduledAt: Time, userId: UserId)

  /** An envelope: type tag, producer and payload. */
  datatype Event = Event(kind: EventType, source: string, data: Payload)

  /** What the dispatcher accepted: an event for immediate delivery, or one to deliver after a delay. */
  datatype Dispatch = Immediate(event: Event) | Delayed(event: Event, delay: Duration)

  /**
   * The schema consumers expect under each tag: the payload shape a tag
   * announces.
   */
  predicate Carries(kind: EventType, data: Payload) {
    match kind
    case MessageAPISent => data.APISentPayload?
    case MessagePhoneReceived => data.PhoneReceivedPayload?
    case MessagePhoneSending => data.PhoneSendingPayload?
    case MessagePhoneSent => data.PhoneSentPayload?
    case MessagePhoneDelivered => data.PhoneDeliveredPayload?
    case MessageSendFailed => data.SendFailedPayload?
    case MessageSendExpired => data.SendExpiredPayload?
    case MessageSendExpiredCheck => data.SendExpiredCheckPayload?
  }

  /**
   * The tag each create*Event wrapper passes to createEvent for its payload.
   * The tag it gives is the one and only tag whose schema the payload has.
   */
  function TagOf(data: Payload): (kind: EventType)
    ensures forall k :: Carries(k, data) <==> k == kind
  {
    match data
    case APISentPayload(_, _, _, _, _, _) => MessageAPISent
    case PhoneReceivedPayload(_, _, _, _, _, _) => MessagePhoneReceived
    case PhoneSendingPayload(_, _, _, _, _, _) => MessagePhoneSending
    case PhoneSentPayload(_, _, _, _, _, _) => MessagePhoneSent
    case PhoneDeliveredPayload(_, _, _, _, _, _) => MessagePhoneDelivered
    case SendFailedPayload(_, _, _, _, _, _, _) => MessageSendFailed
    case SendExpiredPayload(_, _, _, _, _, _) => MessageSendExpired
    case SendExpiredCheckPayload(_, _, _) => MessageSendExpiredCheck
  }

  /**
   * createEvent through its typed wrappers: fails exactly when the payload
   * cannot be encoded; otherwise the envelope carries the caller's source, the
   * payload unchanged, and a tag whose schema matches the payload.
   */
  function CreateEvent(source: string, data: Payload, encodeFails: bool): (r: Option<Event>)
    ensures r.Some? <==> !encodeFails
    ensures r.Some? ==> r.value.source == source && r.value.data == data && Carries(r.value.kind, data)
  {
    if encodeFails then None else Some(Event(TagOf(data), source, data))
  }

  /** The text a failed-event payload carries when the phone reported no error message. */
  const UnknownError: string := "UNKNOWN ERROR"

  /** The error text of a failed event: the phone's message when present, otherwise UnknownError. */
  function FailureText(errorMessage: Option<string>): (text: string)
    ensures errorMessage.Some? ==> text == errorMessage.value
    ensures errorMessage.None? ==> text == UnknownError
  {
    errorMessage.GetOr(UnknownError)
  }
}
