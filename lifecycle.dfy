/**
 * What each operation of the message service does, as a function of the
 * repository's records, the dispatcher's accepted events, its parameters and
 * the outcomes of the collaborators it calls. The service class in module
 * Service is proved to behave exactly like these functions; the lemmas at the
 * end are about sequences of operations.
 */
module Lifecycle {
  import opened Outcomes
  import opened Entities
  import opened Events
  import opened Repository

  /** Everything the service can change: the repository's records and the events the dispatcher accepted. */
  datatype State = State(messages: Messages, log: seq<Dispatch>)

  /** The state after an operation, and what the operation returned. */
  datatype Step<T> = Step(state: State, result: Outcome<T>)

  /**
   * How the collaborators answer during one operation; each flag says that
   * call fails: the repository read, the JSON encoding of an event, the
   * dispatch, the repository write.
   */
  datatype Faults = Faults(load: bool, encode: bool, dispatch: bool, write: bool)

  const NoFaults := Faults(false, false, false, false)

  // ---------------------------------------------------------------------------
  // Creating messages: StoreSentMessage and StoreReceivedMessage
  // ---------------------------------------------------------------------------

  datatype StoreParams = StoreParams(
    owner: string, contact: string, content: string, userId: UserId, id: Uuid, timestamp: Time)

  /**
   * The record StoreSentMessage stores: an outgoing message, Pending, whose
   * request time and ordering time are the given timestamp, and which has no
   * send attempt, send time, delivery time or duration yet. `now` is the clock
   * reading used for CreatedAt and UpdatedAt.
   */
  function NewSentMessage(p: StoreParams, now: Time): (m: Message)
    ensures KeyOf(m) == (p.userId, p.id)
    ensures m.kind == MobileTerminated && m.status == Pending
    ensures m.requestReceivedAt == p.timestamp && m.orderTimestamp == p.timestamp
    ensures m.sendDuration == None && m.lastAttemptedAt == None && m.sentAt == None && m.receivedAt == None
    ensures m.owner == p.owner && m.contact == p.contact && m.content == p.content
    ensures m.createdAt == now && m.updatedAt == now
  {
    Message(p.id, p.owner, p.contact, p.userId, p.content, MobileTerminated, Pending,
            p.timestamp, now, now, p.timestamp, None, None, None, None, None)
  }

  /**
   * The record StoreReceivedMessage stores: an incoming message, Received,
   * whose receipt, request and ordering times are all the given timestamp.
   */
  function NewReceivedMessage(p: StoreParams, now: Time): (m: Message)
    ensures KeyOf(m) == (p.userId, p.id)
    ensures m.kind == MobileOriginated && m.status == Received
    ensures m.receivedAt == Some(p.timestamp)
    ensures m.requestReceivedAt == p.timestamp && m.orderTimestamp == p.timestamp
    ensures m.owner == p.owner && m.contact == p.contact && m.content == p.content
    ensures m.createdAt == now && m.updatedAt == now
  {
    Message(p.id, p.owner, p.contact, p.userId, p.content, MobileOriginated, Received,
            p.timestamp, now, now, p.timestamp, None, None, None, Some(p.timestamp), None)
  }

  /** Stores `m` and returns it, or returns the repository's error and changes nothing. */
  function StoreMessage(s: State, m: Message, f: Faults): Step<Message> {
    match Inserted(s.messages, m, f.write)
    case Fail(e) => Step(s, Fail(e))
    case Ok(after) => Step(s.(messages := after), Ok(m))
  }

  function StoreSentMessage(s: State, p: StoreParams, now: Time, f: Faults): (r: Step<Message>)
    ensures r.state.log == s.log
    ensures r.result.Ok? <==> !f.write && (p.userId, p.id) !in s.messages
    ensures r.result.Ok? ==>
      r.result.value == NewSentMessage(p, now) &&
      r.state.messages == s.messages[(p.userId, p.id) := r.result.value]
    ensures r.result.Fail? ==> r.state == s
  {
    StoreMessage(s, NewSentMessage(p, now), f)
  }

  function StoreReceivedMessage(s: State, p: StoreParams, now: Time, f: Faults): (r: Step<Message>)
    ensures r.state.log == s.log
    ensures r.result.Ok? <==> !f.write && (p.userId, p.id) !in s.messages
    ensures r.result.Ok? ==>
      r.result.value == NewReceivedMessage(p, now) &&
      r.state.messages == s.messages[(p.userId, p.id) := r.result.value]
    ensures r.result.Fail? ==> r.state == s
  {
    StoreMessage(s, NewReceivedMessage(p, now), f)
  }

  // ---------------------------------------------------------------------------
  // The status-changing handlers: HandleMessage{Sending,Sent,Failed,Delivered,Expired}
  // ---------------------------------------------------------------------------

  datatype HandleParams = HandleParams(id: Uuid, userId: UserId, timestamp: Time)

  /** The five handlers; the failed handler carries the error text it records. */
  datatype Handler =
    | HandleSending
    | HandleSent
    | HandleFailed(errorMessage: string)
    | HandleDelivered
    | HandleExpired

  /** The transition table: the statuses from which each handler may write. */
  function AllowedFrom(h: Handler): set<Status> {
    match h
    case HandleSending => {Sending}
    case HandleSent => {Sending, Expired}
    case HandleFailed(_) => {Pending, Sending, Sent, Failed, Expired, Received}
    case HandleDelivered => {Sent, Sending, Expired}
    case HandleExpired => {Sending, Pending}
  }

  /** The status guard of each handler, as the handler tests it; it admits exactly the table's statuses. */
  function Admits(h: Handler, m: Message): (ok: bool)
    ensures ok <==> m.status in AllowedFrom(h)
  {
    match h
    case HandleSending => m.IsSending()
    case HandleSent => m.IsSending() || m.IsExpired()
    case HandleFailed(_) => !m.IsDelivered()
    case HandleDelivered => m.IsSent() || m.IsSending() || m.IsExpired()
    case HandleExpired => m.IsSending() || m.IsPending()
  }

  /** The entity transition each handler writes back. */
  function Transition(tr: Transitions, h: Handler, m: Message, t: Time): Message {
    match h
    case HandleSending => tr.addSendAttempt(m, t)
    case HandleSent => tr.sent(m, t)
    case HandleFailed(e) => tr.failed(m, t, e)
    case HandleDelivered => tr.delivered(m, t)
    case HandleExpired => tr.expired(m, t)
  }

  /** The transitions never change a message's (user, id) key. */
  ghost predicate KeepsIdentity(tr: Transitions) {
    forall h, m, t :: KeyOf(Transition(tr, h, m, t)) == KeyOf(m)
  }

  /**
   * A handler: load the message by (user, id); refuse it when its status is
   * outside the handler's allowed set; otherwise write back the transitioned
   * record with Update. No handler dispatches an event, and a refused or
   * failed call writes nothing.
   */
  function Handle(s: State, h: Handler, p: HandleParams, tr: Transitions, f: Faults): (r: Step<()>)
    ensures r.state.log == s.log
    ensures r.result.Fail? ==> r.state == s
    ensures f.load || (p.userId, p.id) !in s.messages ==> r.result == Fail(LoadFailed)
    ensures !f.load && (p.userId, p.id) in s.messages && s.messages[(p.userId, p.id)].status !in AllowedFrom(h) ==>
      r.result == Fail(WrongStatus)
    ensures r.result.Ok? ==>
      (p.userId, p.id) in s.messages && s.messages[(p.userId, p.id)].status in AllowedFrom(h) &&
      var m' := Transition(tr, h, s.messages[(p.userId, p.id)], p.timestamp);
      r.state.messages == s.messages[KeyOf(m') := m']
    ensures r.result.Ok? <==>
      !f.load && !f.write && (p.userId, p.id) in s.messages &&
      s.messages[(p.userId, p.id)].status in AllowedFrom(h) &&
      KeyOf(Transition(tr, h, s.messages[(p.userId, p.id)], p.timestamp)) in s.messages
    ensures (!f.load && (p.userId, p.id) in s.messages &&
             s.messages[(p.userId, p.id)].status in AllowedFrom(h) && f.write) ==>
      r == Step(s, Fail(WriteFailed))
  {
    match Lookup(s.messages, (p.userId, p.id), f.load)
    case Fail(e) => Step(s, Fail(e))
    case Ok(m) =>
      if !Admits(h, m) then Step(s, Fail(WrongStatus))
      else
        match Replaced(s.messages, Transition(tr, h, m, p.timestamp), f.write)
        case Fail(e) => Step(s, Fail(e))
        case Ok(after) => Step(s.(messages := after), Ok(()))
  }

  /**
   * Under a consistent repository and identity-keeping transitions, no handler
   * changes a Delivered record.
   */
  lemma HandleKeepsDelivered(s: State, h: Handler, p: HandleParams, tr: Transitions, f: Faults, k: Key)
    requires Consistent(s.messages) && KeepsIdentity(tr)
    requires k in s.messages && s.messages[k].IsDelivered()
    ensures k in Handle(s, h, p, tr, f).state.messages
    ensures Handle(s, h, p, tr, f).state.messages[k] == s.messages[k]
  {
  }

  // ---------------------------------------------------------------------------
  // Events: createEvent followed by Dispatch
  // ---------------------------------------------------------------------------

  /**
   * Builds the event for `data` and dispatches it immediately. Succeeds exactly
   * when both steps do, and only then is the event in the log.
   */
  function Publish(s: State, source: string, data: Payload, f: Faults): (r: Step<()>)
    ensures r.state.messages == s.messages
    ensures r.result.Ok? <==> !f.encode && !f.dispatch
    ensures r.result.Fail? ==> r.state == s && r.result.error == (if f.encode then EncodeFailed else DispatchFailed)
    ensures r.result.Ok? ==> r.state.log == s.log + [Immediate(Event(TagOf(data), source, data))]
  {
    match CreateEvent(source, data, f.encode)
    case None => Step(s, Fail(EncodeFailed))
    case Some(e) =>
      if f.dispatch then Step(s, Fail(DispatchFailed))
      else Step(s.(log := s.log + [Immediate(e)]), Ok(()))
  }

  /** Publishes `data`, then returns the record under `key`; a failed publish reads nothing. */
  function PublishThenLoad(s: State, source: string, data: Payload, key: Key, f: Faults): (r: Step<Message>)
    ensures r.state == Publish(s, source, data, f).state
    ensures Publish(s, source, data, f).result.Fail? ==> r.result == Fail(Publish(s, source, data, f).result.error)
    ensures Publish(s, source, data, f).result.Ok? ==> r.result == Lookup(s.messages, key, f.load)
  {
    var published := Publish(s, source, data, f);
    if published.result.Fail? then Step(s, Fail(published.result.error))
    else
      match Lookup(published.state.messages, key, f.load)
      case Fail(e) => Step(published.state, Fail(e))
      case Ok(m) => Step(published.state, Ok(m))
  }

  // ---------------------------------------------------------------------------
  // Expiration: ScheduleExpirationCheck and CheckExpired
  // ---------------------------------------------------------------------------

  datatype ScheduleParams = ScheduleParams(
    messageId: Uuid, userId: UserId, notificationSentAt: Time, phoneId: Uuid,
    expiration: Duration, source: string)

  /**
   * The delayed dispatch ScheduleExpirationCheck makes: an expired-check event
   * for the message, due `expiration` after the notification was sent, and
   * handed to the broker with that same delay.
   */
  predicate IsExpiryCheckFor(d: Dispatch, p: ScheduleParams) {
    && d.Delayed? && d.delay == p.expiration
    && d.event.kind == MessageSendExpiredCheck && d.event.source == p.source
    && d.event.data.SendExpiredCheckPayload?
    && d.event.data.messageId == p.messageId && d.event.data.userId == p.userId
    && d.event.data.scheduledAt == p.notificationSentAt + p.expiration
  }

  /**
   * A zero duration disables expiration: success, and the dispatcher is not
   * called. Otherwise one delayed expired-check is dispatched; the call fails,
   * with nothing dispatched, when encoding or dispatch fails.
   */
  function ScheduleExpirationCheck(s: State, p: ScheduleParams, f: Faults): (r: Step<()>)
    ensures r.state.messages == s.messages
    ensures p.expiration == 0 ==> r == Step(s, Ok(()))
    ensures p.expiration != 0 ==> (r.result.Ok? <==> !f.encode && !f.dispatch)
    ensures r.result.Fail? ==> r.state == s
    ensures p.expiration != 0 && r.result.Ok? ==>
      |r.state.log| == |s.log| + 1 && r.state.log[..|s.log|] == s.log &&
      IsExpiryCheckFor(r.state.log[|s.log|], p)
  {
    if p.expiration == 0 then Step(s, Ok(()))
    else
      var data := SendExpiredCheckPayload(p.messageId, p.notificationSentAt + p.expiration, p.userId);
      match CreateEvent(p.source, data, f.encode)
      case None => Step(s, Fail(EncodeFailed))
      case Some(e) =>
        if f.dispatch then Step(s, Fail(DispatchFailed))
        else Step(s.(log := s.log + [Delayed(e, p.expiration)]), Ok(()))
  }

  datatype CheckParams = CheckParams(messageId: Uuid, userId: UserId, source: string)

  /** The send-expired payload: the message's current snapshot, stamped with `now`. */
  function ExpiredPayload(m: Message, now: Time): Payload {
    SendExpiredPayload(m.id, m.owner, m.contact, m.userId, now, m.content)
  }

  /**
   * Re-loads the message. A message no longer Pending or Sending is left
   * alone: success, nothing dispatched. Otherwise one send-expired event with
   * its snapshot is dispatched. Never writes the repository: the statuses for
   * which it emits are exactly those the expired handler accepts.
   */
  function CheckExpired(s: State, p: CheckParams, now: Time, f: Faults): (r: Step<()>)
    ensures r.state.messages == s.messages
    ensures f.load || (p.userId, p.messageId) !in s.messages ==> r == Step(s, Fail(LoadFailed))
    ensures (!f.load && (p.userId, p.messageId) in s.messages &&
             s.messages[(p.userId, p.messageId)].status !in AllowedFrom(HandleExpired)) ==>
      r == Step(s, Ok(()))
    ensures r.state.log != s.log ==>
      !f.load && (p.userId, p.messageId) in s.messages && r.result.Ok? &&
      var m := s.messages[(p.userId, p.messageId)];
      m.status in AllowedFrom(HandleExpired) &&
      r.state.log == s.log + [Immediate(Event(MessageSendExpired, p.source, ExpiredPayload(m, now)))]
    ensures (!f.load && !f.encode && !f.dispatch && (p.userId, p.messageId) in s.messages &&
             s.messages[(p.userId, p.messageId)].status in AllowedFrom(HandleExpired)) ==>
      r.result.Ok? && r.state.log != s.log
    ensures (!f.load && (p.userId, p.messageId) in s.messages &&
             s.messages[(p.userId, p.messageId)].status in AllowedFrom(HandleExpired) &&
             (f.encode || f.dispatch)) ==>
      r == Step(s, Fail(if f.encode then EncodeFailed else DispatchFailed))
    ensures r.result.Fail? ==> r.state == s
  {
    match Lookup(s.messages, (p.userId, p.messageId), f.load)
    case Fail(e) => Step(s, Fail(e))
    case Ok(m) =>
      if !m.IsPending() && !m.IsSending() then Step(s, Ok(()))
      else Publish(s, p.source, ExpiredPayload(m, now), f)
  }

  // ---------------------------------------------------------------------------
  // GetOutstanding
  // ---------------------------------------------------------------------------

  datatype OutstandingParams = OutstandingParams(source: string, userId: UserId, timestamp: Time, messageId: Uuid)

  /** The sending-to-phone payload for `m`, stamped with the caller's timestamp. */
  function SendingPayload(m: Message, timestamp: Time): Payload {
    PhoneSendingPayload(m.id, m.owner, m.contact, timestamp, m.userId, m.content)
  }

  /**
   * Looks the message up, then dispatches a sending-to-phone event for it.
   * Returns the message only when both succeeded, and then the event is the
   * one new entry in the log.
   */
  function GetOutstanding(s: State, p: OutstandingParams, f: Faults): (r: Step<Message>)
    ensures r.state.messages == s.messages
    ensures f.load || (p.userId, p.messageId) !in s.messages ==> r == Step(s, Fail(LoadFailed))
    ensures r.result.Ok? <==> !f.load && (p.userId, p.messageId) in s.messages && !f.encode && !f.dispatch
    ensures r.result.Fail? ==> r.state == s
    ensures r.result.Ok? ==>
      r.result.value == s.messages[(p.userId, p.messageId)] &&
      r.state.log == s.log + [Immediate(Event(MessagePhoneSending, p.source, SendingPayload(r.result.value, p.timestamp)))]
  {
    match Lookup(s.messages, (p.userId, p.messageId), f.load)
    case Fail(e) => Step(s, Fail(e))
    case Ok(m) =>
      var published := Publish(s, p.source, SendingPayload(m, p.timestamp), f);
      if published.result.Fail? then Step(s, Fail(published.result.error))
      else Step(published.state, Ok(m))
  }

  // ---------------------------------------------------------------------------
  // StoreEvent: events reported by the phone
  // ---------------------------------------------------------------------------

  /** The event names a phone reports; any other name is carried as text. */
  datatype EventName = SentEvent | DeliveredEvent | FailedEvent | OtherEvent(name: string)

  datatype StoreEventParams = StoreEventParams(
    messageId: Uuid, eventName: EventName, timestamp: Time, errorMessage: Option<string>, source: string)

  /**
   * The routing of StoreEvent: the payload its handler for the event name
   * builds (handleMessageSentEvent, handleMessageDeliveredEvent,
   * handleMessageFailedEvent), or None for a name it does not handle. Every
   * payload describes the given message at the reported time.
   */
  function PhoneEventPayload(m: Message, p: StoreEventParams): (r: Option<Payload>)
    ensures r.None? <==> p.eventName.OtherEvent?
    ensures p.eventName == SentEvent ==> r.Some? && TagOf(r.value) == MessagePhoneSent
    ensures p.eventName == DeliveredEvent ==> r.Some? && TagOf(r.value) == MessagePhoneDelivered
    ensures p.eventName == FailedEvent ==>
      r.Some? && TagOf(r.value) == MessageSendFailed && r.value.errorMessage == FailureText(p.errorMessage)
    ensures r.Some? ==>
      (r.value.PhoneSentPayload? || r.value.PhoneDeliveredPayload? || r.value.SendFailedPayload?) &&
      r.value.id == m.id && r.value.userId == m.userId && r.value.owner == m.owner &&
      r.value.contact == m.contact && r.value.content == m.content && r.value.timestamp == p.timestamp
  {
    match p.eventName
    case SentEvent =>
      Some(PhoneSentPayload(m.id, m.owner, m.userId, p.timestamp, m.contact, m.content))
    case DeliveredEvent =>
      Some(PhoneDeliveredPayload(m.id, m.owner, m.userId, p.timestamp, m.contact, m.content))
    case FailedEvent =>
      Some(SendFailedPayload(m.id, m.owner, FailureText(p.errorMessage), p.timestamp, m.contact, m.userId, m.content))
    case OtherEvent(_) => None
  }

  /**
   * Routes the phone's event to its handler, which dispatches the matching
   * event, then returns the stored record for (message's user, reported id).
   * An unknown name is refused with nothing dispatched. The repository is
   * never written; the dispatch stands even when the final load fails.
   */
  function StoreEvent(s: State, m: Message, p: StoreEventParams, f: Faults): (r: Step<Message>)
    ensures r.state.messages == s.messages
    ensures p.eventName.OtherEvent? ==> r == Step(s, Fail(UnhandledEvent))
    ensures r.state.log != s.log ==>
      PhoneEventPayload(m, p).Some? &&
      var data := PhoneEventPayload(m, p).value;
      r.state.log == s.log + [Immediate(Event(TagOf(data), p.source, data))]
    ensures !p.eventName.OtherEvent? && !f.encode && !f.dispatch ==> r.state.log != s.log
    ensures !p.eventName.OtherEvent? && (f.encode || f.dispatch) ==>
      r == Step(s, Fail(if f.encode then EncodeFailed else DispatchFailed))
    ensures (!p.eventName.OtherEvent? && !f.encode && !f.dispatch && !f.load &&
             (m.userId, p.messageId) in s.messages) ==>
      r.result == Ok(s.messages[(m.userId, p.messageId)])
    ensures (!p.eventName.OtherEvent? && !f.encode && !f.dispatch &&
             (f.load || (m.userId, p.messageId) !in s.messages)) ==>
      r.result == Fail(LoadFailed)
    ensures r.result.Ok? ==>
      r.state.log != s.log && (m.userId, p.messageId) in s.messages &&
      r.result.value == s.messages[(m.userId, p.messageId)]
  {
    match PhoneEventPayload(m, p)
    case None => Step(s, Fail(UnhandledEvent))
    case Some(data) => PublishThenLoad(s, p.source, data, (m.userId, p.messageId), f)
  }

  // ---------------------------------------------------------------------------
  // SendMessage and ReceiveMessage
  // ---------------------------------------------------------------------------

  /** Parameters of SendMessage; owner and contact are already in E.164 form. */
  datatype SendParams = SendParams(
    owner: string, contact: string, content: string, source: string, userId: UserId, requestReceivedAt: Time)

  /** Parameters of ReceiveMessage; owner is already in E.164 form. */
  datatype ReceiveParams = ReceiveParams(
    contact: string, userId: UserId, owner: string, content: string, timestamp: Time, source: string)

  /**
   * Dispatches a sent-by-API event for a new message id, then loads that id.
   * When the event is not dispatched, nothing is loaded and the call fails.
   * The record is stored by a consumer of the event, which is not part of this
   * model; here the load sees the repository as it was.
   */
  function SendMessage(s: State, p: SendParams, newId: Uuid, f: Faults): (r: Step<Message>)
    ensures r.state.messages == s.messages
    ensures f.encode || f.dispatch ==> r == Step(s, Fail(if f.encode then EncodeFailed else DispatchFailed))
    ensures !f.encode && !f.dispatch ==>
      r.state.log == s.log + [Immediate(Event(MessageAPISent, p.source,
        APISentPayload(newId, p.userId, p.owner, p.contact, p.requestReceivedAt, p.content)))]
    ensures r.result.Ok? ==> (p.userId, newId) in s.messages && r.result.value == s.messages[(p.userId, newId)]
  {
    PublishThenLoad(s, p.source, APISentPayload(newId, p.userId, p.owner, p.contact, p.requestReceivedAt, p.content),
                    (p.userId, newId), f)
  }

  /** As SendMessage, for a message the phone received: a received-by-phone event, then a load. */
  function ReceiveMessage(s: State, p: ReceiveParams, newId: Uuid, f: Faults): (r: Step<Message>)
    ensures r.state.messages == s.messages
    ensures f.encode || f.dispatch ==> r == Step(s, Fail(if f.encode then EncodeFailed else DispatchFailed))
    ensures !f.encode && !f.dispatch ==>
      r.state.log == s.log + [Immediate(Event(MessagePhoneReceived, p.source,
        PhoneReceivedPayload(newId, p.userId, p.owner, p.contact, p.timestamp, p.content)))]
    ensures r.result.Ok? ==> (p.userId, newId) in s.messages && r.result.value == s.messages[(p.userId, newId)]
  {
    PublishThenLoad(s, p.source, PhoneReceivedPayload(newId, p.userId, p.owner, p.contact, p.timestamp, p.content),
                    (p.userId, newId), f)
  }

  // ---------------------------------------------------------------------------
  // Sequences of operations
  // ---------------------------------------------------------------------------

  /** One invocation of a service operation, with the collaborators' answers during it. */
  datatype Op =
    | HandleOp(handler: Handler, hp: HandleParams, faults: Faults)
    | ScheduleOp(sp: ScheduleParams, faults: Faults)
    | CheckOp(cp: CheckParams, now: Time, faults: Faults)
    | OutstandingOp(gp: OutstandingParams, faults: Faults)
    | PhoneEventOp(message: Message, ep: StoreEventParams, faults: Faults)
    | StoreSentOp(stp: StoreParams, now: Time, faults: Faults)
    | StoreReceivedOp(stp: StoreParams, now: Time, faults: Faults)
    | SendOp(snd: SendParams, newId: Uuid, faults: Faults)
    | ReceiveOp(rcv: ReceiveParams, newId: Uuid, faults: Faults)

  function Apply(s: State, op: Op, tr: Transitions): State {
    match op
    case HandleOp(h, p, f) => Handle(s, h, p, tr, f).state
    case ScheduleOp(p, f) => ScheduleExpirationCheck(s, p, f).state
    case CheckOp(p, now, f) => CheckExpired(s, p, now, f).state
    case OutstandingOp(p, f) => GetOutstanding(s, p, f).state
    case PhoneEventOp(m, p, f) => StoreEvent(s, m, p, f).state
    case StoreSentOp(p, now, f) => StoreSentMessage(s, p, now, f).state
    case StoreReceivedOp(p, now, f) => StoreReceivedMessage(s, p, now, f).state
    case SendOp(p, id, f) => SendMessage(s, p, id, f).state
    case ReceiveOp(p, id, f) => ReceiveMessage(s, p, id, f).state
  }

  /** The state after the operations, one after the other. */
  function Run(s: State, ops: seq<Op>, tr: Transitions): State
    decreases |ops|
  {
    if ops == [] then s else Run(Apply(s, ops[0], tr), ops[1..], tr)
  }

  /**
   * One operation keeps the repository consistent, removes no record,
   * only appends to the dispatch log, and leaves a Delivered record as it is.
   */
  lemma ApplyKeepsHistory(s: State, op: Op, tr: Transitions)
    requires Consistent(s.messages) && KeepsIdentity(tr)
    ensures Consistent(Apply(s, op, tr).messages)
    ensures s.messages.Keys <= Apply(s, op, tr).messages.Keys
    ensures s.log <= Apply(s, op, tr).log
    ensures forall k :: k in s.messages && s.messages[k].IsDelivered() ==>
      k in Apply(s, op, tr).messages && Apply(s, op, tr).messages[k] == s.messages[k]
  {
  }

  /** Delivered is final: no sequence of service operations changes a Delivered record. */
  lemma {:induction false} DeliveredIsFinal(s: State, ops: seq<Op>, tr: Transitions, k: Key)
    requires Consistent(s.messages) && KeepsIdentity(tr)
    requires k in s.messages && s.messages[k].IsDelivered()
    ensures k in Run(s, ops, tr).messages && Run(s, ops, tr).messages[k] == s.messages[k]
    decreases |ops|
  {
    if ops != [] {
      ApplyKeepsHistory(s, ops[0], tr);
      DeliveredIsFinal(Apply(s, ops[0], tr), ops[1..], tr, k);
    }
  }

  /**
   * No sequence of service operations removes a record or takes back a
   * dispatched event: the dispatch log only grows.
   */
  lemma {:induction false} HistoryIsKept(s: State, ops: seq<Op>, tr: Transitions)
    requires Consistent(s.messages) && KeepsIdentity(tr)
    ensures Consistent(Run(s, ops, tr).messages)
    ensures s.messages.Keys <= Run(s, ops, tr).messages.Keys
    ensures s.log <= Run(s, ops, tr).log
    decreases |ops|
  {
    if ops != [] {
      ApplyKeepsHistory(s, ops[0], tr);
      HistoryIsKept(Apply(s, ops[0], tr), ops[1..], tr);
    }
  }

  /**
   * The expiry trigger may be redelivered any number of times: once the
   * message has left Pending and Sending, repeated checks change nothing and
   * emit no further expiry notification.
   */
  lemma {:induction false} RedeliveredCheckIsHarmless(s: State, ops: seq<Op>, tr: Transitions, k: Key)
    requires k in s.messages && s.messages[k].status !in AllowedFrom(HandleExpired)
    requires forall i :: 0 <= i < |ops| ==> ops[i].CheckOp? && (ops[i].cp.userId, ops[i].cp.messageId) == k
    ensures Run(s, ops, tr) == s
    decreases |ops|
  {
    if ops != [] {
      assert Apply(s, ops[0], tr) == s;
      RedeliveredCheckIsHarmless(s, ops[1..], tr, k);
    }
  }

  /**
   * The expiry notification is acted on: whenever CheckExpired emits one, the
   * expired handler, invoked for that message with no collaborator failing,
   * accepts it and writes the expired record.
   */
  lemma ExpiryNoticeIsAccepted(s: State, p: CheckParams, now: Time, f: Faults, tr: Transitions, t: Time)
    requires Consistent(s.messages) && KeepsIdentity(tr)
    requires CheckExpired(s, p, now, f).state.log != s.log
    ensures Handle(CheckExpired(s, p, now, f).state, HandleExpired, HandleParams(p.messageId, p.userId, t), tr, NoFaults).result.Ok?
  {
  }

  /**
   * A message StoreSentMessage creates is Pending: of the handlers only the
   * expired and failed ones accept it, and an expiry check would flag it.
   */
  lemma NewSentMessageAwaitsExpiryOrFailure(p: StoreParams, now: Time, h: Handler)
    ensures Admits(h, NewSentMessage(p, now)) <==> h == HandleExpired || h.HandleFailed?
  {
  }

  /**
   * A message StoreReceivedMessage creates is Received: of the handlers only
   * the failed one accepts it, and an expiry check ignores it.
   */
  lemma NewReceivedMessageOnlyFails(p: StoreParams, now: Time, h: Handler)
    ensures Admits(h, NewReceivedMessage(p, now)) <==> h.HandleFailed?
  {
  }
}
