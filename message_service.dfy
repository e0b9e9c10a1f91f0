/**
 * The message service: a class holding the repository, the event dispatcher
 * and the entity transitions it is given. Each method performs its steps one
 * after the other, as the service does, and is proved to leave the
 * repository and the dispatcher exactly as the matching function of module
 * Lifecycle says, returning the same result.
 */
module Service {
  import opened Outcomes
  import opened Entities
  import opened Events
  import opened Repository
  import opened Dispatcher
  import L = Lifecycle

  class MessageService {
    const repository: MessageRepository
    const eventDispatcher: EventDispatcher
    const transitions: Transitions

    constructor (repository: MessageRepository, eventDispatcher: EventDispatcher, transitions: Transitions)
      ensures this.repository == repository && this.eventDispatcher == eventDispatcher
      ensures this.transitions == transitions
    {
      this.repository := repository;
      this.eventDispatcher := eventDispatcher;
      this.transitions := transitions;
    }

    /** The records and the dispatched events, as one value. */
    ghost function Snapshot(): L.State
      reads repository, eventDispatcher
    {
      L.State(repository.messages, eventDispatcher.log)
    }

    // -------------------------------------------------------------------------
    // GetOutstanding
    // -------------------------------------------------------------------------

    method GetOutstanding(p: L.OutstandingParams, f: L.Faults) returns (r: Outcome<Message>)
      modifies eventDispatcher
      ensures var step := L.GetOutstanding(old(Snapshot()), p, f);
              Snapshot() == step.state && r == step.result
    {
      var fetched := repository.GetOutstanding(p.userId, p.messageId, f.load);
      if fetched.Fail? {
        return Fail(fetched.error);
      }
      var message := fetched.value;
      var event := CreateEvent(p.source, L.SendingPayload(message, p.timestamp), f.encode);
      if event.None? {
        return Fail(EncodeFailed);
      }
      var dispatched := eventDispatcher.Dispatch(event.value, f.dispatch);
      if dispatched.Fail? {
        return Fail(dispatched.error);
      }
      return Ok(message);
    }

    // -------------------------------------------------------------------------
    // StoreEvent and its three handlers
    // -------------------------------------------------------------------------

    method StoreEvent(message: Message, p: L.StoreEventParams, f: L.Faults) returns (r: Outcome<Message>)
      modifies eventDispatcher
      ensures var step := L.StoreEvent(old(Snapshot()), message, p, f);
              Snapshot() == step.state && r == step.result
    {
      var err: Outcome<()>;
      match p.eventName {
        case SentEvent =>
          err := HandleMessageSentEvent(p, message, f);
        case DeliveredEvent =>
          err := HandleMessageDeliveredEvent(p, message, f);
        case FailedEvent =>
          err := HandleMessageFailedEvent(p, message, f);
        case OtherEvent(_) =>
          return Fail(UnhandledEvent);
      }
      if err.Fail? {
        return Fail(err.error);
      }
      r := repository.Load(message.userId, p.messageId, f.load);
    }

    /** Dispatches a sent-by-phone event for `message`. */
    method HandleMessageSentEvent(p: L.StoreEventParams, message: Message, f: L.Faults) returns (err: Outcome<()>)
      modifies eventDispatcher
      ensures var step := L.Publish(old(Snapshot()), p.source,
                PhoneSentPayload(message.id, message.owner, message.userId, p.timestamp, message.contact, message.content), f);
              Snapshot() == step.state && err == step.result
    {
      var event := CreateEvent(p.source,
        PhoneSentPayload(message.id, message.owner, message.userId, p.timestamp, message.contact, message.content), f.encode);
      if event.None? {
        return Fail(EncodeFailed);
      }
      err := eventDispatcher.Dispatch(event.value, f.dispatch);
    }

    /** Dispatches a delivered-by-phone event for `message`. */
    method HandleMessageDeliveredEvent(p: L.StoreEventParams, message: Message, f: L.Faults) returns (err: Outcome<()>)
      modifies eventDispatcher
      ensures var step := L.Publish(old(Snapshot()), p.source,
                PhoneDeliveredPayload(message.id, message.owner, message.userId, p.timestamp, message.contact, message.content), f);
              Snapshot() == step.state && err == step.result
    {
      var event := CreateEvent(p.source,
        PhoneDeliveredPayload(message.id, message.owner, message.userId, p.timestamp, message.contact, message.content), f.encode);
      if event.None? {
        return Fail(EncodeFailed);
      }
      err := eventDispatcher.Dispatch(event.value, f.dispatch);
    }

    /** Dispatches a send-failed event for `message`, with the reported error text or UnknownError. */
    method HandleMessageFailedEvent(p: L.StoreEventParams, message: Message, f: L.Faults) returns (err: Outcome<()>)
      modifies eventDispatcher
      ensures var step := L.Publish(old(Snapshot()), p.source,
                SendFailedPayload(message.id, message.owner, FailureText(p.errorMessage), p.timestamp,
                                  message.contact, message.userId, message.content), f);
              Snapshot() == step.state && err == step.result
    {
      var errorMessage := UnknownError;
      if p.errorMessage.Some? {
        errorMessage := p.errorMessage.value;
      }
      var event := CreateEvent(p.source,
        SendFailedPayload(message.id, message.owner, errorMessage, p.timestamp, message.contact, message.userId, message.content),
        f.encode);
      if event.None? {
        return Fail(EncodeFailed);
      }
      err := eventDispatcher.Dispatch(event.value, f.dispatch);
    }

    // -------------------------------------------------------------------------
    // ReceiveMessage, SendMessage, StoreSentMessage, StoreReceivedMessage
    // -------------------------------------------------------------------------

    method ReceiveMessage(p: L.ReceiveParams, newId: Uuid, f: L.Faults) returns (r: Outcome<Message>)
      modifies eventDispatcher
      ensures var step := L.ReceiveMessage(old(Snapshot()), p, newId, f);
              Snapshot() == step.state && r == step.result
    {
      var event := CreateEvent(p.source,
        PhoneReceivedPayload(newId, p.userId, p.owner, p.contact, p.timestamp, p.content), f.encode);
      if event.None? {
        return Fail(EncodeFailed);
      }
      var dispatched := eventDispatcher.Dispatch(event.value, f.dispatch);
      if dispatched.Fail? {
        return Fail(dispatched.error);
      }
      r := repository.Load(p.userId, newId, f.load);
    }

    method SendMessage(p: L.SendParams, newId: Uuid, f: L.Faults) returns (r: Outcome<Message>)
      modifies eventDispatcher
      ensures var step := L.SendMessage(old(Snapshot()), p, newId, f);
              Snapshot() == step.state && r == step.result
    {
      var event := CreateEvent(p.source,
        APISentPayload(newId, p.userId, p.owner, p.contact, p.requestReceivedAt, p.content), f.encode);
      if event.None? {
        return Fail(EncodeFailed);
      }
      var dispatched := eventDispatcher.Dispatch(event.value, f.dispatch);
      if dispatched.Fail? {
        return Fail(dispatched.error);
      }
      r := repository.Load(p.userId, newId, f.load);
    }

    method StoreSentMessage(p: L.StoreParams, now: Time, f: L.Faults) returns (r: Outcome<Message>)
      modifies repository
      ensures var step := L.StoreSentMessage(old(Snapshot()), p, now, f);
              Snapshot() == step.state && r == step.result
    {
      var message := L.NewSentMessage(p, now);
      var stored := repository.Store(message, f.write);
      if stored.Fail? {
        return Fail(stored.error);
      }
      return Ok(message);
    }

    method StoreReceivedMessage(p: L.StoreParams, now: Time, f: L.Faults) returns (r: Outcome<Message>)
      modifies repository
      ensures var step := L.StoreReceivedMessage(old(Snapshot()), p, now, f);
              Snapshot() == step.state && r == step.result
    {
      var message := L.NewReceivedMessage(p, now);
      var stored := repository.Store(message, f.write);
      if stored.Fail? {
        return Fail(stored.error);
      }
      return Ok(message);
    }

    // -------------------------------------------------------------------------
    // The status-changing handlers
    // -------------------------------------------------------------------------

    method HandleMessageSending(p: L.HandleParams, f: L.Faults) returns (err: Outcome<()>)
      modifies repository
      ensures var step := L.Handle(old(Snapshot()), L.HandleSending, p, transitions, f);
              Snapshot() == step.state && err == step.result
    {
      var loaded := repository.Load(p.userId, p.id, f.load);
      if loaded.Fail? {
        return Fail(loaded.error);
      }
      var message := loaded.value;
      if !message.IsSending() {
        return Fail(WrongStatus);
      }
      err := repository.Update(transitions.addSendAttempt(message, p.timestamp), f.write);
    }

    method HandleMessageSent(p: L.HandleParams, f: L.Faults) returns (err: Outcome<()>)
      modifies repository
      ensures var step := L.Handle(old(Snapshot()), L.HandleSent, p, transitions, f);
              Snapshot() == step.state && err == step.result
    {
      var loaded := repository.Load(p.userId, p.id, f.load);
      if loaded.Fail? {
        return Fail(loaded.error);
      }
      var message := loaded.value;
      if !message.IsSending() && !message.IsExpired() {
        return Fail(WrongStatus);
      }
      err := repository.Update(transitions.sent(message, p.timestamp), f.write);
    }

    /** The failed handler; `errorMessage` is the reason it records. */
    method HandleMessageFailed(p: L.HandleParams, errorMessage: string, f: L.Faults) returns (err: Outcome<()>)
      modifies repository
      ensures var step := L.Handle(old(Snapshot()), L.HandleFailed(errorMessage), p, transitions, f);
              Snapshot() == step.state && err == step.result
    {
      var loaded := repository.Load(p.userId, p.id, f.load);
      if loaded.Fail? {
        return Fail(loaded.error);
      }
      var message := loaded.value;
      if message.IsDelivered() {
        return Fail(WrongStatus);
      }
      err := repository.Update(transitions.failed(message, p.timestamp, errorMessage), f.write);
    }

    method HandleMessageDelivered(p: L.HandleParams, f: L.Faults) returns (err: Outcome<()>)
      modifies repository
      ensures var step := L.Handle(old(Snapshot()), L.HandleDelivered, p, transitions, f);
              Snapshot() == step.state && err == step.result
    {
      var loaded := repository.Load(p.userId, p.id, f.load);
      if loaded.Fail? {
        return Fail(loaded.error);
      }
      var message := loaded.value;
      if !message.IsSent() && !message.IsSending() && !message.IsExpired() {
        return Fail(WrongStatus);
      }
      err := repository.Update(transitions.delivered(message, p.timestamp), f.write);
    }

    method HandleMessageExpired(p: L.HandleParams, f: L.Faults) returns (err: Outcome<()>)
      modifies repository
      ensures var step := L.Handle(old(Snapshot()), L.HandleExpired, p, transitions, f);
              Snapshot() == step.state && err == step.result
    {
      var loaded := repository.Load(p.userId, p.id, f.load);
      if loaded.Fail? {
        return Fail(loaded.error);
      }
      var message := loaded.value;
      if !message.IsSending() && !message.IsPending() {
        return Fail(WrongStatus);
      }
      err := repository.Update(transitions.expired(message, p.timestamp), f.write);
    }

    // -------------------------------------------------------------------------
    // Expiration
    // -------------------------------------------------------------------------

    method ScheduleExpirationCheck(p: L.ScheduleParams, f: L.Faults) returns (err: Outcome<()>)
      modifies eventDispatcher
      ensures var step := L.ScheduleExpirationCheck(old(Snapshot()), p, f);
              Snapshot() == step.state && err == step.result
    {
      if p.expiration == 0 {
        return Ok(());
      }
      var event := CreateEvent(p.source,
        SendExpiredCheckPayload(p.messageId, p.notificationSentAt + p.expiration, p.userId), f.encode);
      if event.None? {
        return Fail(EncodeFailed);
      }
      err := eventDispatcher.DispatchWithTimeout(event.value, p.expiration, f.dispatch);
    }

    /** `now` is the clock reading stamped on the send-expired payload. */
    method CheckExpired(p: L.CheckParams, now: Time, f: L.Faults) returns (err: Outcome<()>)
      modifies eventDispatcher
      ensures var step := L.CheckExpired(old(Snapshot()), p, now, f);
              Snapshot() == step.state && err == step.result
    {
      var loaded := repository.Load(p.userId, p.messageId, f.load);
      if loaded.Fail? {
        return Fail(loaded.error);
      }
      var message := loaded.value;
      if !message.IsPending() && !message.IsSending() {
        return Ok(());
      }
      var event := CreateEvent(p.source,
        SendExpiredPayload(message.id, message.owner, message.contact, message.userId, now, message.content), f.encode);
      if event.None? {
        return Fail(EncodeFailed);
      }
      err := eventDispatcher.Dispatch(event.value, f.dispatch);
    }
  }
}
