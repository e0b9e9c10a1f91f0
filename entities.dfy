/**
 * The Message entity as the message service sees it: its fields, its status
 * predicates, and the status transitions of the entities package, whose bodies
 * are not part of this model and are therefore supplied as opaque values.
 */
module Entities {
  import opened Outcomes

  /** Opaque unique identifiers (uuid.UUID). */
  type Uuid = string
  /** Tenant (account) identifier. */
  type UserId = string
  /** An instant, in nanoseconds. */
  type Time = int
  /** A time.Duration: a signed number of nanoseconds. */
  type Duration = int

  datatype MessageType = MobileOriginated | MobileTerminated

  datatype Status = Pending | Sending | Sent | Delivered | Failed | Expired | Received

  datatype Message = Message(
    id: Uuid,
    owner: string,
    contact: string,
    userId: UserId,
    content: string,
    kind: MessageType,
    status: Status,
    requestReceivedAt: Time,
    createdAt: Time,
    updatedAt: Time,
    orderTimestamp: Time,
    sendDuration: Option<Duration>,
    lastAttemptedAt: Option<Time>,
    sentAt: Option<Time>,
    receivedAt: Option<Time>,
    errorMessage: Option<string>)
  {
    predicate IsPending() { status == Pending }
    predicate IsSending() { status == Sending }
    predicate IsSent() { status == Sent }
    predicate IsDelivered() { status == Delivered }
    predicate IsExpired() { status == Expired }
  }

  /** The repository key of a message: tenant first, so every lookup is tenant-scoped. */
  type Key = (UserId, Uuid)

  function KeyOf(m: Message): Key {
    (m.userId, m.id)
  }

  /**
   * The transitions of the entities package (AddSendAttempt, Sent, Delivered,
   * Failed, Expired). What they do to a message's fields is not part of this
   * model, so the service is given them as values and the model assumes
   * nothing about them unless a lemma says so.
   */
  datatype Transitions = Transitions(
    addSendAttempt: (Message, Time) -> Message,
    sent: (Message, Time) -> Message,
    delivered: (Message, Time) -> Message,
    failed: (Message, Time, string) -> Message,
    expired: (Message, Time) -> Message)
}
