# httpsms message lifecycle — a Dafny model

This project models the core of the httpsms API's `MessageService`
(`api/pkg/services/message_service.go`): the orchestration that drives an SMS
message through its lifecycle. Every status-changing handler loads a message
by its (user, id) key, checks its status against an allowed set, and either
refuses with an error and writes nothing, or writes the transitioned record
back with the repository's `Update`. Around the handlers sit the expiration
scheduler (a delayed dispatch of an expired-check event), the expiry check
(which only emits a send-expired event while the message is Pending or
Sending), the creation of sent and received messages, the router for events
reported by the phone, and the outstanding-message fetch.

Modules:

- `Outcomes` (outcomes.dfy): `Option`, `Outcome` and the error kinds; each kind names the step that failed.
- `Entities` (entities.dfy): the `Message` record, its `Status` (including `Received`) and status predicates, and the entity transitions (`AddSendAttempt`, `Sent`, `Delivered`, `Failed`, `Expired`) as opaque function values.
- `Events` (events.dfy): event type tags, one payload shape per tag, `createEvent` and its typed wrappers, and the default failure text.
- `Repository` (repository.dfy) and `Dispatcher` (dispatcher.dfy): the collaborators the service is given, as classes. The repository is a map from (user, id) to message. `Store` refuses a taken key and `Update` refuses a missing one. The dispatcher keeps the sequence of events its broker accepted, each marked immediate or delayed.
- `Lifecycle` (lifecycle.dfy): what each service operation does, as a pure function of the records, the dispatched events, the parameters and the collaborators' answers. It ends with lemmas about sequences of operations.
- `Service` (message_service.dfy): the `MessageService` class. Its methods take the source's steps one at a time and are proved to match the `Lifecycle` functions exactly.

The repository, the broker and the JSON encoder may fail on any call. The
model makes their answers an input, a `Faults` value with one flag per
collaborator call (load, encode, dispatch, write). Every error path of the
source is therefore a reachable case in the model.

Three facts about the code shape the model:

- The `Handle*` methods dispatch no event. They only load, check and update.
- `HandleMessageFailed` refuses only a Delivered message. It writes a failed record from every other status, including Failed, Expired and Received.
- Messages created by `StoreReceivedMessage` have status `Received`.

## Model

| member | source | states |
|---|---|---|
| Events.TagOf | api/pkg/services/message_service.go:663-697 | each create*Event wrapper tags its payload with the one event type whose schema that payload has |
| Events.CreateEvent | api/pkg/services/message_service.go:699-713 | createEvent fails exactly when encoding fails; otherwise the envelope keeps the caller's source and the payload, under a matching type tag |
| Events.FailureText | api/pkg/services/message_service.go:270-273 | a failed event carries the phone's error text when one is given, and "UNKNOWN ERROR" otherwise |
| Lifecycle.NewSentMessage | api/pkg/services/message_service.go:367-383 | a sent message is MobileTerminated and Pending, keyed by (user, id); RequestReceivedAt = OrderTimestamp = the given timestamp; SendDuration, LastAttemptedAt, SentAt and ReceivedAt are absent |
| Lifecycle.NewReceivedMessage | api/pkg/services/message_service.go:401-414 | a received message is MobileOriginated and Received; ReceivedAt = RequestReceivedAt = OrderTimestamp = the given timestamp |
| Lifecycle.StoreSentMessage | api/pkg/services/message_service.go:361-392 | succeeds exactly when the store accepts a new key; it then stores and returns the new sent message and dispatches nothing; on failure nothing changes |
| Lifecycle.StoreReceivedMessage | api/pkg/services/message_service.go:395-423 | the same for the new received message |
| Lifecycle.Admits | api/pkg/services/message_service.go:445-569 | each handler's status guard admits exactly its allowed set: Sending for HandleMessageSending; Sending or Expired for Sent; all but Delivered for Failed; Sent, Sending or Expired for Delivered; Sending or Pending for Expired |
| Lifecycle.Handle | api/pkg/services/message_service.go:433-573 | a handler never dispatches; on a load failure or a status outside the allowed set it returns that error and the repository is unchanged; success means the loaded status was allowed and the transitioned record was written, and it happens exactly when load and write succeed, the status is allowed and the transitioned record's key is in the repository; an allowed status whose Update fails returns the write error with nothing written |
| Lifecycle.HandleKeepsDelivered | api/pkg/services/message_service.go:507-515 | no handler changes a Delivered record, given a consistent repository and transitions that keep the key |
| Lifecycle.Publish | api/pkg/services/message_service.go:218-294 | building and dispatching an event succeeds exactly when encoding and dispatch do; only then is the event appended to the log; the repository is untouched |
| Lifecycle.ScheduleExpirationCheck | api/pkg/services/message_service.go:586-614 | a zero duration succeeds with nothing dispatched; otherwise exactly one delayed expired-check event is appended, with ScheduledAt = NotificationSentAt + duration and delay = duration; on failure nothing changes |
| Lifecycle.CheckExpired | api/pkg/services/message_service.go:624-661 | never writes the repository; a load failure returns an error with nothing dispatched; a message outside Pending/Sending gives success with nothing dispatched; otherwise exactly one send-expired event with the message's id, user, owner, contact and content, and an encode or dispatch failure is returned as that error with nothing dispatched |
| Lifecycle.GetOutstanding | api/pkg/services/message_service.go:54-88 | returns the message exactly when lookup, encoding and dispatch all succeed, and then the one new log entry is a sending-to-phone event with its fields and the given timestamp; a failed lookup dispatches nothing |
| Lifecycle.PhoneEventPayload | api/pkg/services/message_service.go:145-294 | Sent, Delivered and Failed route to the phone-sent, phone-delivered and send-failed payloads of the message at the reported time; any other name routes nowhere |
| Lifecycle.StoreEvent | api/pkg/services/message_service.go:139-162 | an unknown event name is an error with nothing dispatched; for a known one a handler failure (encode or dispatch) is returned with nothing dispatched; otherwise its event is dispatched (and stands even if the final load fails), then the call returns Ok with the record under (message's user, reported id), or the load error; the repository is never written |
| Lifecycle.SendMessage | api/pkg/services/message_service.go:307-348 | an encoding or dispatch failure returns that error; otherwise one sent-by-API event for the new id is dispatched; success returns the record under (user, new id) |
| Lifecycle.ReceiveMessage | api/pkg/services/message_service.go:175-216 | the same with a received-by-phone event |
| Lifecycle.ApplyKeepsHistory | api/pkg/services/message_service.go:54-661 | every operation keeps each record under its own key, removes no record, only appends to the dispatch log, and leaves Delivered records unchanged |
| Lifecycle.DeliveredIsFinal | api/pkg/services/message_service.go:433-573 | across any sequence of service operations, a Delivered record stays exactly as it was |
| Lifecycle.HistoryIsKept | api/pkg/services/message_service.go:54-661 | across any sequence of operations no record is removed and the dispatch log only grows |
| Lifecycle.RedeliveredCheckIsHarmless | api/pkg/services/message_service.go:630-639 | repeating CheckExpired any number of times on a message no longer Pending or Sending changes nothing and emits nothing |
| Lifecycle.ExpiryNoticeIsAccepted | api/pkg/services/message_service.go:549-661 | whenever CheckExpired emits a send-expired event, HandleMessageExpired for that message, with no collaborator failing, succeeds |
| Lifecycle.NewSentMessageAwaitsExpiryOrFailure | api/pkg/services/message_service.go:367-383 | of the handlers, only the expired and failed ones accept a freshly stored sent message |
| Lifecycle.NewReceivedMessageOnlyFails | api/pkg/services/message_service.go:401-414 | of the handlers, only the failed one accepts a freshly stored received message |
| Service.MessageService.constructor | api/pkg/services/message_service.go:30-43 | the service holds the repository, dispatcher and transitions it is given |
| Service.MessageService.GetOutstanding | api/pkg/services/message_service.go:54-88 | repository and dispatch log end as Lifecycle.GetOutstanding says, and the same result is returned |
| Service.MessageService.StoreEvent | api/pkg/services/message_service.go:139-162 | matches Lifecycle.StoreEvent |
| Service.MessageService.HandleMessageSentEvent | api/pkg/services/message_service.go:218-240 | dispatches the phone-sent event as Lifecycle.Publish says |
| Service.MessageService.HandleMessageDeliveredEvent | api/pkg/services/message_service.go:242-264 | dispatches the phone-delivered event as Lifecycle.Publish says |
| Service.MessageService.HandleMessageFailedEvent | api/pkg/services/message_service.go:266-294 | dispatches the send-failed event with the text FailureText gives, as Lifecycle.Publish says |
| Service.MessageService.ReceiveMessage | api/pkg/services/message_service.go:175-216 | matches Lifecycle.ReceiveMessage |
| Service.MessageService.SendMessage | api/pkg/services/message_service.go:307-348 | matches Lifecycle.SendMessage |
| Service.MessageService.StoreSentMessage | api/pkg/services/message_service.go:361-392 | matches Lifecycle.StoreSentMessage |
| Service.MessageService.StoreReceivedMessage | api/pkg/services/message_service.go:395-423 | matches Lifecycle.StoreReceivedMessage |
| Service.MessageService.HandleMessageSending | api/pkg/services/message_service.go:433-457 | matches Lifecycle.Handle for the sending handler (writes AddSendAttempt only from Sending) |
| Service.MessageService.HandleMessageSent | api/pkg/services/message_service.go:460-484 | matches Lifecycle.Handle for the sent handler (writes only from Sending or Expired) |
| Service.MessageService.HandleMessageFailed | api/pkg/services/message_service.go:495-519 | matches Lifecycle.Handle for the failed handler (refuses only Delivered) |
| Service.MessageService.HandleMessageDelivered | api/pkg/services/message_service.go:522-546 | matches Lifecycle.Handle for the delivered handler (writes only from Sent, Sending or Expired) |
| Service.MessageService.HandleMessageExpired | api/pkg/services/message_service.go:549-573 | matches Lifecycle.Handle for the expired handler (writes only from Sending or Pending) |
| Service.MessageService.ScheduleExpirationCheck | api/pkg/services/message_service.go:586-614 | matches Lifecycle.ScheduleExpirationCheck |
| Service.MessageService.CheckExpired | api/pkg/services/message_service.go:624-661 | matches Lifecycle.CheckExpired |

## Left out

- The entity transitions (`AddSendAttempt`, `Sent`, `Delivered`, `Failed`, `Expired`) live in the entities package, which is not part of this model. They are opaque function values, so the model says nothing about the fields or the status they produce. The lemmas that need it assume only that a transition keeps the message's (user, id) key (`KeepsIdentity`).
- Tracing, logging and the context/stack-trace wrapping of errors are left out. An error is only the kind of step that failed.
- The envelope's fresh id (`uuid.New`) and creation time (`time.Now`) are not modelled, and neither is the JSON encoding in `createEvent`. Encoding can only fail, as an input.
- `time.Now` elsewhere is an input. CheckExpired's payload timestamp is the parameter `now`. StoreSentMessage and StoreReceivedMessage read the clock twice, for CreatedAt and UpdatedAt; the model uses one reading, `now`, for both.
- `phonenumbers.Format` (E.164 formatting) in SendMessage and ReceiveMessage is a foreign call. Their parameters carry the already formatted numbers.
- SendMessage and ReceiveMessage load a record that only an asynchronous consumer of their event would store. That consumer is not part of this model, so their load sees the repository as it was.
- The repository's GetOutstanding decides which messages are due, and may change them. Its queueing policy is not part of this model: it is a lookup by key that writes nothing. As a result, no modelled operation moves a message from Pending to Sending. A new sent message is Pending (`Lifecycle.NewSentMessageAwaitsExpiryOrFailure`), while `HandleMessageSending` needs Sending, so the model does not follow a message from Pending into the sending handler. `DeliveredIsFinal` and `HistoryIsKept` cover GetOutstanding only as a read; a repository query that writes is not covered.
- Time and durations are unbounded integers (nanoseconds). The int64 range of `time.Time.Add` and `time.Duration` is not modelled.
- GetMessages and GetMessage are left out. They pass straight through to the repository.
- `createHeartbeatPhoneOutstandingEvent` is never called in this file, so the heartbeat event type and its payload are left out.
- The heartbeat service is left out. It belongs to another subsystem and stores records with no lifecycle.
- Concurrency, context cancellation and the broker's delivery guarantees are left out. Operations are modelled one at a time.
