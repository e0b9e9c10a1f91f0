/**
 * The message repository the service is given: a store of messages keyed by
 * (user, id). Its implementation is not part of this model; this is the
 * contract the service relies on. Whether a call fails for a reason other than
 * the key (a storage error) is an input, `fails`.
 */
module Repository {
  import opened Outcomes
  import opened Entities

  type Messages = map<Key, Message>

  /** Every record is filed under its own (user, id) key. */
  ghost predicate Consistent(messages: Messages) {
    forall k :: k in messages ==> KeyOf(messages[k]) == k
  }

  /** Load: the record under `key`, or an error when there is none or the read fails. */
  function Lookup(messages: Messages, key: Key, fails: bool): (r: Outcome<Message>)
    ensures r.Ok? <==> !fails && key in messages
    ensures r.Ok? ==> r.value == messages[key]
    ensures r.Fail? ==> r.error == LoadFailed
  {
    if fails || key !in messages then Fail(LoadFailed) else Ok(messages[key])
  }

  /** Store: adds a new record; refuses one whose key is taken (a conflict). */
  function Inserted(messages: Messages, m: Message, fails: bool): (r: Outcome<Messages>)
    ensures r.Ok? <==> !fails && KeyOf(m) !in messages
    ensures r.Ok? ==> r.value == messages[KeyOf(m) := m] && |r.value| == |messages| + 1
    ensures r.Fail? ==> r.error == WriteFailed
  {
    if fails || KeyOf(m) in messages then Fail(WriteFailed) else Ok(messages[KeyOf(m) := m])
  }

  /** Update: replaces an existing record; refuses one whose key is absent (not found). */
  function Replaced(messages: Messages, m: Message, fails: bool): (r: Outcome<Messages>)
    ensures r.Ok? <==> !fails && KeyOf(m) in messages
    ensures r.Ok? ==> r.value == messages[KeyOf(m) := m] && r.value.Keys == messages.Keys
    ensures r.Fail? ==> r.error == WriteFailed
  {
    if fails || KeyOf(m) !in messages then Fail(WriteFailed) else Ok(messages[KeyOf(m) := m])
  }

  class MessageRepository {
    var messages: Messages

    constructor (messages: Messages)
      ensures this.messages == messages
    {
      this.messages := messages;
    }

    method Load(userId: UserId, id: Uuid, fails: bool) returns (r: Outcome<Message>)
      ensures r == Lookup(messages, (userId, id), fails)
    {
      r := Lookup(messages, (userId, id), fails);
    }

    /**
     * The repository's outstanding-message query. Which messages it judges due
     * is its own policy, not part of this model: here it is a lookup by key.
     */
    method GetOutstanding(userId: UserId, id: Uuid, fails: bool) returns (r: Outcome<Message>)
      ensures r == Lookup(messages, (userId, id), fails)
    {
      r := Lookup(messages, (userId, id), fails);
    }

    method Store(m: Message, fails: bool) returns (r: Outcome<()>)
      modifies this
      ensures var w := Inserted(old(messages), m, fails);
              if w.Ok? then messages == w.value && r == Ok(())
              else messages == old(messages) && r == Fail(w.error)
    {
      if fails || KeyOf(m) in messages {
        r := Fail(WriteFailed);
      } else {
        messages := messages[KeyOf(m) := m];
        r := Ok(());
      }
    }

    method Update(m: Message, fails: bool) returns (r: Outcome<()>)
      modifies this
      ensures var w := Replaced(old(messages), m, fails);
              if w.Ok? then messages == w.value && r == Ok(())
              else messages == old(messages) && r == Fail(w.error)
    {
      if fails || KeyOf(m) !in messages {
        r := Fail(WriteFailed);
      } else {
        messages := messages[KeyOf(m) := m];
        r := Ok(());
      }
    }
  }
}
