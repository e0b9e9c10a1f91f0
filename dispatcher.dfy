/**
 * The event dispatcher the service is given. Its broker is not part of this
 * model; what matters to the service is the sequence of events the broker has
 * accepted, `log`, and that each call may be rejected (`fails`).
 */
module Dispatcher {
  import opened Outcomes
  import opened Entities
  import opened Events

  class EventDispatcher {
    var log: seq<Dispatch>

    constructor ()
      ensures log == []
    {
      log := [];
    }

    /** Hands `event` to the broker for immediate delivery. */
    method Dispatch(event: Event, fails: bool) returns (r: Outcome<()>)
      modifies this
      ensures r == if fails then Fail(DispatchFailed) else Ok(())
      ensures log == if fails then old(log) else old(log) + [Immediate(event)]
    {
      if fails {
        r := Fail(DispatchFailed);
      } else {
        log := log + [Immediate(event)];
        r := Ok(());
      }
    }

    /** Hands `event` to the broker for delivery no earlier than `delay` from now. */
    method DispatchWithTimeout(event: Event, delay: Duration, fails: bool) returns (r: Outcome<()>)
      modifies this
      ensures r == if fails then Fail(DispatchFailed) else Ok(())
      ensures log == if fails then old(log) else old(log) + [Delayed(event, delay)]
    {
      if fails {
        r := Fail(DispatchFailed);
      } else {
        log := log + [Delayed(event, delay)];
        r := Ok(());
      }
    }
  }
}
