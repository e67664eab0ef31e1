/**
 The part of the libev event loop that the connection manager relies on.

 A one-shot timer is started with an expiry time.  When the loop notices that the
 time has come it stops the timer and queues one event; the callback runs later.
 In between, the timer counts as inactive, but stopping it also drops the event.
 */
module Watchers {
  import opened Options

  /** `armed` is the expiry time of a started timer, `pending` the expiry time
      behind an event that is queued but not yet delivered. */
  datatype Timer = Timer(armed: Option<real>, pending: Option<real>)

  const Stopped: Timer := Timer(None, None)

  /** ev_timer_set and ev_timer_start: starting an active timer changes nothing. */
  function Start(t: Timer, at: real): Timer {
    if t.armed.Some? then t else t.(armed := Some(at))
  }

  /** The loop notices that an armed timer is due; events of one watcher do not pile up. */
  function Expire(t: Timer): Timer
    requires t.armed.Some?
  {
    Timer(None, if t.pending.Some? then t.pending else t.armed)
  }

  /** The queued event is taken off the queue, just before its callback runs. */
  function Delivered(t: Timer): Timer {
    t.(pending := None)
  }

  /** The earliest time at which the timer has something to do. */
  function Due(t: Timer): real
    requires t != Stopped
  {
    if t.pending.Some? then t.pending.value else t.armed.value
  }

  /** The loop serves every timer at most `lag` seconds late. */
  predicate InTime(t: Timer, now: real, lag: real) {
    && (t.armed.Some? ==> now <= t.armed.value + lag)
    && (t.pending.Some? ==> now <= t.pending.value + lag)
  }
}
