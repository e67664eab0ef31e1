/**
 The scheduler that the backhaul reconcilers write out by hand: a work flag, an
 idle watcher, a deadline timer and a backoff timer per object
 (src/cm2/src/cm2_bh_cmu.c and src/cm2/src/cm2_bh_gre.c).

 The main result is a simulation: every run of this scheduler is, up to steps
 that `Work` does not see, a run of `Work` with the same calls and requests.
 */
module Scheduler {
  import opened Options
  import opened Watchers
  import W = Work

  datatype Sched = Sched(work: bool, idleActive: bool, deadline: Timer, backoff: Timer)

  const Fresh: Sched := Sched(false, false, Stopped, Stopped)

  /** The `recalc_arm` helpers: start the idle watcher and, unless it is active, the deadline. */
  function Armed(s: Sched, now: real, p: W.Params): Sched {
    s.(idleActive := true, deadline := Start(s.deadline, now + p.deadline))
  }

  /** The `schedule` helpers. */
  function Requested(s: Sched, now: real, p: W.Params): Sched {
    Armed(s.(work := true), now, p)
  }

  /** The guard at the head of every `recalc`. */
  predicate MayRun(s: Sched) {
    s.work && s.backoff.armed.None?
  }

  /** `again` says whether the body of the recalculation asks for another one. */
  function Recalculated(s: Sched, again: bool, now: real, p: W.Params): Sched {
    if !MayRun(s) then s else
      var r := s.(work := false, backoff := Start(s.backoff, now + p.cooldown));
      if again then Requested(r, now, p) else r
  }

  function IdleFired(s: Sched, again: bool, now: real, p: W.Params): Sched {
    Recalculated(s.(idleActive := false, deadline := Stopped), again, now, p)
  }

  function DeadlineFired(s: Sched, again: bool, now: real, p: W.Params): Sched {
    Recalculated(s.(deadline := Delivered(s.deadline)), again, now, p)
  }

  function BackoffFired(s: Sched, now: real, p: W.Params): Sched {
    Armed(s.(backoff := Delivered(s.backoff)), now, p)
  }

  // ---- Runs ----

  datatype Sys = Sys(s: Sched, now: real, calls: seq<real>, asked: Option<real>)

  datatype Event =
    | Request
    | Tick(d: real)
    | DeadlineExpires
    | BackoffExpires
    | IdleFires(again: bool)
    | DeadlineFires(again: bool)
    | BackoffFires

  predicate Enabled(c: Sys, e: Event, p: W.Params) {
    match e
    case Request => true
    case Tick(d) =>
      && 0.0 <= d
      && InTime(c.s.deadline, c.now + d, p.lag)
      && InTime(c.s.backoff, c.now + d, p.lag)
    case DeadlineExpires => c.s.deadline.armed.Some? && c.s.deadline.armed.value <= c.now
    case BackoffExpires => c.s.backoff.armed.Some? && c.s.backoff.armed.value <= c.now
    case IdleFires(_) => c.s.idleActive
    case DeadlineFires(_) => c.s.deadline.pending.Some?
    case BackoffFires => c.s.backoff.pending.Some?
  }

  function Called(c: Sys, s: Sched, ran: bool, again: bool): Sys {
    if ran then Sys(s, c.now, c.calls + [c.now], if again then Some(c.now) else None) else c.(s := s)
  }

  function Next(c: Sys, e: Event, p: W.Params): Sys
    requires Enabled(c, e, p)
  {
    match e
    case Request => c.(s := Requested(c.s, c.now, p), asked := W.Ask(c.asked, c.now))
    case Tick(d) => c.(now := c.now + d)
    case DeadlineExpires => c.(s := c.s.(deadline := Expire(c.s.deadline)))
    case BackoffExpires => c.(s := c.s.(backoff := Expire(c.s.backoff)))
    case IdleFires(again) => Called(c, IdleFired(c.s, again, c.now, p), MayRun(c.s), again)
    case DeadlineFires(again) => Called(c, DeadlineFired(c.s, again, c.now, p), MayRun(c.s), again)
    case BackoffFires => c.(s := BackoffFired(c.s, c.now, p))
  }

  predicate CanRun(c: Sys, es: seq<Event>, p: W.Params)
    decreases |es|
  {
    es == [] || (Enabled(c, es[0], p) && CanRun(Next(c, es[0], p), es[1..], p))
  }

  function Run(c: Sys, es: seq<Event>, p: W.Params): Sys
    requires CanRun(c, es, p)
    decreases |es|
  {
    if es == [] then c else Run(Next(c, es[0], p), es[1..], p)
  }

  function Start0(now: real): Sys {
    Sys(Fresh, now, [], None)
  }

  // ---- The simulation relation ----

  function PhaseOf(s: Sched): W.Phase {
    if s.backoff == Stopped then (if s.work then W.Pending else W.Idle)
    else (if s.work then W.CoolingPending else W.Cooling)
  }

  /** The backoff timer plays the part of the cooldown timer. */
  predicate SameCooldown(backoff: Timer, timer: Timer) {
    if backoff.armed.Some? then timer == Timer(backoff.armed, None)
    else backoff.pending.Some? && timer.armed.None? && timer.pending.Some? &&
         backoff.pending.value <= timer.pending.value
  }

  /** No request is lost: once the backoff is over, a waiting object has both its
      idle watcher and a deadline to wake it. */
  predicate Awake(c: Sys, p: W.Params) {
    && (c.s.work && c.s.backoff == Stopped ==> c.s.idleActive && c.s.deadline != Stopped)
    && (c.s.deadline.armed.Some? ==> c.s.deadline.armed.value <= c.now + p.deadline)
    && (c.s.deadline.pending.Some? ==> c.s.deadline.pending.value <= c.now)
    && (c.s.backoff.pending.Some? ==> c.s.backoff.pending.value <= c.now)
    && (c.s.backoff.armed.Some? && c.s.backoff.pending.Some? ==>
          c.s.backoff.pending.value <= c.s.backoff.armed.value)
  }

  predicate Simulates(c: Sys, a: W.Sys, p: W.Params) {
    && Awake(c, p)
    && W.Determined(a.w)
    && a.now == c.now && a.calls == c.calls && a.asked == c.asked
    && a.w.phase == PhaseOf(c.s)
    && (c.s.backoff != Stopped ==> SameCooldown(c.s.backoff, a.w.timer))
    && (a.w.phase.Pending? ==> Due(c.s.deadline) <= Due(a.w.timer))
  }

  function Ops(again: bool): seq<W.Op> {
    if again then [W.Schedule] else []
  }

  /** The steps of `Work` that one step of the hand-written scheduler stands for. */
  function Matching(c: Sys, e: Event): seq<W.Event> {
    match e
    case Request => [W.Request]
    case Tick(d) => [W.Tick(d)]
    case DeadlineExpires => []
    case BackoffExpires => [W.TimerExpires]
    case BackoffFires => if c.s.backoff.armed.Some? then [] else [W.TimerFires([])]
    case IdleFires(again) => MatchingCall(c, again)
    case DeadlineFires(again) => MatchingCall(c, again)
  }

  /** A body may run while the end of the backoff is still queued; `Work` then
      first handles that timer event. */
  function MatchingCall(c: Sys, again: bool): seq<W.Event> {
    if !MayRun(c.s) then []
    else if c.s.backoff.pending.Some? then [W.TimerFires([]), W.IdleFires(Ops(again))]
    else [W.IdleFires(Ops(again))]
  }

  lemma CallUnfolds(again: bool, now: real, p: W.Params)
    ensures W.Body(W.Entered(now, p), Ops(again), now, p) ==
            W.Entered(now, p).(phase := if again then W.CoolingPending else W.Cooling)
    ensures W.AskedBy(Ops(again), now) == if again then Some(now) else None
  {
    if again {
      assert Ops(again)[..0] == [];
      assert W.Body(W.Entered(now, p), [], now, p) == W.Entered(now, p);
      assert W.AskedBy([], now) == None;
    }
  }

  lemma CallSimulated(c: Sys, a: W.Sys, s: Sched, again: bool, p: W.Params)
    requires p.Valid() && Simulates(c, a, p)
    requires s.work == c.s.work && s.backoff == c.s.backoff
    requires MayRun(c.s)
    requires s.deadline.armed.Some? ==> s.deadline.armed.value <= c.now + p.deadline
    requires s.deadline.pending.Some? ==> s.deadline.pending.value <= c.now
    ensures var es := MatchingCall(c, again);
            W.CanRun(a, es, p) &&
            Simulates(Called(c, Recalculated(s, again, c.now, p), true, again), W.Run(a, es, p), p)
  {
    var es := MatchingCall(c, again);
    CallUnfolds(again, c.now, p);
    if c.s.backoff.pending.Some? {
      var a1 := W.Next(a, W.TimerFires([]), p);
      assert es[1..] == [W.IdleFires(Ops(again))] && es[1..][1..] == [];
      assert W.Run(a, es, p) == W.Run(a1, es[1..], p) == W.Next(a1, W.IdleFires(Ops(again)), p);
    } else {
      assert es[1..] == [];
    }
  }

  lemma OneStep(a: W.Sys, f: W.Event, p: W.Params)
    requires W.Enabled(a, f, p)
    ensures W.CanRun(a, [f], p) && W.Run(a, [f], p) == W.Next(a, f, p)
  {
    hide W.Next, W.Enabled;
    assert [f][1..] == [];
  }

  lemma RequestSimulated(c: Sys, a: W.Sys, p: W.Params)
    requires p.Valid() && Simulates(c, a, p)
    ensures W.Enabled(a, W.Request, p) && Simulates(Next(c, Request, p), W.Next(a, W.Request, p), p)
  {
  }

  lemma TickSimulated(c: Sys, a: W.Sys, d: real, p: W.Params)
    requires p.Valid() && Simulates(c, a, p) && Enabled(c, Tick(d), p)
    ensures W.Enabled(a, W.Tick(d), p) && Simulates(Next(c, Tick(d), p), W.Next(a, W.Tick(d), p), p)
  {
  }

  lemma DeadlineExpirySimulated(c: Sys, a: W.Sys, p: W.Params)
    requires p.Valid() && Simulates(c, a, p) && Enabled(c, DeadlineExpires, p)
    ensures Simulates(Next(c, DeadlineExpires, p), a, p)
  {
  }

  lemma BackoffExpirySimulated(c: Sys, a: W.Sys, p: W.Params)
    requires p.Valid() && Simulates(c, a, p) && Enabled(c, BackoffExpires, p)
    ensures W.Enabled(a, W.TimerExpires, p) && Simulates(Next(c, BackoffExpires, p), W.Next(a, W.TimerExpires, p), p)
  {
  }

  /** The end of the backoff is the end of the cooldown, unless a new one has begun. */
  lemma BackoffSimulated(c: Sys, a: W.Sys, p: W.Params)
    requires p.Valid() && Simulates(c, a, p) && Enabled(c, BackoffFires, p)
    ensures if c.s.backoff.armed.Some? then Simulates(Next(c, BackoffFires, p), a, p)
            else W.Enabled(a, W.TimerFires([]), p) &&
                 Simulates(Next(c, BackoffFires, p), W.Next(a, W.TimerFires([]), p), p)
  {
  }

  /** Outside its guard the recalculation does nothing that `Work` sees. */
  lemma SkipSimulated(c: Sys, a: W.Sys, s: Sched, p: W.Params)
    requires p.Valid() && Simulates(c, a, p) && !MayRun(c.s)
    requires s.work == c.s.work && s.backoff == c.s.backoff
    requires s.deadline.armed.Some? ==> s.deadline.armed.value <= c.now + p.deadline
    requires s.deadline.pending.Some? ==> s.deadline.pending.value <= c.now
    ensures Simulates(c.(s := s), a, p)
  {
  }

  lemma FireSimulated(c: Sys, a: W.Sys, s: Sched, again: bool, p: W.Params)
    requires p.Valid() && Simulates(c, a, p)
    requires s.work == c.s.work && s.backoff == c.s.backoff
    requires s.deadline.armed.Some? ==> s.deadline.armed.value <= c.now + p.deadline
    requires s.deadline.pending.Some? ==> s.deadline.pending.value <= c.now
    ensures var es := MatchingCall(c, again);
            && W.CanRun(a, es, p)
            && Simulates(Called(c, Recalculated(s, again, c.now, p), MayRun(c.s), again), W.Run(a, es, p), p)
  {
    hide Simulates, W.Next, W.Enabled, Requested;
    if MayRun(c.s) {
      CallSimulated(c, a, s, again, p);
    } else {
      SkipSimulated(c, a, s, p);
      assert Recalculated(s, again, c.now, p) == s;
    }
  }

  lemma DeadlineInTime(c: Sys, a: W.Sys, p: W.Params)
    requires Simulates(c, a, p)
    ensures c.s.deadline.armed.Some? ==> c.s.deadline.armed.value <= c.now + p.deadline
    ensures c.s.deadline.pending.Some? ==> c.s.deadline.pending.value <= c.now
  {
  }

  /** One step of the hand-written scheduler is matched by zero, one or two steps of `Work`. */
  lemma StepSimulated(c: Sys, a: W.Sys, e: Event, p: W.Params)
    requires p.Valid() && Simulates(c, a, p) && Enabled(c, e, p)
    ensures var es := Matching(c, e);
            W.CanRun(a, es, p) && Simulates(Next(c, e, p), W.Run(a, es, p), p)
  {
    hide Simulates, Enabled, Recalculated, MayRun, W.Next, W.Enabled;
    DeadlineInTime(c, a, p);
    match e {
      case Request =>
        RequestSimulated(c, a, p);
        OneStep(a, W.Request, p);
      case Tick(d) =>
        TickSimulated(c, a, d, p);
        OneStep(a, W.Tick(d), p);
      case DeadlineExpires => DeadlineExpirySimulated(c, a, p);
      case BackoffExpires =>
        BackoffExpirySimulated(c, a, p);
        OneStep(a, W.TimerExpires, p);
      case BackoffFires =>
        BackoffSimulated(c, a, p);
        if c.s.backoff.armed.None? { OneStep(a, W.TimerFires([]), p); }
      case IdleFires(again) => FireSimulated(c, a, c.s.(idleActive := false, deadline := Stopped), again, p);
      case DeadlineFires(again) => FireSimulated(c, a, c.s.(deadline := Delivered(c.s.deadline)), again, p);
    }
  }

  lemma {:induction false} RunConcat(a: W.Sys, es: seq<W.Event>, fs: seq<W.Event>, p: W.Params)
    requires W.CanRun(a, es, p) && W.CanRun(W.Run(a, es, p), fs, p)
    ensures W.CanRun(a, es + fs, p) && W.Run(a, es + fs, p) == W.Run(W.Run(a, es, p), fs, p)
    decreases |es|
  {
    if es == [] {
      assert es + fs == fs;
    } else {
      RunConcat(W.Next(a, es[0], p), es[1..], fs, p);
      assert (es + fs)[1..] == es[1..] + fs;
    }
  }

  lemma {:induction false} RunSimulated(c: Sys, a: W.Sys, es: seq<Event>, p: W.Params) returns (fs: seq<W.Event>)
    requires p.Valid() && Simulates(c, a, p) && CanRun(c, es, p)
    ensures forall f | f in fs :: W.NoCancel(f)
    ensures W.CanRun(a, fs, p) && Simulates(Run(c, es, p), W.Run(a, fs, p), p)
    decreases |es|
  {
    if es == [] {
      fs := [];
    } else {
      var first := Matching(c, es[0]);
      StepSimulated(c, a, es[0], p);
      var rest := RunSimulated(Next(c, es[0], p), W.Run(a, first, p), es[1..], p);
      RunConcat(a, first, rest, p);
      fs := first + rest;
    }
  }

  /** Main result: every run of the hand-written scheduler has a run of `Work`
      without cancellation that makes the same calls at the same times, and ends
      in the phase given by the work flag and the backoff timer. */
  lemma EveryRunIsARunOfWork(t0: real, es: seq<Event>, p: W.Params)
    requires p.Valid() && CanRun(Start0(t0), es, p)
    ensures exists fs: seq<W.Event> ::
              && (forall f | f in fs :: W.NoCancel(f))
              && W.CanRun(W.Start0(t0), fs, p)
              && var c, a := Run(Start0(t0), es, p), W.Run(W.Start0(t0), fs, p);
                 a.calls == c.calls && a.asked == c.asked && a.now == c.now && a.w.phase == PhaseOf(c.s)
  {
    var fs := RunSimulated(Start0(t0), W.Start0(t0), es, p);
  }

  /** What the simulation buys: the hand-written scheduler keeps its body's runs one
      backoff apart, runs it only when asked, never forgets a request (also one made
      from inside the body), and no request waits longer than the two timers allow. */
  lemma SchedulerIsPrompt(t0: real, es: seq<Event>, p: W.Params)
    requires p.Valid() && CanRun(Start0(t0), es, p)
    ensures var c := Run(Start0(t0), es, p);
            && W.Spaced(c.calls, p.cooldown)
            && (c.asked.Some? <==> c.s.work)
            && (c.asked.Some? ==> c.now <= c.asked.value + p.cooldown + p.deadline + 2.0 * p.lag)
            && (c.s.work ==> c.s.backoff != Stopped || (c.s.idleActive && c.s.deadline != Stopped))
  {
    var fs := RunSimulated(Start0(t0), W.Start0(t0), es, p);
    W.RunCools(W.Start0(t0), fs, p);
  }
}
