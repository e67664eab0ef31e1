/**
 The work scheduler of the connection manager (src/cm2/src/cm2_work.c).

 A caller asks for a piece of work; the work runs when the event loop is idle, or
 at the latest after a deadline, and then not again before a cooldown has passed.
 */
module Work {
  import opened Options
  import opened Watchers

  datatype Phase = Idle | Pending | Cooling | CoolingPending

  datatype Work = Work(phase: Phase, idleActive: bool, timer: Timer)

  /** `lag` bounds how late the event loop delivers timers. */
  datatype Params = Params(deadline: real, cooldown: real, lag: real) {
    predicate Valid() {
      0.0 <= deadline && 0.0 <= cooldown && 0.0 <= lag
    }
  }

  /** What the work function may do to its own scheduler while it runs. */
  datatype Op = Schedule | Cancel

  const Fresh: Work := Work(Idle, false, Stopped)

  function Plan(w: Work, now: real, p: Params): Work {
    Work(Pending, true, Start(w.timer, now + p.deadline))
  }

  function Scheduled(w: Work, now: real, p: Params): Work {
    match w.phase
    case Idle => Plan(w, now, p)
    case Cooling => w.(phase := CoolingPending)
    case _ => w
  }

  function Cancelled(w: Work): Work {
    if w.phase.Idle? then w else Work(Idle, false, Stopped)
  }

  /** The state in which the work function starts. */
  function Entered(now: real, p: Params): Work {
    Work(Cooling, false, Start(Stopped, now + p.cooldown))
  }

  function Apply(w: Work, op: Op, now: real, p: Params): Work {
    if op.Schedule? then Scheduled(w, now, p) else Cancelled(w)
  }

  function Body(w: Work, ops: seq<Op>, now: real, p: Params): Work
    decreases |ops|
  {
    if ops == [] then w else Apply(Body(w, ops[..|ops| - 1], now, p), ops[|ops| - 1], now, p)
  }

  function Settled(w: Work): Work {
    w.(phase := Idle, idleActive := false)
  }

  function IdleFired(w: Work, ops: seq<Op>, now: real, p: Params): Work {
    if w.phase.Pending? then Body(Entered(now, p), ops, now, p) else w.(idleActive := false)
  }

  /** The timer callback; the event itself has already been taken off the queue. */
  function TimerFired(w: Work, ops: seq<Op>, now: real, p: Params): Work {
    match w.phase
    case Idle => w
    case Pending => Body(Entered(now, p), ops, now, p)
    case Cooling => Settled(w)
    case CoolingPending => Scheduled(Settled(w), now, p)
  }

  // ---- The object as the source keeps it ----

  class WorkItem {
    const p: Params
    var phase: Phase
    var idleActive: bool
    var timer: Timer

    function Value(): Work
      reads this
    {
      Work(phase, idleActive, timer)
    }

    constructor (p: Params)
      ensures this.p == p && Value() == Fresh
    {
      this.p := p;
      phase, idleActive, timer := Idle, false, Stopped;
    }

    method Schedule(now: real)
      modifies this
      ensures Value() == Scheduled(old(Value()), now, p)
    {
      match phase {
        case Idle =>
          idleActive := true;
          if timer.armed.None? { timer := timer.(armed := Some(now + p.deadline)); }
          phase := Pending;
        case Pending =>
        case Cooling =>
          phase := CoolingPending;
        case CoolingPending =>
      }
    }

    method Cancel()
      modifies this
      ensures Value() == Cancelled(old(Value()))
    {
      if phase.Idle? { return; }
      timer := Stopped;
      idleActive := false;
      phase := Idle;
    }

    /** `ops` is what the foreign work function does to this object. */
    method Call(ops: seq<Op>, now: real)
      modifies this
      ensures Value() == Body(Entered(now, p), ops, now, p)
    {
      idleActive := false;
      timer := Stopped;
      timer := timer.(armed := Some(now + p.cooldown));
      phase := Cooling;
      for i := 0 to |ops|
        invariant Value() == Body(Entered(now, p), ops[..i], now, p)
      {
        assert ops[..i + 1][..i] == ops[..i];
        if ops[i].Schedule? { this.Schedule(now); } else { this.Cancel(); }
      }
      assert ops[..|ops|] == ops;
    }

    method IdleCb(ops: seq<Op>, now: real)
      modifies this
      ensures Value() == IdleFired(old(Value()), ops, now, p)
    {
      match phase {
        case Pending => Call(ops, now);
        case _ => idleActive := false;
      }
    }

    method TimerCb(ops: seq<Op>, now: real)
      modifies this
      ensures Value() == TimerFired(old(Value()), ops, now, p)
    {
      match phase {
        case Idle =>
        case Pending => Call(ops, now);
        case Cooling =>
          idleActive, phase := false, Idle;
        case CoolingPending =>
          idleActive, phase := false, Idle;
          this.Schedule(now);
      }
    }
  }

  // ---- Runs under the event loop ----

  /** `calls` holds the times at which the work function was entered, `asked` the
      time of the oldest request that no call has served yet. */
  datatype Sys = Sys(w: Work, now: real, calls: seq<real>, asked: Option<real>)

  datatype Event =
    | Request
    | Withdraw
    | Tick(d: real)
    | TimerExpires
    | TimerFires(ops: seq<Op>)
    | IdleFires(ops: seq<Op>)

  predicate Enabled(s: Sys, e: Event, p: Params) {
    match e
    case Request => true
    case Withdraw => true
    case Tick(d) => 0.0 <= d && InTime(s.w.timer, s.now + d, p.lag)
    case TimerExpires => s.w.timer.armed.Some? && s.w.timer.armed.value <= s.now
    case TimerFires(_) => s.w.timer.pending.Some?
    case IdleFires(_) => s.w.idleActive
  }

  function Ask(asked: Option<real>, now: real): Option<real> {
    if asked.Some? then asked else Some(now)
  }

  function AskedBy(ops: seq<Op>, now: real): Option<real> {
    if ops == [] then None
    else if ops[|ops| - 1].Cancel? then None
    else Ask(AskedBy(ops[..|ops| - 1], now), now)
  }

  function Called(s: Sys, w: Work, ops: seq<Op>): Sys {
    Sys(w, s.now, s.calls + [s.now], AskedBy(ops, s.now))
  }

  function Next(s: Sys, e: Event, p: Params): Sys
    requires Enabled(s, e, p)
  {
    match e
    case Request => s.(w := Scheduled(s.w, s.now, p), asked := Ask(s.asked, s.now))
    case Withdraw => s.(w := Cancelled(s.w), asked := None)
    case Tick(d) => s.(now := s.now + d)
    case TimerExpires => s.(w := s.w.(timer := Expire(s.w.timer)))
    case TimerFires(ops) =>
      var w := s.w.(timer := Delivered(s.w.timer));
      if w.phase.Pending? then Called(s, TimerFired(w, ops, s.now, p), ops)
      else s.(w := TimerFired(w, ops, s.now, p))
    case IdleFires(ops) =>
      if s.w.phase.Pending? then Called(s, IdleFired(s.w, ops, s.now, p), ops)
      else s.(w := IdleFired(s.w, ops, s.now, p))
  }

  /** The branches that the source marks with WARN_ON. */
  predicate Warns(s: Sys, e: Event) {
    match e
    case TimerFires(_) => s.w.phase.Idle? || (s.w.phase.Cooling? && s.w.idleActive)
    case IdleFires(_) => !s.w.phase.Pending?
    case _ => false
  }

  predicate CanRun(s: Sys, es: seq<Event>, p: Params)
    decreases |es|
  {
    es == [] || (Enabled(s, es[0], p) && CanRun(Next(s, es[0], p), es[1..], p))
  }

  function Run(s: Sys, es: seq<Event>, p: Params): Sys
    requires CanRun(s, es, p)
    decreases |es|
  {
    if es == [] then s else Run(Next(s, es[0], p), es[1..], p)
  }

  function Start0(now: real): Sys {
    Sys(Fresh, now, [], None)
  }

  // ---- What every step keeps ----

  /** Which watchers are active is determined by the phase alone. */
  predicate Determined(w: Work) {
    && (w.idleActive <==> w.phase.Pending?)
    && (w.phase.Idle? <==> w.timer == Stopped)
    && !(w.timer.armed.Some? && w.timer.pending.Some?)
  }

  predicate Waiting(w: Work) {
    w.phase.Pending? || w.phase.CoolingPending?
  }

  /** No request has been waiting for longer than the scheduler allows. */
  predicate Prompt(s: Sys, p: Params)
    requires Determined(s.w)
  {
    && (s.asked.Some? <==> Waiting(s.w))
    && (s.asked.Some? ==> s.asked.value <= s.now)
    && InTime(s.w.timer, s.now, p.lag)
    && (s.w.phase.Cooling? ==> Due(s.w.timer) <= s.now + p.cooldown)
    && (s.w.phase.CoolingPending? ==> Due(s.w.timer) <= s.asked.value + p.cooldown)
    && (s.w.phase.Pending? ==> Due(s.w.timer) <= s.asked.value + p.cooldown + p.lag + p.deadline)
  }

  predicate Inv(s: Sys, p: Params) {
    Determined(s.w) && Prompt(s, p)
  }

  /** A body that starts in the cooling phase ends with the watchers determined. */
  lemma {:induction false} BodyKeeps(ops: seq<Op>, now: real, p: Params)
    requires p.Valid()
    ensures var w := Body(Entered(now, p), ops, now, p);
            && Determined(w)
            && (AskedBy(ops, now).Some? <==> Waiting(w))
            && (AskedBy(ops, now).Some? ==> AskedBy(ops, now).value == now)
            && (w.timer != Stopped ==>
                  && w.timer.pending.None?
                  && now <= w.timer.armed.value
                  && (w.phase.Pending? ==> w.timer.armed.value == now + p.deadline)
                  && (!w.phase.Pending? ==> w.timer.armed.value == now + p.cooldown))
    decreases |ops|
  {
    if ops == [] {
    } else {
      BodyKeeps(ops[..|ops| - 1], now, p);
    }
  }

  lemma StepKeeps(s: Sys, e: Event, p: Params)
    requires p.Valid() && Inv(s, p) && Enabled(s, e, p)
    ensures Inv(Next(s, e, p), p)
    ensures !Warns(s, e)
  {
    match e
    case TimerFires(ops) => BodyKeeps(ops, s.now, p);
    case IdleFires(ops) => BodyKeeps(ops, s.now, p);
    case _ =>
  }

  lemma {:induction false} RunKeeps(s: Sys, es: seq<Event>, p: Params)
    requires p.Valid() && Inv(s, p) && CanRun(s, es, p)
    ensures Inv(Run(s, es, p), p)
    decreases |es|
  {
    if es == [] {
    } else {
      StepKeeps(s, es[0], p);
      RunKeeps(Next(s, es[0], p), es[1..], p);
    }
  }

  /** Main result: no run, however it interleaves requests, cancellations, late
      timers and re-entrant work functions, ever reaches a WARN_ON branch. */
  lemma WarningsUnreachable(t0: real, es: seq<Event>, e: Event, p: Params)
    requires p.Valid() && CanRun(Start0(t0), es, p)
    requires Enabled(Run(Start0(t0), es, p), e, p)
    ensures Determined(Run(Start0(t0), es, p).w)
    ensures !Warns(Run(Start0(t0), es, p), e)
  {
    RunKeeps(Start0(t0), es, p);
    StepKeeps(Run(Start0(t0), es, p), e, p);
  }

  // ---- Cooldown and response time ----

  predicate NoCancel(e: Event) {
    match e
    case Withdraw => false
    case TimerFires(ops) => Cancel !in ops
    case IdleFires(ops) => Cancel !in ops
    case _ => true
  }

  predicate Spaced(calls: seq<real>, gap: real) {
    forall i | 0 < i < |calls| :: calls[i - 1] + gap <= calls[i]
  }

  predicate CooldownOver(s: Sys, p: Params)
    requires Determined(s.w)
  {
    && Spaced(s.calls, p.cooldown)
    && (s.calls != [] ==>
          var last := s.calls[|s.calls| - 1];
          if s.w.phase.Cooling? || s.w.phase.CoolingPending? then last + p.cooldown <= Due(s.w.timer)
          else last + p.cooldown <= s.now)
    && (s.w.timer.pending.Some? ==> s.w.timer.pending.value <= s.now)
  }

  lemma {:induction false} BodyWithoutCancelCools(ops: seq<Op>, now: real, p: Params)
    requires Cancel !in ops
    ensures Body(Entered(now, p), ops, now, p) ==
            Entered(now, p).(phase := if ops == [] then Cooling else CoolingPending)
    decreases |ops|
  {
    if ops == [] {
    } else {
      BodyWithoutCancelCools(ops[..|ops| - 1], now, p);
      assert ops[|ops| - 1] in ops;
    }
  }

  lemma StepCools(s: Sys, e: Event, p: Params)
    requires p.Valid() && Inv(s, p) && CooldownOver(s, p) && Enabled(s, e, p) && NoCancel(e)
    ensures Inv(Next(s, e, p), p) && CooldownOver(Next(s, e, p), p)
  {
    StepKeeps(s, e, p);
    match e
    case TimerFires(ops) => BodyWithoutCancelCools(ops, s.now, p);
    case IdleFires(ops) => BodyWithoutCancelCools(ops, s.now, p);
    case _ =>
  }

  lemma {:induction false} RunCools(s: Sys, es: seq<Event>, p: Params)
    requires p.Valid() && Inv(s, p) && CooldownOver(s, p) && CanRun(s, es, p)
    requires forall e | e in es :: NoCancel(e)
    ensures Inv(Run(s, es, p), p) && CooldownOver(Run(s, es, p), p)
    decreases |es|
  {
    if es == [] {
    } else {
      StepCools(s, es[0], p);
      RunCools(Next(s, es[0], p), es[1..], p);
    }
  }

  /** Main result: without cancellation, calls are at least one cooldown apart. */
  lemma CallsAreSpaced(t0: real, es: seq<Event>, p: Params)
    requires p.Valid() && CanRun(Start0(t0), es, p)
    requires forall e | e in es :: NoCancel(e)
    ensures Spaced(Run(Start0(t0), es, p).calls, p.cooldown)
  {
    RunCools(Start0(t0), es, p);
  }

  /** While nothing is cancelled and no call happens, the oldest request stays. */
  lemma {:induction false} RequestStays(s: Sys, es: seq<Event>, p: Params)
    requires p.Valid() && Inv(s, p) && s.asked.Some? && CanRun(s, es, p)
    requires forall e | e in es :: NoCancel(e)
    ensures var r := Run(s, es, p); s.calls <= r.calls && (r.calls == s.calls ==> r.asked == s.asked)
    decreases |es|
  {
    if es == [] {
    } else {
      var s1 := Next(s, es[0], p);
      StepKeeps(s, es[0], p);
      if s1.asked.Some? {
        RequestStays(s1, es[1..], p);
      } else {
        assert NoCancel(es[0]) && |s.calls| < |s1.calls|;
        CallsGrow(s1, es[1..], p);
      }
    }
  }

  lemma {:induction false} CallsGrow(s: Sys, es: seq<Event>, p: Params)
    requires CanRun(s, es, p)
    ensures s.calls <= Run(s, es, p).calls
    decreases |es|
  {
    if es == [] {
    } else {
      CallsGrow(Next(s, es[0], p), es[1..], p);
    }
  }

  /** Main result: a request that is not cancelled is answered by a call that starts
      within cooldown plus deadline (plus the lag of the two timers involved): as
      long as the run shows no new call, that much time has not yet passed. */
  lemma RequestIsServed(t0: real, before: seq<Event>, after: seq<Event>, p: Params)
    requires p.Valid() && CanRun(Start0(t0), before, p)
    requires var s := Run(Start0(t0), before, p);
             Enabled(s, Request, p) && CanRun(Next(s, Request, p), after, p)
    requires forall e | e in after :: NoCancel(e)
    ensures var s := Next(Run(Start0(t0), before, p), Request, p);
            var r := Run(s, after, p);
            r.calls == s.calls ==> r.now <= s.now + p.cooldown + p.deadline + 2.0 * p.lag
  {
    RunKeeps(Start0(t0), before, p);
    var s0 := Run(Start0(t0), before, p);
    StepKeeps(s0, Request, p);
    var s := Next(s0, Request, p);
    RequestStays(s, after, p);
    RunKeeps(s, after, p);
  }

  /** A call always serves a request: the work function never runs unasked. */
  lemma CallsServeRequests(t0: real, es: seq<Event>, e: Event, p: Params)
    requires p.Valid() && CanRun(Start0(t0), es, p)
    requires Enabled(Run(Start0(t0), es, p), e, p)
    ensures var s := Run(Start0(t0), es, p);
            Next(s, e, p).calls != s.calls ==> s.asked.Some?
  {
    RunKeeps(Start0(t0), es, p);
  }
}
