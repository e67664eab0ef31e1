/**
 The debounced connectivity status (src/blem/src/blem_connectivity_status.c).

 The status is put together from two tables and reported once it has been stable for
 the debounce period.  The timer repeats: it stays active when it expires, and its
 callback may be delivered late.
 */
module Debounce {
  import opened Options

  type Status = bv8

  const CLOUD: Status := 0x40
  const UNKNOWN: Status := 0x80

  predicate IsValid(s: Status) {
    s & UNKNOWN == 0
  }

  function Combine(cmu: Status, mgr: Status): Status {
    (if IsValid(cmu) then cmu & !CLOUD else 0) | (if IsValid(mgr) then mgr & CLOUD else 0)
  }

  /** All but the cloud flag come from the uplinks, the cloud flag from the manager. */
  lemma CombineTakesEachFlag(cmu: Status, mgr: Status)
    ensures IsValid(Combine(cmu, mgr)) && Combine(cmu, mgr) & 0x80 == 0
    ensures Combine(cmu, mgr) & 0x40 == if mgr & 0x80 == 0 then mgr & 0x40 else 0
    ensures Combine(cmu, mgr) & 0x3f == if cmu & 0x80 == 0 then cmu & 0x3f else 0
  {
  }

  /** `until` is the expiry time of an active timer. */
  datatype RepeatTimer = RepeatTimer(until: Option<real>, pending: bool)

  const STOPPED := RepeatTimer(None, false)

  datatype Report = Report(old_: Status, new_: Status, at: real, since: real)

  /** `since` is the time of the last change of the current status. */
  datatype D = D(current: Status, reported: Status, timer: RepeatTimer, since: real, now: real, log: seq<Report>)

  const START := D(UNKNOWN, UNKNOWN, STOPPED, 0.0, 0.0, [])

  function Updated(d: D, s: Status, period: real): D {
    if s == d.current then d
    else
      var e := d.(current := s, since := d.now);
      if s == d.reported then (if d.timer.until.Some? then e.(timer := STOPPED) else e)
      else if period > 0.0 then e.(timer := RepeatTimer(Some(d.now + period), false))
      else e.(timer := d.timer.(pending := true))
  }

  function Fired(d: D): D {
    var old_ := if IsValid(d.reported) then d.reported else 0;
    d.(timer := STOPPED, reported := d.current, log := d.log + [Report(old_, d.current, d.now, d.since)])
  }

  datatype Event = Update(cmu: Status, mgr: Status) | Pass(time: real) | Expire | Deliver

  predicate Enabled(d: D, e: Event) {
    match e
    case Update(_, _) => true
    case Pass(time) => time >= d.now
    case Expire => d.timer.until.Some? && d.timer.until.value <= d.now
    case Deliver => d.timer.pending
  }

  function Next(d: D, e: Event, period: real): D
    requires Enabled(d, e)
  {
    match e
    case Update(cmu, mgr) => Updated(d, Combine(cmu, mgr), period)
    case Pass(time) => d.(now := time)
    case Expire => d.(timer := RepeatTimer(Some(d.timer.until.value + period), true))
    case Deliver => Fired(d)
  }

  /** Each report starts from the one before, the first from zero; all but the first
      report a change; each value was stable for the period. */
  predicate Chained(log: seq<Report>, period: real) {
    && (log != [] ==> log[0].old_ == 0)
    && (forall i | 0 < i < |log| :: log[i].old_ == log[i - 1].new_ && log[i].old_ != log[i].new_)
    && (forall i | 0 <= i < |log| :: IsValid(log[i].new_) && log[i].at >= log[i].since + period)
  }

  /** The timer runs exactly while there is something to report. */
  predicate Waits(d: D, period: real) {
    && (d.timer.until.Some? <==> d.current != d.reported)
    && (d.timer.pending ==> d.timer.until.Some?)
    && (d.timer.until.Some? ==>
          if d.timer.pending then d.now >= d.since + period else d.timer.until.value == d.since + period)
  }

  predicate Inv(d: D, period: real) {
    && Waits(d, period) && Chained(d.log, period)
    && (if d.log == [] then d.reported == UNKNOWN else d.reported == d.log[|d.log| - 1].new_)
    && (IsValid(d.current) || (d.current == UNKNOWN && d.log == []))
  }

  lemma UpdateKeeps(d: D, s: Status, period: real)
    requires period > 0.0 && Inv(d, period) && IsValid(s)
    ensures Inv(Updated(d, s, period), period)
  {
    hide IsValid, Chained;
  }

  lemma FiredChains(d: D, period: real)
    requires Inv(d, period) && d.timer.pending
    ensures Chained(Fired(d).log, period) && IsValid(d.current)
  {
    var n := |d.log|;
    if n > 0 {
      assert d.reported == d.log[n - 1].new_ && IsValid(d.log[n - 1].new_);
    } else {
      assert !IsValid(UNKNOWN);
    }
    hide IsValid;
  }

  lemma StepKeeps(d: D, e: Event, period: real)
    requires period > 0.0 && Inv(d, period) && Enabled(d, e)
    ensures Inv(Next(d, e, period), period)
  {
    hide IsValid, Combine, Updated, Chained;
    match e
    case Update(cmu, mgr) =>
      CombineTakesEachFlag(cmu, mgr);
      UpdateKeeps(d, Combine(cmu, mgr), period);
    case Pass(_) =>
    case Expire =>
    case Deliver => FiredChains(d, period);
  }

  predicate CanRun(d: D, es: seq<Event>, period: real)
    decreases |es|
  {
    es == [] || (Enabled(d, es[0]) && CanRun(Next(d, es[0], period), es[1..], period))
  }

  function Run(d: D, es: seq<Event>, period: real): D
    requires CanRun(d, es, period)
    decreases |es|
  {
    if es == [] then d else Run(Next(d, es[0], period), es[1..], period)
  }

  lemma {:induction false} RunKeeps(d: D, es: seq<Event>, period: real)
    requires period > 0.0 && Inv(d, period) && CanRun(d, es, period)
    ensures Inv(Run(d, es, period), period)
    decreases |es|
  {
    if es == [] {
    } else {
      hide Inv, Next;
      StepKeeps(d, es[0], period);
      RunKeeps(Next(d, es[0], period), es[1..], period);
    }
  }

  /** Main result: in every run with a debounce period, the timer runs exactly while the
      status differs from the reported one, and the reports form a chain of values that
      were each stable for the whole period. */
  lemma ReportsInEveryRun(es: seq<Event>, period: real)
    requires period > 0.0 && CanRun(START, es, period)
    ensures var d := Run(START, es, period);
            && (d.timer.until.Some? <==> d.current != d.reported)
            && Chained(d.log, period)
            && (d.log != [] ==> d.reported == d.log[|d.log| - 1].new_)
  {
    RunKeeps(START, es, period);
  }

  lemma StepSees(d: D, e: Event, period: real)
    requires Enabled(d, e)
    ensures Next(d, e, period).current == if e.Update? then Combine(e.cmu, e.mgr) else d.current
  {
    hide Combine;
  }

  lemma {:induction false} StatusStays(d: D, es: seq<Event>, period: real)
    requires CanRun(d, es, period) && forall e | e in es :: !e.Update?
    ensures Run(d, es, period).current == d.current
    decreases |es|
  {
    hide Next, Combine;
    if es == [] {
    } else {
      StepSees(d, es[0], period);
      StatusStays(Next(d, es[0], period), es[1..], period);
    }
  }

  /** The status that waits to be reported is the one of the last update. */
  lemma {:induction false} LastUpdateCounts(d: D, es: seq<Event>, period: real, k: nat)
    requires CanRun(d, es, period) && k < |es| && es[k].Update?
    requires forall j | k < j < |es| :: !es[j].Update?
    ensures Run(d, es, period).current == Combine(es[k].cmu, es[k].mgr)
    decreases |es|
  {
    hide Next, Combine;
    if k == 0 {
      StepSees(d, es[0], period);
      StatusStays(Next(d, es[0], period), es[1..], period);
    } else {
      LastUpdateCounts(Next(d, es[0], period), es[1..], period, k - 1);
    }
  }

  /** Main result: with a debounce period, a run that leaves no timer running has reported
      the status of its last update, in whatever way the status changed before. */
  lemma RestMeansReported(es: seq<Event>, period: real, k: nat)
    requires period > 0.0 && CanRun(START, es, period) && k < |es| && es[k].Update?
    requires forall j | k < j < |es| :: !es[j].Update?
    requires Run(START, es, period).timer.until.None?
    ensures var d := Run(START, es, period);
            d.log != [] && d.log[|d.log| - 1].new_ == Combine(es[k].cmu, es[k].mgr)
  {
    hide Combine, Run, CanRun, IsValid;
    RunKeepsStart(es, period);
    LastUpdateCounts(START, es, period, k);
    CombineTakesEachFlag(es[k].cmu, es[k].mgr);
    UnknownIsNotValid();
  }

  lemma UnknownIsNotValid()
    ensures !IsValid(UNKNOWN)
  {
  }

  lemma RunKeepsStart(es: seq<Event>, period: real)
    requires period > 0.0 && CanRun(START, es, period)
    ensures Inv(Run(START, es, period), period)
  {
    RunKeeps(START, es, period);
  }

  /** Without a debounce period a fed event is not taken back, and a report may repeat the
      value before it. */
  lemma RepeatsWithoutPeriod()
    ensures var es := [Update(1, 0), Deliver, Update(2, 0), Update(1, 0), Deliver];
            && CanRun(START, es, 0.0)
            && var log := Run(START, es, 0.0).log;
               |log| == 2 && log[1].old_ == log[1].new_ == 1
  {
    var d1 := Next(START, Update(1, 0), 0.0);
    var d2 := Next(d1, Deliver, 0.0);
    var d3 := Next(d2, Update(2, 0), 0.0);
    var d4 := Next(d3, Update(1, 0), 0.0);
    var d5 := Next(d4, Deliver, 0.0);
    assert Combine(1, 0) == 1 && Combine(2, 0) == 2;
    var es := [Update(1, 0), Deliver, Update(2, 0), Update(1, 0), Deliver];
    assert es[1..] == [Deliver, Update(2, 0), Update(1, 0), Deliver];
    assert es[1..][1..] == [Update(2, 0), Update(1, 0), Deliver];
    assert es[1..][1..][1..] == [Update(1, 0), Deliver];
    assert es[1..][1..][1..][1..] == [Deliver];
    assert es[1..][1..][1..][1..][1..] == [];
    assert CanRun(d5, [], 0.0) && Run(d5, [], 0.0) == d5;
    assert CanRun(d4, [Deliver], 0.0) && Run(d4, [Deliver], 0.0) == d5;
    assert CanRun(d3, [Update(1, 0), Deliver], 0.0) && Run(d3, [Update(1, 0), Deliver], 0.0) == d5;
  }

  predicate ReportsChange(log: seq<Report>) {
    forall i | 0 < i < |log| :: log[i].old_ != log[i].new_
  }

  ghost predicate AlwaysReportsChange(period: real) {
    forall es: seq<Event> :: CanRun(START, es, period) ==> ReportsChange(Run(START, es, period).log)
  }

  /** Main result: every report but the first is a change in all runs exactly when there
      is a debounce period. */
  lemma ChangesExactly(period: real)
    requires period >= 0.0
    ensures AlwaysReportsChange(period) <==> period > 0.0
  {
    if period > 0.0 {
      forall es: seq<Event> | CanRun(START, es, period) ensures ReportsChange(Run(START, es, period).log) {
        ReportsInEveryRun(es, period);
      }
    } else {
      RepeatsWithoutPeriod();
      var es := [Update(1, 0), Deliver, Update(2, 0), Update(1, 0), Deliver];
      assert !ReportsChange(Run(START, es, 0.0).log);
    }
  }

  // ---- The status as the source keeps it ----

  class Monitor {
    const period: real
    var cmu: Status
    var mgr: Status
    var current: Status
    var reported: Status
    var timer: RepeatTimer
    ghost var since: real
    ghost var log: seq<Report>

    ghost function Value(now: real): D
      reads this
    {
      D(current, reported, timer, since, now, log)
    }

    constructor (period: real)
      ensures this.period == period && Value(0.0) == START && cmu == mgr == UNKNOWN
    {
      this.period := period;
      cmu, mgr, current, reported, timer := UNKNOWN, UNKNOWN, UNKNOWN, UNKNOWN, STOPPED;
      since, log := 0.0, [];
    }

    method Compose() returns (s: Status)
      ensures s == Combine(cmu, mgr)
    {
      s := 0;
      if IsValid(cmu) { s := s | (cmu & !CLOUD); }
      if IsValid(mgr) { s := s | (mgr & CLOUD); }
    }

    method UpdateStatus(now: real)
      modifies this`current, this`timer, this`since
      ensures Value(now) == Updated(old(Value(now)), Combine(cmu, mgr), period)
    {
      hide Combine, Updated;
      var s := Compose();
      SetStatus(s, now);
    }

    method SetStatus(s: Status, now: real)
      modifies this`current, this`timer, this`since
      ensures Value(now) == Updated(old(Value(now)), s, period)
    {
      if s == current { return; }
      current := s;
      since := now;
      if s == reported {
        if timer.until.Some? { timer := STOPPED; }
        return;
      }
      if period > 0.0 {
        timer := RepeatTimer(Some(now + period), false);
      } else {
        timer := timer.(pending := true);
      }
    }

    /** The arguments of the callback are the outcome. */
    method TimerCallback(now: real) returns (old_: Status, new_: Status)
      modifies this`timer, this`reported, this`log
      ensures Value(now) == Fired(old(Value(now)))
      ensures log == old(log) + [Report(old_, new_, now, since)]
    {
      timer := STOPPED;
      old_, new_ := if IsValid(reported) then reported else 0, current;
      reported := current;
      log := log + [Report(old_, new_, now, since)];
    }
  }
}
