/**
 The reconciler that keeps one row of the Connection_Manager_Uplink table in step
 with the Wi-Fi reports (src/cm2/src/cm2_bh_cmu.c).

 The table lives in another process: writes take effect at once, but the object
 learns about them from a queue of monitor updates that may be delivered late.
 */
module Cmu {
  import opened Options
  import opened Watchers
  import W = Work
  import S = Scheduler

  datatype Inputs =
    | Vif(sta: bool, fourAddr: bool, mld: bool, active: bool)
    | Gre(configured: bool, parentActive: bool, active: bool)

  predicate WantsRow(i: Inputs) {
    match i
    case Vif(sta, fourAddr, mld, _) => sta && fourAddr && !mld
    case Gre(configured, _, _) => configured
  }

  /** has_L2 and has_L3 are derived alike. */
  predicate WantsLink(i: Inputs) {
    WantsRow(i) && i.active
  }

  datatype Row = Row(hasL2: bool, hasL3: bool)

  datatype Echo = Inserted(row: Row) | L2Set(v: bool) | L3Set(v: bool) | Deleted

  datatype Report = Report(exists_: bool, hasL2: bool, hasL3: bool)

  datatype State = State(
    input: Inputs, needDelete: bool, work: bool, report: Report, row: Option<Row>, queue: seq<Echo>)

  // ---- Writes to the table ----

  /** The outcome of an insertion is up to the database server. */
  function Insert(s: State, row: Row, ok: bool): State {
    if ok && s.row.None? then s.(row := Some(row), queue := s.queue + [Inserted(row)]) else s
  }

  /** An update that changes no column is not echoed. */
  function SetL2(s: State, v: bool): State {
    if s.row.None? || s.row.value.hasL2 == v then s
    else s.(row := Some(s.row.value.(hasL2 := v)), queue := s.queue + [L2Set(v)])
  }

  function SetL3(s: State, v: bool): State {
    if s.row.None? || s.row.value.hasL3 == v then s
    else s.(row := Some(s.row.value.(hasL3 := v)), queue := s.queue + [L3Set(v)])
  }

  function Delete(s: State): State {
    if s.row.None? then s else s.(row := None, queue := s.queue + [Deleted])
  }

  // ---- Reports ----

  function Reported(s: State, r: Report): State {
    if s.report == r then s else s.(report := r, work := true)
  }

  function Heard(r: Report, e: Echo): Report {
    match e
    case Inserted(row) => Report(true, row.hasL2, row.hasL3)
    case L2Set(v) => r.(hasL2 := v)
    case L3Set(v) => r.(hasL3 := v)
    case Deleted => Report(false, false, false)
  }

  function Deliver(s: State): State
    requires s.queue != []
  {
    Reported(s.(queue := s.queue[1..]), Heard(s.report, s.queue[0]))
  }

  /** A link that goes down also asks for the row to be removed once. */
  predicate LinkLost(old_: Inputs, new_: Inputs) {
    || (old_.active && !new_.active)
    || (old_.Gre? && new_.Gre? && old_.parentActive && !new_.parentActive)
  }

  function InputChanged(s: State, i: Inputs): State {
    if s.input == i then s else s.(input := i, needDelete := s.needDelete || LinkLost(s.input, i), work := true)
  }

  // ---- The recalculation ----

  function AfterInsert(s: State, ok: bool): State {
    var w := WantsLink(s.input);
    if WantsRow(s.input) && !s.report.exists_ then
      var s1 := Insert(s.(needDelete := false), Row(w, w), ok);
      if ok then s1.(report := s.report.(exists_ := true), work := true) else s1
    else s
  }

  /** `before` is the report that the recalculation compared with. */
  function AfterUpdate(s: State, before: Report): State {
    var w := WantsLink(s.input);
    if !s.report.exists_ then s else
      var s1 := if before.hasL2 != w then SetL2(s, w) else s;
      if before.hasL3 != w then SetL3(s1, w) else s1
  }

  function AfterDelete(s: State, before: Report): State {
    if (before.exists_ && !WantsRow(s.input)) || (s.report.exists_ && s.needDelete)
    then Delete(s.(needDelete := false)).(work := true)
    else s
  }

  function Pass(s: State, ok: bool): State {
    AfterDelete(AfterUpdate(AfterInsert(s.(work := false), ok), s.report), s.report)
  }

  // ---- The object as the source keeps it ----

  const P: W.Params := W.Params(3.0, 3.0, 0.0)

  class Table {
    var row: Option<Row>
    var queue: seq<Echo>

    constructor ()
      ensures row == None && queue == []
    {
      row, queue := None, [];
    }

    method Insert(r: Row, ok: bool)
      modifies this
      ensures if ok && old(row).None? then row == Some(r) && queue == old(queue) + [Inserted(r)]
              else row == old(row) && queue == old(queue)
    {
      if ok && row.None? {
        row, queue := Some(r), queue + [Inserted(r)];
      }
    }

    method SetHasL2(v: bool)
      modifies this
      ensures if old(row).None? || old(row).value.hasL2 == v then row == old(row) && queue == old(queue)
              else row == Some(old(row).value.(hasL2 := v)) && queue == old(queue) + [L2Set(v)]
    {
      if row.Some? && row.value.hasL2 != v {
        row, queue := Some(row.value.(hasL2 := v)), queue + [L2Set(v)];
      }
    }

    method SetHasL3(v: bool)
      modifies this
      ensures if old(row).None? || old(row).value.hasL3 == v then row == old(row) && queue == old(queue)
              else row == Some(old(row).value.(hasL3 := v)) && queue == old(queue) + [L3Set(v)]
    {
      if row.Some? && row.value.hasL3 != v {
        row, queue := Some(row.value.(hasL3 := v)), queue + [L3Set(v)];
      }
    }

    method Delete()
      modifies this
      ensures row == None && queue == if old(row).None? then old(queue) else old(queue) + [Deleted]
    {
      if row.Some? {
        row, queue := None, queue + [Deleted];
      }
    }
  }

  class Reconciler {
    const table: Table
    var input: Inputs
    var needDelete: bool
    var work: bool
    var report: Report
    var idleActive: bool
    var deadline: Timer
    var backoff: Timer

    function Value(): State
      reads this, table
    {
      State(input, needDelete, work, report, table.row, table.queue)
    }

    function Watchers(): S.Sched
      reads this
    {
      S.Sched(work, idleActive, deadline, backoff)
    }

    constructor (table: Table, input: Inputs)
      ensures this.table == table && Watchers() == S.Fresh
      ensures Value() == State(input, false, false, Report(false, false, false), table.row, table.queue)
    {
      this.table, this.input := table, input;
      needDelete, work, report := false, false, Report(false, false, false);
      idleActive, deadline, backoff := false, Stopped, Stopped;
    }

    method RecalcArm(now: real)
      modifies this
      ensures Value() == old(Value())
      ensures Watchers() == S.Armed(old(Watchers()), now, P)
    {
      if deadline.armed.None? {
        idleActive := true;
        deadline := deadline.(armed := Some(now + P.deadline));
      }
      idleActive := true;
    }

    method Schedule(now: real)
      modifies this
      ensures Value() == old(Value()).(work := true)
      ensures Watchers() == S.Requested(old(Watchers()), now, P)
    {
      work := true;
      RecalcArm(now);
    }

    method ReportExists(v: bool, now: real)
      modifies this
      ensures Value() == Reported(old(Value()), old(report).(exists_ := v))
      ensures Watchers() ==
              if old(report).exists_ == v then old(Watchers()) else S.Requested(old(Watchers()), now, P)
    {
      if report.exists_ == v { return; }
      report := report.(exists_ := v);
      Schedule(now);
    }

    method ReportHasL2(v: bool, now: real)
      modifies this
      ensures Value() == Reported(old(Value()), old(report).(hasL2 := v))
      ensures Watchers() ==
              if old(report).hasL2 == v then old(Watchers()) else S.Requested(old(Watchers()), now, P)
    {
      if report.hasL2 == v { return; }
      report := report.(hasL2 := v);
      Schedule(now);
    }

    method ReportHasL3(v: bool, now: real)
      modifies this
      ensures Value() == Reported(old(Value()), old(report).(hasL3 := v))
      ensures Watchers() ==
              if old(report).hasL3 == v then old(Watchers()) else S.Requested(old(Watchers()), now, P)
    {
      if report.hasL3 == v { return; }
      report := report.(hasL3 := v);
      Schedule(now);
    }

    method SetNeedDelete(v: bool, now: real)
      modifies this
      ensures Value() == if v && !old(needDelete) then old(Value()).(needDelete := true, work := true) else old(Value())
      ensures Watchers() == if v && !old(needDelete) then S.Requested(old(Watchers()), now, P) else old(Watchers())
    {
      if needDelete == v { return; }
      if !v { return; }
      needDelete := v;
      Schedule(now);
    }

    /** The port state of the link, reported by Wifi_Master_State. */
    method ReportActive(v: bool, now: real)
      modifies this
      ensures Value() == InputChanged(old(Value()), old(input).(active := v))
      ensures Watchers() == if old(input).active == v then old(Watchers()) else S.Requested(old(Watchers()), now, P)
    {
      if input.active == v { return; }
      input := input.(active := v);
      SetNeedDelete(v == false, now);
      Schedule(now);
    }

    /** The port state of the interface that carries the tunnel. */
    method ReportParentActive(v: bool, now: real)
      requires input.Gre?
      modifies this
      ensures Value() == InputChanged(old(Value()), old(input).(parentActive := v))
      ensures Watchers() ==
              if old(input).parentActive == v then old(Watchers()) else S.Requested(old(Watchers()), now, P)
    {
      if input.parentActive == v { return; }
      input := input.(parentActive := v);
      SetNeedDelete(v == false, now);
      Schedule(now);
    }

    // The station and tunnel reports that decide whether the row is wanted.

    method ReportSta(v: bool, now: real)
      requires input.Vif?
      modifies this
      ensures Value() == InputChanged(old(Value()), old(input).(sta := v))
      ensures Watchers() == if old(input).sta == v then old(Watchers()) else S.Requested(old(Watchers()), now, P)
    {
      if input.sta == v { return; }
      input := input.(sta := v);
      Schedule(now);
    }

    method Report4Addr(v: bool, now: real)
      requires input.Vif?
      modifies this
      ensures Value() == InputChanged(old(Value()), old(input).(fourAddr := v))
      ensures Watchers() == if old(input).fourAddr == v then old(Watchers()) else S.Requested(old(Watchers()), now, P)
    {
      if input.fourAddr == v { return; }
      input := input.(fourAddr := v);
      Schedule(now);
    }

    method ReportMld(v: bool, now: real)
      requires input.Vif?
      modifies this
      ensures Value() == InputChanged(old(Value()), old(input).(mld := v))
      ensures Watchers() == if old(input).mld == v then old(Watchers()) else S.Requested(old(Watchers()), now, P)
    {
      if input.mld == v { return; }
      input := input.(mld := v);
      Schedule(now);
    }

    method ReportConfigured(v: bool, now: real)
      requires input.Gre?
      modifies this
      ensures Value() == InputChanged(old(Value()), old(input).(configured := v))
      ensures Watchers() == if old(input).configured == v then old(Watchers()) else S.Requested(old(Watchers()), now, P)
    {
      if input.configured == v { return; }
      input := input.(configured := v);
      Schedule(now);
    }

    /** The monitor callback for the row, fed with the oldest undelivered update. */
    method CmuCallback(now: real)
      requires table.queue != []
      modifies this, table
      ensures Value() == Deliver(old(Value()))
      ensures Watchers() ==
              if Value().report == old(report) then old(Watchers()) else S.Requested(old(Watchers()), now, P)
    {
      var e := table.queue[0];
      table.queue := table.queue[1..];
      match e {
        case Inserted(row) =>
          ReportHasL2(row.hasL2, now);
          ReportHasL3(row.hasL3, now);
          ReportExists(true, now);
        case L2Set(v) => ReportHasL2(v, now);
        case L3Set(v) => ReportHasL3(v, now);
        case Deleted =>
          ReportHasL2(false, now);
          ReportHasL3(false, now);
          ReportExists(false, now);
      }
    }

    method InsertWanted(ok: bool, now: real)
      modifies this, table
      ensures Value() == AfterInsert(old(Value()), ok)
      ensures Watchers() == if ok && WantsRow(input) && !old(report).exists_
                            then S.Requested(old(Watchers()), now, P) else old(Watchers())
    {
      var w := WantsLink(input);
      if WantsRow(input) && !report.exists_ {
        needDelete := false;
        table.Insert(Row(w, w), ok);
        if ok { ReportExists(true, now); }
      }
    }

    method UpdateFlags(l2Changed: bool, l3Changed: bool, ghost before: Report)
      requires l2Changed == (WantsLink(input) != before.hasL2)
      requires l3Changed == (WantsLink(input) != before.hasL3)
      modifies table
      ensures Value() == AfterUpdate(old(Value()), before)
    {
      if report.exists_ {
        if l2Changed { table.SetHasL2(WantsLink(input)); }
        if l3Changed { table.SetHasL3(WantsLink(input)); }
      }
    }

    method DeleteUnwanted(rowChanged: bool, now: real, ghost before: Report)
      requires rowChanged == (WantsRow(input) != before.exists_)
      modifies this, table
      ensures Value() == AfterDelete(old(Value()), before)
      ensures Watchers() == if (before.exists_ && !WantsRow(input)) || (report.exists_ && old(needDelete))
                            then S.Requested(old(Watchers()), now, P) else old(Watchers())
    {
      if (rowChanged && !WantsRow(input)) || (report.exists_ && needDelete) {
        needDelete := false;
        table.Delete();
        Schedule(now);
      }
    }

    method Recalc(ok: bool, now: real)
      modifies this, table
      ensures Value() == if S.MayRun(old(Watchers())) then Pass(old(Value()), ok) else old(Value())
      ensures Watchers() == S.Recalculated(old(Watchers()), Pass(old(Value()), ok).work, now, P)
    {
      if !work { return; }
      if backoff.armed.Some? { return; }
      work := false;
      backoff := backoff.(armed := Some(now + P.cooldown));

      var rowChanged := WantsRow(input) != report.exists_;
      var l2Changed := WantsLink(input) != report.hasL2;
      var l3Changed := WantsLink(input) != report.hasL3;
      ghost var before := report;
      hide Insert, SetL2, SetL3, Delete;
      InsertWanted(ok, now);
      UpdateFlags(l2Changed, l3Changed, before);
      DeleteUnwanted(rowChanged, now, before);
    }

    method RecalcCb(ok: bool, now: real)
      modifies this, table
      ensures Value() == if S.MayRun(old(Watchers())) then Pass(old(Value()), ok) else old(Value())
      ensures Watchers() == S.IdleFired(old(Watchers()), Pass(old(Value()), ok).work, now, P)
    {
      idleActive := false;
      deadline := Stopped;
      Recalc(ok, now);
    }

    method DeadlineCb(ok: bool, now: real)
      modifies this, table
      ensures Value() == if S.MayRun(old(Watchers())) then Pass(old(Value()), ok) else old(Value())
      ensures Watchers() == S.DeadlineFired(old(Watchers()), Pass(old(Value()), ok).work, now, P)
    {
      deadline := deadline.(pending := None);
      Recalc(ok, now);
    }

    method BackoffCb(now: real)
      modifies this
      ensures Value() == old(Value())
      ensures Watchers() == S.BackoffFired(old(Watchers()), now, P)
    {
      backoff := backoff.(pending := None);
      RecalcArm(now);
    }
  }

  // ---- What every step keeps ----

  function Replay(r: Report, q: seq<Echo>): Report
    decreases |q|
  {
    if q == [] then r else Replay(Heard(r, q[0]), q[1..])
  }

  function AsReport(row: Option<Row>): Report {
    match row
    case None => Report(false, false, false)
    case Some(r) => Report(true, r.hasL2, r.hasL3)
  }

  predicate OnlyLastDeletes(q: seq<Echo>) {
    forall i | 0 <= i < |q| - 1 :: !q[i].Deleted?
  }

  /** Delivering everything that is queued would make the report tell the truth,
      and an object that believes its row is gone has nothing left to hear. */
  predicate Faithful(s: State) {
    && Replay(s.report, s.queue) == AsReport(s.row)
    && (!s.report.exists_ ==> s.queue == [])
    && OnlyLastDeletes(s.queue)
  }

  /** An object that is not waiting to run has nothing to do until it hears more. */
  predicate AtRest(s: State) {
    && s.report.exists_ == WantsRow(s.input)
    && !(s.report.exists_ && s.needDelete)
    && (s.row.Some? ==>
          var w := WantsLink(s.input);
          && (s.report.hasL2 == w || s.row.value.hasL2 == w)
          && (s.report.hasL3 == w || s.row.value.hasL3 == w))
  }

  predicate Inv(s: State) {
    Faithful(s) && (s.work || AtRest(s))
  }

  lemma {:induction false} ReplayConcat(r: Report, q: seq<Echo>, e: Echo)
    ensures Replay(r, q + [e]) == Heard(Replay(r, q), e)
    decreases |q|
  {
    if q == [] {
      assert (q + [e])[1..] == [];
    } else {
      assert (q + [e])[1..] == q[1..] + [e];
      ReplayConcat(Heard(r, q[0]), q[1..], e);
    }
  }

  /** While the row is there, no deletion is on its way. */
  lemma {:induction false} DeletionOnItsWay(r: Report, q: seq<Echo>)
    requires OnlyLastDeletes(q) && r.exists_
    ensures Replay(r, q).exists_ <==> (q == [] || !q[|q| - 1].Deleted?)
    decreases |q|
  {
    if q == [] {
    } else {
      if |q| == 1 {
        assert q[1..] == [];
      } else {
        assert !q[0].Deleted?;
        DeletionOnItsWay(Heard(r, q[0]), q[1..]);
      }
    }
  }

  lemma InsertKeeps(s: State, ok: bool)
    requires Faithful(s)
    ensures Faithful(AfterInsert(s, ok))
  {
    var w := Row(WantsLink(s.input), WantsLink(s.input));
    ReplayConcat(s.report, s.queue, Inserted(w));
    if ok && WantsRow(s.input) && !s.report.exists_ {
      var s1 := AfterInsert(s, ok);
      assert s1.queue == [Inserted(w)] && s1.queue[1..] == [];
    }
  }

  lemma SetL2Keeps(s: State, v: bool)
    requires Faithful(s) && s.report.exists_
    ensures Faithful(SetL2(s, v))
  {
    DeletionOnItsWay(s.report, s.queue);
    ReplayConcat(s.report, s.queue, L2Set(v));
  }

  lemma SetL3Keeps(s: State, v: bool)
    requires Faithful(s) && s.report.exists_
    ensures Faithful(SetL3(s, v))
  {
    DeletionOnItsWay(s.report, s.queue);
    ReplayConcat(s.report, s.queue, L3Set(v));
  }

  lemma UpdateKeeps(s: State, before: Report)
    requires Faithful(s)
    ensures Faithful(AfterUpdate(s, before))
  {
    if s.report.exists_ {
      var w := WantsLink(s.input);
      SetL2Keeps(s, w);
      SetL3Keeps(if before.hasL2 != w then SetL2(s, w) else s, w);
    }
  }

  lemma DeleteKeeps(s: State, before: Report)
    requires Faithful(s)
    ensures Faithful(AfterDelete(s, before))
  {
    if s.report.exists_ {
      DeletionOnItsWay(s.report, s.queue);
    }
    ReplayConcat(s.report, s.queue, Deleted);
  }

  lemma PassKeeps(s: State)
    requires Inv(s)
    ensures Inv(Pass(s, true))
  {
    var s0 := s.(work := false);
    InsertKeeps(s0, true);
    var s1 := AfterInsert(s0, true);
    UpdateKeeps(s1, s.report);
    DeleteKeeps(AfterUpdate(s1, s.report), s.report);
  }

  lemma DeliverKeeps(s: State)
    requires Inv(s) && s.queue != []
    ensures Inv(Deliver(s))
  {
    if s.queue[0].Deleted? {
      assert |s.queue| == 1;
    }
  }

  lemma InputKeeps(s: State, i: Inputs)
    requires Inv(s)
    ensures Inv(InputChanged(s, i))
  {
  }

  // ---- Convergence ----

  datatype Step = DoPass | DoDeliver | Change(i: Inputs)

  predicate Enabled(s: State, st: Step) {
    match st
    case DoPass => s.work
    case DoDeliver => s.queue != []
    case Change(i) => i.Vif? == s.input.Vif?
  }

  /** Insertions are granted. */
  function Next(s: State, st: Step): State
    requires Enabled(s, st)
  {
    match st
    case DoPass => Pass(s, true)
    case DoDeliver => Deliver(s)
    case Change(i) => InputChanged(s, i)
  }

  predicate CanRun(s: State, sts: seq<Step>)
    decreases |sts|
  {
    sts == [] || (Enabled(s, sts[0]) && CanRun(Next(s, sts[0]), sts[1..]))
  }

  function Run(s: State, sts: seq<Step>): State
    requires CanRun(s, sts)
    decreases |sts|
  {
    if sts == [] then s else Run(Next(s, sts[0]), sts[1..])
  }

  lemma StepKeeps(s: State, st: Step)
    requires Inv(s) && Enabled(s, st)
    ensures Inv(Next(s, st))
  {
    match st
    case DoPass => PassKeeps(s);
    case DoDeliver => DeliverKeeps(s);
    case Change(i) => InputKeeps(s, i);
  }

  lemma {:induction false} RunKeeps(s: State, sts: seq<Step>)
    requires Inv(s) && CanRun(s, sts)
    ensures Inv(Run(s, sts))
    decreases |sts|
  {
    if sts == [] {
    } else {
      StepKeeps(s, sts[0]);
      RunKeeps(Next(s, sts[0]), sts[1..]);
    }
  }

  /** The steps of a run that change anything. */
  function Changes(s: State, sts: seq<Step>): nat
    requires CanRun(s, sts)
    decreases |sts|
  {
    if sts == [] then 0
    else (if Next(s, sts[0]) == s then 0 else 1) + Changes(Next(s, sts[0]), sts[1..])
  }

  predicate Quiet(s: State) {
    !s.work && s.queue == []
  }

  predicate Converged(s: State) {
    s.row == if WantsRow(s.input) then Some(Row(WantsLink(s.input), WantsLink(s.input))) else None
  }

  function Bit(b: bool): nat {
    if b then 1 else 0
  }

  /** How many insertions and deletions are still to come. */
  function Rebuilds(s: State): nat {
    if WantsRow(s.input) && s.row.None? then 1 + Bit(s.needDelete)
    else if WantsRow(s.input) then 2 * Bit(s.needDelete)
    else Bit(s.row.Some?) + Bit(s.needDelete)
  }

  function Stale(s: State): nat {
    match s.row
    case None => 0
    case Some(r) => Bit(r.hasL2 != WantsLink(s.input)) + Bit(r.hasL3 != WantsLink(s.input))
  }

  function Measure(s: State): nat {
    7 * Rebuilds(s) + 3 * Stale(s) + 2 * |s.queue| + Bit(s.work)
  }

  lemma UpdateProgresses(s: State, before: Report)
    ensures var t := AfterUpdate(s, before);
            && t == s.(row := t.row, queue := t.queue)
            && t.row.Some? == s.row.Some?
            && |s.queue| <= |t.queue| <= |s.queue| + 2
            && 3 * Stale(t) + 2 * |t.queue| <= 3 * Stale(s) + 2 * |s.queue|
            && (t.queue == s.queue ==> t == s)
  {
  }

  lemma PassProgresses(s: State)
    requires Inv(s) && s.work
    ensures Pass(s, true) == s || Measure(Pass(s, true)) < Measure(s)
  {
    var s1 := AfterInsert(s.(work := false), true);
    UpdateProgresses(s1, s.report);
    if s.report.exists_ {
      DeletionOnItsWay(s.report, s.queue);
    }
  }

  lemma DeliverProgresses(s: State)
    requires Inv(s) && s.queue != []
    ensures Measure(Deliver(s)) < Measure(s)
  {
  }

  lemma StepProgresses(s: State, st: Step)
    requires Inv(s) && Enabled(s, st) && !st.Change?
    ensures Next(s, st).input == s.input
    ensures Next(s, st) == s || Measure(Next(s, st)) < Measure(s)
  {
    if st.DoPass? {
      PassProgresses(s);
    } else {
      DeliverProgresses(s);
    }
  }

  /** Main result: with the inputs at rest, at most `Measure` steps change anything,
      in whatever order passes and echoes come; that is 21 and two per queued echo. */
  lemma {:induction false} ChangesAreBounded(s: State, sts: seq<Step>)
    requires Inv(s) && CanRun(s, sts)
    requires forall st | st in sts :: !st.Change?
    ensures Run(s, sts).input == s.input
    ensures Changes(s, sts) + Measure(Run(s, sts)) <= Measure(s) <= 21 + 2 * |s.queue|
    decreases |sts|
  {
    if sts == [] {
    } else {
      var t := Next(s, sts[0]);
      StepKeeps(s, sts[0]);
      StepProgresses(s, sts[0]);
      assert Changes(s, sts) == (if t == s then 0 else 1) + Changes(t, sts[1..]);
      ChangesAreBounded(t, sts[1..]);
    }
  }

  /** A pass that changes nothing is one that waits for the echo of a deletion. */
  lemma IdlePassAwaitsDeletion(s: State)
    requires Inv(s) && s.work && Pass(s, true) == s
    ensures s.queue != [] && s.queue[|s.queue| - 1].Deleted? && !WantsRow(s.input)
  {
    if s.report.exists_ {
      DeletionOnItsWay(s.report, s.queue);
    }
  }

  /** Main result: from every state some run without new reports comes to rest, within as
      many steps as the measure says; by `ChangesAreBounded` no run can keep changing
      things longer than that. */
  lemma {:induction false} Settles(s: State) returns (sts: seq<Step>)
    requires Inv(s)
    ensures CanRun(s, sts) && |sts| <= Measure(s) && Quiet(Run(s, sts))
    ensures forall st | st in sts :: !st.Change?
    decreases Measure(s)
  {
    hide Next, Inv, Measure;
    if Quiet(s) {
      sts := [];
    } else {
      if s.work && Pass(s, true) == s {
        IdlePassAwaitsDeletion(s);
      }
      var st := if s.work && Pass(s, true) != s then DoPass else DoDeliver;
      StepMoves(s, st);
      StepKeeps(s, st);
      var rest := Settles(Next(s, st));
      sts := [st] + rest;
      assert sts[1..] == rest;
    }
  }

  /** A pass that changes something and every delivery lower the measure. */
  lemma StepMoves(s: State, st: Step)
    requires Inv(s) && Enabled(s, st)
    requires st.DoDeliver? || (st.DoPass? && Pass(s, true) != s)
    ensures Measure(Next(s, st)) < Measure(s)
  {
    if st.DoPass? {
      PassProgresses(s);
    } else {
      DeliverProgresses(s);
    }
  }

  /** A freshly allocated object, after the rows of earlier lives have been flushed. */
  predicate Initial(s: State) {
    && s == State(s.input, false, false, Report(false, false, false), None, [])
    && (s.input == Vif(false, false, false, false) || s.input == Gre(false, false, false))
  }

  /** Main result: in every run from allocation, with inputs changing at any time, whenever
      all is quiet the row exists exactly for a four-address station outside a multi-link
      device, or for a configured tunnel, and both its flags say whether the link is up. */
  lemma QuietMeansConverged(s: State, sts: seq<Step>)
    requires Initial(s) && CanRun(s, sts) && Quiet(Run(s, sts))
    ensures var t := Run(s, sts);
            && Converged(t)
            && match t.input
               case Vif(sta, fourAddr, mld, active) =>
                 t.row == if sta && fourAddr && !mld then Some(Row(active, active)) else None
               case Gre(configured, _, active) =>
                 t.row == if configured then Some(Row(active, active)) else None
  {
    RunKeeps(s, sts);
  }

  lemma WritesRecordNothing(s: State, ok: bool, before: Report)
    ensures AfterInsert(s, ok).input == AfterUpdate(s, before).input == AfterDelete(s, before).input == s.input
  {
  }

  /** A report is recorded as it comes, and nothing else changes what is recorded. */
  lemma StepRecords(s: State, st: Step)
    requires Enabled(s, st)
    ensures Next(s, st).input == if st.Change? then st.i else s.input
  {
    hide AfterInsert, AfterUpdate, AfterDelete;
    var s1 := AfterInsert(s.(work := false), true);
    WritesRecordNothing(s.(work := false), true, s.report);
    WritesRecordNothing(s1, true, s.report);
    WritesRecordNothing(AfterUpdate(s1, s.report), true, s.report);
  }

  lemma {:induction false} InputStays(s: State, sts: seq<Step>)
    requires CanRun(s, sts) && forall st | st in sts :: !st.Change?
    ensures Run(s, sts).input == s.input
    decreases |sts|
  {
    hide Next;
    if sts == [] {
    } else {
      StepRecords(s, sts[0]);
      InputStays(Next(s, sts[0]), sts[1..]);
    }
  }

  /** What is recorded is the last report. */
  lemma {:induction false} LastReportRecorded(s: State, sts: seq<Step>, k: nat)
    requires CanRun(s, sts) && k < |sts| && sts[k].Change?
    requires forall j | k < j < |sts| :: !sts[j].Change?
    ensures Run(s, sts).input == sts[k].i
    decreases |sts|
  {
    hide Next;
    if k == 0 {
      StepRecords(s, sts[0]);
      InputStays(Next(s, sts[0]), sts[1..]);
    } else {
      LastReportRecorded(Next(s, sts[0]), sts[1..], k - 1);
    }
  }

  /** Main result: once all is quiet the row is the one that the last report asks for,
      whatever the reports before it were. */
  lemma RowFollowsLastReport(s: State, sts: seq<Step>, k: nat)
    requires Initial(s) && CanRun(s, sts) && Quiet(Run(s, sts)) && k < |sts| && sts[k].Change?
    requires forall j | k < j < |sts| :: !sts[j].Change?
    ensures var row := Run(s, sts).row;
            match sts[k].i
            case Vif(sta, fourAddr, mld, active) =>
              row == if sta && fourAddr && !mld then Some(Row(active, active)) else None
            case Gre(configured, _, active) =>
              row == if configured then Some(Row(active, active)) else None
  {
    hide Run, CanRun, Initial;
    LastReportRecorded(s, sts, k);
    QuietMeansConverged(s, sts);
  }

  /** Main result: a link loss is never swallowed: before the object comes to rest the
      row has been taken away, even if the link came back in the meantime. */
  lemma {:induction false} LostLinkRemovesRow(s: State, sts: seq<Step>)
    requires Inv(s) && s.needDelete && s.row.Some? && CanRun(s, sts) && Quiet(Run(s, sts))
    ensures exists k :: 0 <= k <= |sts| && CanRun(s, sts[..k]) && Run(s, sts[..k]).row.None?
    decreases |sts|
  {
    assert s.queue == [] ==> Replay(s.report, s.queue) == s.report;
    if sts == [] {
    } else {
      var s1 := Next(s, sts[0]);
      StepKeeps(s, sts[0]);
      if s1.row.None? {
        var k := 1;
        assert sts[..k] == [sts[0]] && sts[..k][1..] == [];
        assert CanRun(s1, sts[..k][1..]) && Run(s1, sts[..k][1..]) == s1;
        assert CanRun(s, sts[..k]) && Run(s, sts[..k]) == s1;
      } else {
        LostLinkRemovesRow(s1, sts[1..]);
        var j :| 0 <= j <= |sts[1..]| && CanRun(s1, sts[1..][..j]) && Run(s1, sts[1..][..j]).row.None?;
        assert sts[..j + 1][1..] == sts[1..][..j];
        assert CanRun(s, sts[..j + 1]) && Run(s, sts[..j + 1]).row.None?;
      }
    }
  }

  /** The same from the report on: a link, or the link below a tunnel, that goes down costs
      the row, also when it is reported up again before anything else happens. */
  lemma LossRemovesRow(s: State, i: Inputs, sts: seq<Step>)
    requires Inv(s) && s.row.Some? && Enabled(s, Change(i))
    requires || (s.input.active && !i.active)
             || (s.input.Gre? && s.input.parentActive && !i.parentActive)
    requires var t := Next(s, Change(i)); CanRun(t, sts) && Quiet(Run(t, sts))
    ensures var t := Next(s, Change(i));
            exists k :: 0 <= k <= |sts| && CanRun(t, sts[..k]) && Run(t, sts[..k]).row.None?
  {
    StepKeeps(s, Change(i));
    assert Next(s, Change(i)).needDelete;
    LostLinkRemovesRow(Next(s, Change(i)), sts);
  }

  /** Without a loss no deletion is asked for. */
  lemma NoLossKeepsRow(s: State, i: Inputs)
    requires Enabled(s, Change(i)) && !s.needDelete
    requires s.input.active ==> i.active
    requires s.input.Gre? && s.input.parentActive ==> i.parentActive
    ensures !Next(s, Change(i)).needDelete
  {
  }

  /** The timing of the object: recalculations are three seconds apart, and no report waits
      longer than six seconds and twice the lag of the loop. */
  lemma RecalculationsAreTimely(t0: real, es: seq<S.Event>, lag: real)
    requires lag >= 0.0 && S.CanRun(S.Start0(t0), es, P.(lag := lag))
    ensures var c := S.Run(S.Start0(t0), es, P.(lag := lag));
            && (forall i | 0 <= i < |c.calls| - 1 :: c.calls[i] + 3.0 <= c.calls[i + 1])
            && (c.asked.Some? ==> c.now <= c.asked.value + 6.0 + 2.0 * lag)
  {
    S.SchedulerIsPrompt(t0, es, P.(lag := lag));
  }

  /** Granting the insertion is exactly what convergence needs: a refused one leaves
      the object at rest without its row, a granted one leaves it with a correct row. */
  lemma InsertionDecides(s: State, ok: bool)
    requires Inv(s) && s.work && WantsRow(s.input) && !s.report.exists_
    ensures ok <==> Converged(Pass(s, ok))
    ensures !ok ==> Quiet(Pass(s, ok))
  {
  }
}
