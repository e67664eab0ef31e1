/**
 Failover between the WAN and the cellular modem (src/cellm/src).

 Two coupled state machines: the state of the WAN and the state of the modem.  While
 traffic runs over the modem, the IPv6 lifetimes that the device announces are set to
 zero and put back afterwards.
 */
module Failover {
  import opened Options

  datatype Cell = CellUnknown | CellInit | CellUp | CellDown

  datatype Wan = WanUnknown | WanUp | WanDown

  datatype Conf = Conf(manager: bool, failover: bool, force: bool)

  datatype Switch = Switch(active: bool, forced: bool, count: nat)

  /** The IPv6_RouteAdv and IPv6_Prefix rows; the outer `None` is a missing row, the inner
      one an unset column. */
  datatype Tables = Tables(ra: Option<Option<int>>, prefix: Option<Option<string>>)

  datatype Saved = Saved(ra: int, prefix: string)

  datatype V6 = V6(tables: Tables, saved: Saved)

  datatype Counters = Counters(failures: nat, reconnects: nat)

  datatype M = M(cell: Cell, wan: Wan, conf: Conf, fo: Switch, v6: V6, counters: Counters)

  /** Outcomes of the commands and table writes of one event. */
  datatype Outcomes = Outcomes(force: bool, restore: bool, insert: bool, metric: bool, preferred: bool)

  const WAN_L3_FAIL_LIMIT := 3
  const WAN_L3_RECONNECT := 3
  const PREFIX_BUFFER := 64

  // ---- Saving and restoring the lifetimes ----

  /** A C string copied into a buffer that also holds the terminator. */
  function Copied(s: string): string {
    if |s| < PREFIX_BUFFER then s else s[..PREFIX_BUFFER - 1]
  }

  function SetV6(v: V6): V6 {
    var ra := v.tables.ra;
    var prefix := v.tables.prefix;
    V6(Tables(if ra.None? then None else Some(Some(0)),
              if prefix.Some? && prefix.value.Some? then Some(Some("0")) else prefix),
       Saved(if ra.None? then v.saved.ra else if ra.value.None? then -1 else ra.value.value,
             if prefix.None? then v.saved.prefix
             else if prefix.value.None? then "" else Copied(prefix.value.value)))
  }

  function RevertV6(v: V6): V6 {
    var ra := v.tables.ra;
    var prefix := v.tables.prefix;
    v.(tables := Tables(
         if ra.None? then None else if v.saved.ra == -1 then Some(None) else Some(Some(v.saved.ra)),
         if prefix.None? then None else if v.saved.prefix == "" then prefix else Some(Some(v.saved.prefix))))
  }

  /** What a failover can put back. */
  predicate Restorable(t: Tables) {
    && t.ra != Some(Some(-1))
    && (t.prefix.Some? && t.prefix.value.Some? ==>
          t.prefix.value.value == "0" || 0 < |t.prefix.value.value| < PREFIX_BUFFER)
  }

  /** Main result: a failover and its end put the lifetimes back exactly when they are
      restorable. */
  lemma RestoredExactly(v: V6)
    ensures RevertV6(SetV6(v)).tables == v.tables <==> Restorable(v.tables)
  {
  }

  /** Of the values that the schema admits, only a prefix lifetime of 64 characters, one
      more than the buffer holds, is not put back. */
  lemma SchemaValuesRestored(v: V6)
    requires v.tables.ra.Some? && v.tables.ra.value.Some? ==> 0 <= v.tables.ra.value.value <= 65535
    requires v.tables.prefix.Some? && v.tables.prefix.value.Some? ==> 1 <= |v.tables.prefix.value.value| <= 64
    ensures RevertV6(SetV6(v)).tables == v.tables <==>
            !(v.tables.prefix.Some? && v.tables.prefix.value.Some? && |v.tables.prefix.value.value| == 64)
  {
    RestoredExactly(v);
  }

  // ---- The two state machines ----

  function SetFailover(m: M, o: Outcomes): M {
    var fo := if m.conf.force && !o.force then m.fo
              else Switch(true, m.fo.forced || m.conf.force, m.fo.count + 1);
    m.(fo := fo, v6 := SetV6(m.v6))
  }

  function RevertFailover(m: M, o: Outcomes): M {
    var fo := if m.fo.forced && !o.restore then m.fo else m.fo.(active := false, forced := false);
    m.(fo := fo, v6 := RevertV6(m.v6))
  }

  function SetWan(m: M, wan: Wan, o: Outcomes): M {
    if !m.conf.manager || m.wan == wan then m
    else
      var n := m.(wan := wan);
      match wan
      case WanUnknown => n
      case WanDown => if n.cell.CellUp? && n.conf.failover then SetFailover(n, o) else n
      case WanUp => if n.cell.CellUp? && n.fo.active then RevertFailover(n, o) else n
  }

  function CellDowned(m: M, o: Outcomes): M {
    var n := m.(cell := CellDown);
    if n.fo.active then RevertFailover(n, o) else n
  }

  function SetCell(m: M, cell: Cell, o: Outcomes): M {
    if m.cell == cell then m
    else
      match cell
      case CellUnknown => m.(cell := CellUnknown)
      case CellInit => m.(cell := CellInit)
      case CellDown => CellDowned(m, o)
      case CellUp =>
        var n := m.(cell := CellUp);
        if !o.insert then CellDowned(n, o)
        else if o.metric && n.wan.WanUp? && n.conf.failover && n.conf.force then SetWan(n, WanDown, o)
        else n
  }

  // ---- Health checks ----

  function Checked(c: Counters, ok: bool): Counters {
    if ok then c.(failures := 0) else Counters(c.failures + 1, 0)
  }

  /** The manager connection has become idle. */
  function Idle(m: M, ok: bool, o: Outcomes): M {
    if !(m.wan.WanUp? && m.cell.CellUp?) then m
    else
      var n := m.(counters := Checked(m.counters, ok));
      if !ok && n.counters.failures >= WAN_L3_FAIL_LIMIT && o.preferred then SetWan(n, WanDown, o) else n
  }

  predicate Recovers(m: M) {
    m.wan.WanDown? && m.fo.active && !m.conf.force
  }

  /** The periodic check for recovery. */
  function Tick(m: M, ok: bool, o: Outcomes): M {
    if !Recovers(m) then m
    else
      var c := Checked(m.counters, ok);
      if !ok then m.(counters := c)
      else if c.reconnects + 1 < WAN_L3_RECONNECT then m.(counters := c.(reconnects := c.reconnects + 1))
      else
        var n := SetWan(m.(counters := c.(reconnects := c.reconnects + 1)), WanUp, o);
        n.(counters := n.counters.(reconnects := 0))
  }

  /** A WAN route has been written with the given metric. */
  function RouteUpdated(m: M, metric: int, lteMetric: int, o: Outcomes): M {
    SetWan(m, if metric > lteMetric then WanDown else WanUp, o)
  }

  // ---- The manager as the source keeps it ----

  class Manager {
    var cell: Cell
    var wan: Wan
    var conf: Conf
    var fo: Switch
    var tables: Tables
    var saved: Saved
    var counters: Counters

    function Value(): M
      reads this
    {
      M(cell, wan, conf, fo, V6(tables, saved), counters)
    }

    constructor (conf: Conf, tables: Tables)
      ensures Value() == Boot(conf, tables)
    {
      cell, wan, this.conf, fo := CellInit, WanUnknown, conf, Switch(false, false, 0);
      this.tables, saved, counters := tables, Saved(0, ""), Counters(0, 0);
    }

    method SetV6Failover()
      modifies this`tables, this`saved
      ensures V6(tables, saved) == SetV6(old(V6(tables, saved)))
      ensures tables.ra == if old(tables).ra.Some? then Some(Some(0)) else None
      ensures tables.prefix == if old(tables).prefix.Some? && old(tables).prefix.value.Some? then Some(Some("0"))
                               else old(tables).prefix
    {
      if tables.ra.Some? {
        saved := saved.(ra := if tables.ra.value.None? then -1 else tables.ra.value.value);
        tables := tables.(ra := Some(Some(0)));
      }
      if tables.prefix.Some? {
        if tables.prefix.value.Some? {
          saved := saved.(prefix := Copied(tables.prefix.value.value));
          tables := tables.(prefix := Some(Some("0")));
        } else {
          saved := saved.(prefix := "");
        }
      }
    }

    method RevertV6Failover()
      modifies this`tables
      ensures V6(tables, saved) == RevertV6(old(V6(tables, saved)))
    {
      if tables.ra.Some? {
        tables := tables.(ra := if saved.ra == -1 then Some(None) else Some(Some(saved.ra)));
      }
      if tables.prefix.Some? && saved.prefix != "" {
        tables := tables.(prefix := Some(Some(saved.prefix)));
      }
    }

    method Engage(o: Outcomes)
      modifies this`fo, this`tables, this`saved
      ensures Value() == SetFailover(old(Value()), o)
    {
      if conf.force {
        if o.force { fo := Switch(true, true, fo.count + 1); }
      } else {
        fo := fo.(active := true, count := fo.count + 1);
      }
      SetV6Failover();
    }

    method Revert(o: Outcomes)
      modifies this`fo, this`tables
      ensures Value() == RevertFailover(old(Value()), o)
    {
      if fo.forced {
        if o.restore { fo := fo.(forced := false, active := false); }
      } else {
        fo := fo.(active := false);
      }
      RevertV6Failover();
    }

    method SetWanState(next: Wan, o: Outcomes)
      modifies this`wan, this`fo, this`tables, this`saved
      ensures Value() == SetWan(old(Value()), next, o)
    {
      hide SetFailover, RevertFailover;
      if !conf.manager { return; }
      if wan == next { return; }
      wan := next;
      match wan {
        case WanUnknown =>
        case WanDown => if cell.CellUp? && conf.failover { Engage(o); }
        case WanUp => if cell.CellUp? && fo.active { Revert(o); }
      }
    }

    method SetState(next: Cell, o: Outcomes)
      modifies this`cell, this`wan, this`fo, this`tables, this`saved
      ensures Value() == SetCell(old(Value()), next, o)
      decreases next.CellUp?
    {
      hide SetFailover, RevertFailover, SetWan;
      if cell == next { return; }
      cell := next;
      match cell {
        case CellUnknown =>
        case CellInit =>
        case CellUp =>
          if !o.insert {
            SetState(CellDown, o);
          } else if o.metric {
            if wan.WanUp? && conf.failover && conf.force { SetWanState(WanDown, o); }
          }
        case CellDown => if fo.active { Revert(o); }
      }
    }

    method Healthcheck(ok: bool) returns (failed: bool)
      modifies this`counters
      ensures counters == Checked(old(counters), ok) && failed == !ok
    {
      if ok {
        counters := counters.(failures := 0);
        return false;
      }
      counters := Counters(counters.failures + 1, 0);
      return true;
    }

    method ManagerIdle(ok: bool, o: Outcomes)
      modifies this
      ensures Value() == Idle(old(Value()), ok, o)
    {
      hide SetWan;
      if wan.WanUp? && cell.CellUp? {
        var failed := Healthcheck(ok);
        if failed && counters.failures >= WAN_L3_FAIL_LIMIT && o.preferred {
          SetWanState(WanDown, o);
        }
      }
    }

    method CheckWanL3State(ok: bool, o: Outcomes)
      modifies this
      ensures Value() == Tick(old(Value()), ok, o)
    {
      hide SetWan;
      if wan.WanDown? && fo.active && !conf.force {
        var failed := Healthcheck(ok);
        if !failed {
          counters := counters.(reconnects := counters.reconnects + 1);
          if counters.reconnects >= WAN_L3_RECONNECT {
            SetWanState(WanUp, o);
            counters := counters.(reconnects := 0);
          }
        }
      }
    }
  }

  function Boot(conf: Conf, tables: Tables): M {
    M(CellInit, WanUnknown, conf, Switch(false, false, 0), V6(tables, Saved(0, "")), Counters(0, 0))
  }

  // ---- What every event keeps ----

  /** The lifetimes during a failover: a row of the router advertisement says zero whatever
      it said before, a prefix only if its lifetime is set. */
  function Zeroed(t: Tables): Tables {
    Tables(if t.ra.Some? then Some(Some(0)) else None,
           if t.prefix.Some? && t.prefix.value.Some? then Some(Some("0")) else t.prefix)
  }

  /** `orig` are the lifetimes that the network configuration asks for. */
  predicate Inv(m: M, orig: Tables) {
    && (m.fo.forced ==> m.fo.active)
    && (m.fo.active ==> m.wan.WanDown? && m.cell.CellUp?)
    && (if m.fo.active then m.v6.tables == Zeroed(orig) && RevertV6(m.v6).tables == orig else m.v6.tables == orig)
  }

  datatype Event =
    | WanIs(up: bool, o: Outcomes)
    | CellIs(up: bool, o: Outcomes)
    | Route(metric: int, lteMetric: int, o: Outcomes)
    | IdleSeen(ok: bool, o: Outcomes)
    | Ticked(ok: bool, o: Outcomes)
    | Reconfigured(conf: Conf, o: Outcomes)

  function Next(m: M, e: Event): M {
    match e
    case WanIs(up, o) => SetWan(m, if up then WanUp else WanDown, o)
    case CellIs(up, o) => SetCell(m, if up then CellUp else CellDown, o)
    case Route(metric, lteMetric, o) => RouteUpdated(m, metric, lteMetric, o)
    case IdleSeen(ok, o) => Idle(m, ok, o)
    case Ticked(ok, o) => Tick(m, ok, o)
    case Reconfigured(conf, _) => m.(conf := conf)
  }

  function Run(m: M, es: seq<Event>): M
    decreases |es|
  {
    if es == [] then m else Run(Next(m, es[0]), es[1..])
  }

  predicate CommandsWork(es: seq<Event>) {
    forall e | e in es :: e.o.force && e.o.restore
  }

  predicate Activated(m: M, n: M) {
    !m.fo.active && n.fo.active
  }

  /** One step keeps the invariant and counts what it activates. */
  predicate Kept(m: M, n: M, orig: Tables) {
    Inv(n, orig) && n.fo.count == m.fo.count + if Activated(m, n) then 1 else 0
  }

  lemma SetWanKeeps(m: M, wan: Wan, o: Outcomes, orig: Tables)
    requires Inv(m, orig) && Restorable(orig) && !wan.WanUnknown? && o.force && o.restore
    ensures Kept(m, SetWan(m, wan, o), orig)
  {
    RestoredExactly(m.v6);
  }

  lemma SetCellKeeps(m: M, cell: Cell, o: Outcomes, orig: Tables)
    requires Inv(m, orig) && Restorable(orig) && o.force && o.restore
    requires cell.CellUp? || cell.CellDown?
    ensures Kept(m, SetCell(m, cell, o), orig)
  {
    if m.cell != cell && cell.CellUp? {
      SetWanKeeps(m.(cell := CellUp), WanDown, o, orig);
    }
  }

  lemma StepKeeps(m: M, e: Event, orig: Tables)
    requires Inv(m, orig) && Restorable(orig) && e.o.force && e.o.restore
    ensures Kept(m, Next(m, e), orig)
  {
    hide SetWan, SetCell, RevertV6;
    match e
    case WanIs(up, o) => SetWanKeeps(m, if up then WanUp else WanDown, o, orig);
    case CellIs(up, o) => SetCellKeeps(m, if up then CellUp else CellDown, o, orig);
    case Route(metric, lteMetric, o) => SetWanKeeps(m, if metric > lteMetric then WanDown else WanUp, o, orig);
    case IdleSeen(ok, o) => SetWanKeeps(m.(counters := Checked(m.counters, ok)), WanDown, o, orig);
    case Ticked(ok, o) =>
      var c := Checked(m.counters, ok);
      SetWanKeeps(m.(counters := c.(reconnects := c.reconnects + 1)), WanUp, o, orig);
    case Reconfigured(conf, _) =>
  }

  function Activations(m: M, es: seq<Event>): nat
    decreases |es|
  {
    if es == [] then 0
    else (if Activated(m, Next(m, es[0])) then 1 else 0) + Activations(Next(m, es[0]), es[1..])
  }

  /** Main result: in every run whose commands succeed, forced failover is active,
      failover is active only while the WAN is down and the modem up, it is counted once
      each time, and outside it the lifetimes are as configured. */
  lemma {:induction false} RunKeeps(m: M, es: seq<Event>, orig: Tables)
    requires Inv(m, orig) && Restorable(orig) && CommandsWork(es)
    ensures Inv(Run(m, es), orig)
    ensures Run(m, es).fo.count == m.fo.count + Activations(m, es)
    decreases |es|
  {
    hide Next, Inv, Restorable;
    if es == [] {
    } else {
      assert es[0] in es;
      StepKeeps(m, es[0], orig);
      RunKeeps(Next(m, es[0]), es[1..], orig);
    }
  }

  lemma LifetimesInEveryRun(conf: Conf, orig: Tables, es: seq<Event>)
    requires Restorable(orig) && CommandsWork(es)
    ensures var m := Run(Boot(conf, orig), es);
            && (m.fo.forced ==> m.fo.active)
            && (m.fo.active ==> m.wan.WanDown? && m.cell.CellUp?)
            && m.fo.count == Activations(Boot(conf, orig), es)
            && (!m.fo.active ==> m.v6.tables == orig)
            && (m.fo.active ==> m.v6.tables.ra == if orig.ra.Some? then Some(Some(0)) else None)
            && (m.fo.active ==>
                  m.v6.tables.prefix ==
                    if orig.prefix.Some? && orig.prefix.value.Some? then Some(Some("0")) else orig.prefix)
  {
    RunKeeps(Boot(conf, orig), es, orig);
  }

  /** A forced failover whose command fails still zeroes the lifetimes: it keeps the
      invariant exactly when there was nothing to zero. */
  lemma RefusedForce(m: M, o: Outcomes, orig: Tables)
    requires Inv(m, orig) && Restorable(orig) && m.conf == Conf(true, true, true)
    requires m.cell.CellUp? && !m.wan.WanDown? && !o.force
    ensures Inv(SetWan(m, WanDown, o), orig) <==> Zeroed(orig) == orig
  {
  }

  /** A forced failover whose end fails stays active with the WAN up. */
  lemma RefusedRestore(m: M, o: Outcomes, orig: Tables)
    requires Inv(m, orig) && Restorable(orig) && m.conf.manager && m.fo.active
    ensures Inv(SetWan(m, WanUp, o), orig) <==> (m.fo.forced ==> o.restore)
    ensures SetWan(m, WanUp, o).v6.tables == orig
  {
  }

  /** A modem that comes up takes over exactly when its row is inserted, its metric is
      set, the WAN is up and failover to it is forced, enabled and carried out. */
  lemma ModemTakesOver(m: M, o: Outcomes, orig: Tables)
    requires Inv(m, orig) && !m.cell.CellUp?
    ensures SetCell(m, CellUp, o).fo.active <==>
            && o.insert && o.metric && o.force
            && m.wan.WanUp? && m.conf.manager && m.conf.failover && m.conf.force
  {
  }

  /** The WAN stays down throughout. */
  predicate StaysDown(m: M, es: seq<Event>)
    decreases |es|
  {
    m.wan.WanDown? && (es == [] || StaysDown(Next(m, es[0]), es[1..]))
  }

  lemma StepDoesNotTakeOver(m: M, e: Event)
    requires m.wan.WanDown? && !m.fo.active
    ensures !Next(m, e).fo.active
  {
  }

  /** Main result: with the WAN down and failover not active, nothing makes it active until
      the WAN has been up again: neither a modem that comes up late nor a later change of
      the configuration takes over. */
  lemma {:induction false} LateModem(m: M, es: seq<Event>)
    requires !m.fo.active && StaysDown(m, es)
    ensures !Run(m, es).fo.active
    decreases |es|
  {
    hide Next;
    if es == [] {
    } else {
      StepDoesNotTakeOver(m, es[0]);
      LateModem(Next(m, es[0]), es[1..]);
    }
  }

  /** When the WAN goes down, failover starts exactly with the modem up, the manager and
      failover enabled, and a forced switch carried out. */
  lemma StartsExactly(m: M, o: Outcomes, orig: Tables)
    requires Inv(m, orig) && !m.wan.WanDown?
    ensures SetWan(m, WanDown, o).fo.active <==>
            m.conf.manager && m.cell.CellUp? && m.conf.failover && (m.conf.force ==> o.force)
    ensures SetWan(m, WanDown, o).fo.active ==>
            SetWan(m, WanDown, o).fo == Switch(true, m.conf.force, m.fo.count + 1)
  {
  }

  /** Losing the modem ends failover unless the command that restores the routes fails. */
  lemma ModemLossEnds(m: M, o: Outcomes, orig: Tables)
    requires Inv(m, orig) && m.fo.active
    ensures var n := SetCell(m, CellDown, o);
            n.cell.CellDown? && n.v6.tables == orig && (n.fo.active <==> m.fo.forced && !o.restore)
  {
  }

  /** Where the two machines end up: the WAN as reported, if the manager is enabled, and the
      modem as reported, except that one whose row cannot be inserted is down. */
  lemma StatesFollow(m: M, wan: Wan, cell: Cell, metric: int, lteMetric: int, o: Outcomes)
    ensures SetWan(m, wan, o).wan == if m.conf.manager then wan else m.wan
    ensures SetWan(m, wan, o).cell == m.cell
    ensures SetCell(m, cell, o).cell ==
            if cell.CellUp? && !m.cell.CellUp? && !o.insert then CellDown else cell
    ensures RouteUpdated(m, metric, lteMetric, o).wan ==
            if !m.conf.manager then m.wan else if metric <= lteMetric then WanUp else WanDown
  {
  }

  // ---- Hysteresis ----

  datatype Note = Check(ok: bool, recovery: bool) | Returned

  /** What an event adds to the log of health checks. */
  function Notes(m: M, e: Event): seq<Note> {
    match e
    case IdleSeen(ok, _) => if m.wan.WanUp? && m.cell.CellUp? then [Check(ok, false)] else []
    case Ticked(ok, _) =>
      if !Recovers(m) then []
      else if ok && m.counters.reconnects + 1 >= WAN_L3_RECONNECT then [Check(ok, true), Returned]
      else [Check(ok, true)]
    case _ => []
  }

  function Log(m: M, es: seq<Event>): seq<Note>
    decreases |es|
  {
    if es == [] then [] else Notes(m, es[0]) + Log(Next(m, es[0]), es[1..])
  }

  /** Failed checks since the last good one. */
  function Failures(log: seq<Note>): nat {
    if log == [] then 0
    else
      var n := |log| - 1;
      match log[n]
      case Check(ok, _) => if ok then 0 else Failures(log[..n]) + 1
      case Returned => Failures(log[..n])
  }

  /** Good recovery checks since the last failed check or return. */
  function Recoveries(log: seq<Note>): nat {
    if log == [] then 0
    else
      var n := |log| - 1;
      match log[n]
      case Check(ok, recovery) =>
        if !ok then 0 else Recoveries(log[..n]) + if recovery then 1 else 0
      case Returned => 0
  }

  function Count(c: Counters, note: Note): Counters {
    match note
    case Check(ok, recovery) =>
      if ok then Counters(0, c.reconnects + if recovery then 1 else 0) else Counters(c.failures + 1, 0)
    case Returned => c.(reconnects := 0)
  }

  predicate Logged(m: M, log: seq<Note>) {
    m.counters == Counters(Failures(log), Recoveries(log))
  }

  lemma NoteCounts(log: seq<Note>, note: Note)
    ensures Counters(Failures(log + [note]), Recoveries(log + [note])) ==
            Count(Counters(Failures(log), Recoveries(log)), note)
  {
    assert (log + [note])[..|log|] == log;
  }

  /** The counters of the source count the notes. */
  lemma EventCounts(m: M, e: Event)
    ensures var notes := Notes(m, e); var c := Next(m, e).counters;
            && |notes| <= 2
            && c == if notes == [] then m.counters
                    else if |notes| == 1 then Count(m.counters, notes[0])
                    else Count(Count(m.counters, notes[0]), notes[1])
  {
    hide SetV6, RevertV6;
  }

  lemma CountersLogged(m: M, e: Event, log: seq<Note>)
    requires Logged(m, log)
    ensures Logged(Next(m, e), log + Notes(m, e))
  {
    hide Next, Notes, Count;
    EventCounts(m, e);
    var notes := Notes(m, e);
    if notes == [] {
      assert log + notes == log;
    } else {
      NoteCounts(log, notes[0]);
      if |notes| == 1 {
        assert log + notes == log + [notes[0]];
      } else {
        NoteCounts(log + [notes[0]], notes[1]);
        assert log + notes == log + [notes[0]] + [notes[1]];
      }
    }
  }

  lemma {:induction false} RunLogged(m: M, es: seq<Event>, log: seq<Note>)
    requires Logged(m, log)
    ensures Logged(Run(m, es), log + Log(m, es))
    decreases |es|
  {
    hide Next, Logged, Notes;
    if es == [] {
      assert log + Log(m, es) == log;
    } else {
      CountersLogged(m, es[0], log);
      RunLogged(Next(m, es[0]), es[1..], log + Notes(m, es[0]));
      assert log + Log(m, es) == log + Notes(m, es[0]) + Log(Next(m, es[0]), es[1..]);
    }
  }

  lemma BootLogged(conf: Conf, orig: Tables)
    ensures Logged(Boot(conf, orig), [])
  {
  }

  lemma IdleGivesUp(m: M, ok: bool, o: Outcomes)
    requires m.wan.WanUp?
    ensures Next(m, IdleSeen(ok, o)).wan.WanDown? <==>
            m.cell.CellUp? && m.conf.manager && o.preferred && !ok && m.counters.failures >= 2
  {
  }

  lemma TickReturns(m: M, ok: bool, o: Outcomes)
    requires m.wan.WanDown?
    ensures Next(m, Ticked(ok, o)).wan.WanUp? <==>
            m.fo.active && !m.conf.force && m.conf.manager && ok && m.counters.reconnects >= 2
  {
    hide SetV6, RevertV6;
  }

  /** Main result: after any run, an idle manager gives up the WAN exactly when the check
      fails and at least two checks failed before with no good one since. */
  lemma GivesUpAfterThree(conf: Conf, orig: Tables, es: seq<Event>, ok: bool, o: Outcomes)
    requires Run(Boot(conf, orig), es).wan.WanUp?
    ensures var b := Boot(conf, orig); var m := Run(b, es);
            Next(m, IdleSeen(ok, o)).wan.WanDown? <==>
              m.cell.CellUp? && m.conf.manager && o.preferred && !ok && Failures(Log(b, es)) >= 2
  {
    hide Next, Run, Boot, Log;
    var b := Boot(conf, orig);
    BootLogged(conf, orig);
    RunLogged(b, es, []);
    assert [] + Log(b, es) == Log(b, es);
    IdleGivesUp(Run(b, es), ok, o);
  }

  /** Main result: after any run, the timer returns to the WAN exactly when the check is
      good and two recovery checks were good before with no failed check in between. */
  lemma ReturnsAfterThree(conf: Conf, orig: Tables, es: seq<Event>, ok: bool, o: Outcomes)
    requires Run(Boot(conf, orig), es).wan.WanDown?
    ensures var b := Boot(conf, orig); var m := Run(b, es);
            Next(m, Ticked(ok, o)).wan.WanUp? <==>
              m.fo.active && !m.conf.force && m.conf.manager && ok && Recoveries(Log(b, es)) >= 2
  {
    hide Next, Run, Boot, Log;
    var b := Boot(conf, orig);
    BootLogged(conf, orig);
    RunLogged(b, es, []);
    assert [] + Log(b, es) == Log(b, es);
    TickReturns(Run(b, es), ok, o);
  }
}
