/**
 The two-stage reconciler for GRE backhaul tunnels (src/cm2/src/cm2_bh_gre.c).

 The first stage turns the state of a wireless interface into a wanted tunnel, the
 second stage writes Wifi_Inet_Config until Wifi_Inet_State shows that tunnel.  The
 state table follows the configuration in order but arbitrarily late, and may skip
 states that were overtaken.  Addresses are written in host byte order.
 */
module Gre {
  import opened Options
  import opened Watchers
  import W = Work
  import S = Scheduler

  type Addr = bv32

  // ---- Deriving the tunnel ----

  datatype Input = Input(enabled: bool, network: bool, addr: Addr, mask: Addr)

  datatype Config = Config(enable: bool, local: Addr, remote: Addr)

  predicate IsLinkLocal(a: Addr) {
    (a >> 24) & 0xff == 169 && (a >> 16) & 0xff == 254
  }

  predicate DeriveEnable(i: Input) {
    i.enabled && i.network && i.addr != 0 && i.mask != 0 && IsLinkLocal(i.addr)
  }

  function Derive(i: Input): Config {
    Config(DeriveEnable(i), i.addr, Remote(i.addr, i.mask))
  }

  /** The test picks exactly 169.254.0.0/16, section 2.1 of RFC 3927. */
  lemma LinkLocalRange(a: Addr)
    ensures IsLinkLocal(a) <==> 0xA9FE_0000 <= a <= 0xA9FE_FFFF
  {
    assert IsLinkLocal(a) <==> a & 0xFFFF_0000 == 0xA9FE_0000;
  }

  /** The last bit of an address or a mask. */
  predicate Odd(a: Addr) {
    a & 1 == 1
  }

  predicate SameNetwork(a: Addr, b: Addr, mask: Addr) {
    a & mask == b & mask
  }

  function Remote(a: Addr, mask: Addr): Addr {
    (a & mask) | 1
  }

  lemma RemoteIsOdd(a: Addr, mask: Addr)
    ensures Remote(a, mask) != 0
  {
    assert ((a & mask) | 1) & 1 == 1;
  }

  lemma RemoteOfEvenMask(a: Addr, mask: Addr)
    requires !Odd(mask)
    ensures SameNetwork(Remote(a, mask), a, mask)
  {
    assert mask & 1 == 0;
  }

  lemma RemoteOfOddMask(a: Addr, mask: Addr)
    requires Odd(mask)
    ensures SameNetwork(Remote(a, mask), a, mask) <==> Odd(a)
  {
  }

  /** The remote end is in the network of the local end exactly when the mask leaves
      the last bit to the hosts, or the local address has that bit set itself. */
  lemma RemoteInNetwork(i: Input)
    ensures SameNetwork(Derive(i).remote, i.addr, i.mask) <==> !Odd(i.mask) || Odd(i.addr)
    ensures Derive(i).remote != 0
  {
    hide IsLinkLocal, Odd, SameNetwork, Remote;
    RemoteIsOdd(i.addr, i.mask);
    if Odd(i.mask) {
      RemoteOfOddMask(i.addr, i.mask);
    } else {
      RemoteOfEvenMask(i.addr, i.mask);
    }
  }

  // ---- Rows and what is known about them ----

  datatype Tunnel = Tunnel(parent: string, local: Addr, remote: Addr)

  datatype Report = Report(parent: Option<string>, local: Addr, remote: Addr)

  function AsReport(row: Option<Tunnel>): Report {
    match row
    case None => Report(None, 0, 0)
    case Some(t) => Report(Some(t.parent), t.local, t.remote)
  }

  /** The second stage; `queue` holds the states of the tunnel's Wifi_Inet_State row
      that are still to be shown. */
  datatype Stage = Stage(
    name: string, config: Config, work: bool, report: Report, row: Option<Tunnel>, queue: seq<Option<Tunnel>>)

  datatype State = State(input: Input, vifWork: bool, tun: Stage)

  predicate Complete(c: Config) {
    c.local != 0 && c.remote != 0 && c.enable
  }

  function Wanted(name: string, c: Config): Option<Tunnel> {
    if Complete(c) then Some(Tunnel(name, c.local, c.remote)) else None
  }

  function Write(t: Stage, row: Option<Tunnel>): Stage {
    if t.row == row then t else t.(row := row, queue := t.queue + [row])
  }

  predicate Changed(t: Stage) {
    || t.config.enable != t.report.parent.Some?
    || t.config.local != t.report.local
    || t.config.remote != t.report.remote
    || (if t.config.enable then Some(t.name) else None) != t.report.parent
  }

  function TunPass(t: Stage): Stage {
    var t0 := t.(work := false);
    if !Changed(t) then t0 else
      var t1 := if t.report.parent.Some? then Write(t0, None) else t0;
      if Complete(t.config) then Write(t1, Wanted(t.name, t.config)) else t1
  }

  lemma PassIgnoresFlag(t: Stage)
    ensures TunPass(t.(work := false)) == TunPass(t)
  {
  }

  function Configured(t: Stage, c: Config): Stage {
    t.(config := c, work := t.work || t.config != c)
  }

  function Reported(t: Stage, r: Report): Stage {
    t.(report := r, work := t.work || t.report != r)
  }

  function Deliver(t: Stage): Stage
    requires t.queue != []
  {
    Reported(t.(queue := t.queue[1..]), AsReport(t.queue[0]))
  }

  function Skip(t: Stage, i: nat): Stage
    requires i + 1 < |t.queue|
  {
    t.(queue := t.queue[..i] + t.queue[i + 1..])
  }

  function VifPass(s: State): State {
    s.(vifWork := false, tun := Configured(s.tun, Derive(s.input)))
  }

  function InputChanged(s: State, i: Input): State {
    if s.input == i then s else s.(input := i, vifWork := true)
  }

  // ---- The objects as the source keeps them ----

  const TunParams: W.Params := W.Params(3.0, 3.0, 0.0)
  const VifParams: W.Params := W.Params(3.0, 1.0, 0.0)

  class Table {
    var row: Option<Tunnel>
    var queue: seq<Option<Tunnel>>

    method Delete()
      modifies this
      ensures row == None && queue == if old(row) == None then old(queue) else old(queue) + [None]
    {
      if row.Some? {
        row, queue := None, queue + [None];
      }
    }

    method Upsert(t: Tunnel)
      modifies this
      ensures row == Some(t) && queue == if old(row) == Some(t) then old(queue) else old(queue) + [Some(t)]
    {
      if row != Some(t) {
        row, queue := Some(t), queue + [Some(t)];
      }
    }
  }

  class Tun {
    const table: Table
    const name: string
    var config: Config
    var report: Report
    var work: bool
    var idleActive: bool
    var deadline: Timer
    var backoff: Timer

    function Watchers(): S.Sched
      reads this
    {
      S.Sched(work, idleActive, deadline, backoff)
    }

    constructor (table: Table, name: string)
      ensures this.table == table && this.name == name && Watchers() == S.Fresh
      ensures config == Config(false, 0, 0) && report == Report(None, 0, 0)
    {
      this.table, this.name := table, name;
      config, report := Config(false, 0, 0), Report(None, 0, 0);
      work, idleActive, deadline, backoff := false, false, Stopped, Stopped;
    }

    function Value(): Stage
      reads this, table
    {
      Stage(name, config, work, report, table.row, table.queue)
    }

    method Schedule(now: real)
      modifies this
      ensures Watchers() == S.Requested(old(Watchers()), now, TunParams)
      ensures Value() == old(Value()).(work := true)
    {
      work := true;
      idleActive := true;
      if deadline.armed.None? { deadline := deadline.(armed := Some(now + TunParams.deadline)); }
    }

    /** The three setters that the first stage calls in a row. */
    method Configure(c: Config, now: real)
      modifies this
      ensures Value() == Configured(old(Value()), c)
      ensures Watchers() == if old(config) == c then old(Watchers()) else S.Requested(old(Watchers()), now, TunParams)
    {
      var enableChanged := config.enable != c.enable;
      var localChanged := config.local != c.local;
      var remoteChanged := config.remote != c.remote;
      config := c;
      if enableChanged { Schedule(now); }
      if localChanged { Schedule(now); }
      if remoteChanged { Schedule(now); }
    }

    /** The monitor callback for the tunnel's row of Wifi_Inet_State. */
    method WisCallback(now: real)
      requires table.queue != []
      modifies this, table
      ensures Value() == Deliver(old(Value()))
      ensures Watchers() ==
              if report == old(report) then old(Watchers()) else S.Requested(old(Watchers()), now, TunParams)
    {
      var r := AsReport(table.queue[0]);
      table.queue := table.queue[1..];
      var changed := report != r;
      report := r;
      if changed { Schedule(now); }
    }

    method Recalc(now: real)
      modifies this, table
      ensures Watchers() == S.Recalculated(old(Watchers()), false, now, TunParams)
      ensures Value() == if S.MayRun(old(Watchers())) then TunPass(old(Value())) else old(Value())
    {
      if !work { return; }
      if backoff.armed.Some? { return; }
      work := false;
      backoff := backoff.(armed := Some(now + TunParams.cooldown));
      hide TunPass;
      PassIgnoresFlag(old(Value()));
      Rewrite();
    }

    /** The rows are rewritten when the report differs from the configuration. */
    method Rewrite()
      requires !work
      modifies table
      ensures Value() == TunPass(old(Value()))
    {
      var parent := if config.enable then Some(name) else None;
      var enabled := report.parent.Some?;
      var changed := config.enable != enabled || config.local != report.local ||
                     config.remote != report.remote || parent != report.parent;
      var complete := config.local != 0 && config.remote != 0 && config.enable;
      if changed {
        if enabled { table.Delete(); }
        if complete { table.Upsert(Tunnel(name, config.local, config.remote)); }
      }
    }
  }

  class VifStage {
    const tun: Tun
    var input: Input
    var work: bool
    var idleActive: bool
    var deadline: Timer
    var backoff: Timer

    function Watchers(): S.Sched
      reads this
    {
      S.Sched(work, idleActive, deadline, backoff)
    }

    function Value(): State
      reads this, tun, tun.table
    {
      State(input, work, tun.Value())
    }

    constructor (tun: Tun)
      ensures this.tun == tun && Watchers() == S.Fresh && input == Input(false, false, 0, 0)
    {
      this.tun, input := tun, Input(false, false, 0, 0);
      work, idleActive, deadline, backoff := false, false, Stopped, Stopped;
    }

    method Schedule(now: real)
      modifies this
      ensures Value() == old(Value()).(vifWork := true)
      ensures Watchers() == S.Requested(old(Watchers()), now, VifParams)
    {
      work := true;
      if deadline.armed.None? {
        deadline := deadline.(armed := Some(now + VifParams.deadline));
      }
      idleActive := true;
    }

    method ReportEnabled(v: bool, now: real)
      modifies this
      ensures Value() == InputChanged(old(Value()), old(input).(enabled := v))
      ensures Watchers() ==
              if old(input).enabled == v then old(Watchers()) else S.Requested(old(Watchers()), now, VifParams)
    {
      if input.enabled == v { return; }
      input := input.(enabled := v);
      Schedule(now);
    }

    method ReportNetwork(v: bool, now: real)
      modifies this
      ensures Value() == InputChanged(old(Value()), old(input).(network := v))
      ensures Watchers() ==
              if old(input).network == v then old(Watchers()) else S.Requested(old(Watchers()), now, VifParams)
    {
      if input.network == v { return; }
      input := input.(network := v);
      Schedule(now);
    }

    method ReportInetAddr(v: Addr, now: real)
      modifies this
      ensures Value() == InputChanged(old(Value()), old(input).(addr := v))
      ensures Watchers() ==
              if old(input).addr == v then old(Watchers()) else S.Requested(old(Watchers()), now, VifParams)
    {
      if input.addr == v { return; }
      input := input.(addr := v);
      Schedule(now);
    }

    method ReportNetmask(v: Addr, now: real)
      modifies this
      ensures Value() == InputChanged(old(Value()), old(input).(mask := v))
      ensures Watchers() ==
              if old(input).mask == v then old(Watchers()) else S.Requested(old(Watchers()), now, VifParams)
    {
      if input.mask == v { return; }
      input := input.(mask := v);
      Schedule(now);
    }

    method Recalc(now: real)
      modifies this, tun
      ensures Watchers() == S.Recalculated(old(Watchers()), false, now, VifParams)
      ensures Value() == if S.MayRun(old(Watchers())) then VifPass(old(Value())) else old(Value())
    {
      if !work { return; }
      if backoff.armed.Some? { return; }
      work := false;
      backoff := backoff.(armed := Some(now + VifParams.cooldown));
      tun.Configure(Config(DeriveEnable(input), input.addr, (input.addr & input.mask) | 1), now);
    }
  }

  // ---- What every step keeps ----

  function Latest(t: Stage): Report {
    if t.queue == [] then t.report else AsReport(t.queue[|t.queue| - 1])
  }

  predicate StageInv(t: Stage) {
    && Latest(t) == AsReport(t.row)
    && (t.report.parent.None? ==> t.report == AsReport(None))
    && (t.config.enable ==> Complete(t.config))
    && (t.work || t.report == AsReport(Wanted(t.name, t.config)) || t.row == Wanted(t.name, t.config))
  }

  predicate Inv(s: State) {
    && StageInv(s.tun)
    && (s.vifWork || Wanted(s.tun.name, s.tun.config) == Wanted(s.tun.name, Derive(s.input)))
  }

  lemma TunPassKeeps(t: Stage)
    requires StageInv(t)
    ensures StageInv(TunPass(t))
  {
  }

  // ---- Convergence ----

  datatype Step = DoVif | DoTun | DoDeliver | DoSkip(i: nat) | Change(input: Input)

  predicate Enabled(s: State, st: Step) {
    match st
    case DoVif => s.vifWork
    case DoTun => s.tun.work
    case DoDeliver => s.tun.queue != []
    case DoSkip(i) => i + 1 < |s.tun.queue|
    case Change(_) => true
  }

  function Next(s: State, st: Step): State
    requires Enabled(s, st)
  {
    match st
    case DoVif => VifPass(s)
    case DoTun => s.(tun := TunPass(s.tun))
    case DoDeliver => s.(tun := Deliver(s.tun))
    case DoSkip(i) => s.(tun := Skip(s.tun, i))
    case Change(i) => InputChanged(s, i)
  }

  predicate CanRun(s: State, sts: seq<Step>)
    decreases |sts|
  {
    sts == [] || (Enabled(s, sts[0]) && CanRun(Next(s, sts[0]), sts[1..]))
  }

  function Run(s: State, sts: seq<Step>): State
    requires CanRun(s, sts)
    decreases |sts|
  {
    if sts == [] then s else Run(Next(s, sts[0]), sts[1..])
  }

  lemma VifKeeps(s: State)
    requires Inv(s)
    ensures Inv(VifPass(s))
  {
    RemoteIsOdd(s.input.addr, s.input.mask);
    hide IsLinkLocal, Remote;
  }

  lemma DeliverKeeps(t: Stage)
    requires StageInv(t) && t.queue != []
    ensures StageInv(Deliver(t))
  {
  }

  lemma SkipKeeps(t: Stage, i: nat)
    requires StageInv(t) && i + 1 < |t.queue|
    ensures StageInv(Skip(t, i))
  {
    hide Wanted;
  }

  lemma StepKeeps(s: State, st: Step)
    requires Inv(s) && Enabled(s, st)
    ensures Inv(Next(s, st)) && Next(s, st).tun.name == s.tun.name
  {
    hide StageInv, Derive, Wanted;
    match st
    case DoVif => VifKeeps(s);
    case DoTun => TunPassKeeps(s.tun);
    case DoDeliver => DeliverKeeps(s.tun);
    case DoSkip(i) => SkipKeeps(s.tun, i);
    case Change(_) =>
  }

  lemma {:induction false} RunKeeps(s: State, sts: seq<Step>)
    requires Inv(s) && CanRun(s, sts)
    ensures Inv(Run(s, sts)) && Run(s, sts).tun.name == s.tun.name
    decreases |sts|
  {
    if sts == [] {
    } else {
      StepKeeps(s, sts[0]);
      RunKeeps(Next(s, sts[0]), sts[1..]);
    }
  }

  /** States that would make the second stage tear down a tunnel again. */
  predicate Misleading(e: Option<Tunnel>, w: Option<Tunnel>) {
    e.Some? && e != w
  }

  function MisleadingIn(q: seq<Option<Tunnel>>, w: Option<Tunnel>): nat
    decreases |q|
  {
    if q == [] then 0
    else MisleadingIn(q[..|q| - 1], w) + if Misleading(q[|q| - 1], w) then 1 else 0
  }

  lemma {:induction false} MisleadingSplits(q: seq<Option<Tunnel>>, r: seq<Option<Tunnel>>, w: Option<Tunnel>)
    ensures MisleadingIn(q + r, w) == MisleadingIn(q, w) + MisleadingIn(r, w)
    ensures MisleadingIn(r, w) <= |r|
    decreases |r|
  {
    if r == [] {
      assert q + r == q;
    } else {
      var n := |r| - 1;
      MisleadingSplits(q, r[..n], w);
      assert (q + r)[..|q + r| - 1] == q + r[..n];
    }
  }

  predicate Misled(t: Stage) {
    t.report.parent.Some? && t.report != AsReport(Wanted(t.name, t.config))
  }

  function Turmoil(t: Stage): nat {
    var w := Wanted(t.name, t.config);
    2 * |t.queue| + 6 * MisleadingIn(t.queue, w) + (if t.row != w then 4 else 0) +
    (if !t.work then 0 else if Misled(t) then 6 else 1)
  }

  function Measure(s: State): nat {
    if s.vifWork then 5 * Turmoil(s.tun) + 11 else Turmoil(s.tun)
  }

  lemma AppendOne(q: seq<Option<Tunnel>>, e: Option<Tunnel>, w: Option<Tunnel>)
    ensures MisleadingIn(q + [e], w) == MisleadingIn(q, w) + if Misleading(e, w) then 1 else 0
  {
    assert (q + [e])[..|q + [e]| - 1] == q;
  }

  lemma TunPassProgresses(t: Stage)
    requires StageInv(t) && t.work
    ensures Turmoil(TunPass(t)) < Turmoil(t)
  {
    var w := Wanted(t.name, t.config);
    AppendOne(t.queue, None, w);
    AppendOne(t.queue, w, w);
    AppendOne(t.queue + [None], w, w);
    hide MisleadingIn;
  }

  lemma DeliverProgresses(t: Stage)
    requires t.queue != []
    ensures Turmoil(Deliver(t)) < Turmoil(t)
  {
    var w := Wanted(t.name, t.config);
    var first := [t.queue[0]];
    assert t.queue == first + t.queue[1..];
    MisleadingSplits(first, t.queue[1..], w);
    AppendOne([], t.queue[0], w);
    assert [] + first == first;
  }

  lemma SkipProgresses(t: Stage, i: nat)
    requires i + 1 < |t.queue|
    ensures Turmoil(Skip(t, i)) < Turmoil(t)
  {
    var w := Wanted(t.name, t.config);
    assert t.queue == t.queue[..i] + [t.queue[i]] + t.queue[i + 1..];
    MisleadingSplits(t.queue[..i] + [t.queue[i]], t.queue[i + 1..], w);
    AppendOne(t.queue[..i], t.queue[i], w);
    MisleadingSplits(t.queue[..i], t.queue[i + 1..], w);
  }

  /** Whatever the new configuration stirs up is less than the first stage stands for. */
  lemma VifProgresses(s: State)
    requires s.vifWork
    ensures Measure(VifPass(s)) < Measure(s)
  {
    hide Derive;
    MisleadingSplits([], s.tun.queue, Wanted(s.tun.name, Derive(s.input)));
    hide MisleadingIn;
  }

  lemma StepProgresses(s: State, st: Step)
    requires Inv(s) && Enabled(s, st) && !st.Change?
    ensures Measure(Next(s, st)) < Measure(s)
    ensures Next(s, st).input == s.input
  {
    hide Turmoil, Derive, TunPass, StageInv;
    match st
    case DoVif => VifProgresses(s);
    case DoTun => TunPassProgresses(s.tun);
    case DoDeliver => DeliverProgresses(s.tun);
    case DoSkip(i) => SkipProgresses(s.tun, i);
  }

  /** Main result: with the interface at rest, every run is finite: each pass of either
      stage, each echo and each skipped echo uses up part of a measure. */
  lemma {:induction false} RunsAreBounded(s: State, sts: seq<Step>)
    requires Inv(s) && CanRun(s, sts)
    requires forall st | st in sts :: !st.Change?
    ensures |sts| + Measure(Run(s, sts)) <= Measure(s)
    decreases |sts|
  {
    if sts == [] {
    } else {
      StepKeeps(s, sts[0]);
      StepProgresses(s, sts[0]);
      RunsAreBounded(Next(s, sts[0]), sts[1..]);
    }
  }

  predicate Quiet(s: State) {
    !s.vifWork && !s.tun.work && s.tun.queue == []
  }

  /** A freshly allocated interface and tunnel. */
  function Initial(name: string): State {
    State(Input(false, false, 0, 0), false, Stage(name, Config(false, 0, 0), false, Report(None, 0, 0), None, []))
  }

  lemma InitialHolds(name: string)
    ensures Inv(Initial(name)) && Initial(name).tun.name == name
  {
  }

  lemma QuietRow(s: State)
    requires Inv(s) && Quiet(s)
    ensures s.tun.row == Wanted(s.tun.name, Derive(s.input))
  {
  }

  lemma WantedRow(name: string, i: Input)
    ensures Wanted(name, Derive(i)) ==
            if i.enabled && i.network && i.mask != 0 && 0xA9FE_0000 <= i.addr <= 0xA9FE_FFFF
            then Some(Tunnel(name, i.addr, (i.addr & i.mask) | 1)) else None
  {
    LinkLocalRange(i.addr);
    RemoteIsOdd(i.addr, i.mask);
  }

  /** Main result: in every run, with inputs changing at any time, once all is quiet a
      tunnel row is there exactly when the interface is enabled, networked, masked and
      link-local, and it carries the derived addresses. */
  lemma QuietMeansConverged(name: string, sts: seq<Step>)
    requires CanRun(Initial(name), sts) && Quiet(Run(Initial(name), sts))
    ensures var s := Run(Initial(name), sts); var i := s.input;
            s.tun.row == if i.enabled && i.network && i.mask != 0 && 0xA9FE_0000 <= i.addr <= 0xA9FE_FFFF
                         then Some(Tunnel(name, i.addr, (i.addr & i.mask) | 1)) else None
  {
    InitialHolds(name);
    hide Inv, Wanted, Derive, Next, Run, CanRun, Initial;
    RunKeeps(Initial(name), sts);
    var s := Run(Initial(name), sts);
    QuietRow(s);
    WantedRow(name, s.input);
  }

  /** A report is recorded as it comes, and nothing else changes what is recorded. */
  lemma StepRecords(s: State, st: Step)
    requires Enabled(s, st)
    ensures Next(s, st).input == if st.Change? then st.input else s.input
  {
  }

  lemma {:induction false} InputStays(s: State, sts: seq<Step>)
    requires CanRun(s, sts) && forall st | st in sts :: !st.Change?
    ensures Run(s, sts).input == s.input
    decreases |sts|
  {
    hide Next;
    if sts == [] {
    } else {
      StepRecords(s, sts[0]);
      InputStays(Next(s, sts[0]), sts[1..]);
    }
  }

  /** What is recorded is the last report of the interface. */
  lemma {:induction false} LastReportRecorded(s: State, sts: seq<Step>, k: nat)
    requires CanRun(s, sts) && k < |sts| && sts[k].Change?
    requires forall j | k < j < |sts| :: !sts[j].Change?
    ensures Run(s, sts).input == sts[k].input
    decreases |sts|
  {
    hide Next;
    if k == 0 {
      StepRecords(s, sts[0]);
      InputStays(Next(s, sts[0]), sts[1..]);
    } else {
      LastReportRecorded(Next(s, sts[0]), sts[1..], k - 1);
    }
  }

  /** Main result: once all is quiet the tunnel row is the one that the last report of the
      interface asks for. */
  lemma TunnelFollowsLastReport(name: string, sts: seq<Step>, k: nat)
    requires CanRun(Initial(name), sts) && Quiet(Run(Initial(name), sts)) && k < |sts| && sts[k].Change?
    requires forall j | k < j < |sts| :: !sts[j].Change?
    ensures var i := sts[k].input;
            Run(Initial(name), sts).tun.row ==
              if i.enabled && i.network && i.mask != 0 && 0xA9FE_0000 <= i.addr <= 0xA9FE_FFFF
              then Some(Tunnel(name, i.addr, (i.addr & i.mask) | 1)) else None
  {
    hide Run, CanRun, Initial;
    LastReportRecorded(Initial(name), sts, k);
    QuietMeansConverged(name, sts);
  }

  /** The timing of the two stages: the first recalculates at most once a second, the second
      at most every three seconds, and neither keeps a request waiting for long. */
  lemma StagesAreTimely(t0: real, es: seq<S.Event>, fs: seq<S.Event>, lag: real)
    requires lag >= 0.0
    requires S.CanRun(S.Start0(t0), es, VifParams.(lag := lag)) && S.CanRun(S.Start0(t0), fs, TunParams.(lag := lag))
    ensures var c := S.Run(S.Start0(t0), es, VifParams.(lag := lag));
            && (forall i | 0 <= i < |c.calls| - 1 :: c.calls[i] + 1.0 <= c.calls[i + 1])
            && (c.asked.Some? ==> c.now <= c.asked.value + 4.0 + 2.0 * lag)
    ensures var c := S.Run(S.Start0(t0), fs, TunParams.(lag := lag));
            && (forall i | 0 <= i < |c.calls| - 1 :: c.calls[i] + 3.0 <= c.calls[i + 1])
            && (c.asked.Some? ==> c.now <= c.asked.value + 6.0 + 2.0 * lag)
  {
    S.SchedulerIsPrompt(t0, es, VifParams.(lag := lag));
    S.SchedulerIsPrompt(t0, fs, TunParams.(lag := lag));
  }
}
