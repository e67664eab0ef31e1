/**
 The Bluetooth advertising manager (src/blem/src/blem_ble.c).

 Two advertising sets, general use first and proximity beacon second, share one chip.
 Only the first enabled set is on the chip, and only what is marked as changed is sent
 to it.  The chip may refuse any call and be left in any state by a refused one.
 */
module Advertising {
  import A = AdLength

  type Bytes = seq<A.Byte>

  datatype Naming = Never | WhenConnectable | WhenBroadcasting

  /** The build options: how the name is advertised, configuration over Bluetooth. */
  datatype Conf = Conf(naming: Naming, viaBle: bool)

  datatype Mode = Mode(enabled: bool, connectable: bool, changed: bool)

  datatype Payload = Payload(data: Bytes, changed: bool)

  datatype Response = Response(enabled: bool, payload: Payload)

  datatype AdvSet = AdvSet(mode: Mode, adv: Payload, rsp: Response)

  /** `paused` is set by a device that connects, until advertising is started again. */
  datatype Flags = Flags(on: bool, scan: bool, connectable: bool, paused: bool)

  datatype Chip = Chip(flags: Flags, data: Bytes, scanData: Bytes)

  datatype Reply = Ok | Refused(left: Chip)

  datatype Calls = Calls(off: Reply, unconnect: Reply, data: Reply, scanData: Reply, connect: Reply, on: Reply)

  // ---- Chip calls ----

  function SetParams(c: Chip, on: bool, scan: bool, r: Reply): Chip {
    c.(flags := if r.Ok? then Flags(on, scan, c.flags.connectable, false) else r.left.flags)
  }

  function SetConnectable(c: Chip, v: bool, r: Reply): Chip {
    c.(flags := if r.Ok? then c.flags.(connectable := v) else r.left.flags)
  }

  function SetData(c: Chip, data: Bytes, r: Reply): Chip {
    c.(data := if r.Ok? then data else r.left.data)
  }

  function SetScanData(c: Chip, data: Bytes, r: Reply): Chip {
    c.(scanData := if r.Ok? then data else r.left.scanData)
  }

  /** The part of a payload that goes over the air. */
  function Prefix(data: Bytes): Bytes {
    data[..A.Length(data)]
  }

  // ---- Applying one set ----

  datatype Applied = Applied(set_: AdvSet, chip: Chip, ok: bool)

  function SwitchOff(c: Chip, k: Calls): (Chip, bool) {
    var c1 := SetParams(c, false, false, k.off);
    if k.off.Refused? then (c1, false) else (SetConnectable(c1, false, k.unconnect), k.unconnect.Ok?)
  }

  function PushData(a: AdvSet, c: Chip, k: Calls): Applied {
    if !a.adv.changed && !a.mode.changed then Applied(a, c, true)
    else if A.Length(a.adv.data) == 0 then Applied(a, c, false)
    else
      var c1 := SetData(c, Prefix(a.adv.data), k.data);
      if k.data.Refused? then Applied(a, c1, false) else Applied(a.(adv := a.adv.(changed := false)), c1, true)
  }

  function PushScanData(a: AdvSet, c: Chip, k: Calls): Applied {
    var p := a.rsp.payload;
    if !a.rsp.enabled || (!p.changed && !a.mode.changed) then Applied(a, c, true)
    else if A.Length(p.data) == 0 then Applied(a, c, false)
    else
      var c1 := SetScanData(c, Prefix(p.data), k.scanData);
      if k.scanData.Refused? then Applied(a, c1, false)
      else Applied(a.(rsp := a.rsp.(payload := p.(changed := false))), c1, true)
  }

  function SwitchOn(a: AdvSet, c: Chip, k: Calls): Applied {
    if !a.mode.changed then Applied(a, c, true)
    else
      var c1 := SetConnectable(c, a.mode.connectable, k.connect);
      if k.connect.Refused? then Applied(a, c1, false)
      else
        var c2 := SetParams(c1, a.mode.enabled, a.rsp.enabled, k.on);
        if k.on.Refused? then Applied(a, c2, false) else Applied(a.(mode := a.mode.(changed := false)), c2, true)
  }

  function ApplySet(a: AdvSet, c: Chip, k: Calls): Applied {
    var (c0, ok0) := if !a.mode.enabled || a.mode.changed then SwitchOff(c, k) else (c, true);
    if !ok0 || !a.mode.enabled then Applied(a, c0, ok0)
    else
      var x := PushData(a, c0, k);
      if !x.ok then x
      else
        var y := PushScanData(x.set_, x.chip, k);
        if !y.ok then y else SwitchOn(y.set_, y.chip, k)
  }

  // ---- Applying the first enabled set ----

  datatype Core = Core(sets: seq<AdvSet>, last: int, chip: Chip)

  datatype Result = Result(core: Core, ok: bool)

  function First(sets: seq<AdvSet>): (i: int)
    ensures -1 <= i < |sets|
    ensures i >= 0 ==> sets[i].mode.enabled
    ensures forall j | 0 <= j < |sets| && sets[j].mode.enabled :: 0 <= i <= j
  {
    if sets == [] then -1
    else if sets[0].mode.enabled then 0
    else var i := First(sets[1..]); if i < 0 then -1 else i + 1
  }

  function Apply(s: Core, k: Calls): (r: Result)
    ensures |r.core.sets| == |s.sets|
  {
    var i := First(s.sets);
    if i < 0 then
      var (c, ok) := SwitchOff(s.chip, k);
      Result(Core(s.sets, -1, c), ok)
    else
      var a := s.sets[i];
      var x := ApplySet(if i == s.last then a else a.(mode := a.mode.(changed := true)), s.chip, k);
      Result(Core(s.sets[i := x.set_], i, x.chip), x.ok)
  }

  // ---- Agreement of a set with the chip ----

  /** All of the set is on the chip. */
  predicate OnChip(a: AdvSet, c: Chip) {
    && c.flags.on && c.flags.connectable == a.mode.connectable
    && A.Length(a.adv.data) > 0 && c.data == Prefix(a.adv.data)
    && (a.rsp.enabled ==> c.flags.scan && A.Length(a.rsp.payload.data) > 0 && c.scanData == Prefix(a.rsp.payload.data))
  }

  /** What is not marked as changed is on the chip. */
  predicate Tracked(a: AdvSet, c: Chip) {
    !a.mode.changed ==>
      && c.flags.on && c.flags.connectable == a.mode.connectable
      && (a.rsp.enabled ==> c.flags.scan)
      && (!a.adv.changed ==> A.Length(a.adv.data) > 0 && c.data == Prefix(a.adv.data))
      && (a.rsp.enabled && !a.rsp.payload.changed ==>
            A.Length(a.rsp.payload.data) > 0 && c.scanData == Prefix(a.rsp.payload.data))
  }

  /** Applying a set only takes back its marks. */
  predicate SameContent(a: AdvSet, b: AdvSet) {
    && b.mode.enabled == a.mode.enabled && b.mode.connectable == a.mode.connectable
    && b.adv.data == a.adv.data
    && b.rsp.enabled == a.rsp.enabled && b.rsp.payload.data == a.rsp.payload.data
  }

  lemma PushDataTracks(a: AdvSet, c: Chip, k: Calls)
    requires Tracked(a, c)
    ensures var x := PushData(a, c, k);
            && Tracked(x.set_, x.chip) && SameContent(a, x.set_) && x.set_.mode == a.mode && x.set_.rsp == a.rsp
            && x.chip.flags == c.flags && x.chip.scanData == c.scanData
            && (x.ok ==> !x.set_.adv.changed || a.mode.changed)
            && (x.ok ==> A.Length(a.adv.data) > 0 && x.chip.data == Prefix(a.adv.data))
  {
  }

  lemma PushScanDataTracks(a: AdvSet, c: Chip, k: Calls)
    requires Tracked(a, c)
    ensures var x := PushScanData(a, c, k);
            && Tracked(x.set_, x.chip) && SameContent(a, x.set_) && x.set_.mode == a.mode && x.set_.adv == a.adv
            && x.chip.flags == c.flags && x.chip.data == c.data
            && (x.ok && a.rsp.enabled ==>
                  A.Length(a.rsp.payload.data) > 0 && x.chip.scanData == Prefix(a.rsp.payload.data))
  {
  }

  lemma SwitchOnTracks(a: AdvSet, c: Chip, k: Calls)
    requires Tracked(a, c) && a.mode.enabled
    requires A.Length(a.adv.data) > 0 && c.data == Prefix(a.adv.data)
    requires a.rsp.enabled ==> A.Length(a.rsp.payload.data) > 0 && c.scanData == Prefix(a.rsp.payload.data)
    ensures var x := SwitchOn(a, c, k);
            && Tracked(x.set_, x.chip) && SameContent(a, x.set_)
            && (x.ok ==> OnChip(x.set_, x.chip) && !x.set_.mode.changed)
            && (!x.ok ==> x.set_.mode.changed == a.mode.changed)
            && (x.ok && a.mode.changed ==> !x.chip.flags.paused && x.chip.flags.scan == a.rsp.enabled)
            && (!a.mode.changed ==> x.chip == c && x.set_ == a)
  {
  }

  lemma ApplySetTracks(a: AdvSet, c: Chip, k: Calls)
    requires Tracked(a, c) && a.mode.enabled
    ensures var x := ApplySet(a, c, k);
            && Tracked(x.set_, x.chip) && SameContent(a, x.set_)
            && (x.ok ==> OnChip(x.set_, x.chip) && !x.set_.mode.changed)
            && (!x.ok ==> x.set_.mode.changed == a.mode.changed)
            && (x.ok && a.mode.changed ==> !x.chip.flags.paused && x.chip.flags.scan == a.rsp.enabled)
            && (!a.mode.changed ==> x.chip.flags == c.flags && x.set_.mode == a.mode)
  {
    hide PushData, PushScanData, SwitchOn, SwitchOff;
    var c0 := if a.mode.changed then SwitchOff(c, k).0 else c;
    PushDataTracks(a, c0, k);
    var x := PushData(a, c0, k);
    PushScanDataTracks(x.set_, x.chip, k);
    var y := PushScanData(x.set_, x.chip, k);
    if x.ok && y.ok {
      SwitchOnTracks(y.set_, y.chip, k);
    }
  }

  // ---- The operations ----

  /** Positions in the payloads. */
  const MSG_TYPE := 21
  const MSG := 22
  const TOKEN := 24
  const UUID := 6
  const MINOR := 24
  const SIZE := 28

  function Overlay(data: Bytes, at: nat, b: Bytes): (r: Bytes)
    requires at + |b| <= |data|
    ensures |r| == |data|
    ensures r[at..at + |b|] == b && r[..at] == data[..at] && r[at + |b|..] == data[at + |b|..]
  {
    data[..at] + b + data[at + |b|..]
  }

  /** A new pairing token; `passkeyOk` says whether the chip takes its passkey. */
  datatype Token = NoToken | Token(bytes: Bytes, passkeyOk: bool)

  predicate IsToken(t: Token) {
    t.Token? ==> |t.bytes| == 4
  }

  function WithToken(g: AdvSet, t: Token): AdvSet
    requires IsToken(t) && |g.adv.data| == SIZE
  {
    if t.NoToken? then g else g.(adv := Payload(Overlay(g.adv.data, TOKEN, t.bytes), true))
  }

  predicate TokenWorks(t: Token) {
    t.Token? && t.passkeyOk
  }

  predicate NameEnabled(conf: Conf, connectable: bool) {
    match conf.naming
    case Never => false
    case WhenConnectable => connectable
    case WhenBroadcasting => true
  }

  /** Bytes kept for the pairing token are not overwritten while connectable. */
  function WithMessage(data: Bytes, connectable: bool, msgType: A.Byte, msg: Bytes): Bytes
    requires |data| == SIZE && |msg| == 6
  {
    Overlay(Overlay(data, MSG_TYPE, [msgType]), MSG, if connectable then msg[..TOKEN - MSG] else msg)
  }

  predicate Renews(g: AdvSet, connectable: bool) {
    !g.mode.enabled || connectable != g.mode.connectable
  }

  function EnabledSet(conf: Conf, g: AdvSet, connectable: bool, msgType: A.Byte, msg: Bytes, t: Token): AdvSet
    requires IsToken(t) && |g.adv.data| == SIZE && |msg| == 6
  {
    var renew := Renews(g, connectable);
    var pairs := renew && conf.viaBle && connectable;
    var g1 := if pairs then WithToken(g, t) else g;
    var con := if pairs then TokenWorks(t) else connectable;
    AdvSet(Mode(true, con, renew || g.mode.changed),
           Payload(WithMessage(g1.adv.data, con, msgType, msg), true),
           Response(NameEnabled(conf, con), Payload(g.rsp.payload.data, true)))
  }

  datatype Beacon = Beacon(enable: bool, uuid: Bytes, major: Bytes, power: A.Byte, minors: seq<nat>, interval: nat)

  predicate IsBeacon(b: Beacon) {
    |b.uuid| == 16 && |b.major| == 2 && |b.minors| == 4 && forall m | m in b.minors :: m < 0x1_0000
  }

  function Compact(minors: seq<nat>): (r: seq<nat>)
    ensures |r| <= |minors| && forall m | m in r :: m in minors && m != 0
  {
    if minors == [] then []
    else (if minors[0] != 0 then [minors[0]] else []) + Compact(minors[1..])
  }

  function BigEndian(n: nat): Bytes
    requires n < 0x1_0000
  {
    assert n / 256 <= 255;
    [n / 256, n % 256]
  }

  function MinorOf(data: Bytes): nat
    requires |data| == SIZE
  {
    256 * (data[MINOR] as int) + data[MINOR + 1] as int
  }

  function WithMinor(data: Bytes, m: nat): (r: Bytes)
    requires |data| == SIZE && m < 0x1_0000
    ensures |r| == SIZE && MinorOf(r) == m
  {
    var r := Overlay(data, MINOR, BigEndian(m));
    assert r[MINOR..MINOR + 2] == BigEndian(m);
    r
  }

  function Configured(p: AdvSet, b: Beacon): (r: AdvSet)
    requires IsBeacon(b) && |p.adv.data| == SIZE && Compact(b.minors) != []
    ensures |r.adv.data| == SIZE && MinorOf(r.adv.data) == Compact(b.minors)[0]
  {
    assert Compact(b.minors)[0] in Compact(b.minors);
    var data := Overlay(Overlay(Overlay(p.adv.data, UUID, b.uuid), UUID + 16, b.major), MINOR + 2, [b.power]);
    p.(mode := Mode(b.enable, p.mode.connectable, true),
       adv := p.adv.(data := WithMinor(data, Compact(b.minors)[0])))
  }

  // ---- Rotation of the minor numbers ----

  function IndexOf(minors: seq<nat>, m: nat): (i: nat)
    requires m in minors
    ensures i < |minors| && minors[i] == m && m !in minors[..i]
  {
    if minors[0] == m then 0 else
      var i := IndexOf(minors[1..], m);
      assert minors[..i + 1] == [minors[0]] + minors[1..][..i];
      i + 1
  }

  function NextMinor(minors: seq<nat>, m: nat): (r: nat)
    requires m in minors
    ensures r in minors
  {
    var i := IndexOf(minors, m) + 1;
    if i >= |minors| then minors[0] else minors[i]
  }

  datatype Rotation = Rotation(minors: seq<nat>, timer: bool)

  datatype Sys = Sys(core: Core, rot: Rotation)

  datatype Event =
    | Enable(connectable: bool, msgType: A.Byte, msg: Bytes, token: Token, k: Calls)
    | Disable(k: Calls)
    | Configure(beacon: Beacon, k: Calls)
    | Rotate(k: Calls)
    | Connect
    | Disconnect(token: Token, k1: Calls, k2: Calls)

  predicate CanHappen(s: Sys, e: Event) {
    match e
    case Enable(_, _, msg, token, _) => |msg| == 6 && IsToken(token)
    case Disable(_) => true
    case Configure(b, _) => IsBeacon(b)
    case Rotate(_) => s.rot.timer
    case Connect => s.core.chip.flags.on && s.core.chip.flags.connectable
    case Disconnect(token, _, _) => IsToken(token)
  }

  predicate Shaped(s: Sys) {
    && |s.core.sets| == 2 && -1 <= s.core.last < 2
    && |s.core.sets[0].adv.data| == SIZE && |s.core.sets[1].adv.data| == SIZE
    && (s.rot.timer ==> MinorOf(s.core.sets[1].adv.data) in s.rot.minors)
    && (forall m | m in s.rot.minors :: m < 0x1_0000)
  }

  /** The outcome of an event and whether its last application returned true. */
  datatype Step = Step(sys: Sys, ok: bool)

  function Applying(s: Sys, i: nat, a: AdvSet, k: Calls): (r: Step)
    requires i < |s.core.sets|
    ensures |r.sys.core.sets| == |s.core.sets|
  {
    var r := Apply(s.core.(sets := s.core.sets[i := a]), k);
    Step(s.(core := r.core), r.ok)
  }

  /** A device has gone: a new token, and advertising is started again. */
  function Gone(g: AdvSet, t: Token): AdvSet {
    g.(mode := Mode(g.mode.enabled, g.mode.connectable && TokenWorks(t), g.mode.changed || g.mode.enabled))
  }

  function Next(s: Sys, e: Event, conf: Conf): Step
    requires Shaped(s) && CanHappen(s, e)
  {
    var g, p := s.core.sets[0], s.core.sets[1];
    match e
    case Enable(connectable, msgType, msg, token, k) =>
      Applying(s, 0, EnabledSet(conf, g, connectable, msgType, msg, token), k)
    case Disable(k) => Applying(s, 0, g.(mode := g.mode.(enabled := false)), k)
    case Configure(b, k) =>
      if Compact(b.minors) == []
      then
        var sets := s.core.sets[1 := p.(mode := p.mode.(enabled := false))];
        Step(Sys(s.core.(sets := sets), Rotation([], false)), false)
      else
        var r := Applying(s, 1, Configured(p, b), k);
        var rotates := r.ok && b.enable && |Compact(b.minors)| > 1 && b.interval > 0;
        r.(sys := r.sys.(rot := Rotation(Compact(b.minors), rotates)))
    case Rotate(k) =>
      var m := NextMinor(s.rot.minors, MinorOf(p.adv.data));
      Applying(s, 1, p.(adv := Payload(WithMinor(p.adv.data, m), true)), k)
    case Connect =>
      var c := s.core.chip;
      Step(s.(core := s.core.(chip := c.(flags := c.flags.(paused := true)))), false)
    case Disconnect(token, k1, k2) =>
      var s1 := if token.Token? then Applying(s, 0, WithToken(g, token), k1).sys else s;
      Applying(s1, 0, Gone(s1.core.sets[0], token), k2)
  }

  // ---- What every event keeps ----

  /** The active set is tracked by the chip; only a device that connected to the general
      set pauses advertising behind the marks. */
  predicate CoreInv(s: Core) {
    && |s.sets| == 2 && -1 <= s.last < 2
    && (s.last >= 0 && s.sets[s.last].mode.enabled ==> Tracked(s.sets[s.last], s.chip))
    && !s.sets[1].mode.connectable
    && (s.last == 1 && s.sets[1].mode.enabled && !s.sets[1].mode.changed ==> !s.chip.flags.paused)
  }

  /** While enabled, the name is advertised at least as the build asks. */
  predicate Named(conf: Conf, g: AdvSet) {
    g.mode.enabled && NameEnabled(conf, g.mode.connectable) ==> g.rsp.enabled
  }

  /** The assertions of the rotation hold while its timer runs. */
  predicate Rotates(s: Sys) {
    s.rot.timer ==> |s.core.sets| == 2 && s.core.sets[1].mode.enabled
  }

  predicate Inv(conf: Conf, s: Sys) {
    Shaped(s) && CoreInv(s.core) && Named(conf, s.core.sets[0]) && Rotates(s)
  }

  /** All of the first enabled set is on the chip, or advertising is off. */
  predicate Agrees(s: Core) {
    var i := First(s.sets);
    if i < 0 then !s.chip.flags.on && !s.chip.flags.connectable else OnChip(s.sets[i], s.chip)
  }

  predicate SameSets(s: Core, t: Core) {
    |t.sets| == |s.sets| && forall i | 0 <= i < |s.sets| :: SameContent(s.sets[i], t.sets[i])
  }

  lemma ApplyNone(s: Core, k: Calls)
    requires CoreInv(s) && First(s.sets) < 0
    ensures var r := Apply(s, k); CoreInv(r.core) && SameSets(s, r.core) && (r.ok ==> Agrees(r.core))
  {
  }

  lemma ApplyFirst(s: Core, k: Calls)
    requires CoreInv(s) && First(s.sets) >= 0
    ensures var r := Apply(s, k); CoreInv(r.core) && SameSets(s, r.core) && (r.ok ==> Agrees(r.core))
    ensures var r := Apply(s, k); var i := First(s.sets);
            r.core.last == i && (r.ok ==> !r.core.sets[i].mode.changed)
    ensures var r := Apply(s, k); var i := First(s.sets);
            r.ok && (s.sets[i].mode.changed || i != s.last) ==>
              !r.core.chip.flags.paused && r.core.chip.flags.scan == s.sets[i].rsp.enabled
    ensures !s.sets[First(s.sets)].mode.changed && First(s.sets) == s.last ==>
            Apply(s, k).core.chip.flags == s.chip.flags
  {
    hide ApplySet, OnChip;
    var i := First(s.sets);
    var a := s.sets[i];
    ApplySetTracks(if i == s.last then a else a.(mode := a.mode.(changed := true)), s.chip, k);
    assert First(Apply(s, k).core.sets) == i;
  }

  lemma ApplyKeeps(conf: Conf, s: Sys, k: Calls)
    requires Inv(conf, s)
    ensures var r := Apply(s.core, k); Inv(conf, s.(core := r.core)) && (r.ok ==> Agrees(r.core))
  {
    hide Apply, Agrees, First;
    if First(s.core.sets) < 0 { ApplyNone(s.core, k); } else { ApplyFirst(s.core, k); }
    assert SameContent(s.core.sets[0], Apply(s.core, k).core.sets[0]);
    assert SameContent(s.core.sets[1], Apply(s.core, k).core.sets[1]);
  }

  /** The sets as an event leaves them, before they are applied. */
  function Prepared(s: Sys, i: nat, a: AdvSet): Sys
    requires i < |s.core.sets|
  {
    s.(core := s.core.(sets := s.core.sets[i := a]))
  }

  lemma EnableKeeps(conf: Conf, s: Sys, e: Event)
    requires Inv(conf, s) && e.Enable? && CanHappen(s, e)
    ensures Inv(conf, Prepared(s, 0, EnabledSet(conf, s.core.sets[0], e.connectable, e.msgType, e.msg, e.token)))
  {
  }

  lemma DisableKeeps(conf: Conf, s: Sys)
    requires Inv(conf, s)
    ensures var g := s.core.sets[0]; Inv(conf, Prepared(s, 0, g.(mode := g.mode.(enabled := false))))
  {
  }

  lemma ConfigureKeeps(conf: Conf, s: Sys, b: Beacon)
    requires Inv(conf, s) && IsBeacon(b) && Compact(b.minors) != []
    ensures Inv(conf, Prepared(s, 1, Configured(s.core.sets[1], b)).(rot := Rotation(Compact(b.minors), b.enable)))
  {
  }

  lemma RotateKeeps(conf: Conf, s: Sys)
    requires Inv(conf, s) && s.rot.timer
    ensures var p := s.core.sets[1]; var m := NextMinor(s.rot.minors, MinorOf(p.adv.data));
            Inv(conf, Prepared(s, 1, p.(adv := Payload(WithMinor(p.adv.data, m), true))))
  {
  }

  lemma TokenKeeps(conf: Conf, s: Sys, t: Token)
    requires Inv(conf, s) && IsToken(t)
    ensures Inv(conf, Prepared(s, 0, WithToken(s.core.sets[0], t)))
  {
  }

  lemma GoneKeeps(conf: Conf, s: Sys, t: Token)
    requires Inv(conf, s)
    ensures Inv(conf, Prepared(s, 0, Gone(s.core.sets[0], t)))
  {
  }

  lemma StepKeeps(conf: Conf, s: Sys, e: Event)
    requires Inv(conf, s) && CanHappen(s, e)
    ensures var r := Next(s, e, conf); Inv(conf, r.sys) && (r.ok ==> Agrees(r.sys.core))
  {
    hide Apply, Agrees, CoreInv, First, EnabledSet, WithToken, Gone, WithMinor, NextMinor, MinorOf;
    var g, p := s.core.sets[0], s.core.sets[1];
    match e
    case Enable(connectable, msgType, msg, token, k) =>
      EnableKeeps(conf, s, e);
      ApplyKeeps(conf, Prepared(s, 0, EnabledSet(conf, g, connectable, msgType, msg, token)), k);
    case Disable(k) =>
      DisableKeeps(conf, s);
      ApplyKeeps(conf, Prepared(s, 0, g.(mode := g.mode.(enabled := false))), k);
    case Configure(b, k) => ConfigureStep(conf, s, e);
    case Rotate(k) =>
      RotateKeeps(conf, s);
      var m := NextMinor(s.rot.minors, MinorOf(p.adv.data));
      ApplyKeeps(conf, Prepared(s, 1, p.(adv := Payload(WithMinor(p.adv.data, m), true))), k);
    case Connect => ConnectKeeps(conf, s);
    case Disconnect(token, k1, k2) =>
      TokenKeeps(conf, s, token);
      ApplyKeeps(conf, Prepared(s, 0, WithToken(g, token)), k1);
      var s1 := if token.Token? then Applying(s, 0, WithToken(g, token), k1).sys else s;
      GoneKeeps(conf, s1, token);
      ApplyKeeps(conf, Prepared(s1, 0, Gone(s1.core.sets[0], token)), k2);
  }

  lemma ConfigureStep(conf: Conf, s: Sys, e: Event)
    requires Inv(conf, s) && e.Configure? && CanHappen(s, e)
    ensures var r := Next(s, e, conf); Inv(conf, r.sys) && (r.ok ==> Agrees(r.sys.core))
  {
    if Compact(e.beacon.minors) != [] {
      hide Apply, Agrees, First, Configured;
      ConfigureKeeps(conf, s, e.beacon);
      var rot := Rotation(Compact(e.beacon.minors), e.beacon.enable);
      var t := Prepared(s, 1, Configured(s.core.sets[1], e.beacon)).(rot := rot);
      ApplyKeeps(conf, t, e.k);
    }
  }

  lemma ConnectKeeps(conf: Conf, s: Sys)
    requires Inv(conf, s) && CanHappen(s, Connect)
    ensures Inv(conf, Next(s, Connect, conf).sys)
  {
  }

  // ---- Every run ----

  /** After initialization no set is enabled and nothing rotates. */
  predicate Initial(s: Sys) {
    && Shaped(s) && s.core.last == -1 && s.rot == Rotation([], false)
    && (forall i | 0 <= i < 2 :: !s.core.sets[i].mode.enabled && !s.core.sets[i].mode.connectable)
  }

  predicate CanRun(conf: Conf, s: Sys, es: seq<Event>)
    decreases |es|
  {
    es == [] || (Shaped(s) && CanHappen(s, es[0]) && CanRun(conf, Next(s, es[0], conf).sys, es[1..]))
  }

  function Run(conf: Conf, s: Sys, es: seq<Event>): Sys
    requires CanRun(conf, s, es)
    decreases |es|
  {
    if es == [] then s else Run(conf, Next(s, es[0], conf).sys, es[1..])
  }

  lemma {:induction false} RunKeeps(conf: Conf, s: Sys, es: seq<Event>)
    requires Inv(conf, s) && CanRun(conf, s, es)
    ensures Inv(conf, Run(conf, s, es))
    decreases |es|
  {
    hide Next, Inv;
    if es == [] {
    } else {
      StepKeeps(conf, s, es[0]);
      RunKeeps(conf, Next(s, es[0], conf).sys, es[1..]);
    }
  }

  /** Main result: in every run, whatever calls the chip refused before, an application
      that returns true leaves all of the first enabled set on the chip, or the chip off. */
  lemma AgreesInEveryRun(conf: Conf, s: Sys, es: seq<Event>, e: Event)
    requires Initial(s) && CanRun(conf, s, es) && CanHappen(Run(conf, s, es), e)
    ensures Inv(conf, Run(conf, s, es))
    ensures var r := Next(Run(conf, s, es), e, conf); r.ok ==> Agrees(r.sys.core)
  {
    assert Inv(conf, s);
    hide Next, Inv;
    RunKeeps(conf, s, es);
    StepKeeps(conf, Run(conf, s, es), e);
  }

  // ---- Connections ----

  /** Main result: once a device has gone and the chip took all calls, advertising runs
      again. */
  lemma GoneRestarts(conf: Conf, s: Sys, e: Event)
    requires Inv(conf, s) && e.Disconnect? && CanHappen(s, e)
    ensures var r := Next(s, e, conf); r.ok && First(r.sys.core.sets) >= 0 ==> !r.sys.core.chip.flags.paused
  {
    hide Apply, EnabledSet, WithToken;
    var g := s.core.sets[0];
    TokenKeeps(conf, s, e.token);
    ApplyKeeps(conf, Prepared(s, 0, WithToken(g, e.token)), e.k1);
    var s1 := if e.token.Token? then Applying(s, 0, WithToken(g, e.token), e.k1).sys else s;
    GoneKeeps(conf, s1, e.token);
    var t := Prepared(s1, 0, Gone(s1.core.sets[0], e.token));
    ApplyOnce(t.core, e.k2);
  }

  /** A successful application starts advertising again exactly when the mode is sent. */
  lemma ApplyOnce(s: Core, k: Calls)
    requires CoreInv(s)
    ensures var r := Apply(s, k); var i := First(s.sets);
            && First(r.core.sets) == i
            && (r.ok && i >= 0 ==>
                  if s.sets[i].mode.changed || i != s.last
                  then !r.core.chip.flags.paused && r.core.chip.flags.scan == s.sets[i].rsp.enabled
                  else r.core.chip.flags == s.chip.flags)
  {
    hide OnChip, Tracked, ApplySet;
    if First(s.sets) >= 0 {
      ApplyFirst(s, k);
      assert SameSets(s, Apply(s, k).core);
    }
  }

  /** An update of the general set leaves advertising paused exactly when a device is
      connected and the mode is not sent. */
  lemma PausedExactly(conf: Conf, s: Sys, e: Event)
    requires Inv(conf, s) && e.Enable? && CanHappen(s, e) && Next(s, e, conf).ok
    ensures var g := s.core.sets[0];
            Next(s, e, conf).sys.core.chip.flags.paused <==>
              s.core.chip.flags.paused && s.core.last == 0 && !g.mode.changed && !Renews(g, e.connectable)
  {
    hide Apply;
    var a := EnabledSet(conf, s.core.sets[0], e.connectable, e.msgType, e.msg, e.token);
    EnableKeeps(conf, s, e);
    ApplyOnce(Prepared(s, 0, a).core, e.k);
  }

  /** Enabling leaves the scan response of the chip as the set asks exactly when the mode
      is sent or the request was there before. */
  lemma ScanResponseExactly(conf: Conf, s: Sys, e: Event)
    requires Inv(conf, s) && e.Enable? && CanHappen(s, e) && Next(s, e, conf).ok
    requires s.core.chip.flags.scan == s.core.sets[0].rsp.enabled
    ensures var g := s.core.sets[0]; var r := Next(s, e, conf).sys.core;
            (r.chip.flags.scan == r.sets[0].rsp.enabled) <==>
              (g.mode.changed || s.core.last != 0 || Renews(g, e.connectable) ||
               g.rsp.enabled == NameEnabled(conf, g.mode.connectable))
  {
    hide Apply;
    var a := EnabledSet(conf, s.core.sets[0], e.connectable, e.msgType, e.msg, e.token);
    EnableKeeps(conf, s, e);
    var t := Prepared(s, 0, a);
    ApplyOnce(t.core, e.k);
    ApplyFirst(t.core, e.k);
    assert SameContent(a, Apply(t.core, e.k).core.sets[0]);
  }

  /** The way to a stale scan response: no token for the next device, then an update of
      the now unconnectable set.  The chip goes on answering scans. */
  lemma StaleScanResponse(conf: Conf, s: Sys, gone: Event, e: Event)
    requires Inv(conf, s) && conf.naming.WhenConnectable?
    requires s.core.sets[0].mode.enabled && s.core.sets[0].mode.connectable
    requires gone.Disconnect? && gone.token.NoToken? && Next(s, gone, conf).ok
    requires e.Enable? && !e.connectable && |e.msg| == 6 && IsToken(e.token)
    requires Inv(conf, Next(s, gone, conf).sys) && Next(Next(s, gone, conf).sys, e, conf).ok
    ensures var r := Next(Next(s, gone, conf).sys, e, conf).sys.core;
            !r.sets[0].rsp.enabled && r.chip.flags.scan
  {
    hide Apply;
    var t := Prepared(s, 0, Gone(s.core.sets[0], NoToken));
    GoneKeeps(conf, s, NoToken);
    ApplyOnce(t.core, gone.k2);
    ApplyFirst(t.core, gone.k2);
    var s1 := Next(s, gone, conf).sys;
    assert SameContent(t.core.sets[0], s1.core.sets[0]);
    var a := EnabledSet(conf, s1.core.sets[0], e.connectable, e.msgType, e.msg, e.token);
    EnableKeeps(conf, s1, e);
    ApplyOnce(Prepared(s1, 0, a).core, e.k);
    ApplyFirst(Prepared(s1, 0, a).core, e.k);
    assert SameContent(a, Next(s1, e, conf).sys.core.sets[0]);
  }

  /** While a connectable set is only updated, its pairing token stays. */
  lemma TokenProtected(conf: Conf, g: AdvSet, connectable: bool, msgType: A.Byte, msg: Bytes, t: Token)
    requires IsToken(t) && |g.adv.data| == SIZE && |msg| == 6
    requires !Renews(g, connectable) && connectable
    ensures EnabledSet(conf, g, connectable, msgType, msg, t).adv.data[TOKEN..] == g.adv.data[TOKEN..]
  {
    var d := Overlay(g.adv.data, MSG_TYPE, [msgType]);
    assert d[TOKEN..] == d[MSG_TYPE + 1..][TOKEN - MSG_TYPE - 1..];
    assert g.adv.data[TOKEN..] == g.adv.data[MSG_TYPE + 1..][TOKEN - MSG_TYPE - 1..];
  }

  /** Where the arguments of an update end up: the message after its type, the token in
      place of its last four bytes while connectable, and nothing else changes. */
  lemma MessageWritten(conf: Conf, g: AdvSet, connectable: bool, msgType: A.Byte, msg: Bytes, t: Token)
    requires IsToken(t) && |g.adv.data| == 28 && |msg| == 6
    ensures var r := EnabledSet(conf, g, connectable, msgType, msg, t);
            var data := r.adv.data; var renew := !g.mode.enabled || connectable != g.mode.connectable;
            && |data| == 28 && data[..21] == g.adv.data[..21] && data[21] == msgType && data[22..24] == msg[..2]
            && (!r.mode.connectable ==> data[24..] == msg[2..])
            && (r.mode.connectable && conf.viaBle && renew ==> t.Token? && t.passkeyOk && data[24..] == t.bytes)
            && (r.mode.connectable && !(conf.viaBle && renew) ==> data[24..] == g.adv.data[24..])
  {
    var renew := Renews(g, connectable) && conf.viaBle && connectable;
    var d0 := if renew then WithToken(g, t).adv.data else g.adv.data;
    var d1 := Overlay(d0, MSG_TYPE, [msgType]);
    var r := EnabledSet(conf, g, connectable, msgType, msg, t);
    assert d0[..MSG_TYPE] == g.adv.data[..MSG_TYPE];
    assert d1[..MSG][..MSG_TYPE] == d0[..MSG_TYPE] && d1[MSG_TYPE..MSG] == [msgType];
    assert r.adv.data[..MSG] == d1[..MSG];
    assert r.adv.data[..MSG_TYPE] == r.adv.data[..MSG][..MSG_TYPE];
    assert d1[TOKEN..] == d1[MSG_TYPE + 1..][TOKEN - MSG_TYPE - 1..];
    assert d0[TOKEN..] == d0[MSG_TYPE + 1..][TOKEN - MSG_TYPE - 1..];
    if !r.mode.connectable {
      assert r.adv.data[MSG..MSG + 6] == msg;
      assert r.adv.data[MSG..TOKEN] == r.adv.data[MSG..MSG + 6][..TOKEN - MSG];
      assert r.adv.data[TOKEN..] == r.adv.data[MSG..MSG + 6][TOKEN - MSG..];
    } else if renew {
      assert d0[TOKEN..] == t.bytes;
    }
  }

  lemma OverlayAt(data: Bytes, at: nat, b: Bytes, i: nat)
    requires at + |b| <= |data| && i < |data|
    ensures Overlay(data, at, b)[i] == if at <= i < at + |b| then b[i - at] else data[i]
  {
  }

  lemma ConfiguredAt(p: AdvSet, b: Beacon, i: nat)
    requires IsBeacon(b) && |p.adv.data| == 28 && Compact(b.minors) != [] && i < 28 && i != 24 && i != 25
    ensures var data := Configured(p, b).adv.data;
            && |data| == 28
            && (i < 6 || i == 27 ==> data[i] == p.adv.data[i])
            && (6 <= i < 22 ==> data[i] == b.uuid[i - 6])
            && (22 <= i < 24 ==> data[i] == b.major[i - 22])
            && (i == 26 ==> data[i] == b.power)
  {
    hide Compact, Overlay, BigEndian;
    var d1 := Overlay(p.adv.data, UUID, b.uuid);
    var d2 := Overlay(d1, UUID + 16, b.major);
    var d3 := Overlay(d2, MINOR + 2, [b.power]);
    OverlayAt(p.adv.data, UUID, b.uuid, i);
    OverlayAt(d1, UUID + 16, b.major, i);
    OverlayAt(d2, MINOR + 2, [b.power], i);
    assert Compact(b.minors)[0] in Compact(b.minors);
    WithMinorAt(d3, Compact(b.minors)[0], i);
  }

  lemma WithMinorAt(data: Bytes, m: nat, i: nat)
    requires |data| == 28 && m < 0x1_0000 && i < 28 && i != 24 && i != 25
    ensures WithMinor(data, m)[i] == data[i]
  {
    OverlayAt(data, MINOR, BigEndian(m), i);
  }

  /** Where the configuration of the beacon ends up. */
  lemma BeaconWritten(p: AdvSet, b: Beacon)
    requires IsBeacon(b) && |p.adv.data| == SIZE && Compact(b.minors) != []
    ensures var r := Configured(p, b);
            && r.mode.enabled == b.enable && r.mode.changed
            && r.adv.data[..6] == p.adv.data[..6] && r.adv.data[6..22] == b.uuid && r.adv.data[22..24] == b.major
            && 256 * (r.adv.data[24] as int) + r.adv.data[25] as int == Compact(b.minors)[0]
            && r.adv.data[26] == b.power && r.adv.data[27..] == p.adv.data[27..]
  {
    assert Configured(p, b).mode == Mode(b.enable, p.mode.connectable, true);
    hide Configured, Compact;
    var data := Configured(p, b).adv.data;
    forall i: nat | i < 28 && i != 24 && i != 25
      ensures (i < 6 || i == 27 ==> data[i] == p.adv.data[i])
      ensures (6 <= i < 22 ==> data[i] == b.uuid[i - 6]) && (22 <= i < 24 ==> data[i] == b.major[i - 22])
      ensures i == 26 ==> data[i] == b.power
    {
      ConfiguredAt(p, b, i);
    }
  }

  // ---- What each request does to the sets and the chip ----

  /** One set is replaced, and what is sent is what the sets hold. */
  lemma ApplyingShows(conf: Conf, s: Sys, i: nat, a: AdvSet, k: Calls)
    requires |s.core.sets| == 2 && i < 2 && Inv(conf, Prepared(s, i, a))
    ensures var r := Applying(s, i, a, k);
            && r.sys.rot == s.rot && (r.ok ==> Agrees(r.sys.core))
            && SameContent(a, r.sys.core.sets[i]) && SameContent(s.core.sets[1 - i], r.sys.core.sets[1 - i])
  {
    hide Apply, Agrees, First, SameContent;
    var t := Prepared(s, i, a);
    if First(t.core.sets) < 0 { ApplyNone(t.core, k); } else { ApplyFirst(t.core, k); }
    var r := Apply(t.core, k).core;
    assert SameContent(t.core.sets[i], r.sets[i]) && SameContent(t.core.sets[1 - i], r.sets[1 - i]);
  }

  /** What an application that returned true has put on the chip. */
  lemma AgreesMeans(s: Core)
    requires |s.sets| == 2 && Agrees(s)
    ensures var g, p, c := s.sets[0], s.sets[1], s.chip;
            && c.flags.on == (g.mode.enabled || p.mode.enabled)
            && (g.mode.enabled ==>
                  c.data == g.adv.data[..A.Length(g.adv.data)] && c.flags.connectable == g.mode.connectable)
            && (!g.mode.enabled && p.mode.enabled ==>
                  c.data == p.adv.data[..A.Length(p.adv.data)] && c.flags.connectable == p.mode.connectable)
            && (!g.mode.enabled && !p.mode.enabled ==> !c.flags.connectable)
  {
  }

  /** Disabling disables: the general set is off, its contents stay, and the chip shows the
      beacon or nothing. */
  lemma DisableSwitchesOff(conf: Conf, s: Sys, k: Calls)
    requires Inv(conf, s)
    ensures var r := Next(s, Disable(k), conf); var g, p := s.core.sets[0], s.core.sets[1];
            var c := r.sys.core.chip;
            && !r.sys.core.sets[0].mode.enabled && r.sys.core.sets[0].adv.data == g.adv.data
            && SameContent(p, r.sys.core.sets[1])
            && (r.ok && !p.mode.enabled ==> !c.flags.on && !c.flags.connectable)
            && (r.ok && p.mode.enabled ==>
                  c.flags.on && !c.flags.connectable && c.data == p.adv.data[..A.Length(p.adv.data)])
  {
    hide Agrees, Apply;
    var g := s.core.sets[0];
    DisableKeeps(conf, s);
    ApplyingShows(conf, s, 0, g.(mode := g.mode.(enabled := false)), k);
    var r := Next(s, Disable(k), conf);
    if r.ok { AgreesMeans(r.sys.core); }
  }

  lemma DisabledSets(conf: Conf, s: Sys, k: Calls)
    requires Inv(conf, s)
    ensures Shaped(s)
    ensures var r := Next(s, Disable(k), conf); var t := r.sys.core;
            && |t.sets| == 2 && !t.sets[0].mode.enabled && SameContent(s.core.sets[1], t.sets[1])
            && (r.ok && !t.sets[1].mode.enabled ==> !t.chip.flags.on && !t.chip.flags.connectable)
  {
    hide Apply;
    DisableSwitchesOff(conf, s, k);
  }

  /** Enabling enables: the general set holds the message, it is connectable as asked
      unless a needed token fails, and the chip shows it when the calls were taken. */
  lemma EnableSends(conf: Conf, s: Sys, e: Event)
    requires Inv(conf, s) && e.Enable? && CanHappen(s, e)
    ensures var r := Next(s, e, conf); var was, g, c := s.core.sets[0], r.sys.core.sets[0], r.sys.core.chip;
            var renew := !was.mode.enabled || e.connectable != was.mode.connectable;
            && g.mode.enabled && SameContent(s.core.sets[1], r.sys.core.sets[1])
            && (g.mode.connectable <==>
                  e.connectable && (renew && conf.viaBle ==> e.token.Token? && e.token.passkeyOk))
            && (g.rsp.enabled <==>
                  conf.naming.WhenBroadcasting? || (conf.naming.WhenConnectable? && g.mode.connectable))
            && |g.adv.data| == 28 && g.adv.data[21] == e.msgType && g.adv.data[22..24] == e.msg[..2]
            && (!g.mode.connectable ==> g.adv.data[24..] == e.msg[2..])
            && (g.mode.connectable && renew && conf.viaBle ==> e.token.Token? && g.adv.data[24..] == e.token.bytes)
            && (r.ok ==> c.flags.on && c.flags.connectable == g.mode.connectable)
            && (r.ok ==> c.data == g.adv.data[..A.Length(g.adv.data)])
  {
    hide Agrees, Apply, WithMessage, Overlay;
    var was := s.core.sets[0];
    EnableKeeps(conf, s, e);
    MessageWritten(conf, was, e.connectable, e.msgType, e.msg, e.token);
    ApplyingShows(conf, s, 0, EnabledSet(conf, was, e.connectable, e.msgType, e.msg, e.token), e.k);
    var r := Next(s, e, conf);
    if r.ok { AgreesMeans(r.sys.core); }
  }

  /** A full payload goes over the air as it is: the type and the message are on the chip. */
  lemma EnableShowsMessage(conf: Conf, s: Sys, e: Event)
    requires Inv(conf, s) && e.Enable? && CanHappen(s, e) && Next(s, e, conf).ok
    requires A.Length(Next(s, e, conf).sys.core.sets[0].adv.data) == 28
    ensures var data := Next(s, e, conf).sys.core.chip.data;
            && |data| == 28 && data[21] == e.msgType && data[22..24] == e.msg[..2]
            && (!e.connectable ==> data[22..] == e.msg)
  {
    hide Apply, EnabledSet;
    StepKeeps(conf, s, e);
    EnableSends(conf, s, e);
    var data := Next(s, e, conf).sys.core.sets[0].adv.data;
    assert data[..28] == data;
    if !e.connectable {
      assert data[22..] == data[22..24] + data[24..];
      assert e.msg == e.msg[..2] + e.msg[2..];
    }
  }

  /** A rotation shows the number after the current one, and the first after the last. */
  lemma RotateShowsNext(conf: Conf, s: Sys, k: Calls, j: nat)
    requires Shaped(s) && Inv(conf, s) && s.rot.timer && j < |s.rot.minors|
    requires var data := s.core.sets[1].adv.data; s.rot.minors[j] == 256 * (data[24] as int) + data[25] as int
    requires s.rot.minors[j] !in s.rot.minors[..j]
    ensures var r := Next(s, Rotate(k), conf); var p, c := r.sys.core.sets[1], r.sys.core.chip;
            var was := s.core.sets[1].adv.data;
            && r.sys.rot == s.rot && SameContent(s.core.sets[0], r.sys.core.sets[0]) && p.mode.enabled
            && |p.adv.data| == 28 && p.adv.data[..24] == was[..24] && p.adv.data[26..] == was[26..]
            && (256 * (p.adv.data[24] as int) + p.adv.data[25] as int ==
                  s.rot.minors[if j + 1 < |s.rot.minors| then j + 1 else 0])
            && (r.ok && !s.core.sets[0].mode.enabled ==>
                  c.flags.on && c.data == p.adv.data[..A.Length(p.adv.data)])
  {
    hide Agrees, Apply;
    var p := s.core.sets[1];
    var m := NextMinor(s.rot.minors, MinorOf(p.adv.data));
    IndexIsFirst(s.rot.minors, s.rot.minors[j], j);
    RotateKeeps(conf, s);
    ApplyingShows(conf, s, 1, p.(adv := Payload(WithMinor(p.adv.data, m), true)), k);
    var r := Next(s, Rotate(k), conf);
    if r.ok { AgreesMeans(r.sys.core); }
  }

  /** A beacon with no number is off and nothing is sent; otherwise its data is taken, and
      it rotates when it was sent, is enabled, and has numbers and a period to rotate. */
  lemma ConfigureTakes(conf: Conf, s: Sys, e: Event)
    requires Inv(conf, s) && e.Configure? && CanHappen(s, e)
    ensures var r := Next(s, e, conf); var b, p, c := e.beacon, r.sys.core.sets[1], r.sys.core.chip;
            if forall m | m in b.minors :: m == 0 then
              !r.ok && !p.mode.enabled && !r.sys.rot.timer && c == s.core.chip
            else
              && p.mode.enabled == b.enable && |p.adv.data| == 28 && p.adv.data[6..22] == b.uuid
              && p.adv.data[22..24] == b.major && p.adv.data[26] == b.power
              && r.sys.rot.minors == Compact(b.minors) && |r.sys.rot.minors| > 0
              && 256 * (p.adv.data[24] as int) + p.adv.data[25] as int == r.sys.rot.minors[0]
              && (r.sys.rot.timer <==> r.ok && b.enable && |r.sys.rot.minors| >= 2 && b.interval > 0)
              && (r.ok && b.enable && !s.core.sets[0].mode.enabled ==>
                    c.flags.on && c.data == p.adv.data[..A.Length(p.adv.data)])
              && (r.ok && !b.enable && !s.core.sets[0].mode.enabled ==> !c.flags.on)
  {
    hide Agrees, Apply, First;
    var b, p := e.beacon, s.core.sets[1];
    CompactEmpty(b.minors);
    if Compact(b.minors) != [] {
      var rot := Rotation(Compact(b.minors), b.enable);
      ConfigureKeeps(conf, s, b);
      BeaconWritten(p, b);
      ApplyingShows(conf, s.(rot := rot), 1, Configured(p, b), e.k);
      var r := Next(s, e, conf);
      if r.ok { AgreesMeans(r.sys.core); }
    }
  }

  /** A device that connects pauses advertising and changes nothing else. */
  lemma ConnectPauses(conf: Conf, s: Sys)
    requires Shaped(s) && s.core.chip.flags.on && s.core.chip.flags.connectable
    ensures var t := Next(s, Connect, conf).sys; var c := s.core.chip;
            && t.rot == s.rot && t.core.sets == s.core.sets && t.core.last == s.core.last
            && t.core.chip == c.(flags := Flags(true, c.flags.scan, true, true))
  {
  }

  lemma {:induction false} CompactEmpty(minors: seq<nat>)
    ensures Compact(minors) == [] <==> forall m | m in minors :: m == 0
  {
    if minors == [] {
    } else {
      CompactEmpty(minors[1..]);
      assert |Compact(minors)| == (if minors[0] != 0 then 1 else 0) + |Compact(minors[1..])|;
      assert minors[0] in minors && forall m :: m in minors <==> m == minors[0] || m in minors[1..];
    }
  }

  /** The numbers that are not zero, in their order. */
  lemma {:induction false} CompactAppends(minors: seq<nat>, m: nat)
    ensures Compact(minors + [m]) == Compact(minors) + if m != 0 then [m] else []
  {
    var last := if m != 0 then [m] else [];
    if minors == [] {
      assert minors + [m] == [m] && [m][1..] == [];
      assert Compact([m]) == last + Compact([]);
    } else {
      var first := if minors[0] != 0 then [minors[0]] else [];
      CompactAppends(minors[1..], m);
      assert (minors + [m])[1..] == minors[1..] + [m] && (minors + [m])[0] == minors[0];
      assert first + (Compact(minors[1..]) + last) == first + Compact(minors[1..]) + last;
    }
  }

  /** When a device has gone, the next one finds a new token, or the set cannot be
      connected to any more. */
  lemma GoneRenews(conf: Conf, s: Sys, e: Event)
    requires Inv(conf, s) && e.Disconnect? && CanHappen(s, e)
    ensures var r := Next(s, e, conf); var was, g, c := s.core.sets[0], r.sys.core.sets[0], r.sys.core.chip;
            && g.mode.enabled == was.mode.enabled && |g.adv.data| == 28 && g.adv.data[..24] == was.adv.data[..24]
            && g.adv.data[24..] == (if e.token.Token? then e.token.bytes else was.adv.data[24..])
            && (g.mode.connectable <==> was.mode.connectable && e.token.Token? && e.token.passkeyOk)
            && (r.ok && was.mode.enabled ==>
                  && c.flags.on && c.flags.connectable == g.mode.connectable
                  && c.data == g.adv.data[..A.Length(g.adv.data)])
  {
    hide Agrees, Apply;
    var g := s.core.sets[0];
    var s1 := if e.token.Token? then Applying(s, 0, WithToken(g, e.token), e.k1).sys else s;
    if e.token.Token? {
      TokenKeeps(conf, s, e.token);
      ApplyingShows(conf, s, 0, WithToken(g, e.token), e.k1);
      ApplyKeeps(conf, Prepared(s, 0, WithToken(g, e.token)), e.k1);
    }
    GoneKeeps(conf, s1, e.token);
    ApplyingShows(conf, s1, 0, Gone(s1.core.sets[0], e.token), e.k2);
    var r := Next(s, e, conf);
    if r.ok { AgreesMeans(r.sys.core); }
  }

  // ---- Rotation ----

  function Shown(minors: seq<nat>, n: nat): (m: nat)
    requires minors != []
    ensures m in minors
  {
    if n == 0 then minors[0] else NextMinor(minors, Shown(minors, n - 1))
  }

  predicate Distinct(minors: seq<nat>) {
    forall i, j | 0 <= i < j < |minors| :: minors[i] != minors[j]
  }

  function FreshFrom(minors: seq<nat>, p: nat): (q: nat)
    requires p <= |minors| && Distinct(minors[..p])
    ensures IsFresh(minors, q)
    decreases |minors| - p
  {
    if p == |minors| || minors[p] in minors[..p] then p
    else
      assert minors[..p + 1] == minors[..p] + [minors[p]];
      FreshFrom(minors, p + 1)
  }

  /** The numbers before the first repetition. */
  predicate IsFresh(minors: seq<nat>, p: nat) {
    && p <= |minors| && Distinct(minors[..p])
    && (p < |minors| ==> minors[p] in minors[..p])
  }

  lemma NextIsFresh(minors: seq<nat>, p: nat, j: nat) returns (i: nat)
    requires IsFresh(minors, p) && j < p
    ensures i < p && NextMinor(minors, minors[j]) == minors[i]
    ensures j + 1 < p ==> i == j + 1
    ensures j + 1 == |minors| ==> i == 0
  {
    IndexIsFirst(minors, minors[j], j) by {
      assert forall q | 0 <= q < j :: minors[..p][q] != minors[..p][j];
    }
    if j + 1 < p || j + 1 == |minors| {
      i := if j + 1 < p then j + 1 else 0;
    } else {
      i :| 0 <= i < p && minors[..p][i] == minors[p];
    }
  }

  lemma {:induction false} ShowsFresh(minors: seq<nat>, p: nat, n: nat) returns (i: nat)
    requires minors != [] && IsFresh(minors, p)
    ensures i < p && Shown(minors, n) == minors[i]
    ensures n < p ==> i == n
  {
    hide IsFresh, NextMinor;
    if n == 0 {
      FreshIsNotEmpty(minors, p);
      i := 0;
    } else {
      i := ShowsFresh(minors, p, n - 1);
      i := NextIsFresh(minors, p, i);
    }
  }

  lemma FreshIsNotEmpty(minors: seq<nat>, p: nat)
    requires minors != [] && IsFresh(minors, p)
    ensures p > 0
  {
  }

  lemma WrapsAround(minors: seq<nat>, p: nat)
    requires p == |minors| > 0 && IsFresh(minors, p)
    ensures Shown(minors, p) == minors[0]
  {
    hide IsFresh, NextMinor;
    var i := ShowsFresh(minors, p, p - 1);
    i := NextIsFresh(minors, p, p - 1);
  }

  /** Distinct numbers are shown in turn. */
  lemma {:induction false} ShowsInTurn(minors: seq<nat>, n: nat)
    requires minors != [] && IsFresh(minors, |minors|)
    ensures Shown(minors, |minors| + n) == Shown(minors, n)
    ensures n < |minors| ==> Shown(minors, n) == minors[n]
  {
    hide IsFresh, NextMinor;
    var i := ShowsFresh(minors, |minors|, n);
    if n == 0 {
      WrapsAround(minors, |minors|);
    } else {
      ShowsInTurn(minors, n - 1);
      var m := |minors| + n;
      assert Shown(minors, m) == NextMinor(minors, Shown(minors, m - 1));
    }
  }

  ghost predicate IsShown(minors: seq<nat>, m: nat)
    requires minors != []
  {
    exists n: nat :: Shown(minors, n) == m
  }

  /** Main result: every number is shown in some period exactly when no new number comes
      after the first repetition. */
  lemma RotationShowsAll(minors: seq<nat>)
    requires minors != []
    ensures (forall m | m in minors :: IsShown(minors, m)) <==>
            (forall m | m in minors :: m in minors[..FreshFrom(minors, 0)])
  {
    var p := FreshFrom(minors, 0);
    forall m | IsShown(minors, m) ensures m in minors[..p] {
      var n: nat :| Shown(minors, n) == m;
      var i := ShowsFresh(minors, p, n);
      assert minors[..p][i] == m;
    }
    forall m | m in minors[..p] ensures IsShown(minors, m) {
      var j :| 0 <= j < p && minors[..p][j] == m;
      var i := ShowsFresh(minors, p, j);
    }
  }

  // ---- The manager as the source keeps it ----

  class Advertiser {
    var sets: seq<AdvSet>
    var last: int
    var chip: Chip
    var minors: seq<nat>
    var timer: bool

    function State(): Core
      reads this
    {
      Core(sets, last, chip)
    }

    function Value(): Sys
      reads this
    {
      Sys(State(), Rotation(minors, timer))
    }

    constructor (sets: seq<AdvSet>, chip: Chip)
      ensures Value() == Sys(Core(sets, -1, chip), Rotation([], false))
    {
      this.sets, last, this.chip := sets, -1, chip;
      minors, timer := [], false;
    }

    method DisableChip(k: Calls) returns (ok: bool)
      modifies this`chip
      ensures (chip, ok) == SwitchOff(old(chip), k)
    {
      chip := SetParams(chip, false, false, k.off);
      if k.off.Refused? { return false; }
      chip := SetConnectable(chip, false, k.unconnect);
      if k.unconnect.Refused? { return false; }
      return true;
    }

    method SendData(i: nat, k: Calls) returns (ok: bool)
      requires i < |sets|
      modifies this`sets, this`chip
      ensures var x := PushData(old(sets)[i], old(chip), k);
              sets == old(sets)[i := x.set_] && chip == x.chip && ok == x.ok
    {
      var a := sets[i];
      if a.adv.changed || a.mode.changed {
        var n := A.GetLength(a.adv.data);
        if n == 0 { return false; }
        chip := SetData(chip, a.adv.data[..n], k.data);
        if k.data.Refused? { return false; }
        sets := sets[i := a.(adv := a.adv.(changed := false))];
      }
      return true;
    }

    method SendScanData(i: nat, k: Calls) returns (ok: bool)
      requires i < |sets|
      modifies this`sets, this`chip
      ensures var x := PushScanData(old(sets)[i], old(chip), k);
              sets == old(sets)[i := x.set_] && chip == x.chip && ok == x.ok
    {
      var a := sets[i];
      if a.rsp.enabled && (a.rsp.payload.changed || a.mode.changed) {
        var n := A.GetLength(a.rsp.payload.data);
        if n == 0 { return false; }
        chip := SetScanData(chip, a.rsp.payload.data[..n], k.scanData);
        if k.scanData.Refused? { return false; }
        sets := sets[i := a.(rsp := a.rsp.(payload := a.rsp.payload.(changed := false)))];
      }
      return true;
    }

    method SendMode(i: nat, k: Calls) returns (ok: bool)
      requires i < |sets|
      modifies this`sets, this`chip
      ensures var x := SwitchOn(old(sets)[i], old(chip), k);
              sets == old(sets)[i := x.set_] && chip == x.chip && ok == x.ok
    {
      var a := sets[i];
      if a.mode.changed {
        chip := SetConnectable(chip, a.mode.connectable, k.connect);
        if k.connect.Refused? { return false; }
        chip := SetParams(chip, a.mode.enabled, a.rsp.enabled, k.on);
        if k.on.Refused? { return false; }
        sets := sets[i := a.(mode := a.mode.(changed := false))];
      }
      return true;
    }

    method ApplyOne(i: nat, k: Calls) returns (ok: bool)
      requires i < |sets|
      modifies this`sets, this`chip
      ensures var x := ApplySet(old(sets)[i], old(chip), k);
              sets == old(sets)[i := x.set_] && chip == x.chip && ok == x.ok
    {
      hide PushData, PushScanData, SwitchOn, SwitchOff;
      if !sets[i].mode.enabled || sets[i].mode.changed {
        ok := DisableChip(k);
        if !ok { return; }
      }
      if !sets[i].mode.enabled { return true; }
      ok := SendData(i, k);
      if !ok { return; }
      ok := SendScanData(i, k);
      if !ok { return; }
      ok := SendMode(i, k);
    }

    method ApplyAll(k: Calls) returns (success: bool)
      modifies this`sets, this`chip, this`last
      ensures var r := Apply(old(State()), k); State() == r.core && success == r.ok
    {
      hide ApplySet, SwitchOff;
      var active := -1;
      success := false;
      ghost var was := sets;
      var i := 0;
      while i < |sets|
        invariant 0 <= i <= |sets| == |was| && last == old(last)
        invariant active < 0 ==> active == -1 && sets == was && chip == old(chip) && !success
        invariant active < 0 ==> forall j | 0 <= j < i :: !was[j].mode.enabled
        invariant active >= 0 ==> active == First(was) < i
        invariant active >= 0 ==> Apply(old(State()), k) == Result(Core(sets, active, chip), success)
      {
        if active < 0 && sets[i].mode.enabled {
          assert First(was) == i;
          if i != last {
            sets := sets[i := sets[i].(mode := sets[i].mode.(changed := true))];
          }
          active := i;
          success := ApplyOne(i, k);
          assert sets == was[i := sets[i]];
        }
        i := i + 1;
      }
      if active < 0 {
        assert First(was) == -1;
        success := DisableChip(k);
      }
      last := active;
    }

    method EnablePairingTokens(skipApply: bool, t: Token, k: Calls) returns (ok: bool)
      requires |sets| == 2 && |sets[0].adv.data| == SIZE && IsToken(t)
      modifies this`sets, this`chip, this`last
      ensures ok == TokenWorks(t)
      ensures State() == if t.NoToken? then old(State())
                         else if skipApply then old(State()).(sets := old(sets)[0 := WithToken(old(sets)[0], t)])
                         else Apply(old(State()).(sets := old(sets)[0 := WithToken(old(sets)[0], t)]), k).core
    {
      if t.NoToken? { return false; }
      var g := sets[0];
      sets := sets[0 := g.(adv := Payload(Overlay(g.adv.data, TOKEN, t.bytes), true))];
      if !skipApply { var _ := ApplyAll(k); }
      if !t.passkeyOk { return false; }
      return true;
    }

    method WriteMessage(msgType: A.Byte, msg: Bytes)
      requires |sets| == 2 && |sets[0].adv.data| == SIZE && |msg| == 6
      modifies this`sets
      ensures var g := old(sets)[0];
              var data := WithMessage(g.adv.data, g.mode.connectable, msgType, msg);
              sets == old(sets)[0 := g.(adv := Payload(data, true))]
    {
      var data := Overlay(sets[0].adv.data, MSG_TYPE, [msgType]);
      if sets[0].mode.connectable {
        data := Overlay(data, MSG, msg[..TOKEN - MSG]);
      } else {
        data := Overlay(data, MSG, msg);
      }
      sets := sets[0 := sets[0].(adv := Payload(data, true))];
    }

    method EnableGeneral(conf: Conf, connectable: bool, msgType: A.Byte, msg: Bytes, t: Token, k: Calls)
      returns (ok: bool)
      requires Shaped(Value()) && |msg| == 6 && IsToken(t)
      modifies this`sets, this`chip, this`last
      ensures Step(Value(), ok) == Next(old(Value()), Enable(connectable, msgType, msg, t, k), conf)
    {
      hide Apply, Overlay, WithMessage;
      var con := connectable;
      ghost var g := sets[0];
      if !sets[0].mode.enabled || con != sets[0].mode.connectable {
        if conf.viaBle && con {
          con := EnablePairingTokens(true, t, k);
        }
        sets := sets[0 := sets[0].(mode := Mode(sets[0].mode.enabled, con, true))];
      }
      sets := sets[0 := sets[0].(mode := sets[0].mode.(enabled := true))];
      WriteMessage(msgType, msg);
      var a := sets[0];
      sets := sets[0 := a.(rsp := Response(NameEnabled(conf, a.mode.connectable), Payload(a.rsp.payload.data, true)))];
      assert sets[0] == EnabledSet(conf, g, connectable, msgType, msg, t);
      assert sets == old(sets)[0 := sets[0]];
      ok := ApplyAll(k);
    }

    method DisableGeneral(conf: Conf, k: Calls) returns (ok: bool)
      requires Shaped(Value())
      modifies this`sets, this`chip, this`last
      ensures Step(Value(), ok) == Next(old(Value()), Disable(k), conf)
      ensures Inv(conf, old(Value())) ==>
              && |sets| == 2 && !sets[0].mode.enabled && SameContent(old(sets)[1], sets[1])
              && (ok && !sets[1].mode.enabled ==> !chip.flags.on && !chip.flags.connectable)
    {
      hide Apply, Inv, SameContent;
      ghost var was := Value();
      sets := sets[0 := sets[0].(mode := sets[0].mode.(enabled := false))];
      ok := ApplyAll(k);
      if Inv(conf, was) { DisabledSets(conf, was, k); }
    }

    method DeviceDisconnected(conf: Conf, t: Token, k1: Calls, k2: Calls) returns (ok: bool)
      requires Shaped(Value()) && IsToken(t)
      modifies this`sets, this`chip, this`last
      ensures Step(Value(), ok) == Next(old(Value()), Disconnect(t, k1, k2), conf)
    {
      hide Apply;
      var works := EnablePairingTokens(false, t, k1);
      var g := sets[0];
      ghost var was := sets;
      if !works {
        sets := sets[0 := sets[0].(mode := sets[0].mode.(connectable := false))];
      }
      if sets[0].mode.enabled {
        sets := sets[0 := sets[0].(mode := sets[0].mode.(changed := true))];
      }
      assert sets == was[0 := Gone(g, t)];
      ok := ApplyAll(k2);
    }

    method TimerCallback(conf: Conf, k: Calls) returns (ok: bool)
      requires Inv(conf, Value()) && timer
      modifies this`sets, this`chip, this`last
      ensures Step(Value(), ok) == Next(old(Value()), Rotate(k), conf)
    {
      hide Apply, CoreInv, Named;
      assert sets[1].mode.enabled;
      var p := sets[1];
      var minor := MinorOf(p.adv.data);
      var i := 0;
      while i < |minors| && minors[i] != minor
        invariant 0 <= i <= |minors| && minor !in minors[..i]
      {
        i := i + 1;
      }
      assert minor in minors;
      assert i < |minors|;
      IndexIsFirst(minors, minor, i);
      i := i + 1;
      if i >= |minors| { i := 0; }
      assert minors[i] in minors;
      sets := sets[1 := p.(adv := Payload(WithMinor(p.adv.data, minors[i]), true))];
      ok := ApplyAll(k);
    }

    method ConfigureProximity(conf: Conf, b: Beacon, k: Calls) returns (ok: bool)
      requires Shaped(Value()) && IsBeacon(b)
      modifies this
      ensures Step(Value(), ok) == Next(old(Value()), Configure(b, k), conf)
    {
      hide Apply;
      timer := false;
      var repeat := 0;
      var p := sets[1];
      sets := sets[1 := p.(mode := p.mode.(enabled := false))];
      minors := CompactMinors(b.minors);
      if |minors| < 1 {
        assert minors == [];
        return false;
      }
      if |minors| > 1 && b.interval > 0 { repeat := b.interval; }
      sets := sets[1 := Configured(p, b)];
      assert sets == old(sets)[1 := Configured(p, b)];
      ok := ApplyAll(k);
      if ok && b.enable && repeat > 0 { timer := true; }
    }
  }

  lemma IndexIsFirst(minors: seq<nat>, m: nat, i: nat)
    requires i < |minors| && minors[i] == m && m !in minors[..i]
    ensures IndexOf(minors, m) == i
  {
    var j := IndexOf(minors, m);
    assert minors[j] == m && m !in minors[..j];
    assert !(j < i) by { assert forall q | 0 <= q < i :: minors[..i][q] != m; }
    assert !(i < j) by { assert forall q | 0 <= q < j :: minors[..j][q] != m; }
  }

  method CompactMinors(minors: seq<nat>) returns (r: seq<nat>)
    ensures r == Compact(minors)
  {
    r := [];
    var i := 0;
    while i < |minors|
      invariant 0 <= i <= |minors|
      invariant r + Compact(minors[i..]) == Compact(minors)
    {
      if minors[i] != 0 {
        r := r + [minors[i]];
      }
      i := i + 1;
    }
    assert minors[i..] == [];
  }
}
