/**
 The connection state machine of the connection manager (src/cm2/src/cm2_event.c).

 One call of `cm2_update_state` runs passes over the machine until a pass leaves the
 state alone.  The clock, the connection to the controller and the configuration stand
 still during a call; every other answer of the outside world may differ from pass to
 pass and is read from an `Answers` record.
 */
module UpdateState {

  datatype St =
    | Init | LinkSel | WanIp | NtpCheck | OvsInit | TryResolve | ReConnect | TryConnect
    | FastReconnect | FastReconnectWait | Connected | Internet | QuiesceOvs

  datatype Reason = Timer | Awlan | Manager | Change | LinkUsed | LinkNotUsed | SetNewVtag | BlockVtag | AsyncOvsInit

  datatype Dest = Redirector | Controller

  datatype Addr = Addr(updated: bool, valid: bool)

  datatype Addrs = Addrs(dest: Dest, redirector: Addr, manager: Addr) {
    function Curr(): Addr {
      if dest.Redirector? then redirector else manager
    }
  }

  datatype Counters = Counters(resolves: nat, disconnects: nat, quiesceTimeout: int)

  /** The state, whether it was just entered, and the time spent in it. */
  datatype Clock = Clock(state: St, changed: bool, age: nat)

  /** The selected uplink; `retry` stands for its resolve_retry flags. */
  datatype Link = Link(isUsed: bool, echoed: bool, retry: bool)

  /** `ipv4` and `ipv6` are the local variables that survive from pass to pass. */
  datatype Memory = Memory(everConnected: bool, skipReconnect: bool, ipv4: bool, ipv6: bool)

  datatype G = G(at: Clock, addrs: Addrs, link: Link, cnt: Counters, mem: Memory)

  /** `stability` says whether the stability checks are compiled in. */
  datatype Env = Env(haveTables: bool, linkSelection: bool, connected: bool, stability: bool)

  datatype Resolution = Refused | Skipped | Started

  datatype Answers = Answers(
    targetEmpty: bool, vtagOk: bool, ipv4Asked: bool, ipv4Ok: bool, ipv6Asked: bool, ipv6Ok: bool, ntpOk: bool,
    resolution: Resolution, retryAgain: bool, resolved: bool, writeOk: bool, nextOk: bool, checkPending: bool,
    usedFound: bool, skip: bool, backoff: int, restartUsed: bool, restartEchoed: bool, restartResets: bool,
    gwOffline: bool)

  const MAX_DISCONNECTS := 10
  const RESOLVE_RETRY_THRESHOLD := 10
  const NO_TIMEOUT := -1

  function Timeout(st: St, cnt: Counters): int {
    match st
    case Init => NO_TIMEOUT
    case LinkSel => 120
    case WanIp => 60
    case NtpCheck => 60
    case OvsInit => NO_TIMEOUT
    case TryResolve => 180
    case ReConnect => 30
    case TryConnect => 10
    case FastReconnect => 20
    case FastReconnectWait => 20
    case Connected => NO_TIMEOUT
    case Internet => 60
    case QuiesceOvs => cnt.quiesceTimeout
  }

  predicate TimedOut(g: G) {
    var t := Timeout(g.at.state, g.cnt);
    t != NO_TIMEOUT && t <= g.at.age
  }

  /** A change of state restarts the clock of the state, and the clock stands still. */
  predicate Ages(c: Clock, d: Clock) {
    (d.state != c.state ==> d.age == 0) && (c.age == 0 ==> d.age == 0)
  }

  function SetState(c: Clock, st: St): (d: Clock)
    ensures Ages(c, d) && d.state == st
    ensures if c.state == st then d == c else d.changed && d.age == 0
  {
    if c.state == st then c else Clock(st, true, 0)
  }

  function Seen(c: Clock): Clock {
    c.(changed := false)
  }

  /** As `Ages`, and nothing is learnt about the addresses. */
  predicate Plain(g: G, h: G) {
    Ages(g.at, h.at) && h.addrs == g.addrs && (h.link.retry ==> g.link.retry)
  }

  /** Where a link that is ready leads: a manager that never was connected starts over. */
  function Destination(mem: Memory, env: Env): (st: St)
    ensures st.OvsInit? || (env.connected && (st.Connected? || st.FastReconnect?))
  {
    if mem.everConnected && env.connected then (if mem.skipReconnect then Connected else FastReconnect) else OvsInit
  }

  function OvsConnect(g: G, env: Env): (h: G)
    ensures Plain(g, h)
  {
    g.(at := SetState(g.at, Destination(g.mem, env)), mem := g.mem.(skipReconnect := false))
  }

  /** Restarting the managers may pick another link and may restart the clock. */
  function TriggerRestart(g: G, a: Answers): (h: G)
    ensures Plain(g, h) && h.at.state == g.at.state
  {
    g.(at := if a.restartResets then g.at.(age := 0) else g.at,
       link := Link(a.restartUsed, a.restartEchoed, g.link.retry))
  }

  /** What every early return does before it returns. */
  function RestartConnection(g: G, env: Env, a: Answers): G {
    if !env.linkSelection then OvsConnect(g, env)
    else if a.gwOffline then g.(at := SetState(g.at, QuiesceOvs))
    else TriggerRestart(g, a)
  }

  /** A stability check on a link that is not used fails before it asks anyone. */
  predicate Check(isUsed: bool, env: Env, ok: bool) {
    if env.stability then isUsed && ok else true
  }

  // ---- One pass ----

  predicate Selecting(st: St) {
    st.Init? || st.LinkSel? || st.WanIp? || st.NtpCheck?
  }

  function HandleReason(c: Clock, reason: Reason, a: Answers): (d: Clock)
    ensures Ages(c, d)
    ensures reason.Change? ==> d == c
  {
    match reason
    case LinkNotUsed => SetState(c, LinkSel)
    case SetNewVtag => if a.vtagOk && !c.state.LinkSel? then SetState(c, WanIp) else c
    case BlockVtag => if a.vtagOk && !c.state.LinkSel? then SetState(c, WanIp) else c
    case AsyncOvsInit => if !c.state.WanIp? && !Selecting(c.state) then SetState(c, WanIp) else c
    case _ => c
  }

  function HandleAddresses(g: G, selecting: bool, env: Env): (h: G)
    ensures Ages(g.at, h.at)
  {
    var ad := g.addrs;
    if !g.at.state.OvsInit? && !g.at.state.TryResolve? && !selecting && NewRedirector(ad) then
      OvsConnect(g, env).(addrs := ad.(redirector := ad.redirector.(updated := false)))
    else if !(g.at.state.Connected? && ad.dest.Controller?) && NewManager(ad) then
      g.(at := SetState(g.at, TryResolve), addrs := ad.(dest := Controller))
    else g
  }

  predicate NewRedirector(ad: Addrs) {
    ad.redirector.updated && ad.redirector.valid
  }

  predicate NewManager(ad: Addrs) {
    ad.manager.updated && ad.manager.valid
  }

  // Each handler says which states it can move to; with `age == 0` no timeout applies.

  function AtInit(g: G, env: Env, a: Answers): (h: G)
    ensures Plain(g, h)
    ensures h.at.state.LinkSel? || h.at.state.OvsInit? || h.at.state.Connected? || h.at.state.FastReconnect?
  {
    if !env.linkSelection then
      g.(at := SetState(g.at, Destination(g.mem, env)),
         mem := g.mem.(skipReconnect := false, everConnected := false))
    else
      G(SetState(g.at, LinkSel), g.addrs, Link(a.usedFound, a.usedFound, false), g.cnt.(resolves := 0),
        g.mem.(skipReconnect := false, everConnected := false))
  }

  function ClearUsed(link: Link): (l: Link)
    ensures (l.echoed ==> l.isUsed == link.isUsed) && (l.retry ==> link.retry)
  {
    if link.isUsed then Link(false, false, false) else link
  }

  function AtLinkSel(g: G, a: Answers): (h: G)
    requires g.at.state.LinkSel?
    ensures Plain(g, h)
    ensures h.at.state.LinkSel? || (h.at.state.WanIp? && h.link.isUsed == g.link.isUsed)
  {
    var k := g.(at := Seen(g.at), link := if g.at.changed then ClearUsed(g.link) else g.link);
    if k.link.echoed then k.(at := SetState(k.at, WanIp), mem := k.mem.(skipReconnect := a.skip))
    else if TimedOut(g) then TriggerRestart(k, a).(mem := k.mem.(skipReconnect := false))
    else k
  }

  function Probed(g: G, env: Env, a: Answers): Memory {
    g.mem.(
      ipv4 := if a.ipv4Asked then Check(g.link.isUsed, env, a.ipv4Ok) else g.mem.ipv4,
      ipv6 := if a.ipv6Asked then Check(g.link.isUsed, env, a.ipv6Ok) else g.mem.ipv6)
  }

  function AtWanIp(g: G, env: Env, a: Answers): (h: G)
    requires g.at.state.WanIp?
    ensures Plain(g, h)
    ensures h.at.state.WanIp? || (h.at.state.NtpCheck? && h.link.isUsed == g.link.isUsed)
  {
    var k := g.(at := Seen(g.at), mem := Probed(g, env, a));
    if k.mem.ipv4 || k.mem.ipv6 then k.(at := SetState(k.at, NtpCheck))
    else if TimedOut(g) then TriggerRestart(k, a)
    else k
  }

  function AtNtpCheck(g: G, env: Env, a: Answers): (h: G)
    requires g.at.state.NtpCheck?
    ensures Plain(g, h)
    ensures h.at.state.NtpCheck? || h.at.state.OvsInit? || h.at.state.Connected? || h.at.state.FastReconnect?
    ensures env.stability && !g.link.isUsed ==> h.at.state.NtpCheck?
  {
    var k := g.(at := Seen(g.at));
    if Check(g.link.isUsed, env, a.ntpOk) then OvsConnect(k, env)
    else if TimedOut(g) then TriggerRestart(k, a)
    else k
  }

  /** The entry of most states only takes note of the change. */
  function Noticed(g: G): G {
    if g.at.changed then g.(at := Seen(g.at), mem := g.mem.(skipReconnect := false)) else g
  }

  /** The manager address is forgotten before the redirector is asked for a new one. */
  function AtOvsInit(g: G, env: Env, a: Answers): (h: G)
    requires g.at.state.OvsInit?
    ensures Ages(g.at, h.at) && h.link == g.link
    ensures if h.at.state.TryResolve?
            then h.at.changed && h.addrs == Addrs(Redirector, g.addrs.redirector, Addr(false, false)) &&
                 g.addrs.redirector.valid
            else h.addrs == g.addrs && (h.at.state.OvsInit? || (h.at.state.LinkSel? && !Usable(h, env)))
  {
    var k := Noticed(g);
    if env.linkSelection && !g.link.isUsed then k.(at := SetState(k.at, LinkSel))
    else if !a.targetEmpty || env.connected || !g.addrs.redirector.valid then k
    else k.(at := SetState(k.at, TryResolve), addrs := Addrs(Redirector, g.addrs.redirector, Addr(false, false)),
            cnt := k.cnt.(disconnects := 0))
  }

  function Resolved(ad: Addrs): Addrs {
    if ad.dest.Redirector? then ad.(redirector := ad.redirector.(updated := false))
    else ad.(manager := ad.manager.(updated := false))
  }

  predicate Asks(g: G) {
    g.at.changed || g.link.retry
  }

  function Asked(g: G, a: Answers): (h: G)
    ensures h.at == Seen(g.at)
    ensures !Asks(g) ==> h.addrs == g.addrs && !h.link.retry
    ensures Asks(g) ==> (h.addrs == g.addrs && g.link.retry && !h.link.retry) || h.addrs == Resolved(g.addrs)
  {
    var cnt := if g.link.retry then g.cnt.(resolves := g.cnt.resolves + 1) else g.cnt;
    if !Asks(g) then g.(at := Seen(g.at), cnt := cnt)
    else if g.link.retry && a.resolution.Skipped? then
      g.(at := Seen(g.at), cnt := cnt, link := g.link.(retry := false))
    else
      g.(at := Seen(g.at), cnt := cnt, link := g.link.(retry := a.retryAgain), addrs := Resolved(g.addrs))
  }

  /** `done` marks the early returns of the source. */
  datatype Outcome = Outcome(g: G, done: bool)

  /** A new address is resolved when the state is entered; a retry may be answered from
      what is already known, and then the new address stays marked. */
  function AtTryResolve(g: G, a: Answers): (out: Outcome)
    requires g.at.state.TryResolve?
    ensures Ages(g.at, out.g.at)
    ensures out.g.at.state.TryResolve? || out.g.at.state.ReConnect?
    ensures !out.done ==> out.g.addrs == Asked(g, a).addrs && out.g.link == Asked(g, a).link
  {
    var m := Asked(g, a);
    if Asks(g) && a.resolution.Refused? then Outcome(m.(addrs := g.addrs, link := g.link), true)
    else if a.resolved then
      Outcome(m.(at := SetState(m.at, ReConnect), cnt := m.cnt.(resolves := 0)), false)
    else if TimedOut(g) || m.cnt.resolves > RESOLVE_RETRY_THRESHOLD then
      Outcome(m.(cnt := m.cnt.(resolves := 0)), true)
    else Outcome(m, false)
  }

  function AtReConnect(g: G, env: Env, a: Answers): (out: Outcome)
    requires g.at.state.ReConnect?
    ensures Plain(g, out.g)
    ensures out.g.at.state.ReConnect? || (out.g.at.state.TryConnect? && !env.connected)
  {
    if a.targetEmpty && !env.connected then Outcome(g.(at := SetState(Seen(g.at), TryConnect)), false)
    else Outcome(g.(at := Seen(g.at)), TimedOut(g))
  }

  function AtTryConnect(g: G, env: Env, a: Answers): (out: Outcome)
    requires g.at.state.TryConnect?
    ensures Plain(g, out.g)
    ensures || out.g.at.state.TryConnect?
            || (out.g.at.state.TryResolve? && out.g.at.changed && g.addrs.Curr().updated)
            || (out.g.at.state.Connected? && env.connected)
  {
    var c := Seen(g.at);
    if g.addrs.Curr().updated then Outcome(g.(at := SetState(g.at, TryResolve)), false)
    else if g.at.changed && !a.writeOk then Outcome(g.(at := c), true)
    else if env.connected then Outcome(g.(at := SetState(c, Connected)), false)
    else if !TimedOut(g) then Outcome(g.(at := c), false)
    else if a.nextOk then Outcome(g.(at := c.(age := 0)), false)
    else Outcome(g.(at := c), true)
  }

  function AtFastReconnect(g: G, env: Env, a: Answers): (h: G)
    requires g.at.state.FastReconnect?
    ensures Plain(g, h)
    ensures g.at.age == 0 ==>
      h.at.state.FastReconnect? || (!env.connected && (h.at.state.FastReconnectWait? || h.at.state.OvsInit?))
    ensures h.at.state.FastReconnect? || h.at.state.ReConnect? || h.at.state.FastReconnectWait? || h.at.state.OvsInit?
  {
    var k := Noticed(g);
    if !a.targetEmpty || env.connected then (if TimedOut(g) then k.(at := SetState(k.at, ReConnect)) else k)
    else if a.checkPending && !TimedOut(g) then k
    else k.(at := SetState(k.at, if a.writeOk then FastReconnectWait else OvsInit))
  }

  function AtFastReconnectWait(g: G, env: Env): (h: G)
    requires g.at.state.FastReconnectWait?
    ensures Plain(g, h)
    ensures g.at.age == 0 ==> h.at.state.FastReconnectWait? || (h.at.state.Connected? && env.connected)
    ensures h.at.state.FastReconnectWait? || h.at.state.ReConnect? || (h.at.state.Connected? && env.connected)
  {
    if env.connected then g.(at := SetState(g.at, Connected))
    else if TimedOut(g) then g.(at := SetState(g.at, ReConnect))
    else g
  }

  function AtConnected(g: G, env: Env): (h: G)
    requires g.at.state.Connected?
    ensures Plain(g, h)
    ensures h.at.state == if env.connected then Connected else FastReconnect
  {
    var mem := if g.at.changed then g.mem.(everConnected := true, skipReconnect := false) else g.mem;
    g.(at := if env.connected then Seen(g.at) else SetState(Seen(g.at), FastReconnect), mem := mem)
  }

  function Quiesced(g: G, a: Answers): G {
    if g.at.changed
    then g.(at := Seen(g.at), cnt := g.cnt.(disconnects := g.cnt.disconnects + 1, quiesceTimeout := a.backoff))
    else g
  }

  function AtQuiesceOvs(g: G, env: Env, a: Answers): (out: Outcome)
    requires g.at.state.QuiesceOvs?
    ensures Plain(g, out.g)
    ensures out.g.at.state.QuiesceOvs? || out.g.at.state.FastReconnect?
  {
    var k := Quiesced(g, a);
    var n := k.cnt.disconnects + 1;
    if !a.targetEmpty || env.connected || !TimedOut(k) then Outcome(k, false)
    else if n > MAX_DISCONNECTS then Outcome(k.(cnt := k.cnt.(disconnects := 0)), true)
    else Outcome(k.(at := SetState(k.at, FastReconnect), cnt := k.cnt.(disconnects := n)), false)
  }

  function Handle(g: G, env: Env, a: Answers): (out: Outcome)
    ensures Ages(g.at, out.g.at)
  {
    match g.at.state
    case Init => Outcome(AtInit(g, env, a), false)
    case Internet => Outcome(AtInit(g, env, a), false)
    case LinkSel => Outcome(AtLinkSel(g, a), false)
    case WanIp => Outcome(AtWanIp(g, env, a), false)
    case NtpCheck => Outcome(AtNtpCheck(g, env, a), false)
    case OvsInit => Outcome(AtOvsInit(g, env, a), false)
    case TryResolve => AtTryResolve(g, a)
    case ReConnect => AtReConnect(g, env, a)
    case TryConnect => AtTryConnect(g, env, a)
    case FastReconnect => Outcome(AtFastReconnect(g, env, a), false)
    case FastReconnectWait => Outcome(AtFastReconnectWait(g, env), false)
    case Connected => Outcome(AtConnected(g, env), false)
    case QuiesceOvs => AtQuiesceOvs(g, env, a)
  }

  function Unhandled(g: G, env: Env, a: Answers): (h: G)
    ensures Plain(g, h)
    ensures h.at.state == g.at.state || h.at.state.Init?
    ensures g.at.age == 0 && !g.at.state.QuiesceOvs? ==> h == g
  {
    if !TimedOut(g) then g
    else
      var k := if env.linkSelection then TriggerRestart(g, a) else g;
      k.(at := SetState(k.at, Init))
  }

  function Pass(g: G, reason: Reason, env: Env, a: Answers): (out: Outcome)
    ensures !out.done ==> out.g.at.age == 0
  {
    if !env.haveTables then Outcome(g, true) else
      var h := HandleAddresses(g.(at := HandleReason(g.at, reason, a)), Selecting(g.at.state), env);
      var k := Handle(h, env, a);
      if k.done then Outcome(RestartConnection(k.g, env, a), true) else
        var m := Unhandled(k.g, env, a);
        Outcome(m, m.at.state == g.at.state)
  }

  // ---- When each state is left ----

  lemma ReasonExits(c: Clock, reason: Reason, a: Answers)
    ensures reason.LinkNotUsed? ==> HandleReason(c, reason, a).state.LinkSel?
    ensures reason.SetNewVtag? || reason.BlockVtag? ==>
            HandleReason(c, reason, a).state == if a.vtagOk && !c.state.LinkSel? then WanIp else c.state
    ensures reason.AsyncOvsInit? ==>
            HandleReason(c, reason, a).state ==
              if c.state.Init? || c.state.LinkSel? || c.state.NtpCheck? then c.state else WanIp
    ensures reason.Timer? || reason.Awlan? || reason.Manager? || reason.LinkUsed? ==> HandleReason(c, reason, a) == c
  {
  }

  /** A new valid redirector address starts the connection over, except while a link is
      selected or the redirector is being asked; a new valid manager address is resolved,
      except while connected to a manager. */
  lemma AddressesTaken(g: G, env: Env)
    ensures var st, ad, h := g.at.state, g.addrs, HandleAddresses(g, Selecting(g.at.state), env);
            var newRedirector := ad.redirector.updated && ad.redirector.valid && !st.Init? && !st.LinkSel? &&
                                 !st.WanIp? && !st.NtpCheck? && !st.OvsInit? && !st.TryResolve?;
            var newManager := ad.manager.updated && ad.manager.valid && !(st.Connected? && ad.dest.Controller?);
            if newRedirector then
              h.at.state == Destination(g.mem, env) &&
              h.addrs == Addrs(ad.dest, Addr(false, true), ad.manager)
            else if newManager then h.at.state.TryResolve? && h.addrs == Addrs(Controller, ad.redirector, ad.manager)
            else h == g
  {
  }

  lemma DestinationExactly(mem: Memory, env: Env)
    ensures Destination(mem, env).Connected? <==> mem.everConnected && env.connected && mem.skipReconnect
    ensures Destination(mem, env).FastReconnect? <==> mem.everConnected && env.connected && !mem.skipReconnect
    ensures Destination(mem, env).OvsInit? <==> !(mem.everConnected && env.connected)
  {
  }

  /** A failed call that ends early quiesces, restarts the managers or starts over. */
  lemma RestartExits(g: G, env: Env, a: Answers)
    ensures var h := RestartConnection(g, env, a);
            && (!env.linkSelection ==> h.at.state == Destination(g.mem, env) && h.link == g.link)
            && (env.linkSelection && a.gwOffline ==> h.at.state.QuiesceOvs? && h.link == g.link)
            && (env.linkSelection && !a.gwOffline ==>
                  h == g.(at := g.at.(age := if a.restartResets then 0 else g.at.age),
                          link := Link(a.restartUsed, a.restartEchoed, g.link.retry)))
  {
  }

  lemma InitExits(g: G, env: Env, a: Answers)
    ensures var h := AtInit(g, env, a);
            && !h.mem.everConnected && !h.mem.skipReconnect
            && (!env.linkSelection ==> h.at.state == Destination(g.mem, env))
            && (env.linkSelection ==>
                  h.at.state.LinkSel? && h.link == Link(a.usedFound, a.usedFound, false) && h.cnt.resolves == 0)
  {
  }

  /** The first pass forgets a used link, so that only a link that is echoed afterwards
      counts. */
  lemma LinkSelExits(g: G, a: Answers)
    requires g.at.state.LinkSel?
    ensures var h := AtLinkSel(g, a); var echoed := g.link.echoed && !(g.at.changed && g.link.isUsed);
            && (h.at.state.WanIp? <==> echoed)
            && (echoed ==> h.mem.skipReconnect == a.skip)
            && (!echoed && g.at.age < 120 ==> h.mem == g.mem && (h.link.isUsed <==> g.link.isUsed && !g.at.changed))
            && (!echoed && g.at.age >= 120 ==> h.link.isUsed == a.restartUsed && !h.mem.skipReconnect)
  {
  }

  lemma WanIpExits(g: G, env: Env, a: Answers)
    requires g.at.state.WanIp?
    ensures var h := AtWanIp(g, env, a); var used := g.link.isUsed || !env.stability;
            var v4 := if a.ipv4Asked then used && (a.ipv4Ok || !env.stability) else g.mem.ipv4;
            var v6 := if a.ipv6Asked then used && (a.ipv6Ok || !env.stability) else g.mem.ipv6;
            && h.mem.ipv4 == v4 && h.mem.ipv6 == v6
            && (h.at.state.NtpCheck? <==> v4 || v6)
            && (!v4 && !v6 && g.at.age < 60 ==> h.link == g.link)
            && (!v4 && !v6 && g.at.age >= 60 ==> h.link.isUsed == a.restartUsed)
  {
  }

  lemma NtpCheckExits(g: G, env: Env, a: Answers)
    requires g.at.state.NtpCheck?
    ensures var h := AtNtpCheck(g, env, a); var ok := !env.stability || (g.link.isUsed && a.ntpOk);
            && h.at.state == (if ok then Destination(g.mem, env) else NtpCheck)
            && (ok ==> !h.mem.skipReconnect)
            && (!ok && g.at.age < 60 ==> h.link == g.link)
            && (!ok && g.at.age >= 60 ==> h.link.isUsed == a.restartUsed)
  {
  }

  lemma OvsInitExits(g: G, env: Env, a: Answers)
    requires g.at.state.OvsInit?
    ensures var h := AtOvsInit(g, env, a);
            && (h.at.state.LinkSel? <==> env.linkSelection && !g.link.isUsed)
            && (h.at.state.TryResolve? <==>
                  !(env.linkSelection && !g.link.isUsed) && a.targetEmpty && !env.connected && g.addrs.redirector.valid)
            && (h.at.state.TryResolve? ==> h.addrs.dest.Redirector? && !h.addrs.manager.valid && h.cnt.disconnects == 0)
            && h.mem == g.mem.(skipReconnect := g.mem.skipReconnect && !g.at.changed)
  {
  }

  /** TRY_RESOLVE is left exactly when the address is resolved; it gives up when the
      resolver refuses, after three minutes, or after too many retries. */
  lemma TryResolveExits(g: G, a: Answers)
    requires g.at.state.TryResolve?
    ensures var out := AtTryResolve(g, a);
            var refused := (g.at.changed || g.link.retry) && a.resolution.Refused?;
            var tries := g.cnt.resolves + if g.link.retry then 1 else 0;
            && (out.g.at.state.ReConnect? <==> a.resolved && !refused)
            && (out.done <==> refused || (!a.resolved && (g.at.age >= 180 || tries > 10)))
            && (out.g.cnt.resolves == if refused || (!a.resolved && !out.done) then tries else 0)
  {
  }

  /** What is asked: on entry and on a retry the address of the current destination, which
      is not new any more; a retry may be answered without asking, and is then over. */
  lemma TryResolveAsks(g: G, a: Answers)
    requires g.at.state.TryResolve?
    ensures var h := AtTryResolve(g, a).g; var asks := g.at.changed || g.link.retry;
            && (h.at.changed <==> h.at.state.ReConnect?)
            && if !asks || a.resolution.Refused? then h.addrs == g.addrs && h.link == g.link
               else if g.link.retry && a.resolution.Skipped? then h.addrs == g.addrs && !h.link.retry
               else
                 && h.link == g.link.(retry := a.retryAgain)
                 && (h.addrs == if g.addrs.dest.Redirector?
                                then g.addrs.(redirector := Addr(false, g.addrs.redirector.valid))
                                else g.addrs.(manager := Addr(false, g.addrs.manager.valid)))
  {
  }

  lemma ReConnectExits(g: G, env: Env, a: Answers)
    requires g.at.state.ReConnect?
    ensures var out := AtReConnect(g, env, a); var free := a.targetEmpty && !env.connected;
            && (out.g.at.state.TryConnect? <==> free)
            && (out.done <==> !free && g.at.age >= 30)
  {
  }

  lemma TryConnectExits(g: G, env: Env, a: Answers)
    requires g.at.state.TryConnect?
    ensures var out := AtTryConnect(g, env, a);
            var updated := if g.addrs.dest.Redirector? then g.addrs.redirector.updated else g.addrs.manager.updated;
            var failed := !updated && g.at.changed && !a.writeOk;
            var late := !updated && !failed && !env.connected && g.at.age >= 10;
            && (out.g.at.state.TryResolve? <==> updated)
            && (out.g.at.state.Connected? <==> !updated && !failed && env.connected)
            && (out.done <==> failed || (late && !a.nextOk))
            && (late && a.nextOk ==> out.g.at.age == 0)
  {
  }

  lemma FastReconnectExits(g: G, env: Env, a: Answers)
    requires g.at.state.FastReconnect?
    ensures var h := AtFastReconnect(g, env, a);
            var free := a.targetEmpty && !env.connected; var late := g.at.age >= 20;
            && h.mem == g.mem.(skipReconnect := g.mem.skipReconnect && !g.at.changed)
            && (h.at.state ==
                if !free then (if late then ReConnect else FastReconnect)
                else if a.checkPending && !late then FastReconnect
                else if a.writeOk then FastReconnectWait else OvsInit)
  {
  }

  lemma FastReconnectWaitExits(g: G, env: Env)
    requires g.at.state.FastReconnectWait?
    ensures AtFastReconnectWait(g, env).at.state ==
            if env.connected then Connected else if g.at.age >= 20 then ReConnect else FastReconnectWait
  {
  }

  lemma ConnectedRemembers(g: G, env: Env)
    requires g.at.state.Connected?
    ensures AtConnected(g, env).mem.everConnected <==> g.mem.everConnected || g.at.changed
  {
  }

  lemma QuiesceExits(g: G, env: Env, a: Answers)
    requires g.at.state.QuiesceOvs?
    ensures var out := AtQuiesceOvs(g, env, a);
            var wait := if g.at.changed then a.backoff else g.cnt.quiesceTimeout;
            var n := g.cnt.disconnects + if g.at.changed then 2 else 1;
            var over := a.targetEmpty && !env.connected && wait != -1 && wait <= g.at.age;
            && (out.g.at.state.FastReconnect? <==> over && n <= 10)
            && (out.done <==> over && n > 10)
            && out.g.cnt.quiesceTimeout == wait
            && (out.g.cnt.disconnects == if over then (if n <= 10 then n else 0) else n - 1)
  {
  }

  /** Where a pass that found no timeout of its own starts over. */
  lemma UnhandledExits(g: G, env: Env, a: Answers)
    ensures Unhandled(g, env, a).at.state == if TimedOut(g) then Init else g.at.state
  {
  }

  // ---- The measure ----

  function Bit(b: bool): nat {
    if b then 1 else 0
  }

  /** New addresses that can still send the machine back. */
  function Tokens(ad: Addrs): nat {
    Bit(ad.redirector.updated && (ad.redirector.valid || ad.dest.Redirector?)) +
    Bit(ad.manager.updated && (ad.manager.valid || ad.dest.Controller?))
  }

  /** The address to connect to is about to be resolved anew. */
  predicate NewAddr(ad: Addrs) {
    ad.Curr().updated || NewManager(ad)
  }

  /** A retry that can still skip the resolution of a new address. */
  predicate RetryCounts(ad: Addrs, retry: bool) {
    retry && !NewRedirector(ad) && NewAddr(ad)
  }

  /** A new redirector address is taken up by the next pass unless the machine is here. */
  predicate Holding(st: St) {
    Selecting(st) || st.OvsInit? || st.TryResolve?
  }

  /** With no new addresses, every pass goes down this ladder.  A link that `OvsInit` would
      send back to selection is below it, and its checks fail. */
  function Rank(c: Clock, usable: bool, newAddr: bool, connected: bool): nat {
    match c.state
    case QuiesceOvs => 21
    case Init => 20
    case Internet => 20
    case LinkSel => if usable then 19 else 12
    case WanIp => if usable then 18 else 11
    case NtpCheck => if usable then 17 else 10
    case FastReconnectWait => if connected then 16 else 0
    case Connected => 15
    case FastReconnect => 14
    case OvsInit => 13
    case TryResolve => if !c.changed && newAddr then 6 else 3
    case ReConnect => if newAddr then 5 else 2
    case TryConnect => if connected then 16 else if newAddr then 4 else 1
  }

  predicate Usable(g: G, env: Env) {
    g.link.isUsed || !env.linkSelection
  }

  function Position(g: G, env: Env): nat {
    if NewRedirector(g.addrs) && !Holding(g.at.state) then 0
    else Rank(g.at, Usable(g, env), NewAddr(g.addrs), env.connected)
  }

  function Height(g: G, env: Env): nat {
    44 * Tokens(g.addrs) + 22 * Bit(RetryCounts(g.addrs, g.link.retry)) + Position(g, env)
  }

  const FIRST := 132

  function Measure(g: G, reason: Reason, env: Env): nat {
    if g.at.age > 0 || !reason.Change? then FIRST else Height(g, env)
  }

  /** A new address is waiting to be taken up at the head of the pass. */
  predicate Preempted(g: G) {
    || (NewRedirector(g.addrs) && !Holding(g.at.state))
    || (NewManager(g.addrs) && !(g.at.state.Connected? && g.addrs.dest.Controller?))
  }

  /** Without the stability checks an unused link is sent round and round. */
  predicate Settles(env: Env) {
    env.stability || !env.linkSelection
  }

  /** Handlers that leave the addresses alone go down the ladder. */
  lemma LadderDescends(g: G, env: Env, a: Answers)
    requires Settles(env) && g.at.age == 0 && !Preempted(g)
    requires !g.at.state.OvsInit? && !g.at.state.TryResolve?
    ensures var h := Handle(g, env, a).g;
            h.at.state == g.at.state || (Plain(g, h) && Position(h, env) < Position(g, env))
  {
  }

  lemma PlainDescends(g: G, h: G, env: Env)
    requires Plain(g, h) && Position(h, env) < Position(g, env)
    ensures Height(h, env) < Height(g, env)
  {
  }

  lemma OvsInitDescends(g: G, env: Env, a: Answers)
    requires g.at.state.OvsInit? && g.at.age == 0 && !Preempted(g)
    ensures var h := AtOvsInit(g, env, a); h.at.state == g.at.state || Height(h, env) < Height(g, env)
  {
  }

  lemma TryResolveDescends(g: G, env: Env, a: Answers)
    requires g.at.state.TryResolve? && g.at.age == 0 && !Preempted(g)
    requires var out := AtTryResolve(g, a); !out.done && out.g.at.state != g.at.state
    ensures Height(AtTryResolve(g, a).g, env) < Height(g, env)
  {
  }

  lemma HandleDescends(g: G, env: Env, a: Answers)
    requires Settles(env) && g.at.age == 0 && !Preempted(g)
    requires var out := Handle(g, env, a); !out.done && out.g.at.state != g.at.state
    ensures Height(Handle(g, env, a).g, env) < Height(g, env)
  {
    if g.at.state.OvsInit? {
      OvsInitDescends(g, env, a);
    } else if g.at.state.TryResolve? {
      TryResolveDescends(g, env, a);
    } else {
      LadderDescends(g, env, a);
      PlainDescends(g, Handle(g, env, a).g, env);
    }
  }

  /** No handler makes an address new. */
  lemma HandleSpends(g: G, env: Env, a: Answers)
    requires !Handle(g, env, a).done
    ensures Tokens(Handle(g, env, a).g.addrs) <= Tokens(g.addrs)
  {
  }

  lemma HeightBound(g: G, env: Env)
    ensures Height(g, env) < 44 * Tokens(g.addrs) + 44 <= FIRST
  {
  }

  /** A pass that takes up a new redirector address spends it. */
  lemma RedirectorSpent(g: G, env: Env, a: Answers)
    requires NewRedirector(g.addrs) && !Holding(g.at.state)
    requires !Handle(HandleAddresses(g, Selecting(g.at.state), env), env, a).done
    ensures var h := HandleAddresses(g, Selecting(g.at.state), env);
            Tokens(Handle(h, env, a).g.addrs) < Tokens(g.addrs)
  {
    HandleSpends(HandleAddresses(g, Selecting(g.at.state), env), env, a);
  }

  /** A pass that takes up a new manager address resolves it, or uses up the retry. */
  lemma ManagerDescends(g: G, h: G, env: Env, a: Answers)
    requires NewManager(g.addrs) && !(NewRedirector(g.addrs) && !Holding(g.at.state))
    requires !(g.at.state.Connected? && g.addrs.dest.Controller?)
    requires h.at == SetState(g.at, TryResolve) && h.addrs == g.addrs.(dest := Controller) && h.link == g.link
    requires var out := AtTryResolve(h, a); !out.done && out.g.at.state != g.at.state
    ensures Height(AtTryResolve(h, a).g, env) < Height(g, env)
  {
    if Asked(h, a).addrs == Resolved(h.addrs) {
      assert Tokens(Resolved(h.addrs)) < Tokens(g.addrs);
      HeightBound(AtTryResolve(h, a).g, env);
    }
  }

  lemma FreshDescends(g: G, env: Env, a: Answers)
    requires Settles(env) && g.at.age == 0
    requires var out := Handle(HandleAddresses(g, Selecting(g.at.state), env), env, a);
             !out.done && out.g.at.state != g.at.state
    ensures var h := HandleAddresses(g, Selecting(g.at.state), env);
            Height(Handle(h, env, a).g, env) < Height(g, env)
  {
    var h := HandleAddresses(g, Selecting(g.at.state), env);
    if !Preempted(g) {
      assert h == g;
      HandleDescends(g, env, a);
    } else if NewRedirector(g.addrs) && !Holding(g.at.state) {
      RedirectorSpent(g, env, a);
      HeightBound(Handle(h, env, a).g, env);
    } else {
      ManagerDescends(g, h, env, a);
    }
  }

  /** The states in which a fresh clock may already have run out. */
  lemma QuiesceStays(g: G, env: Env, a: Answers)
    requires var out := Handle(HandleAddresses(g, Selecting(g.at.state), env), env, a);
             out.g.at.state.QuiesceOvs?
    ensures g.at.state.QuiesceOvs? && !Preempted(g)
    ensures var out := Handle(HandleAddresses(g, Selecting(g.at.state), env), env, a);
            Plain(g, out.g)
  {
    hide AtInit, AtLinkSel, AtWanIp, AtNtpCheck, AtOvsInit, AtTryResolve, AtReConnect, AtTryConnect, AtFastReconnect,
      AtFastReconnectWait, AtConnected, AtQuiesceOvs;
  }

  /** Every pass that is followed by another one comes closer to the end. */
  lemma PassDescends(g: G, reason: Reason, env: Env, a: Answers)
    requires Settles(env) && !Pass(g, reason, env, a).done
    ensures Measure(Pass(g, reason, env, a).g, Change, env) < Measure(g, reason, env)
  {
    var out := Pass(g, reason, env, a);
    HeightBound(out.g, env);
    if g.at.age == 0 && reason.Change? {
      var k := Handle(HandleAddresses(g, Selecting(g.at.state), env), env, a);
      if k.g.at.state.QuiesceOvs? {
        QuiesceStays(g, env, a);
        PlainDescends(g, out.g, env);
      } else {
        FreshDescends(g, env, a);
      }
    }
  }

  // ---- One call ----

  function ReasonAt(reason: Reason, n: nat): Reason {
    if n == 0 then reason else Change
  }

  /** The first `n` passes of a call, fewer when the call ends before. */
  function After(g: G, reason: Reason, env: Env, answers: nat -> Answers, n: nat): Outcome {
    if n == 0 then Outcome(g, false)
    else
      var out := After(g, reason, env, answers, n - 1);
      if out.done then out else Pass(out.g, ReasonAt(reason, n - 1), env, answers(n - 1))
  }

  lemma {:induction false} PassesDescend(g: G, reason: Reason, env: Env, answers: nat -> Answers, n: nat)
    requires Settles(env) && !After(g, reason, env, answers, n).done
    ensures Measure(After(g, reason, env, answers, n).g, ReasonAt(reason, n), env) + n <= FIRST
  {
    hide Pass, Height;
    if n == 0 {
      HeightBound(g, env);
    } else {
      PassesDescend(g, reason, env, answers, n - 1);
      PassDescends(After(g, reason, env, answers, n - 1).g, ReasonAt(reason, n - 1), env, answers(n - 1));
    }
  }

  /** Without its tables the manager does nothing. */
  lemma {:induction false} NothingWithoutTables(g: G, reason: Reason, env: Env, answers: nat -> Answers, n: nat)
    requires !env.haveTables && n > 0
    ensures After(g, reason, env, answers, n) == Outcome(g, true)
  {
    hide Handle, HandleAddresses, RestartConnection, Unhandled;
    if n == 1 {
    } else {
      NothingWithoutTables(g, reason, env, answers, n - 1);
    }
  }

  /** Whatever the answers are, a call is over within this many passes. */
  lemma CallEnds(g: G, reason: Reason, env: Env, answers: nat -> Answers)
    requires Settles(env)
    ensures After(g, reason, env, answers, FIRST + 1).done
  {
    if !After(g, reason, env, answers, FIRST + 1).done {
      PassesDescend(g, reason, env, answers, FIRST + 1);
    }
  }

  /** The round of an unused link whose use was echoed by the table. */
  function RoundAt(st: St): G {
    G(Clock(st, true, 0), Addrs(Redirector, Addr(false, false), Addr(false, false)), Link(false, true, false),
      Counters(0, 0, 0), Memory(false, false, true, false))
  }

  function Round(n: nat): G {
    RoundAt([LinkSel, WanIp, NtpCheck, OvsInit][n % 4])
  }

  function RoundAnswers(): Answers {
    Answers(false, false, true, true, false, false, true, Refused, false, false, false, false, false,
            false, false, 0, false, false, false, false)
  }

  lemma RoundStep(env: Env, st: St, next: St)
    requires !Settles(env) && env.haveTables
    requires (st, next) in {(LinkSel, WanIp), (WanIp, NtpCheck), (NtpCheck, OvsInit), (OvsInit, LinkSel)}
    ensures Pass(RoundAt(st), Change, env, RoundAnswers()) == Outcome(RoundAt(next), false)
  {
    hide AtInit, AtTryResolve, AtReConnect, AtTryConnect, AtFastReconnect, AtFastReconnectWait, AtConnected,
      AtQuiesceOvs, RestartConnection;
  }

  lemma RoundPass(env: Env, n: nat)
    requires !Settles(env) && env.haveTables
    ensures Pass(Round(n), Change, env, RoundAnswers()) == Outcome(Round(n + 1), false)
  {
    hide Pass, RoundAt, RoundAnswers;
    var states := [LinkSel, WanIp, NtpCheck, OvsInit];
    assert (n + 1) % 4 == (n % 4 + 1) % 4;
    RoundStep(env, states[n % 4], states[(n + 1) % 4]);
  }

  lemma {:induction false} RoundGoesOn(env: Env, n: nat)
    requires !Settles(env) && env.haveTables
    ensures After(Round(0), Change, env, (_: nat) => RoundAnswers(), n) == Outcome(Round(n), false)
  {
    hide Pass, Round;
    if n == 0 {
    } else {
      RoundGoesOn(env, n - 1);
      RoundPass(env, n - 1);
    }
  }

  ghost predicate Ends(env: Env, g: G, reason: Reason, answers: nat -> Answers) {
    exists n: nat :: After(g, reason, env, answers, n).done
  }

  /** Every call ends exactly when the stability checks are compiled in or link selection
      is off; a manager without its tables returns at once. */
  lemma CallsEndExactly(env: Env)
    ensures (forall g: G, reason: Reason, answers: nat -> Answers :: Ends(env, g, reason, answers))
            <==> (Settles(env) || !env.haveTables)
  {
    if Settles(env) {
      forall g: G, reason: Reason, answers: nat -> Answers ensures Ends(env, g, reason, answers) {
        CallEnds(g, reason, env, answers);
      }
    } else if !env.haveTables {
      forall g: G, reason: Reason, answers: nat -> Answers ensures Ends(env, g, reason, answers) {
        assert After(g, reason, env, answers, 1).done;
      }
    } else {
      var answers := (_: nat) => RoundAnswers();
      forall n: nat ensures !After(Round(0), Change, env, answers, n).done {
        RoundGoesOn(env, n);
      }
      assert !Ends(env, Round(0), Change, answers);
    }
  }

  /** No pass leaves the machine connected while the connection is down. */
  lemma ConnectedIsConnected(g: G, reason: Reason, env: Env, a: Answers)
    requires env.haveTables && Pass(g, reason, env, a).g.at.state.Connected?
    ensures env.connected
  {
  }

  // ---- From a usable link to the controller ----

  /** The answers of a healthy uplink: a family passes its check, the time is set, the
      redirector resolves and its target is written. */
  predicate Healthy(a: Answers) {
    a.targetEmpty && ((a.ipv4Asked && a.ipv4Ok) || (a.ipv6Asked && a.ipv6Ok)) && a.ntpOk && a.resolution.Started? &&
    a.resolved && a.writeOk
  }

  /** The states between link selection and the first contact, in their order. */
  const PATH := [LinkSel, WanIp, NtpCheck, OvsInit, TryResolve, ReConnect, TryConnect]

  predicate OnPath(g: G, n: nat)
    requires n < 7
  {
    && g.at.state == PATH[n] && g.link.isUsed && g.addrs.redirector.valid && !NewManager(g.addrs)
    && (n == 0 ==> g.link.echoed && !g.at.changed)
    && (n > 0 ==> g.at.age == 0)
    && (n == 4 ==> g.at.changed)
    && (n >= 4 ==> g.addrs.dest.Redirector?)
    && (n >= 5 ==> !g.addrs.redirector.updated)
  }

  lemma HealthyPass(g: G, reason: Reason, env: Env, a: Answers, n: nat)
    requires n < 6 && OnPath(g, n) && Healthy(a) && env.haveTables && !env.connected
    requires n > 0 ==> reason.Change?
    ensures var out := Pass(g, reason, env, a); !out.done && OnPath(out.g, n + 1)
  {
    hide AtInit, AtFastReconnect, AtFastReconnectWait, AtConnected, AtQuiesceOvs, RestartConnection;
  }

  lemma {:induction false} HealthyPasses(g: G, reason: Reason, env: Env, answers: nat -> Answers, n: nat)
    requires n < 7 && OnPath(g, 0) && env.haveTables && !env.connected
    requires forall i: nat :: i < 7 ==> Healthy(answers(i))
    ensures var out := After(g, reason, env, answers, n); !out.done && OnPath(out.g, n)
  {
    hide Pass, OnPath, Healthy;
    if n == 0 {
    } else {
      HealthyPasses(g, reason, env, answers, n - 1);
      HealthyPass(After(g, reason, env, answers, n - 1).g, ReasonAt(reason, n - 1), env, answers(n - 1), n - 1);
    }
  }

  lemma TargetWritten(g: G, env: Env, a: Answers)
    requires OnPath(g, 6) && Healthy(a) && env.haveTables && !env.connected
    ensures var out := Pass(g, Change, env, a); out.done && OnPath(out.g, 6) && !out.g.at.changed
  {
    hide AtInit, AtLinkSel, AtWanIp, AtNtpCheck, AtOvsInit, AtTryResolve, AtReConnect, AtFastReconnect,
      AtFastReconnectWait, AtConnected, AtQuiesceOvs, RestartConnection;
  }

  /** A call that finds a used and echoed link, and a healthy uplink behind it, goes from
      LINK_SEL through every check to TRY_CONNECT and waits there for the controller. */
  lemma LinkLeadsToContact(g: G, reason: Reason, env: Env, answers: nat -> Answers)
    requires g.at.state.LinkSel? && !g.at.changed && g.link.isUsed && g.link.echoed
    requires g.addrs.redirector.valid && !(g.addrs.manager.updated && g.addrs.manager.valid)
    requires env.haveTables && !env.connected && forall i: nat :: i < 7 ==> Healthy(answers(i))
    ensures var out := After(g, reason, env, answers, 7);
            && out.done && out.g.at == Clock(TryConnect, false, 0) && out.g.addrs.dest.Redirector?
            && !After(g, reason, env, answers, 6).done
  {
    hide Pass;
    HealthyPasses(g, reason, env, answers, 6);
    TargetWritten(After(g, reason, env, answers, 6).g, env, answers(6));
  }

  lemma ContactPass(g: G, reason: Reason, env: Env, a: Answers)
    requires env.haveTables && env.connected && !NewRedirector(g.addrs) && !NewManager(g.addrs)
    requires reason.Timer? || reason.Manager? || reason.Change?
    requires g.at.state.TryConnect? ==> !g.at.changed && !g.addrs.Curr().updated
    requires g.at.state.TryConnect? || (g.at == Clock(Connected, true, 0))
    ensures var out := Pass(g, reason, env, a);
            if g.at.state.TryConnect? then out == Outcome(g.(at := Clock(Connected, true, 0)), false)
            else out.done && out.g.at == Clock(Connected, false, 0) && out.g.mem.everConnected
  {
    hide AtInit, AtLinkSel, AtWanIp, AtNtpCheck, AtOvsInit, AtTryResolve, AtReConnect, AtFastReconnect,
      AtFastReconnectWait, AtQuiesceOvs, RestartConnection;
  }

  /** Once the connection is up, the next call ends connected, and the manager remembers it. */
  lemma ContactLeadsToConnected(g: G, reason: Reason, env: Env, answers: nat -> Answers)
    requires g.at.state.TryConnect? && !g.at.changed && !g.addrs.Curr().updated
    requires !NewRedirector(g.addrs) && !NewManager(g.addrs)
    requires env.haveTables && env.connected && (reason.Timer? || reason.Manager?)
    ensures var out := After(g, reason, env, answers, 2);
            out.done && out.g.at == Clock(Connected, false, 0) && out.g.mem.everConnected
  {
    hide Pass;
    ContactPass(g, reason, env, answers(0));
    assert After(g, reason, env, answers, 0) == Outcome(g, false);
    assert After(g, reason, env, answers, 1) == Pass(g, reason, env, answers(0));
    ContactPass(After(g, reason, env, answers, 1).g, Change, env, answers(1));
  }

  /** A link that is no longer used sends the machine back to link selection from every other
      state, and its use is forgotten. */
  lemma LostLinkReselects(g: G, env: Env, a: Answers)
    requires env.haveTables && !g.at.state.LinkSel? && !NewRedirector(g.addrs) && !NewManager(g.addrs)
    ensures var out := Pass(g, LinkNotUsed, env, a);
            && out.g.at.state == (if g.link.echoed && !g.link.isUsed then WanIp else LinkSel)
            && !out.g.link.isUsed
  {
    hide AtInit, AtWanIp, AtNtpCheck, AtOvsInit, AtTryResolve, AtReConnect, AtTryConnect, AtFastReconnect,
      AtFastReconnectWait, AtConnected, AtQuiesceOvs;
  }

  /** A new manager address is resolved by the very pass that finds it, and the manager
      becomes the one to connect to. */
  lemma NewManagerResolved(g: G, reason: Reason, env: Env, a: Answers)
    requires env.haveTables && (reason.Timer? || reason.Manager? || reason.Change?)
    requires NewManager(g.addrs) && !NewRedirector(g.addrs) && !(g.at.state.Connected? && g.addrs.dest.Controller?)
    requires !g.at.state.TryResolve? && a.resolution.Started? && a.resolved
    ensures var out := Pass(g, reason, env, a);
            && out.g.at.state.ReConnect? && out.g.addrs.dest.Controller? && !out.g.addrs.manager.updated
  {
    hide AtInit, AtLinkSel, AtWanIp, AtNtpCheck, AtOvsInit, AtReConnect, AtTryConnect, AtFastReconnect,
      AtFastReconnectWait, AtConnected, AtQuiesceOvs, RestartConnection;
  }

  /** A new redirector address makes a manager that was never connected ask the redirector. */
  lemma NewRedirectorAsked(g: G, reason: Reason, env: Env, a: Answers)
    requires env.haveTables && (reason.Timer? || reason.Awlan? || reason.Change?)
    requires NewRedirector(g.addrs) && !NewManager(g.addrs) && !Holding(g.at.state)
    requires !env.connected && a.targetEmpty && Usable(g, env)
    ensures var out := Pass(g, reason, env, a);
            && !out.done && out.g.at.state.TryResolve? && out.g.addrs.dest.Redirector?
            && !out.g.addrs.redirector.updated && !out.g.addrs.manager.valid
  {
    hide AtInit, AtLinkSel, AtWanIp, AtNtpCheck, AtTryResolve, AtReConnect, AtTryConnect, AtFastReconnect,
      AtFastReconnectWait, AtConnected, AtQuiesceOvs, RestartConnection;
  }

  /** A refused resolution ends the call, and the connection is restarted at once. */
  lemma RefusalRestarts(g: G, reason: Reason, env: Env, a: Answers)
    requires g.at.state.TryResolve? && g.at.changed && a.resolution.Refused? && !NewManager(g.addrs)
    requires env.haveTables && (reason.Timer? || reason.Change?)
    ensures var out := Pass(g, reason, env, a);
            && out.done
            && (out.g.at.state ==
                if !env.linkSelection then Destination(g.mem, env) else if a.gwOffline then QuiesceOvs else TryResolve)
            && (env.linkSelection && !a.gwOffline ==> out.g.link.isUsed == a.restartUsed)
  {
    hide AtInit, AtLinkSel, AtWanIp, AtNtpCheck, AtOvsInit, AtReConnect, AtTryConnect, AtFastReconnect,
      AtFastReconnectWait, AtConnected, AtQuiesceOvs;
  }

  /** After two minutes without an echoed link the managers are restarted, and unless that
      restarts the clock the machine starts over. */
  lemma SelectionStartsOver(g: G, reason: Reason, env: Env, a: Answers)
    requires g.at.state.LinkSel? && !g.at.changed && !g.link.echoed && g.at.age >= 120 && !NewManager(g.addrs)
    requires env.haveTables
    ensures var out := Pass(g, reason, env, a);
            out.g.at.state == (if a.restartResets then LinkSel else Init) && out.g.link.isUsed == a.restartUsed
  {
    hide AtInit, AtWanIp, AtNtpCheck, AtOvsInit, AtTryResolve, AtReConnect, AtTryConnect, AtFastReconnect,
      AtFastReconnectWait, AtConnected, AtQuiesceOvs;
  }

  class Manager {
    var g: G

    constructor (g: G)
      ensures this.g == g
    {
      this.g := g;
    }

    /** The first passes of a call, in every build, also in one where the call has no end. */
    method RunPasses(reason: Reason, env: Env, answers: nat -> Answers, limit: nat)
      returns (passes: nat, done: bool)
      modifies this
      ensures passes <= limit && (done || passes == limit)
      ensures After(old(g), reason, env, answers, passes) == Outcome(g, done)
      ensures done ==> passes > 0 && !After(old(g), reason, env, answers, passes - 1).done
    {
      hide Pass;
      passes, done := 0, false;
      var why := reason;
      while !done && passes < limit
        invariant passes <= limit && why == ReasonAt(reason, passes)
        invariant After(old(g), reason, env, answers, passes) == Outcome(g, done)
        invariant done ==> passes > 0 && !After(old(g), reason, env, answers, passes - 1).done
        decreases limit - passes
      {
        var out := Pass(g, why, env, answers(passes));
        g, done, why, passes := out.g, out.done, Change, passes + 1;
      }
    }

    method UpdateState(reason: Reason, env: Env, answers: nat -> Answers) returns (passes: nat)
      requires Settles(env)
      modifies this
      ensures 1 <= passes <= FIRST + 1
      ensures After(old(g), reason, env, answers, passes) == Outcome(g, true)
      ensures !After(old(g), reason, env, answers, passes - 1).done
      ensures env.haveTables && g.at.state.Connected? ==> env.connected
    {
      hide Pass, Height;
      passes := 0;
      var why := reason;
      var done := false;
      while !done
        invariant done ==> passes > 0
        invariant After(old(g), reason, env, answers, passes) == Outcome(g, done)
        invariant passes > 0 ==> !After(old(g), reason, env, answers, passes - 1).done
        invariant why == ReasonAt(reason, passes)
        invariant done && env.haveTables && g.at.state.Connected? ==> env.connected
        decreases !done, Measure(g, why, env)
      {
        var out := Pass(g, why, env, answers(passes));
        if !out.done {
          PassDescends(g, why, env, answers(passes));
        } else if env.haveTables && out.g.at.state.Connected? {
          ConnectedIsConnected(g, why, env, answers(passes));
        }
        g, done, why, passes := out.g, out.done, Change, passes + 1;
      }
      PassesDescend(old(g), reason, env, answers, passes - 1);
    }
  }
}
