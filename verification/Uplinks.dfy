/**
 The choice of the used uplink (src/cm2/src/cm2_ovsdb.c and the uplinks timer of
 src/cm2/src/cm2_stability.c).

 Rows of Connection_Manager_Uplink are kept in table order; if_name is the key of the
 table.  The scan reads each row before it writes it, so the copy that the source scans
 and the table agree on everything that is read.
 */
module Uplinks {
  import opened Options

  datatype Ip = Unset | Ready | Inactive | Active | Blocked | Unblocking

  datatype Families = Families(v4: Ip, v6: Ip) {
    predicate Blocks() {
      v4.Blocked? || v6.Blocked?
    }
  }

  datatype Layers = Layers(l2: bool, l3: bool)

  datatype Row = Row(name: string, layers: Layers, priority: int, isUsed: bool, ip: Families, unblockTs: Option<int>)

  datatype Barred = Barred(v4: bool, v6: bool)

  /** `g_state.link`. */
  datatype Link = Link(ifName: string, isUsed: bool, priority: int, flags: Flags, barred: Barred)

  datatype Flags = Flags(blocked: bool, echoed: bool)

  const NO_LINK := Link("", false, 0, Flags(false, false), Barred(false, false))

  const BLOCK_TIME := 30
  const UPLINKS_TIMEOUT := 120.0

  predicate UniqueNames(rows: seq<Row>) {
    forall i, j | 0 <= i < j < |rows| :: rows[i].name != rows[j].name
  }

  // ---- What one recalculation does to a row ----

  predicate Scanned(r: Row) {
    r.layers.l2 && r.layers.l3
  }

  function Unblock(s: Ip): Ip {
    if s.Blocked? then Unblocking else s
  }

  function Expired(r: Row, now: int): Families {
    if r.unblockTs.Some? && r.unblockTs.value <= now then Families(Unblock(r.ip.v4), Unblock(r.ip.v6)) else r.ip
  }

  /** `was` is the state that the scan has read. */
  function Block(was: Ip, is_: Ip): Ip {
    if was.Unset? || was.Unblocking? then is_ else Blocked
  }

  function NewIp(r: Row, blockCurrent: bool, now: int): Families {
    var ip := Expired(r, now);
    if blockCurrent && r.isUsed then Families(Block(r.ip.v4, ip.v4), Block(r.ip.v6, ip.v6)) else ip
  }

  /** Writing the state of a family also unsets the unblock time of the row. */
  predicate Blockable(ip: Families) {
    !(ip.v4.Unset? || ip.v4.Unblocking?) || !(ip.v6.Unset? || ip.v6.Unblocking?)
  }

  /** The unblock time after expiry and before the current link is blocked. */
  function TimedTs(r: Row, now: int, backoff: nat): Option<int> {
    if !r.ip.Blocks() then None
    else if r.unblockTs.None? then Some(now + BLOCK_TIME + backoff)
    else if r.unblockTs.value <= now then None
    else r.unblockTs
  }

  function NewTs(r: Row, blockCurrent: bool, now: int, backoff: nat): Option<int> {
    if blockCurrent && r.isUsed && Blockable(r.ip) then None else TimedTs(r, now, backoff)
  }

  function ScanRow(r: Row, blockCurrent: bool, now: int, backoff: nat): Row {
    if !Scanned(r) then r
    else r.(ip := NewIp(r, blockCurrent, now), unblockTs := NewTs(r, blockCurrent, now, backoff))
  }

  function ScanRows(rows: seq<Row>, blockCurrent: bool, now: int, backoffs: nat -> nat): (r: seq<Row>)
    ensures |r| == |rows|
    ensures forall i | 0 <= i < |rows| :: r[i] == ScanRow(rows[i], blockCurrent, now, backoffs(i))
  {
    seq(|rows|, i requires 0 <= i < |rows| => ScanRow(rows[i], blockCurrent, now, backoffs(i)))
  }

  // ---- The choice ----

  predicate Usable(s: Ip) {
    s.Active? || s.Ready?
  }

  predicate Down(s: Ip) {
    s.Inactive? || s.Blocked?
  }

  /** A family that is down rules the row out unless the other one works. */
  predicate Eligible(r: Row, blockCurrent: bool) {
    && Scanned(r)
    && !(blockCurrent && r.isUsed)
    && (Down(r.ip.v6) ==> Usable(r.ip.v4))
    && (Down(r.ip.v4) ==> Usable(r.ip.v6))
  }

  /** A row that can carry the traffic: both layers are up, it is not the current link that
      is being blocked, and a family works, or nothing speaks against either of them. */
  predicate CanServe(r: Row, blockCurrent: bool) {
    && r.layers.l2 && r.layers.l3
    && (r.isUsed ==> !blockCurrent)
    && (|| r.ip.v4 in {Active, Ready} || r.ip.v6 in {Active, Ready}
        || (r.ip.v4 in {Unset, Unblocking} && r.ip.v6 in {Unset, Unblocking}))
  }

  lemma EligibleMeans(r: Row, blockCurrent: bool)
    ensures Eligible(r, blockCurrent) <==> CanServe(r, blockCurrent)
  {
  }

  /** The first row of maximum priority among the eligible ones. */
  predicate IsBest(rows: seq<Row>, blockCurrent: bool, c: int) {
    && 0 <= c < |rows|
    && Eligible(rows[c], blockCurrent)
    && (forall j | 0 <= j < |rows| && Eligible(rows[j], blockCurrent) :: rows[j].priority <= rows[c].priority)
    && (forall j | 0 <= j < c && Eligible(rows[j], blockCurrent) :: rows[j].priority < rows[c].priority)
  }

  predicate NoneEligible(rows: seq<Row>, blockCurrent: bool) {
    forall j | 0 <= j < |rows| :: !Eligible(rows[j], blockCurrent)
  }

  predicate Best(rows: seq<Row>, blockCurrent: bool, best: Option<int>) {
    match best
    case None => NoneEligible(rows, blockCurrent)
    case Some(c) => IsBest(rows, blockCurrent, c)
  }

  lemma BestIsUnique(rows: seq<Row>, blockCurrent: bool, b: Option<int>, c: Option<int>)
    requires Best(rows, blockCurrent, b) && Best(rows, blockCurrent, c)
    ensures b == c
  {
  }

  lemma BestExtends(rows: seq<Row>, blockCurrent: bool, n: nat, best: Option<int>)
    requires n < |rows| && Best(rows[..n], blockCurrent, best)
    ensures Best(rows[..n + 1], blockCurrent,
                 if Eligible(rows[n], blockCurrent) && (best.None? || rows[n].priority > rows[best.value].priority)
                 then Some(n) else best)
  {
    assert rows[..n + 1] == rows[..n] + [rows[n]];
  }

  function BestOf(rows: seq<Row>, blockCurrent: bool): (best: Option<int>)
    ensures Best(rows, blockCurrent, best)
  {
    if rows == [] then None
    else
      var n := |rows| - 1;
      var best := BestOf(rows[..n], blockCurrent);
      BestExtends(rows, blockCurrent, n, best);
      assert rows[..n + 1] == rows;
      if Eligible(rows[n], blockCurrent) && (best.None? || rows[n].priority > rows[best.value].priority)
      then Some(n) else best
  }

  /** The states of the last row that the scan has read. */
  function LastScanned(rows: seq<Row>): Families {
    if rows == [] then Families(Unset, Unset)
    else
      var n := |rows| - 1;
      if Scanned(rows[n]) then rows[n].ip else LastScanned(rows[..n])
  }

  /** There is no choice when no row can serve; otherwise it is the first of the highest
      priority among the rows that can. */
  predicate IsChoice(rows: seq<Row>, blockCurrent: bool, choice: Option<int>) {
    match choice
    case None => forall i | 0 <= i < |rows| :: !CanServe(rows[i], blockCurrent)
    case Some(c) =>
      && 0 <= c < |rows| && CanServe(rows[c], blockCurrent)
      && forall i | 0 <= i < |rows| && CanServe(rows[i], blockCurrent) ::
           rows[i].priority <= rows[c].priority && (i < c ==> rows[i].priority < rows[c].priority)
  }

  /** Main result on the choice: a row is chosen exactly when one can serve, and then the
      best of those that can. */
  lemma ChoiceMeans(rows: seq<Row>, blockCurrent: bool)
    ensures var best := BestOf(rows, blockCurrent);
            && IsChoice(rows, blockCurrent, best)
            && (best.Some? <==> exists i | 0 <= i < |rows| :: CanServe(rows[i], blockCurrent))
  {
    hide CanServe, Eligible, BestOf;
    forall i | 0 <= i < |rows| ensures Eligible(rows[i], blockCurrent) <==> CanServe(rows[i], blockCurrent) {
      EligibleMeans(rows[i], blockCurrent);
    }
  }

  // ---- The timer ----

  function Min(a: real, b: real): real {
    if a < b then a else b
  }

  function Truncate(r: real): int {
    if r >= 0.0 then r.Floor else -(-r).Floor
  }

  /** The time until the timer fires covers every unblock time that is still ahead. */
  predicate Covers(rows: seq<Row>, remaining: real, now: int) {
    forall i | 0 <= i < |rows| :: CoversRow(rows[i], remaining, now)
  }

  predicate CoversRow(r: Row, remaining: real, now: int) {
    Scanned(r) && r.unblockTs.Some? && r.unblockTs.value > now ==>
      remaining <= (r.unblockTs.value - now + 2) as real
  }

  /** The timer is left alone or brought forward, but never to less than three seconds. */
  predicate Forward(rem0: real, rem1: real) {
    rem1 <= rem0 && (rem1 == rem0 || rem1 >= 3.0)
  }

  /** The running wait, zero when there is none, and the time until the timer fires. */
  datatype Timing = Timing(tNew: nat, remaining: real)

  /** The wait after one row is not always the least so far: a row that gets its default
      unblock time sets it anew. */
  function NewWait(r: Row, now: int, backoff: nat, tNew: nat): nat {
    if r.unblockTs.Some? then
      if r.unblockTs.value <= now || (tNew != 0 && r.unblockTs.value >= now + tNew) then tNew
      else r.unblockTs.value - now
    else if r.ip.Blocks() then BLOCK_TIME + backoff
    else tNew
  }

  function TurnTiming(r: Row, now: int, backoff: nat, x: Timing): Timing {
    if !Scanned(r) then x
    else
      var tNew := NewWait(r, now, backoff, x.tNew);
      Timing(tNew, if tNew == 0 then x.remaining else Min(x.remaining, (tNew + 2) as real))
  }

  function Timings(rows: seq<Row>, now: int, backoffs: nat -> nat, remaining: real): Timing {
    if rows == [] then Timing(0, remaining)
    else
      var n := |rows| - 1;
      TurnTiming(rows[n], now, backoffs(n), Timings(rows[..n], now, backoffs, remaining))
  }

  lemma TurnCovers(r: Row, blockCurrent: bool, now: int, backoff: nat, x: Timing)
    ensures var y := TurnTiming(r, now, backoff, x);
            && CoversRow(ScanRow(r, blockCurrent, now, backoff), y.remaining, now)
            && Forward(x.remaining, y.remaining)
  {
  }

  /** After the scan the timer covers every row, although the wait may have grown. */
  lemma {:induction false} TimingsCover(
    rows: seq<Row>, blockCurrent: bool, now: int, backoffs: nat -> nat, remaining: real)
    ensures var y := Timings(rows, now, backoffs, remaining);
            && Covers(ScanRows(rows, blockCurrent, now, backoffs), y.remaining, now)
            && Forward(remaining, y.remaining)
    decreases |rows|
  {
    hide ScanRow, TurnTiming, CoversRow;
    if rows == [] {
    } else {
      var n := |rows| - 1;
      var x := Timings(rows[..n], now, backoffs, remaining);
      TimingsCover(rows[..n], blockCurrent, now, backoffs, remaining);
      TurnCovers(rows[n], blockCurrent, now, backoffs(n), x);
      var y := Timings(rows, now, backoffs, remaining);
      var scanned := ScanRows(rows, blockCurrent, now, backoffs);
      CoveredFurther(ScanRows(rows[..n], blockCurrent, now, backoffs), x.remaining, y.remaining, now);
      forall i | 0 <= i < |rows| ensures CoversRow(scanned[i], y.remaining, now) {
        if i < n {
          assert scanned[i] == ScanRows(rows[..n], blockCurrent, now, backoffs)[i];
        }
      }
    }
  }

  lemma CoveredFurther(rows: seq<Row>, rem0: real, rem1: real, now: int)
    requires Covers(rows, rem0, now) && rem1 <= rem0
    ensures Covers(rows, rem1, now)
  {
  }

  lemma NothingScanned(rows: seq<Row>, blockCurrent: bool, now: int, backoffs: nat -> nat, remaining: real)
    ensures LastScanned(rows[..0]) == Families(Unset, Unset)
    ensures BestOf(rows[..0], blockCurrent) == None
    ensures Timings(rows[..0], now, backoffs, remaining) == Timing(0, remaining)
  {
  }

  /** One more row has been scanned. */
  lemma ScannedFurther(rows: seq<Row>, n: nat, blockCurrent: bool, now: int, backoffs: nat -> nat, remaining: real)
    requires n < |rows|
    ensures LastScanned(rows[..n + 1]) == if Scanned(rows[n]) then rows[n].ip else LastScanned(rows[..n])
    ensures var b := BestOf(rows[..n], blockCurrent);
            BestOf(rows[..n + 1], blockCurrent) ==
              if Eligible(rows[n], blockCurrent) && (b.None? || rows[n].priority > rows[b.value].priority)
              then Some(n) else b
    ensures Timings(rows[..n + 1], now, backoffs, remaining) ==
            TurnTiming(rows[n], now, backoffs(n), Timings(rows[..n], now, backoffs, remaining))
  {
    assert rows[..n + 1][..n] == rows[..n];
  }

  lemma PriorityKept(r: Row, blockCurrent: bool, now: int, backoff: nat)
    ensures ScanRow(r, blockCurrent, now, backoff).priority == r.priority
    ensures SameUse(r, ScanRow(r, blockCurrent, now, backoff))
  {
  }

  // ---- Writes of the used flag ----

  function Mark(rows: seq<Row>, name: string, v: bool): (r: seq<Row>)
    ensures |r| == |rows|
    ensures forall i | 0 <= i < |rows| :: r[i] == if rows[i].name == name then rows[i].(isUsed := v) else rows[i]
  {
    seq(|rows|, i requires 0 <= i < |rows| => if rows[i].name == name then rows[i].(isUsed := v) else rows[i])
  }

  datatype T = T(rows: seq<Row>, link: Link)

  /** `ok` says whether the table accepts the write. */
  function Clear(t: T, ok: bool): T {
    if t.link.isUsed then T(if ok then Mark(t.rows, t.link.ifName, false) else t.rows, NO_LINK) else t
  }

  predicate Accepts(link: Link, layers: Layers, priority: int) {
    layers.l2 && layers.l3 && (link.flags.blocked || !link.isUsed || priority > link.priority)
  }

  function SetUsed(t: T, name: string, layers: Layers, priority: int, clearOk: bool, ok: bool): T {
    if !Accepts(t.link, layers, priority) then t
    else
      var c := Clear(t, clearOk);
      T(if ok then Mark(c.rows, name, true) else c.rows,
        c.link.(ifName := name, isUsed := true, priority := priority, flags := Flags(false, false)))
  }

  function BarredBy(ip: Families): Barred {
    Barred(ip.v4.Blocked? || ip.v4.Unblocking?, ip.v6.Blocked? || ip.v6.Unblocking?)
  }

  /** What the recalculation makes of its choice. */
  function Settle(t: T, best: Option<int>, last: Families, clearOk: bool, ok: bool): T
    requires best.Some? ==> 0 <= best.value < |t.rows|
  {
    match best
    case None => t
    case Some(c) =>
      var r := t.rows[c];
      if r.isUsed then t.(link := t.link.(barred := BarredBy(last)))
      else
        var link := t.link.(flags := t.link.flags.(blocked := true));
        SetUsed(t.(link := link), r.name, r.layers, r.priority, clearOk, ok)
  }

  /** The table, the link and the timer. */
  datatype Sys = Sys(t: T, remaining: real)

  function Recalc(s: Sys, blockCurrent: bool, now: int, backoffs: nat -> nat, clearOk: bool, ok: bool): Sys {
    var rows := s.t.rows;
    Sys(Settle(T(ScanRows(rows, blockCurrent, now, backoffs), s.t.link), BestOf(rows, blockCurrent),
               LastScanned(rows), clearOk, ok),
        Timings(rows, now, backoffs, s.remaining).remaining)
  }

  predicate SameUse(r: Row, r': Row) {
    r'.name == r.name && r'.isUsed == r.isUsed
  }

  /** No row but the one named by the link is marked as used. */
  predicate SingleUse(t: T) {
    && UniqueNames(t.rows)
    && forall i | 0 <= i < |t.rows| && t.rows[i].isUsed :: t.link.isUsed && t.rows[i].name == t.link.ifName
  }

  class Manager {
    var rows: seq<Row>
    var link: Link
    /** Time until the uplinks timer fires. */
    var remaining: real

    function Value(): T
      reads this
    {
      T(rows, link)
    }

    function State(): Sys
      reads this
    {
      Sys(Value(), remaining)
    }

    constructor (rows: seq<Row>)
      ensures this.rows == rows && !link.isUsed && !link.flags.blocked && remaining == 120.0
      ensures link == NO_LINK
    {
      this.rows, link, remaining := rows, NO_LINK, UPLINKS_TIMEOUT;
    }

    /** The timer is only ever brought forward. */
    method SetInterval(value: int)
      modifies this`remaining
      ensures value >= 1 ==> remaining == Min(old(remaining), value as real)
      ensures value == 0 ==> remaining == if old(remaining) <= -1.0 then old(remaining) else 0.0
      ensures value < 0 ==> remaining == old(remaining)
    {
      if value < 0 { return; }
      if Truncate(remaining) < value { return; }
      remaining := value as real;
    }

    method ClearUsed(ok: bool)
      modifies this`rows, this`link
      ensures Value() == Clear(old(Value()), ok)
    {
      if link.isUsed {
        if ok { rows := Mark(rows, link.ifName, false); }
        link := NO_LINK;
      }
    }

    method SetIsUsed(name: string, layers: Layers, priority: int, clearOk: bool, ok: bool) returns (done: bool)
      modifies this`rows, this`link
      ensures Value() == SetUsed(old(Value()), name, layers, priority, clearOk, ok)
      ensures done <==>
              && ok && layers.l2 && layers.l3
              && (!old(link).isUsed || old(link).flags.blocked || old(link).priority < priority)
    {
      if !layers.l2 || !layers.l3 { return false; }
      if !link.flags.blocked && link.isUsed && priority <= link.priority { return false; }
      ClearUsed(clearOk);
      link := link.(ifName := name, isUsed := true, priority := priority, flags := Flags(false, false));
      if ok { rows := Mark(rows, name, true); }
      return ok;
    }

    method SetIpv4(i: nat, state: Ip)
      requires i < |rows|
      modifies this`rows
      ensures var r := old(rows)[i]; rows == old(rows)[i := r.(ip := r.ip.(v4 := state), unblockTs := None)]
    {
      rows := rows[i := rows[i].(ip := rows[i].ip.(v4 := state), unblockTs := None)];
    }

    method SetIpv6(i: nat, state: Ip)
      requires i < |rows|
      modifies this`rows
      ensures var r := old(rows)[i]; rows == old(rows)[i := r.(ip := r.ip.(v6 := state), unblockTs := None)]
    {
      rows := rows[i := rows[i].(ip := rows[i].ip.(v6 := state), unblockTs := None)];
    }

    /** One turn of the scan: the unblock times and the timer. */
    method ScanTimes(i: nat, now: int, backoff: nat, tNew0: nat) returns (tNew: nat)
      requires i < |rows| && Scanned(rows[i])
      modifies this`rows, this`remaining
      ensures var r := old(rows)[i];
              rows == old(rows)[i := r.(ip := Expired(r, now), unblockTs := TimedTs(r, now, backoff))]
      ensures Timing(tNew, remaining) == TurnTiming(old(rows)[i], now, backoff, Timing(tNew0, old(remaining)))
    {
      var row := rows[i];
      tNew := tNew0;
      if row.unblockTs.Some? {
        if !row.ip.v4.Blocked? && !row.ip.v6.Blocked? {
          rows := rows[i := rows[i].(unblockTs := None)];
        }
        var t := row.unblockTs.value;
        if t - now <= 0 {
          if row.ip.v4.Blocked? { SetIpv4(i, Unblocking); }
          if row.ip.v6.Blocked? { SetIpv6(i, Unblocking); }
        } else if tNew == 0 || t < now + tNew {
          tNew := t - now;
        }
      } else if row.ip.v4.Blocked? || row.ip.v6.Blocked? {
        tNew := BLOCK_TIME + backoff;
        rows := rows[i := rows[i].(unblockTs := Some(now + tNew))];
      }
      if tNew != 0 { SetInterval(tNew + 2); }
    }

    method BlockCurrent(i: nat, was: Families)
      requires i < |rows|
      modifies this`rows
      ensures var r := old(rows)[i];
              rows == old(rows)[i := r.(ip := Families(Block(was.v4, r.ip.v4), Block(was.v6, r.ip.v6)),
                                        unblockTs := if Blockable(was) then None else r.unblockTs)]
    {
      if !was.v4.Unset? && !was.v4.Unblocking? { SetIpv4(i, Blocked); }
      if !was.v6.Unset? && !was.v6.Unblocking? { SetIpv6(i, Blocked); }
    }

    /** One turn of the scan, as far as it writes. */
    method ScanRowAt(i: nat, blockCurrent: bool, now: int, backoff: nat, tNew0: nat) returns (tNew: nat)
      requires i < |rows|
      modifies this`rows, this`remaining
      ensures rows == old(rows)[i := ScanRow(old(rows)[i], blockCurrent, now, backoff)]
      ensures Timing(tNew, remaining) == TurnTiming(old(rows)[i], now, backoff, Timing(tNew0, old(remaining)))
    {
      var row := rows[i];
      if !Scanned(row) { return tNew0; }
      tNew := ScanTimes(i, now, backoff, tNew0);
      if blockCurrent && row.isUsed { BlockCurrent(i, row.ip); }
    }

    /** The scan over all rows with both layers up. */
    method Scan(blockCurrent: bool, now: int, backoffs: nat -> nat) returns (best: Option<int>, last: Families)
      modifies this`rows, this`remaining
      ensures best == BestOf(old(rows), blockCurrent) && Best(old(rows), blockCurrent, best)
      ensures last == LastScanned(old(rows))
      ensures rows == ScanRows(old(rows), blockCurrent, now, backoffs)
      ensures remaining == Timings(old(rows), now, backoffs, old(remaining)).remaining
      ensures Covers(rows, remaining, now) && Forward(old(remaining), remaining)
    {
      hide ScanRow, Best, BestOf, CoversRow, LastScanned, Eligible, Timings, TurnTiming;
      best, last := None, Families(Unset, Unset);
      var tNew, i := 0, 0;
      ghost var was := rows;
      NothingScanned(was, blockCurrent, now, backoffs, remaining);
      while i < |rows|
        invariant 0 <= i <= |rows| == |was|
        invariant forall j | 0 <= j < i :: rows[j] == ScanRow(was[j], blockCurrent, now, backoffs(j))
        invariant forall j | i <= j < |was| :: rows[j] == was[j]
        invariant best.Some? ==> 0 <= best.value < i
        invariant best == BestOf(was[..i], blockCurrent)
        invariant Timing(tNew, remaining) == Timings(was[..i], now, backoffs, old(remaining))
        invariant last == LastScanned(was[..i])
      {
        var row := rows[i];
        ScannedFurther(was, i, blockCurrent, now, backoffs, old(remaining));
        if best.Some? { PriorityKept(was[best.value], blockCurrent, now, backoffs(best.value)); }
        if Scanned(row) { last := row.ip; }
        tNew := ScanRowAt(i, blockCurrent, now, backoffs(i), tNew);
        if Eligible(row, blockCurrent) && (best.None? || row.priority > rows[best.value].priority) {
          best := Some(i);
        }
        i := i + 1;
      }
      assert was[..i] == was;
      TimingsCover(was, blockCurrent, now, backoffs, old(remaining));
    }

    /** Main operation: true exactly when a row can serve; the first of the highest priority
        among those is chosen. */
    method RecalcLinks(blockCurrent: bool, now: int, backoffs: nat -> nat, clearOk: bool, ok: bool) returns (ret: bool)
      modifies this
      ensures State() == Recalc(old(State()), blockCurrent, now, backoffs, clearOk, ok)
      ensures var best := BestOf(old(rows), blockCurrent); Best(old(rows), blockCurrent, best) && ret == best.Some?
      ensures IsChoice(old(rows), blockCurrent, BestOf(old(rows), blockCurrent))
      ensures ret <==> exists i | 0 <= i < |old(rows)| :: CanServe(old(rows)[i], blockCurrent)
      ensures Covers(rows, remaining, now) && Forward(old(remaining), remaining)
      ensures ret && old(SingleUse(Value())) && clearOk && ok ==>
              var best := BestOf(old(rows), blockCurrent);
              && best.Some? && SingleUse(Value()) && link.isUsed && link.ifName == old(rows)[best.value].name
              && (forall i | 0 <= i < |rows| :: rows[i].isUsed <==> i == best.value)
    {
      hide Timings, LastScanned, BestOf, IsChoice, CanServe;
      ChoiceMeans(rows, blockCurrent);
      var uplink, last := Scan(blockCurrent, now, backoffs);
      ghost var scanned := rows;
      ret := false;
      if uplink.Some? {
        ret := true;
        var r := rows[uplink.value];
        if !r.isUsed {
          link := link.(flags := link.flags.(blocked := true));
          var _ := SetIsUsed(r.name, r.layers, r.priority, clearOk, ok);
        } else {
          link := link.(barred := BarredBy(last));
        }
        SettleKeepsTimes(T(scanned, old(link)), uplink, last, clearOk, ok, remaining, now);
        if old(SingleUse(Value())) && clearOk && ok {
          ScanKeepsUse(old(Value()), blockCurrent, now, backoffs);
          ChosenIsUsed(T(scanned, old(link)), uplink.value, last);
        }
      }
    }
  }

  // ---- What the choice does to the used flags ----

  lemma SettleKeepsTimes(t: T, best: Option<int>, last: Families, clearOk: bool, ok: bool, remaining: real, now: int)
    requires best.Some? ==> 0 <= best.value < |t.rows|
    requires Covers(t.rows, remaining, now)
    ensures var u := Settle(t, best, last, clearOk, ok);
            Covers(u.rows, remaining, now)
  {
    var u := Settle(t, best, last, clearOk, ok);
    SettleKeepsRows(t, best, last, clearOk, ok);
    hide Settle;
    forall i | 0 <= i < |u.rows| ensures CoversRow(u.rows[i], remaining, now) {
      assert CoversRow(t.rows[i], remaining, now);
    }
  }

  /** What a recalculation makes of one row; the rest is up to the choice. */
  lemma RecalcRow(s: Sys, blockCurrent: bool, now: int, backoffs: nat -> nat, clearOk: bool, ok: bool, i: nat)
    requires i < |s.t.rows|
    ensures var u := Recalc(s, blockCurrent, now, backoffs, clearOk, ok).t;
            && |u.rows| == |s.t.rows|
            && u.rows[i] == ScanRow(s.t.rows[i], blockCurrent, now, backoffs(i)).(isUsed := u.rows[i].isUsed)
  {
    hide Settle, BestOf, LastScanned, Timings, ScanRow;
    var t := T(ScanRows(s.t.rows, blockCurrent, now, backoffs), s.t.link);
    SettleKeepsRows(t, BestOf(s.t.rows, blockCurrent), LastScanned(s.t.rows), clearOk, ok);
  }

  /** Main result: whatever the choice, a recalculation that does not block the row turns
      every blocked family whose unblock time has come into an unblocking one, touches no
      other family, and takes the time away. */
  lemma NothingOverdue(s: Sys, blockCurrent: bool, now: int, backoffs: nat -> nat, clearOk: bool, ok: bool, i: nat)
    requires i < |s.t.rows| && Scanned(s.t.rows[i]) && !(blockCurrent && s.t.rows[i].isUsed)
    requires s.t.rows[i].unblockTs.Some? && s.t.rows[i].unblockTs.value <= now
    ensures var r, u := s.t.rows[i], Recalc(s, blockCurrent, now, backoffs, clearOk, ok).t;
            && |u.rows| == |s.t.rows|
            && !u.rows[i].ip.Blocks() && u.rows[i].unblockTs == None
            && (!r.ip.v4.Blocked? ==> u.rows[i].ip.v4 == r.ip.v4) && (r.ip.v4.Blocked? ==> u.rows[i].ip.v4.Unblocking?)
            && (!r.ip.v6.Blocked? ==> u.rows[i].ip.v6 == r.ip.v6) && (r.ip.v6.Blocked? ==> u.rows[i].ip.v6.Unblocking?)
  {
    hide Recalc;
    RecalcRow(s, blockCurrent, now, backoffs, clearOk, ok, i);
  }

  lemma SettleKeepsRows(t: T, best: Option<int>, last: Families, clearOk: bool, ok: bool)
    requires best.Some? ==> 0 <= best.value < |t.rows|
    ensures var u := Settle(t, best, last, clearOk, ok);
            && |u.rows| == |t.rows|
            && (forall i | 0 <= i < |t.rows| :: u.rows[i] == t.rows[i].(isUsed := u.rows[i].isUsed))
  {
  }

  lemma ScanKeepsUse(t: T, blockCurrent: bool, now: int, backoffs: nat -> nat)
    requires SingleUse(t)
    ensures SingleUse(t.(rows := ScanRows(t.rows, blockCurrent, now, backoffs)))
  {
    var scanned := ScanRows(t.rows, blockCurrent, now, backoffs);
    forall i | 0 <= i < |scanned| ensures SameUse(t.rows[i], scanned[i]) {
      PriorityKept(t.rows[i], blockCurrent, now, backoffs(i));
    }
  }

  /** Main result: the chosen row, and no other, is used, and the link names it. */
  lemma ChosenIsUsed(t: T, c: nat, last: Families)
    requires SingleUse(t) && c < |t.rows| && Scanned(t.rows[c])
    ensures var u := Settle(t, Some(c), last, true, true);
            && SingleUse(u)
            && u.link.isUsed && u.link.ifName == t.rows[c].name
            && |u.rows| == |t.rows|
            && (forall i | 0 <= i < |u.rows| :: u.rows[i].isUsed <==> i == c)
  {
  }

  /** Blocking the current link blocks every family of it that is known and not about to be
      unblocked, and with the first of them its unblock time is gone. */
  lemma CurrentIsBlocked(s: Sys, now: int, backoffs: nat -> nat, clearOk: bool, ok: bool, i: nat)
    requires i < |s.t.rows| && Scanned(s.t.rows[i]) && s.t.rows[i].isUsed
    ensures var r, u := s.t.rows[i], Recalc(s, true, now, backoffs, clearOk, ok).t;
            && |u.rows| == |s.t.rows|
            && u.rows[i].ip.v4 == (if r.ip.v4 in {Unset, Unblocking} then r.ip.v4 else Blocked)
            && u.rows[i].ip.v6 == (if r.ip.v6 in {Unset, Unblocking} then r.ip.v6 else Blocked)
            && (u.rows[i].ip.Blocks() ==> u.rows[i].unblockTs == None)
  {
    hide Recalc;
    RecalcRow(s, true, now, backoffs, clearOk, ok, i);
  }

  /** A row becomes the used one exactly when both its layers are up and there is no link,
      a blocked one, or one of lower priority; then the old row is given up. */
  lemma SwitchesExactly(t: T, name: string, layers: Layers, priority: int)
    ensures var u := SetUsed(t, name, layers, priority, true, true);
            && |u.rows| == |t.rows|
            && if layers.l2 && layers.l3 && (!t.link.isUsed || t.link.flags.blocked || t.link.priority < priority)
               then
                 && u.link.ifName == name && u.link.isUsed && u.link.priority == priority && !u.link.flags.blocked
                 && forall i | 0 <= i < |t.rows| :: u.rows[i] ==
                      t.rows[i].(isUsed := if t.rows[i].name == name then true
                                           else if t.link.isUsed && t.rows[i].name == t.link.ifName then false
                                           else t.rows[i].isUsed)
               else u == t
  {
  }

  /** Clearing leaves no row in use. */
  lemma ClearGivesUp(t: T)
    requires SingleUse(t)
    ensures var u := Clear(t, true);
            !u.link.isUsed && |u.rows| == |t.rows| &&
            forall i | 0 <= i < |t.rows| :: u.rows[i] == t.rows[i].(isUsed := false)
  {
  }

  /** A link that stays gets its per-family flags from the row that the scan read last:
      they are right exactly when that row is barred like the link, so in particular when
      no row is scanned after it. */
  lemma BarredByTheLastRow(s: Sys, blockCurrent: bool, now: int, backoffs: nat -> nat, clearOk: bool, ok: bool, c: nat)
    requires BestOf(s.t.rows, blockCurrent) == Some(c) && s.t.rows[c].isUsed
    ensures var u := Recalc(s, blockCurrent, now, backoffs, clearOk, ok).t;
            && |u.rows| == |s.t.rows|
            && u.link.barred == Barred(LastScanned(s.t.rows).v4 in {Blocked, Unblocking},
                                       LastScanned(s.t.rows).v6 in {Blocked, Unblocking})
            && (u.link.barred == BarredBy(u.rows[c].ip) <==>
                  BarredBy(LastScanned(s.t.rows)) == BarredBy(s.t.rows[c].ip))
            && ((forall i | c < i < |u.rows| :: !Scanned(s.t.rows[i])) ==> u.link.barred == BarredBy(u.rows[c].ip))
  {
    hide LastScanned, BestOf, Timings;
    var r := s.t.rows[c];
    assert IsBest(s.t.rows, blockCurrent, c);
    RecalcRow(s, blockCurrent, now, backoffs, clearOk, ok, c);
    assert BarredBy(Expired(r, now)) == BarredBy(r.ip);
    if forall i | c < i < |s.t.rows| :: !Scanned(s.t.rows[i]) {
      LastScannedIs(s.t.rows, c);
    }
  }

  lemma {:induction false} LastScannedIs(rows: seq<Row>, c: nat)
    requires c < |rows| && Scanned(rows[c]) && forall i | c < i < |rows| :: !Scanned(rows[i])
    ensures LastScanned(rows) == rows[c].ip
    decreases |rows|
  {
    if c == |rows| - 1 {
    } else {
      LastScannedIs(rows[..|rows| - 1], c);
    }
  }

  /** A recalculation after which a working link counts as barred. */
  lemma BarredWrongly(link: Link, backoffs: nat -> nat)
    ensures var up := Layers(true, true);
            var a := Row("a", up, 2, true, Families(Active, Unset), None);
            var b := Row("b", up, 1, false, Families(Blocked, Unset), Some(9));
            var u := Recalc(Sys(T([a, b], link), UPLINKS_TIMEOUT), false, 5, backoffs, true, true).t;
            && BestOf([a, b], false) == Some(0) && |u.rows| == 2 && u.rows[0] == a
            && u.link.barred == Barred(true, false) != BarredBy(u.rows[0].ip)
  {
    var up := Layers(true, true);
    var a := Row("a", up, 2, true, Families(Active, Unset), None);
    var b := Row("b", up, 1, false, Families(Blocked, Unset), Some(9));
    assert [a, b][..1] == [a] && [a][..0] == [];
    assert BestOf([a], false) == Some(0);
    assert LastScanned([a, b]) == b.ip;
  }

  // ---- Single use in every run ----

  datatype Event =
    | Recalculated(blockCurrent: bool, now: int, backoffs: nat -> nat)
    | Layer3Changed(name: string, layers: Layers, priority: int)
    | Cleared
    | Reread(i: nat)
    | Inserted(row: Row)
    | Removed(i: nat)
    | Rewritten(i: nat, row: Row)
    | Noted(flags: Flags, barred: Barred, priority: int)

  /** `Reread` is the start of the state machine: `i` is any used row, or past the rows
      when there is none.  Other processes add, remove and rewrite rows, but leave the used
      flag alone. */
  predicate Enabled(t: T, e: Event) {
    match e
    case Recalculated(_, _, _) => true
    case Layer3Changed(_, _, _) => true
    case Cleared => true
    case Reread(i) => if i < |t.rows| then t.rows[i].isUsed else forall j | 0 <= j < |t.rows| :: !t.rows[j].isUsed
    case Inserted(row) => !row.isUsed && forall i | 0 <= i < |t.rows| :: t.rows[i].name != row.name
    case Removed(i) => i < |t.rows|
    case Rewritten(i, row) => i < |t.rows| && SameUse(t.rows[i], row)
    case Noted(_, _, _) => true
  }

  function Next(t: T, e: Event): T
    requires Enabled(t, e)
  {
    match e
    case Recalculated(blockCurrent, now, backoffs) => Recalc(Sys(t, 0.0), blockCurrent, now, backoffs, true, true).t
    case Layer3Changed(name, layers, priority) => SetUsed(t, name, layers, priority, true, true)
    case Cleared => Clear(t, true)
    case Reread(i) =>
      if i < |t.rows|
      then t.(link := Link(t.rows[i].name, true, t.rows[i].priority, Flags(false, true), Barred(false, false)))
      else t.(link := NO_LINK.(priority := -1))
    case Inserted(row) => t.(rows := t.rows + [row])
    case Removed(i) => t.(rows := t.rows[..i] + t.rows[i + 1..])
    case Rewritten(i, row) => t.(rows := t.rows[i := row])
    case Noted(flags, barred, priority) => t.(link := t.link.(flags := flags, barred := barred, priority := priority))
  }

  predicate CanRun(t: T, es: seq<Event>)
    decreases |es|
  {
    es == [] || (Enabled(t, es[0]) && CanRun(Next(t, es[0]), es[1..]))
  }

  function Run(t: T, es: seq<Event>): T
    requires CanRun(t, es)
    decreases |es|
  {
    if es == [] then t else Run(Next(t, es[0]), es[1..])
  }

  lemma RecalcKeepsUse(s: Sys, blockCurrent: bool, now: int, backoffs: nat -> nat)
    requires SingleUse(s.t)
    ensures SingleUse(Recalc(s, blockCurrent, now, backoffs, true, true).t)
  {
    hide Settle, SingleUse, LastScanned, Timings, BestOf;
    var best := BestOf(s.t.rows, blockCurrent);
    var u := s.t.(rows := ScanRows(s.t.rows, blockCurrent, now, backoffs));
    ScanKeepsUse(s.t, blockCurrent, now, backoffs);
    if best.Some? {
      ChosenIsUsed(u, best.value, LastScanned(s.t.rows));
    } else {
      NoChoice(u, LastScanned(s.t.rows));
    }
  }

  lemma NoChoice(t: T, last: Families)
    ensures Settle(t, None, last, true, true) == t
  {
  }

  lemma StepKeeps(t: T, e: Event)
    requires SingleUse(t) && Enabled(t, e)
    ensures SingleUse(Next(t, e))
  {
    hide Recalc;
    if e.Recalculated? {
      RecalcKeepsUse(Sys(t, 0.0), e.blockCurrent, e.now, e.backoffs);
    }
  }

  lemma {:induction false} RunKeeps(t: T, es: seq<Event>)
    requires SingleUse(t) && CanRun(t, es)
    ensures SingleUse(Run(t, es))
    decreases |es|
  {
    if es == [] {
    } else {
      StepKeeps(t, es[0]);
      RunKeeps(Next(t, es[0]), es[1..]);
    }
  }

  predicate AtMostOne(rows: seq<Row>) {
    forall i, j | 0 <= i < |rows| && 0 <= j < |rows| && rows[i].isUsed && rows[j].isUsed :: i == j
  }

  /** Main result: with the table accepting the writes, at most one row is marked as used
      at any time, and it is the one that the link names.  The manager starts by reading
      the table, in which an earlier life may have left one used row. */
  lemma AtMostOneUsed(rows: seq<Row>, link: Link, i: nat, es: seq<Event>)
    requires UniqueNames(rows) && AtMostOne(rows) && Enabled(T(rows, link), Reread(i))
    requires CanRun(Next(T(rows, link), Reread(i)), es)
    ensures var u := Run(Next(T(rows, link), Reread(i)), es);
            && AtMostOne(u.rows)
            && (forall j | 0 <= j < |u.rows| && u.rows[j].isUsed :: u.link.isUsed && u.link.ifName == u.rows[j].name)
  {
    var t := Next(T(rows, link), Reread(i));
    assert SingleUse(t);
    RunKeeps(t, es);
  }

  /** When the table refuses to clear the old row, a switch breaks single use exactly if
      another row than the new one was in use. */
  lemma RefusedClear(t: T, c: nat)
    requires SingleUse(t) && c < |t.rows|
    requires Accepts(t.link, t.rows[c].layers, t.rows[c].priority)
    ensures var r := t.rows[c]; var u := SetUsed(t, r.name, r.layers, r.priority, false, true);
            SingleUse(u) <==> forall i | 0 <= i < |t.rows| && t.rows[i].isUsed :: i == c
  {
    var r := t.rows[c];
    var u := SetUsed(t, r.name, r.layers, r.priority, false, true);
    if SingleUse(u) {
      forall i | 0 <= i < |t.rows| && t.rows[i].isUsed ensures i == c {
        assert u.rows[i].isUsed;
      }
    }
  }

  // ---- Unblocking in time ----

  datatype World = World(s: Sys, time: real)

  /** Time passes; the timer fires; another cause asks for a recalculation; somebody else
      writes to the table. */
  datatype Step =
    | Pass(dt: real)
    | Fire(backoffs: nat -> nat, clearOk: bool, ok: bool)
    | Cause(blockCurrent: bool, backoffs: nat -> nat, clearOk: bool, ok: bool)
    | Others(t: T)

  predicate IsRecalc(e: Step) {
    e.Fire? || e.Cause?
  }

  /** What matters of a row for its unblocking. */
  predicate SameTimes(r: Row, r': Row) {
    r'.layers == r.layers && r'.ip == r.ip && r'.unblockTs == r.unblockTs
  }

  /** The loop serves the timer at most `lag` seconds late.  Nobody else writes row `i`, and
      it is not blocked as the current link. */
  predicate CanStep(w: World, e: Step, i: nat, lag: real) {
    && i < |w.s.t.rows|
    && match e
       case Pass(dt) => dt >= 0.0 && w.s.remaining - dt >= -lag
       case Fire(_, _, _) => w.s.remaining <= 0.0
       case Cause(blockCurrent, _, _, _) => !(blockCurrent && w.s.t.rows[i].isUsed)
       case Others(t) => i < |t.rows| && SameTimes(w.s.t.rows[i], t.rows[i])
  }

  /** A repeating timer is restarted when it fires, but not into the past. */
  function Restarted(remaining: real): real {
    if remaining + UPLINKS_TIMEOUT < 0.0 then 0.0 else remaining + UPLINKS_TIMEOUT
  }

  function DoStep(w: World, e: Step): World {
    match e
    case Pass(dt) => World(w.s.(remaining := w.s.remaining - dt), w.time + dt)
    case Fire(backoffs, clearOk, ok) =>
      var s := w.s.(remaining := Restarted(w.s.remaining));
      w.(s := Recalc(s, false, w.time.Floor, backoffs, clearOk, ok))
    case Cause(blockCurrent, backoffs, clearOk, ok) =>
      w.(s := Recalc(w.s, blockCurrent, w.time.Floor, backoffs, clearOk, ok))
    case Others(t) => w.(s := w.s.(t := t))
  }

  predicate CanGo(w: World, es: seq<Step>, i: nat, lag: real)
    decreases |es|
  {
    es == [] || (CanStep(w, es[0], i, lag) && CanGo(DoStep(w, es[0]), es[1..], i, lag))
  }

  function Go(w: World, es: seq<Step>): World
    decreases |es|
  {
    if es == [] then w else Go(DoStep(w, es[0]), es[1..])
  }

  /** Row `i` is blocked until `t`, and the timer fires less than three seconds past `t`. */
  predicate Waiting(w: World, i: nat, t: int, ip: Families, lag: real) {
    && i < |w.s.t.rows| && Scanned(w.s.t.rows[i]) && ip.Blocks()
    && w.s.t.rows[i].ip == ip && w.s.t.rows[i].unblockTs == Some(t)
    && w.s.remaining >= -lag && w.time + w.s.remaining < t as real + 3.0
  }

  predicate Unblocked(w: World, i: nat, t: int, ip: Families, lag: real) {
    && i < |w.s.t.rows| && t as real <= w.time < t as real + 3.0 + lag
    && w.s.t.rows[i].ip == Families(Unblock(ip.v4), Unblock(ip.v6)) && w.s.t.rows[i].unblockTs == None
  }

  /** A recalculation makes every blocked row wait that it leaves with an unblock time. */
  lemma RecalcArms(s: Sys, blockCurrent: bool, time: real, backoffs: nat -> nat, clearOk: bool, ok: bool, i: nat)
    requires i < |s.t.rows|
    ensures var u := Recalc(s, blockCurrent, time.Floor, backoffs, clearOk, ok);
            && |u.t.rows| == |s.t.rows|
            && (Scanned(u.t.rows[i]) && u.t.rows[i].unblockTs.Some? ==>
                  time + u.remaining < u.t.rows[i].unblockTs.value as real + 3.0)
            && Forward(s.remaining, u.remaining)
  {
    var now := time.Floor;
    var scanned := ScanRows(s.t.rows, blockCurrent, now, backoffs);
    var u := Recalc(s, blockCurrent, now, backoffs, clearOk, ok);
    RecalcRow(s, blockCurrent, now, backoffs, clearOk, ok, i);
    TimingsCover(s.t.rows, blockCurrent, now, backoffs, s.remaining);
    hide Settle, BestOf, LastScanned, Timings;
    assert CoversRow(scanned[i], u.remaining, now);
    assert scanned[i] == ScanRow(s.t.rows[i], blockCurrent, now, backoffs(i));
    assert Scanned(scanned[i]) && scanned[i].unblockTs.Some? ==> scanned[i].unblockTs.value > now;
  }

  /** From every recalculation on, every blocked row waits that the recalculation neither
      unblocks nor blocks as the current link; a row without an unblock time gets one. */
  lemma BlockedRowWaits(w: World, blockCurrent: bool, backoffs: nat -> nat, clearOk: bool, ok: bool, i: nat, lag: real)
    requires i < |w.s.t.rows| && w.s.remaining >= -lag && lag >= 0.0
    requires var r := w.s.t.rows[i];
             && Scanned(r) && r.ip.Blocks() && !(blockCurrent && r.isUsed)
             && (r.unblockTs.Some? ==> r.unblockTs.value > w.time.Floor)
    ensures var v := DoStep(w, Cause(blockCurrent, backoffs, clearOk, ok)); var r := w.s.t.rows[i];
            var t := if r.unblockTs.Some? then r.unblockTs.value else w.time.Floor + 30 + backoffs(i);
            Waiting(v, i, t, r.ip, lag)
  {
    hide Recalc;
    RecalcArms(w.s, blockCurrent, w.time, backoffs, clearOk, ok, i);
    RecalcRow(w.s, blockCurrent, w.time.Floor, backoffs, clearOk, ok, i);
  }

  /** One step of a waiting row: it goes on waiting or is unblocked in time. */
  lemma StepWaits(w: World, e: Step, i: nat, t: int, ip: Families, lag: real)
    requires Waiting(w, i, t, ip, lag) && CanStep(w, e, i, lag) && lag >= 0.0
    ensures var v := DoStep(w, e); Waiting(v, i, t, ip, lag) || (IsRecalc(e) && Unblocked(v, i, t, ip, lag))
  {
    hide Recalc;
    var now := w.time.Floor;
    match e
    case Pass(_) =>
    case Others(_) =>
    case Fire(backoffs, clearOk, ok) =>
      var s := w.s.(remaining := Restarted(w.s.remaining));
      RecalcArms(s, false, w.time, backoffs, clearOk, ok, i);
      RecalcRow(s, false, now, backoffs, clearOk, ok, i);
    case Cause(blockCurrent, backoffs, clearOk, ok) =>
      RecalcArms(w.s, blockCurrent, w.time, backoffs, clearOk, ok, i);
      RecalcRow(w.s, blockCurrent, now, backoffs, clearOk, ok, i);
  }

  /** Main result: in every run, with recalculations from the timer and from any other
      cause and with any change to other rows, a row that waits is unblocked by one of
      the recalculations, no earlier than its unblock time and less than three seconds
      plus the lag of the timer after it, as soon as the run lasts that long. */
  lemma {:induction false} UnblockedInTime(w: World, es: seq<Step>, i: nat, t: int, ip: Families, lag: real)
    returns (k: nat)
    requires Waiting(w, i, t, ip, lag) && CanGo(w, es, i, lag) && lag >= 0.0
    requires Go(w, es).time >= t as real + 3.0 + lag
    ensures k < |es| && IsRecalc(es[k]) && CanGo(w, es[..k + 1], i, lag)
    ensures Unblocked(Go(w, es[..k + 1]), i, t, ip, lag)
    decreases |es|
  {
    hide Waiting, Unblocked, DoStep, CanStep;
    if es == [] {
      WaitsInTime(w, i, t, ip, lag);
    } else {
      var v := DoStep(w, es[0]);
      StepWaits(w, es[0], i, t, ip, lag);
      if Waiting(v, i, t, ip, lag) {
        var j := UnblockedInTime(v, es[1..], i, t, ip, lag);
        k := j + 1;
        assert es[..k + 1][1..] == es[1..][..j + 1];
      } else {
        k := 0;
        assert es[..1][1..] == [];
        assert Go(v, []) == v && CanGo(v, [], i, lag);
      }
    }
  }

  /** A row that still waits has not waited longer than that. */
  lemma WaitsInTime(w: World, i: nat, t: int, ip: Families, lag: real)
    requires Waiting(w, i, t, ip, lag)
    ensures w.time < t as real + 3.0 + lag
  {
  }
}
