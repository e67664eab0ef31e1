/**
 The WAN configuration that is exchanged over Bluetooth (src/blem/src/blem_wan_config.c):
 it is written to the WAN_Config table as one row per kind and read back from it.
 */
module WanConfig {
  import opened Options

  datatype Pppoe = Pppoe(enabled: bool, username: string, password: string)

  datatype Vlan = Vlan(enabled: bool, id: int)

  datatype Static = Static(
    enabled: bool, ip: string, subnet: string, gateway: string, dns: string, dns2: Option<string>)

  datatype Config = Config(pppoe: Option<Pppoe>, vlan: Option<Vlan>, static_: Option<Static>)

  const EMPTY := Config(None, None, None)

  datatype Row = Row(kind: string, enable: bool, priority: int, persist: bool, other: map<string, string>)

  const TEXT_BUFFER := 256
  const IPV4_BUFFER := 16
  const VLAN_BUFFER := 5

  // ---- Decimal numbers ----

  predicate IsDigit(c: char) {
    '0' <= c <= '9'
  }

  function Digit(d: nat): char
    requires d < 10
  {
    '0' + d as char
  }

  function Natural(n: nat): (s: string)
    ensures s != "" && forall c | c in s :: IsDigit(c)
  {
    if n < 10 then [Digit(n)] else Natural(n / 10) + [Digit(n % 10)]
  }

  function Decimal(n: int): string {
    if n >= 0 then Natural(n) else "-" + Natural(-n)
  }

  /** The value of the leading digits. */
  function Leading(s: string, acc: nat): nat {
    if s == "" || !IsDigit(s[0]) then acc else Leading(s[1..], 10 * acc + (s[0] - '0') as nat)
  }

  function Unspaced(s: string): string {
    if s != "" && s[0] in " \t\n\r" then Unspaced(s[1..]) else s
  }

  /** The C function of that name, without overflow. */
  function Atoi(s: string): int {
    var t := Unspaced(s);
    if t == "" then 0
    else if t[0] == '-' then -(Leading(t[1..], 0) as int)
    else if t[0] == '+' then Leading(t[1..], 0)
    else Leading(t, 0)
  }

  /** A C string written to a buffer of `size` bytes. */
  function Copied(s: string, size: nat): string
    requires size > 0
  {
    if |s| < size then s else s[..size - 1]
  }

  lemma {:induction false} LeadingStep(s: string, acc: nat, d: nat)
    requires d < 10 && forall c | c in s :: IsDigit(c)
    ensures Leading(s + [Digit(d)], acc) == 10 * Leading(s, acc) + d
    decreases |s|
  {
    if s == "" {
      assert (s + [Digit(d)])[1..] == "";
    } else {
      assert (s + [Digit(d)])[1..] == s[1..] + [Digit(d)] && s[0] in s;
      LeadingStep(s[1..], 10 * acc + (s[0] - '0') as nat, d);
    }
  }

  lemma {:induction false} LeadingNatural(n: nat)
    ensures Leading(Natural(n), 0) == n
  {
    if n < 10 {
      LeadingStep("", 0, n);
      assert "" + [Digit(n)] == Natural(n);
    } else {
      LeadingNatural(n / 10);
      LeadingStep(Natural(n / 10), 0, n % 10);
    }
  }

  lemma AtoiDecimal(n: int)
    ensures Atoi(Decimal(n)) == n
  {
    var s := Decimal(n);
    if n >= 0 {
      LeadingNatural(n);
      assert s[0] in Natural(n);
    } else {
      LeadingNatural(-n);
      assert s[0] == '-' && s[1..] == Natural(-n);
    }
    assert Unspaced(s) == s;
  }

  function Power(k: nat): nat {
    if k == 0 then 1 else 10 * Power(k - 1)
  }

  /** A number has at most `k` digits exactly when it is less than ten to the power `k`. */
  lemma {:induction false} NaturalLength(n: nat, k: nat)
    requires k > 0
    ensures |Natural(n)| <= k <==> n < Power(k)
    decreases k
  {
    if n >= 10 {
      if k == 1 {
        assert Power(1) == 10 * Power(0) == 10;
      } else {
        NaturalLength(n / 10, k - 1);
        assert Power(k) == 10 * Power(k - 1);
      }
    } else {
      assert Power(k) >= 10 by { PowerAtLeast(k); }
    }
  }

  lemma {:induction false} PowerAtLeast(k: nat)
    requires k > 0
    ensures Power(k) >= 10
  {
    if k == 1 {
      assert Power(0) == 1;
    } else {
      PowerAtLeast(k - 1);
    }
  }

  /** `k` digits make a number less than ten to the power `k`. */
  lemma {:induction false} LeadingBound(s: string, acc: nat, k: nat)
    requires |s| <= k
    ensures Leading(s, acc) < (acc + 1) * Power(k)
    decreases |s|, k
  {
    if s != "" && IsDigit(s[0]) {
      var acc' := 10 * acc + (s[0] - '0') as nat;
      LeadingBound(s[1..], acc', k - 1);
      calc <= {
        (acc' + 1) * Power(k - 1);
        { MulMonotone(acc' + 1, 10 * (acc + 1), Power(k - 1)); }
        10 * (acc + 1) * Power(k - 1);
        (acc + 1) * (10 * Power(k - 1));
      }
    } else {
      PowerPositive(k);
      MulMonotone(1, Power(k), acc + 1);
    }
  }

  lemma MulMonotone(a: nat, b: nat, c: nat)
    requires a <= b
    ensures a * c <= b * c
  {
  }

  lemma {:induction false} PowerPositive(k: nat)
    ensures Power(k) >= 1
  {
    if k == 0 {
    } else {
      PowerPositive(k - 1);
    }
  }

  /** Main result: a VLAN id survives the table exactly when its decimal form fits the
      buffer of five bytes. */
  lemma VlanExactly(n: int)
    ensures Atoi(Copied(Decimal(n), VLAN_BUFFER)) == n <==> -999 <= n <= 9999
  {
    var s := Decimal(n);
    var t := Copied(s, VLAN_BUFFER);
    assert Power(4) == 10000 && Power(3) == 1000 by {
      assert Power(0) == 1 && Power(1) == 10 && Power(2) == 100;
    }
    AtoiDecimal(n);
    if n >= 0 {
      NaturalLength(n, 4);
      assert t[0] == Natural(n)[0] && Natural(n)[0] in Natural(n);
      assert Unspaced(t) == t;
      LeadingBound(t, 0, 4);
    } else {
      NaturalLength(-n, 3);
      assert t[0] == '-' && Unspaced(t) == t;
      LeadingBound(t[1..], 0, 3);
    }
  }

  // ---- Writing ----

  /** The rows that replace the table. */
  function Rows(c: Config): seq<Row> {
    (match c.pppoe case None => [] case Some(p) => [PppoeRow(p)]) +
    (match c.vlan case None => [] case Some(v) => [VlanRow(v)]) +
    (match c.static_ case None => [] case Some(s) => [StaticRow(s)])
  }

  function PppoeRow(p: Pppoe): Row {
    Row("pppoe", p.enabled, 0, true, map["username" := p.username, "password" := p.password])
  }

  function VlanRow(v: Vlan): Row {
    Row("vlan", v.enabled, 0, true, map["vlan_id" := Copied(Decimal(v.id), VLAN_BUFFER)])
  }

  function StaticRow(s: Static): Row {
    var m := map["ip" := s.ip, "subnet" := s.subnet, "gateway" := s.gateway, "primary_dns" := s.dns];
    Row("static_ipv4", s.enabled, 0, true, if s.dns2.Some? then m["secondary_dns" := s.dns2.value] else m)
  }

  // ---- Reading ----

  /** The priorities of the rows taken so far; `None` stands for the least integer. */
  datatype Last = Last(pppoe: Option<int>, vlan: Option<int>, static_: Option<int>)

  datatype Reading = Reading(config: Config, last: Last)

  predicate Outranked(last: Option<int>, priority: int) {
    last.Some? && last.value > priority
  }

  function ReadPppoe(r: Row): Option<Pppoe> {
    if "username" in r.other && "password" in r.other
    then Some(Pppoe(r.enable, Copied(r.other["username"], TEXT_BUFFER), Copied(r.other["password"], TEXT_BUFFER)))
    else None
  }

  function ReadVlan(r: Row): Option<Vlan> {
    if "vlan_id" in r.other then Some(Vlan(r.enable, Atoi(r.other["vlan_id"]))) else None
  }

  /** A row without a second server keeps the one that was read before. */
  function ReadStatic(r: Row, before: Option<Static>): Option<Static> {
    if "ip" in r.other && "subnet" in r.other && "gateway" in r.other && "primary_dns" in r.other
    then Some(Static(r.enable, Copied(r.other["ip"], IPV4_BUFFER), Copied(r.other["subnet"], IPV4_BUFFER),
                     Copied(r.other["gateway"], IPV4_BUFFER), Copied(r.other["primary_dns"], IPV4_BUFFER),
                     if "secondary_dns" in r.other then Some(Copied(r.other["secondary_dns"], IPV4_BUFFER))
                     else if before.Some? then before.value.dns2 else None))
    else None
  }

  function Or<T>(a: Option<T>, b: Option<T>): Option<T> {
    if a.Some? then a else b
  }

  /** One turn of the loop; an incomplete row still counts for the priority. */
  function ReadRow(x: Reading, r: Row): Reading {
    var c, last := x.config, x.last;
    if !r.persist then x
    else if r.kind == "pppoe" then
      if Outranked(last.pppoe, r.priority) then x
      else Reading(c.(pppoe := Or(ReadPppoe(r), c.pppoe)), last.(pppoe := Some(r.priority)))
    else if r.kind == "vlan" then
      if Outranked(last.vlan, r.priority) then x
      else Reading(c.(vlan := Or(ReadVlan(r), c.vlan)), last.(vlan := Some(r.priority)))
    else if r.kind == "static_ipv4" then
      if Outranked(last.static_, r.priority) then x
      else Reading(c.(static_ := Or(ReadStatic(r, c.static_), c.static_)), last.(static_ := Some(r.priority)))
    else if r.kind == "dhcp" then
      if Outranked(last.static_, r.priority) then x else x.(last := last.(static_ := Some(r.priority)))
    else x
  }

  const NOTHING_READ := Reading(EMPTY, Last(None, None, None))

  function ReadRows(rows: seq<Row>): Reading {
    if rows == [] then NOTHING_READ else ReadRow(ReadRows(rows[..|rows| - 1]), rows[|rows| - 1])
  }

  class Table {
    var rows: seq<Row>

    constructor ()
      ensures rows == []
    {
      rows := [];
    }

    /** The transaction takes effect as a whole or not at all. */
    method Set(c: Config, ok: bool) returns (success: bool)
      modifies this
      ensures success == ok && rows == if ok then Rows(c) else old(rows)
    {
      var trans: seq<Row> := [];
      if c.pppoe.Some? { trans := trans + [PppoeRow(c.pppoe.value)]; }
      if c.vlan.Some? { trans := trans + [VlanRow(c.vlan.value)]; }
      if c.static_.Some? { trans := trans + [StaticRow(c.static_.value)]; }
      if ok { rows := trans; }
      return ok;
    }

    /** The rows come in the order of the database, which is any order. */
    method Get() returns (c: Config)
      ensures c == ReadRows(rows).config
    {
      hide ReadRow;
      var x := NOTHING_READ;
      var i := 0;
      while i < |rows|
        invariant 0 <= i <= |rows| && x == ReadRows(rows[..i])
      {
        assert rows[..i + 1][..i] == rows[..i];
        x := ReadRow(x, rows[i]);
        i := i + 1;
      }
      assert rows[..i] == rows;
      return x.config;
    }
  }

  // ---- Several rows of one kind ----

  /** Row `i` is the last of the highest priority among the stored rows of some kinds. */
  predicate IsTop(rows: seq<Row>, kinds: set<string>, i: nat) {
    && i < |rows| && rows[i].persist && rows[i].kind in kinds
    && forall j | 0 <= j < |rows| && rows[j].persist && rows[j].kind in kinds ::
         rows[j].priority <= rows[i].priority && (i < j ==> rows[j].priority < rows[i].priority)
  }

  predicate AtMost(rows: seq<Row>, kinds: set<string>, p: int) {
    forall j | 0 <= j < |rows| && rows[j].persist && rows[j].kind in kinds :: rows[j].priority <= p
  }

  lemma AtMostStep(rows: seq<Row>, kinds: set<string>, p: int)
    requires rows != []
    ensures var n := |rows| - 1;
            AtMost(rows, kinds, p) <==>
              AtMost(rows[..n], kinds, p) && (rows[n].persist && rows[n].kind in kinds ==> rows[n].priority <= p)
  {
  }

  lemma AtMostMore(rows: seq<Row>, kinds: set<string>, p: int, q: int)
    requires AtMost(rows, kinds, p) && p <= q
    ensures AtMost(rows, kinds, q)
  {
  }

  /** What a row of some kind competes with. */
  function LastOf(last: Last, kinds: set<string>): Option<int> {
    if kinds == {"pppoe"} then last.pppoe else if kinds == {"vlan"} then last.vlan else last.static_
  }

  lemma LastStep(x: Reading, r: Row, kinds: set<string>)
    requires kinds == {"pppoe"} || kinds == {"vlan"} || kinds == {"static_ipv4", "dhcp"}
    ensures var last := LastOf(x.last, kinds);
            LastOf(ReadRow(x, r).last, kinds) ==
              if r.persist && r.kind in kinds && !Outranked(last, r.priority) then Some(r.priority) else last
  {
    assert "vlan" !in {"pppoe"} && "static_ipv4" !in {"pppoe"} && "static_ipv4" !in {"vlan"};
    assert "vlan" in {"vlan"} && "static_ipv4" in {"static_ipv4", "dhcp"};
    hide ReadPppoe, ReadVlan, ReadStatic, Or;
  }

  /** A row is outranked exactly when a stored row before it has a higher priority. */
  lemma {:induction false} OutrankedExactly(rows: seq<Row>, kinds: set<string>, p: int)
    requires kinds == {"pppoe"} || kinds == {"vlan"} || kinds == {"static_ipv4", "dhcp"}
    ensures Outranked(LastOf(ReadRows(rows).last, kinds), p) <==> !AtMost(rows, kinds, p)
    decreases |rows|
  {
    if rows == [] {
    } else {
      hide ReadRow, LastOf;
      var n := |rows| - 1;
      var r := rows[n];
      OutrankedExactly(rows[..n], kinds, p);
      OutrankedExactly(rows[..n], kinds, r.priority);
      LastStep(ReadRows(rows[..n]), r, kinds);
      AtMostStep(rows, kinds, p);
      if AtMost(rows[..n], kinds, r.priority) && r.priority <= p {
        AtMostMore(rows[..n], kinds, r.priority, p);
      }
    }
  }

  lemma TopOfPrefix(rows: seq<Row>, kinds: set<string>, i: nat)
    requires IsTop(rows, kinds, i)
    ensures if i == |rows| - 1 then AtMost(rows[..i], kinds, rows[i].priority)
            else IsTop(rows[..|rows| - 1], kinds, i)
  {
  }

  /** Main result: of several rows the last one of the highest priority is read, whatever
      the order of the rows; an incomplete one leaves what the rows before it gave. */
  lemma {:induction false} PppoeByPriority(rows: seq<Row>, i: nat)
    requires IsTop(rows, {"pppoe"}, i)
    ensures ReadRows(rows).last.pppoe == Some(rows[i].priority)
    ensures var r := rows[i];
            ReadRows(rows).config.pppoe ==
              if "username" in r.other && "password" in r.other
              then Some(Pppoe(r.enable, Copied(r.other["username"], 256), Copied(r.other["password"], 256)))
              else ReadRows(rows[..i]).config.pppoe
    decreases |rows|
  {
    hide Copied, IsTop, AtMost, ReadVlan, ReadStatic;
    var n := |rows| - 1;
    TopIsRow(rows, {"pppoe"}, i);
    TopOfPrefix(rows, {"pppoe"}, i);
    if i == n {
      OutrankedExactly(rows[..n], {"pppoe"}, rows[i].priority);
    } else {
      PppoeByPriority(rows[..n], i);
      assert rows[..n][..i] == rows[..i];
    }
  }

  lemma {:induction false} VlanByPriority(rows: seq<Row>, i: nat)
    requires IsTop(rows, {"vlan"}, i)
    ensures ReadRows(rows).last.vlan == Some(rows[i].priority)
    ensures var r := rows[i];
            ReadRows(rows).config.vlan ==
              if "vlan_id" in r.other then Some(Vlan(r.enable, Atoi(r.other["vlan_id"])))
              else ReadRows(rows[..i]).config.vlan
    decreases |rows|
  {
    hide Atoi, IsTop, AtMost, ReadPppoe, ReadStatic;
    var n := |rows| - 1;
    TopIsRow(rows, {"vlan"}, i);
    TopOfPrefix(rows, {"vlan"}, i);
    if i == n {
      OutrankedExactly(rows[..n], {"vlan"}, rows[i].priority);
    } else {
      VlanByPriority(rows[..n], i);
      assert rows[..n][..i] == rows[..i];
    }
  }

  /** A row for DHCP competes with the static addresses but sets none. */
  lemma {:induction false} StaticByPriority(rows: seq<Row>, i: nat)
    requires IsTop(rows, {"static_ipv4", "dhcp"}, i)
    ensures ReadRows(rows).last.static_ == Some(rows[i].priority)
    ensures var r, before := rows[i], ReadRows(rows[..i]).config.static_;
            ReadRows(rows).config.static_ ==
              if r.kind == "static_ipv4" && {"ip", "subnet", "gateway", "primary_dns"} <= r.other.Keys
              then Some(Static(r.enable, Copied(r.other["ip"], 16), Copied(r.other["subnet"], 16),
                               Copied(r.other["gateway"], 16), Copied(r.other["primary_dns"], 16),
                               if "secondary_dns" in r.other then Some(Copied(r.other["secondary_dns"], 16))
                               else if before.Some? then before.value.dns2 else None))
              else before
    decreases |rows|
  {
    hide Copied, IsTop, AtMost, ReadPppoe, ReadVlan;
    var n := |rows| - 1;
    TopIsRow(rows, {"static_ipv4", "dhcp"}, i);
    TopOfPrefix(rows, {"static_ipv4", "dhcp"}, i);
    if i == n {
      OutrankedExactly(rows[..n], {"static_ipv4", "dhcp"}, rows[i].priority);
    } else {
      StaticByPriority(rows[..n], i);
      assert rows[..n][..i] == rows[..i];
    }
  }

  predicate IsStatic(r: Row) {
    r.persist && r.kind == "static_ipv4" && {"ip", "subnet", "gateway", "primary_dns"} <= r.other.Keys
  }

  /** A static address is read exactly when some complete row for one has no row of higher
      priority before it; a row for DHCP of higher priority hides it only when it comes
      before it. */
  lemma {:induction false} StaticExactly(rows: seq<Row>)
    ensures ReadRows(rows).config.static_.Some? <==>
            exists j | 0 <= j < |rows| ::
              IsStatic(rows[j]) && AtMost(rows[..j], {"static_ipv4", "dhcp"}, rows[j].priority)
    decreases |rows|
  {
    if rows == [] {
    } else {
      var n := |rows| - 1;
      var kinds := {"static_ipv4", "dhcp"};
      StaticExactly(rows[..n]);
      OutrankedExactly(rows[..n], kinds, rows[n].priority);
      StaticStep(ReadRows(rows[..n]), rows[n]);
      hide ReadRow, IsStatic, AtMost, Outranked;
      forall j | 0 <= j < n ensures rows[..n][..j] == rows[..j] {
      }
    }
  }

  lemma StaticStep(x: Reading, r: Row)
    ensures ReadRow(x, r).config.static_.Some? <==>
            x.config.static_.Some? || (IsStatic(r) && !Outranked(x.last.static_, r.priority))
  {
    hide Copied, ReadPppoe, ReadVlan;
  }

  /** The same two rows, a static address and DHCP of higher priority, read differently in
      the two orders of the table. */
  lemma DhcpDoesNotClear(s: Row, d: Row)
    requires IsStatic(s) && d.persist && d.kind == "dhcp" && s.priority < d.priority
    ensures ReadRows([s, d]).config.static_.Some? && ReadRows([d, s]).config.static_.None?
  {
    StaticExactly([s, d]);
    StaticExactly([d, s]);
    assert [s, d][0] == s && [s, d][..0] == [];
    assert [d, s][..1] == [d] && [d][0] == d;
    hide ReadRows;
  }

  /** A kind without a stored row reads as absent. */
  lemma {:induction false} NothingStored(rows: seq<Row>)
    ensures var c := ReadRows(rows).config;
            && ((forall r | r in rows && r.persist :: r.kind != "pppoe") ==> c.pppoe == None)
            && ((forall r | r in rows && r.persist :: r.kind != "vlan") ==> c.vlan == None)
            && ((forall r | r in rows && r.persist :: r.kind != "static_ipv4") ==> c.static_ == None)
    decreases |rows|
  {
    hide ReadPppoe, ReadVlan, ReadStatic, Outranked;
    if rows == [] {
    } else {
      NothingStored(rows[..|rows| - 1]);
      assert rows[|rows| - 1] in rows;
    }
  }

  lemma TopIsRow(rows: seq<Row>, kinds: set<string>, i: nat)
    requires IsTop(rows, kinds, i)
    ensures i < |rows| && rows[i].persist && rows[i].kind in kinds
    ensures var r := rows[|rows| - 1];
            i < |rows| - 1 && r.persist && r.kind in kinds ==> r.priority < rows[i].priority
  {
  }

  // ---- Reading what was written ----

  /** The configuration as it comes back. */
  function Stored(c: Config): Config {
    Config(
      match c.pppoe
      case None => None
      case Some(p) => Some(Pppoe(p.enabled, Copied(p.username, TEXT_BUFFER), Copied(p.password, TEXT_BUFFER))),
      match c.vlan
      case None => None
      case Some(v) => Some(Vlan(v.enabled, Atoi(Copied(Decimal(v.id), VLAN_BUFFER)))),
      match c.static_
      case None => None
      case Some(s) =>
        Some(Static(s.enabled, Copied(s.ip, IPV4_BUFFER), Copied(s.subnet, IPV4_BUFFER),
                    Copied(s.gateway, IPV4_BUFFER), Copied(s.dns, IPV4_BUFFER),
                    if s.dns2.Some? then Some(Copied(s.dns2.value, IPV4_BUFFER)) else None)))
  }

  predicate PppoeFits(p: Pppoe) {
    |p.username| < 256 && |p.password| < 256
  }

  predicate StaticFits(s: Static) {
    && |s.ip| < 16 && |s.subnet| < 16 && |s.gateway| < 16 && |s.dns| < 16
    && (s.dns2.Some? ==> |s.dns2.value| < 16)
  }

  predicate Fits(c: Config) {
    && (c.pppoe.Some? ==> PppoeFits(c.pppoe.value))
    && (c.vlan.Some? ==> -999 <= c.vlan.value.id <= 9999)
    && (c.static_.Some? ==> StaticFits(c.static_.value))
  }

  lemma CopiedExactly(s: string, size: nat)
    requires size > 0
    ensures Copied(s, size) == s <==> |s| < size
  {
  }

  lemma PppoeExactly(p: Pppoe)
    ensures Pppoe(p.enabled, Copied(p.username, TEXT_BUFFER), Copied(p.password, TEXT_BUFFER)) == p <==> PppoeFits(p)
  {
    CopiedExactly(p.username, TEXT_BUFFER);
    CopiedExactly(p.password, TEXT_BUFFER);
  }

  lemma StoredExactly(c: Config)
    ensures Stored(c) == c <==> Fits(c)
  {
    if c.pppoe.Some? { PppoeExactly(c.pppoe.value); }
    if c.vlan.Some? { VlanExactly(c.vlan.value.id); }
    if c.static_.Some? {
      var s := c.static_.value;
      CopiedExactly(s.ip, IPV4_BUFFER);
      CopiedExactly(s.subnet, IPV4_BUFFER);
      CopiedExactly(s.gateway, IPV4_BUFFER);
      CopiedExactly(s.dns, IPV4_BUFFER);
      if s.dns2.Some? { CopiedExactly(s.dns2.value, IPV4_BUFFER); }
    }
  }

  predicate Has(rows: seq<Row>, kind: string) {
    exists r | r in rows :: r.kind == kind
  }

  /** What has been read after some of the rows. */
  function Partial(c: Config, rows: seq<Row>): Reading {
    var s := Stored(c);
    var p, v, t := Has(rows, "pppoe"), Has(rows, "vlan"), Has(rows, "static_ipv4");
    Reading(
      Config(if p then s.pppoe else None, if v then s.vlan else None, if t then s.static_ else None),
      Last(if p then Some(0) else None, if v then Some(0) else None, if t then Some(0) else None))
  }

  /** The rows are some of those written for `c`. */
  predicate Written(c: Config, rows: seq<Row>) {
    forall r | r in rows :: r in Rows(c)
  }

  lemma RowReads(c: Config, x: Reading, r: Row)
    requires r in Rows(c)
    requires x.last == Last(if x.config.pppoe.Some? then Some(0) else None,
                            if x.config.vlan.Some? then Some(0) else None,
                            if x.config.static_.Some? then Some(0) else None)
    requires x.config.static_.Some? ==> x.config.static_ == Stored(c).static_
    ensures var s := Stored(c);
            ReadRow(x, r) ==
              if r.kind == "pppoe" then Reading(x.config.(pppoe := s.pppoe), x.last.(pppoe := Some(0)))
              else if r.kind == "vlan" then Reading(x.config.(vlan := s.vlan), x.last.(vlan := Some(0)))
              else Reading(x.config.(static_ := s.static_), x.last.(static_ := Some(0)))
    ensures r.kind == "pppoe" ==> c.pppoe.Some?
    ensures r.kind == "vlan" ==> c.vlan.Some?
    ensures r.kind == "static_ipv4" ==> c.static_.Some?
    ensures r.kind == "pppoe" || r.kind == "vlan" || r.kind == "static_ipv4"
  {
    hide Copied, Atoi, Decimal;
  }

  lemma HasStep(rows: seq<Row>, kind: string)
    requires rows != []
    ensures Has(rows, kind) <==> Has(rows[..|rows| - 1], kind) || rows[|rows| - 1].kind == kind
  {
    var n := |rows| - 1;
    assert forall r :: r in rows <==> r in rows[..n] || r == rows[n];
    assert rows[n] in rows;
  }

  lemma {:induction false} ReadsWritten(c: Config, rows: seq<Row>)
    requires Written(c, rows)
    ensures ReadRows(rows) == Partial(c, rows)
    ensures Has(rows, "pppoe") ==> c.pppoe.Some?
    ensures Has(rows, "vlan") ==> c.vlan.Some?
    ensures Has(rows, "static_ipv4") ==> c.static_.Some?
    decreases |rows|
  {
    hide ReadRow, Rows, Has;
    if rows == [] {
      NothingHas();
    } else {
      var n := |rows| - 1;
      assert rows[n] in rows;
      ReadsWritten(c, rows[..n]);
      HasStep(rows, "pppoe");
      HasStep(rows, "vlan");
      HasStep(rows, "static_ipv4");
      RowReads(c, ReadRows(rows[..n]), rows[n]);
    }
  }

  lemma NothingHas()
    ensures !Has([], "pppoe") && !Has([], "vlan") && !Has([], "static_ipv4")
  {
  }

  /** Main result: in whatever order the rows of a written configuration come back, they
      read as the configuration exactly when every value fits its buffer. */
  lemma RoundTrip(c: Config, rows: seq<Row>)
    requires multiset(rows) == multiset(Rows(c))
    ensures ReadRows(rows).config == Stored(c)
    ensures ReadRows(rows).config == c <==> Fits(c)
  {
    SameMembers(c, rows);
    hide Rows, ReadRow, Fits, Copied, Atoi, Decimal;
    ReadsWritten(c, rows);
    StoredExactly(c);
  }

  lemma SameMembers(c: Config, rows: seq<Row>)
    requires multiset(rows) == multiset(Rows(c))
    ensures Written(c, rows)
    ensures c.pppoe.Some? ==> Has(rows, "pppoe")
    ensures c.vlan.Some? ==> Has(rows, "vlan")
    ensures c.static_.Some? ==> Has(rows, "static_ipv4")
  {
    forall r ensures r in rows <==> r in Rows(c) {
      assert r in rows <==> r in multiset(rows);
      assert r in Rows(c) <==> r in multiset(Rows(c));
    }
    if c.pppoe.Some? { assert PppoeRow(c.pppoe.value) in Rows(c); }
    if c.vlan.Some? { assert VlanRow(c.vlan.value) in Rows(c); }
    if c.static_.Some? { assert StaticRow(c.static_.value) in Rows(c); }
  }
}
