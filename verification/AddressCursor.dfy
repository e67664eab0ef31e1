/**
 The cursor over the resolved controller addresses, in its asynchronous form with one
 list per family (src/cm2/src/cm2_resolve_ares.c) and in its synchronous form over one
 linked list (src/cm2/src/cm2_resolve_sync.c).
 */
module AddressCursor {
  import opened Options

  type Address = string

  /** The answer for one family: `None` when there is none, and whether it is of the
      family that was asked for. */
  datatype Answer = Answer(addrs: Option<seq<Address>>, typeOk: bool)

  /** The state of the link for one family. */
  datatype Family = Family(isIp: bool, blocked: bool)

  predicate Usable(f: Family) {
    f.isIp && !f.blocked
  }

  /** The addresses of a family that may be written at all. */
  function Offered(a: Answer, f: Family): seq<Address> {
    if Usable(f) && a.addrs.Some? && a.typeOk then a.addrs.value else []
  }

  datatype Cursor = Cursor(idx6: nat, idx4: nat, pref6: bool)

  /** Which family comes next, if any. */
  function Pick(c: Cursor, a6: seq<Address>, a4: seq<Address>): Option<bool> {
    var valid6, valid4 := c.idx6 < |a6|, c.idx4 < |a4|;
    if !valid6 && !valid4 then None
    else if (c.pref6 && valid6) || (!c.pref6 && valid4) then Some(c.pref6)
    else Some(valid6)
  }

  function Move(c: Cursor): Cursor {
    Cursor(if c.pref6 then c.idx6 + 1 else c.idx6, if c.pref6 then c.idx4 else c.idx4 + 1, !c.pref6)
  }

  function At(c: Cursor, a6: seq<Address>, a4: seq<Address>, six: bool): Address
    requires if six then c.idx6 < |a6| else c.idx4 < |a4|
  {
    if six then a6[c.idx6] else a4[c.idx4]
  }

  // ---- The asynchronous cursor as the source keeps it ----

  class Ares {
    const answer6: Answer
    const answer4: Answer
    var link6: Family
    var link4: Family
    var idx6: nat
    var idx4: nat
    var pref6: bool
    /** The target in the Manager table. */
    var target: Option<Address>

    function Value(): Cursor
      reads this
    {
      Cursor(idx6, idx4, pref6)
    }

    /** No index has passed the terminator of its list. */
    predicate InBounds()
      reads this
    {
      && (answer6.addrs.Some? ==> idx6 <= |answer6.addrs.value|)
      && (answer4.addrs.Some? ==> idx4 <= |answer4.addrs.value|)
    }

    constructor (answer6: Answer, answer4: Answer, link6: Family, link4: Family)
      ensures this.answer6 == answer6 && this.answer4 == answer4 && this.link6 == link6 && this.link4 == link4
      ensures Value() == Cursor(0, 0, true) && InBounds() && target == None
    {
      this.answer6, this.answer4, this.link6, this.link4 := answer6, answer4, link6, link4;
      idx6, idx4, pref6, target := 0, 0, true, None;
    }

    /** A list is read at its index, so the index must not have passed the terminator. */
    method Validate(six: bool) returns (valid: bool)
      requires InBounds()
      ensures valid == if six then idx6 < |Offered(answer6, link6)| else idx4 < |Offered(answer4, link4)|
      ensures var answer, link, idx := if six then answer6 else answer4, if six then link6 else link4,
                                       if six then idx6 else idx4;
              valid <==> link.isIp && !link.blocked && answer.addrs.Some? && idx < |answer.addrs.value| && answer.typeOk
    {
      var answer := if six then answer6 else answer4;
      var link := if six then link6 else link4;
      var idx := if six then idx6 else idx4;
      if !link.isIp || link.blocked { return false; }
      if answer.addrs.None? { return false; }
      if idx == |answer.addrs.value| { return false; }
      if !answer.typeOk { return false; }
      return true;
    }

    method PickNext() returns (found: bool)
      requires InBounds()
      modifies this`pref6
      ensures var p := Pick(old(Value()), Offered(answer6, link6), Offered(answer4, link4));
              found == p.Some? && pref6 == if p.Some? then p.value else old(pref6)
    {
      var valid4 := Validate(false);
      var valid6 := Validate(true);
      if !valid4 && !valid6 { return false; }
      if (pref6 && valid6) || (!pref6 && valid4) { return true; }
      if valid6 {
        pref6 := true;
      } else if valid4 {
        pref6 := false;
      }
      return true;
    }

    /** `ok` says whether the table takes the target. */
    method WriteTarget(ok: bool) returns (done: bool)
      requires if pref6 then idx6 < |Offered(answer6, link6)| else idx4 < |Offered(answer4, link4)|
      modifies this`target
      ensures done == ok
      ensures var a6, a4 := Offered(answer6, link6), Offered(answer4, link4);
              target == if ok then Some(At(Value(), a6, a4, pref6)) else old(target)
    {
      var address := if pref6 then answer6.addrs.value[idx6] else answer4.addrs.value[idx4];
      if ok { target := Some(address); }
      return ok;
    }

    method MoveNext()
      modifies this`idx6, this`idx4, this`pref6
      ensures Value() == Move(old(Value()))
    {
      if pref6 {
        idx6 := idx6 + 1;
      } else {
        idx4 := idx4 + 1;
      }
      pref6 := !pref6;
    }

    method WriteCurrent(ok: bool) returns (done: bool)
      requires InBounds()
      modifies this`pref6, this`target
      ensures InBounds()
      ensures var a6, a4 := Offered(answer6, link6), Offered(answer4, link4); var p := Pick(old(Value()), a6, a4);
              && done == (ok && p.Some?)
              && Value() == (if p.Some? then old(Value()).(pref6 := p.value) else old(Value()))
              && target == if done then Some(At(old(Value()), a6, a4, p.value)) else old(target)
    {
      var found := PickNext();
      if !found { return false; }
      done := WriteTarget(ok);
    }

    /** The move must not pass the end of a list; it does not when it follows a successful
        pick. */
    method WriteNext(ok: bool) returns (done: bool)
      requires InBounds()
      requires if pref6 then answer6.addrs.Some? ==> idx6 < |answer6.addrs.value|
               else answer4.addrs.Some? ==> idx4 < |answer4.addrs.value|
      modifies this`idx6, this`idx4, this`pref6, this`target
      ensures InBounds()
      ensures var a6, a4 := Offered(answer6, link6), Offered(answer4, link4);
              var c := Move(old(Value())); var p := Pick(c, a6, a4);
              && done == (ok && p.Some?)
              && Value() == (if p.Some? then c.(pref6 := p.value) else c)
              && target == if done then Some(At(c, a6, a4, p.value)) else old(target)
    {
      MoveNext();
      var found := PickNext();
      if !found { return false; }
      done := WriteTarget(ok);
    }
  }

  // ---- What the asynchronous cursor visits ----

  /** The targets of one current write followed by next writes until one fails, when the
      table takes them all. */
  function Visits(c: Cursor, a6: seq<Address>, a4: seq<Address>): seq<Address>
    requires c.idx6 <= |a6| && c.idx4 <= |a4|
    decreases |a6| - c.idx6 + |a4| - c.idx4
  {
    match Pick(c, a6, a4)
    case None => []
    case Some(six) => [At(c, a6, a4, six)] + Visits(Move(c.(pref6 := six)), a6, a4)
  }

  /** Some targets, followed by the visits that are still to come. */
  function Continued(targets: seq<Address>, c: Cursor, a6: seq<Address>, a4: seq<Address>): seq<Address>
    requires c.idx6 <= |a6| && c.idx4 <= |a4|
  {
    targets + Visits(c, a6, a4)
  }

  /** The preferred family has an address. */
  predicate Picked(c: Cursor, a6: seq<Address>, a4: seq<Address>) {
    c.idx6 <= |a6| && c.idx4 <= |a4| && if c.pref6 then c.idx6 < |a6| else c.idx4 < |a4|
  }

  /** Picking a family does not change what is visited. */
  lemma ContinuedByPick(targets: seq<Address>, c: Cursor, a6: seq<Address>, a4: seq<Address>)
    requires c.idx6 <= |a6| && c.idx4 <= |a4|
    ensures match Pick(c, a6, a4)
            case None => Continued(targets, c, a6, a4) == targets
            case Some(six) =>
              Picked(c.(pref6 := six), a6, a4) &&
              Continued(targets, c.(pref6 := six), a6, a4) == Continued(targets, c, a6, a4)
  {
  }

  lemma ContinuedByMove(targets: seq<Address>, c: Cursor, a6: seq<Address>, a4: seq<Address>)
    requires Picked(c, a6, a4)
    ensures Move(c).idx6 <= |a6| && Move(c).idx4 <= |a4|
    ensures Continued(targets + [At(c, a6, a4, c.pref6)], Move(c), a6, a4) == Continued(targets, c, a6, a4)
  {
    var visit := [At(c, a6, a4, c.pref6)];
    assert Visits(c, a6, a4) == visit + Visits(Move(c), a6, a4);
  }

  /** Only an address of a family that the link has an address for, and that is not blocked,
      is picked, and it is the one at the family's index. */
  lemma PickedFromUsable(answer6: Answer, answer4: Answer, link6: Family, link4: Family, c: Cursor)
    ensures var a6, a4 := Offered(answer6, link6), Offered(answer4, link4);
            match Pick(c, a6, a4)
            case Some(six) =>
              var answer, link, idx := if six then answer6 else answer4, if six then link6 else link4,
                                       if six then c.idx6 else c.idx4;
              && link.isIp && !link.blocked && answer.typeOk && answer.addrs.Some? && idx < |answer.addrs.value|
              && At(c, a6, a4, six) == answer.addrs.value[idx]
            case None =>
              && (link6.isIp && !link6.blocked && answer6.typeOk && answer6.addrs.Some? ==>
                    c.idx6 >= |answer6.addrs.value|)
              && (link4.isIp && !link4.blocked && answer4.typeOk && answer4.addrs.Some? ==>
                    c.idx4 >= |answer4.addrs.value|)
  {
  }

  lemma OfferedIsAnswered(a: Answer, f: Family)
    ensures Offered(a, f) != [] ==> a.addrs == Some(Offered(a, f))
  {
  }

  /** The writes of one connection attempt after another, until no address is left: the
      targets written are the visits. */
  method WriteAll(c: Ares) returns (targets: seq<Address>)
    requires c.InBounds()
    requires c.idx6 <= |Offered(c.answer6, c.link6)| && c.idx4 <= |Offered(c.answer4, c.link4)|
    modifies c
    ensures c.InBounds() && c.link6 == old(c.link6) && c.link4 == old(c.link4)
    ensures targets == Visits(old(c.Value()), Offered(c.answer6, c.link6), Offered(c.answer4, c.link4))
    ensures Pick(c.Value(), Offered(c.answer6, c.link6), Offered(c.answer4, c.link4)) == None
  {
    ghost var a6, a4 := Offered(c.answer6, c.link6), Offered(c.answer4, c.link4);
    ghost var all := Continued([], c.Value(), a6, a4);
    assert all == Visits(c.Value(), a6, a4);
    OfferedIsAnswered(c.answer6, c.link6);
    OfferedIsAnswered(c.answer4, c.link4);
    ContinuedByPick([], c.Value(), a6, a4);
    hide Continued, Visits, Offered, Pick;
    targets := [];
    var found := c.WriteCurrent(true);
    while found
      invariant c.InBounds() && c.link6 == old(c.link6) && c.link4 == old(c.link4)
      invariant c.idx6 <= |a6| && c.idx4 <= |a4|
      invariant found ==> Picked(c.Value(), a6, a4) && c.target == Some(At(c.Value(), a6, a4, c.pref6))
      invariant found ==> Continued(targets, c.Value(), a6, a4) == all
      invariant !found ==> targets == all && Pick(c.Value(), a6, a4) == None
      decreases found, |a6| - c.idx6 + |a4| - c.idx4
    {
      ContinuedByMove(targets, c.Value(), a6, a4);
      targets := targets + [c.target.value];
      ContinuedByPick(targets, Move(c.Value()), a6, a4);
      found := c.WriteNext(true);
    }
  }

  /** Two lists in turn, then what is left of the longer one. */
  function Interleave(a: seq<Address>, b: seq<Address>): seq<Address>
    decreases |a| + |b|
  {
    if a == [] then b else [a[0]] + Interleave(b, a[1..])
  }

  /** Once one list is empty, the order of the turns no longer matters. */
  lemma InterleaveWithNone(a: seq<Address>)
    ensures Interleave(a, []) == a
  {
    if a != [] {
      assert Interleave([], a[1..]) == a[1..];
    }
  }

  lemma {:induction false} VisitsInterleave(c: Cursor, a6: seq<Address>, a4: seq<Address>)
    requires c.idx6 <= |a6| && c.idx4 <= |a4|
    ensures var r6, r4 := a6[c.idx6..], a4[c.idx4..];
            Visits(c, a6, a4) == if c.pref6 then Interleave(r6, r4) else Interleave(r4, r6)
    decreases |a6| - c.idx6 + |a4| - c.idx4
  {
    var r6, r4 := a6[c.idx6..], a4[c.idx4..];
    var p := Pick(c, a6, a4);
    if p.Some? {
      var d := Move(c.(pref6 := p.value));
      VisitsInterleave(d, a6, a4);
      InterleaveWithNone(r6);
      InterleaveWithNone(r4);
      if p.value {
        assert a6[d.idx6..] == r6[1..];
        InterleaveWithNone(r6[1..]);
      } else {
        assert a4[d.idx4..] == r4[1..];
        InterleaveWithNone(r4[1..]);
      }
    }
  }

  lemma {:induction false} InterleaveKeepsAll(a: seq<Address>, b: seq<Address>)
    ensures multiset(Interleave(a, b)) == multiset(a) + multiset(b)
    decreases |a| + |b|
  {
    if a == [] {
    } else {
      InterleaveKeepsAll(b, a[1..]);
      assert a == [a[0]] + a[1..];
    }
  }

  function Min(m: nat, n: nat): nat {
    if m < n then m else n
  }

  /** While both lists have entries the lists take turns; after that the longer one goes
      on in order. */
  lemma {:induction false} InterleaveTurns(a: seq<Address>, b: seq<Address>, k: nat)
    requires k < |a| + |b|
    ensures |Interleave(a, b)| == |a| + |b|
    ensures var m := Min(|a|, |b|);
            Interleave(a, b)[k] ==
              if k < 2 * m then (if k % 2 == 0 then a[k / 2] else b[k / 2])
              else if |a| > m then a[k - m] else b[k - m]
    decreases k
  {
    InterleaveLength(a, b);
    if a == [] || k == 0 {
    } else {
      InterleaveTurns(b, a[1..], k - 1);
    }
  }

  lemma {:induction false} InterleaveLength(a: seq<Address>, b: seq<Address>)
    ensures |Interleave(a, b)| == |a| + |b|
    decreases |a| + |b|
  {
    if a == [] {
    } else {
      InterleaveLength(b, a[1..]);
    }
  }

  /** Main result: starting over, the cursor visits every address of the usable families
      exactly once, IPv6 first, taking turns while both have addresses, and then fails. */
  lemma VisitsAll(answer6: Answer, answer4: Answer, link6: Family, link4: Family)
    ensures var a6 := if link6.isIp && !link6.blocked && answer6.typeOk && answer6.addrs.Some?
                      then answer6.addrs.value else [];
            var a4 := if link4.isIp && !link4.blocked && answer4.typeOk && answer4.addrs.Some?
                      then answer4.addrs.value else [];
            var visits := Visits(Cursor(0, 0, true), Offered(answer6, link6), Offered(answer4, link4));
            && visits == Interleave(a6, a4)
            && multiset(visits) == multiset(a6) + multiset(a4)
  {
    var a6, a4 := Offered(answer6, link6), Offered(answer4, link4);
    VisitsInterleave(Cursor(0, 0, true), a6, a4);
    assert a6[0..] == a6 && a4[0..] == a4;
    InterleaveKeepsAll(a6, a4);
  }

  /** After a failed pick, one more move passes the end of the preferred list exactly when
      that list is at its end. */
  lemma MovePassesEnd(c: Cursor, n6: nat, n4: nat)
    requires c.idx6 <= n6 && c.idx4 <= n4
    ensures var d := Move(c);
            !(d.idx6 <= n6 && d.idx4 <= n4) <==> (if c.pref6 then c.idx6 == n6 else c.idx4 == n4)
  {
  }

  // ---- The synchronous cursor ----

  datatype Kind = Inet | Inet6 | Other

  datatype List = Nil | Cons(kind: Kind, address: Address, next: List)

  /** The entries that can be written, in order. */
  function Supported(l: List): seq<Address> {
    if l.Nil? then [] else (if l.kind.Other? then [] else [l.address]) + Supported(l.next)
  }

  function Skip(l: List): List {
    if l.Cons? && l.kind.Other? then Skip(l.next) else l
  }

  /** Where the search for the next entry starts; `curr` is Nil before the first. */
  function From(list: List, curr: List): List {
    if curr.Cons? then curr.next else list
  }

  class Sync {
    const list: List
    var curr: List
    var target: Option<Address>

    constructor (list: List)
      ensures this.list == list && curr == Nil && target == None
    {
      this.list, curr, target := list, Nil, None;
    }

    method GetNext() returns (ai: List)
      modifies this`curr
      ensures ai == Skip(From(list, old(curr)))
      ensures curr == if ai.Cons? then ai else old(curr)
    {
      if curr.Cons? {
        ai := curr.next;
      } else {
        ai := list;
      }
      while ai.Cons?
        invariant Skip(ai) == Skip(From(list, old(curr)))
        decreases ai
      {
        if ai.kind.Inet? || ai.kind.Inet6? { break; }
        ai := ai.next;
      }
      if ai.Nil? { return; }
      curr := ai;
    }

    method WriteTarget(ai: List, ok: bool) returns (done: bool)
      modifies this`curr, this`target
      ensures done == (ok && ai.Cons? && !ai.kind.Other?)
      ensures curr == (if done then ai else old(curr)) && target == if done then Some(ai.address) else old(target)
    {
      if ai.Nil? { return false; }
      if ai.kind.Other? { return false; }
      if ok { curr, target := ai, Some(ai.address); }
      return ok;
    }

    method WriteCurrent(ok: bool) returns (done: bool)
      modifies this`curr, this`target
      ensures var ai := if old(curr).Cons? then old(curr) else Skip(list);
              && done == (ok && ai.Cons? && !ai.kind.Other?)
              && curr == ai && target == if done then Some(ai.address) else old(target)
    {
      var ai := curr;
      if ai.Nil? { ai := GetNext(); }
      done := WriteTarget(ai, ok);
    }

    method WriteNext(ok: bool) returns (done: bool)
      modifies this`curr, this`target
      ensures var ai := Skip(From(list, old(curr)));
              && done == (ok && ai.Cons?)
              && curr == (if ai.Cons? then ai else old(curr))
              && target == if done then Some(ai.address) else old(target)
    {
      var ai := GetNext();
      SkipStops(From(list, old(curr)));
      done := WriteTarget(ai, ok);
    }
  }

  lemma {:induction false} SkipStops(l: List)
    ensures Skip(l).Cons? ==> !Skip(l).kind.Other?
    ensures Supported(Skip(l)) == Supported(l)
    ensures Skip(l) == l || Skip(l) < l
  {
    if l.Nil? || !l.kind.Other? {
    } else {
      SkipStops(l.next);
    }
  }

  /** The targets of next writes until one fails. */
  function SyncVisits(start: List): seq<Address> {
    var ai := Skip(start);
    if ai.Nil? then []
    else
      SkipStops(start);
      [ai.address] + SyncVisits(ai.next)
  }

  /** Main result: the linked cursor visits exactly the entries of both families in
      order. */
  lemma {:induction false} SyncVisitsSupported(start: List)
    ensures SyncVisits(start) == Supported(start)
  {
    SkipStops(start);
    var ai := Skip(start);
    if ai.Nil? {
    } else {
      SyncVisitsSupported(ai.next);
    }
  }

  /** A cursor that has failed stays where it is and fails again. */
  lemma SyncStaysAtEnd(list: List, curr: List)
    requires Skip(From(list, curr)).Nil?
    ensures Supported(From(list, curr)) == []
  {
    SkipStops(From(list, curr));
  }
}
