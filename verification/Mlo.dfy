/**
 Multi-link devices (src/cm2/src/cm2_bh_mlo.c): interfaces join and leave a multi-link
 device as the table of interface states says, and the work item of the device decides
 whether it needs a tunnel, what it reports, and whether it goes away.
 */
module Mlo {
  import opened Options

  class Vif {
    const name: string
    var mld: Mld?
    var sta: bool
    var fourAddr: bool

    constructor (name: string)
      ensures this.name == name && mld == null && !sta && !fourAddr
    {
      this.name := name;
      mld, sta, fourAddr := null, false, false;
    }
  }

  class Mld {
    const name: string
    var members: set<Vif>
    /** A tunnel is allocated. */
    var gre: bool
    /** What was last reported to the uplink reconciler. */
    var reportedSta: bool
    var reported4Addr: bool
    /** The work item is scheduled. */
    var pending: bool
    /** Cleared when the memory is released. */
    ghost var live: bool

    constructor (name: string)
      ensures this.name == name && members == {} && !gre && !reportedSta && !reported4Addr && !pending && live
    {
      this.name := name;
      members, gre, reportedSta, reported4Addr, pending := {}, false, false, false, false;
      live := true;
    }

    ghost predicate AllSta()
      reads this, members
    {
      members != {} && forall v | v in members :: v.sta
    }

    ghost predicate All4Addr()
      reads this, members
    {
      AllSta() && forall v | v in members :: v.fourAddr
    }

    ghost predicate All3Addr()
      reads this, members
    {
      AllSta() && forall v | v in members :: !v.fourAddr
    }

    /** The tunnel and the reports fit the members. */
    ghost predicate Settled()
      reads this, members
    {
      && members != {}
      && (gre ==> All3Addr())
      && (reportedSta <==> All3Addr() || All4Addr())
      && (reported4Addr <==> All4Addr())
    }

    /** The counters of the source: members, stations, and those with four addresses. */
    method Tally() returns (n: nat, nSta: nat, n4Addr: nat)
      ensures n == 0 <==> members == {}
      ensures nSta == n <==> forall v | v in members :: v.sta
      ensures n4Addr == n <==> forall v | v in members :: v.fourAddr
      ensures n4Addr == 0 <==> forall v | v in members :: !v.fourAddr
    {
      n, nSta, n4Addr := 0, 0, 0;
      var rest := members;
      while rest != {}
        invariant rest <= members && nSta <= n && n4Addr <= n
        invariant n == 0 <==> rest == members
        invariant nSta == n <==> forall v | v in members - rest :: v.sta
        invariant n4Addr == n <==> forall v | v in members - rest :: v.fourAddr
        invariant n4Addr == 0 <==> forall v | v in members - rest :: !v.fourAddr
        decreases |rest|
      {
        var v :| v in rest;
        if v.sta { nSta := nSta + 1; }
        if v.fourAddr { n4Addr := n4Addr + 1; }
        n, rest := n + 1, rest - {v};
      }
      assert members - rest == members;
    }

    method Is4Addr() returns (r: bool)
      ensures r <==> All4Addr()
    {
      var n, nSta, n4Addr := Tally();
      return n > 0 && nSta == n && n4Addr == n;
    }

    method Is3Addr() returns (r: bool)
      ensures r <==> All3Addr()
    {
      var n, nSta, n4Addr := Tally();
      return n > 0 && nSta == n && n4Addr == 0;
    }

    method IsSta() returns (r: bool)
      ensures r <==> AllSta()
    {
      var n, nSta, n4Addr := Tally();
      return n > 0 && nSta == n;
    }

    method Recalculate(granted: bool)
      modifies this`gre, this`reportedSta, this`reported4Addr, this`pending
      ensures !pending && (members != {} ==> Settled()) && (members == {} ==> !gre)
      ensures gre <==> All3Addr() && (granted || old(gre))
    {
      pending := false;
      var is4Addr := Is4Addr();
      var is3Addr := Is3Addr();
      var isSta := IsSta();
      var needsGre := isSta && is3Addr;
      if needsGre != gre { gre := needsGre && granted; }
      reportedSta := isSta && (is3Addr || is4Addr);
      reported4Addr := isSta && is4Addr;
    }
  }

  lemma InsertedValues<V>(m: map<string, V>, k: string, v: V)
    requires k !in m
    ensures m[k := v].Values == m.Values + {v}
  {
    forall w | w in m.Values ensures w in m[k := v].Values {
      var n :| n in m && m[n] == w;
      assert n in m[k := v] && m[k := v][n] == w;
    }
    assert k in m[k := v];
  }

  class Mlo {
    var vifs: map<string, Vif>
    var mlds: map<string, Mld>

    constructor ()
      ensures Valid() && vifs == map[] && mlds == map[]
    {
      vifs, mlds := map[], map[];
    }

    /** An interface is in the tree of a device exactly when it points to the device, and
        only to devices that are alive. */
    ghost predicate Linked()
      reads this, vifs.Values, mlds.Values
    {
      && (forall n | n in vifs :: vifs[n].name == n)
      && (forall n | n in mlds :: mlds[n].name == n)
      && (forall d | d in mlds.Values :: d.live && d.members <= vifs.Values)
      && (forall v | v in vifs.Values && v.mld != null :: v.mld in mlds.Values)
      && (forall v, d | v in vifs.Values && d in mlds.Values :: v in d.members <==> v.mld == d)
    }

    /** A device whose work is not scheduled is settled. */
    ghost predicate Rests(d: Mld)
      reads this, vifs.Values, d
    {
      d.pending || (d.members <= vifs.Values && d.Settled())
    }

    ghost predicate Valid()
      reads this, vifs.Values, mlds.Values
    {
      Linked() && forall d | d in mlds.Values :: Rests(d)
    }

    method ReportSta(vif: Vif, v: bool)
      requires Valid() && vif in vifs.Values
      modifies vif`sta, mlds.Values`pending
      ensures Valid() && vif.sta == v
      ensures forall d | d in mlds.Values && d != vif.mld :: d.pending == old(d.pending)
    {
      if vif.sta == v { return; }
      vif.sta := v;
      if vif.mld != null { vif.mld.pending := true; }
    }

    method Report4Addr(vif: Vif, v: bool)
      requires Valid() && vif in vifs.Values
      modifies vif`fourAddr, mlds.Values`pending
      ensures Valid() && vif.fourAddr == v
      ensures forall d | d in mlds.Values && d != vif.mld :: d.pending == old(d.pending)
    {
      if vif.fourAddr == v { return; }
      vif.fourAddr := v;
      if vif.mld != null { vif.mld.pending := true; }
    }

    method Leave(vif: Vif)
      requires Linked() && vif in vifs.Values && vif.mld != null
      modifies vif`mld, vif.mld`members, vif.mld`pending
      ensures Linked() && vif.mld == null && old(vif.mld).pending
      ensures old(vif.mld).members == old(vif.mld.members) - {vif}
    {
      vif.mld.members := vif.mld.members - {vif};
      vif.mld.pending := true;
      vif.mld := null;
    }

    method Join(vif: Vif, mld: Mld)
      requires Linked() && vif in vifs.Values && vif.mld == null && mld in mlds.Values
      modifies vif`mld, mld`members, mld`pending
      ensures Linked() && vif.mld == mld && mld.pending
      ensures mld.members == old(mld.members) + {vif}
    {
      mld.members := mld.members + {vif};
      vif.mld := mld;
      mld.pending := true;
    }

    /** `mld` may be a device that was allocated just now and has no member yet. */
    method ReportMld(vif: Vif, mld: Mld?)
      requires Linked() && vif in vifs.Values && (mld == null || mld in mlds.Values)
      requires forall d | d in mlds.Values && (d != mld || vif.mld == mld) :: Rests(d)
      modifies vif`mld, mlds.Values`members, mlds.Values`pending
      ensures Valid() && vif.mld == mld
      ensures forall v | v in vifs.Values && v != vif :: v.mld == old(v.mld)
    {
      if vif.mld == mld { return; }
      if vif.mld != null { Leave(vif); }
      if mld != null { Join(vif, mld); }
    }

    /** The callback of the work item; `granted` is the outcome of a tunnel allocation.  A
        device goes away exactly when it has no member. */
    method WorkCb(mld: Mld, granted: bool)
      requires Valid() && mld in mlds.Values && mld.pending
      modifies this`mlds, mld
      ensures Valid() && mld.members == old(mld.members)
      ensures mld.live <==> mld.members != {}
      ensures mlds == if mld.live then old(mlds) else old(mlds) - {mld.name}
      ensures mld.live ==> mld.Settled() && (mld.gre <==> mld.All3Addr() && (granted || old(mld.gre)))
      ensures !(mld.live && mld.gre && mld.reported4Addr)
    {
      mld.Recalculate(granted);
      Collect(mld);
    }

    /** A device without members is released; nobody points to it any more. */
    method Collect(mld: Mld)
      requires Linked() && mld in mlds.Values
      requires forall d | d in mlds.Values && d != mld :: Rests(d)
      requires mld.members != {} ==> Rests(mld)
      modifies this`mlds, mld`live
      ensures Valid()
      ensures mld.live <==> mld.members != {}
      ensures mlds == if mld.live then old(mlds) else old(mlds) - {mld.name}
      ensures !mld.live ==> forall v | v in vifs.Values :: v.mld != mld
    {
      if mld.members == {} {
        ghost var was := mlds;
        mlds := mlds - {mld.name};
        mld.live := false;
        assert mlds.Values == was.Values - {mld} by {
          forall d | d in was.Values && d != mld ensures d in mlds.Values {
            var n :| n in was && was[n] == d;
            assert n in mlds && mlds[n] == d;
          }
        }
      }
    }

    method LookupVif(name: string) returns (vif: Vif)
      requires Valid()
      modifies this`vifs
      ensures Valid() && name in vifs && vifs[name] == vif && vif in vifs.Values
      ensures if name in old(vifs) then vifs == old(vifs)
              else vifs == old(vifs)[name := vif] && fresh(vif) && vif.mld == null && !vif.sta && !vif.fourAddr
    {
      if name in vifs { return vifs[name]; }
      vif := new Vif(name);
      InsertedValues(vifs, name, vif);
      vifs := vifs[name := vif];
    }

    /** A device that is looked up in vain is allocated, with nothing scheduled yet. */
    method LookupMld(name: string) returns (mld: Mld)
      requires Valid()
      modifies this`mlds
      ensures Linked() && name in mlds && mlds[name] == mld
      ensures forall d | d in mlds.Values && d != mld :: Rests(d)
      ensures if name in old(mlds) then mlds == old(mlds) && Rests(mld)
              else mlds == old(mlds)[name := mld] && fresh(mld)
    {
      if name in mlds { return mlds[name]; }
      mld := new Mld(name);
      InsertedValues(mlds, name, mld);
      mlds := mlds[name := mld];
    }

    method Regroup(vif: Vif, name: string)
      requires Valid() && vif in vifs.Values
      modifies this`mlds, vif`mld, mlds.Values`members, mlds.Values`pending
      ensures Valid()
      ensures if name == "" then vif.mld == null && mlds == old(mlds)
              else name in mlds && vif.mld == mlds[name] && vif in mlds[name].members
      ensures forall v | v in vifs.Values && v != vif :: v.mld == old(v.mld)
      ensures forall d | d in mlds.Values :: d in old(mlds.Values) || fresh(d)
    {
      var mld: Mld? := null;
      if name != "" { mld := LookupMld(name); }
      ReportMld(vif, mld);
    }

    /** An update of Wifi_VIF_State: each argument is the new value of a changed column;
        an empty or unset device name counts as none. */
    method WvsUpdate(name: string, mldName: Option<string>, sta: Option<bool>, wds: Option<bool>)
      requires Valid()
      modifies this, vifs.Values, mlds.Values
      ensures Valid() && name in vifs
      ensures mldName.Some? ==>
              if mldName.value == "" then vifs[name].mld == null
              else mldName.value in mlds && vifs[name].mld == mlds[mldName.value] &&
                   vifs[name] in mlds[mldName.value].members
      ensures sta.Some? ==> vifs[name].sta == sta.value
      ensures wds.Some? ==> vifs[name].fourAddr == wds.value
      // A column without a new value is left alone; an interface that was unknown starts empty.
      ensures forall n | n in old(vifs) :: n in vifs && vifs[n] == old(vifs)[n]
      ensures name in old(vifs) ==>
              && (mldName.None? ==> vifs[name].mld == old(vifs[name].mld))
              && (sta.None? ==> vifs[name].sta == old(vifs[name].sta))
              && (wds.None? ==> vifs[name].fourAddr == old(vifs[name].fourAddr))
      ensures name !in old(vifs) ==>
              && (mldName.None? ==> vifs[name].mld == null)
              && (sta.None? ==> !vifs[name].sta)
              && (wds.None? ==> !vifs[name].fourAddr)
      // So is every other interface.
      ensures forall n | n in vifs && n != name :: n in old(vifs)
      ensures forall v | v in old(vifs.Values) && v != vifs[name] ::
                v.mld == old(v.mld) && v.sta == old(v.sta) && v.fourAddr == old(v.fourAddr)
    {
      hide Valid;
      var vif := LookupVif(name);
      if mldName.Some? { Regroup(vif, mldName.value); }
      if sta.Some? { ReportSta(vif, sta.value); }
      if wds.Some? { Report4Addr(vif, wds.value); }
    }
  }
}
