/**
 The MSR lists that VM entry and VM exit load atomically (vmx.c).

 Each list is an array filled from the front, with removal by moving the last entry into the
 hole.  The methods are tied to updates of two maps, about which the rest is proved.
*/
module AtomicSwitch {
  import opened Options

  const MAX_NR_LOADSTORE_MSRS: nat := 8
  const MSR_EFER: nat := 0xc000_0080
  const MSR_CORE_PERF_GLOBAL_CTRL: nat := 0x38f
  const MSR_IA32_PEBS_ENABLE: nat := 0x3f1

  datatype Entry = Entry(msr: nat, value: nat)

  // ---------------------------------------------------------------- lists as maps

  predicate Distinct(s: seq<Entry>) { forall i, j :: 0 <= i < j < |s| ==> s[i].msr != s[j].msr }

  function ToMap(s: seq<Entry>): map<nat, nat> {
    if s == [] then map[] else ToMap(s[..|s| - 1])[s[|s| - 1].msr := s[|s| - 1].value]
  }

  predicate Named(s: seq<Entry>, k: nat) { exists i :: 0 <= i < |s| && s[i].msr == k }

  /** m has the keys, the values and the size of the list s. */
  ghost predicate IsMapOf(m: map<nat, nat>, s: seq<Entry>) {
    && (forall k :: k in m <==> Named(s, k))
    && (forall i :: 0 <= i < |s| ==> s[i].msr in m && m[s[i].msr] == s[i].value)
    && |m| == |s|
  }

  /** A list without duplicates is its map: same keys, same values, same size. */
  lemma {:induction false} ToMapEntries(s: seq<Entry>)
    requires Distinct(s)
    ensures IsMapOf(ToMap(s), s)
  {
    if s != [] {
      ToMapEntries(s[..|s| - 1]);
      assert forall i :: 0 <= i < |s| - 1 ==> s[..|s| - 1][i] == s[i];
      AppendEntry(s[..|s| - 1], s[|s| - 1], ToMap(s[..|s| - 1]));
      assert s == s[..|s| - 1] + [s[|s| - 1]];
    } else {
      assert forall k :: !Named(s, k);
    }
  }

  lemma AppendEntry(t: seq<Entry>, e: Entry, m: map<nat, nat>)
    requires IsMapOf(m, t) && Distinct(t + [e])
    ensures IsMapOf(m[e.msr := e.value], t + [e])
  {
    var s := t + [e];
    assert s[|t|] == e;
    assert forall i :: 0 <= i < |t| ==> s[i] == t[i];
    forall k
      ensures Named(s, k) <==> Named(t, k) || k == e.msr
    {
      if Named(t, k) {
        var i :| 0 <= i < |t| && t[i].msr == k;
        assert s[i].msr == k;
      }
    }
    assert e.msr !in m;
  }

  /** Two lists that differ by a key have maps that differ by that key. */
  lemma MapsAgree(m: map<nat, nat>, n: map<nat, nat>, s: seq<Entry>, t: seq<Entry>, k: nat)
    requires IsMapOf(m, s) && IsMapOf(n, t)
    requires k !in n
    requires forall i :: 0 <= i < |t| ==> t[i] in s
    requires forall j :: 0 <= j < |s| && s[j].msr != k ==> s[j] in t
    ensures n == m - {k}
  {
    forall x | x in n
      ensures x in m - {k} && (m - {k})[x] == n[x]
    {
      var i :| 0 <= i < |t| && t[i].msr == x;
      var j :| 0 <= j < |s| && s[j] == t[i];
      assert s[j].msr in m;
    }
    forall x | x in m - {k}
      ensures x in n
    {
      var j :| 0 <= j < |s| && s[j].msr == x;
      var i :| 0 <= i < |t| && t[i] == s[j];
      assert t[i].msr in n;
    }
  }

  function SwapRemoved(s: seq<Entry>, i: nat): seq<Entry>
    requires i < |s|
  {
    s[i := s[|s| - 1]][..|s| - 1]
  }

  lemma SwapRemovedEntries(s: seq<Entry>, i: nat)
    requires Distinct(s) && i < |s|
    ensures var t := SwapRemoved(s, i);
            && Distinct(t)
            && (forall j :: 0 <= j < |t| ==> t[j].msr != s[i].msr && t[j] in s)
            && (forall j :: 0 <= j < |s| && s[j].msr != s[i].msr ==> s[j] in t)
  {
    var t := SwapRemoved(s, i);
    assert forall j :: 0 <= j < |t| ==> t[j] == s[if j == i then |s| - 1 else j];
    forall j | 0 <= j < |s| && s[j].msr != s[i].msr
      ensures s[j] in t
    {
      assert t[if j == |s| - 1 then i else j] == s[j];
    }
  }

  /** Moving the last entry into slot i removes exactly the key of slot i. */
  lemma SwapRemoveIsRemoval(s: seq<Entry>, i: nat)
    requires Distinct(s) && i < |s|
    ensures Distinct(SwapRemoved(s, i)) && ToMap(SwapRemoved(s, i)) == ToMap(s) - {s[i].msr}
  {
    hide ToMap, Distinct, SwapRemoved;
    SwapRemovedEntries(s, i);
    ToMapEntries(s);
    ToMapEntries(SwapRemoved(s, i));
    MapsAgree(ToMap(s), ToMap(SwapRemoved(s, i)), s, SwapRemoved(s, i), s[i].msr);
  }

  lemma OverwriteIsUpdate(s: seq<Entry>, i: nat, value: nat)
    requires Distinct(s) && i < |s|
    ensures Distinct(s[i := Entry(s[i].msr, value)])
    ensures ToMap(s[i := Entry(s[i].msr, value)]) == ToMap(s)[s[i].msr := value]
  {
    hide ToMap;
    var t := s[i := Entry(s[i].msr, value)];
    assert Distinct(t);
    hide Distinct;
    ToMapEntries(s);
    ToMapEntries(t);
    SameNames(s, t);
    UpdatesAgree(ToMap(s), ToMap(t), s, t, i);
  }

  lemma UpdatesAgree(m: map<nat, nat>, n: map<nat, nat>, s: seq<Entry>, t: seq<Entry>, i: nat)
    requires IsMapOf(m, s) && IsMapOf(n, t) && i < |s| == |t|
    requires t[i].msr == s[i].msr && forall j :: 0 <= j < |s| && j != i ==> t[j] == s[j]
    requires forall k :: Named(s, k) <==> Named(t, k)
    ensures n == m[s[i].msr := t[i].value]
  {
    forall x | x in n
      ensures n[x] == m[s[i].msr := t[i].value][x]
    {
      var j :| 0 <= j < |t| && t[j].msr == x;
      assert n[t[j].msr] == t[j].value && n[t[i].msr] == t[i].value;
      assert s[j].msr in m;
    }
  }

  lemma SameNames(s: seq<Entry>, t: seq<Entry>)
    requires |s| == |t| && forall j :: 0 <= j < |s| ==> t[j].msr == s[j].msr
    ensures forall k :: Named(s, k) <==> Named(t, k)
  {
    forall k
      ensures Named(s, k) <==> Named(t, k)
    {
      if Named(s, k) { var j :| 0 <= j < |s| && s[j].msr == k; assert t[j].msr == k; }
      if Named(t, k) { var j :| 0 <= j < |t| && t[j].msr == k; assert s[j].msr == k; }
    }
  }

  // ---------------------------------------------------------------- the abstract state

  /** An MSR with entry and exit controls of its own: whether it is switched, and the VMCS values. */
  datatype Special = Special(switched: bool, guest: nat, host: nat)

  datatype Switch = Switch(guest: map<nat, nat>, host: map<nat, nat>, efer: Special, perf: Special, pebsEnable: nat)

  datatype Config = Config(loadEfer: bool, loadPerf: bool)

  /** The MSR goes through the lists rather than through dedicated controls. */
  predicate ListBacked(msr: nat, cfg: Config) {
    !(msr == MSR_EFER && cfg.loadEfer) && !(msr == MSR_CORE_PERF_GLOBAL_CTRL && cfg.loadPerf)
  }

  predicate SwitchOk(s: Switch) {
    s.host.Keys <= s.guest.Keys && |s.guest| <= MAX_NR_LOADSTORE_MSRS && |s.host| <= MAX_NR_LOADSTORE_MSRS
  }

  /** clear_atomic_switch_msr. */
  function AfterClear(s: Switch, msr: nat, cfg: Config): Switch {
    if msr == MSR_EFER && cfg.loadEfer then s.(efer := s.efer.(switched := false))
    else if msr == MSR_CORE_PERF_GLOBAL_CTRL && cfg.loadPerf then s.(perf := s.perf.(switched := false))
    else s.(guest := s.guest - {msr}, host := s.host - {msr})
  }

  /** The add has no list entry to use. */
  predicate Full(s: Switch, msr: nat, entryOnly: bool) {
    (msr !in s.guest && |s.guest| == MAX_NR_LOADSTORE_MSRS) ||
    (!entryOnly && msr !in s.host && |s.host| == MAX_NR_LOADSTORE_MSRS)
  }

  /** add_atomic_switch_msr. */
  function AfterAdd(s: Switch, msr: nat, guestVal: nat, hostVal: nat, entryOnly: bool, cfg: Config): Switch {
    if msr == MSR_EFER && cfg.loadEfer then s.(efer := Special(true, guestVal, s.efer.host))
    else if msr == MSR_CORE_PERF_GLOBAL_CTRL && cfg.loadPerf then s.(perf := Special(true, guestVal, hostVal))
    else
      var t := if msr == MSR_IA32_PEBS_ENABLE then s.(pebsEnable := 0) else s;
      t.(guest := AddedGuest(s, msr, guestVal, entryOnly), host := AddedHost(s, msr, hostVal, entryOnly))
  }

  function AddedGuest(s: Switch, msr: nat, guestVal: nat, entryOnly: bool): map<nat, nat> {
    if Full(s, msr, entryOnly) then s.guest else s.guest[msr := guestVal]
  }

  function AddedHost(s: Switch, msr: nat, hostVal: nat, entryOnly: bool): map<nat, nat> {
    if entryOnly || Full(s, msr, entryOnly) then s.host else s.host[msr := hostVal]
  }

  /** The lists stay within capacity, and what is loaded on exit was loaded on entry. */
  lemma AddKeepsOk(s: Switch, msr: nat, guestVal: nat, hostVal: nat, entryOnly: bool, cfg: Config)
    requires SwitchOk(s)
    ensures SwitchOk(AfterAdd(s, msr, guestVal, hostVal, entryOnly, cfg))
  {
    MapInsertSize(s.guest, msr, guestVal);
    MapInsertSize(s.host, msr, hostVal);
  }

  lemma MapInsertSize(m: map<nat, nat>, k: nat, v: nat)
    ensures |m[k := v]| == |m| + if k in m then 0 else 1
  {
    assert m[k := v].Keys == m.Keys + {k};
  }

  lemma ClearKeepsOk(s: Switch, msr: nat, cfg: Config)
    requires SwitchOk(s)
    ensures SwitchOk(AfterClear(s, msr, cfg))
  {
    MapRemoveSize(s.guest, msr);
    MapRemoveSize(s.host, msr);
  }

  lemma MapRemoveSize(m: map<nat, nat>, k: nat)
    ensures |m - {k}| <= |m|
  {
    assert (m - {k}).Keys == m.Keys - {k};
    SubsetSize(m.Keys - {k}, m.Keys);
  }

  lemma SubsetSize(a: set<nat>, b: set<nat>)
    requires a <= b
    ensures |a| <= |b| && (a != b ==> |a| < |b|)
  {
    assert b == a + (b - a);
  }

  // ---------------------------------------------------------------- what the CPU loads

  /** What VM entry and VM exit load into one MSR. */
  datatype Loads = Loads(onEntry: Option<nat>, onExit: Option<nat>)

  function Lookup(m: map<nat, nat>, msr: nat): Option<nat> { if msr in m then Some(m[msr]) else None }

  function LoadsOfSpecial(x: Special): Loads {
    if x.switched then Loads(Some(x.guest), Some(x.host)) else Loads(None, None)
  }

  /** An MSR whose control is on is loaded from its VMCS fields, EFER and PERF_GLOBAL_CTRL; others from the lists. */
  function LoadsOf(s: Switch, msr: nat, cfg: Config): Loads {
    if msr == 0xc000_0080 && cfg.loadEfer then LoadsOfSpecial(s.efer)
    else if msr == 0x38f && cfg.loadPerf then LoadsOfSpecial(s.perf)
    else Loads(Lookup(s.guest, msr), Lookup(s.host, msr))
  }

  /** What the host's value of an MSR becomes: HOST_IA32_EFER is never rewritten. */
  function HostValue(s: Switch, msr: nat, hostVal: nat, cfg: Config): nat {
    if msr == 0xc000_0080 && cfg.loadEfer then s.efer.host else hostVal
  }

  /** Neither list takes the MSR: one with dedicated controls never needs them. */
  predicate NoRoom(s: Switch, msr: nat, entryOnly: bool, cfg: Config) {
    && !(msr == 0xc000_0080 && cfg.loadEfer) && !(msr == 0x38f && cfg.loadPerf)
    && ((msr !in s.guest && |s.guest| == 8) || (!entryOnly && msr !in s.host && |s.host| == 8))
  }

  /**
   An add decides what is loaded into its own MSR on entry and on exit, unless there is no room,
   and changes no other MSR; entry_only leaves the exit side of a list-backed MSR alone.
  */
  lemma AddDecides(s: Switch, msr: nat, guestVal: nat, hostVal: nat, entryOnly: bool, cfg: Config, m: nat)
    ensures var t := AfterAdd(s, msr, guestVal, hostVal, entryOnly, cfg);
            && (m != msr || NoRoom(s, msr, entryOnly, cfg) ==> LoadsOf(t, m, cfg) == LoadsOf(s, m, cfg))
            && (m == msr && !NoRoom(s, msr, entryOnly, cfg) ==>
                  && LoadsOf(t, m, cfg).onEntry == Some(guestVal)
                  && LoadsOf(t, m, cfg).onExit ==
                     if entryOnly && ListBacked(msr, cfg) then LoadsOf(s, m, cfg).onExit
                     else Some(HostValue(s, msr, hostVal, cfg)))
            && t.pebsEnable == (if msr == 0x3f1 then 0 else s.pebsEnable)
            && t.efer.host == s.efer.host
  {
  }

  /** A clear leaves its own MSR alone on entry and on exit, and changes no other MSR. */
  lemma ClearDecides(s: Switch, msr: nat, cfg: Config, m: nat)
    ensures var t := AfterClear(s, msr, cfg);
            && LoadsOf(t, m, cfg) == (if m == msr then Loads(None, None) else LoadsOf(s, m, cfg))
            && t.pebsEnable == s.pebsEnable && t.efer.host == s.efer.host
  {
  }

  // ---------------------------------------------------------------- runs of adds and clears

  datatype Op =
    | Add(msr: nat, guestVal: nat, hostVal: nat, entryOnly: bool)
    | Clear(msr: nat)

  function AfterOps(s: Switch, ops: seq<Op>, cfg: Config): Switch {
    if ops == [] then s
    else
      var t := AfterOps(s, ops[..|ops| - 1], cfg);
      match ops[|ops| - 1]
      case Add(msr, guestVal, hostVal, entryOnly) => AfterAdd(t, msr, guestVal, hostVal, entryOnly, cfg)
      case Clear(msr) => AfterClear(t, msr, cfg)
  }

  /** Any sequence of adds and clears keeps the lists within capacity and the exit list inside the entry list. */
  lemma {:induction false} RunsKeepOk(s: Switch, ops: seq<Op>, cfg: Config)
    requires SwitchOk(s)
    ensures SwitchOk(AfterOps(s, ops, cfg))
  {
    hide SwitchOk, AfterAdd, AfterClear;
    if ops != [] {
      RunsKeepOk(s, ops[..|ops| - 1], cfg);
      var t := AfterOps(s, ops[..|ops| - 1], cfg);
      match ops[|ops| - 1]
      case Add(msr, guestVal, hostVal, entryOnly) => AddKeepsOk(t, msr, guestVal, hostVal, entryOnly, cfg);
      case Clear(msr) => ClearKeepsOk(t, msr, cfg);
    }
  }

  /** Clearing undoes adding: for an MSR not switched before, everything but the dead values is back. */
  lemma ClearUndoesAdd(s: Switch, msr: nat, guestVal: nat, hostVal: nat, entryOnly: bool, cfg: Config)
    requires SwitchOk(s) && ListBacked(msr, cfg) && msr !in s.guest
    ensures var t := AfterClear(AfterAdd(s, msr, guestVal, hostVal, entryOnly, cfg), msr, cfg);
            t.guest == s.guest && t.host == s.host && t.efer == s.efer && t.perf == s.perf
  {
    assert msr !in s.host;
    hide SwitchOk, Full;
    AddThenRemove(s.guest, msr, guestVal);
    AddThenRemove(s.host, msr, hostVal);
    assert AddedGuest(s, msr, guestVal, entryOnly) - {msr} == s.guest;
    assert AddedHost(s, msr, hostVal, entryOnly) - {msr} == s.host;
    hide AddedGuest, AddedHost;
  }

  lemma AddThenRemove(m: map<nat, nat>, k: nat, v: nat)
    requires k !in m
    ensures m[k := v] - {k} == m && m - {k} == m
  {
  }

  // ---------------------------------------------------------------- atomic_switch_perf_msrs

  datatype PerfMsr = PerfMsr(msr: nat, host: nat, guest: nat)

  function AfterPerf(s: Switch, p: seq<PerfMsr>, cfg: Config): Switch {
    if p == [] then s else AfterOne(AfterPerf(s, p[..|p| - 1], cfg), p[|p| - 1], cfg)
  }

  function AfterOne(s: Switch, e: PerfMsr, cfg: Config): Switch {
    if e.host == e.guest then AfterClear(s, e.msr, cfg) else AfterAdd(s, e.msr, e.guest, e.host, false, cfg)
  }

  /** The MSRs whose values differ between host and guest and that need a list entry for it. */
  ghost function Differing(p: seq<PerfMsr>, cfg: Config): set<nat> {
    set i | 0 <= i < |p| && p[i].host != p[i].guest && ListBacked(p[i].msr, cfg) :: p[i].msr
  }

  ghost predicate Fits(s: Switch, p: seq<PerfMsr>, cfg: Config) {
    SwitchOk(s) && |s.guest.Keys + Differing(p, cfg)| <= MAX_NR_LOADSTORE_MSRS
  }

  /**
   The last entry of the input that names an MSR decides; an MSR that is not named is as before.
   eferHost is the host's EFER when dedicated controls switch it, None otherwise.
  */
  function Asked(p: seq<PerfMsr>, msr: nat, before: Loads, eferHost: Option<nat>): Loads {
    if p == [] then before
    else
      var e := p[|p| - 1];
      if e.msr != msr then Asked(p[..|p| - 1], msr, before, eferHost) else AskedBy(e, eferHost)
  }

  function AskedBy(e: PerfMsr, eferHost: Option<nat>): Loads {
    if e.host == e.guest then Loads(None, None)
    else if e.msr == 0xc000_0080 && eferHost.Some? then Loads(Some(e.guest), eferHost)
    else Loads(Some(e.guest), Some(e.host))
  }

  function EferHost(s: Switch, cfg: Config): Option<nat> { if cfg.loadEfer then Some(s.efer.host) else None }

  lemma FitsPrefix(s: Switch, p: seq<PerfMsr>, cfg: Config)
    requires p != [] && Fits(s, p, cfg)
    ensures Fits(s, p[..|p| - 1], cfg) && Differing(p[..|p| - 1], cfg) <= Differing(p, cfg)
    ensures var e := p[|p| - 1]; e.host != e.guest && ListBacked(e.msr, cfg) ==> e.msr in Differing(p, cfg)
  {
    var q := p[..|p| - 1];
    assert forall i :: 0 <= i < |q| ==> q[i] == p[i];
    assert Differing(q, cfg) <= Differing(p, cfg);
    SubsetSize(s.guest.Keys + Differing(q, cfg), s.guest.Keys + Differing(p, cfg));
  }

  lemma OneStep(t: Switch, e: PerfMsr, all: set<nat>, cfg: Config)
    requires SwitchOk(t) && t.guest.Keys <= all && |all| <= MAX_NR_LOADSTORE_MSRS
    requires e.host != e.guest && ListBacked(e.msr, cfg) ==> e.msr in all
    ensures SwitchOk(AfterOne(t, e, cfg)) && AfterOne(t, e, cfg).guest.Keys <= all
    ensures e.host != e.guest ==> !NoRoom(t, e.msr, false, cfg)
  {
    if e.host == e.guest {
      ClearKeepsOk(t, e.msr, cfg);
    } else {
      AddKeepsOk(t, e.msr, e.guest, e.host, false, cfg);
      if ListBacked(e.msr, cfg) { RoomForOneMore(t, e.msr, all); }
    }
  }

  lemma RoomForOneMore(t: Switch, msr: nat, all: set<nat>)
    requires SwitchOk(t) && t.guest.Keys <= all && msr in all && |all| <= MAX_NR_LOADSTORE_MSRS
    ensures !Full(t, msr, false)
  {
    SubsetSize(t.guest.Keys, all);
    SubsetSize(t.host.Keys, all);
  }

  lemma {:induction false} PerfStaysOk(s: Switch, p: seq<PerfMsr>, cfg: Config)
    requires Fits(s, p, cfg)
    ensures SwitchOk(AfterPerf(s, p, cfg)) && AfterPerf(s, p, cfg).guest.Keys <= s.guest.Keys + Differing(p, cfg)
  {
    hide AfterOne, SwitchOk, Differing, ListBacked, NoRoom;
    if p != [] {
      FitsPrefix(s, p, cfg);
      PerfStaysOk(s, p[..|p| - 1], cfg);
      OneStep(AfterPerf(s, p[..|p| - 1], cfg), p[|p| - 1], s.guest.Keys + Differing(p, cfg), cfg);
    }
  }

  lemma OneStepLoads(t: Switch, e: PerfMsr, msr: nat, cfg: Config)
    requires e.host != e.guest ==> !NoRoom(t, e.msr, false, cfg)
    ensures LoadsOf(AfterOne(t, e, cfg), msr, cfg) ==
            if e.msr != msr then LoadsOf(t, msr, cfg) else AskedBy(e, EferHost(t, cfg))
    ensures EferHost(AfterOne(t, e, cfg), cfg) == EferHost(t, cfg)
  {
    AddDecides(t, e.msr, e.guest, e.host, false, cfg, msr);
    ClearDecides(t, e.msr, cfg, msr);
    hide LoadsOf, AfterAdd, AfterClear, NoRoom;
  }

  /**
   With room for the differing ones, atomic_switch_perf_msrs leaves exactly the differing MSRs of
   its input switched, with their values, whether lists or dedicated controls do it, and no other
   MSR touched; only the host's EFER stays what it was when it has a control of its own.
  */
  lemma {:induction false} PerfSwitchesTheDifferingMsrs(s: Switch, p: seq<PerfMsr>, cfg: Config, msr: nat)
    requires Fits(s, p, cfg)
    ensures LoadsOf(AfterPerf(s, p, cfg), msr, cfg) == Asked(p, msr, LoadsOf(s, msr, cfg), EferHost(s, cfg))
    ensures EferHost(AfterPerf(s, p, cfg), cfg) == EferHost(s, cfg)
  {
    hide AfterOne, SwitchOk, Differing, ListBacked, LoadsOf, NoRoom, EferHost, AskedBy;
    if p != [] {
      var t := AfterPerf(s, p[..|p| - 1], cfg);
      FitsPrefix(s, p, cfg);
      PerfStaysOk(s, p[..|p| - 1], cfg);
      OneStep(t, p[|p| - 1], s.guest.Keys + Differing(p, cfg), cfg);
      PerfSwitchesTheDifferingMsrs(s, p[..|p| - 1], cfg, msr);
      OneStepLoads(t, p[|p| - 1], msr, cfg);
    }
  }

  /** With distinct MSRs, each entry of the input gets what it asks for. */
  lemma {:induction false} DistinctEntriesDecide(p: seq<PerfMsr>, i: nat, before: Loads, eferHost: Option<nat>)
    requires forall j, k :: 0 <= j < k < |p| ==> p[j].msr != p[k].msr
    requires i < |p|
    ensures Asked(p, p[i].msr, before, eferHost) ==
            if p[i].host == p[i].guest then Loads(None, None)
            else Loads(Some(p[i].guest), if p[i].msr == 0xc000_0080 && eferHost.Some? then eferHost else Some(p[i].host))
  {
    if i < |p| - 1 {
      var q := p[..|p| - 1];
      assert forall j :: 0 <= j < |q| ==> q[j] == p[j];
      DistinctEntriesDecide(q, i, before, eferHost);
    }
  }

  // ---------------------------------------------------------------- in place

  /** struct vmx_msrs. */
  class MsrList {
    const val: array<Entry>
    var nr: nat

    ghost predicate Valid()
      reads this, val
    {
      val.Length == MAX_NR_LOADSTORE_MSRS && nr <= val.Length && Distinct(val[..nr])
    }

    ghost function Contents(): map<nat, nat>
      reads this, val
      requires Valid()
    {
      ToMap(val[..nr])
    }

    constructor ()
      ensures Valid() && Contents() == map[] && fresh(val) && nr == 0
    {
      val := new Entry[MAX_NR_LOADSTORE_MSRS](_ => Entry(0, 0));
      nr := 0;
    }

    /** vmx_find_loadstore_msr_slot. */
    method FindSlot(msr: nat) returns (slot: int)
      requires Valid()
      ensures slot == -1 <==> msr !in Contents()
      ensures slot != -1 ==> 0 <= slot < nr && val[slot].msr == msr
      ensures |Contents()| == nr
    {
      ToMapEntries(val[..nr]);
      for i := 0 to nr
        invariant forall j :: 0 <= j < i ==> val[j].msr != msr
      {
        if val[i].msr == msr {
          assert val[..nr][i].msr == msr;
          return i;
        }
      }
      return -1;
    }

    method SwapRemove(i: nat)
      requires Valid() && i < nr
      modifies this, val
      ensures Valid() && Contents() == old(Contents()) - {old(val[i].msr)}
    {
      ghost var s := val[..nr];
      SwapRemoveIsRemoval(s, i);
      nr := nr - 1;
      val[i] := val[nr];
      assert val[..nr] == SwapRemoved(s, i);
    }

    method Append(msr: nat, value: nat)
      requires Valid() && nr < MAX_NR_LOADSTORE_MSRS && msr !in Contents()
      modifies this, val
      ensures Valid() && Contents() == old(Contents())[msr := value] && nr == old(nr) + 1
    {
      ghost var s := val[..nr];
      ToMapEntries(s);
      nr := nr + 1;
      val[nr - 1] := Entry(msr, value);
      assert val[..nr] == s + [Entry(msr, value)];
      assert val[..nr][..nr - 1] == s;
    }

    method Overwrite(i: nat, msr: nat, value: nat)
      requires Valid() && i < nr && val[i].msr == msr
      modifies val
      ensures Valid() && Contents() == old(Contents())[msr := value]
    {
      ghost var s := val[..nr];
      OverwriteIsUpdate(s, i, value);
      val[i] := Entry(msr, value);
      assert val[..nr] == s[i := Entry(msr, value)];
    }
  }

  class VcpuVmx {
    const cfg: Config
    const guest: MsrList
    const host: MsrList
    var entryLoadCount: nat      // VM_ENTRY_MSR_LOAD_COUNT
    var exitLoadCount: nat       // VM_EXIT_MSR_LOAD_COUNT
    var efer: Special
    var perf: Special
    var pebsEnable: nat

    ghost predicate Valid()
      reads this, guest, host, guest.val, host.val
    {
      && guest != host && guest.val != host.val && guest.Valid() && host.Valid()
      && entryLoadCount == guest.nr && exitLoadCount == host.nr
    }

    ghost function View(): Switch
      reads this, guest, host, guest.val, host.val
      requires Valid()
    {
      Switch(guest.Contents(), host.Contents(), efer, perf, pebsEnable)
    }

    constructor (cfg: Config)
      ensures Valid() && SwitchOk(View()) && this.cfg == cfg
      ensures View().guest == map[] && View().host == map[]
    {
      this.cfg := cfg;
      guest := new MsrList();
      host := new MsrList();
      entryLoadCount, exitLoadCount, pebsEnable := 0, 0, 0;
      efer, perf := Special(false, 0, 0), Special(false, 0, 0);
    }

    method ClearAtomicSwitchMsr(msr: nat)
      requires Valid()
      modifies this, guest, host, guest.val, host.val
      ensures Valid() && View() == AfterClear(old(View()), msr, cfg)
    {
      hide ToMap, Distinct;
      if msr == MSR_EFER && cfg.loadEfer {
        efer := efer.(switched := false);
        return;
      }
      if msr == MSR_CORE_PERF_GLOBAL_CTRL && cfg.loadPerf {
        perf := perf.(switched := false);
        return;
      }
      var found := Remove(guest, msr);
      if found {
        entryLoadCount := guest.nr;
      }
      found := Remove(host, msr);
      if !found {
        return;
      }
      exitLoadCount := host.nr;
    }

    /** Drops the entry for an MSR from a list, if it has one. */
    method Remove(list: MsrList, msr: nat) returns (found: bool)
      requires list.Valid()
      modifies list, list.val
      ensures found == (msr in old(list.Contents())) && (!found ==> list.nr == old(list.nr))
      ensures list.Valid() && list.Contents() == old(list.Contents()) - {msr}
    {
      hide ToMap, Distinct;
      var i := list.FindSlot(msr);
      found := i != -1;
      if found {
        list.SwapRemove(i);
      } else {
        assert list.Contents() - {msr} == list.Contents();
      }
    }

    method AddAtomicSwitchMsr(msr: nat, guestVal: nat, hostVal: nat, entryOnly: bool)
      requires Valid()
      modifies this, guest, host, guest.val, host.val
      ensures Valid() && View() == AfterAdd(old(View()), msr, guestVal, hostVal, entryOnly, cfg)
    {
      hide ToMap, Distinct;
      if msr == MSR_EFER && cfg.loadEfer {
        efer := Special(true, guestVal, efer.host);
        return;
      }
      if msr == MSR_CORE_PERF_GLOBAL_CTRL && cfg.loadPerf {
        perf := Special(true, guestVal, hostVal);
        return;
      }
      if msr == MSR_IA32_PEBS_ENABLE {
        pebsEnable := 0;
      }
      AddListEntries(msr, guestVal, hostVal, entryOnly);
    }

    /** The part of add_atomic_switch_msr that works on the lists. */
    method AddListEntries(msr: nat, guestVal: nat, hostVal: nat, entryOnly: bool)
      requires Valid()
      modifies this`entryLoadCount, this`exitLoadCount, guest, host, guest.val, host.val
      ensures Valid()
      ensures guest.Contents() == AddedGuest(old(View()), msr, guestVal, entryOnly)
      ensures host.Contents() == AddedHost(old(View()), msr, hostVal, entryOnly)
    {
      hide ToMap, Distinct;
      var i := guest.FindSlot(msr);
      var j := 0;
      ToMapEntries(host.val[..host.nr]);
      if !entryOnly {
        j := host.FindSlot(msr);
      }
      if (i == -1 && guest.nr == MAX_NR_LOADSTORE_MSRS) || (j == -1 && host.nr == MAX_NR_LOADSTORE_MSRS) {
        return;
      }
      PutEntry(guest, i, msr, guestVal);
      if i == -1 {
        entryLoadCount := guest.nr;
      }
      if entryOnly {
        return;
      }
      PutEntry(host, j, msr, hostVal);
      if j == -1 {
        exitLoadCount := host.nr;
      }
    }

    /** Writes an entry into slot i, or into a new slot when there is none. */
    method PutEntry(list: MsrList, i: int, msr: nat, value: nat)
      requires list.Valid()
      requires i == -1 ==> msr !in list.Contents() && list.nr < MAX_NR_LOADSTORE_MSRS
      requires i != -1 ==> 0 <= i < list.nr && list.val[i].msr == msr
      modifies list, list.val
      ensures list.Valid() && list.Contents() == old(list.Contents())[msr := value]
      ensures i != -1 ==> list.nr == old(list.nr)
    {
      if i == -1 {
        list.Append(msr, value);
      } else {
        list.Overwrite(i, msr, value);
      }
    }

    method AtomicSwitchPerfMsrs(msrs: seq<PerfMsr>)
      requires Valid()
      modifies this, guest, host, guest.val, host.val
      ensures Valid() && View() == AfterPerf(old(View()), msrs, cfg)
    {
      for i := 0 to |msrs|
        invariant Valid() && View() == AfterPerf(old(View()), msrs[..i], cfg)
      {
        assert msrs[..i + 1][..i] == msrs[..i];
        if msrs[i].host == msrs[i].guest {
          ClearAtomicSwitchMsr(msrs[i].msr);
        } else {
          AddAtomicSwitchMsr(msrs[i].msr, msrs[i].guest, msrs[i].host, false);
        }
      }
      assert msrs[..|msrs|] == msrs;
    }
  }
}
