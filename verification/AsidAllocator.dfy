/**
 The ASID allocator of svm.c and the TLB it is meant to keep clean.

 Two classes carry the fields the source updates in place; each method is tied to a
 function on their values.  The isolation theorem is then proved for runs of a system of
 many vCPUs on many CPUs, where every CPU has a TLB of tagged translations and VMRUN
 flushes what TLB_CONTROL asks for.

 Generations are unbounded integers: the wrap of the 64-bit counter is not modelled.
*/
module AsidAllocator {

  datatype TlbControl = DoNothing | FlushAsid | FlushAllAsids

  /** The ASID part of struct svm_cpu_data. */
  datatype Pool = Pool(generation: int, next: nat, min: nat, max: nat)

  /** The ASID part of a vCPU and its VMCB; cpu is -1 until the first run. */
  datatype Tag = Tag(cpu: int, generation: int, asid: nat, tlbCtl: TlbControl)

  // ---------------------------------------------------------------- the functions on values

  function EnabledPool(maxAsid: nat, maxSevAsid: nat): Pool {
    Pool(1, maxAsid + 1, maxSevAsid + 1, maxAsid)
  }

  function AfterNewAsid(t: Tag, p: Pool): (Tag, Pool) {
    var wrap := p.next > p.max;
    var q := if wrap then p.(generation := p.generation + 1, next := p.min) else p;
    (t.(generation := q.generation, asid := q.next, tlbCtl := if wrap then FlushAllAsids else t.tlbCtl),
     q.(next := q.next + 1))
  }

  function AfterPreRun(t: Tag, p: Pool, cpu: int): (Tag, Pool) {
    var u := if t.cpu != cpu then t.(cpu := cpu, generation := 0) else t;
    if u.generation != p.generation then AfterNewAsid(u, p) else (u, p)
  }

  function AfterFlush(t: Tag, flushByAsid: bool): Tag {
    if flushByAsid then t.(tlbCtl := FlushAsid) else t.(generation := t.generation - 1)
  }

  function AfterReset(t: Tag): Tag { t.(generation := 0, asid := 0) }

  // ---------------------------------------------------------------- the objects of the source

  class SvmCpuData {
    var asidGeneration: int
    var nextAsid: nat
    var minAsid: nat
    var maxAsid: nat

    function View(): Pool
      reads this
    {
      Pool(asidGeneration, nextAsid, minAsid, maxAsid)
    }

    /** The ASID part of svm_hardware_enable; cpuidAsids is the number of ASIDs the CPU reports. */
    constructor HardwareEnable(cpuidAsids: nat, maxSevAsid: nat)
      requires 1 <= cpuidAsids
      ensures View() == EnabledPool(cpuidAsids - 1, maxSevAsid)
      ensures asidGeneration == 1 && minAsid == maxSevAsid + 1 && maxAsid == cpuidAsids - 1 && nextAsid > maxAsid
    {
      asidGeneration := 1;
      maxAsid := cpuidAsids - 1;
      nextAsid := cpuidAsids - 1 + 1;
      minAsid := maxSevAsid + 1;
    }
  }

  class VcpuSvm {
    var vmcbCpu: int
    var asidGeneration: int
    var asid: nat
    var controlAsid: nat
    var tlbCtl: TlbControl

    function View(): Tag
      reads this
    {
      Tag(vmcbCpu, asidGeneration, asid, tlbCtl)
    }

    /** The ASID part of init_vmcb. */
    method InitVmcb()
      modifies this
      ensures View() == AfterReset(old(View())) && controlAsid == old(controlAsid)
      ensures asidGeneration == 0 && asid == 0 && vmcbCpu == old(vmcbCpu) && tlbCtl == old(tlbCtl)
    {
      asidGeneration := 0;
      asid := 0;
    }

    method NewAsid(sd: SvmCpuData)
      modifies this, sd
      ensures (View(), sd.View()) == AfterNewAsid(old(View()), old(sd.View()))
      ensures controlAsid == old(controlAsid)
    {
      if sd.nextAsid > sd.maxAsid {
        sd.asidGeneration := sd.asidGeneration + 1;
        sd.nextAsid := sd.minAsid;
        tlbCtl := FlushAllAsids;
      }
      asidGeneration := sd.asidGeneration;
      asid := sd.nextAsid;
      sd.nextAsid := sd.nextAsid + 1;
    }

    method PreSvmRun(sd: SvmCpuData, cpu: int)
      modifies this, sd
      ensures (View(), sd.View()) == AfterPreRun(old(View()), old(sd.View()), cpu)
      ensures controlAsid == old(controlAsid)
    {
      if vmcbCpu != cpu {
        asidGeneration := 0;
        vmcbCpu := cpu;
      }
      if asidGeneration != sd.asidGeneration {
        NewAsid(sd);
      }
    }

    /** svm_vcpu_run up to VMRUN: the ASID the hardware will see is the allocated one. */
    method PrepareVmrun(sd: SvmCpuData, cpu: int)
      modifies this, sd
      ensures (View(), sd.View()) == AfterPreRun(old(View()), old(sd.View()), cpu)
      ensures controlAsid == asid
    {
      PreSvmRun(sd, cpu);
      if asid != controlAsid {
        controlAsid := asid;
      }
    }

    /** svm_vcpu_run after VM-exit. */
    method FinishVmrun()
      modifies this
      ensures View() == old(View()).(tlbCtl := DoNothing) && controlAsid == old(controlAsid)
    {
      tlbCtl := DoNothing;
    }

    method FlushTlbAsid(flushByAsid: bool)
      modifies this
      ensures View() == AfterFlush(old(View()), flushByAsid) && controlAsid == old(controlAsid)
      ensures tlbCtl == if flushByAsid then FlushAsid else old(tlbCtl)
      ensures asidGeneration == old(asidGeneration) - if flushByAsid then 0 else 1
    {
      if flushByAsid {
        tlbCtl := FlushAsid;
      } else {
        asidGeneration := asidGeneration - 1;
      }
    }
  }

  // ---------------------------------------------------------------- the system

  /**
   A translation cached under an ASID.  The epoch counts the migrations and requested flushes
   of the vCPU that loaded it, so an entry of an earlier epoch is stale.
   */
  datatype Entry = Entry(asid: nat, vcpu: nat, epoch: nat)

  datatype Vcpu = Vcpu(tag: Tag, epoch: nat)

  /** asids: how many ASIDs each CPU reports; ASIDs up to maxSevAsid are kept for SEV guests. */
  datatype State = State(
    flushByAsid: bool, maxSevAsid: nat, asids: seq<nat>, pools: seq<Pool>, tlbs: seq<set<Entry>>, vcpus: seq<Vcpu>)

  datatype Action =
    | Vmrun(v: nat, c: nat, tlbAfter: set<Entry>)   // tlbAfter: what the TLB holds at VM-exit
    | RequestedFlush(v: nat)
    | Reset(v: nat)

  /** What VMRUN leaves of the TLB before the guest executes anything. */
  function Flushed(tlb: set<Entry>, t: Tag): set<Entry> {
    match t.tlbCtl
    case DoNothing => tlb
    case FlushAsid => set e | e in tlb && e.asid != t.asid
    case FlushAllAsids => {}
  }

  function Epoch(u: Vcpu, c: nat): nat {
    if u.tag.cpu != c then u.epoch + 1 else u.epoch
  }

  predicate Enabled(s: State, a: Action) {
    a.v < |s.vcpus| &&
    match a
    case Vmrun(v, c, tlbAfter) =>
      c < |s.pools| == |s.tlbs| == |s.asids| &&
      var t := AfterPreRun(s.vcpus[v].tag, s.pools[c], c).0;
      // the CPU may evict anything and may load translations under the running ASID only
      tlbAfter <= Flushed(s.tlbs[c], t) + {Entry(t.asid, v, Epoch(s.vcpus[v], c))}
    case _ => true
  }

  function Step(s: State, a: Action): State
    requires Enabled(s, a)
  {
    var u := s.vcpus[a.v];
    match a
    case Vmrun(v, c, tlbAfter) =>
      var (t, p) := AfterPreRun(u.tag, s.pools[c], c);
      s.(pools := s.pools[c := p], tlbs := s.tlbs[c := tlbAfter],
         vcpus := s.vcpus[v := Vcpu(t.(tlbCtl := DoNothing), Epoch(u, c))])
    case RequestedFlush(v) =>
      s.(vcpus := s.vcpus[v := Vcpu(AfterFlush(u.tag, s.flushByAsid), u.epoch + 1)])
    case Reset(v) =>
      s.(vcpus := s.vcpus[v := u.(tag := AfterReset(u.tag))])
  }

  /** The tag that action a runs its vCPU under. */
  function Used(s: State, a: Action): Tag
    requires a.Vmrun? && Enabled(s, a)
  {
    AfterPreRun(s.vcpus[a.v].tag, s.pools[a.c], a.c).0
  }

  /** Every CPU has just been enabled and holds arbitrary leftovers; no vCPU has run yet. */
  ghost predicate Init(s: State) {
    && |s.pools| == |s.tlbs| == |s.asids|
    && (forall c :: 0 <= c < |s.pools| ==>
          s.maxSevAsid + 1 < s.asids[c] && s.pools[c] == EnabledPool(s.asids[c] - 1, s.maxSevAsid))
    && (forall c, e :: 0 <= c < |s.tlbs| && e in s.tlbs[c] ==> e.asid < s.asids[c])
    && (forall v :: 0 <= v < |s.vcpus| ==> s.vcpus[v] == Vcpu(Tag(-1, 0, 0, DoNothing), 0))
  }

  ghost predicate IsRun(states: seq<State>, acts: seq<Action>) {
    |states| == |acts| + 1 && Init(states[0]) &&
    forall k :: 0 <= k < |acts| ==> Enabled(states[k], acts[k]) && states[k + 1] == Step(states[k], acts[k])
  }

  // ---------------------------------------------------------------- the invariant

  ghost predicate PoolOk(p: Pool, tlb: set<Entry>) {
    && 1 <= p.generation && 1 <= p.min <= p.max && p.min <= p.next <= p.max + 1
    && forall e :: e in tlb ==> e.asid < p.next
  }

  /** The vCPU would run on CPU c under the ASID it already has. */
  predicate Owns(u: Vcpu, c: int, p: Pool) {
    u.tag.cpu == c && u.tag.generation == p.generation
  }

  ghost predicate OwnerOk(v: nat, u: Vcpu, c: int, p: Pool, tlb: set<Entry>) {
    && (u.tag.cpu == c ==> u.tag.generation <= p.generation)
    && (Owns(u, c, p) ==>
          && p.min <= u.tag.asid < p.next
          && forall e :: e in tlb && e.asid == u.tag.asid ==>
               e.vcpu == v && (e.epoch == u.epoch || u.tag.tlbCtl == FlushAsid))
  }

  ghost predicate Inv(s: State) {
    && |s.pools| == |s.tlbs| == |s.asids|
    && (forall c :: 0 <= c < |s.pools| ==> s.pools[c].min == s.maxSevAsid + 1 && s.pools[c].max + 1 == s.asids[c])
    && (forall c :: 0 <= c < |s.pools| ==> PoolOk(s.pools[c], s.tlbs[c]))
    && (forall v :: 0 <= v < |s.vcpus| ==> s.vcpus[v].tag.tlbCtl != FlushAllAsids)
    && (forall v, c :: 0 <= v < |s.vcpus| && 0 <= c < |s.pools| ==>
          OwnerOk(v, s.vcpus[v], c, s.pools[c], s.tlbs[c]))
    && (forall v, w, c |
          0 <= v < |s.vcpus| && 0 <= w < |s.vcpus| && v != w && 0 <= c < |s.pools| &&
          Owns(s.vcpus[v], c, s.pools[c]) && Owns(s.vcpus[w], c, s.pools[c]) ::
          s.vcpus[v].tag.asid != s.vcpus[w].tag.asid)
  }

  lemma InitInv(s: State)
    requires Init(s)
    ensures Inv(s)
  {
    forall c | 0 <= c < |s.pools|
      ensures PoolOk(s.pools[c], s.tlbs[c])
    {
      assert s.pools[c] == EnabledPool(s.asids[c] - 1, s.maxSevAsid);
    }
  }

  /** pre_svm_run on one CPU: whatever ASID it settles on, nothing of another owner is left under it. */
  lemma PreRunIsolates(s: State, v: nat, c: nat)
    requires Inv(s) && v < |s.vcpus| && c < |s.pools|
    ensures var (t, p) := AfterPreRun(s.vcpus[v].tag, s.pools[c], c);
            && p.min == s.pools[c].min && p.max == s.pools[c].max
            && t.cpu == c && t.generation == p.generation
            && PoolOk(p, Flushed(s.tlbs[c], t)) && p.min <= t.asid < p.next
            && (forall e :: e in Flushed(s.tlbs[c], t) && e.asid == t.asid ==>
                  e.vcpu == v && e.epoch == Epoch(s.vcpus[v], c))
            && (forall w :: 0 <= w < |s.vcpus| && w != v && Owns(s.vcpus[w], c, p) ==>
                  Owns(s.vcpus[w], c, s.pools[c]) && s.vcpus[w].tag.asid != t.asid)
            && p.generation >= s.pools[c].generation
  {
    assert PoolOk(s.pools[c], s.tlbs[c]);
    assert OwnerOk(v, s.vcpus[v], c, s.pools[c], s.tlbs[c]);
    forall w | 0 <= w < |s.vcpus|
      ensures OwnerOk(w, s.vcpus[w], c, s.pools[c], s.tlbs[c])
    {
    }
  }

  lemma VmrunKeepsInv(s: State, a: Action)
    requires Inv(s) && a.Vmrun? && Enabled(s, a)
    ensures Inv(Step(s, a))
  {
    var t := Step(s, a);
    PreRunIsolates(s, a.v, a.c);
    forall v, c | 0 <= v < |t.vcpus| && 0 <= c < |t.pools|
      ensures OwnerOk(v, t.vcpus[v], c, t.pools[c], t.tlbs[c])
    {
      assert OwnerOk(v, s.vcpus[v], c, s.pools[c], s.tlbs[c]);
    }
    forall v, w, c | 0 <= v < |t.vcpus| && 0 <= w < |t.vcpus| && v != w && 0 <= c < |t.pools| &&
                     Owns(t.vcpus[v], c, t.pools[c]) && Owns(t.vcpus[w], c, t.pools[c])
      ensures t.vcpus[v].tag.asid != t.vcpus[w].tag.asid
    {
      if c == a.c && v != a.v && w != a.v {
        assert Owns(s.vcpus[v], c, s.pools[c]) && Owns(s.vcpus[w], c, s.pools[c]);
      }
    }
  }

  lemma OtherStepsKeepInv(s: State, a: Action)
    requires Inv(s) && !a.Vmrun? && Enabled(s, a)
    ensures Inv(Step(s, a))
  {
    var t := Step(s, a);
    forall v, c | 0 <= v < |t.vcpus| && 0 <= c < |t.pools|
      ensures OwnerOk(v, t.vcpus[v], c, t.pools[c], t.tlbs[c])
    {
      assert OwnerOk(v, s.vcpus[v], c, s.pools[c], s.tlbs[c]);
      assert PoolOk(s.pools[c], s.tlbs[c]);
    }
    forall v, c | 0 <= v < |t.vcpus| && 0 <= c < |t.pools| && Owns(t.vcpus[v], c, t.pools[c])
      ensures Owns(s.vcpus[v], c, s.pools[c]) && t.vcpus[v].tag.asid == s.vcpus[v].tag.asid
    {
      assert OwnerOk(v, s.vcpus[v], c, s.pools[c], s.tlbs[c]);
      assert PoolOk(s.pools[c], s.tlbs[c]);
    }
  }

  lemma {:induction false} RunsKeepInv(states: seq<State>, acts: seq<Action>, k: nat)
    requires IsRun(states, acts) && k <= |acts|
    ensures Inv(states[k])
  {
    if k == 0 {
      InitInv(states[0]);
    } else {
      RunsKeepInv(states, acts, k - 1);
      if acts[k - 1].Vmrun? {
        VmrunKeepsInv(states[k - 1], acts[k - 1]);
      } else {
        OtherStepsKeepInv(states[k - 1], acts[k - 1]);
      }
    }
  }

  /** The ASID in use at every VMRUN of every run is one that the CPU implements outside the SEV range. */
  lemma AsidIsImplemented(states: seq<State>, acts: seq<Action>, k: nat)
    requires IsRun(states, acts) && k < |acts| && acts[k].Vmrun?
    ensures var s, a := states[k], acts[k];
            s.maxSevAsid < Used(s, a).asid < s.asids[a.c]
  {
    RunsKeepInv(states, acts, k);
    PreRunIsolates(states[k], acts[k].v, acts[k].c);
  }

  lemma {:induction false} CpusStayTheSame(states: seq<State>, acts: seq<Action>, k: nat)
    requires IsRun(states, acts) && k <= |acts|
    ensures states[k].asids == states[0].asids && states[k].maxSevAsid == states[0].maxSevAsid
  {
    if k > 0 {
      CpusStayTheSame(states, acts, k - 1);
      assert states[k] == Step(states[k - 1], acts[k - 1]);
    }
  }

  /**
   ASIDs are not wasted: a vCPU that stays on its CPU within a generation keeps its ASID and asks for
   no flush, and a new generation starts only when every ASID of the CPU has been handed out.
  */
  lemma AsidsAreKept(states: seq<State>, acts: seq<Action>, k: nat)
    requires IsRun(states, acts) && k < |acts| && acts[k].Vmrun?
    ensures var s, a := states[k], acts[k];
            var (before, pool) := (s.vcpus[a.v].tag, s.pools[a.c]);
            var (after, pool') := AfterPreRun(before, pool, a.c);
            && (before.cpu == a.c && before.generation == pool.generation ==> after == before && pool' == pool)
            && (pool'.generation == pool.generation || (pool'.generation == pool.generation + 1 && pool.next == s.asids[a.c]))
            && (pool'.generation != pool.generation ==> after.tlbCtl == FlushAllAsids && after.asid == s.maxSevAsid + 1)
            && (pool' != pool && pool'.generation == pool.generation ==> after.asid == pool.next && pool'.next == pool.next + 1)
  {
    RunsKeepInv(states, acts, k);
    assert PoolOk(states[k].pools[acts[k].c], states[k].tlbs[acts[k].c]);
  }

  /** An ASID is stable: from one VMRUN of a vCPU to its next on the same CPU, within a generation, nothing changes it. */
  lemma AsidIsStable(states: seq<State>, acts: seq<Action>, j: nat, k: nat)
    requires IsRun(states, acts) && j < k < |acts| && acts[j].Vmrun? && acts[k].Vmrun?
    requires acts[j].v == acts[k].v && acts[j].c == acts[k].c
    requires forall i :: j < i < k ==> acts[i].v != acts[j].v
    requires states[k].pools[acts[j].c].generation == states[j + 1].pools[acts[j].c].generation
    ensures Used(states[k], acts[k]) == Used(states[j], acts[j]).(tlbCtl := DoNothing)
  {
    TagIsKept(states, acts, acts[j].v, j + 1, k);
  }

  lemma {:induction false} TagIsKept(states: seq<State>, acts: seq<Action>, v: nat, j: nat, k: nat)
    requires IsRun(states, acts) && j <= k <= |acts| && v < |states[j].vcpus|
    requires forall i :: j <= i < k ==> acts[i].v != v
    ensures |states[k].vcpus| == |states[j].vcpus| && states[k].vcpus[v].tag == states[j].vcpus[v].tag
  {
    if j < k {
      TagIsKept(states, acts, v, j, k - 1);
      assert states[k] == Step(states[k - 1], acts[k - 1]);
    }
  }

  /** A reset takes the ASID away: the next VMRUN of the vCPU takes a new one from the pool of its CPU. */
  lemma ResetGivesFreshAsid(states: seq<State>, acts: seq<Action>, j: nat, k: nat)
    requires IsRun(states, acts) && j < k < |acts| && acts[j].Reset? && acts[k].Vmrun? && acts[j].v == acts[k].v
    requires forall i :: j < i < k ==> acts[i].v != acts[j].v
    ensures var (before, after) := (states[k].pools[acts[k].c], states[k + 1].pools[acts[k].c]);
            && after != before && Used(states[k], acts[k]).asid == after.next - 1
            && (after.next == before.next + 1 || after.generation == before.generation + 1)
  {
    RunsKeepInv(states, acts, k);
    TagIsKept(states, acts, acts[j].v, j + 1, k);
    assert PoolOk(states[k].pools[acts[k].c], states[k].tlbs[acts[k].c]);
  }

  /** A CPU without flush-by-ASID is never asked for one. */
  lemma NoFlushByAsidWithoutIt(states: seq<State>, acts: seq<Action>, k: nat)
    requires IsRun(states, acts) && k < |acts| && acts[k].Vmrun? && !states[0].flushByAsid
    ensures Used(states[k], acts[k]).tlbCtl != FlushAsid
  {
    NothingIsRequested(states, acts, k);
  }

  lemma {:induction false} NothingIsRequested(states: seq<State>, acts: seq<Action>, k: nat)
    requires IsRun(states, acts) && k <= |acts| && !states[0].flushByAsid
    ensures !states[k].flushByAsid
    ensures forall v :: 0 <= v < |states[k].vcpus| ==> states[k].vcpus[v].tag.tlbCtl == DoNothing
  {
    if k > 0 {
      NothingIsRequested(states, acts, k - 1);
      assert states[k] == Step(states[k - 1], acts[k - 1]);
    }
  }

  /**
   ASID isolation: at every VMRUN of every run, no translation left under the ASID in use was
   loaded by another vCPU, nor by this vCPU before its last migration or requested flush.
  */
  lemma AsidIsolation(states: seq<State>, acts: seq<Action>, k: nat, e: Entry)
    requires IsRun(states, acts) && k < |acts| && acts[k].Vmrun?
    requires var s, a := states[k], acts[k];
             var t := Used(s, a);
             e in Flushed(s.tlbs[a.c], t) && e.asid == t.asid
    ensures e.vcpu == acts[k].v && e.epoch == Epoch(states[k].vcpus[acts[k].v], acts[k].c)
    ensures states[k].maxSevAsid < e.asid < states[k].asids[acts[k].c]
  {
    RunsKeepInv(states, acts, k);
    PreRunIsolates(states[k], acts[k].v, acts[k].c);
  }

  /** A requested flush is never lost: nothing older than it survives to the next VMRUN of that vCPU. */
  lemma {:induction false} FlushReachesNextVmrun(states: seq<State>, acts: seq<Action>, j: nat, k: nat, e: Entry)
    requires IsRun(states, acts) && j < k < |acts|
    requires acts[j].RequestedFlush? && acts[k].Vmrun? && acts[k].v == acts[j].v
    requires var s, a := states[k], acts[k];
             var t := Used(s, a);
             e in Flushed(s.tlbs[a.c], t) && e.asid == t.asid
    ensures e.vcpu == acts[j].v && e.epoch > states[j].vcpus[acts[j].v].epoch
  {
    AsidIsolation(states, acts, k, e);
    EpochsGrow(states, acts, acts[j].v, j + 1, k);
  }

  lemma {:induction false} EpochsGrow(states: seq<State>, acts: seq<Action>, v: nat, j: nat, k: nat)
    requires IsRun(states, acts) && j <= k <= |acts|
    requires v < |states[j].vcpus|
    ensures |states[k].vcpus| == |states[j].vcpus|
    ensures states[j].vcpus[v].epoch <= states[k].vcpus[v].epoch
  {
    if j < k {
      EpochsGrow(states, acts, v, j, k - 1);
      assert states[k] == Step(states[k - 1], acts[k - 1]);
    }
  }
}
