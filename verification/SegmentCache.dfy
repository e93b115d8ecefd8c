/**
 The lazy segment cache of vmx.c and the functions that read and write segment registers
 through it.

 Every method is tied to the functions of SegmentView, which read the VMCS directly, so the
 contracts say that the cache can never be told apart from the VMCS.
*/
module SegmentCache {
  import opened SegmentView

  const FIELDS: nat := 4
  const SEL: nat := 0
  const BASE: nat := 1
  const LIMIT: nat := 2
  const AR: nat := 3

  /** The bit of segment_cache.bitmask that says a field is cached. */
  function Bit(seg: Sreg, field: nat): nat { seg * FIELDS + field }

  /** Cached and VMCS value of one field agree. */
  predicate SameField(a: HwSegment, b: HwSegment, field: nat) {
    && (field == SEL ==> a.selector == b.selector)
    && (field == BASE ==> a.base == b.base)
    && (field == LIMIT ==> a.limit == b.limit)
    && (field == AR ==> a.ar == b.ar)
  }

  /** A call or a stay in the guest, for runs of the whole component. */
  datatype Op =
    | GetSegment(seg: Sreg)
    | GetSegmentBase(seg: Sreg)
    | GetCpl
    | GetCsDbL
    | SetSegment(v: Segment, seg: Sreg)
    | SetBaseMsr(seg: Sreg, data: bv64)
    | SetCr4(cr4: bv64, env: Cr4Env)
    | EnterRmode
    | EnterPmode
    | EnterLmode
    | Reset
    | GuestRun(hw: seq<HwSegment>, rflags: bv64)

  predicate OpOk(op: Op) {
    match op
    case SetBaseMsr(seg, _) => seg == FS || seg == GS
    case GuestRun(hw, _) => |hw| == 8
    case _ => true
  }

  predicate IsBusyTss64(ar: bv32) { ar & 0xf == 11 }

  function SetBusyTss64(ar: bv32): bv32 { (ar & !0xf) | 11 }

  function LmodeTr(tr: HwSegment): HwSegment {
    if IsBusyTss64(tr.ar) then tr else tr.(ar := SetBusyTss64(tr.ar))
  }

  function ResetSegment(seg: Sreg): HwSegment {
    if seg == CS then HwSegment(0xf000, 0xffff0000, 0xffff, 0x9b)
    else if seg == TR then HwSegment(0, 0, 0xffff, 0x8b)
    else if seg == LDTR then HwSegment(0, 0, 0xffff, 0x82)
    else HwSegment(0, 0, 0xffff, 0x93)
  }

  /** The registers after op when nothing is cached. */
  function Uncached(r: Regs, op: Op, cfg: Config): (r': Regs)
    requires WellFormed(r) && OpOk(op)
    ensures WellFormed(r')
  {
    match op
    case GetSegment(_) => r
    case GetSegmentBase(_) => r
    case GetCpl => r
    case GetCsDbL => r
    case SetSegment(v, seg) => Set(r, v, seg, cfg)
    case SetBaseMsr(seg, data) => r.(hw := r.hw[seg := r.hw[seg].(base := data)])
    case SetCr4(cr4, env) => AfterSetCr4(r, cr4, cfg, env)
    case EnterRmode => AfterEnterRmode(r, cfg)
    case EnterPmode => AfterEnterPmode(r, cfg)
    case EnterLmode => r.(hw := r.hw[TR := LmodeTr(r.hw[TR])])
    case Reset => r.(vm86 := false, hw := seq(8, seg requires 0 <= seg < 8 => ResetSegment(seg)))
    case GuestRun(hw, rflags) => r.(hw := hw, rflags := rflags)
  }

  function ArDpl(ar: bv32): bv32 { (ar >> 5) & 3 }
  function ArL(ar: bv32): bv32 { (ar >> 13) & 1 }
  function ArDb(ar: bv32): bv32 { (ar >> 14) & 1 }

  /** The architectural reset state of the segments: execution starts at 0xfffffff0 in flat 64-KiB segments. */
  lemma ResetState(seg: Sreg)
    ensures ResetSegment(seg).limit == 0xffff
    ensures seg == 1 ==> ResetSegment(seg) == HwSegment(0xf000, 0xffff_0000, 0xffff, 0x9b)
    ensures seg != 1 ==> ResetSegment(seg).selector == 0 && ResetSegment(seg).base == 0
    ensures seg != 1 ==> ResetSegment(seg).ar == if seg == 6 then 0x8b else if seg == 7 then 0x82 else 0x93
  {
  }

  /** t is the access rights of a busy 64-bit TSS, and ar otherwise. */
  predicate MadeBusy(ar: bv32, t: bv32) { t & 0xf == 11 && t & 0xffff_fff0 == ar & 0xffff_fff0 }

  lemma BusyBits(ar: bv32, t: bv32)
    requires t == (ar & !0xf) | 11
    ensures MadeBusy(ar, t)
  {
  }

  /** Long mode runs with a busy 64-bit TSS: only the type of TR is forced. */
  lemma LmodeTrIsBusy(tr: HwSegment)
    ensures LmodeTr(tr) == tr.(ar := LmodeTr(tr).ar) && MadeBusy(tr.ar, LmodeTr(tr).ar)
  {
    hide SetBusyTss64, IsBusyTss64, MadeBusy;
    if IsBusyTss64(tr.ar) { BusyStays(tr.ar); } else { BusyIsMade(tr.ar); }
  }

  lemma BusyStays(ar: bv32)
    requires IsBusyTss64(ar)
    ensures MadeBusy(ar, ar)
  {
  }

  lemma BusyIsMade(ar: bv32)
    ensures MadeBusy(ar, SetBusyTss64(ar))
  {
    BusyBits(ar, SetBusyTss64(ar));
  }

  /** A base MSR write changes that base alone, and the guest reads it back outside virtual-8086 mode. */
  lemma BaseInHardware(r: Regs, seg: Sreg, data: bv64, cfg: Config)
    requires WellFormed(r) && (seg == 4 || seg == 5)
    ensures var t := Uncached(r, SetBaseMsr(seg, data), cfg);
            && t == r.(hw := r.hw[seg := r.hw[seg].(base := data)])
            && (!r.vm86 ==> Report(t, seg).base == data)
  {
    hide AccessRights;
  }

  /** Entering long mode makes TR busy and changes nothing else. */
  lemma LmodeInHardware(r: Regs, cfg: Config)
    requires WellFormed(r)
    ensures var t := Uncached(r, EnterLmode, cfg);
            MadeBusy(r.hw[6].ar, t.hw[6].ar) && t == r.(hw := r.hw[6 := r.hw[6].(ar := t.hw[6].ar)])
  {
    LmodeTrIsBusy(r.hw[6]);
    hide MadeBusy, LmodeTr;
  }

  /** A reset leaves virtual-8086 mode and puts every segment in its reset state; the guest leaves what it likes. */
  lemma ResetInHardware(r: Regs, hw: seq<HwSegment>, rflags: bv64, cfg: Config)
    requires WellFormed(r) && |hw| == 8
    ensures var t := Uncached(r, Reset, cfg); !t.vm86 && forall g: Sreg :: t.hw[g] == ResetSegment(g)
    ensures var t := Uncached(r, GuestRun(hw, rflags), cfg);
            t.hw == hw && t.rflags == rflags && t.saved == r.saved && t.vm86 == r.vm86
  {
    hide ResetSegment;
  }

  /** The CPL and the mode bits are those of the reported SS and CS. */
  lemma CplIsReported(r: Regs)
    requires WellFormed(r)
    ensures UncachedOut(r, GetCpl) == Cpl(if r.vm86 then 0 else Report(r, SS).dpl as bv32)
    ensures !r.vm86 ==> UncachedOut(r, GetCsDbL) == DbL(Report(r, CS).db as bv32, Report(r, CS).l as bv32)
  {
    FieldsOfAr(r.hw[SS].ar);
    FieldsOfAr(r.hw[CS].ar);
    hide Byte, ArDpl, ArDb, ArL;
  }

  lemma FieldsOfAr(ar: bv32)
    ensures ArDpl(ar) == Byte((ar >> 5) & 3) as bv32
    ensures ArDb(ar) == Byte((ar >> 14) & 1) as bv32 && ArL(ar) == Byte((ar >> 13) & 1) as bv32
  {
  }

  datatype Out = NoValue | Whole(v: Segment) | BaseOnly(base: bv64) | Cpl(dpl: bv32) | DbL(db: bv32, l: bv32)

  /** What op hands to its caller when nothing is cached. */
  function UncachedOut(r: Regs, op: Op): Out
    requires WellFormed(r)
  {
    match op
    case GetSegment(seg) => Whole(Report(r, seg))
    case GetSegmentBase(seg) => BaseOnly(Report(r, seg).base)
    case GetCpl => Cpl(if r.vm86 then 0 else ArDpl(r.hw[SS].ar))
    case GetCsDbL => DbL(ArDb(r.hw[CS].ar), ArL(r.hw[CS].ar))
    case _ => NoValue
  }

  /** A whole run without a cache. */
  function UncachedRun(r: Regs, ops: seq<Op>, cfg: Config): (Regs, seq<Out>)
    requires WellFormed(r) && forall i :: 0 <= i < |ops| ==> OpOk(ops[i])
  {
    if ops == [] then (r, [])
    else
      var n := |ops| - 1;
      var (before, outs) := UncachedRun(r, ops[..n], cfg);
      (Uncached(before, ops[n], cfg), outs + [UncachedOut(before, ops[n])])
  }

  /** segs with the six data and code segments replaced by what r reports, in the order of enter_pmode. */
  function WithReports(r: Regs, segs: seq<Segment>): seq<Segment>
    requires WellFormed(r) && |segs| == 8
  {
    segs[ES := Report(r, ES)][DS := Report(r, DS)][FS := Report(r, FS)]
        [GS := Report(r, GS)][SS := Report(r, SS)][CS := Report(r, CS)]
  }

  function WithFixedRmode(hw: seq<HwSegment>, segs: seq<Segment>, cfg: Config): seq<HwSegment>
    requires |hw| == |segs| == 8
  {
    hw[SS := FixRmode(SS, segs[SS], cfg)][CS := FixRmode(CS, segs[CS], cfg)][ES := FixRmode(ES, segs[ES], cfg)]
      [DS := FixRmode(DS, segs[DS], cfg)][GS := FixRmode(GS, segs[GS], cfg)][FS := FixRmode(FS, segs[FS], cfg)]
  }

  function PmodeSegment(v: Segment, seg: Sreg, cfg: Config): Segment { Accessed(FixPmode(v, seg, cfg), seg, cfg) }

  function WithFixedPmode(segs: seq<Segment>, cfg: Config): seq<Segment>
    requires |segs| == 8
  {
    segs[CS := PmodeSegment(segs[CS], CS, cfg)][SS := PmodeSegment(segs[SS], SS, cfg)]
        [ES := PmodeSegment(segs[ES], ES, cfg)][DS := PmodeSegment(segs[DS], DS, cfg)]
        [FS := PmodeSegment(segs[FS], FS, cfg)][GS := PmodeSegment(segs[GS], GS, cfg)]
  }

  function WithLoaded(hw: seq<HwSegment>, segs: seq<Segment>): seq<HwSegment>
    requires |hw| == |segs| == 8
  {
    hw[CS := ToHw(segs[CS])][SS := ToHw(segs[SS])][ES := ToHw(segs[ES])]
      [DS := ToHw(segs[DS])][FS := ToHw(segs[FS])][GS := ToHw(segs[GS])]
  }

  /** The statements of enter_rmode, in order, amount to AfterEnterRmode. */
  lemma RmodeInOrder(r: Regs, cfg: Config)
    requires WellFormed(r)
    ensures var segs := WithReports(r, r.saved[TR := Report(r, TR)]);
            AfterEnterRmode(r, cfg) ==
              Regs(WithFixedRmode(r.hw[TR := RmodeTr(r.hw[TR], cfg)], segs, cfg), true, segs,
                   Vm86Flags(r.rflags), r.rflags, RmodeCr4(r.cr4), r.cr4Shadow)
  {
    hide Report, FixRmode, Vm86Flags, RmodeCr4;
    var segs := WithReports(r, r.saved[TR := Report(r, TR)]);
    assert AfterEnterRmode(r, cfg).saved == segs;
  }

  /** The statements of enter_pmode, in order, amount to AfterEnterPmode. */
  lemma PmodeInOrder(r: Regs, cfg: Config)
    requires WellFormed(r)
    ensures var tr := Accessed(r.saved[TR], TR, cfg);
            var segs := WithFixedPmode(WithReports(r, r.saved)[TR := tr], cfg);
            AfterEnterPmode(r, cfg) ==
              Regs(WithLoaded(r.hw[TR := ToHw(tr)], segs), false, segs,
                   GuestFlags(r.rflags, r.savedRflags), r.savedRflags, PmodeCr4(r.cr4, r.cr4Shadow), r.cr4Shadow)
  {
    hide Report, FixPmode, Accessed, ToHw, GuestFlags, PmodeCr4;
    var segs := WithFixedPmode(WithReports(r, r.saved)[TR := Accessed(r.saved[TR], TR, cfg)], cfg);
    assert AfterEnterPmode(r, cfg).saved == segs;
  }

  class VcpuVmx {
    const cfg: Config
    var hw: seq<HwSegment>
    var vm86Active: bool
    var rmodeSegs: seq<Segment>
    var rflags: bv64
    var saveRflags: bv64
    var cr4: bv64
    var cr4Shadow: bv64

    var segmentsAvailable: bool   // VCPU_EXREG_SEGMENTS in regs_avail
    var bitmask: set<nat>         // the bits set in segment_cache.bitmask
    var cache: seq<HwSegment>

    function View(): Regs
      reads this
    {
      Regs(hw, vm86Active, rmodeSegs, rflags, saveRflags, cr4, cr4Shadow)
    }

    /** Every cached field that a read would trust equals the VMCS field, leaving (seg0, field0) aside. */
    ghost predicate CoherentBut(seg0: int, field0: int)
      reads `hw, `cache, `bitmask, `segmentsAvailable
      requires |hw| == |cache| == 8
    {
      segmentsAvailable ==>
        forall seg: Sreg, field: nat {:trigger Bit(seg, field)} ::
          field < FIELDS && Bit(seg, field) in bitmask && !(seg == seg0 && field == field0) ==>
            SameField(cache[seg], hw[seg], field)
    }

    ghost predicate Valid()
      reads this
    {
      WellFormed(View()) && |cache| == 8 && CoherentBut(-1, -1)
    }

    constructor (cfg: Config, hw: seq<HwSegment>, segs: seq<Segment>)
      requires |hw| == 8 && |segs| == 8
      ensures Valid() && this.cfg == cfg && View() == Regs(hw, false, segs, 2, 0, 0, 0)
    {
      this.cfg := cfg;
      this.hw, rmodeSegs, vm86Active := hw, segs, false;
      rflags, saveRflags, cr4, cr4Shadow := 2, 0, 0, 0;
      segmentsAvailable, bitmask, cache := false, {}, hw;
    }

    // -------------------------------------------------------------- the cache

    method ClearCache()
      requires Valid()
      modifies `bitmask
      ensures Valid() && bitmask == {}
    {
      bitmask := {};
    }

    method TestSet(seg: Sreg, field: nat) returns (hit: bool)
      requires Valid() && field < FIELDS
      modifies `segmentsAvailable, `bitmask
      ensures segmentsAvailable && CoherentBut(seg, field)
      ensures hit ==> SameField(cache[seg], hw[seg], field)
    {
      if !segmentsAvailable {
        segmentsAvailable := true;
        bitmask := {};
      }
      hit := Bit(seg, field) in bitmask;
      bitmask := bitmask + {Bit(seg, field)};
    }

    method ReadSelector(seg: Sreg) returns (r: bv16)
      requires Valid()
      modifies `segmentsAvailable, `bitmask, `cache
      ensures Valid() && r == hw[seg].selector
    {
      var hit := TestSet(seg, SEL);
      if !hit { cache := cache[seg := cache[seg].(selector := hw[seg].selector)]; }
      r := cache[seg].selector;
    }

    method ReadBase(seg: Sreg) returns (r: bv64)
      requires Valid()
      modifies `segmentsAvailable, `bitmask, `cache
      ensures Valid() && r == hw[seg].base
    {
      var hit := TestSet(seg, BASE);
      if !hit { cache := cache[seg := cache[seg].(base := hw[seg].base)]; }
      r := cache[seg].base;
    }

    method ReadLimit(seg: Sreg) returns (r: bv32)
      requires Valid()
      modifies `segmentsAvailable, `bitmask, `cache
      ensures Valid() && r == hw[seg].limit
    {
      var hit := TestSet(seg, LIMIT);
      if !hit { cache := cache[seg := cache[seg].(limit := hw[seg].limit)]; }
      r := cache[seg].limit;
    }

    method ReadAr(seg: Sreg) returns (r: bv32)
      requires Valid()
      modifies `segmentsAvailable, `bitmask, `cache
      ensures Valid() && r == hw[seg].ar
    {
      var hit := TestSet(seg, AR);
      if !hit { cache := cache[seg := cache[seg].(ar := hw[seg].ar)]; }
      r := cache[seg].ar;
    }

    // -------------------------------------------------------------- readers

    method VmxGetSegment(seg: Sreg) returns (v: Segment)
      requires Valid()
      modifies `segmentsAvailable, `bitmask, `cache
      ensures Valid() && v == Report(View(), seg)
    {
      if vm86Active && seg != LDTR {
        v := rmodeSegs[seg];
        if seg == TR {
          return;
        }
        var sel := ReadSelector(seg);
        if v.selector == sel {
          return;
        }
        var base := ReadBase(seg);
        sel := ReadSelector(seg);
        v := v.(base := base, selector := sel);
        return;
      }
      var base := ReadBase(seg);
      var limit := ReadLimit(seg);
      var selector := ReadSelector(seg);
      var ar := ReadAr(seg);
      v := FromHw(HwSegment(selector, base, limit, ar));
    }

    method VmxGetSegmentBase(seg: Sreg) returns (base: bv64)
      requires Valid()
      modifies `segmentsAvailable, `bitmask, `cache
      ensures Valid() && base == Report(View(), seg).base
    {
      if vm86Active {
        var s := VmxGetSegment(seg);
        return s.base;
      }
      base := ReadBase(seg);
    }

    method VmxGetCpl() returns (dpl: bv32)
      requires Valid()
      modifies `segmentsAvailable, `bitmask, `cache
      ensures Valid() && dpl == if vm86Active then 0 else ArDpl(hw[SS].ar)
    {
      if vm86Active {
        return 0;
      }
      var ar := ReadAr(SS);
      return ArDpl(ar);
    }

    method VmxGetCsDbLBits() returns (db: bv32, l: bv32)
      requires Valid()
      modifies `segmentsAvailable, `bitmask, `cache
      ensures Valid() && db == ArDb(hw[CS].ar) && l == ArL(hw[CS].ar)
    {
      var ar := ReadAr(CS);
      return ArDb(ar), ArL(ar);
    }

    // -------------------------------------------------------------- writers

    /** Writes the VMCS behind the cache, so its callers clear the cache first. */
    method FixRmodeSeg(seg: Sreg, save: Segment)
      requires Valid() && bitmask == {}
      modifies `hw
      ensures Valid() && hw == old(hw)[seg := FixRmode(seg, save, cfg)]
    {
      hw := hw[seg := FixRmode(seg, save, cfg)];
    }

    method SetSegmentInPlace(v: Segment, seg: Sreg) returns (v': Segment)
      requires Valid()
      modifies `bitmask, `hw, `rmodeSegs
      ensures Valid() && View() == Set(old(View()), v, seg, cfg)
      ensures v' == if vm86Active && seg != LDTR then v else Accessed(v, seg, cfg)
    {
      hide AccessRights, FixRmode;
      v' := v;
      ClearCache();
      if vm86Active && seg != LDTR {
        rmodeSegs := rmodeSegs[seg := v];
        if seg == TR {
          hw := hw[seg := hw[seg].(selector := v.selector)];
        } else if v.s != 0 {
          FixRmodeSeg(seg, v);
        }
        return;
      }
      v' := Accessed(v, seg, cfg);
      hw := hw[seg := HwSegment(v.selector, v.base, v.limit, AccessRights(v'))];
    }

    method WriteBaseMsr(seg: Sreg, data: bv64)
      requires Valid() && (seg == FS || seg == GS)
      modifies `bitmask, `hw
      ensures Valid() && View() == Uncached(old(View()), SetBaseMsr(seg, data), cfg)
    {
      ClearCache();
      hw := hw[seg := hw[seg].(base := data)];
    }

    /** The value vmx_set_cr4 puts together for the hardware. */
    static method PrepareHwCr4(newCr4: bv64, vm86: bool, unrestricted: bool, env: Cr4Env) returns (hwCr4: bv64)
      ensures hwCr4 == HwCr4(newCr4, vm86, unrestricted, env)
    {
      hide Cr4Own, Cr4AlwaysOn, HasBit, With, Without;
      hwCr4 := With(Cr4Own(newCr4, env.hostCr4), Cr4AlwaysOn(vm86, unrestricted));
      if env.umipEmulated {
        if HasBit(newCr4, CR4_UMIP) {
          hwCr4 := Without(hwCr4, CR4_UMIP);
        }
      }
      if !unrestricted {
        if env.ept {
          if !env.paging {
            hwCr4 := With(Without(hwCr4, CR4_PAE), CR4_PSE);
          } else if !HasBit(newCr4, CR4_PAE) {
            hwCr4 := Without(hwCr4, CR4_PAE);
          }
        }
        if !env.paging {
          hwCr4 := Without(hwCr4, CR4_SMEP_SMAP_PKE);
        }
      }
    }

    method VmxSetCr4(newCr4: bv64, env: Cr4Env)
      requires Valid()
      modifies `cr4, `cr4Shadow
      ensures Valid() && View() == AfterSetCr4(old(View()), newCr4, cfg, env)
    {
      hide CoherentBut, HwCr4;
      var hwCr4 := PrepareHwCr4(newCr4, vm86Active, cfg.unrestricted, env);
      cr4Shadow := newCr4;
      cr4 := hwCr4;
    }

    method VmxEnterLmode()
      requires Valid()
      modifies `bitmask, `hw
      ensures Valid() && View() == old(View()).(hw := old(hw)[TR := LmodeTr(old(hw)[TR])])
    {
      ClearCache();
      var guestTrAr := hw[TR].ar;
      if !IsBusyTss64(guestTrAr) {
        hw := hw[TR := hw[TR].(ar := SetBusyTss64(guestTrAr))];
      }
    }

    method VmxVcpuReset()
      requires Valid()
      modifies `bitmask, `hw, `vm86Active, `segmentsAvailable
      ensures Valid() && View() == Uncached(old(View()), Reset, cfg)
    {
      vm86Active := false;
      ClearCache();
      segmentsAvailable := true;
      hw := seq(8, seg requires 0 <= seg < 8 => ResetSegment(seg));
    }

    /** One turn of the guest: hardware may change any guest field; on exit nothing cached is available. */
    method VmxVcpuRun(newHw: seq<HwSegment>, newRflags: bv64)
      requires Valid() && |newHw| == 8
      modifies `hw, `rflags, `segmentsAvailable
      ensures Valid() && View() == Uncached(old(View()), GuestRun(newHw, newRflags), cfg)
    {
      hw, rflags := newHw, newRflags;
      segmentsAvailable := false;
    }

    method SaveSegment(seg: Sreg, ghost r: Regs)
      requires Valid() && WellFormed(r) && hw == r.hw && vm86Active == r.vm86 && rmodeSegs[seg] == r.saved[seg]
      modifies `segmentsAvailable, `bitmask, `cache, `rmodeSegs
      ensures Valid() && rmodeSegs == old(rmodeSegs)[seg := Report(r, seg)]
    {
      var v := VmxGetSegment(seg);
      rmodeSegs := rmodeSegs[seg := v];
    }

    method SaveDataSegments(ghost r: Regs)
      requires Valid() && WellFormed(r) && hw == r.hw && vm86Active == r.vm86
      requires rmodeSegs == r.saved[TR := rmodeSegs[TR]]
      modifies `segmentsAvailable, `bitmask, `cache, `rmodeSegs
      ensures Valid() && rmodeSegs == WithReports(r, old(rmodeSegs)) && rmodeSegs[TR] == old(rmodeSegs)[TR]
    {
      hide Report, Valid;
      SaveSegment(ES, r);
      SaveSegment(DS, r);
      SaveSegment(FS, r);
      SaveSegment(GS, r);
      SaveSegment(SS, r);
      SaveSegment(CS, r);
    }

    method SaveAllSegments(ghost r: Regs)
      requires Valid() && r == View()
      modifies `segmentsAvailable, `bitmask, `cache, `rmodeSegs
      ensures Valid() && rmodeSegs == WithReports(r, r.saved[TR := Report(r, TR)])
    {
      hide Report, WithReports, CoherentBut;
      SaveSegment(TR, r);
      SaveDataSegments(r);
    }

    method FixRmodeSegs()
      requires Valid() && bitmask == {}
      modifies `hw
      ensures Valid() && hw == WithFixedRmode(old(hw), rmodeSegs, cfg)
    {
      hide FixRmode, CoherentBut;
      FixRmodeSeg(SS, rmodeSegs[SS]);
      FixRmodeSeg(CS, rmodeSegs[CS]);
      FixRmodeSeg(ES, rmodeSegs[ES]);
      FixRmodeSeg(DS, rmodeSegs[DS]);
      FixRmodeSeg(GS, rmodeSegs[GS]);
      FixRmodeSeg(FS, rmodeSegs[FS]);
    }

    method WriteRmodeTr()
      requires Valid() && bitmask == {}
      modifies `hw
      ensures Valid() && hw == old(hw)[TR := RmodeTr(old(hw)[TR], cfg)]
    {
      hw := hw[TR := hw[TR].(base := cfg.tssAddr, limit := RMODE_TSS_SIZE - 1, ar := 0x8b)];
    }

    method BeginVm86()
      requires Valid()
      modifies `vm86Active, `bitmask
      ensures Valid() && vm86Active && bitmask == {}
    {
      vm86Active := true;
      ClearCache();
    }

    method LoadVm86Flags()
      requires Valid()
      modifies `rflags, `saveRflags, `cr4
      ensures Valid()
      ensures rflags == Vm86Flags(old(rflags)) && saveRflags == old(rflags) && cr4 == RmodeCr4(old(cr4))
    {
      saveRflags := rflags;
      rflags := Vm86Flags(rflags);
      cr4 := RmodeCr4(cr4);
    }

    /** enter_rmode from the point where every segment is saved. */
    method LoadRmode()
      requires Valid()
      modifies `vm86Active, `bitmask, `hw, `rflags, `saveRflags, `cr4
      ensures Valid() && vm86Active
      ensures hw == WithFixedRmode(old(hw)[TR := RmodeTr(old(hw)[TR], cfg)], rmodeSegs, cfg)
      ensures rflags == Vm86Flags(old(rflags)) && saveRflags == old(rflags) && cr4 == RmodeCr4(old(cr4))
    {
      hide WithFixedRmode, RmodeTr, Valid, Vm86Flags, RmodeCr4;
      BeginVm86();
      WriteRmodeTr();
      LoadVm86Flags();
      FixRmodeSegs();
    }

    method VmxEnterRmode()
      requires Valid()
      modifies this
      ensures Valid() && View() == AfterEnterRmode(old(View()), cfg)
    {
      hide Report, WithReports, WithFixedRmode, RmodeTr, CoherentBut, Vm86Flags, RmodeCr4, AfterEnterRmode;
      ghost var r := View();
      SaveAllSegments(r);
      LoadRmode();
      RmodeInOrder(r, cfg);
    }

    method FixPmodeSeg(seg: Sreg)
      requires Valid() && !vm86Active && seg != LDTR
      modifies `bitmask, `hw, `rmodeSegs
      ensures Valid()
      ensures var v := PmodeSegment(old(rmodeSegs)[seg], seg, cfg);
              hw == old(hw)[seg := ToHw(v)] && rmodeSegs == old(rmodeSegs)[seg := v]
    {
      hide FixPmode;
      var v := SetSegmentInPlace(FixPmode(rmodeSegs[seg], seg, cfg), seg);
      rmodeSegs := rmodeSegs[seg := v];
    }

    method FixPmodeSegs()
      requires Valid() && !vm86Active
      modifies `bitmask, `hw, `rmodeSegs
      ensures Valid() && rmodeSegs == WithFixedPmode(old(rmodeSegs), cfg)
      ensures hw == WithLoaded(old(hw), rmodeSegs)
    {
      hide PmodeSegment, ToHw, CoherentBut;
      FixPmodeSeg(CS);
      FixPmodeSeg(SS);
      FixPmodeSeg(ES);
      FixPmodeSeg(DS);
      FixPmodeSeg(FS);
      FixPmodeSeg(GS);
    }

    method LoadTr()
      requires Valid() && !vm86Active
      modifies `bitmask, `hw, `rmodeSegs
      ensures Valid()
      ensures var v := Accessed(old(rmodeSegs)[TR], TR, cfg);
              hw == old(hw)[TR := ToHw(v)] && rmodeSegs == old(rmodeSegs)[TR := v]
    {
      var v := SetSegmentInPlace(rmodeSegs[TR], TR);
      rmodeSegs := rmodeSegs[TR := v];
    }

    /** enter_pmode from the point where the data segments are saved. */
    method LoadPmode()
      requires Valid()
      modifies `vm86Active, `bitmask, `hw, `rmodeSegs, `rflags, `cr4
      ensures Valid() && !vm86Active
      ensures var tr := Accessed(old(rmodeSegs)[TR], TR, cfg);
              && rmodeSegs == WithFixedPmode(old(rmodeSegs)[TR := tr], cfg)
              && hw == WithLoaded(old(hw)[TR := ToHw(tr)], rmodeSegs)
      ensures rflags == GuestFlags(old(rflags), saveRflags) && cr4 == PmodeCr4(old(cr4), cr4Shadow)
    {
      hide WithFixedPmode, WithLoaded, Accessed, ToHw, CoherentBut, GuestFlags, PmodeCr4;
      vm86Active := false;
      LoadTr();
      rflags := GuestFlags(rflags, saveRflags);
      cr4 := PmodeCr4(cr4, cr4Shadow);
      FixPmodeSegs();
    }

    method VmxEnterPmode()
      requires Valid()
      modifies this
      ensures Valid() && View() == AfterEnterPmode(old(View()), cfg)
    {
      hide Report, WithReports, WithFixedPmode, WithLoaded, Accessed, ToHw, CoherentBut, GuestFlags, PmodeCr4,
        AfterEnterPmode;
      ghost var r := View();
      SaveDataSegments(r);
      LoadPmode();
      PmodeInOrder(r, cfg);
    }

    // -------------------------------------------------------------- runs

    method PerformRead(op: Op) returns (out: Out)
      requires Valid() && (op.GetSegment? || op.GetSegmentBase? || op.GetCpl? || op.GetCsDbL?)
      modifies `segmentsAvailable, `bitmask, `cache
      ensures Valid() && out == UncachedOut(View(), op)
    {
      hide Report, ArDpl, ArL, ArDb, CoherentBut;
      match op
      case GetSegment(seg) => { var v := VmxGetSegment(seg); out := Whole(v); }
      case GetSegmentBase(seg) => { var base := VmxGetSegmentBase(seg); out := BaseOnly(base); }
      case GetCpl => { var dpl := VmxGetCpl(); out := Cpl(dpl); }
      case GetCsDbL => { var db, l := VmxGetCsDbLBits(); out := DbL(db, l); }
    }

    method Perform(op: Op) returns (out: Out)
      requires Valid() && OpOk(op)
      modifies this
      ensures Valid() && View() == Uncached(old(View()), op, cfg) && out == UncachedOut(old(View()), op)
    {
      hide Report, Set, AfterEnterRmode, AfterEnterPmode, ResetSegment, LmodeTr, AfterSetCr4, ArDpl, ArL, ArDb, CoherentBut;
      out := NoValue;
      match op
      case SetSegment(v, seg) => { var _ := SetSegmentInPlace(v, seg); }
      case SetBaseMsr(seg, data) => WriteBaseMsr(seg, data);
      case SetCr4(newCr4, env) => VmxSetCr4(newCr4, env);
      case EnterRmode => VmxEnterRmode();
      case EnterPmode => VmxEnterPmode();
      case EnterLmode => VmxEnterLmode();
      case Reset => VmxVcpuReset();
      case GuestRun(newHw, newRflags) => VmxVcpuRun(newHw, newRflags);
      case _ => out := PerformRead(op);
    }

    /**
     Cache coherence over runs: after any sequence of whole calls and stays in the guest, every
     value handed out and every register equals what direct VMCS reads would have given.
    */
    method Replay(ops: seq<Op>) returns (outs: seq<Out>)
      requires Valid() && forall i :: 0 <= i < |ops| ==> OpOk(ops[i])
      modifies this
      ensures Valid() && (View(), outs) == UncachedRun(old(View()), ops, cfg)
    {
      hide Uncached, UncachedOut;
      outs := [];
      for n := 0 to |ops|
        invariant Valid() && (View(), outs) == UncachedRun(old(View()), ops[..n], cfg)
      {
        var out := Perform(ops[n]);
        outs := outs + [out];
        assert ops[..n + 1][..n] == ops[..n];
      }
      assert ops[..|ops|] == ops;
    }
  }
}
