/**
 The segment registers a guest sees on Intel hardware (vmx.c), and the switch between
 protected mode and real mode emulated by virtual-8086 mode.

 Functions on values: what vmx_get_segment reports, what __vmx_set_segment, enter_rmode and
 enter_pmode make of the registers.  The class in SegmentCache computes them in place.
*/
module SegmentView {

  type Sreg = n: nat | n < 8
  const ES: Sreg := 0
  const CS: Sreg := 1
  const SS: Sreg := 2
  const DS: Sreg := 3
  const FS: Sreg := 4
  const GS: Sreg := 5
  const TR: Sreg := 6
  const LDTR: Sreg := 7

  const RMODE_TSS_SIZE: bv32 := 104 + 32 + 8192 + 1
  const EFLAGS_IOPL_VM: bv64 := 0x23000
  const CR4_VME: bv64 := 1

  /** The four VMCS guest fields of one segment. */
  datatype HwSegment = HwSegment(selector: bv16, base: bv64, limit: bv32, ar: bv32)

  /** struct kvm_segment. */
  datatype Segment = Segment(
    base: bv64, limit: bv32, selector: bv16,
    typ: bv8, present: bv8, dpl: bv8, db: bv8, s: bv8, l: bv8, g: bv8, avl: bv8, unusable: bv8)

  /** The registers of one vCPU that the mode switch touches. */
  datatype Regs = Regs(
    hw: seq<HwSegment>, vm86: bool, saved: seq<Segment>,
    rflags: bv64, savedRflags: bv64, cr4: bv64, cr4Shadow: bv64)

  /** Module parameters and per-VM constants. */
  datatype Config = Config(emulateInvalid: bool, unrestricted: bool, tssAddr: bv64)

  predicate WellFormed(r: Regs) { |r.hw| == 8 && |r.saved| == 8 }

  // ---------------------------------------------------------------- access rights

  function AccessRights(v: Segment): bv32 {
    ((v.typ as bv32) & 15) | (((v.s as bv32) & 1) << 4) | (((v.dpl as bv32) & 3) << 5) |
    (((v.present as bv32) & 1) << 7) | (((v.avl as bv32) & 1) << 12) | (((v.l as bv32) & 1) << 13) |
    (((v.db as bv32) & 1) << 14) | (((v.g as bv32) & 1) << 15) |
    (if v.unusable != 0 || v.present == 0 then 0x10000 else 0)
  }

  function Byte(x: bv32): bv8 { (x & 0xff) as bv8 }

  function FromHw(h: HwSegment): Segment {
    var unusable := Byte((h.ar >> 16) & 1);
    Segment(h.base, h.limit, h.selector,
            Byte(h.ar & 15), if unusable == 0 then 1 else 0, Byte((h.ar >> 5) & 3), Byte((h.ar >> 14) & 1),
            Byte((h.ar >> 4) & 1), Byte((h.ar >> 13) & 1), Byte((h.ar >> 15) & 1), Byte((h.ar >> 12) & 1), unusable)
  }

  function ToHw(v: Segment): HwSegment { HwSegment(v.selector, v.base, v.limit, AccessRights(v)) }

  /** A segment whose fields fit the access-rights word and which is present iff it is usable. */
  predicate Canonical(v: Segment) {
    v.typ < 16 && v.s < 2 && v.dpl < 4 && v.avl < 2 && v.l < 2 && v.db < 2 && v.g < 2 && v.unusable < 2 &&
    v.present == if v.unusable == 0 then 1 else 0
  }

  /** Writing a segment to the VMCS and reading it back is lossless for canonical segments and no others. */
  lemma HwRoundTrip(v: Segment)
    ensures FromHw(ToHw(v)) == v <==> Canonical(v)
  {
  }

  lemma ReportedIsCanonical(h: HwSegment)
    ensures Canonical(FromHw(h))
  {
  }

  /** The access-rights word has the layout of section 25.4.1 of the Intel manual, its reserved bits clear. */
  lemma AccessRightsLayout(v: Segment)
    ensures var ar := AccessRights(v);
            && ar & 0xf == v.typ as bv32 & 0xf && (ar >> 5) & 3 == v.dpl as bv32 & 3
            && (ar & 0x10 != 0 <==> v.s & 1 != 0)
            && (ar & 0x80 != 0 <==> v.present & 1 != 0)
            && (ar & 0x1000 != 0 <==> v.avl & 1 != 0)
            && (ar & 0x2000 != 0 <==> v.l & 1 != 0)
            && (ar & 0x4000 != 0 <==> v.db & 1 != 0)
            && (ar & 0x8000 != 0 <==> v.g & 1 != 0)
            && (ar & 0x1_0000 != 0 <==> v.unusable != 0 || v.present == 0)
            && ar & 0xfffe_0f00 == 0
  {
  }

  // ---------------------------------------------------------------- the view

  /** vmx_get_segment, with every VMCS field read directly. */
  function Report(r: Regs, seg: Sreg): Segment
    requires WellFormed(r)
  {
    if r.vm86 && seg != LDTR then
      var v := r.saved[seg];
      if seg == TR || v.selector == r.hw[seg].selector then v
      else v.(base := r.hw[seg].base, selector := r.hw[seg].selector)
    else FromHw(r.hw[seg])
  }

  /** vmx_get_rflags, reading the VMCS. */
  function ReportRflags(r: Regs): bv64 {
    if r.vm86 then GuestFlags(r.rflags, r.savedRflags) else r.rflags
  }

  // ---------------------------------------------------------------- the writers

  function RealModeSelector(base: bv64): bv16 { ((base >> 4) & 0xffff) as bv16 }

  function RealModeBase(base: bv64): bv64 { base & 0xffff0 }

  function RealModeSegment(v: Segment): Segment {
    v.(selector := RealModeSelector(v.base), base := RealModeBase(v.base), limit := 0xffff,
       g := 0, db := 0, present := 1, s := 1, l := 0, unusable := 0, typ := 3, avl := 0)
  }

  function FixRmode(seg: Sreg, save: Segment, cfg: Config): HwSegment {
    var v := save.(dpl := 3, typ := if seg == CS then 3 else save.typ);
    ToHw(if cfg.emulateInvalid then v else RealModeSegment(v))
  }

  /** __vmx_set_segment. */
  function Set(r: Regs, v: Segment, seg: Sreg, cfg: Config): (r': Regs)
    requires WellFormed(r)
  {
    if r.vm86 && seg != LDTR then
      var t := r.(saved := r.saved[seg := v]);
      if seg == TR then t.(hw := r.hw[seg := r.hw[seg].(selector := v.selector)])
      else if v.s != 0 then t.(hw := r.hw[seg := FixRmode(seg, v, cfg)])
      else t
    else r.(hw := r.hw[seg := ToHw(Accessed(v, seg, cfg))])
  }

  /** On an unrestricted guest __vmx_set_segment also sets the accessed bit in its argument. */
  function Accessed(v: Segment, seg: Sreg, cfg: Config): Segment {
    if cfg.unrestricted && seg != LDTR then v.(typ := v.typ | 1) else v
  }

  /** The argument fix_pmode_seg hands to __vmx_set_segment. */
  function FixPmode(v: Segment, seg: Sreg, cfg: Config): Segment {
    if cfg.emulateInvalid then v
    else
      var sel := PmodeSelector(v.selector, seg);
      v.(selector := sel, dpl := Rpl(sel), s := 1)
  }

  function PmodeSelector(sel: bv16, seg: Sreg): bv16 {
    if seg == CS || seg == SS then sel & 0xfffc else sel
  }

  function Rpl(sel: bv16): bv8 { (sel & 3) as bv8 }

  /** The task register virtual-8086 mode runs with. */
  function RmodeTr(tr: HwSegment, cfg: Config): HwSegment {
    HwSegment(tr.selector, cfg.tssAddr, RMODE_TSS_SIZE - 1, 0x8b)
  }

  function AfterEnterRmode(r: Regs, cfg: Config): Regs
    requires WellFormed(r)
  {
    var saved := seq(8, seg requires 0 <= seg < 8 => if seg == LDTR then r.saved[seg] else Report(r, seg));
    var hw := seq(8, seg requires 0 <= seg < 8 =>
      if seg == LDTR then r.hw[seg]
      else if seg == TR then RmodeTr(r.hw[seg], cfg)
      else FixRmode(seg, saved[seg], cfg));
    Regs(hw, true, saved, Vm86Flags(r.rflags), r.rflags, RmodeCr4(r.cr4), r.cr4Shadow)
  }

  /** What enter_pmode passes to __vmx_set_segment for seg. */
  function PmodeArgument(r: Regs, seg: Sreg, cfg: Config): Segment
    requires WellFormed(r)
  {
    if seg == TR then r.saved[TR] else FixPmode(Report(r, seg), seg, cfg)
  }

  function AfterEnterPmode(r: Regs, cfg: Config): Regs
    requires WellFormed(r)
  {
    var saved := seq(8, seg requires 0 <= seg < 8 =>
      if seg == LDTR then r.saved[seg] else Accessed(PmodeArgument(r, seg, cfg), seg, cfg));
    var hw := seq(8, seg requires 0 <= seg < 8 =>
      if seg == LDTR then r.hw[seg] else ToHw(Accessed(PmodeArgument(r, seg, cfg), seg, cfg)));
    Regs(hw, false, saved, GuestFlags(r.rflags, r.savedRflags), r.savedRflags,
         PmodeCr4(r.cr4, r.cr4Shadow), r.cr4Shadow)
  }

  /** RFLAGS as virtual-8086 mode runs with them. */
  function Vm86Flags(f: bv64): bv64 { f | EFLAGS_IOPL_VM }

  /** IOPL and VM come from the saved copy, all other bits belong to the guest. */
  function GuestFlags(f: bv64, saved: bv64): bv64 { (f & !EFLAGS_IOPL_VM) | (saved & EFLAGS_IOPL_VM) }

  function RmodeCr4(cr4: bv64): bv64 { cr4 | CR4_VME }

  function PmodeCr4(cr4: bv64, shadow: bv64): bv64 { (cr4 & !CR4_VME) | (shadow & CR4_VME) }

  /** What vmx_set_cr4 takes from its surroundings; hostCr4 is the host's CR4. */
  datatype Cr4Env = Cr4Env(hostCr4: bv64, umipEmulated: bool, ept: bool, paging: bool)

  const CR4_PSE: bv64 := 0x10
  const CR4_PAE: bv64 := 0x20
  const CR4_MCE: bv64 := 0x40
  const CR4_UMIP: bv64 := 0x800
  const CR4_VMXE: bv64 := 0x2000
  const CR4_SMEP_SMAP_PKE: bv64 := 0x70_0000

  predicate HasBit(x: bv64, bit: bv64) { x & bit != 0 }

  function With(x: bv64, bits: bv64): bv64 { x | bits }

  function Without(x: bv64, bits: bv64): bv64 { x & !bits }

  /** The guest's CR4, with the host's MCE. */
  function Cr4Own(cr4: bv64, hostCr4: bv64): bv64 { (hostCr4 & CR4_MCE) | Without(cr4, CR4_MCE) }

  function Cr4AlwaysOn(vm86: bool, unrestricted: bool): bv64 {
    if unrestricted then CR4_VMXE else if vm86 then CR4_VME | CR4_PAE | CR4_VMXE else CR4_PAE | CR4_VMXE
  }

  /** The value vmx_set_cr4 gives the hardware. */
  function HwCr4(cr4: bv64, vm86: bool, unrestricted: bool, env: Cr4Env): bv64 {
    var on := With(Cr4Own(cr4, env.hostCr4), Cr4AlwaysOn(vm86, unrestricted));
    var umip := if env.umipEmulated && HasBit(cr4, CR4_UMIP) then Without(on, CR4_UMIP) else on;
    if unrestricted then umip
    else
      var pae := if !env.ept then umip
                 else if !env.paging then With(Without(umip, CR4_PAE), CR4_PSE)
                 else if !HasBit(cr4, CR4_PAE) then Without(umip, CR4_PAE)
                 else umip;
      if env.paging then pae else Without(pae, CR4_SMEP_SMAP_PKE)
  }

  function AfterSetCr4(r: Regs, cr4: bv64, cfg: Config, env: Cr4Env): Regs {
    r.(cr4 := HwCr4(cr4, r.vm86, cfg.unrestricted, env), cr4Shadow := cr4)
  }

  predicate VmeShadowed(cr4: bv64, shadow: bv64) { cr4 & CR4_VME == shadow & CR4_VME }

  // ---------------------------------------------------------------- what the hardware gets

  lemma LowBit(t: bv8, u: bv8)
    requires u == t | 1
    ensures u & 1 != 0 && u & 0xfe == t & 0xfe
  {
  }

  /** On an unrestricted guest every segment but LDTR gets the accessed bit, and that is all. */
  lemma AccessedBit(v: Segment, seg: Sreg, cfg: Config)
    ensures var w := Accessed(v, seg, cfg);
            if cfg.unrestricted && seg != 7 then w == v.(typ := w.typ) && w.typ & 1 != 0 && w.typ & 0xfe == v.typ & 0xfe
            else w == v
  {
    if cfg.unrestricted && seg != 7 { LowBit(v.typ, Accessed(v, seg, cfg).typ); }
    hide AccessRights;
  }

  /** The base that real mode gives a selector. */
  function BaseOf(sel: bv16): bv64 { (sel as bv64) << 4 }

  lemma ShiftedSelector(base: bv64)
    ensures BaseOf(RealModeSelector(base)) == RealModeBase(base)
  {
  }

  lemma Vm86Rights(v: Segment)
    requires v.typ == 3 && v.present == 1 && v.dpl == 3 && v.db == 0 && v.s == 1
    requires v.l == 0 && v.g == 0 && v.avl == 0 && v.unusable == 0
    ensures AccessRights(v) == 0xf3
  {
  }

  /**
   The form a segment must have for virtual-8086 mode (section 27.3.1.2 of the Intel manual) when
   invalid guest state is not emulated; otherwise only DPL and the type of CS are forced.
  */
  lemma Vm86Form(save: Segment, seg: Sreg, cfg: Config)
    ensures var h := FixRmode(seg, save, cfg);
            if cfg.emulateInvalid then h == ToHw(save.(dpl := 3, typ := if seg == 1 then 3 else save.typ))
            else
              && h.base == BaseOf(h.selector) && h.base == RealModeBase(save.base)
              && h.limit == 0xffff && h.ar == 0xf3
  {
    if !cfg.emulateInvalid {
      ShiftedSelector(save.base);
      var v := RealModeSegment(save.(dpl := 3, typ := if seg == CS then 3 else save.typ));
      assert v.selector == RealModeSelector(save.base) && v.base == RealModeBase(save.base) && v.limit == 0xffff;
      assert FixRmode(seg, save, cfg) == ToHw(v);
      Vm86Rights(v);
      hide FixRmode, AccessRights, RealModeSelector, RealModeBase, BaseOf, RealModeSegment;
    }
  }

  /**
   A segment set in virtual-8086 mode is saved as given; the hardware gets only the selector of TR, the
   form above of a code or data segment, and nothing of a system segment.
  */
  lemma Vm86SetHardware(r: Regs, v: Segment, seg: Sreg, cfg: Config)
    requires WellFormed(r) && r.vm86 && seg != 7
    ensures var t := Set(r, v, seg, cfg); var h := t.hw[seg];
            && t == r.(saved := r.saved[seg := v], hw := r.hw[seg := h])
            && (seg == 6 ==> h == r.hw[6].(selector := v.selector))
            && (seg < 6 && v.s == 0 ==> h == r.hw[seg])
            && (seg < 6 && v.s != 0 && !cfg.emulateInvalid ==>
                  h.base == BaseOf(h.selector) && h.base == RealModeBase(v.base) && h.limit == 0xffff && h.ar == 0xf3)
  {
    hide Set, FixRmode, BaseOf, RealModeBase;
    Vm86SetFields(r, v, seg, cfg);
    if seg < 6 && v.s != 0 { Vm86Form(v, seg, cfg); }
  }

  lemma Vm86SetFields(r: Regs, v: Segment, seg: Sreg, cfg: Config)
    requires WellFormed(r) && r.vm86 && seg != 7
    ensures var t := Set(r, v, seg, cfg);
            && t == r.(saved := r.saved[seg := v], hw := r.hw[seg := t.hw[seg]])
            && t.hw[seg] == if seg == 6 then r.hw[6].(selector := v.selector)
                            else if v.s == 0 then r.hw[seg] else FixRmode(seg, v, cfg)
  {
    hide FixRmode, Accessed, ToHw;
    var t := Set(r, v, seg, cfg);
    assert t.saved == r.saved[seg := v] && (seg != 6 && v.s == 0 ==> t.hw == r.hw);
    assert t.hw == r.hw[seg := t.hw[seg]];
  }

  lemma SetBits(f: bv64, mask: bv64, g: bv64)
    requires g == f | mask
    ensures g & mask == mask && g & !mask == f & !mask
  {
  }

  lemma Vm86Bits(f: bv64)
    ensures Vm86Flags(f) & 0x2_3000 == 0x2_3000 && Vm86Flags(f) & !0x2_3000 == f & !0x2_3000
  {
    SetBits(f, 0x2_3000, Vm86Flags(f));
  }

  lemma VmeBits(cr4: bv64)
    ensures RmodeCr4(cr4) & 1 == 1 && RmodeCr4(cr4) & !1 == cr4 & !1
  {
    SetBits(cr4, 1, RmodeCr4(cr4));
  }

  /**
   What enter_rmode leaves in the hardware is virtual-8086 mode: VM set and IOPL 3 in RFLAGS, VME in
   CR4, a TSS of KVM's own, and no other bit touched ...
  */
  lemma RmodeHardware(r: Regs, cfg: Config)
    requires WellFormed(r)
    ensures var t := AfterEnterRmode(r, cfg);
            && t.vm86 && t.savedRflags == r.rflags
            && t.rflags & 0x2_3000 == 0x2_3000 && t.rflags & !0x2_3000 == r.rflags & !0x2_3000
            && t.cr4 & 1 == 1 && t.cr4 & !1 == r.cr4 & !1 && t.cr4Shadow == r.cr4Shadow
            && t.hw[6] == HwSegment(r.hw[6].selector, cfg.tssAddr, 8328, 0x8b) && t.hw[7] == r.hw[7]
  {
    hide Vm86Flags, RmodeCr4, FixRmode, Report;
    Vm86Bits(r.rflags);
    VmeBits(r.cr4);
    assert RMODE_TSS_SIZE - 1 == 8328;
  }

  /** ... and, without emulation of invalid guest state, segments in the form that mode demands. */
  lemma RmodeSegmentHardware(r: Regs, cfg: Config, seg: Sreg)
    requires WellFormed(r) && seg < 6
    ensures var v, h := Report(r, seg), AfterEnterRmode(r, cfg).hw[seg];
            if cfg.emulateInvalid then h == ToHw(v.(dpl := 3, typ := if seg == 1 then 3 else v.typ))
            else
              && h.base == BaseOf(h.selector) && h.base == RealModeBase(v.base)
              && h.limit == 0xffff && h.ar == 0xf3
  {
    hide FixRmode, Report, ToHw, RealModeBase, BaseOf;
    assert AfterEnterRmode(r, cfg).hw[seg] == FixRmode(seg, Report(r, seg), cfg);
    hide AfterEnterRmode;
    Vm86Form(Report(r, seg), seg, cfg);
  }

  lemma PmodeBits(f: bv64, saved: bv64)
    ensures GuestFlags(f, saved) & !0x2_3000 == f & !0x2_3000 && GuestFlags(f, saved) & 0x2_3000 == saved & 0x2_3000
    ensures PmodeCr4(f, saved) & !1 == f & !1 && PmodeCr4(f, saved) & 1 == saved & 1
  {
  }

  lemma ClearRpl(sel: bv16, t: bv16)
    requires t == sel & 0xfffc
    ensures t & 0xfffc == sel & 0xfffc && t & 3 == 0
  {
  }

  lemma SelectorBits(sel: bv16, seg: Sreg)
    ensures SelectorKept(sel, PmodeSelector(sel, seg), seg)
  {
    if seg == 1 || seg == 2 { ClearRpl(sel, PmodeSelector(sel, seg)); }
  }

  /**
   What enter_pmode leaves: IOPL and VM as saved and every other flag as the guest left it, CR4.VME
   as in the shadow, and, without emulation of invalid guest state, code and data segments whose DPL
   is their RPL, which is 0 for CS and SS.
  */
  lemma PmodeHardware(r: Regs, cfg: Config)
    requires WellFormed(r)
    ensures var t := AfterEnterPmode(r, cfg);
            && !t.vm86 && t.hw[7] == r.hw[7]
            && t.rflags & !0x2_3000 == r.rflags & !0x2_3000 && t.rflags & 0x2_3000 == r.savedRflags & 0x2_3000
            && t.cr4 & !1 == r.cr4 & !1 && t.cr4 & 1 == r.cr4Shadow & 1 && t.cr4Shadow == r.cr4Shadow
  {
    hide GuestFlags, PmodeCr4, Accessed, PmodeArgument, ToHw;
    PmodeFields(r, cfg);
    hide AfterEnterPmode;
    PmodeBits(r.rflags, r.savedRflags);
    PmodeBits(r.cr4, r.cr4Shadow);
  }

  lemma PmodeFields(r: Regs, cfg: Config)
    requires WellFormed(r)
    ensures var t := AfterEnterPmode(r, cfg);
            && t.rflags == GuestFlags(r.rflags, r.savedRflags) && t.cr4 == PmodeCr4(r.cr4, r.cr4Shadow)
            && t.cr4Shadow == r.cr4Shadow && !t.vm86 && t.hw[7] == r.hw[7]
  {
    hide GuestFlags, PmodeCr4, Accessed, PmodeArgument, ToHw;
  }

  lemma PmodeSegmentHardware(r: Regs, cfg: Config, seg: Sreg)
    requires WellFormed(r) && seg < 6 && !cfg.emulateInvalid
    ensures var v, h := Report(r, seg), AfterEnterPmode(r, cfg).hw[seg];
            && h.base == v.base && h.limit == v.limit && SelectorKept(v.selector, h.selector, seg) && DplIsRpl(h)
  {
    var v := Report(r, seg);
    var w := FixPmode(v, seg, cfg);
    var x := Accessed(w, seg, cfg);
    assert AfterEnterPmode(r, cfg).hw[seg] == ToHw(x);
    AccessedBit(w, seg, cfg);
    assert x == w.(typ := x.typ);
    assert w == v.(selector := w.selector, dpl := Rpl(w.selector), s := 1) && w.selector == PmodeSelector(v.selector, seg);
    SelectorBits(v.selector, seg);
    RightsOfRpl(x);
    hide AfterEnterPmode, Report, AccessRights, PmodeSelector, Rpl, Accessed, FixPmode, SelectorKept, DplIsRpl;
  }

  /** The selector of a segment loaded in protected mode, with RPL 0 for CS and SS. */
  predicate SelectorKept(sel: bv16, t: bv16, seg: Sreg) {
    t & 0xfffc == sel & 0xfffc && t & 3 == if seg == 1 || seg == 2 then 0 else sel & 3
  }

  /** A code or data segment whose DPL is its RPL. */
  predicate DplIsRpl(h: HwSegment) { h.ar & 0x10 != 0 && (h.ar >> 5) & 3 == h.selector as bv32 & 3 }

  lemma RightsOfRpl(v: Segment)
    requires v.dpl == Rpl(v.selector) && v.s == 1
    ensures DplIsRpl(ToHw(v))
  {
    AccessRightsLayout(v);
    RplBits(v.dpl, v.selector);
    OneBit();
    hide AccessRights, Rpl;
  }

  lemma OneBit()
    ensures 1 as bv8 & 1 != 0
  {
  }

  lemma RplBits(dpl: bv8, sel: bv16)
    requires dpl == Rpl(sel)
    ensures dpl as bv32 & 3 == sel as bv32 & 3
  {
  }

  /** In virtual-8086 mode the guest sees its own IOPL and VM, and its other flags as they are. */
  lemma Vm86FlagsAsSeen(r: Regs)
    ensures r.vm86 ==> ReportRflags(r) & !0x2_3000 == r.rflags & !0x2_3000
    ensures r.vm86 ==> ReportRflags(r) & 0x2_3000 == r.savedRflags & 0x2_3000
    ensures !r.vm86 ==> ReportRflags(r) == r.rflags
  {
    PmodeBits(r.rflags, r.savedRflags);
  }

  lemma MaskOfWith(x: bv64, bits: bv64, y: bv64, mask: bv64)
    requires y == x | bits && bits & mask == 0
    ensures y & mask == x & mask
  {
  }

  lemma MaskOfWithout(x: bv64, bits: bv64, y: bv64, mask: bv64)
    requires y == x & !bits && bits & mask == 0
    ensures y & mask == x & mask
  {
  }

  function Masked(x: bv64, mask: bv64): bv64 { x & mask }

  lemma WithKeeps(x: bv64, bits: bv64, mask: bv64)
    ensures bits & mask == 0 ==> Masked(With(x, bits), mask) == Masked(x, mask)
  {
    if bits & mask == 0 { MaskOfWith(x, bits, With(x, bits), mask); }
  }

  lemma WithoutKeeps(x: bv64, bits: bv64, mask: bv64)
    ensures bits & mask == 0 ==> Masked(Without(x, bits), mask) == Masked(x, mask)
  {
    if bits & mask == 0 { MaskOfWithout(x, bits, Without(x, bits), mask); }
  }

  /** Bits that neither emulation nor paging mode touches are the guest's with those that are always on. */
  lemma HwCr4Keeps(cr4: bv64, vm86: bool, unrestricted: bool, env: Cr4Env, mask: bv64)
    requires CR4_UMIP & mask == 0 && CR4_PAE & mask == 0 && CR4_PSE & mask == 0 && CR4_SMEP_SMAP_PKE & mask == 0
    ensures Masked(HwCr4(cr4, vm86, unrestricted, env), mask) ==
            Masked(With(Cr4Own(cr4, env.hostCr4), Cr4AlwaysOn(vm86, unrestricted)), mask)
  {
    hide With, Without, Cr4Own, Cr4AlwaysOn, HasBit, Masked;
    var on := With(Cr4Own(cr4, env.hostCr4), Cr4AlwaysOn(vm86, unrestricted));
    var umip := if env.umipEmulated && HasBit(cr4, CR4_UMIP) then Without(on, CR4_UMIP) else on;
    var pae := if !env.ept then umip
               else if !env.paging then With(Without(umip, CR4_PAE), CR4_PSE)
               else if !HasBit(cr4, CR4_PAE) then Without(umip, CR4_PAE)
               else umip;
    WithoutKeeps(on, CR4_UMIP, mask);
    WithoutKeeps(umip, CR4_PAE, mask);
    WithKeeps(Without(umip, CR4_PAE), CR4_PSE, mask);
    WithoutKeeps(pae, CR4_SMEP_SMAP_PKE, mask);
  }

  lemma OwnVme(cr4: bv64, vm86: bool, unrestricted: bool, host: bv64)
    ensures With(Cr4Own(cr4, host), Cr4AlwaysOn(vm86, unrestricted)) & 1 == if vm86 && !unrestricted then 1 else cr4 & 1
  {
  }

  lemma OwnVmxe(cr4: bv64, vm86: bool, unrestricted: bool, host: bv64)
    ensures With(Cr4Own(cr4, host), Cr4AlwaysOn(vm86, unrestricted)) & 0x2000 == 0x2000
  {
  }

  lemma OwnMce(cr4: bv64, vm86: bool, unrestricted: bool, host: bv64)
    ensures With(Cr4Own(cr4, host), Cr4AlwaysOn(vm86, unrestricted)) & 0x40 == host & 0x40
  {
  }

  lemma OwnUmip(cr4: bv64, vm86: bool, unrestricted: bool, host: bv64)
    ensures With(Cr4Own(cr4, host), Cr4AlwaysOn(vm86, unrestricted)) & 0x800 == cr4 & 0x800
  {
  }

  /**
   Bit by bit, the CR4 the hardware runs with: VME is on in virtual-8086 mode, VMXE always, MCE is the
   host's, ...
  */
  lemma HwCr4Fixed(cr4: bv64, vm86: bool, unrestricted: bool, env: Cr4Env)
    ensures var hw := HwCr4(cr4, vm86, unrestricted, env);
            && hw & 1 == (if vm86 && !unrestricted then 1 else cr4 & 1)
            && hw & 0x2000 == 0x2000 && hw & 0x40 == env.hostCr4 & 0x40
  {
    HwCr4Mask(cr4, vm86, unrestricted, env, 1);
    HwCr4Mask(cr4, vm86, unrestricted, env, 0x40);
    HwCr4Mask(cr4, vm86, unrestricted, env, 0x2000);
    hide HwCr4, Cr4Own, Cr4AlwaysOn, With;
    OwnVme(cr4, vm86, unrestricted, env.hostCr4);
    OwnVmxe(cr4, vm86, unrestricted, env.hostCr4);
    OwnMce(cr4, vm86, unrestricted, env.hostCr4);
  }

  lemma HwCr4Mask(cr4: bv64, vm86: bool, unrestricted: bool, env: Cr4Env, mask: bv64)
    requires mask == 1 || mask == 0x40 || mask == 0x2000
    ensures HwCr4(cr4, vm86, unrestricted, env) & mask ==
            With(Cr4Own(cr4, env.hostCr4), Cr4AlwaysOn(vm86, unrestricted)) & mask
  {
    hide HwCr4, Cr4Own, Cr4AlwaysOn, With;
    HwCr4Keeps(cr4, vm86, unrestricted, env, mask);
  }

  /** ... UMIP, SMEP, SMAP and PKE are off when emulated or without paging, ... */
  lemma HwCr4Emulated(cr4: bv64, vm86: bool, unrestricted: bool, env: Cr4Env)
    ensures var hw := HwCr4(cr4, vm86, unrestricted, env);
            && hw & 0x800 == (if env.umipEmulated then 0 else cr4 & 0x800)
            && hw & 0x70_0000 == (if env.paging || unrestricted then cr4 & 0x70_0000 else 0)
  {
    HwUmip(cr4, vm86, unrestricted, env);
    HwSmep(cr4, vm86, unrestricted, env);
    hide HwCr4;
  }

  lemma HwUmip(cr4: bv64, vm86: bool, unrestricted: bool, env: Cr4Env)
    ensures HwCr4(cr4, vm86, unrestricted, env) & 0x800 == if env.umipEmulated then 0 else cr4 & 0x800
  {
    hide With, Without, Cr4Own, Cr4AlwaysOn, HasBit, Masked;
    var on := With(Cr4Own(cr4, env.hostCr4), Cr4AlwaysOn(vm86, unrestricted));
    OwnUmip(cr4, vm86, unrestricted, env.hostCr4);
    var umip := if env.umipEmulated && HasBit(cr4, CR4_UMIP) then Without(on, CR4_UMIP) else on;
    var pae := if !env.ept then umip
               else if !env.paging then With(Without(umip, CR4_PAE), CR4_PSE)
               else if !HasBit(cr4, CR4_PAE) then Without(umip, CR4_PAE)
               else umip;
    UmipBit(cr4, on, umip, env.umipEmulated);
    WithoutKeeps(umip, CR4_PAE, 0x800);
    WithKeeps(Without(umip, CR4_PAE), CR4_PSE, 0x800);
    WithoutKeeps(pae, CR4_SMEP_SMAP_PKE, 0x800);
    MaskedUmip(HwCr4(cr4, vm86, unrestricted, env), umip);
    hide HwCr4;
  }

  lemma UmipBit(cr4: bv64, on: bv64, umip: bv64, emulated: bool)
    requires on & 0x800 == cr4 & 0x800
    requires umip == if emulated && HasBit(cr4, CR4_UMIP) then Without(on, CR4_UMIP) else on
    ensures umip & 0x800 == if emulated then 0 else cr4 & 0x800
  {
  }

  lemma MaskedUmip(x: bv64, y: bv64)
    ensures Masked(x, 0x800) == Masked(y, 0x800) ==> x & 0x800 == y & 0x800
  {
  }

  lemma HwSmep(cr4: bv64, vm86: bool, unrestricted: bool, env: Cr4Env)
    ensures HwCr4(cr4, vm86, unrestricted, env) & 0x70_0000 ==
            if env.paging || unrestricted then cr4 & 0x70_0000 else 0
  {
  }

  /** ... PSE and PAE follow the paging mode under EPT, ... */
  lemma HwCr4Paging(cr4: bv64, vm86: bool, unrestricted: bool, env: Cr4Env)
    ensures var hw := HwCr4(cr4, vm86, unrestricted, env);
            && hw & 0x10 == (if env.ept && !env.paging && !unrestricted then 0x10 else cr4 & 0x10)
            && hw & 0x20 == (if unrestricted then cr4 & 0x20
                             else if !env.ept then 0x20
                             else if env.paging then cr4 & 0x20 else 0)
  {
  }

  /** All bits of CR4 but VME, PSE, PAE, MCE, UMIP, VMXE, SMEP, SMAP and PKE. */
  function Rest(cr4: bv64): bv64 { cr4 & 0xffff_ffff_ff8f_d78e }

  lemma WithKeepsRest(x: bv64, bits: bv64)
    requires bits & 0xffff_ffff_ff8f_d78e == 0
    ensures Rest(With(x, bits)) == Rest(x)
  {
    MaskOfWith(x, bits, With(x, bits), 0xffff_ffff_ff8f_d78e);
  }

  lemma WithoutKeepsRest(x: bv64, bits: bv64)
    requires bits & 0xffff_ffff_ff8f_d78e == 0
    ensures Rest(Without(x, bits)) == Rest(x)
  {
    MaskOfWithout(x, bits, Without(x, bits), 0xffff_ffff_ff8f_d78e);
  }

  lemma OwnKeepsRest(cr4: bv64, host: bv64)
    ensures Rest(Cr4Own(cr4, host)) == Rest(cr4)
  {
    OwnBits(cr4, host, Cr4Own(cr4, host));
  }

  lemma OwnBits(cr4: bv64, host: bv64, own: bv64)
    requires own == (host & 0x40) | (cr4 & !0x40)
    ensures own & 0xffff_ffff_ff8f_d78e == cr4 & 0xffff_ffff_ff8f_d78e
  {
  }

  /** ... and every other bit is the guest's. */
  lemma HwCr4Rest(cr4: bv64, vm86: bool, unrestricted: bool, env: Cr4Env)
    ensures Rest(HwCr4(cr4, vm86, unrestricted, env)) == Rest(cr4)
  {
    var own := Cr4Own(cr4, env.hostCr4);
    var on := With(own, Cr4AlwaysOn(vm86, unrestricted));
    var umip := if env.umipEmulated && HasBit(cr4, CR4_UMIP) then Without(on, CR4_UMIP) else on;
    var pae := if !env.ept then umip
               else if !env.paging then With(Without(umip, CR4_PAE), CR4_PSE)
               else if !HasBit(cr4, CR4_PAE) then Without(umip, CR4_PAE)
               else umip;
    AlwaysOnBits(vm86, unrestricted);
    hide With, Without, Cr4Own, Cr4AlwaysOn, HasBit, Rest;
    OwnKeepsRest(cr4, env.hostCr4);
    WithKeepsRest(own, Cr4AlwaysOn(vm86, unrestricted));
    WithoutKeepsRest(on, CR4_UMIP);
    WithoutKeepsRest(umip, CR4_PAE);
    WithKeepsRest(Without(umip, CR4_PAE), CR4_PSE);
    WithoutKeepsRest(pae, CR4_SMEP_SMAP_PKE);
  }

  lemma AlwaysOnBits(vm86: bool, unrestricted: bool)
    ensures Cr4AlwaysOn(vm86, unrestricted) & 0xffff_ffff_ff8f_d78e == 0
  {
  }

  /** A CR4 write puts the guest's value in the read shadow and the value above in the hardware, and nothing else anywhere. */
  lemma SetCr4InHardware(r: Regs, cr4: bv64, cfg: Config, env: Cr4Env)
    ensures var t := AfterSetCr4(r, cr4, cfg, env);
            && t == r.(cr4 := t.cr4, cr4Shadow := cr4) && Rest(t.cr4) == Rest(cr4)
            && t.cr4 & 0x2000 == 0x2000 && t.cr4 & 0x40 == env.hostCr4 & 0x40
            && t.cr4 & 1 == (if r.vm86 && !cfg.unrestricted then 1 else cr4 & 1)
  {
    hide HwCr4, Rest;
    HwCr4Fixed(cr4, r.vm86, cfg.unrestricted, env);
    HwCr4Rest(cr4, r.vm86, cfg.unrestricted, env);
  }

  // ---------------------------------------------------------------- setting a segment

  /** In virtual-8086 mode a segment set reads back, except a system segment whose selector the VMCS does not have. */
  lemma SetThenGetInVm86(r: Regs, v: Segment, seg: Sreg, cfg: Config)
    requires WellFormed(r) && r.vm86 && cfg.emulateInvalid && seg != LDTR
    ensures Report(Set(r, v, seg, cfg), seg) == v <==> seg == TR || v.s != 0 || v.selector == r.hw[seg].selector
  {
  }

  /** A null-typed DS with selector 8, set while the VMCS holds selector 0: the selector is lost. */
  lemma SystemSegmentIsLost(r: Regs, cfg: Config)
    requires WellFormed(r) && r.vm86 && cfg.emulateInvalid && r.hw[DS].selector == 0
    ensures Report(Set(r, Segment(0, 0, 8, 0, 1, 0, 0, 0, 0, 0, 0, 0), DS, cfg), DS).selector == 0
  {
  }

  /** Elsewhere a segment set reads back, with the accessed bit, exactly when it is canonical. */
  lemma SetThenGet(r: Regs, v: Segment, seg: Sreg, cfg: Config)
    requires WellFormed(r) && (!r.vm86 || seg == LDTR)
    ensures Report(Set(r, v, seg, cfg), seg) == Accessed(v, seg, cfg) <==> Canonical(Accessed(v, seg, cfg))
  {
    HwRoundTrip(Accessed(v, seg, cfg));
    hide Accessed, FromHw, AccessRights, Canonical;
  }

  // ---------------------------------------------------------------- what the guest sees

  /** Entering real mode changes nothing the guest can see, given emulation of invalid guest state. */
  lemma RmodeKeepsTheView(r: Regs, cfg: Config, seg: Sreg)
    requires WellFormed(r) && !r.vm86 && cfg.emulateInvalid
    ensures Report(AfterEnterRmode(r, cfg), seg) == Report(r, seg)
    ensures ReportRflags(AfterEnterRmode(r, cfg)) == ReportRflags(r)
  {
    RmodeRflags(r.rflags);
  }

  lemma RmodeRflags(f: bv64)
    ensures GuestFlags(Vm86Flags(f), f) == f
  {
  }

  /**
   Whatever the guest or the hardware did to the VMCS meanwhile, leaving real mode changes nothing
   the guest can see either, except that a saved segment that is not canonical is cut to fit.
  */
  lemma PmodeKeepsTheView(r: Regs, cfg: Config, seg: Sreg)
    requires WellFormed(r) && r.vm86 && cfg.emulateInvalid && !cfg.unrestricted
    ensures Report(AfterEnterPmode(r, cfg), seg) == Report(r, seg) <==> seg == LDTR || Canonical(r.saved[seg])
    ensures ReportRflags(AfterEnterPmode(r, cfg)) == ReportRflags(r)
  {
    if seg != LDTR {
      HwRoundTrip(Report(r, seg));
    }
  }

  /** Userspace sets DS in virtual-8086 mode, present and unusable at once: leaving real mode makes it not present. */
  lemma UnusableSegmentIsCut(r: Regs, cfg: Config)
    requires WellFormed(r) && r.vm86 && cfg.emulateInvalid && !cfg.unrestricted
    ensures var v := Segment(0, 0xffff, 0, 3, 1, 3, 0, 1, 0, 0, 0, 1);
            var r1 := Set(r, v, DS, cfg);
            && Report(r1, DS) == v
            && Report(AfterEnterPmode(r1, cfg), DS) != v && Report(AfterEnterPmode(r1, cfg), DS).present == 0
  {
    var v := Segment(0, 0xffff, 0, 3, 1, 3, 0, 1, 0, 0, 0, 1);
    var r1 := Set(r, v, DS, cfg);
    SetThenGetInVm86(r, v, DS, cfg);
    assert WellFormed(r1) && r1.vm86 && !Canonical(r1.saved[DS]);
    PmodeKeepsTheView(r1, cfg, DS);
    ReportedIsCanonical(AfterEnterPmode(r1, cfg).hw[DS]);
    UnusableIsNotPresent(v);
  }

  lemma UnusableIsNotPresent(v: Segment)
    requires v.unusable == 1
    ensures FromHw(ToHw(v)).present == 0
  {
  }

  /** What enter_rmode saves is canonical. */
  lemma RmodeSavesCanonical(r: Regs, cfg: Config, seg: Sreg)
    requires WellFormed(r) && !r.vm86 && seg != LDTR
    ensures Canonical(AfterEnterRmode(r, cfg).saved[seg])
  {
    ReportedIsCanonical(r.hw[seg]);
    assert AfterEnterRmode(r, cfg).saved[seg] == FromHw(r.hw[seg]);
  }

  /** enter_rmode then enter_pmode: every segment register reads as before. */
  lemma ModeSwitchRoundTrip(r: Regs, cfg: Config, seg: Sreg)
    requires WellFormed(r) && !r.vm86 && cfg.emulateInvalid && !cfg.unrestricted
    ensures Report(AfterEnterPmode(AfterEnterRmode(r, cfg), cfg), seg) == Report(r, seg)
  {
    var r1 := AfterEnterRmode(r, cfg);
    assert WellFormed(r1) && r1.vm86;
    if seg == LDTR {
      assert AfterEnterPmode(r1, cfg).hw[LDTR] == r1.hw[LDTR] == r.hw[LDTR];
    } else {
      RmodeSavesCanonical(r, cfg, seg);
      PmodeKeepsTheView(r1, cfg, seg);
      RmodeKeepsTheView(r, cfg, seg);
    }
  }

  /** RFLAGS come back in full. */
  lemma RflagsRoundTrip(r: Regs, cfg: Config)
    requires WellFormed(r) && !r.vm86
    ensures AfterEnterPmode(AfterEnterRmode(r, cfg), cfg).rflags == r.rflags
  {
    RmodeRflags(r.rflags);
  }

  /** CR4 comes back exactly when its VME bit equalled its read shadow. */
  lemma Cr4ComesBack(r: Regs, cfg: Config)
    requires WellFormed(r) && !r.vm86
    ensures AfterEnterPmode(AfterEnterRmode(r, cfg), cfg).cr4 == r.cr4 <==> VmeShadowed(r.cr4, r.cr4Shadow)
  {
    var r1 := AfterEnterRmode(r, cfg);
    assert WellFormed(r1) && r1.cr4 == RmodeCr4(r.cr4) && r1.cr4Shadow == r.cr4Shadow;
    assert AfterEnterPmode(r1, cfg).cr4 == PmodeCr4(RmodeCr4(r.cr4), r.cr4Shadow);
    Cr4RoundTrip(r.cr4, r.cr4Shadow);
  }

  lemma Cr4RoundTrip(cr4: bv64, shadow: bv64)
    ensures PmodeCr4(RmodeCr4(cr4), shadow) == cr4 <==> VmeShadowed(cr4, shadow)
  {
  }

  /** What the round trip makes of segment v when invalid guest state is not emulated. */
  function Rewritten(v: Segment, seg: Sreg, cfg: Config): Segment {
    var sel := RealModeSelector(v.base);
    FixPmode(if v.selector == sel then v else v.(base := RealModeBase(v.base), selector := sel), seg, cfg)
  }

  lemma RmodeFields(r: Regs, cfg: Config, seg: Sreg)
    requires WellFormed(r) && !r.vm86 && !cfg.emulateInvalid && seg != LDTR && seg != TR
    ensures var r1 := AfterEnterRmode(r, cfg);
            && WellFormed(r1) && r1.vm86 && r1.saved[seg] == FromHw(r.hw[seg])
            && r1.hw[seg].selector == RealModeSelector(r.hw[seg].base) && r1.hw[seg].base == RealModeBase(r.hw[seg].base)
  {
  }

  lemma RoundTripRewrites(r: Regs, cfg: Config, seg: Sreg)
    requires WellFormed(r) && !r.vm86 && !cfg.emulateInvalid && !cfg.unrestricted && seg != LDTR && seg != TR
    ensures Report(AfterEnterPmode(AfterEnterRmode(r, cfg), cfg), seg) == Rewritten(Report(r, seg), seg, cfg)
  {
    var v, r1 := Report(r, seg), AfterEnterRmode(r, cfg);
    RmodeFields(r, cfg, seg);
    var w := Rewritten(v, seg, cfg);
    assert PmodeArgument(r1, seg, cfg) == w;
    ReportedIsCanonical(r.hw[seg]);
    RewrittenIsCanonical(v, seg, cfg);
    PmodeReportsArgument(r1, cfg, seg);
  }

  lemma PmodeReportsArgument(r: Regs, cfg: Config, seg: Sreg)
    requires WellFormed(r) && !cfg.unrestricted && seg != LDTR && Canonical(PmodeArgument(r, seg, cfg))
    ensures Report(AfterEnterPmode(r, cfg), seg) == PmodeArgument(r, seg, cfg)
  {
    HwRoundTrip(PmodeArgument(r, seg, cfg));
  }

  lemma RplIsSmall(sel: bv16)
    ensures Rpl(sel) < 4
  {
  }

  lemma RewrittenIsCanonical(v: Segment, seg: Sreg, cfg: Config)
    requires Canonical(v)
    ensures Canonical(Rewritten(v, seg, cfg))
  {
    hide Canonical, Rewritten, Rpl;
    var w := Rewritten(v, seg, cfg);
    RewrittenFields(v, seg, cfg);
    RplIsSmall(w.selector);
    CanonicalFields(v);
    CanonicalAfter(v, w);
  }

  lemma RewrittenFields(v: Segment, seg: Sreg, cfg: Config)
    ensures var w := Rewritten(v, seg, cfg);
            && w == v.(base := w.base, selector := w.selector, dpl := w.dpl, s := w.s)
            && (if cfg.emulateInvalid then w.dpl == v.dpl && w.s == v.s else w.dpl == Rpl(w.selector) && w.s == 1)
  {
    hide Rpl, PmodeSelector, RealModeSelector, RealModeBase, FixPmode;
    var sel := RealModeSelector(v.base);
    FixPmodeFields(v, seg, cfg);
    FixPmodeFields(v.(base := RealModeBase(v.base), selector := sel), seg, cfg);
  }

  lemma FixPmodeFields(v: Segment, seg: Sreg, cfg: Config)
    ensures var w := FixPmode(v, seg, cfg);
            && w == v.(selector := w.selector, dpl := w.dpl, s := w.s)
            && (if cfg.emulateInvalid then w == v else w.dpl == Rpl(w.selector) && w.s == 1)
  {
    hide Rpl, PmodeSelector;
  }

  lemma CanonicalFields(v: Segment)
    requires Canonical(v)
    ensures v.dpl < 4 && v.s < 2
  {
  }

  lemma CanonicalAfter(v: Segment, w: Segment)
    requires Canonical(v) && w == v.(base := w.base, selector := w.selector, dpl := w.dpl, s := w.s)
    requires w.dpl < 4 && w.s < 2
    ensures Canonical(w)
  {
  }

  /** The segment looks as if real mode had loaded it. */
  predicate LooksRealMode(v: Segment, seg: Sreg) {
    var sel := RealModeSelector(v.base);
    && v.selector == PmodeSelector(sel, seg)
    && v.dpl == Rpl(v.selector)
    && v.s == 1
    && (v.selector == sel || v.base == RealModeBase(v.base))
  }

  /**
   Without emulation of invalid guest state the switch rewrites segments to suit virtual-8086
   mode.  A segment survives the round trip exactly when its selector is its base shifted by
   four (with RPL 0 for CS and SS), its DPL is its RPL, it is a code or data segment, and no base
   bit is cut off on the way.
  */
  lemma RoundTripWithoutEmulation(r: Regs, cfg: Config, seg: Sreg)
    requires WellFormed(r) && !r.vm86 && !cfg.emulateInvalid && !cfg.unrestricted && seg != LDTR && seg != TR
    ensures Report(AfterEnterPmode(AfterEnterRmode(r, cfg), cfg), seg) == Report(r, seg)
            <==> LooksRealMode(Report(r, seg), seg)
  {
    RoundTripRewrites(r, cfg, seg);
    var v := Report(r, seg);
    if LooksRealMode(v, seg) {
      RealModeIsFixed(v, seg, cfg);
    } else if Rewritten(v, seg, cfg) == v {
      FixedIsRealMode(v, seg, cfg);
    }
  }

  /** The flat data segment of any 32-bit kernel comes back with selector 0. */
  lemma FlatSegmentIsRewritten(r: Regs, cfg: Config)
    requires WellFormed(r) && !r.vm86 && !cfg.emulateInvalid && !cfg.unrestricted
    requires r.hw[DS] == HwSegment(0x10, 0, 0xffff_ffff, 0xc093)
    ensures Report(r, DS).selector == 0x10
    ensures Report(AfterEnterPmode(AfterEnterRmode(r, cfg), cfg), DS).selector == 0
  {
    RoundTripRewrites(r, cfg, DS);
    assert RealModeSelector(0) == 0;
  }

  lemma RealModeIsFixed(v: Segment, seg: Sreg, cfg: Config)
    requires !cfg.emulateInvalid && LooksRealMode(v, seg)
    ensures Rewritten(v, seg, cfg) == v
  {
  }

  lemma FixedIsRealMode(v: Segment, seg: Sreg, cfg: Config)
    requires !cfg.emulateInvalid && Rewritten(v, seg, cfg) == v
    ensures LooksRealMode(v, seg)
  {
  }
}
