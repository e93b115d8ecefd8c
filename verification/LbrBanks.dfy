/**
 LBR virtualization (svm.c): the guest's DEBUGCTL and last-branch registers live in one of two
 VMCBs and move between them when the feature is switched on and off.

 The current VMCB is a pointer that aliases vmcb01 outside guest mode and vmcb02 inside it.
 The main result is that the two banks act as one.
*/
module LbrBanks {

  datatype Bank = Bank(dbgctl: bv64, brFrom: bv64, brTo: bv64, lastExcpFrom: bv64, lastExcpTo: bv64)

  datatype Msr = DebugCtl | LastBranchFrom | LastBranchTo | LastIntFrom | LastIntTo

  function BankRead(b: Bank, msr: Msr): bv64 {
    match msr
    case DebugCtl => b.dbgctl
    case LastBranchFrom => b.brFrom
    case LastBranchTo => b.brTo
    case LastIntFrom => b.lastExcpFrom
    case LastIntTo => b.lastExcpTo
  }

  /** Of one VMCB: its LBR registers, the enable bit in virt_ext, and the LBR clean bit. */
  datatype Half = Half(bank: Bank, on: bool, clean: bool)

  /** passthrough says that the guest's accesses to the four branch MSRs are not intercepted. */
  datatype Lbr = Lbr(v01: Half, v02: Half, inGuest: bool, passthrough: bool)

  function Current(s: Lbr): Half { if s.inGuest then s.v02 else s.v01 }

  function WithCurrent(s: Lbr, h: Half): Lbr { if s.inGuest then s.(v02 := h) else s.(v01 := h) }

  function LbrBit(dbgctl: bv64): bool { dbgctl & 1 != 0 }

  /** The bank of svm_get_lbr_vmcb. */
  function Home(s: Lbr): Bank { if Current(s).on then Current(s).bank else s.v01.bank }

  function ReadMsr(s: Lbr, msr: Msr): bv64 { BankRead(Home(s), msr) }

  /** nested says that L1 asked for LBR virtualization of the guest it runs, and may. */
  function Wanted(s: Lbr, nested: bool): bool { LbrBit(Home(s).dbgctl) || (s.inGuest && nested) }

  // ---------------------------------------------------------------- the operations

  function Enabled(s: Lbr): Lbr {
    var t := WithCurrent(s, Current(s).(on := true)).(passthrough := true);
    if s.inGuest then t.(v02 := t.v02.(bank := t.v01.bank, clean := false)) else t
  }

  function Disabled(s: Lbr): Lbr {
    var t := WithCurrent(s, Current(s).(on := false)).(passthrough := false);
    if s.inGuest then t.(v01 := t.v01.(bank := t.v02.bank, clean := false)) else t
  }

  /** svm_update_lbrv. */
  function AfterUpdate(s: Lbr, nested: bool): Lbr {
    if Wanted(s, nested) == Current(s).on then s else if Wanted(s, nested) then Enabled(s) else Disabled(s)
  }

  function WithDbgctl(s: Lbr, data: bv64): Lbr {
    if Current(s).on then WithCurrent(s, Current(s).(bank := Current(s).bank.(dbgctl := data)))
    else s.(v01 := s.v01.(bank := s.v01.bank.(dbgctl := data)))
  }

  /** A write of MSR_IA32_DEBUGCTLMSR; the result is the handler's: false makes it fail (#GP). */
  function AfterWrite(s: Lbr, data: bv64, nested: bool, lbrv: bool, reserved: bv64): (Lbr, bool) {
    if !lbrv then (s, true)
    else if data & reserved != 0 then (s, false)
    else (AfterUpdate(WithDbgctl(s, data), nested), true)
  }

  /** The guest runs: the CPU keeps its registers in the current VMCB if LBR virtualization is on. */
  function AfterGuestRun(s: Lbr, left: Bank): Lbr {
    WithCurrent(s, Current(s).(clean := true, bank := if Current(s).on then left else Current(s).bank))
  }

  // ---------------------------------------------------------------- one call

  /** Switching LBR virtualization on or off changes no value the guest or userspace can read. */
  lemma UpdateKeepsEveryRead(s: Lbr, nested: bool, msr: Msr)
    ensures ReadMsr(AfterUpdate(s, nested), msr) == ReadMsr(s, msr)
  {
  }

  /** One call settles: the enable bit is what is wanted, and a second call does nothing. */
  lemma UpdateSettles(s: Lbr, nested: bool)
    ensures var t := AfterUpdate(s, nested);
            Current(t).on == Wanted(t, nested) == Wanted(s, nested) && AfterUpdate(t, nested) == t
  {
  }

  /** After a legal write with lbrv on, DEBUGCTL reads back as written and the other MSRs are as before. */
  lemma WriteReadsBack(s: Lbr, data: bv64, nested: bool, reserved: bv64, msr: Msr)
    requires data & reserved == 0
    ensures var (t, ok) := AfterWrite(s, data, nested, true, reserved);
            ok && ReadMsr(t, msr) == if msr == DebugCtl then data else ReadMsr(s, msr)
  {
    UpdateKeepsEveryRead(WithDbgctl(s, data), nested, msr);
  }

  /** A write fails exactly when LBR virtualization is offered and a reserved bit is set; nothing changes then, nor without it. */
  lemma WriteFailsIff(s: Lbr, data: bv64, nested: bool, lbrv: bool, reserved: bv64)
    ensures var (t, ok) := AfterWrite(s, data, nested, lbrv, reserved);
            && (!ok <==> lbrv && data & reserved != 0)
            && (!ok || !lbrv ==> t == s)
  {
  }

  /** Branches are recorded after a legal write exactly when bit 0 of the value is set or L1 asks for it in guest mode. */
  lemma WriteTurnsRecordingOnIff(s: Lbr, data: bv64, nested: bool, reserved: bv64)
    requires data & reserved == 0
    ensures var t := AfterWrite(s, data, nested, true, reserved).0;
            Current(t).on <==> data & 1 != 0 || (s.inGuest && nested)
  {
    assert LbrBit(data) == (data & 1 != 0);
    OnAfterWrite(s, data, nested, reserved);
    hide LbrBit, AfterWrite;
  }

  lemma OnAfterWrite(s: Lbr, data: bv64, nested: bool, reserved: bv64)
    requires data & reserved == 0
    ensures Current(AfterWrite(s, data, nested, true, reserved).0).on <==> LbrBit(data) || (s.inGuest && nested)
  {
    hide LbrBit;
  }

  /** A bank that an update writes is marked dirty, and the other VMCB is not touched but for that. */
  lemma MovedRegistersAreDirty(s: Lbr, nested: bool)
    ensures var t := AfterUpdate(s, nested);
            && t.v01.clean == (s.v01.clean && !(s.inGuest && Current(s).on && !Wanted(s, nested)))
            && t.v02.clean == (s.v02.clean && !(s.inGuest && !Current(s).on && Wanted(s, nested)))
            && (t.v01.clean ==> t.v01.bank == s.v01.bank) && (t.v02.clean ==> t.v02.bank == s.v02.bank)
            && (s.inGuest ==> t.v01.on == s.v01.on) && (!s.inGuest ==> t.v02 == s.v02)
  {
  }

  /**
   The CPU may skip reloading LBR state whose clean bit is set (section 15.15.3 of the AMD APM,
   volume 2).  A legal write that leaves LBR virtualization on clears the bit of the VMCB the guest
   runs on exactly when the write also moved the registers there, or if it was clear already.
  */
  lemma WriteIsSeenByTheCpuIff(s: Lbr, data: bv64, nested: bool, reserved: bv64)
    requires data & reserved == 0
    requires Current(AfterWrite(s, data, nested, true, reserved).0).on
    ensures !Current(AfterWrite(s, data, nested, true, reserved).0).clean <==>
            !Current(s).clean || (s.inGuest && !Current(s).on)
  {
  }

  /** A concrete run: recording is on, the guest runs, and the value written next sits behind a set clean bit. */
  lemma StaleDebugCtl(b: Bank)
    ensures var h := Half(b.(dbgctl := 1), true, false);
            var s := AfterGuestRun(Lbr(h, h, false, true), h.bank);
            var (t, ok) := AfterWrite(s, 3, false, true, 0);
            ok && ReadMsr(t, DebugCtl) == 3 && Current(t).on && Current(t).clean
  {
    assert 3 as bv64 & 1 == 1;
  }

  // ---------------------------------------------------------------- whole runs

  datatype Op =
    | Write(data: bv64)
    | Update
    | GuestRun(left: Bank)

  /** A single bank with an enable bit, which follows bit 0 of DEBUGCTL: what the guest should see. */
  datatype Single = Single(bank: Bank, on: bool)

  function SingleStep(a: Single, op: Op, inGuest: bool, nested: bool, lbrv: bool, reserved: bv64): Single {
    match op
    case Write(data) =>
      if !lbrv || data & reserved != 0 then a
      else Single(a.bank.(dbgctl := data), LbrBit(data) || (inGuest && nested))
    case Update => a.(on := LbrBit(a.bank.dbgctl) || (inGuest && nested))
    case GuestRun(left) => if a.on then a.(bank := left) else a
  }

  function Step(s: Lbr, op: Op, nested: bool, lbrv: bool, reserved: bv64): Lbr {
    match op
    case Write(data) => AfterWrite(s, data, nested, lbrv, reserved).0
    case Update => AfterUpdate(s, nested)
    case GuestRun(left) => AfterGuestRun(s, left)
  }

  function Run(s: Lbr, ops: seq<Op>, nested: bool, lbrv: bool, reserved: bv64): Lbr {
    if ops == [] then s else Step(Run(s, ops[..|ops| - 1], nested, lbrv, reserved), ops[|ops| - 1], nested, lbrv, reserved)
  }

  function SingleRun(a: Single, ops: seq<Op>, inGuest: bool, nested: bool, lbrv: bool, reserved: bv64): Single {
    if ops == [] then a
    else SingleStep(SingleRun(a, ops[..|ops| - 1], inGuest, nested, lbrv, reserved), ops[|ops| - 1],
                    inGuest, nested, lbrv, reserved)
  }

  function Seen(s: Lbr): Single { Single(Home(s), Current(s).on) }

  lemma StepActsOnOneBank(s: Lbr, op: Op, nested: bool, lbrv: bool, reserved: bv64)
    ensures var t := Step(s, op, nested, lbrv, reserved);
            && t.inGuest == s.inGuest
            && Seen(t) == SingleStep(Seen(s), op, s.inGuest, nested, lbrv, reserved)
            && (s.passthrough == Current(s).on ==> t.passthrough == Current(t).on)
  {
    hide LbrBit;
  }

  /**
   Two banks act as one.  In any run of DEBUGCTL writes, updates and guest execution, the values
   read are those of a machine with a single bank, and the branch MSRs are passed through exactly
   while the CPU is the one that keeps them.
  */
  lemma {:induction false} TwoBanksActAsOne(s: Lbr, ops: seq<Op>, nested: bool, lbrv: bool, reserved: bv64)
    requires s.passthrough == Current(s).on
    ensures var t := Run(s, ops, nested, lbrv, reserved);
            && t.inGuest == s.inGuest
            && Seen(t) == SingleRun(Seen(s), ops, s.inGuest, nested, lbrv, reserved)
            && t.passthrough == Current(t).on
  {
    hide Step, SingleStep, Seen, Current;
    if ops != [] {
      TwoBanksActAsOne(s, ops[..|ops| - 1], nested, lbrv, reserved);
      StepActsOnOneBank(Run(s, ops[..|ops| - 1], nested, lbrv, reserved), ops[|ops| - 1], nested, lbrv, reserved);
    }
  }

  // ---------------------------------------------------------------- in place

  class Vmcb {
    var bank: Bank
    var lbrEnable: bool       // LBR_CTL_ENABLE_MASK of virt_ext
    var lbrClean: bool        // VMCB_LBR of the clean bits

    ghost function View(): Half
      reads this
    {
      Half(bank, lbrEnable, lbrClean)
    }

    constructor ()
      ensures View() == Half(Bank(0, 0, 0, 0, 0), false, false)
    {
      bank, lbrEnable, lbrClean := Bank(0, 0, 0, 0, 0), false, false;
    }

    /** svm_copy_lbrs. */
    method CopyLbrs(from: Vmcb)
      modifies this
      ensures View() == old(View()).(bank := old(from.bank), clean := false)
    {
      bank := from.bank;
      lbrClean := false;
    }
  }

  class VcpuSvm {
    const vmcb01: Vmcb
    const vmcb02: Vmcb
    var vmcb: Vmcb
    var nestedLbr: bool       // L1 may use LBRV and set it in its own control area
    var passthrough: bool

    predicate GuestMode()
      reads this
    {
      vmcb == vmcb02
    }

    ghost predicate Valid()
      reads this
    {
      vmcb01 != vmcb02 && (vmcb == vmcb01 || vmcb == vmcb02)
    }

    ghost function View(): Lbr
      reads this, vmcb01, vmcb02
    {
      Lbr(vmcb01.View(), vmcb02.View(), GuestMode(), passthrough)
    }

    constructor ()
      ensures Valid() && fresh(vmcb01) && fresh(vmcb02) && !GuestMode()
      ensures View().passthrough == Current(View()).on
    {
      var first := new Vmcb();
      vmcb01, vmcb := first, first;
      vmcb02 := new Vmcb();
      nestedLbr, passthrough := false, false;
    }

    method EnableLbrv()
      requires Valid()
      modifies this`passthrough, vmcb01, vmcb02
      ensures Valid() && View() == Enabled(old(View()))
    {
      vmcb.lbrEnable := true;
      passthrough := true;
      if GuestMode() {
        vmcb.CopyLbrs(vmcb01);
      }
    }

    method DisableLbrv()
      requires Valid()
      modifies this`passthrough, vmcb01, vmcb02
      ensures Valid() && View() == Disabled(old(View()))
    {
      vmcb.lbrEnable := false;
      passthrough := false;
      if GuestMode() {
        vmcb01.CopyLbrs(vmcb);
      }
    }

    function LbrVmcb(): (v: Vmcb)
      requires Valid()
      reads this, vmcb
      ensures v == vmcb01 || v == vmcb02
    {
      if vmcb.lbrEnable then vmcb else vmcb01
    }

    method UpdateLbrv()
      requires Valid()
      modifies this`passthrough, vmcb01, vmcb02
      ensures Valid() && View() == AfterUpdate(old(View()), nestedLbr)
    {
      var currentEnable := vmcb.lbrEnable;
      var enable := LbrBit(LbrVmcb().bank.dbgctl) || (GuestMode() && nestedLbr);
      if enable == currentEnable {
        return;
      }
      if enable {
        EnableLbrv();
      } else {
        DisableLbrv();
      }
    }

    /** The DEBUGCTL case of svm_set_msr. */
    method WriteDebugCtl(data: bv64, lbrv: bool, reserved: bv64) returns (ok: bool)
      requires Valid()
      modifies this`passthrough, vmcb01, vmcb02
      ensures Valid() && (View(), ok) == AfterWrite(old(View()), data, nestedLbr, lbrv, reserved)
      ensures ok <==> !lbrv || data & reserved == 0
      ensures !ok || !lbrv ==> View() == old(View())
    {
      hide AfterUpdate, LbrBit;
      if !lbrv {
        return true;
      }
      if data & reserved != 0 {
        return false;
      }
      var home := LbrVmcb();
      home.bank := home.bank.(dbgctl := data);
      UpdateLbrv();
      return true;
    }

    /** The LBR cases of svm_get_msr. */
    method ReadLbrMsr(msr: Msr) returns (data: bv64)
      requires Valid()
      ensures data == ReadMsr(View(), msr)
      ensures var bank := if vmcb.lbrEnable then vmcb.bank else vmcb01.bank;
        (msr == DebugCtl ==> data == bank.dbgctl) && (msr == LastBranchFrom ==> data == bank.brFrom) &&
        (msr == LastBranchTo ==> data == bank.brTo) && (msr == LastIntFrom ==> data == bank.lastExcpFrom) &&
        (msr == LastIntTo ==> data == bank.lastExcpTo)
    {
      data := BankRead(LbrVmcb().bank, msr);
    }
  }
}
