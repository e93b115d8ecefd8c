/**
 CR4.VME and its read shadow (vmx.c): outside virtual-8086 mode they always agree, so the mode
 switch always gives CR4 back.

 CR4.VME is owned by the host, so the guest changes it through vmx_set_cr4 only.
*/
module Cr4Shadow {
  import opened SegmentView

  /** The writers of GUEST_CR4 and CR4_READ_SHADOW; SetCr0 is there for the mode switch it makes. */
  datatype Op =
    | SetCr4(cr4: bv64, env: Cr4Env)
    | SetCr0(pe: bool)
    | Guest(cr4: bv64)                     // the guest writes bits of its own
    | VcpuReset(env: Cr4Env)               // vmx_vcpu_reset, then CR0 and CR4 set to their reset values

  predicate OpOk(r: Regs, op: Op) {
    op.Guest? ==> op.cr4 & CR4_VME == r.cr4 & CR4_VME
  }

  /** The mode switch in vmx_set_cr0. */
  function AfterSetCr0(r: Regs, pe: bool, cfg: Config): Regs
    requires WellFormed(r)
  {
    if cfg.unrestricted then r
    else
      var t := if r.vm86 && pe then AfterEnterPmode(r, cfg) else r;
      if !t.vm86 && !pe then AfterEnterRmode(t, cfg) else t
  }

  function After(r: Regs, op: Op, cfg: Config): (t: Regs)
    requires WellFormed(r)
    ensures WellFormed(t)
  {
    match op
    case SetCr4(cr4, env) => AfterSetCr4(r, cr4, cfg, env)
    case SetCr0(pe) => AfterSetCr0(r, pe, cfg)
    case Guest(cr4) => r.(cr4 := cr4)
    case VcpuReset(env) => AfterSetCr4(AfterSetCr0(r.(vm86 := false), false, cfg), 0, cfg, env)
  }

  function Run(r: Regs, ops: seq<Op>, cfg: Config): (t: Regs)
    requires WellFormed(r)
    ensures WellFormed(t)
  {
    if ops == [] then r else After(Run(r, ops[..|ops| - 1], cfg), ops[|ops| - 1], cfg)
  }

  predicate Legal(r: Regs, ops: seq<Op>, cfg: Config)
    requires WellFormed(r)
  {
    ops == [] ||
    (Legal(r, ops[..|ops| - 1], cfg) && OpOk(Run(r, ops[..|ops| - 1], cfg), ops[|ops| - 1]))
  }

  predicate Inv(r: Regs) { !r.vm86 ==> VmeShadowed(r.cr4, r.cr4Shadow) }

  lemma HwCr4KeepsVme(cr4: bv64, unrestricted: bool, env: Cr4Env)
    ensures VmeShadowed(HwCr4(cr4, false, unrestricted, env), cr4)
  {
  }

  lemma PmodeCr4IsShadowed(cr4: bv64, shadow: bv64)
    ensures VmeShadowed(PmodeCr4(cr4, shadow), shadow)
  {
  }

  lemma SwitchKeepsInv(r: Regs, pe: bool, cfg: Config)
    requires WellFormed(r) && Inv(r)
    ensures Inv(AfterSetCr0(r, pe, cfg))
  {
    PmodeCr4IsShadowed(r.cr4, r.cr4Shadow);
    hide VmeShadowed, PmodeCr4, RmodeCr4;
  }

  lemma StepKeepsInv(r: Regs, op: Op, cfg: Config)
    requires WellFormed(r) && Inv(r) && OpOk(r, op)
    ensures Inv(After(r, op, cfg))
  {
    match op
    case SetCr4(cr4, env) => HwCr4KeepsVme(cr4, cfg.unrestricted, env);
    case SetCr0(pe) => SwitchKeepsInv(r, pe, cfg);
    case Guest(cr4) =>
    case VcpuReset(env) => HwCr4KeepsVme(0, cfg.unrestricted, env);
  }

  lemma {:induction false} RunsKeepInv(r: Regs, ops: seq<Op>, cfg: Config)
    requires WellFormed(r) && Inv(r) && Legal(r, ops, cfg)
    ensures Inv(Run(r, ops, cfg))
  {
    hide After, Inv, OpOk;
    if ops != [] {
      RunsKeepInv(r, ops[..|ops| - 1], cfg);
      StepKeepsInv(Run(r, ops[..|ops| - 1], cfg), ops[|ops| - 1], cfg);
    }
  }

  /** In every run, wherever the vCPU is in protected mode, a switch to real mode and back restores CR4. */
  lemma Cr4AlwaysComesBack(r: Regs, ops: seq<Op>, cfg: Config)
    requires WellFormed(r) && Inv(r) && Legal(r, ops, cfg) && !Run(r, ops, cfg).vm86
    ensures var t := Run(r, ops, cfg);
            AfterEnterPmode(AfterEnterRmode(t, cfg), cfg).cr4 == t.cr4
  {
    RunsKeepInv(r, ops, cfg);
    Cr4ComesBack(Run(r, ops, cfg), cfg);
  }
}
