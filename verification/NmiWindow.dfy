/**
 NMI masking without vNMI (svm.c): KVM intercepts IRET to learn when the guest leaves its NMI
 handler, and svm_enable_nmi_window returns early when it relies on that intercept.

 The model is for a vCPU outside SEV-ES and guest mode.  A shutdown exit is kept out of the runs
 and treated on its own, because it breaks the invariant.
*/
module NmiWindow {

  /** trap is the single-step that svm_enable_nmi_window falls back on. */
  datatype Nmi = Nmi(masked: bool, awaiting: bool, iretRip: nat, rip: nat,
                     iretIntercept: bool, stgiIntercept: bool, gif: bool, trap: bool)

  // ---------------------------------------------------------------- the operations

  /** svm_inject_nmi. */
  function AfterInject(s: Nmi): Nmi { s.(masked := true, iretIntercept := true) }

  /** iret_interception. */
  function AfterIretExit(s: Nmi): Nmi { s.(awaiting := true, iretIntercept := false, iretRip := s.rip) }

  /** The part of svm_complete_interrupts that tracks NMIs; it runs on every exit. */
  function AfterComplete(s: Nmi): Nmi {
    if s.awaiting && s.rip != s.iretRip then s.(awaiting := false, masked := false) else s
  }

  /** svm_set_nmi_mask: from userspace, or for an IRET that KVM emulates. */
  function AfterSetMask(s: Nmi, masked: bool): Nmi { s.(masked := masked, iretIntercept := masked) }

  /** svm_enable_nmi_window. */
  function AfterEnableWindow(s: Nmi, vgif: bool): Nmi {
    if s.masked && !s.awaiting then s
    else if !s.gif then s.(stgiIntercept := vgif || s.stgiIntercept)
    else s.(trap := true)
  }

  /** svm_set_gif. */
  function AfterSetGif(s: Nmi, value: bool, vgif: bool): Nmi {
    s.(gif := value, stgiIntercept := if value && vgif then false else s.stgiIntercept)
  }

  /** db_interception for the NMI single-step. */
  function AfterDebugExit(s: Nmi): Nmi { s.(trap := false) }

  /** The reset of the vCPU: init_vmcb, then the two flags unless this is an INIT. */
  function AfterReset(s: Nmi, initEvent: bool, vgif: bool): Nmi {
    var t := s.(stgiIntercept := !vgif, gif := true, rip := 0xfff0);
    if initEvent then t else t.(masked := false, awaiting := false)
  }

  /** shutdown_interception: the VMCB page is cleared, with every intercept in it, then INIT. */
  function AfterShutdown(s: Nmi, vgif: bool): Nmi {
    AfterReset(s.(iretIntercept := false, stgiIntercept := false, rip := 0), true, vgif)
  }

  /** What the guest can do without an exit; with vGIF it may change GIF unless STGI is intercepted. */
  predicate GuestMay(s: Nmi, rip: nat, gif: bool, vgif: bool) {
    gif == s.gif || (vgif && (gif ==> !s.stgiIntercept))
  }

  // ---------------------------------------------------------------- runs

  datatype Step =
    | Inject
    | IretExit
    | Complete
    | SetMask(masked: bool)
    | EnableWindow
    | SetGif(value: bool)
    | DebugExit
    | Reset(initEvent: bool)
    | Guest(rip: nat, gif: bool)

  predicate MayStep(s: Nmi, step: Step, vgif: bool) {
    match step
    case IretExit => s.iretIntercept
    case DebugExit => s.trap
    case Guest(rip, gif) => GuestMay(s, rip, gif, vgif)
    case _ => true
  }

  function After(s: Nmi, step: Step, vgif: bool): Nmi {
    match step
    case Inject => AfterInject(s)
    case IretExit => AfterIretExit(s)
    case Complete => AfterComplete(s)
    case SetMask(masked) => AfterSetMask(s, masked)
    case EnableWindow => AfterEnableWindow(s, vgif)
    case SetGif(value) => AfterSetGif(s, value, vgif)
    case DebugExit => AfterDebugExit(s)
    case Reset(initEvent) => AfterReset(s, initEvent, vgif)
    case Guest(rip, gif) => s.(rip := rip, gif := gif)
  }

  function Run(s: Nmi, steps: seq<Step>, vgif: bool): Nmi {
    if steps == [] then s else After(Run(s, steps[..|steps| - 1], vgif), steps[|steps| - 1], vgif)
  }

  predicate Legal(s: Nmi, steps: seq<Step>, vgif: bool) {
    steps == [] ||
    (Legal(s, steps[..|steps| - 1], vgif) && MayStep(Run(s, steps[..|steps| - 1], vgif), steps[|steps| - 1], vgif))
  }

  /** A VMCB page as allocated, before the first reset. */
  function Created(): Nmi { Nmi(false, false, 0, 0, false, false, false, false) }

  ghost predicate Reachable(s: Nmi, vgif: bool) {
    exists steps :: Legal(Start(vgif), steps, vgif) && s == Run(Start(vgif), steps, vgif)
  }

  function Start(vgif: bool): Nmi { AfterReset(Created(), false, vgif) }

  // ---------------------------------------------------------------- the invariant

  predicate Inv(s: Nmi, vgif: bool) {
    (s.masked && !s.awaiting ==> s.iretIntercept) && (!vgif ==> s.stgiIntercept)
  }

  lemma {:induction false} RunsKeepInv(s: Nmi, steps: seq<Step>, vgif: bool)
    requires Inv(s, vgif)
    ensures Inv(Run(s, steps, vgif), vgif)
  {
    hide Inv, After;
    if steps != [] {
      RunsKeepInv(s, steps[..|steps| - 1], vgif);
      StepKeepsInv(Run(s, steps[..|steps| - 1], vgif), steps[|steps| - 1], vgif);
    }
  }

  lemma StepKeepsInv(s: Nmi, step: Step, vgif: bool)
    requires Inv(s, vgif)
    ensures Inv(After(s, step, vgif), vgif)
  {
  }

  /** "IRET will cause a vm exit": masked and not awaiting an IRET, IRET is intercepted in every reachable state. */
  lemma MaskedMeansIretExits(s: Nmi, vgif: bool)
    requires Reachable(s, vgif)
    ensures s.masked && !s.awaiting ==> s.iretIntercept
  {
    var steps :| Legal(Start(vgif), steps, vgif) && s == Run(Start(vgif), steps, vgif);
    RunsKeepInv(Start(vgif), steps, vgif);
  }

  /** Some exit is certain to come before an NMI could be taken: IRET, STGI or the single-step. */
  predicate WindowArmed(s: Nmi) {
    (s.masked && !s.awaiting && s.iretIntercept) || (!s.gif && s.stgiIntercept) || s.trap
  }

  /**
   In every reachable state, once a window is requested it stays armed however long the guest runs
   without exiting; so no return from svm_enable_nmi_window leaves a pending NMI waiting for nothing.
  */
  lemma {:induction false} WindowIsNeverMissed(s: Nmi, guest: seq<Step>, vgif: bool)
    requires Reachable(s, vgif)
    requires forall i :: 0 <= i < |guest| ==> guest[i].Guest?
    requires Legal(AfterEnableWindow(s, vgif), guest, vgif)
    ensures WindowArmed(Run(AfterEnableWindow(s, vgif), guest, vgif))
  {
    if guest == [] {
      var steps :| Legal(Start(vgif), steps, vgif) && s == Run(Start(vgif), steps, vgif);
      RunsKeepInv(Start(vgif), steps, vgif);
    } else {
      WindowIsNeverMissed(s, guest[..|guest| - 1], vgif);
    }
  }

  /** Requesting a window leaves it armed exactly when the invariant's first half holds and STGI exits if GIF is clear. */
  lemma WindowArmedIff(s: Nmi, vgif: bool)
    requires !s.trap && (s.gif || vgif || s.stgiIntercept)
    ensures WindowArmed(AfterEnableWindow(s, vgif)) <==>
            (s.masked && !s.awaiting ==> s.iretIntercept || (!s.gif && s.stgiIntercept))
  {
  }

  // ---------------------------------------------------------------- shutdown

  /** INIT after a shutdown forgets the intercept but not the mask. */
  lemma ShutdownKeepsInvIff(s: Nmi, vgif: bool)
    requires Inv(s, vgif)
    ensures Inv(AfterShutdown(s, vgif), vgif) <==> !(s.masked && !s.awaiting)
  {
  }

  /** A shutdown inside an NMI handler: the window requested next is never armed. */
  lemma ShutdownLosesTheWindow(vgif: bool)
    ensures var s := Run(Start(vgif), [Inject], vgif);
            && Legal(Start(vgif), [Inject], vgif)
            && AfterEnableWindow(AfterShutdown(s, vgif), vgif) == AfterShutdown(s, vgif)
            && !WindowArmed(AfterShutdown(s, vgif))
  {
    assert [Inject][..0] == [];
  }

  // ---------------------------------------------------------------- how long an NMI stays masked

  /** Whether the step can end an NMI handler: an IRET that exits, a write of the mask, a reset. */
  predicate MayUnmask(step: Step) { step.IretExit? || step.SetMask? || (step.Reset? && !step.initEvent) }

  /**
   An NMI injected while no IRET is awaited stays masked, with IRET intercepted, over every
   sequence of guest execution, completions at any RIP, further injections, window requests, GIF
   changes and INITs, until an IRET exits, the mask is written or the vCPU is reset.
  */
  lemma {:induction false} InjectedNmiStaysMasked(s: Nmi, steps: seq<Step>, vgif: bool)
    requires !s.awaiting
    requires forall i :: 0 <= i < |steps| ==> !MayUnmask(steps[i])
    ensures var t := Run(AfterInject(s), steps, vgif); t.masked && !t.awaiting && t.iretIntercept
  {
    if steps != [] {
      InjectedNmiStaysMasked(s, steps[..|steps| - 1], vgif);
      assert !MayUnmask(steps[|steps| - 1]);
    }
  }

  /** Where the guest is after the steps. */
  function RipAfter(rip: nat, steps: seq<Step>): nat {
    if steps == [] then rip
    else if steps[|steps| - 1].Guest? then steps[|steps| - 1].rip
    else RipAfter(rip, steps[..|steps| - 1])
  }

  /** Some exit found the guest away from the IRET at rip. */
  ghost predicate SeenPast(rip: nat, steps: seq<Step>) {
    exists i :: 0 <= i < |steps| && steps[i].Complete? && RipAfter(rip, steps[..i]) != rip
  }

  predicate GuestOrComplete(step: Step) { step.Guest? || step.Complete? }

  /**
   An IRET that exits unmasks NMIs once it has executed: over any guest execution and completions,
   the mask is dropped, and the vCPU stops awaiting, exactly when some exit has found RIP elsewhere.
  */
  lemma {:induction false} IretUnmasksOncePast(s: Nmi, steps: seq<Step>, vgif: bool)
    requires forall i :: 0 <= i < |steps| ==> GuestOrComplete(steps[i])
    ensures var t := Run(AfterIretExit(s), steps, vgif);
            && t.rip == RipAfter(s.rip, steps)
            && (t.awaiting <==> !SeenPast(s.rip, steps))
            && (t.masked <==> s.masked && !SeenPast(s.rip, steps))
            && (t.awaiting ==> t.iretRip == s.rip)
            && !t.iretIntercept
  {
    if steps != [] {
      var before, last := steps[..|steps| - 1], steps[|steps| - 1];
      IretUnmasksOncePast(s, before, vgif);
      SeenPastStep(s.rip, before, last);
      assert steps == before + [last];
      assert GuestOrComplete(last);
    }
  }

  lemma SeenPastStep(rip: nat, before: seq<Step>, last: Step)
    ensures SeenPast(rip, before + [last]) <==>
            SeenPast(rip, before) || (last.Complete? && RipAfter(rip, before) != rip)
  {
    var all := before + [last];
    assert all[..|before|] == before && all[|before|] == last;
    assert forall i :: 0 <= i < |before| ==> all[..i] == before[..i] && all[i] == before[i];
    if SeenPast(rip, before) {
      var i :| 0 <= i < |before| && before[i].Complete? && RipAfter(rip, before[..i]) != rip;
      assert all[i].Complete? && RipAfter(rip, all[..i]) != rip;
    }
  }

  /** The window request: an intercepted IRET is waited for, then STGI if vGIF can see it, then the single-step. */
  lemma WindowExits(s: Nmi, vgif: bool)
    ensures var t := AfterEnableWindow(s, vgif);
            && (t.trap <==> s.trap || (s.gif && (s.masked ==> s.awaiting)))
            && (t.stgiIntercept <==> s.stgiIntercept || (vgif && !s.gif && (s.masked ==> s.awaiting)))
            && t.masked == s.masked && t.awaiting == s.awaiting && t.iretIntercept == s.iretIntercept
            && t.rip == s.rip && t.iretRip == s.iretRip && t.gif == s.gif
  {
  }

  // ---------------------------------------------------------------- unmasking too early

  /** An NMI just injected is still masked after the next exit unless an older IRET is being awaited elsewhere. */
  lemma InjectedNmiStaysMaskedIff(s: Nmi, rip: nat, gif: bool)
    ensures AfterComplete(AfterInject(s).(rip := rip, gif := gif)).masked <==> !s.awaiting || rip == s.iretRip
  {
  }

  /**
   A concrete run to such a state: IRET is intercepted at 0x10, KVM emulates it and unmasks, a new
   NMI is injected, and at the first exit inside its handler the mask is dropped again.
  */
  lemma EmulatedIretUnmasksEarly(vgif: bool)
    ensures var steps := [Inject, Guest(0x10, true), IretExit, SetMask(false), Inject];
            && Legal(Start(vgif), steps, vgif) && Run(Start(vgif), steps, vgif).masked
            && !AfterComplete(Run(Start(vgif), steps, vgif).(rip := 0x200)).masked
  {
    var steps := [Inject, Guest(0x10, true), IretExit, SetMask(false), Inject];
    var s0 := Start(vgif);
    var s1 := AfterInject(s0);
    var s2 := s1.(rip := 0x10, gif := true);
    assert steps[..4][..3] == steps[..3] && steps[..3][..2] == steps[..2] && steps[..2][..1] == steps[..1];
    assert steps[..1][..0] == [];
    assert Run(s0, steps[..1], vgif) == s1 && Legal(s0, steps[..1], vgif);
    assert Run(s0, steps[..2], vgif) == s2 && Legal(s0, steps[..2], vgif);
    assert Run(s0, steps[..3], vgif) == AfterIretExit(s2) && Legal(s0, steps[..3], vgif);
    assert Run(s0, steps[..4], vgif) == AfterSetMask(AfterIretExit(s2), false) && Legal(s0, steps[..4], vgif);
  }

  // ---------------------------------------------------------------- in place

  /** The parts of the VMCB page that matter here. */
  class Vmcb {
    var iretIntercept: bool
    var stgiIntercept: bool
    var rip: nat

    constructor ()
      ensures !iretIntercept && !stgiIntercept && rip == 0
    {
      iretIntercept, stgiIntercept, rip := false, false, 0;
    }

    method ClearPage()
      modifies this
      ensures !iretIntercept && !stgiIntercept && rip == 0
    {
      iretIntercept, stgiIntercept, rip := false, false, 0;
    }
  }

  class VcpuSvm {
    const vgif: bool
    const vmcb: Vmcb
    var nmiMasked: bool
    var awaitingIretCompletion: bool
    var nmiIretRip: nat
    var nmiSinglestep: bool
    var gif: bool

    ghost function View(): Nmi
      reads this, vmcb
    {
      Nmi(nmiMasked, awaitingIretCompletion, nmiIretRip, vmcb.rip,
          vmcb.iretIntercept, vmcb.stgiIntercept, gif, nmiSinglestep)
    }

    constructor (vgif: bool)
      ensures View() == Start(vgif) && this.vgif == vgif && fresh(vmcb)
    {
      this.vgif := vgif;
      vmcb := new Vmcb();
      nmiMasked, awaitingIretCompletion, nmiIretRip, nmiSinglestep, gif := false, false, 0, false, false;
      new;
      VcpuReset(false);
    }

    method InjectNmi()
      modifies this, vmcb
      ensures View() == AfterInject(old(View()))
      ensures nmiMasked && vmcb.iretIntercept && awaitingIretCompletion == old(awaitingIretCompletion)
    {
      nmiMasked := true;
      vmcb.iretIntercept := true;
    }

    method IretInterception()
      modifies this, vmcb
      ensures View() == AfterIretExit(old(View()))
      ensures awaitingIretCompletion && !vmcb.iretIntercept && nmiIretRip == vmcb.rip == old(vmcb.rip)
      ensures nmiMasked == old(nmiMasked)
    {
      awaitingIretCompletion := true;
      vmcb.iretIntercept := false;
      nmiIretRip := vmcb.rip;
    }

    method CompleteInterrupts()
      modifies this
      ensures View() == AfterComplete(old(View()))
      ensures old(awaitingIretCompletion && vmcb.rip != nmiIretRip) ==> !nmiMasked && !awaitingIretCompletion
      ensures !old(awaitingIretCompletion && vmcb.rip != nmiIretRip) ==>
        nmiMasked == old(nmiMasked) && awaitingIretCompletion == old(awaitingIretCompletion)
    {
      if awaitingIretCompletion && vmcb.rip != nmiIretRip {
        awaitingIretCompletion := false;
        nmiMasked := false;
      }
    }

    method SetNmiMask(masked: bool)
      modifies this, vmcb
      ensures View() == AfterSetMask(old(View()), masked)
      ensures nmiMasked == vmcb.iretIntercept == masked && awaitingIretCompletion == old(awaitingIretCompletion)
    {
      nmiMasked := masked;
      if masked {
        vmcb.iretIntercept := true;
      } else {
        vmcb.iretIntercept := false;
      }
    }

    method EnableNmiWindow()
      modifies this, vmcb
      ensures View() == AfterEnableWindow(old(View()), vgif)
      ensures nmiSinglestep <==> old(nmiSinglestep) || (gif && (nmiMasked ==> awaitingIretCompletion))
      ensures vmcb.stgiIntercept <==> old(vmcb.stgiIntercept) || (vgif && !gif && (nmiMasked ==> awaitingIretCompletion))
    {
      if nmiMasked {
        if !awaitingIretCompletion {
          return;
        }
      }
      if !gif {
        if vgif {
          vmcb.stgiIntercept := true;
        }
        return;
      }
      nmiSinglestep := true;
    }

    method SetGif(value: bool)
      modifies this, vmcb
      ensures View() == AfterSetGif(old(View()), value, vgif)
      ensures gif == value && vmcb.stgiIntercept == (old(vmcb.stgiIntercept) && !(value && vgif))
    {
      if value {
        if vgif {
          vmcb.stgiIntercept := false;
        }
        gif := true;
      } else {
        gif := false;
      }
    }

    method DbInterception()
      modifies this
      ensures View() == AfterDebugExit(old(View()))
      ensures !nmiSinglestep
    {
      if nmiSinglestep {
        nmiSinglestep := false;
      }
    }

    method VcpuReset(initEvent: bool)
      modifies this, vmcb
      ensures View() == AfterReset(old(View()), initEvent, vgif)
      ensures gif && vmcb.stgiIntercept == !vgif && vmcb.rip == 0xfff0 && vmcb.iretIntercept == old(vmcb.iretIntercept)
      ensures nmiMasked == (initEvent && old(nmiMasked))
      ensures awaitingIretCompletion == (initEvent && old(awaitingIretCompletion))
    {
      vmcb.stgiIntercept := true;
      if vgif {
        vmcb.stgiIntercept := false;
      }
      gif := true;
      if !initEvent {
        nmiMasked := false;
        awaitingIretCompletion := false;
      }
      vmcb.rip := 0xfff0;
    }

    method ShutdownInterception()
      modifies this, vmcb
      ensures View() == AfterShutdown(old(View()), vgif)
      ensures !vmcb.iretIntercept && nmiMasked == old(nmiMasked) && awaitingIretCompletion == old(awaitingIretCompletion)
    {
      vmcb.ClearPage();
      VcpuReset(true);
    }
  }
}
