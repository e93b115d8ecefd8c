/**
 Event injection and its cancellation on AMD hardware (svm.c), outside SEV-ES and nesting.

 Functions on a value that holds the fields the source touches; the class at the end updates
 the fields in place and is tied to them.  Exception payloads are not modelled.
*/
module SvmInjection {
  import opened EventWords

  const TYPE_INTR: bv32 := 0x000
  const TYPE_NMI: bv32 := 0x200
  const TYPE_EXEPT: bv32 := 0x300
  const TYPE_SOFT: bv32 := 0x400
  const X86_TRAP_VC: bv8 := 29

  /** nrips: KVM uses NextRIP saving, which needs the CPU to have it. */
  datatype Config = Config(nrips: bool, cpuHasNrips: bool, is64: bool, csBase: bv64, vnmi: bool)

  predicate ConfigOk(cfg: Config) { cfg.nrips ==> cfg.cpuHasNrips }

  /** Outcome of asking the emulator to skip one instruction. */
  datatype Skip = Skip(ok: bool, rip: bv64, rflags: bv64)

  datatype Control = Control(eventInj: bv32, eventInjErr: bv32, exitIntInfo: bv32, exitIntInfoErr: bv32, nextRip: bv64)

  /** soft_int_injected and the snapshot that goes with it. */
  datatype SoftInt = SoftInt(injected: bool, csBase: bv64, oldRip: bv64, nextRip: bv64)

  datatype Nmi = Nmi(injected: bool, masked: bool, awaitingIret: bool, iretRip: bv64, iretIntercepted: bool, l1ToL2: bool)

  datatype Vcpu = Vcpu(
    exc: Exception, irq: Interrupt, nmi: Nmi, ctl: Control, soft: SoftInt,
    rip: bv64, nextRip: bv64, rflags: bv64, intShadow: bool)

  // ---------------------------------------------------------------- skipping the instruction

  /** kvm_get_linear_rip: truncated to 32 bits outside 64-bit mode. */
  function LinearRip(cfg: Config, rip: bv64): bv64 {
    if cfg.is64 then rip else Low32(Plus(rip, cfg.csBase))
  }

  function Plus(a: bv64, b: bv64): bv64 { a + b }

  function Low32(a: bv64): bv64 { a & 0xffff_ffff }

  /** kvm_is_linear_rip for the address target in a code segment at base. */
  predicate IsLinearRip(cfg: Config, rip: bv64, target: bv64, base: bv64) {
    LinearRip(cfg, rip) == Plus(target, base)
  }

  /** The NextRIP that __svm_skip_emulated_instruction will use, or 0. */
  function KnownNextRip(v: Vcpu, cfg: Config): bv64 {
    if cfg.nrips && v.ctl.nextRip != 0 then v.ctl.nextRip else v.nextRip
  }

  predicate CanSkip(v: Vcpu, cfg: Config, emu: Skip) { KnownNextRip(v, cfg) != 0 || emu.ok }

  /** RIP of the instruction after the current one. */
  function RipAfter(v: Vcpu, cfg: Config, emu: Skip): bv64 {
    if KnownNextRip(v, cfg) != 0 then KnownNextRip(v, cfg) else emu.rip
  }

  function AfterSkip(v: Vcpu, cfg: Config, emu: Skip, commit: bool): Vcpu {
    var u := v.(nextRip := KnownNextRip(v, cfg));
    if !CanSkip(v, cfg, emu) then u
    else
      u.(rip := RipAfter(v, cfg, emu),
         rflags := if KnownNextRip(v, cfg) == 0 && commit then emu.rflags else v.rflags,
         intShadow := if commit then false else v.intShadow)
  }

  /** svm_update_soft_interrupt_rip. */
  function AfterSoftRip(v: Vcpu, cfg: Config, emu: Skip): (t: Vcpu)
    ensures t.exc == v.exc && t.irq == v.irq && t.nmi == v.nmi && t.ctl == v.ctl.(nextRip := t.ctl.nextRip)
  {
    var u := AfterSkip(v, cfg, emu, !cfg.nrips);
    if !CanSkip(v, cfg, emu) then u
    else
      u.(soft := SoftInt(true, cfg.csBase, v.rip, u.rip),
         rip := if cfg.nrips then v.rip else u.rip,
         ctl := if cfg.cpuHasNrips then u.ctl.(nextRip := u.rip) else u.ctl)
  }

  // ---------------------------------------------------------------- injection

  function AfterInjectException(v: Vcpu, cfg: Config, emu: Skip): Vcpu {
    var soft := IsSoftException(v.exc.vector);
    var u := if soft then AfterSoftRip(v, cfg, emu) else v;
    if soft && !CanSkip(v, cfg, emu) then u
    else u.(ctl := u.ctl.(eventInj := EventWord(v.exc.vector, TYPE_EXEPT, v.exc.hasError), eventInjErr := v.exc.error))
  }

  function AfterInjectNmi(v: Vcpu, cfg: Config): Vcpu {
    var u := v.(ctl := v.ctl.(eventInj := VALID | TYPE_NMI));
    if v.nmi.l1ToL2 || cfg.vnmi then u
    else u.(nmi := v.nmi.(masked := true, iretIntercepted := true))
  }

  function AfterInjectIrq(v: Vcpu, cfg: Config, emu: Skip): Vcpu {
    var u := if v.irq.soft then AfterSoftRip(v, cfg, emu) else v;
    if v.irq.soft && !CanSkip(v, cfg, emu) then u
    else u.(ctl := u.ctl.(eventInj := EventWord(v.irq.nr, if v.irq.soft then TYPE_SOFT else TYPE_INTR, false)))
  }

  // ---------------------------------------------------------------- completion and cancellation

  function AfterCompleteSoft(v: Vcpu, cfg: Config, vector: bv8, typ: bv32): (t: Vcpu)
    ensures t == v.(ctl := v.ctl.(nextRip := t.ctl.nextRip), rip := t.rip)
  {
    var isException, isSoft := typ == TYPE_EXEPT, typ == TYPE_SOFT;
    if cfg.nrips && (isSoft || (isException && IsSoftException(vector))) &&
       IsLinearRip(cfg, v.rip, v.soft.oldRip, v.soft.csBase)
    then v.(ctl := v.ctl.(nextRip := v.soft.nextRip))
    else if !cfg.nrips && (isSoft || isException) && IsLinearRip(cfg, v.rip, v.soft.nextRip, v.soft.csBase)
    then v.(rip := v.soft.oldRip)
    else v
  }

  /** The queues emptied, and NMIs unmasked if an IRET has completed. */
  function AfterClear(v: Vcpu): Vcpu {
    var nmi := if v.nmi.awaitingIret && v.rip != v.nmi.iretRip
               then v.nmi.(awaitingIret := false, masked := false) else v.nmi;
    v.(soft := v.soft.(injected := false), nmi := nmi.(injected := false, l1ToL2 := false),
       exc := v.exc.(pending := false, injected := false), irq := v.irq.(injected := false))
  }

  /** The event of word info queued again. */
  function AfterRequeue(v: Vcpu, info: bv32, error: bv32, l1ToL2: bool): Vcpu {
    var vector, typ := VectorOf(info), TypeOf(info);
    if typ == TYPE_NMI then v.(nmi := v.nmi.(injected := true, l1ToL2 := l1ToL2))
    else if typ == TYPE_EXEPT then
      if vector == X86_TRAP_VC then v
      else v.(exc := Exception(false, true, vector, HasError(info), if HasError(info) then error else 0))
    else if typ == TYPE_INTR then v.(irq := Interrupt(true, false, vector))
    else if typ == TYPE_SOFT then v.(irq := Interrupt(true, true, vector))
    else v
  }

  function AfterCompleteInterrupts(v: Vcpu, cfg: Config): Vcpu {
    var info, u := v.ctl.exitIntInfo, AfterClear(v);
    if !IsValid(info) then u
    else
      var w := if v.soft.injected then AfterCompleteSoft(u, cfg, VectorOf(info), TypeOf(info)) else u;
      AfterRequeue(w, info, v.ctl.exitIntInfoErr, v.nmi.l1ToL2)
  }

  function AfterCancel(v: Vcpu, cfg: Config): Vcpu {
    AfterCompleteInterrupts(
      v.(ctl := v.ctl.(exitIntInfo := v.ctl.eventInj, exitIntInfoErr := v.ctl.eventInjErr, eventInj := 0)), cfg)
  }

  // ---------------------------------------------------------------- one call

  /**
   Where a skip lands: on the VMCB's NextRIP under NRIPS, else on the NextRIP remembered, else where
   the emulator says; only a committed skip ends the interrupt shadow or takes the emulator's flags.
  */
  lemma SkipLands(v: Vcpu, cfg: Config, emu: Skip, commit: bool)
    ensures var t := AfterSkip(v, cfg, emu, commit);
            && (CanSkip(v, cfg, emu) <==> (cfg.nrips && v.ctl.nextRip != 0) || v.nextRip != 0 || emu.ok)
            && (CanSkip(v, cfg, emu) ==> t.rip == RipAfter(v, cfg, emu))
            && (!CanSkip(v, cfg, emu) ==> t == v)
    ensures var t := AfterSkip(v, cfg, emu, commit);
            if cfg.nrips && v.ctl.nextRip != 0 then t.rip == t.nextRip == v.ctl.nextRip && t.rflags == v.rflags
            else if v.nextRip != 0 then t.rip == t.nextRip == v.nextRip && t.rflags == v.rflags
            else if emu.ok then t.rip == emu.rip && t.nextRip == 0 && t.rflags == (if commit then emu.rflags else v.rflags)
            else true
    ensures var t := AfterSkip(v, cfg, emu, commit);
            && (CanSkip(v, cfg, emu) ==> t.intShadow == (v.intShadow && !commit))
            && t.ctl == v.ctl && t.soft == v.soft && t.exc == v.exc && t.irq == v.irq && t.nmi == v.nmi
  {
  }

  /**
   A soft event as the CPU gets it.  Under NRIPS RIP, flags and interrupt shadow stay put and NextRIP
   points past the instruction; without, the instruction is skipped for good.
  */
  predicate SoftInjected(v: Vcpu, i: Vcpu, cfg: Config, emu: Skip) {
    var next := RipAfter(v, cfg, emu);
    && i.soft == SoftInt(true, cfg.csBase, v.rip, next)
    && i.ctl.nextRip == (if cfg.cpuHasNrips then next else v.ctl.nextRip)
    && (cfg.nrips ==> i.rip == v.rip && i.rflags == v.rflags && i.intShadow == v.intShadow)
    && (!cfg.nrips ==> i.rip == next && !i.intShadow && i.rflags == if v.nextRip != 0 then v.rflags else emu.rflags)
  }

  lemma SoftEventsAreSkipped(v: Vcpu, cfg: Config, emu: Skip)
    requires ConfigOk(cfg) && CanSkip(v, cfg, emu)
    ensures v.exc.vector == 3 || v.exc.vector == 4 ==> SoftInjected(v, AfterInjectException(v, cfg, emu), cfg, emu)
    ensures v.irq.soft ==> SoftInjected(v, AfterInjectIrq(v, cfg, emu), cfg, emu)
  {
    hide EventWord;
  }

  /**
   What the CPU is asked to deliver: type 3 for an exception, with its error code, 0 or 4 for a hard or
   soft interrupt, 2 for an NMI; and an NMI of this level is masked from then on, with IRET intercepted.
  */
  lemma ControlSaysTheEvent(v: Vcpu, cfg: Config, emu: Skip)
    ensures (v.exc.vector == 3 || v.exc.vector == 4 ==> CanSkip(v, cfg, emu)) ==>
            var c := AfterInjectException(v, cfg, emu).ctl;
            IsEvent(c.eventInj, v.exc.vector, 0x300, v.exc.hasError) && c.eventInjErr == v.exc.error
    ensures (v.irq.soft ==> CanSkip(v, cfg, emu)) ==>
            IsEvent(AfterInjectIrq(v, cfg, emu).ctl.eventInj, v.irq.nr, if v.irq.soft then 0x400 else 0, false)
    ensures var t := AfterInjectNmi(v, cfg);
            && IsEvent(t.ctl.eventInj, 0, 0x200, false)
            && t.nmi == if v.nmi.l1ToL2 || cfg.vnmi then v.nmi else v.nmi.(masked := true, iretIntercepted := true)
  {
    EventWordLayout(v.exc.vector, 0x300, v.exc.hasError);
    EventWordLayout(v.irq.nr, 0x400, false);
    EventWordLayout(v.irq.nr, 0, false);
    EventWordLayout(0, 0x200, false);
    NmiWord();
    hide EventWord, IsEvent, AfterSoftRip;
  }

  lemma NmiWord()
    ensures VALID | TYPE_NMI == EventWord(0, TYPE_NMI, false)
  {
  }

  /**
   Every exit empties the queues but for the event it interrupted, forgets the soft-event snapshot
   and unmasks NMIs once RIP is past an awaited IRET; the L1 mark survives only with its NMI.
  */
  lemma CompletionClears(v: Vcpu, cfg: Config)
    ensures var t := AfterCompleteInterrupts(v, cfg); var past := v.nmi.awaitingIret && v.rip != v.nmi.iretRip;
            && !t.soft.injected && !t.exc.pending
            && t.nmi.awaitingIret == (v.nmi.awaitingIret && !past) && t.nmi.masked == (v.nmi.masked && !past)
            && t.nmi.l1ToL2 == (t.nmi.injected && v.nmi.l1ToL2)
            && !(t.exc.injected && t.irq.injected) && !(t.nmi.injected && (t.exc.injected || t.irq.injected))
            && (!IsValid(v.ctl.exitIntInfo) ==> NothingQueued(t))
  {
    hide AfterCompleteSoft, VectorOf, TypeOf, IsValid, HasError, AfterRequeue;
    var u, info := AfterClear(v), v.ctl.exitIntInfo;
    RequeuesOne(u, info, v.ctl.exitIntInfoErr, v.nmi.l1ToL2);
    RequeuesOne(AfterCompleteSoft(u, cfg, VectorOf(info), TypeOf(info)), info, v.ctl.exitIntInfoErr, v.nmi.l1ToL2);
  }

  lemma RequeuesOne(u: Vcpu, info: bv32, error: bv32, l1ToL2: bool)
    requires NothingQueued(u) && !u.nmi.l1ToL2
    ensures var t := AfterRequeue(u, info, error, l1ToL2);
            && t.soft == u.soft && !t.exc.pending
            && t.nmi.awaitingIret == u.nmi.awaitingIret && t.nmi.masked == u.nmi.masked
            && t.nmi.l1ToL2 == (t.nmi.injected && l1ToL2)
            && !(t.exc.injected && t.irq.injected) && !(t.nmi.injected && (t.exc.injected || t.irq.injected))
  {
    hide AfterRequeue;
    OneQueueChanges(u, info, error, l1ToL2);
  }

  lemma OneQueueChanges(u: Vcpu, info: bv32, error: bv32, l1ToL2: bool)
    ensures var t := AfterRequeue(u, info, error, l1ToL2);
            || t == u
            || t == u.(nmi := u.nmi.(injected := true, l1ToL2 := l1ToL2))
            || (t == u.(exc := t.exc) && t.exc.injected && !t.exc.pending)
            || (t == u.(irq := t.irq) && t.irq.injected)
  {
    hide VectorOf, TypeOf, HasError;
  }

  /** Only a soft event, or without NRIPS an exception, moves RIP or NextRIP on its way back. */
  lemma OtherEventsKeepRip(v: Vcpu, cfg: Config)
    requires TypeOf(v.ctl.exitIntInfo) != 0x400
    requires TypeOf(v.ctl.exitIntInfo) == 0x300 ==> cfg.nrips && !IsSoftException(VectorOf(v.ctl.exitIntInfo))
    ensures var t := AfterCompleteInterrupts(v, cfg); t.rip == v.rip && t.ctl == v.ctl
  {
    hide VectorOf, TypeOf, IsValid, HasError, IsLinearRip;
  }

  // ---------------------------------------------------------------- the round trips

  /** Where an event ends up after injection and cancellation. */
  predicate OnlyException(v: Vcpu) { v.exc.injected && !v.exc.pending && !v.irq.injected && !v.nmi.injected && v.ctl.eventInj == 0 }
  predicate OnlyInterrupt(v: Vcpu) { v.irq.injected && !v.exc.injected && !v.exc.pending && !v.nmi.injected && v.ctl.eventInj == 0 }
  predicate OnlyNmi(v: Vcpu) { v.nmi.injected && !v.irq.injected && !v.exc.injected && !v.exc.pending && v.ctl.eventInj == 0 }
  predicate NothingQueued(v: Vcpu) { !v.nmi.injected && !v.irq.injected && !v.exc.injected && !v.exc.pending }

  /** An exception other than #VC comes back with its vector and error code. */
  lemma ExceptionRoundTrip(v: Vcpu, cfg: Config, emu: Skip)
    requires v.exc.vector != X86_TRAP_VC
    requires IsSoftException(v.exc.vector) ==> CanSkip(v, cfg, emu)
    ensures var t := AfterCancel(AfterInjectException(v, cfg, emu), cfg);
            && OnlyException(t)
            && t.exc.vector == v.exc.vector && t.exc.hasError == v.exc.hasError
            && t.exc.error == (if v.exc.hasError then v.exc.error else 0)
  {
    EventWordDecodes(v.exc.vector, TYPE_EXEPT, v.exc.hasError);
    hide AfterSoftRip, AfterCompleteSoft;
    hide EventWord, VectorOf, TypeOf, IsValid, HasError, IsLinearRip;
  }

  /** A #VC is the one exception that is dropped. */
  lemma VcIsDropped(v: Vcpu, cfg: Config, emu: Skip)
    requires v.exc.vector == X86_TRAP_VC
    ensures NothingQueued(AfterCancel(AfterInjectException(v, cfg, emu), cfg))
  {
    EventWordDecodes(v.exc.vector, TYPE_EXEPT, v.exc.hasError);
    var u := AfterInjectException(v, cfg, emu);
    assert u.ctl.eventInj == EventWord(v.exc.vector, TYPE_EXEPT, v.exc.hasError);
    hide AfterSoftRip, AfterCompleteSoft, AfterInjectException;
    hide EventWord, VectorOf, TypeOf, IsValid, HasError, IsLinearRip;
  }

  /** An interrupt comes back with its vector and softness. */
  lemma InterruptRoundTrip(v: Vcpu, cfg: Config, emu: Skip)
    requires v.irq.soft ==> CanSkip(v, cfg, emu)
    ensures var t := AfterCancel(AfterInjectIrq(v, cfg, emu), cfg);
            OnlyInterrupt(t) && t.irq.nr == v.irq.nr && t.irq.soft == v.irq.soft
  {
    EventWordDecodes(v.irq.nr, if v.irq.soft then TYPE_SOFT else TYPE_INTR, false);
    hide AfterSoftRip, AfterCompleteSoft;
    hide EventWord, VectorOf, TypeOf, IsValid, HasError, IsLinearRip;
  }

  /** An NMI comes back, still marked as coming from L1 if it was, with RIP untouched. */
  lemma NmiRoundTrip(v: Vcpu, cfg: Config)
    ensures var t := AfterCancel(AfterInjectNmi(v, cfg), cfg);
            OnlyNmi(t) && t.nmi.l1ToL2 == v.nmi.l1ToL2 && t.rip == v.rip && t.ctl.nextRip == v.ctl.nextRip
  {
    EventWordDecodes(0, TYPE_NMI, false);
    assert VALID | TYPE_NMI == EventWord(0, TYPE_NMI, false);
  }

  /** Hard events leave RIP and NextRIP alone. */
  lemma HardEventsKeepRip(v: Vcpu, cfg: Config, emu: Skip)
    requires !v.soft.injected
    ensures !IsSoftException(v.exc.vector) ==>
              AfterCancel(AfterInjectException(v, cfg, emu), cfg).rip == v.rip
              && AfterCancel(AfterInjectException(v, cfg, emu), cfg).ctl.nextRip == v.ctl.nextRip
    ensures !v.irq.soft ==>
              AfterCancel(AfterInjectIrq(v, cfg, emu), cfg).rip == v.rip
              && AfterCancel(AfterInjectIrq(v, cfg, emu), cfg).ctl.nextRip == v.ctl.nextRip
  {
  }

  /**
   An event whose instruction cannot be skipped is dropped: nothing is queued when nothing else
   was being injected, and RIP is where it was.
  */
  lemma UnskippableIsDropped(v: Vcpu, cfg: Config, emu: Skip)
    requires !CanSkip(v, cfg, emu) && v.ctl.eventInj == 0
    ensures IsSoftException(v.exc.vector) ==>
              NothingQueued(AfterCancel(AfterInjectException(v, cfg, emu), cfg))
              && AfterCancel(AfterInjectException(v, cfg, emu), cfg).rip == v.rip
    ensures v.irq.soft ==>
              NothingQueued(AfterCancel(AfterInjectIrq(v, cfg, emu), cfg))
              && AfterCancel(AfterInjectIrq(v, cfg, emu), cfg).rip == v.rip
  {
    CancelOfNothing(AfterInjectException(v, cfg, emu), cfg);
    CancelOfNothing(AfterInjectIrq(v, cfg, emu), cfg);
    hide AfterCancel, EventWord;
  }

  lemma CancelOfNothing(u: Vcpu, cfg: Config)
    ensures u.ctl.eventInj == 0 ==> NothingQueued(AfterCancel(u, cfg)) && AfterCancel(u, cfg).rip == u.rip
  {
    assert !IsValid(0);
    hide IsValid, AfterCompleteSoft, AfterRequeue;
  }

  /**
   kvm_is_linear_rip recognises base + rip in 64-bit mode only for a zero base, and otherwise only
   when the sum does not exceed 32 bits: it truncates one side of the comparison and not the other.
  */
  predicate LinearRipRecognised(cfg: Config, rip: bv64) {
    if cfg.is64 then cfg.csBase == 0 else FitsIn32(Plus(rip, cfg.csBase))
  }

  predicate FitsIn32(a: bv64) { a <= 0xffff_ffff }

  lemma LinearRipTest(cfg: Config, rip: bv64)
    ensures IsLinearRip(cfg, rip, rip, cfg.csBase) <==> LinearRipRecognised(cfg, rip)
  {
    PlusZero(rip, cfg.csBase);
    Low32Fits(Plus(rip, cfg.csBase));
    hide Plus, Low32, FitsIn32;
  }

  lemma PlusZero(a: bv64, b: bv64)
    ensures a == Plus(a, b) <==> b == 0
  {
  }

  lemma Low32Fits(a: bv64)
    ensures Low32(a) == a <==> FitsIn32(a)
  {
  }

  /** A soft event has been injected and cancelled. */
  predicate SoftCancelled(v: Vcpu, t: Vcpu, cfg: Config, emu: Skip) {
    CanSkip(v, cfg, emu) &&
    ((IsSoftException(v.exc.vector) && t == AfterCancel(AfterInjectException(v, cfg, emu), cfg)) ||
     (v.irq.soft && t == AfterCancel(AfterInjectIrq(v, cfg, emu), cfg)))
  }

  /** RIP and NextRIP once a soft event has been injected and cancelled. */
  predicate SoftOutcome(v: Vcpu, t: Vcpu, cfg: Config, emu: Skip) {
    var next := RipAfter(v, cfg, emu);
    && (cfg.nrips ==> t.rip == v.rip && t.ctl.nextRip == next)
    && (!cfg.nrips ==> t.rip == if IsLinearRip(cfg, next, next, cfg.csBase) then v.rip else next)
  }

  lemma SoftExceptionOutcome(v: Vcpu, cfg: Config, emu: Skip)
    requires ConfigOk(cfg) && CanSkip(v, cfg, emu) && IsSoftException(v.exc.vector)
    ensures SoftOutcome(v, AfterCancel(AfterInjectException(v, cfg, emu), cfg), cfg, emu)
  {
    EventWordDecodes(v.exc.vector, TYPE_EXEPT, v.exc.hasError);
    hide EventWord, VectorOf, TypeOf, IsValid, HasError, IsLinearRip;
  }

  lemma SoftInterruptOutcome(v: Vcpu, cfg: Config, emu: Skip)
    requires ConfigOk(cfg) && CanSkip(v, cfg, emu) && v.irq.soft
    ensures SoftOutcome(v, AfterCancel(AfterInjectIrq(v, cfg, emu), cfg), cfg, emu)
  {
    EventWordDecodes(v.irq.nr, TYPE_SOFT, false);
    hide EventWord, VectorOf, TypeOf, IsValid, HasError, IsLinearRip;
  }

  lemma SoftCancelledOutcome(v: Vcpu, t: Vcpu, cfg: Config, emu: Skip)
    requires ConfigOk(cfg) && SoftCancelled(v, t, cfg, emu)
    ensures SoftOutcome(v, t, cfg, emu)
  {
    hide AfterCancel, AfterInjectException, AfterInjectIrq, SoftOutcome;
    if IsSoftException(v.exc.vector) { SoftExceptionOutcome(v, cfg, emu); }
    if v.irq.soft { SoftInterruptOutcome(v, cfg, emu); }
  }

  /** With NRIPS, cancelling a soft event leaves RIP alone and NextRIP ready for re-injection. */
  lemma SoftRoundTripWithNrips(v: Vcpu, t: Vcpu, cfg: Config, emu: Skip)
    requires ConfigOk(cfg) && cfg.nrips && SoftCancelled(v, t, cfg, emu)
    ensures t.rip == v.rip && t.ctl.nextRip == RipAfter(v, cfg, emu)
  {
    SoftCancelledOutcome(v, t, cfg, emu);
  }

  /**
   Without NRIPS, cancelling a soft event moves RIP back exactly when the linear-RIP test
   recognises the skipped-to address (or the skip went nowhere).
  */
  lemma SoftRoundTripWithoutNrips(v: Vcpu, t: Vcpu, cfg: Config, emu: Skip)
    requires ConfigOk(cfg) && !cfg.nrips && SoftCancelled(v, t, cfg, emu)
    ensures t.rip == v.rip <==>
              LinearRipRecognised(cfg, RipAfter(v, cfg, emu)) || RipAfter(v, cfg, emu) == v.rip
  {
    SoftCancelledOutcome(v, t, cfg, emu);
    LinearRipTest(cfg, RipAfter(v, cfg, emu));
    hide IsLinearRip, LinearRipRecognised, SoftCancelled, RipAfter;
  }

  /** The failing case exists: INT3 in a 32-bit code segment whose base plus EIP wraps at 4 GiB. */
  lemma WrappedSegmentLosesRip() returns (v: Vcpu, cfg: Config, emu: Skip)
    ensures ConfigOk(cfg) && !cfg.nrips && !cfg.is64 && CanSkip(v, cfg, emu) && v.exc.vector == 3
    ensures v.rip == 0x9000_0000 && AfterCancel(AfterInjectException(v, cfg, emu), cfg).rip == 0x9000_0001
  {
    cfg := Config(false, false, false, 0x8000_0000, false);
    emu := Skip(true, 0x9000_0001, 2);
    v := Vcpu(Exception(false, true, 3, false, 0), Interrupt(false, false, 0),
              Nmi(false, false, false, 0, false, false), Control(0, 0, 0, 0, 0), SoftInt(false, 0, 0, 0),
              0x9000_0000, 0, 2, false);
    var t := AfterCancel(AfterInjectException(v, cfg, emu), cfg);
    assert SoftCancelled(v, t, cfg, emu);
    SoftRoundTripWithoutNrips(v, t, cfg, emu);
    SoftCancelledOutcome(v, t, cfg, emu);
  }

  /**
   Re-injecting a cancelled soft interrupt under NRIPS gives the CPU the same event, the same
   NextRIP and the same RIP as the first time, without asking the emulator again.
  */
  lemma ReinjectionRepeats(v: Vcpu, cfg: Config, emu: Skip, emu': Skip)
    requires ConfigOk(cfg) && cfg.nrips && v.irq.soft && CanSkip(v, cfg, emu) && RipAfter(v, cfg, emu) != 0
    ensures var first := AfterInjectIrq(v, cfg, emu);
            var again := AfterInjectIrq(AfterCancel(first, cfg), cfg, emu');
            && again.ctl.eventInj == first.ctl.eventInj && again.ctl.nextRip == first.ctl.nextRip
            && again.rip == first.rip && again.soft == first.soft
  {
    var first := AfterInjectIrq(v, cfg, emu);
    var t := AfterCancel(first, cfg);
    InterruptRoundTrip(v, cfg, emu);
    assert SoftCancelled(v, t, cfg, emu);
    SoftRoundTripWithNrips(v, t, cfg, emu);
    hide EventWord, VectorOf, TypeOf, IsValid, HasError, IsLinearRip;
  }

  // ---------------------------------------------------------------- in place

  class VcpuSvm {
    const cfg: Config
    var exc: Exception
    var irq: Interrupt
    var nmi: Nmi
    var ctl: Control
    var soft: SoftInt
    var rip: bv64
    var nextRip: bv64
    var rflags: bv64
    var intShadow: bool

    function View(): Vcpu
      reads this
    {
      Vcpu(exc, irq, nmi, ctl, soft, rip, nextRip, rflags, intShadow)
    }

    method SkipEmulatedInstruction(emu: Skip, commit: bool) returns (done: bool)
      modifies this
      ensures View() == AfterSkip(old(View()), cfg, emu, commit)
      ensures done == CanSkip(old(View()), cfg, emu)
    {
      if cfg.nrips && ctl.nextRip != 0 {
        nextRip := ctl.nextRip;
      }
      if nextRip == 0 {
        var oldRflags := rflags;
        if !emu.ok { return false; }
        rip, rflags := emu.rip, emu.rflags;
        if !commit { rflags := oldRflags; }
      } else {
        rip := nextRip;
      }
      if commit { intShadow := false; }
      return true;
    }

    method UpdateSoftInterruptRip(emu: Skip) returns (done: bool)
      modifies this
      ensures View() == AfterSoftRip(old(View()), cfg, emu)
      ensures done == CanSkip(old(View()), cfg, emu)
    {
      var oldRip := rip;
      done := SkipEmulatedInstruction(emu, !cfg.nrips);
      if !done { return; }
      var newRip := rip;
      soft := SoftInt(true, cfg.csBase, oldRip, newRip);
      if cfg.nrips { rip := oldRip; }
      if cfg.cpuHasNrips { ctl := ctl.(nextRip := newRip); }
    }

    method InjectException(emu: Skip)
      modifies this
      ensures View() == AfterInjectException(old(View()), cfg, emu)
    {
      if IsSoftException(exc.vector) {
        var done := UpdateSoftInterruptRip(emu);
        if !done { return; }
      }
      ctl := ctl.(eventInj := EventWord(exc.vector, TYPE_EXEPT, exc.hasError), eventInjErr := exc.error);
    }

    method InjectNmi()
      modifies this
      ensures View() == AfterInjectNmi(old(View()), cfg)
    {
      ctl := ctl.(eventInj := VALID | TYPE_NMI);
      if nmi.l1ToL2 { return; }
      if !cfg.vnmi {
        nmi := nmi.(masked := true, iretIntercepted := true);
      }
    }

    method InjectIrq(emu: Skip)
      modifies this
      ensures View() == AfterInjectIrq(old(View()), cfg, emu)
    {
      var typ := TYPE_INTR;
      if irq.soft {
        var done := UpdateSoftInterruptRip(emu);
        if !done { return; }
        typ := TYPE_SOFT;
      }
      ctl := ctl.(eventInj := EventWord(irq.nr, typ, false));
    }

    method CompleteSoftInterrupt(vector: bv8, typ: bv32)
      modifies this
      ensures View() == AfterCompleteSoft(old(View()), cfg, vector, typ)
    {
      hide VectorOf, TypeOf, IsValid, HasError, IsLinearRip;
      var isException, isSoft := typ == TYPE_EXEPT, typ == TYPE_SOFT;
      if cfg.nrips && (isSoft || (isException && IsSoftException(vector))) &&
         IsLinearRip(cfg, rip, soft.oldRip, soft.csBase) {
        ctl := ctl.(nextRip := soft.nextRip);
      } else if !cfg.nrips && (isSoft || isException) && IsLinearRip(cfg, rip, soft.nextRip, soft.csBase) {
        rip := soft.oldRip;
      }
    }

    method ClearQueues()
      modifies this
      ensures View() == AfterClear(old(View()))
    {
      nmi := nmi.(l1ToL2 := false);
      soft := soft.(injected := false);
      if nmi.awaitingIret && rip != nmi.iretRip {
        nmi := nmi.(awaitingIret := false, masked := false);
      }
      nmi := nmi.(injected := false);
      exc := exc.(pending := false, injected := false);
      irq := irq.(injected := false);
    }

    method Requeue(info: bv32, error: bv32, l1ToL2: bool)
      modifies this
      ensures View() == AfterRequeue(old(View()), info, error, l1ToL2)
    {
      hide VectorOf, TypeOf, HasError;
      var vector, typ := VectorOf(info), TypeOf(info);
      if typ == TYPE_NMI {
        nmi := nmi.(injected := true, l1ToL2 := l1ToL2);
      } else if typ == TYPE_EXEPT {
        if vector != X86_TRAP_VC {
          exc := Exception(false, true, vector, HasError(info), if HasError(info) then error else 0);
        }
      } else if typ == TYPE_INTR {
        irq := Interrupt(true, false, vector);
      } else if typ == TYPE_SOFT {
        irq := Interrupt(true, true, vector);
      }
    }

    method CompleteInterrupts()
      modifies this
      ensures View() == AfterCompleteInterrupts(old(View()), cfg)
    {
      hide VectorOf, TypeOf, IsValid, HasError, AfterCompleteSoft, AfterRequeue;
      var info, nmiL1ToL2, softIntInjected := ctl.exitIntInfo, nmi.l1ToL2, soft.injected;
      var error := ctl.exitIntInfoErr;
      ClearQueues();
      if !IsValid(info) { return; }
      if softIntInjected {
        CompleteSoftInterrupt(VectorOf(info), TypeOf(info));
      }
      Requeue(info, error, nmiL1ToL2);
    }

    method CancelInjection()
      modifies this
      ensures View() == AfterCancel(old(View()), cfg)
    {
      ctl := ctl.(exitIntInfo := ctl.eventInj, exitIntInfoErr := ctl.eventInjErr, eventInj := 0);
      CompleteInterrupts();
    }
  }
}
