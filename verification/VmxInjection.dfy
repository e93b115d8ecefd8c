/**
 Event injection and its cancellation on Intel hardware (vmx.c), outside virtual-8086 mode,
 and the bookkeeping of NMI blocking that goes with it.

 Functions on a value that holds the fields the source touches; the class at the end updates
 the fields in place and is tied to them.  Exception payloads and the HLT activity state are
 not modelled.
*/
module VmxInjection {
  import opened EventWords

  const INTR_TYPE_EXT_INTR: bv32 := 0x000
  const INTR_TYPE_NMI_INTR: bv32 := 0x200
  const INTR_TYPE_HARD_EXCEPTION: bv32 := 0x300
  const INTR_TYPE_SOFT_INTR: bv32 := 0x400
  const INTR_TYPE_SOFT_EXCEPTION: bv32 := 0x600
  const NMI_VECTOR: bv8 := 2

  /** The VM-entry injection fields of the VMCS. */
  datatype EntryFields = EntryFields(info: bv32, error: bv32, instLen: bv32)

  /**
   NMI blocking: hwBlocked is the interruptibility bit, knownUnmasked a cached "the bit is
   clear", softBlocked the flag used when the CPU has no virtual NMIs.
  */
  datatype Blocking = Blocking(hwBlocked: bool, knownUnmasked: bool, softBlocked: bool, softBlockedTime: int)

  datatype Vcpu = Vcpu(
    exc: Exception, irq: Interrupt, nmiInjected: bool, instLen: bv32, entry: EntryFields, block: Blocking)

  function Low16(x: bv32): bv32 { x & 0xffff }

  // ---------------------------------------------------------------- NMI blocking

  /** What the guest experiences. */
  predicate NmisBlocked(b: Blocking, vnmi: bool) { if vnmi then b.hwBlocked else b.softBlocked }

  /** The cached bit never claims too much. */
  predicate CacheSound(b: Blocking) { b.knownUnmasked ==> !b.hwBlocked }

  function AfterSetNmiMask(b: Blocking, vnmi: bool, masked: bool): (b': Blocking)
    ensures NmisBlocked(b', vnmi) == masked
    ensures CacheSound(b) ==> CacheSound(b')
    ensures !vnmi && b.softBlocked != masked ==> b'.softBlockedTime == 0
  {
    if !vnmi then (if b.softBlocked != masked then b.(softBlocked := masked, softBlockedTime := 0) else b)
    else b.(knownUnmasked := !masked, hwBlocked := masked)
  }

  // ---------------------------------------------------------------- injection

  function AfterInjectException(v: Vcpu): Vcpu {
    var soft := IsSoftException(v.exc.vector);
    v.(entry := EntryFields(
         EventWord(v.exc.vector, if soft then INTR_TYPE_SOFT_EXCEPTION else INTR_TYPE_HARD_EXCEPTION, v.exc.hasError),
         if v.exc.hasError then Low16(v.exc.error) else v.entry.error,
         if soft then v.instLen else v.entry.instLen))
  }

  function AfterInjectIrq(v: Vcpu): Vcpu {
    v.(entry := v.entry.(
         info := EventWord(v.irq.nr, if v.irq.soft then INTR_TYPE_SOFT_INTR else INTR_TYPE_EXT_INTR, false),
         instLen := if v.irq.soft then v.instLen else v.entry.instLen))
  }

  function AfterInjectNmi(v: Vcpu, vnmi: bool): Vcpu {
    var b := if vnmi then v.block else v.block.(softBlocked := true, softBlockedTime := 0);
    v.(block := b.(knownUnmasked := false), entry := v.entry.(info := EventWord(NMI_VECTOR, INTR_TYPE_NMI_INTR, false)))
  }

  // ---------------------------------------------------------------- completion and cancellation

  /** __vmx_complete_interrupts for an event word with its length and error fields. */
  function AfterComplete(v: Vcpu, vnmi: bool, info: bv32, len: bv32, error: bv32): Vcpu {
    var u := v.(nmiInjected := false, exc := v.exc.(pending := false, injected := false), irq := v.irq.(injected := false));
    if !IsValid(info) then u else AfterRequeue(u, vnmi, info, len, error)
  }

  function AfterRequeue(v: Vcpu, vnmi: bool, info: bv32, len: bv32, error: bv32): Vcpu {
    var vector, typ := VectorOf(info), TypeOf(info);
    if typ == INTR_TYPE_NMI_INTR then
      v.(nmiInjected := true, block := AfterSetNmiMask(v.block, vnmi, false))
    else if typ == INTR_TYPE_SOFT_EXCEPTION || typ == INTR_TYPE_HARD_EXCEPTION then
      v.(instLen := if typ == INTR_TYPE_SOFT_EXCEPTION then len else v.instLen,
         exc := Exception(false, true, vector, HasError(info), if HasError(info) then error else 0))
    else if typ == INTR_TYPE_SOFT_INTR || typ == INTR_TYPE_EXT_INTR then
      v.(instLen := if typ == INTR_TYPE_SOFT_INTR then len else v.instLen,
         irq := Interrupt(true, typ == INTR_TYPE_SOFT_INTR, vector))
    else v
  }

  function AfterCancel(v: Vcpu, vnmi: bool): Vcpu {
    var u := AfterComplete(v, vnmi, v.entry.info, v.entry.instLen, v.entry.error);
    u.(entry := u.entry.(info := 0))
  }

  // ---------------------------------------------------------------- the round trips

  predicate OnlyException(v: Vcpu) { v.exc.injected && !v.exc.pending && !v.irq.injected && !v.nmiInjected && v.entry.info == 0 }
  predicate OnlyInterrupt(v: Vcpu) { v.irq.injected && !v.exc.injected && !v.exc.pending && !v.nmiInjected && v.entry.info == 0 }
  predicate OnlyNmi(v: Vcpu) { v.nmiInjected && !v.irq.injected && !v.exc.injected && !v.exc.pending && v.entry.info == 0 }

  /**
   What the CPU is asked to deliver: type 3 or 6 for a hard or soft exception, 0 or 4 for an external
   or soft interrupt, 2 with vector 2 for an NMI; and a soft event comes with its instruction length.
  */
  lemma EntryFieldsSayTheEvent(v: Vcpu, vnmi: bool)
    ensures var e := AfterInjectException(v).entry; var soft := v.exc.vector == 3 || v.exc.vector == 4;
            && IsEvent(e.info, v.exc.vector, if soft then 0x600 else 0x300, v.exc.hasError)
            && (v.exc.hasError ==> e.error == v.exc.error & 0xffff) && (soft ==> e.instLen == v.instLen)
    ensures var e := AfterInjectIrq(v).entry;
            && IsEvent(e.info, v.irq.nr, if v.irq.soft then 0x400 else 0, false)
            && (v.irq.soft ==> e.instLen == v.instLen)
    ensures IsEvent(AfterInjectNmi(v, vnmi).entry.info, 2, 0x200, false)
  {
    EventWordLayout(v.exc.vector, 0x600, v.exc.hasError);
    EventWordLayout(v.exc.vector, 0x300, v.exc.hasError);
    EventWordLayout(v.irq.nr, 0x400, false);
    EventWordLayout(v.irq.nr, 0, false);
    EventWordLayout(2, 0x200, false);
    hide EventWord, IsEvent;
  }

  /** VM entry with an NMI to inject blocks NMIs in the CPU, and the cached bit is right about it. */
  lemma NmiEntryKeepsCacheSound(v: Vcpu, vnmi: bool)
    ensures CacheSound(AfterInjectNmi(v, vnmi).block.(hwBlocked := true))
    ensures !vnmi ==> AfterInjectNmi(v, vnmi).block.softBlockedTime == 0
  {
  }

  /** An exception comes back with its vector, its error code cut to 16 bits and its length. */
  lemma ExceptionRoundTrip(v: Vcpu, vnmi: bool)
    ensures var t := AfterCancel(AfterInjectException(v), vnmi);
            && OnlyException(t) && t.exc.vector == v.exc.vector && t.exc.hasError == v.exc.hasError
            && t.exc.error == (if v.exc.hasError then Low16(v.exc.error) else 0)
            && t.instLen == v.instLen && t.block == v.block
  {
    EventWordDecodes(v.exc.vector, INTR_TYPE_SOFT_EXCEPTION, v.exc.hasError);
    EventWordDecodes(v.exc.vector, INTR_TYPE_HARD_EXCEPTION, v.exc.hasError);
    hide EventWord, VectorOf, TypeOf, IsValid, HasError, Low16;
  }

  /** An interrupt comes back with its vector, softness and length. */
  lemma InterruptRoundTrip(v: Vcpu, vnmi: bool)
    ensures var t := AfterCancel(AfterInjectIrq(v), vnmi);
            && OnlyInterrupt(t) && t.irq.nr == v.irq.nr && t.irq.soft == v.irq.soft
            && t.instLen == v.instLen && t.block == v.block
  {
    EventWordDecodes(v.irq.nr, INTR_TYPE_SOFT_INTR, false);
    EventWordDecodes(v.irq.nr, INTR_TYPE_EXT_INTR, false);
    hide EventWord, VectorOf, TypeOf, IsValid, HasError;
  }

  /** An NMI comes back with NMIs unblocked, whether the CPU or KVM tracks the blocking. */
  lemma NmiRoundTrip(v: Vcpu, vnmi: bool)
    ensures var i := AfterInjectNmi(v, vnmi); var t := AfterCancel(i, vnmi);
            && OnlyNmi(t) && !NmisBlocked(t.block, vnmi) && t.instLen == v.instLen
            && (!vnmi ==> NmisBlocked(i.block, vnmi))
            && (CacheSound(v.block) ==> CacheSound(i.block) && CacheSound(t.block))
  {
    EventWordDecodes(NMI_VECTOR, INTR_TYPE_NMI_INTR, false);
    hide EventWord, VectorOf, TypeOf, IsValid, HasError;
  }

  /** A soft event whose delivery an exit interrupted is queued with the length the exit reported. */
  lemma SoftEventKeepsItsLength(v: Vcpu, vnmi: bool, info: bv32, len: bv32, error: bv32)
    ensures AfterComplete(v, vnmi, info, len, error).instLen ==
            if IsValid(info) && (TypeOf(info) == 0x400 || TypeOf(info) == 0x600) then len else v.instLen
  {
    hide VectorOf, TypeOf, IsValid, HasError;
  }

  datatype Kind = AnException | AnInterrupt | AnNmi

  function AfterInject(v: Vcpu, kind: Kind, vnmi: bool): Vcpu {
    match kind
    case AnException => AfterInjectException(v)
    case AnInterrupt => AfterInjectIrq(v)
    case AnNmi => AfterInjectNmi(v, vnmi)
  }

  /** Injected and cancelled n times. */
  function Cancelled(v: Vcpu, kind: Kind, vnmi: bool, n: nat): Vcpu {
    if n == 0 then v else AfterCancel(AfterInject(Cancelled(v, kind, vnmi, n - 1), kind, vnmi), vnmi)
  }

  lemma OneMoreException(v: Vcpu, vnmi: bool)
    ensures AfterInjectException(AfterCancel(AfterInjectException(v), vnmi)).entry == AfterInjectException(v).entry
  {
    ExceptionRoundTrip(v, vnmi);
    Low16Twice(v.exc.error);
    CancelKeepsFields(AfterInjectException(v), vnmi);
    hide EventWord, VectorOf, TypeOf, IsValid, HasError, Low16, AfterCancel;
  }

  lemma OneMoreInterrupt(v: Vcpu, vnmi: bool)
    ensures AfterInjectIrq(AfterCancel(AfterInjectIrq(v), vnmi)).entry == AfterInjectIrq(v).entry
  {
    InterruptRoundTrip(v, vnmi);
    CancelKeepsFields(AfterInjectIrq(v), vnmi);
    hide EventWord, VectorOf, TypeOf, IsValid, HasError, AfterCancel;
  }

  lemma OneMoreTime(v: Vcpu, kind: Kind, vnmi: bool)
    ensures AfterInject(AfterCancel(AfterInject(v, kind, vnmi), vnmi), kind, vnmi).entry == AfterInject(v, kind, vnmi).entry
  {
    OneMoreException(v, vnmi);
    OneMoreInterrupt(v, vnmi);
    CancelKeepsFields(AfterInjectNmi(v, vnmi), vnmi);
    hide AfterInjectException, AfterInjectIrq, AfterCancel, EventWord;
  }

  /**
   However many times an event has been injected and cancelled, injecting it again gives the CPU the
   fields it got the first time: nothing is worn down.
  */
  lemma {:induction false} ReinjectionRepeats(v: Vcpu, kind: Kind, vnmi: bool, n: nat)
    ensures AfterInject(Cancelled(v, kind, vnmi, n), kind, vnmi).entry == AfterInject(v, kind, vnmi).entry
  {
    hide AfterInject, AfterCancel;
    if n > 0 {
      ReinjectionRepeats(v, kind, vnmi, n - 1);
      OneMoreTime(Cancelled(v, kind, vnmi, n - 1), kind, vnmi);
    }
  }

  lemma CancelKeepsFields(v: Vcpu, vnmi: bool)
    ensures AfterCancel(v, vnmi).entry == v.entry.(info := 0)
  {
  }

  lemma Low16Twice(x: bv32)
    ensures Low16(Low16(x)) == Low16(x)
  {
  }

  // ---------------------------------------------------------------- in place

  class VcpuVmx {
    const vnmi: bool
    var exc: Exception
    var irq: Interrupt
    var nmiInjected: bool
    var eventExitInstLen: bv32
    var entry: EntryFields
    var block: Blocking

    function View(): Vcpu
      reads this
    {
      Vcpu(exc, irq, nmiInjected, eventExitInstLen, entry, block)
    }

    /** vmx_get_nmi_mask: answers for the hardware, from the cached bit when it can. */
    method GetNmiMask() returns (masked: bool)
      requires CacheSound(block)
      modifies `block
      ensures masked == NmisBlocked(old(block), vnmi)
      ensures CacheSound(block) && block == old(block).(knownUnmasked := block.knownUnmasked)
    {
      if !vnmi { return block.softBlocked; }
      if block.knownUnmasked { return false; }
      masked := block.hwBlocked;
      block := block.(knownUnmasked := !masked);
    }

    method SetNmiMask(masked: bool)
      modifies `block
      ensures block == AfterSetNmiMask(old(block), vnmi, masked)
    {
      if !vnmi {
        if block.softBlocked != masked {
          block := block.(softBlocked := masked, softBlockedTime := 0);
        }
      } else {
        block := block.(knownUnmasked := !masked);
        block := block.(hwBlocked := masked);
      }
    }

    method InjectException()
      modifies `entry
      ensures View() == AfterInjectException(old(View()))
    {
      hide EventWord, Low16;
      if exc.hasError {
        entry := entry.(error := Low16(exc.error));
      }
      var typ := INTR_TYPE_HARD_EXCEPTION;
      if IsSoftException(exc.vector) {
        entry := entry.(instLen := eventExitInstLen);
        typ := INTR_TYPE_SOFT_EXCEPTION;
      }
      entry := entry.(info := EventWord(exc.vector, typ, exc.hasError));
    }

    method InjectIrq()
      modifies `entry
      ensures View() == AfterInjectIrq(old(View()))
    {
      hide EventWord;
      var typ := INTR_TYPE_EXT_INTR;
      if irq.soft {
        typ := INTR_TYPE_SOFT_INTR;
        entry := entry.(instLen := eventExitInstLen);
      }
      entry := entry.(info := EventWord(irq.nr, typ, false));
    }

    method InjectNmi()
      modifies `entry, `block
      ensures View() == AfterInjectNmi(old(View()), vnmi)
    {
      hide EventWord;
      if !vnmi {
        block := block.(softBlocked := true, softBlockedTime := 0);
      }
      block := block.(knownUnmasked := false);
      entry := entry.(info := EventWord(NMI_VECTOR, INTR_TYPE_NMI_INTR, false));
    }

    method Requeue(info: bv32, len: bv32, error: bv32)
      modifies this
      ensures View() == AfterRequeue(old(View()), vnmi, info, len, error)
    {
      hide VectorOf, TypeOf, HasError;
      var vector, typ := VectorOf(info), TypeOf(info);
      if typ == INTR_TYPE_NMI_INTR {
        nmiInjected := true;
        SetNmiMask(false);
      } else if typ == INTR_TYPE_SOFT_EXCEPTION || typ == INTR_TYPE_HARD_EXCEPTION {
        if typ == INTR_TYPE_SOFT_EXCEPTION { eventExitInstLen := len; }
        exc := Exception(false, true, vector, HasError(info), if HasError(info) then error else 0);
      } else if typ == INTR_TYPE_SOFT_INTR || typ == INTR_TYPE_EXT_INTR {
        if typ == INTR_TYPE_SOFT_INTR { eventExitInstLen := len; }
        irq := Interrupt(true, typ == INTR_TYPE_SOFT_INTR, vector);
      }
    }

    method CompleteInterrupts(info: bv32, len: bv32, error: bv32)
      modifies this
      ensures View() == AfterComplete(old(View()), vnmi, info, len, error)
    {
      hide IsValid, AfterRequeue;
      nmiInjected := false;
      exc := exc.(pending := false, injected := false);
      irq := irq.(injected := false);
      if !IsValid(info) { return; }
      Requeue(info, len, error);
    }

    method CancelInjection()
      modifies this
      ensures View() == AfterCancel(old(View()), vnmi)
    {
      hide AfterComplete;
      CompleteInterrupts(entry.info, entry.instLen, entry.error);
      entry := entry.(info := 0);
    }
  }
}
