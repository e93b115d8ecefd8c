/**
 Posted-interrupt delivery (vmx.c).

 Any number of senders run vmx_deliver_posted_interrupt against one vCPU while the vCPU
 enters and leaves the guest, re-enters it from a fast path, or blocks.  Every atomic
 operation on the shared words is one step, and every actor has its own program counter,
 so a run of the system is an arbitrary interleaving.

 Sender 0 is the vCPU's own thread: it can only post while the vCPU is in the host or in a
 fast-path exit handler, and the vCPU does nothing else until that delivery has returned.
*/
module PostedInterrupts {

  const VECTORS: nat := 256
  const WORDS: nat := 8
  const SELF: nat := 0

  /** The PIR is harvested one 32-bit word at a time. */
  function Word(v: nat): nat { v / 32 }

  /** Where a call to vmx_deliver_posted_interrupt stands. */
  datatype Sender =
    | Idle
    | PirSet                  // PIR bit set, ON not yet tested
    | OnSet                   // ON set by this sender, vcpu->mode not yet read
    | Notify(session: nat)    // saw IN_GUEST_MODE during that stay in the guest
    | WakeUp                  // saw another mode, about to call kvm_vcpu_wake_up

  datatype Purpose = Entry | Block

  datatype Pc =
    | Host
    | TestOn(why: Purpose)
    | ClearOn(why: Purpose)
    | Harvest(why: Purpose, word: nat)
    | Synced(why: Purpose)
    | NonRoot                 // guest code is running
    | HwClear                 // the CPU acknowledged the notification vector
    | HwHarvest(word: nat)
    | FastPath                // VM-exit taken, mode still IN_GUEST_MODE
    | Asleep

  datatype State = State(
    pir: set<nat>, on: bool, irr: set<nat>,
    inGuest: bool,            // vcpu->mode == IN_GUEST_MODE
    session: nat,             // counts the stays in IN_GUEST_MODE
    ipi: bool,                // notification vector pending at the vCPU's current CPU
    woken: bool,              // a wake-up arrived since the vCPU armed its wait queue
    pc: Pc, senders: seq<Sender>)

  datatype Action =
    | Post(i: nat, v: nat) | SetOn(i: nat) | ReadMode(i: nat)
    | SendIpi(i: nat, arrives: bool) | Wake(i: nat)
    | EnterGuest | PollOn | ClearOnBit | HarvestWord | VmEntry | AbortEntry
    | HwNotify | HwClearOn | TakeIrq(v: nat) | VmExit | Reenter | LeaveGuest
    | HostIrq | ArmBlock | CommitBlock | LeaveSleep

  predicate SenderAction(a: Action) {
    a.Post? || a.SetOn? || a.ReadMode? || a.SendIpi? || a.Wake?
  }

  predicate SenderEnabled(s: State, a: Action)
    requires SenderAction(a)
  {
    a.i < |s.senders| &&
    match a
    case Post(i, v) =>
      s.senders[i].Idle? && v < VECTORS && (i == SELF ==> s.pc.Host? || s.pc.FastPath?)
    case SetOn(i) => s.senders[i].PirSet?
    case ReadMode(i) => s.senders[i].OnSet?
    // The IPI reaches the vCPU's CPU unless the vCPU has left that stay in the guest,
    // in which case it may since have moved to another CPU.
    case SendIpi(i, arrives) => s.senders[i].Notify? && (s.senders[i].session == s.session ==> arrives)
    case Wake(i) => s.senders[i].WakeUp?
  }

  predicate VcpuEnabled(s: State, a: Action)
    requires !SenderAction(a)
  {
    SELF < |s.senders| && s.senders[SELF].Idle? &&
    match a
    case EnterGuest => s.pc.Host?
    case PollOn => s.pc.TestOn?
    case ClearOnBit => s.pc.ClearOn?
    case HarvestWord => s.pc.Harvest? || s.pc.HwHarvest?
    case VmEntry => s.pc == Synced(Entry)
    case AbortEntry => s.pc == Synced(Entry)
    case HwNotify => s.pc.NonRoot? && s.ipi
    case HwClearOn => s.pc.HwClear?
    case TakeIrq(v) => s.pc.NonRoot? && v in s.irr
    case VmExit => s.pc.NonRoot?
    case Reenter => s.pc.FastPath?
    case LeaveGuest => s.pc.FastPath?
    case HostIrq => s.ipi && !s.inGuest
    case ArmBlock => s.pc.Host?
    case CommitBlock => s.pc == Synced(Block)
    case LeaveSleep => s.pc.Asleep?
  }

  predicate Enabled(s: State, a: Action) {
    if SenderAction(a) then SenderEnabled(s, a) else VcpuEnabled(s, a)
  }

  /** One atomic step of a sender. */
  function SenderStep(s: State, a: Action): State
    requires SenderAction(a) && SenderEnabled(s, a)
  {
    match a
    case Post(i, v) =>
      if v in s.pir then s                                             // "PIR already set"
      else s.(pir := s.pir + {v}, senders := s.senders[i := PirSet])
    case SetOn(i) =>
      if s.on then s.(senders := s.senders[i := Idle])                 // "ON already set"
      else s.(on := true, senders := s.senders[i := OnSet])
    case ReadMode(i) =>
      if !s.inGuest then s.(senders := s.senders[i := WakeUp])
      else if i == SELF then s.(senders := s.senders[i := Idle])       // running vCPU: no IPI
      else s.(senders := s.senders[i := Notify(s.session)])
    case SendIpi(i, arrives) => s.(ipi := s.ipi || arrives, senders := s.senders[i := Idle])
    case Wake(i) => s.(woken := true, senders := s.senders[i := Idle])
  }

  function WordOf(pir: set<nat>, k: nat): set<nat> { set v | v in pir && Word(v) == k }

  /** One atomic step of the vCPU thread or of the CPU it runs on. */
  function VcpuStep(s: State, a: Action): State
    requires !SenderAction(a) && VcpuEnabled(s, a)
  {
    match a
    case EnterGuest => s.(inGuest := true, session := s.session + 1, pc := TestOn(Entry))
    case PollOn => s.(pc := if s.on then ClearOn(s.pc.why) else Synced(s.pc.why))
    case ClearOnBit => s.(on := false, pc := Harvest(s.pc.why, 0))
    case HarvestWord =>
      var k := s.pc.word;
      var got := WordOf(s.pir, k);
      s.(pir := s.pir - got, irr := s.irr + got,
         pc := if s.pc.Harvest? then
                 (if k + 1 < WORDS then Harvest(s.pc.why, k + 1) else Synced(s.pc.why))
               else
                 (if k + 1 < WORDS then HwHarvest(k + 1) else NonRoot))
    case VmEntry => s.(pc := NonRoot)
    case AbortEntry => s.(inGuest := false, pc := Host)
    case HwNotify => s.(ipi := false, pc := HwClear)
    case HwClearOn => s.(on := false, pc := HwHarvest(0))
    case TakeIrq(v) => s.(irr := s.irr - {v})
    case VmExit => s.(pc := FastPath)
    case Reenter => s.(pc := TestOn(Entry))
    case LeaveGuest => s.(inGuest := false, pc := Host)
    case HostIrq => s.(ipi := false)                                   // spurious in the host
    case ArmBlock => s.(woken := false, pc := TestOn(Block))
    case CommitBlock => s.(pc := if s.irr == {} then Asleep else Host)
    case LeaveSleep => s.(pc := Host)
  }

  function Step(s: State, a: Action): State
    requires Enabled(s, a)
  {
    if SenderAction(a) then SenderStep(s, a) else VcpuStep(s, a)
  }

  ghost predicate Init(s: State) {
    s.pir == {} && !s.on && s.irr == {} && !s.inGuest && s.pc == Host && !s.ipi && !s.woken &&
    SELF < |s.senders| && forall i :: 0 <= i < |s.senders| ==> s.senders[i] == Idle
  }

  /** A run: states[k+1] follows from states[k] by acts[k]. */
  ghost predicate IsRun(states: seq<State>, acts: seq<Action>) {
    |states| == |acts| + 1 && Init(states[0]) &&
    forall k :: 0 <= k < |acts| ==> Enabled(states[k], acts[k]) && states[k + 1] == Step(states[k], acts[k])
  }

  // ---------------------------------------------------------------- the invariant

  /** Some delivery is between setting its PIR bit and testing ON. */
  ghost predicate SomePirSet(s: State) {
    exists i :: 0 <= i < |s.senders| && s.senders[i].PirSet?
  }

  /** Some delivery will still send an IPI that lands in the current stay in the guest. */
  ghost predicate SomeNotifier(s: State) {
    exists i :: 0 <= i < |s.senders| && i != SELF && (s.senders[i].OnSet? || s.senders[i] == Notify(s.session))
  }

  /** Some delivery will still wake the vCPU. */
  ghost predicate SomeWaker(s: State) {
    exists i :: 0 <= i < |s.senders| && (s.senders[i].OnSet? || s.senders[i].WakeUp?)
  }

  /** A harvest in progress has yet to reach the word of v. */
  predicate HarvestAhead(pc: Pc, v: nat) {
    match pc
    case Harvest(_, k) => k <= Word(v)
    case HwHarvest(k) => k <= Word(v)
    case _ => false
  }

  /** The vCPU is past the ON test of an entry and cannot leave the guest unnoticed. */
  predicate InsideEntry(pc: Pc) {
    pc.NonRoot? || pc.HwHarvest? || pc == Synced(Entry) || (pc.Harvest? && pc.why.Entry?)
  }

  /** The vCPU is past the ON test of a block. */
  predicate InsideBlock(pc: Pc) {
    pc.Asleep? || pc == Synced(Block) || (pc.Harvest? && pc.why.Block?)
  }

  predicate GuestModePc(pc: Pc) {
    InsideEntry(pc) || pc.HwClear? || pc.FastPath? || pc == TestOn(Entry) || pc == ClearOn(Entry)
  }

  ghost predicate PirCovered(s: State) {
    forall v :: v in s.pir ==> v < VECTORS && (s.on || SomePirSet(s) || HarvestAhead(s.pc, v))
  }

  ghost predicate OnCovered(s: State) {
    && (InsideEntry(s.pc) && s.on ==> s.ipi || SomeNotifier(s))
    && (InsideBlock(s.pc) && s.on ==> s.woken || SomeWaker(s))
  }

  ghost predicate Shape(s: State) {
    && SELF < |s.senders|
    && s.inGuest == GuestModePc(s.pc)
    && (!s.senders[SELF].Idle? ==> s.pc.Host? || s.pc.FastPath?)
    && !s.senders[SELF].Notify?
    && (s.pc.Harvest? || s.pc.HwHarvest? ==> s.pc.word < WORDS)
    && (s.pc.Asleep? ==> s.irr == {})
  }

  ghost predicate Inv(s: State) { Shape(s) && PirCovered(s) && OnCovered(s) }

  // ---------------------------------------------------------------- preservation

  lemma SenderKeepsPirCovered(s: State, a: Action)
    requires Inv(s) && SenderAction(a) && SenderEnabled(s, a)
    ensures PirCovered(SenderStep(s, a))
  {
    var t := SenderStep(s, a);
    if SomePirSet(s) && !t.on {
      var j :| 0 <= j < |s.senders| && s.senders[j].PirSet?;
      assert t.senders[j].PirSet?;
    }
    if a.Post? && t != s {
      assert t.senders[a.i].PirSet?;
    }
  }

  lemma SenderKeepsOnCovered(s: State, a: Action)
    requires Inv(s) && SenderAction(a) && SenderEnabled(s, a)
    ensures OnCovered(SenderStep(s, a))
  {
    var t := SenderStep(s, a);
    if InsideEntry(t.pc) && t.on {
      assert a.i != SELF || s.senders[SELF].Idle?;
      if a.SetOn? && !s.on {
        assert t.senders[a.i].OnSet?;
      } else if !s.ipi {
        var j :| 0 <= j < |s.senders| && j != SELF && (s.senders[j].OnSet? || s.senders[j] == Notify(s.session));
        if j != a.i { assert t.senders[j] == s.senders[j]; }
        else if a.ReadMode? { assert t.senders[j] == Notify(t.session); }
      }
    }
    if InsideBlock(t.pc) && t.on {
      if a.SetOn? && !s.on {
        assert t.senders[a.i].OnSet?;
      } else if !s.woken {
        var j :| 0 <= j < |s.senders| && (s.senders[j].OnSet? || s.senders[j].WakeUp?);
        if j != a.i { assert t.senders[j] == s.senders[j]; }
        else if a.ReadMode? { assert t.senders[j].WakeUp?; }
      }
    }
  }

  lemma VcpuKeepsPirCovered(s: State, a: Action)
    requires Inv(s) && !SenderAction(a) && VcpuEnabled(s, a)
    ensures PirCovered(VcpuStep(s, a))
  {
    var t := VcpuStep(s, a);
    assert t.senders == s.senders && (SomePirSet(s) ==> SomePirSet(t));
    forall v | v in t.pir
      ensures v < VECTORS && (t.on || SomePirSet(t) || HarvestAhead(t.pc, v))
    {
      assert v in s.pir && Word(v) < WORDS;
    }
  }

  lemma VcpuKeepsOnCovered(s: State, a: Action)
    requires Inv(s) && !SenderAction(a) && VcpuEnabled(s, a)
    ensures OnCovered(VcpuStep(s, a))
  {
    var t := VcpuStep(s, a);
    assert t.senders == s.senders;
    assert t.session == s.session && SomeNotifier(s) ==> SomeNotifier(t);
    assert SomeWaker(s) ==> SomeWaker(t);
  }

  lemma StepKeepsInv(s: State, a: Action)
    requires Inv(s) && Enabled(s, a)
    ensures Inv(Step(s, a))
  {
    if SenderAction(a) {
      SenderKeepsPirCovered(s, a);
      SenderKeepsOnCovered(s, a);
    } else {
      VcpuKeepsPirCovered(s, a);
      VcpuKeepsOnCovered(s, a);
    }
  }

  /** Every state of every run satisfies the cover invariant. */
  lemma {:induction false} RunsKeepInv(states: seq<State>, acts: seq<Action>, k: nat)
    requires IsRun(states, acts) && k <= |acts|
    ensures Inv(states[k])
  {
    if k > 0 {
      RunsKeepInv(states, acts, k - 1);
      StepKeepsInv(states[k - 1], acts[k - 1]);
    }
  }

  // ---------------------------------------------------------------- what a reader wants to know

  /** No delivery is under way. */
  ghost predicate Quiet(s: State) {
    forall i :: 0 <= i < |s.senders| ==> s.senders[i].Idle?
  }

  /**
   The two early returns are safe at the moment they are taken: whoever returns early leaves
   behind ON set, another sender that is about to set ON, or a harvest that will reach the
   vector.
   */
  lemma EarlyReturnsAreSafe(states: seq<State>, acts: seq<Action>, k: nat)
    requires IsRun(states, acts) && k < |acts|
    requires (acts[k].Post? && acts[k].v in states[k].pir) || (acts[k].SetOn? && states[k].on)
    ensures acts[k].Post? ==>
              states[k + 1].on || SomePirSet(states[k + 1]) || HarvestAhead(states[k + 1].pc, acts[k].v)
    ensures acts[k].SetOn? ==> states[k + 1].on
    ensures states[k + 1].on && InsideEntry(states[k + 1].pc) ==> states[k + 1].ipi || SomeNotifier(states[k + 1])
    ensures states[k + 1].on && InsideBlock(states[k + 1].pc) ==> states[k + 1].woken || SomeWaker(states[k + 1])
  {
    RunsKeepInv(states, acts, k + 1);
    if acts[k].Post? { assert acts[k].v in states[k + 1].pir; }
  }

  /** A guest that keeps running with no delivery and no notification in flight has nothing posted. */
  lemma RunningGuestMissesNothing(states: seq<State>, acts: seq<Action>, k: nat)
    requires IsRun(states, acts) && k <= |acts|
    requires states[k].pc.NonRoot? && !states[k].ipi && Quiet(states[k])
    ensures !states[k].on && states[k].pir == {}
  {
    RunsKeepInv(states, acts, k);
    QuietHasNoCover(states[k]);
  }

  /** A vCPU that stays asleep with no delivery in flight has no interrupt pending anywhere. */
  lemma SleepingVcpuMissesNothing(states: seq<State>, acts: seq<Action>, k: nat)
    requires IsRun(states, acts) && k <= |acts|
    requires states[k].pc.Asleep? && !states[k].woken && Quiet(states[k])
    ensures !states[k].on && states[k].pir == {} && states[k].irr == {}
  {
    RunsKeepInv(states, acts, k);
    QuietHasNoCover(states[k]);
  }

  lemma QuietHasNoCover(s: State)
    requires Quiet(s)
    ensures !SomePirSet(s) && !SomeNotifier(s) && !SomeWaker(s)
  {
  }

  lemma StepKeepsPending(s: State, a: Action, v: nat)
    requires Enabled(s, a) && a != TakeIrq(v) && v in s.pir + s.irr
    ensures v in Step(s, a).pir + Step(s, a).irr
  {
    if SenderAction(a) {
      assert v in SenderStep(s, a).pir + SenderStep(s, a).irr;
    } else {
      assert v in VcpuStep(s, a).pir + VcpuStep(s, a).irr;
    }
    hide SenderStep, VcpuStep, SenderEnabled, VcpuEnabled;
  }

  /** Once posted, a vector stays in PIR or virtual IRR until the guest takes it. */
  lemma {:induction false} PostedStaysPending(states: seq<State>, acts: seq<Action>, j: nat, k: nat)
    requires IsRun(states, acts) && j < k <= |acts| && acts[j].Post?
    requires forall m :: j < m < k ==> acts[m] != TakeIrq(acts[j].v)
    ensures acts[j].v in states[k].pir + states[k].irr
  {
    if k == j + 1 {
      assert states[k] == Step(states[j], acts[j]);
    } else {
      hide Step, Enabled;
      PostedStaysPending(states, acts, j, k - 1);
      StepKeepsPending(states[k - 1], acts[k - 1], acts[j].v);
    }
  }

  /**
   No posted interrupt is lost.  Take any delivery in any run and any later moment at which
   the guest is running and nothing is in flight: the guest has taken the vector since, or
   the vector is in the virtual IRR, where the CPU delivers it.
   */
  lemma NoPostedInterruptIsLost(states: seq<State>, acts: seq<Action>, j: nat, k: nat)
    requires IsRun(states, acts) && j < k <= |acts| && acts[j].Post?
    requires states[k].pc.NonRoot? && !states[k].ipi && Quiet(states[k])
    ensures acts[j].v in states[k].irr || exists m :: j < m < k && acts[m] == TakeIrq(acts[j].v)
  {
    if forall m :: j < m < k ==> acts[m] != TakeIrq(acts[j].v) {
      PostedStaysPending(states, acts, j, k);
      RunningGuestMissesNothing(states, acts, k);
    }
  }

  /** A vCPU is never asleep for good on an interrupt posted before or while it went to sleep. */
  lemma NoPostedInterruptSleeps(states: seq<State>, acts: seq<Action>, j: nat, k: nat)
    requires IsRun(states, acts) && j < k <= |acts| && acts[j].Post?
    requires states[k].pc.Asleep? && !states[k].woken && Quiet(states[k])
    ensures exists m :: j < m < k && acts[m] == TakeIrq(acts[j].v)
  {
    if forall m :: j < m < k ==> acts[m] != TakeIrq(acts[j].v) {
      PostedStaysPending(states, acts, j, k);
      SleepingVcpuMissesNothing(states, acts, k);
      assert false;
    }
  }

  // ---------------------------------------------------------------- taken at most as often as posted

  function Posts(acts: seq<Action>, v: nat): nat {
    if acts == [] then 0
    else Posts(acts[..|acts| - 1], v) + if acts[|acts| - 1].Post? && acts[|acts| - 1].v == v then 1 else 0
  }

  function Takes(acts: seq<Action>, v: nat): nat {
    if acts == [] then 0
    else Takes(acts[..|acts| - 1], v) + if acts[|acts| - 1] == TakeIrq(v) then 1 else 0
  }

  function Pending(s: State, v: nat): nat { (if v in s.pir then 1 else 0) + (if v in s.irr then 1 else 0) }

  lemma StepConserves(s: State, a: Action, v: nat)
    requires Enabled(s, a)
    ensures a == TakeIrq(v) ==> Pending(Step(s, a), v) + 1 == Pending(s, v)
    ensures a.Post? && a.v == v ==> Pending(Step(s, a), v) <= Pending(s, v) + 1
    ensures a != TakeIrq(v) && !(a.Post? && a.v == v) ==> Pending(Step(s, a), v) <= Pending(s, v)
  {
  }

  /** No interrupt is invented: in every run a vector is taken or pending at most as often as it was posted. */
  lemma {:induction false} TakenAtMostPosted(states: seq<State>, acts: seq<Action>, k: nat, v: nat)
    requires IsRun(states, acts) && k <= |acts|
    ensures Takes(acts[..k], v) + Pending(states[k], v) <= Posts(acts[..k], v)
  {
    if k > 0 {
      TakenAtMostPosted(states, acts, k - 1, v);
      StepConserves(states[k - 1], acts[k - 1], v);
      assert acts[..k][..k - 1] == acts[..k - 1];
    }
  }

  // ---------------------------------------------------------------- no deadlock

  /** A run from anywhere. */
  ghost predicate IsPath(states: seq<State>, acts: seq<Action>) {
    |states| == |acts| + 1 &&
    forall k :: 0 <= k < |acts| ==> Enabled(states[k], acts[k]) && states[k + 1] == Step(states[k], acts[k])
  }

  function SenderRank(x: Sender): nat {
    match x
    case Idle => 0
    case PirSet => 3
    case OnSet => 2
    case Notify(_) => 1
    case WakeUp => 1
  }

  function SendersRank(xs: seq<Sender>): nat {
    if xs == [] then 0 else SendersRank(xs[..|xs| - 1]) + SenderRank(xs[|xs| - 1])
  }

  lemma {:induction false} RankDrops(xs: seq<Sender>, i: nat, x: Sender)
    requires i < |xs| && SenderRank(x) < SenderRank(xs[i])
    ensures SendersRank(xs[i := x]) < SendersRank(xs)
  {
    if i < |xs| - 1 {
      RankDrops(xs[..|xs| - 1], i, x);
      assert xs[i := x][..|xs| - 1] == xs[..|xs| - 1][i := x];
    } else {
      assert xs[i := x][..|xs| - 1] == xs[..|xs| - 1];
    }
  }

  /** Steps of the vCPU from pc to running guest code, give or take. */
  function PcRank(pc: Pc): nat {
    match pc
    case NonRoot => 0
    case HwHarvest(k) => if k < WORDS then WORDS - k else 0
    case HwClear => WORDS + 1
    case Synced(Entry) => 1
    case Harvest(Entry, k) => 1 + if k < WORDS then WORDS - k else 0
    case ClearOn(Entry) => WORDS + 2
    case TestOn(Entry) => WORDS + 3
    case FastPath => WORDS + 4
    case Host => WORDS + 4
    case Asleep => WORDS + 5
    case Synced(Block) => WORDS + 6
    case Harvest(Block, k) => WORDS + 6 + if k < WORDS then WORDS - k else 0
    case ClearOn(Block) => 2 * WORDS + 7
    case TestOn(Block) => 2 * WORDS + 8
  }

  /** What the vCPU does next to reach guest code when no delivery is under way. */
  function Onward(s: State): Action {
    match s.pc
    case Host => EnterGuest
    case TestOn(_) => PollOn
    case ClearOn(_) => ClearOnBit
    case Harvest(_, _) => HarvestWord
    case HwHarvest(_) => HarvestWord
    case Synced(why) => if why.Entry? then VmEntry else CommitBlock
    case NonRoot => HwNotify
    case HwClear => HwClearOn
    case FastPath => Reenter
    case Asleep => LeaveSleep
  }

  function SenderOnward(x: Sender, i: nat): Action {
    match x
    case PirSet => SetOn(i)
    case OnSet => ReadMode(i)
    case Notify(_) => SendIpi(i, true)
    case _ => Wake(i)
  }

  lemma SenderAdvances(s: State, i: nat)
    requires i < |s.senders| && !s.senders[i].Idle?
    ensures var a := SenderOnward(s.senders[i], i);
            Enabled(s, a) && !a.TakeIrq? && SendersRank(Step(s, a).senders) < SendersRank(s.senders)
  {
    var t := Step(s, SenderOnward(s.senders[i], i));
    assert t.senders == s.senders[i := t.senders[i]];
    RankDrops(s.senders, i, t.senders[i]);
  }

  lemma VcpuAdvances(s: State)
    requires Inv(s) && Quiet(s) && (s.pc.NonRoot? ==> s.ipi)
    ensures var a := Onward(s); var t := Step(s, a);
            && Enabled(s, a) && !a.TakeIrq? && t.senders == s.senders
            && if s.pc.NonRoot? then s.ipi && !t.ipi else t.ipi == s.ipi && PcRank(t.pc) < PcRank(s.pc)
  {
  }

  /** Guest code is running with nothing in flight. */
  ghost predicate Settled(s: State) { s.pc.NonRoot? && !s.ipi && Quiet(s) }

  /** t is closer to that than s. */
  predicate Closer(t: State, s: State) {
    SendersRank(t.senders) < SendersRank(s.senders) ||
    (t.senders == s.senders && ((s.ipi && !t.ipi) || (s.ipi == t.ipi && PcRank(t.pc) < PcRank(s.pc))))
  }

  lemma Advance(s: State) returns (a: Action)
    requires Inv(s) && !Settled(s)
    ensures Enabled(s, a) && !a.TakeIrq? && Inv(Step(s, a)) && Closer(Step(s, a), s)
  {
    if Quiet(s) {
      a := Onward(s);
      VcpuAdvances(s);
    } else {
      var i: nat :| i < |s.senders| && !s.senders[i].Idle?;
      a := SenderOnward(s.senders[i], i);
      SenderAdvances(s, i);
    }
    hide Inv, Quiet, Enabled, Step, PcRank, SendersRank, Onward;
    StepKeepsInv(s, a);
  }

  /**
   Nothing ever gets stuck: from every state the system can be in, letting the deliveries and the
   entry under way finish takes the vCPU to guest code with nothing in flight.
  */
  lemma {:induction false} CanSettle(s: State) returns (states: seq<State>, acts: seq<Action>)
    requires Inv(s)
    ensures IsPath(states, acts) && states[0] == s && forall k :: 0 <= k < |acts| ==> !acts[k].TakeIrq?
    ensures Settled(states[|acts|])
    decreases SendersRank(s.senders), s.ipi, PcRank(s.pc)
  {
    hide Inv, Settled, Enabled, Step, PcRank, SendersRank;
    if Settled(s) { return [s], []; }
    var a := Advance(s);
    var states', acts' := CanSettle(Step(s, a));
    states, acts := [s] + states', [a] + acts';
  }

  lemma {:induction false} PathKeeps(states: seq<State>, acts: seq<Action>, k: nat, v: nat)
    requires IsPath(states, acts) && k <= |acts| && Inv(states[0]) && v in states[0].pir + states[0].irr
    requires forall m :: 0 <= m < |acts| ==> !acts[m].TakeIrq?
    ensures Inv(states[k]) && v in states[k].pir + states[k].irr
  {
    hide Inv, Enabled, Step;
    if k > 0 {
      PathKeeps(states, acts, k - 1, v);
      StepKeepsInv(states[k - 1], acts[k - 1]);
      StepKeepsPending(states[k - 1], acts[k - 1], v);
    }
  }

  /**
   Delivery can always complete: wherever a run stands after a post, with the vector not taken yet,
   it can go on to guest code with nothing in flight and the vector in the virtual IRR, ready to be
   taken.
  */
  lemma DeliveryCanComplete(states: seq<State>, acts: seq<Action>, j: nat, k: nat)
    returns (states': seq<State>, acts': seq<Action>)
    requires IsRun(states, acts) && j < k <= |acts| && acts[j].Post?
    requires forall m :: j < m < k ==> acts[m] != TakeIrq(acts[j].v)
    ensures IsPath(states', acts') && states'[0] == states[k]
    ensures var t := states'[|acts'|];
            Settled(t) && acts[j].v in t.irr && Enabled(t, TakeIrq(acts[j].v))
  {
    RunsKeepInv(states, acts, k);
    PostedStaysPending(states, acts, j, k);
    states', acts' := CanSettle(states[k]);
    PathKeeps(states', acts', |acts'|, acts[j].v);
    QuietHasNoCover(states'[|acts'|]);
  }

  /** An idle vCPU with ON clear that blocks falls asleep, no stale wake-up left, exactly when its virtual IRR is empty. */
  lemma IdleVcpuSleepsIff(s: State)
    requires Inv(s) && Quiet(s) && s.pc.Host? && !s.on
    ensures Enabled(s, ArmBlock) && Enabled(Step(s, ArmBlock), PollOn)
    ensures var t := Step(Step(s, ArmBlock), PollOn);
            && Enabled(t, CommitBlock) && !Step(t, CommitBlock).woken
            && (Step(t, CommitBlock).pc.Asleep? <==> s.irr == {})
  {
  }

  // ---------------------------------------------------------------- why the entry order matters

  /** The same system with the entry reversed: synchronise first, set IN_GUEST_MODE at VM entry. */
  function SwappedStep(s: State, a: Action): State
    requires Enabled(s, a)
  {
    match a
    case EnterGuest => s.(pc := TestOn(Entry))
    case VmEntry => s.(inGuest := true, session := s.session + 1, pc := NonRoot)
    case _ => Step(s, a)
  }

  ghost predicate IsSwappedRun(states: seq<State>, acts: seq<Action>) {
    |states| == |acts| + 1 && Init(states[0]) &&
    forall k :: 0 <= k < |acts| ==> Enabled(states[k], acts[k]) && states[k + 1] == SwappedStep(states[k], acts[k])
  }

  /** A sender delivers between the vCPU's synchronisation and its late store to the mode. */
  function LosingAct(k: nat): Action {
    match k
    case 0 => EnterGuest
    case 1 => PollOn
    case 2 => Post(1, 33)
    case 3 => SetOn(1)
    case 4 => ReadMode(1)
    case 5 => Wake(1)
    case _ => VmEntry
  }

  function LosingState(k: nat): State {
    State(if k < 3 then {} else {33}, 4 <= k, {}, 7 <= k, if 7 <= k then 1 else 0, false, 6 <= k,
          if k == 0 then Host else if k == 1 then TestOn(Entry) else if k < 7 then Synced(Entry) else NonRoot,
          [Idle, if k == 3 then PirSet else if k == 4 then OnSet else if k == 5 then WakeUp else Idle])
  }

  lemma LosingStep(k: nat)
    requires k < 7
    ensures Enabled(LosingState(k), LosingAct(k))
    ensures LosingState(k + 1) == SwappedStep(LosingState(k), LosingAct(k))
  {
    assert k == 0 || k == 1 || k == 2 || k == 3 || k == 4 || k == 5 || k == 6;
  }

  /** With the entry reversed a run exists in which the guest runs past a posted interrupt for good. */
  lemma SyncBeforeModeLosesAnInterrupt() returns (states: seq<State>, acts: seq<Action>)
    ensures IsSwappedRun(states, acts)
    ensures var s := states[|acts|];
            s.pc.NonRoot? && Quiet(s) && !s.ipi && s.on && s.pir == {33} && s.irr == {}
  {
    states, acts := seq(8, k requires 0 <= k => LosingState(k)), seq(7, k requires 0 <= k => LosingAct(k));
    forall k: nat | k < 7
      ensures Enabled(states[k], acts[k]) && states[k + 1] == SwappedStep(states[k], acts[k])
    {
      LosingStep(k);
    }
  }
}
