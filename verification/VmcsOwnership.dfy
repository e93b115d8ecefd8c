/**
 VMCS ownership and migration (vmx.c).

 Each VMCS has one worker, the thread that holds its vCPU mutex and loads or frees it.  A CPU runs
 __loaded_vmcs_clear in two places: in the handler of a function call sent by loaded_vmcs_clear, and
 in the loop that empties the CPU's list when the CPU is taken down.  The loop runs with interrupts
 on, so a handler can interrupt it between any two statements; the loop, and every task on that CPU,
 stands still until the handler returns.  Every store that another CPU can observe is one step.

 The ownership theorems hold for every VMCS on which no handler starts while the loop is half way
 through clearing it; VmcsRaces shows that this is exactly the condition.  Shadow VMCSs and the
 emergency reboot path are not modelled.
*/
module VmcsOwnership {

  const NONE: int := -1

  datatype Goal = LoadOn(cpu: int) | Free

  /** Where vmx_vcpu_load_vmcs, or free_loaded_vmcs, stands. */
  datatype Worker =
    | Idle
    | NeedClear(goal: Goal)            // about to read loaded_vmcs->cpu in loaded_vmcs_clear
    | Calling(goal: Goal, x: int)      // read x, about to call __loaded_vmcs_clear on it
    | Waiting(goal: Goal, x: int)      // the call is queued or running on x
    | Cleared(goal: Goal)
    | Listed(c: int)                   // on c's list
    | AlreadyLoaded(c: int)            // the first test found loaded_vmcs->cpu == c
    | PtrLoaded(c: int)                // current on c, loaded_vmcs->cpu not yet written
    | Resident(c: int)                 // loaded; preemption stays off until the put
    | Gone                             // page freed

  /** The next statement of __loaded_vmcs_clear. */
  datatype Stage = Check | DropCurrent | Vmclear | ListDel | ResetCpu | ResetLaunched

  datatype Clearer = NoClear | Clear(v: nat, stage: Stage)

  datatype Power = Online | Dying | Offline

  /** struct loaded_vmcs, and what the hardware knows of its VMCS. */
  datatype LoadedVmcs = LoadedVmcs(cpu: int, launched: bool, live: bool, hwActive: set<int>, hwLaunched: bool)

  /** handlers and loops: the clear in progress on each CPU, at interrupt level and in the offline loop. */
  datatype State = State(
    power: seq<Power>, lists: seq<set<nat>>, current: seq<int>, handlers: seq<Clearer>, loops: seq<Clearer>,
    vms: seq<LoadedVmcs>, workers: seq<Worker>)

  datatype Action =
    | BeginLoad(v: nat, c: nat) | BeginFree(v: nat)
    | ReadCpu(v: nat) | Call(v: nat) | ListAdd(v: nat) | SetCurrent(v: nat) | SetCpu(v: nat)
    | Run(v: nat) | Put(v: nat) | FreePage(v: nat)
    | StartHandler(c: nat, v: nat) | HandlerStep(c: nat)
    | StartOffline(c: nat) | OfflinePick(c: nat, v: nat) | LoopStep(c: nat) | GoOffline(c: nat) | GoOnline(c: nat)

  predicate WellFormed(s: State) {
    |s.power| == |s.lists| == |s.current| == |s.handlers| == |s.loops| && |s.vms| == |s.workers|
  }

  /** The CPU a worker's task is pinned to, with preemption off. */
  predicate Occupies(w: Worker, c: int) {
    match w
    case NeedClear(g) => g == LoadOn(c)
    case Calling(g, _) => g == LoadOn(c)
    case Waiting(g, _) => g == LoadOn(c)
    case Cleared(g) => g == LoadOn(c)
    case Listed(d) => d == c
    case AlreadyLoaded(d) => d == c
    case PtrLoaded(d) => d == c
    case Resident(d) => d == c
    case _ => false
  }

  predicate WorkerAction(a: Action) {
    a.BeginLoad? || a.BeginFree? || a.ReadCpu? || a.Call? || a.ListAdd? || a.SetCurrent? ||
    a.SetCpu? || a.Run? || a.Put? || a.FreePage?
  }

  ghost predicate WorkerEnabled(s: State, a: Action)
    requires WellFormed(s) && WorkerAction(a)
  {
    a.v < |s.workers| &&
    var w := s.workers[a.v];
    (forall c :: 0 <= c < |s.power| && Occupies(w, c) ==> s.handlers[c].NoClear?) &&
    match a
    case BeginLoad(v, c) =>
      w.Idle? && c < |s.power| && s.power[c].Online? && s.handlers[c].NoClear? &&
      forall u :: 0 <= u < |s.workers| ==> !Occupies(s.workers[u], c)
    case BeginFree(v) => w.Idle?
    case ReadCpu(v) => w.NeedClear?
    case Call(v) => w.Calling? && 0 <= w.x < |s.power|
    case ListAdd(v) => w.Cleared? && w.goal.LoadOn? && 0 <= w.goal.cpu < |s.lists|
    case SetCurrent(v) => (w.Listed? || w.AlreadyLoaded?) && 0 <= w.c < |s.current|
    case SetCpu(v) => w.PtrLoaded?
    case Run(v) => w.Resident?
    case Put(v) => w.Resident?
    case FreePage(v) => w == Cleared(Free)
  }

  ghost predicate CpuEnabled(s: State, a: Action)
    requires WellFormed(s) && !WorkerAction(a)
  {
    a.c < |s.power| &&
    match a
    case StartHandler(c, v) =>
      s.handlers[c].NoClear? && !s.power[c].Offline? &&
      v < |s.workers| && s.workers[v].Waiting? && s.workers[v].x == c
    case HandlerStep(c) => s.handlers[c].Clear? && s.handlers[c].v < |s.workers|
    case StartOffline(c) =>
      s.power[c].Online? && s.handlers[c].NoClear? &&
      forall u :: 0 <= u < |s.workers| ==> !Occupies(s.workers[u], c)
    // any VMCS: the loop looks one entry ahead, and that entry may have left the list since
    case OfflinePick(c, v) =>
      s.power[c].Dying? && s.handlers[c].NoClear? && s.loops[c].NoClear? && v < |s.workers|
    case LoopStep(c) => s.handlers[c].NoClear? && s.loops[c].Clear? && s.loops[c].v < |s.workers|
    case GoOffline(c) =>
      s.power[c].Dying? && s.handlers[c].NoClear? && s.loops[c].NoClear? && s.lists[c] == {} &&
      forall u :: 0 <= u < |s.workers| ==> !(s.workers[u].Waiting? && s.workers[u].x == c)
    case GoOnline(c) => s.power[c].Offline?
  }

  ghost predicate Enabled(s: State, a: Action) {
    WellFormed(s) && if WorkerAction(a) then WorkerEnabled(s, a) else CpuEnabled(s, a)
  }

  function SetWorker(s: State, v: nat, w: Worker): State
    requires v < |s.workers|
  {
    s.(workers := s.workers[v := w])
  }

  function SetVm(s: State, v: nat, vm: LoadedVmcs): State
    requires v < |s.vms|
  {
    s.(vms := s.vms[v := vm])
  }

  ghost function WorkerStep(s: State, a: Action): State
    requires WellFormed(s) && WorkerAction(a) && WorkerEnabled(s, a)
  {
    var w, vm := s.workers[a.v], s.vms[a.v];
    match a
    case BeginLoad(v, c) => SetWorker(s, v, if vm.cpu == c then AlreadyLoaded(c) else NeedClear(LoadOn(c)))
    case BeginFree(v) => SetWorker(s, v, NeedClear(Free))
    case ReadCpu(v) => SetWorker(s, v, if vm.cpu == NONE then Cleared(w.goal) else Calling(w.goal, vm.cpu))
    // smp_call_function_single fails at once when the CPU is down
    case Call(v) => SetWorker(s, v, if s.power[w.x].Offline? then Cleared(w.goal) else Waiting(w.goal, w.x))
    case ListAdd(v) =>
      SetWorker(s, v, Listed(w.goal.cpu)).(lists := s.lists[w.goal.cpu := s.lists[w.goal.cpu] + {v}])
    case SetCurrent(v) =>
      var t := SetWorker(s, v, if w.Listed? then PtrLoaded(w.c) else Resident(w.c));
      if s.current[w.c] == v then t
      else SetVm(t, v, vm.(hwActive := vm.hwActive + {w.c})).(current := s.current[w.c := v])
    case SetCpu(v) => SetVm(SetWorker(s, v, Resident(w.c)), v, vm.(cpu := w.c))
    // VMRESUME if launched, else VMLAUNCH; the wrong one fails and changes nothing
    case Run(v) => if vm.launched == vm.hwLaunched then SetVm(s, v, vm.(launched := true, hwLaunched := true)) else s
    case Put(v) => SetWorker(s, v, Idle)
    case FreePage(v) => SetVm(SetWorker(s, v, Gone), v, vm.(live := false))
  }

  /** list_del unlinks the entry from whatever list it is on. */
  function Unlinked(lists: seq<set<nat>>, v: nat): (r: seq<set<nat>>)
    ensures |r| == |lists| && forall c :: 0 <= c < |r| ==> r[c] == lists[c] - {v}
  {
    seq(|lists|, c requires 0 <= c < |lists| => lists[c] - {v})
  }

  /** The next statement of __loaded_vmcs_clear on CPU c, for the clear x. */
  function Effect(s: State, c: nat, x: Clearer): (t: State)
    requires WellFormed(s) && c < |s.power| && x.Clear? && x.v < |s.vms|
    ensures t == s.(lists := t.lists, current := t.current, vms := t.vms)
    ensures WellFormed(t) && |t.vms| == |s.vms|
  {
    var v, vm := x.v, s.vms[x.v];
    match x.stage
    case Check => s
    case DropCurrent => if s.current[c] == v then s.(current := s.current[c := NONE]) else s
    case Vmclear => SetVm(s, v, vm.(hwActive := vm.hwActive - {c}, hwLaunched := false))
    case ListDel => s.(lists := Unlinked(s.lists, v))
    case ResetCpu => SetVm(s, v, vm.(cpu := NONE))
    case ResetLaunched => SetVm(s, v, vm.(launched := false))
  }

  /** Where the clear stands after that; the first test sends it home if the VMCS is not this CPU's. */
  function Advanced(x: Clearer, here: bool): Clearer
    requires x.Clear?
  {
    match x.stage
    case Check => if here then x.(stage := DropCurrent) else NoClear
    case DropCurrent => x.(stage := Vmclear)
    case Vmclear => x.(stage := ListDel)
    case ListDel => x.(stage := ResetCpu)
    case ResetCpu => x.(stage := ResetLaunched)
    case ResetLaunched => NoClear
  }

  /** A statement of the handler; when it returns, the worker that waits for it goes on. */
  function AfterHandler(s: State, c: nat): State
    requires WellFormed(s) && c < |s.power| && s.handlers[c].Clear? && s.handlers[c].v < |s.workers|
  {
    var x := s.handlers[c];
    var y := Advanced(x, s.vms[x.v].cpu == c);
    var t := Effect(s, c, x).(handlers := s.handlers[c := y]);
    if y.NoClear? && s.workers[x.v].Waiting? then SetWorker(t, x.v, Cleared(s.workers[x.v].goal)) else t
  }

  function StagesLeft(x: Clearer): nat {
    if x.NoClear? then 0
    else
      match x.stage
      case Check => 6
      case DropCurrent => 5
      case Vmclear => 4
      case ListDel => 3
      case ResetCpu => 2
      case ResetLaunched => 1
  }

  /** The handler on CPU c run to its end. */
  function HandlerDone(s: State, c: nat): State
    requires WellFormed(s) && c < |s.power| && (s.handlers[c].Clear? ==> s.handlers[c].v < |s.workers|)
    decreases StagesLeft(s.handlers[c])
  {
    if s.handlers[c].NoClear? then s else HandlerDone(AfterHandler(s, c), c)
  }

  predicate AtStage(s: State, c: nat, v: nat, stage: Stage) {
    && WellFormed(s) && c < |s.power| && v < |s.workers|
    && s.handlers[c] == Clear(v, stage) && s.workers[v].Waiting?
  }

  /** The handler has returned and the worker that waited for it goes on. */
  function Finished(s: State, c: nat, v: nat): State
    requires c < |s.handlers| && v < |s.workers| && s.workers[v].Waiting?
  {
    s.(handlers := s.handlers[c := NoClear], workers := s.workers[v := Cleared(s.workers[v].goal)])
  }

  lemma FromResetLaunched(s: State, c: nat, v: nat)
    requires AtStage(s, c, v, ResetLaunched)
    ensures HandlerDone(s, c) == Finished(s, c, v).(vms := s.vms[v := s.vms[v].(launched := false)])
  {
    hide Unlinked;
    var t := AfterHandler(s, c);
    assert HandlerDone(s, c) == HandlerDone(t, c);
  }

  lemma FromResetCpu(s: State, c: nat, v: nat)
    requires AtStage(s, c, v, ResetCpu)
    ensures HandlerDone(s, c) == Finished(s, c, v).(vms := s.vms[v := s.vms[v].(cpu := NONE, launched := false)])
  {
    hide Unlinked;
    var t := AfterHandler(s, c);
    assert HandlerDone(s, c) == HandlerDone(t, c);
    FromResetLaunched(t, c, v);
    hide HandlerDone;
    assert t.handlers[c := NoClear] == s.handlers[c := NoClear];
    assert t.vms[v := t.vms[v].(launched := false)] == s.vms[v := s.vms[v].(cpu := NONE, launched := false)];
  }

  lemma FromListDel(s: State, c: nat, v: nat)
    requires AtStage(s, c, v, ListDel)
    ensures HandlerDone(s, c) == Finished(s, c, v).(vms := s.vms[v := s.vms[v].(cpu := NONE, launched := false)], lists := Unlinked(s.lists, v))
  {
    hide Unlinked;
    var t := AfterHandler(s, c);
    assert HandlerDone(s, c) == HandlerDone(t, c);
    FromResetCpu(t, c, v);
    hide HandlerDone;
    assert t.handlers[c := NoClear] == s.handlers[c := NoClear];
  }

  lemma FromVmclear(s: State, c: nat, v: nat)
    requires AtStage(s, c, v, Vmclear)
    ensures HandlerDone(s, c) == Finished(s, c, v).(vms := s.vms[v := s.vms[v].(cpu := NONE, launched := false, hwActive := s.vms[v].hwActive - {c}, hwLaunched := false)],
                                                  lists := Unlinked(s.lists, v))
  {
    hide Unlinked;
    var t := AfterHandler(s, c);
    assert HandlerDone(s, c) == HandlerDone(t, c);
    FromListDel(t, c, v);
    hide HandlerDone;
    assert t.handlers[c := NoClear] == s.handlers[c := NoClear];
    assert t.vms[v := t.vms[v].(cpu := NONE, launched := false)] ==
           s.vms[v := s.vms[v].(cpu := NONE, launched := false, hwActive := s.vms[v].hwActive - {c}, hwLaunched := false)];
  }

  /**
   What __loaded_vmcs_clear amounts to when nothing comes between its statements: a VMCS loaded on
   this CPU is afterwards current and active here no more, on no list, on no CPU and not launched;
   any other is left as it is.  Nothing else changes but that the waiting worker goes on.
  */
  lemma WholeClear(s: State, c: nat, v: nat)
    requires AtStage(s, c, v, Check)
    ensures var t := HandlerDone(s, c); var vm := s.vms[v];
            && t.handlers == s.handlers[c := NoClear] && t.workers == s.workers[v := Cleared(s.workers[v].goal)]
            && t.power == s.power && t.loops == s.loops
            && if vm.cpu == c then
                 && t.lists == Unlinked(s.lists, v)
                 && t.current == (if s.current[c] == v then s.current[c := NONE] else s.current)
                 && t.vms == s.vms[v := LoadedVmcs(NONE, false, vm.live, vm.hwActive - {c}, false)]
               else t.lists == s.lists && t.current == s.current && t.vms == s.vms
  {
    hide Unlinked;
    var t := AfterHandler(s, c);
    assert HandlerDone(s, c) == HandlerDone(t, c);
    if s.vms[v].cpu == c {
      var u := AfterHandler(t, c);
      assert HandlerDone(t, c) == HandlerDone(u, c);
      FromVmclear(u, c, v);
      hide HandlerDone;
      assert t.handlers == s.handlers[c := Clear(v, DropCurrent)];
      assert u.handlers[c := NoClear] == s.handlers[c := NoClear];
    }
  }

  function AfterLoop(s: State, c: nat): State
    requires WellFormed(s) && c < |s.power| && s.loops[c].Clear? && s.loops[c].v < |s.workers|
  {
    var x := s.loops[c];
    Effect(s, c, x).(loops := s.loops[c := Advanced(x, s.vms[x.v].cpu == c)])
  }

  ghost function CpuStep(s: State, a: Action): State
    requires WellFormed(s) && !WorkerAction(a) && CpuEnabled(s, a)
  {
    match a
    case StartHandler(c, v) => s.(handlers := s.handlers[c := Clear(v, Check)])
    case HandlerStep(c) => AfterHandler(s, c)
    case StartOffline(c) => s.(power := s.power[c := Dying])
    case OfflinePick(c, v) => s.(loops := s.loops[c := Clear(v, Check)])
    case LoopStep(c) => AfterLoop(s, c)
    case GoOffline(c) => s.(power := s.power[c := Offline])
    case GoOnline(c) => s.(power := s.power[c := Online])
  }

  ghost function Step(s: State, a: Action): State
    requires Enabled(s, a)
  {
    if WorkerAction(a) then WorkerStep(s, a) else CpuStep(s, a)
  }

  ghost predicate Init(s: State) {
    && WellFormed(s)
    && (forall c :: 0 <= c < |s.power| ==>
          s.power[c].Online? && s.lists[c] == {} && s.current[c] == NONE &&
          s.handlers[c].NoClear? && s.loops[c].NoClear?)
    && (forall v :: 0 <= v < |s.vms| ==>
          s.vms[v] == LoadedVmcs(NONE, false, true, {}, false) && s.workers[v].Idle?)
  }

  ghost predicate IsRun(states: seq<State>, acts: seq<Action>) {
    |states| == |acts| + 1 && Init(states[0]) &&
    forall k :: 0 <= k < |acts| ==> Enabled(states[k], acts[k]) && states[k + 1] == Step(states[k], acts[k])
  }

  // ---------------------------------------------------------------- the race left out

  predicate Busy(x: Clearer, v: nat) { x.Clear? && x.v == v }

  /** The clear has matched loaded_vmcs->cpu and not yet reset it. */
  predicate Clearing(x: Clearer, v: nat) { Busy(x, v) && (x.stage.DropCurrent? || PastDrop(x, v)) }
  predicate PastDrop(x: Clearer, v: nat) { Busy(x, v) && (x.stage.Vmclear? || PastVmclear(x, v)) }
  predicate PastVmclear(x: Clearer, v: nat) { Busy(x, v) && (x.stage.ListDel? || PastListDel(x, v)) }
  predicate PastListDel(x: Clearer, v: nat) { Busy(x, v) && x.stage.ResetCpu? }

  /** The handler of a remote clear of v starts while the offline loop it interrupts is half way through clearing v. */
  predicate Races(s: State, a: Action, v: nat) {
    a.StartHandler? && a.v == v && a.c < |s.loops| && Clearing(s.loops[a.c], v)
  }

  ghost predicate RaceFree(states: seq<State>, acts: seq<Action>, v: nat, k: nat)
    requires |acts| < |states| && k <= |acts|
  {
    forall m :: 0 <= m < k ==> !Races(states[m], acts[m], v)
  }

  // ---------------------------------------------------------------- the invariant

  /** What holds of one VMCS and one CPU, where h and x are the handler and the loop of that CPU. */
  predicate Linked(c: int, listed: bool, cur: int, h: Clearer, x: Clearer, v: nat, vm: LoadedVmcs, w: Worker) {
    && (listed <==> (vm.cpu == c && !PastListDel(h, v) && !PastListDel(x, v)) || w == Listed(c) || w == PtrLoaded(c))
    && (c in vm.hwActive <==> (vm.cpu == c && !PastVmclear(h, v) && !PastVmclear(x, v)) || w == PtrLoaded(c))
    && (cur == v ==> (vm.cpu == c && !PastDrop(h, v) && !PastDrop(x, v)) || w == PtrLoaded(c))
    && (w == Resident(c) || w == PtrLoaded(c) ==> cur == v)
  }

  predicate ClearerOk(c: int, p: Power, h: Clearer, x: Clearer, v: nat, vm: LoadedVmcs, w: Worker) {
    && (Clearing(h, v) || Clearing(x, v) ==> vm.cpu == c)
    && (Busy(h, v) ==> w.Waiting? && w.x == c && !Clearing(x, v) && (h.stage == ResetLaunched ==> vm.cpu == NONE))
    && (x.Clear? ==> p.Dying?)
    && (!p.Online? ==> !Occupies(w, c))
    && (p.Offline? ==> h.NoClear? && vm.cpu != c && !(w.Waiting? && w.x == c))
  }

  predicate WorkerOk(n: nat, vm: LoadedVmcs, w: Worker) {
    && NONE <= vm.cpu < n
    && (forall d :: d in vm.hwActive ==> 0 <= d < n)
    && (vm.live <==> !w.Gone?)
    && match w
       case NeedClear(g) => g.LoadOn? ==> 0 <= g.cpu < n && vm.cpu != g.cpu
       case Calling(g, x) => 0 <= x < n && (vm.cpu == x || vm.cpu == NONE) && (g.LoadOn? ==> 0 <= g.cpu < n && x != g.cpu)
       case Waiting(g, x) => 0 <= x < n && (vm.cpu == x || vm.cpu == NONE) && (g.LoadOn? ==> 0 <= g.cpu < n && x != g.cpu)
       case Cleared(g) => vm.cpu == NONE && (g.LoadOn? ==> 0 <= g.cpu < n)
       case Listed(c) => vm.cpu == NONE && 0 <= c < n
       case PtrLoaded(c) => vm.cpu == NONE && 0 <= c < n
       case AlreadyLoaded(c) => vm.cpu == c && 0 <= c < n
       case Resident(c) => vm.cpu == c && 0 <= c < n
       case Gone => vm.cpu == NONE
       case Idle => true
  }

  /** At most one worker is pinned to a CPU. */
  ghost predicate Exclusive(s: State) {
    forall u, v, c :: 0 <= u < |s.workers| && 0 <= v < |s.workers| && u != v && 0 <= c < |s.power| ==>
      !(Occupies(s.workers[u], c) && Occupies(s.workers[v], c))
  }

  ghost predicate PairOk(s: State, v: nat, c: nat)
    requires WellFormed(s) && v < |s.vms| && c < |s.power|
  {
    && Linked(c, v in s.lists[c], s.current[c], s.handlers[c], s.loops[c], v, s.vms[v], s.workers[v])
    && ClearerOk(c, s.power[c], s.handlers[c], s.loops[c], v, s.vms[v], s.workers[v])
  }

  /** The invariant of one VMCS; it does not depend on what befalls the others. */
  ghost predicate InvOf(s: State, v: nat) {
    && WellFormed(s) && v < |s.vms|
    && (forall c :: 0 <= c < |s.power| ==> PairOk(s, v, c))
    && WorkerOk(|s.power|, s.vms[v], s.workers[v])
    && Exclusive(s)
  }

  lemma OwnStepKeepsPair(s: State, a: Action, c: nat)
    requires Enabled(s, a) && WorkerAction(a)
    requires c < |s.power| && PairOk(s, a.v, c) && WorkerOk(|s.power|, s.vms[a.v], s.workers[a.v])
    requires a.Call? && 0 <= s.workers[a.v].x < |s.power| ==> PairOk(s, a.v, s.workers[a.v].x)
    ensures PairOk(WorkerStep(s, a), a.v, c)
  {
    var t := WorkerStep(s, a);
    assert t.handlers == s.handlers && t.loops == s.loops && t.power == s.power;
  }

  lemma OwnStepKeepsWorker(s: State, a: Action)
    requires Enabled(s, a) && WorkerAction(a) && WorkerOk(|s.power|, s.vms[a.v], s.workers[a.v])
    requires a.Call? && 0 <= s.workers[a.v].x < |s.power| ==> PairOk(s, a.v, s.workers[a.v].x)
    ensures WorkerOk(|s.power|, WorkerStep(s, a).vms[a.v], WorkerStep(s, a).workers[a.v])
  {
  }

  lemma OtherStepKeepsWorker(s: State, a: Action, v: nat)
    requires Enabled(s, a) && WorkerAction(a) && v < |s.vms| && v != a.v
    ensures WorkerStep(s, a).vms[v] == s.vms[v] && WorkerStep(s, a).workers[v] == s.workers[v]
  {
  }

  lemma OtherStepKeepsPair(s: State, a: Action, v: nat, c: nat)
    requires Enabled(s, a) && WorkerAction(a)
    requires v < |s.vms| && v != a.v && c < |s.power| && PairOk(s, v, c)
    requires !(Occupies(s.workers[v], c) && Occupies(s.workers[a.v], c))
    ensures PairOk(WorkerStep(s, a), v, c)
  {
  }

  lemma WorkerStepKeepsExclusive(s: State, a: Action)
    requires Enabled(s, a) && WorkerAction(a) && Exclusive(s)
    ensures Exclusive(WorkerStep(s, a))
  {
    var t := WorkerStep(s, a);
    forall u, v, c | 0 <= u < |t.workers| && 0 <= v < |t.workers| && u != v && 0 <= c < |t.power|
      ensures !(Occupies(t.workers[u], c) && Occupies(t.workers[v], c))
    {
      assert !(Occupies(s.workers[u], c) && Occupies(s.workers[v], c));
    }
  }

  lemma WorkerStepShape(s: State, a: Action)
    requires Enabled(s, a) && WorkerAction(a)
    ensures var t := WorkerStep(s, a);
            WellFormed(t) && |t.vms| == |s.vms| && |t.power| == |s.power|
    ensures a.v < |s.workers|
    ensures a.Call? ==> s.workers[a.v].Calling?
  {
  }

  lemma WorkerStepKeepsInv(s: State, a: Action, v: nat)
    requires InvOf(s, v) && WorkerAction(a) && WorkerEnabled(s, a)
    ensures InvOf(WorkerStep(s, a), v)
  {
    WorkerStepShape(s, a);
    hide WorkerEnabled, WorkerStep;
    var t := WorkerStep(s, a);
    forall c | 0 <= c < |t.power| ensures PairOk(t, v, c) {
      if v == a.v { OwnStepKeepsPair(s, a, c); } else { OtherStepKeepsPair(s, a, v, c); }
    }
    if v == a.v { OwnStepKeepsWorker(s, a); } else { OtherStepKeepsWorker(s, a, v); }
    WorkerStepKeepsExclusive(s, a);
  }

  /** The clear a step carries on with, if it does. */
  function Current(s: State, a: Action): Clearer
    requires WellFormed(s)
  {
    if a.HandlerStep? && a.c < |s.handlers| then s.handlers[a.c]
    else if a.LoopStep? && a.c < |s.loops| then s.loops[a.c]
    else NoClear
  }

  /** A statement of the clear of v, seen from the CPU it runs on. */
  lemma ClearHere(s: State, a: Action, v: nat)
    requires Enabled(s, a) && !WorkerAction(a) && Busy(Current(s, a), v) && v < |s.vms| && PairOk(s, v, a.c)
    ensures PairOk(CpuStep(s, a), v, a.c)
  {
  }

  /** ... and from another CPU. */
  lemma ClearElsewhere(s: State, a: Action, v: nat, c: nat)
    requires Enabled(s, a) && !WorkerAction(a) && Busy(Current(s, a), v) && v < |s.vms|
    requires c < |s.power| && c != a.c && PairOk(s, v, c) && PairOk(s, v, a.c)
    requires WorkerOk(|s.power|, s.vms[v], s.workers[v])
    ensures PairOk(CpuStep(s, a), v, c)
  {
  }

  lemma ClearKeepsWorker(s: State, a: Action, v: nat)
    requires Enabled(s, a) && !WorkerAction(a) && Busy(Current(s, a), v) && v < |s.vms| && PairOk(s, v, a.c)
    requires WorkerOk(|s.power|, s.vms[v], s.workers[v])
    ensures WorkerOk(|s.power|, CpuStep(s, a).vms[v], CpuStep(s, a).workers[v])
  {
  }

  /** A statement of the clear of another VMCS. */
  lemma ClearOfAnotherKeeps(s: State, a: Action, v: nat, c: nat)
    requires Enabled(s, a) && !WorkerAction(a) && Current(s, a).Clear? && Current(s, a).v != v && v < |s.vms|
    requires c < |s.power|
    ensures var t := CpuStep(s, a);
            && WellFormed(t) && |t.power| == |s.power| && |t.vms| == |s.vms|
            && t.power[c] == s.power[c] && (v in t.lists[c] <==> v in s.lists[c])
            && (t.current[c] == v <==> s.current[c] == v) && t.vms[v] == s.vms[v] && t.workers[v] == s.workers[v]
            && (t.handlers[c] == s.handlers[c] || (!Busy(t.handlers[c], v) && !Busy(s.handlers[c], v)))
            && (t.loops[c] == s.loops[c] || (!Busy(t.loops[c], v) && !Busy(s.loops[c], v) && s.loops[c].Clear?))
            && (t.handlers[c].Clear? ==> s.handlers[c].Clear?)
  {
  }

  lemma ClearOfAnother(s: State, a: Action, v: nat, c: nat)
    requires Enabled(s, a) && !WorkerAction(a) && Current(s, a).Clear? && Current(s, a).v != v && v < |s.vms|
    requires c < |s.power| && PairOk(s, v, c)
    ensures PairOk(CpuStep(s, a), v, c)
    ensures CpuStep(s, a).vms[v] == s.vms[v] && CpuStep(s, a).workers[v] == s.workers[v]
  {
    ClearOfAnotherKeeps(s, a, v, c);
    hide CpuStep, CpuEnabled, Current, Occupies;
  }

  /** The other steps of a CPU. */
  lemma PowerStepKeepsPair(s: State, a: Action, v: nat, c: nat)
    requires Enabled(s, a) && !WorkerAction(a) && Current(s, a).NoClear? && !Races(s, a, v)
    requires v < |s.vms| && c < |s.power| && PairOk(s, v, c)
    requires WorkerOk(|s.power|, s.vms[v], s.workers[v])
    ensures PairOk(CpuStep(s, a), v, c)
    ensures CpuStep(s, a).vms == s.vms && CpuStep(s, a).workers == s.workers
  {
  }

  lemma CpuStepPinsNobody(s: State, a: Action, u: nat, c: nat)
    requires Enabled(s, a) && !WorkerAction(a) && u < |s.workers|
    ensures Occupies(CpuStep(s, a).workers[u], c) ==> Occupies(s.workers[u], c)
  {
  }

  lemma CpuStepShape(s: State, a: Action)
    requires Enabled(s, a) && !WorkerAction(a)
    ensures var t := CpuStep(s, a);
            WellFormed(t) && |t.vms| == |s.vms| && |t.power| == |s.power|
    ensures a.c < |s.power|
  {
  }

  lemma CpuStepKeepsInv(s: State, a: Action, v: nat)
    requires InvOf(s, v) && !WorkerAction(a) && CpuEnabled(s, a) && !Races(s, a, v)
    ensures InvOf(CpuStep(s, a), v)
  {
    CpuStepShape(s, a);
    hide CpuEnabled, CpuStep, Current, Races;
    var t, x := CpuStep(s, a), Current(s, a);
    forall c | 0 <= c < |t.power|
      ensures PairOk(t, v, c) && WorkerOk(|t.power|, t.vms[v], t.workers[v])
    {
      if x.NoClear? {
        PowerStepKeepsPair(s, a, v, c);
      } else if x.v != v {
        ClearOfAnother(s, a, v, c);
      } else {
        if c == a.c { ClearHere(s, a, v); } else { ClearElsewhere(s, a, v, c); }
        ClearKeepsWorker(s, a, v);
      }
    }
    assert PairOk(t, v, a.c);
    forall u, w, c | 0 <= u < |t.workers| && 0 <= w < |t.workers| && u != w && 0 <= c < |t.power|
      ensures !(Occupies(t.workers[u], c) && Occupies(t.workers[w], c))
    {
      CpuStepPinsNobody(s, a, u, c);
      CpuStepPinsNobody(s, a, w, c);
    }
  }

  lemma {:induction false} RunsKeepInv(states: seq<State>, acts: seq<Action>, v: nat, k: nat)
    requires IsRun(states, acts) && k <= |acts| && v < |states[0].vms| && RaceFree(states, acts, v, k)
    ensures InvOf(states[k], v)
  {
    if k > 0 {
      RunsKeepInv(states, acts, v, k - 1);
      assert !Races(states[k - 1], acts[k - 1], v);
      if WorkerAction(acts[k - 1]) {
        WorkerStepKeepsInv(states[k - 1], acts[k - 1], v);
      } else {
        CpuStepKeepsInv(states[k - 1], acts[k - 1], v);
      }
    }
  }

  // ---------------------------------------------------------------- ownership

  /** No load of v is between linking it and writing its cpu field, and no clear of it is half done. */
  ghost predicate Settled(s: State, v: nat)
    requires WellFormed(s) && v < |s.vms|
  {
    !s.workers[v].Listed? && !s.workers[v].PtrLoaded? &&
    forall c :: 0 <= c < |s.power| ==> !Clearing(s.handlers[c], v) && !Clearing(s.loops[c], v)
  }

  /** Lists, current_vmcs, the cpu field and the hardware agree about every settled VMCS. */
  lemma OwnershipIsConsistent(states: seq<State>, acts: seq<Action>, k: nat, v: nat, c: nat)
    requires IsRun(states, acts) && k <= |acts| && v < |states[0].vms| && RaceFree(states, acts, v, k)
    ensures WellFormed(states[k]) && v < |states[k].vms|
    ensures c < |states[k].power| && Settled(states[k], v) ==>
              && (v in states[k].lists[c] <==> states[k].vms[v].cpu == c)
              && (c in states[k].vms[v].hwActive <==> states[k].vms[v].cpu == c)
              && (states[k].current[c] == v ==> states[k].vms[v].cpu == c)
  {
    RunsKeepInv(states, acts, v, k);
    if c < |states[k].power| {
      assert PairOk(states[k], v, c);
    }
  }

  /** In every state, settled or not, a VMCS is on one CPU's list at most and active on one CPU at most. */
  lemma OneHome(states: seq<State>, acts: seq<Action>, k: nat, v: nat, c: nat, d: nat)
    requires IsRun(states, acts) && k <= |acts| && v < |states[0].vms| && RaceFree(states, acts, v, k)
    ensures WellFormed(states[k]) && v < |states[k].vms|
    ensures c < |states[k].power| && d < |states[k].power| && c != d ==>
              && !(v in states[k].lists[c] && v in states[k].lists[d])
              && !(c in states[k].vms[v].hwActive && d in states[k].vms[v].hwActive)
              && !(states[k].current[c] == v && states[k].current[d] == v)
  {
    RunsKeepInv(states, acts, v, k);
    if c < |states[k].power| && d < |states[k].power| {
      assert PairOk(states[k], v, c) && PairOk(states[k], v, d);
    }
  }

  /** free_loaded_vmcs leaves nothing naming the freed page, even when CPUs went down meanwhile. */
  lemma FreedPageIsUnreferenced(states: seq<State>, acts: seq<Action>, k: nat, v: nat)
    requires IsRun(states, acts) && k <= |acts| && v < |states[0].vms| && RaceFree(states, acts, v, k)
    ensures WellFormed(states[k]) && v < |states[k].vms|
    ensures !states[k].vms[v].live ==>
              && states[k].vms[v].hwActive == {}
              && forall c :: 0 <= c < |states[k].power| ==> v !in states[k].lists[c] && states[k].current[c] != v
  {
    RunsKeepInv(states, acts, v, k);
    var vm, n := states[k].vms[v], |states[k].power|;
    if !vm.live {
      assert forall d :: d in vm.hwActive ==> 0 <= d < n;
      forall c | 0 <= c < n
        ensures v !in states[k].lists[c] && states[k].current[c] != v && c !in vm.hwActive
      {
        assert PairOk(states[k], v, c);
      }
    }
  }

  /** The step takes v off a list. */
  predicate Unlinks(s: State, a: Action, v: nat)
    requires WellFormed(s)
  {
    Current(s, a) == Clear(v, ListDel)
  }

  /** Each list and hardware operation on v is used where it is allowed. */
  lemma OperationsAreLegal(states: seq<State>, acts: seq<Action>, k: nat, v: nat, c: nat)
    requires IsRun(states, acts) && k < |acts| && v < |states[0].vms| && RaceFree(states, acts, v, k)
    ensures WellFormed(states[k]) && v < |states[k].vms|
    ensures c < |states[k].power| ==>
              && (acts[k] == ListAdd(v) ==> v !in states[k].lists[c])
              && (acts[k] == SetCurrent(v) && c in states[k].vms[v].hwActive ==> states[k].workers[v].c == c)
              && (acts[k] == Run(v) && states[k].workers[v].c == c ==>
                    states[k].current[c] == v && c in states[k].vms[v].hwActive)
              && (Unlinks(states[k], acts[k], v) && acts[k].c == c ==> v in states[k].lists[c])
              && (Current(states[k], acts[k]) == Clear(v, Vmclear) && c in states[k].vms[v].hwActive ==> acts[k].c == c)
  {
    RunsKeepInv(states, acts, v, k);
    var s, a := states[k], acts[k];
    if c < |s.power| {
      assert PairOk(s, v, c);
      if !WorkerAction(a) && a.c < |s.power| { assert PairOk(s, v, a.c); }
    }
  }

  // ---------------------------------------------------------------- the launch state

  /** The VMCS has been VMCLEARed by x but the launched flag still has its old value. */
  predicate Unflagged(x: Clearer, v: nat) {
    Busy(x, v) && (x.stage.ListDel? || x.stage.ResetCpu? || x.stage.ResetLaunched?)
  }

  predicate UnflaggedOn(s: State, v: nat, c: nat)
    requires WellFormed(s) && c < |s.power|
  {
    Unflagged(s.handlers[c], v) || Unflagged(s.loops[c], v)
  }

  ghost predicate Pending(s: State, v: nat)
    requires WellFormed(s)
  {
    exists c :: 0 <= c < |s.power| && UnflaggedOn(s, v, c)
  }

  /** The flag tells the launch state of the VMCS, except that a clear in progress may have outrun it. */
  ghost predicate Matched(s: State, v: nat)
    requires WellFormed(s) && v < |s.vms|
  {
    if Pending(s, v) then !s.vms[v].hwLaunched else s.vms[v].launched == s.vms[v].hwLaunched
  }

  lemma WorkerStepKeepsClears(s: State, a: Action, v: nat)
    requires Enabled(s, a) && WorkerAction(a)
    ensures WellFormed(WorkerStep(s, a)) && Pending(WorkerStep(s, a), v) == Pending(s, v)
    ensures |WorkerStep(s, a).vms| == |s.vms|
  {
    var t := WorkerStep(s, a);
    assert forall c :: 0 <= c < |s.power| ==> UnflaggedOn(t, v, c) == UnflaggedOn(s, v, c);
  }

  lemma WorkerStepKeepsMatched(s: State, a: Action, v: nat)
    requires Enabled(s, a) && WorkerAction(a) && v < |s.vms| && Matched(s, v) && !(a == Run(v) && Pending(s, v))
    ensures WellFormed(WorkerStep(s, a)) && v < |WorkerStep(s, a).vms| && Matched(WorkerStep(s, a), v)
  {
    WorkerStepKeepsClears(s, a, v);
    hide Pending;
  }

  /** What a step of a CPU can do to the launch state of v: only the clear of v itself matters. */
  lemma CpuStepLaunchState(s: State, a: Action, v: nat)
    requires Enabled(s, a) && !WorkerAction(a) && v < |s.vms|
    ensures var t := CpuStep(s, a);
            && WellFormed(t) && |t.power| == |s.power| && |t.vms| == |s.vms| && a.c < |s.power|
            && (forall c :: 0 <= c < |s.power| && c != a.c ==> UnflaggedOn(t, v, c) == UnflaggedOn(s, v, c))
            && (UnflaggedOn(t, v, a.c) ==> UnflaggedOn(s, v, a.c) || !t.vms[v].hwLaunched)
            && (UnflaggedOn(s, v, a.c) && !UnflaggedOn(t, v, a.c) ==> !t.vms[v].launched)
            && (t.vms[v].hwLaunched == s.vms[v].hwLaunched || UnflaggedOn(t, v, a.c))
            && (t.vms[v].launched == s.vms[v].launched || UnflaggedOn(s, v, a.c))
            && (t.vms[v].hwLaunched ==> s.vms[v].hwLaunched) && (t.vms[v].launched ==> s.vms[v].launched)
  {
  }

  lemma CpuStepKeepsMatched(s: State, a: Action, v: nat)
    requires Enabled(s, a) && !WorkerAction(a) && v < |s.vms| && Matched(s, v)
    ensures WellFormed(CpuStep(s, a)) && v < |CpuStep(s, a).vms| && Matched(CpuStep(s, a), v)
  {
    CpuStepLaunchState(s, a, v);
    var t := CpuStep(s, a);
    hide CpuStep, CpuEnabled, UnflaggedOn;
    if UnflaggedOn(t, v, a.c) {
      assert Pending(t, v);
    } else if Pending(s, v) && !UnflaggedOn(s, v, a.c) {
      var c :| 0 <= c < |s.power| && UnflaggedOn(s, v, c);
      assert UnflaggedOn(t, v, c);
    } else if Pending(t, v) {
      var c :| 0 <= c < |t.power| && UnflaggedOn(t, v, c);
      assert UnflaggedOn(s, v, c);
    }
  }

  /** A set flag is right, or a clear that will reset it is past its VMCLEAR. */
  ghost predicate FlagSound(s: State, v: nat)
    requires WellFormed(s) && v < |s.vms|
  {
    s.vms[v].launched ==> s.vms[v].hwLaunched || Pending(s, v)
  }

  lemma CpuStepKeepsFlagSound(s: State, a: Action, v: nat)
    requires Enabled(s, a) && !WorkerAction(a) && v < |s.vms| && FlagSound(s, v)
    ensures WellFormed(CpuStep(s, a)) && v < |CpuStep(s, a).vms| && FlagSound(CpuStep(s, a), v)
  {
    CpuStepLaunchState(s, a, v);
    var t := CpuStep(s, a);
    hide CpuStep, CpuEnabled, UnflaggedOn;
    if UnflaggedOn(t, v, a.c) {
      assert Pending(t, v);
    } else if Pending(s, v) && !UnflaggedOn(s, v, a.c) {
      var c :| 0 <= c < |s.power| && UnflaggedOn(s, v, c);
      assert UnflaggedOn(t, v, c);
    }
  }

  lemma WorkerStepKeepsFlagSound(s: State, a: Action, v: nat)
    requires Enabled(s, a) && WorkerAction(a) && v < |s.vms| && FlagSound(s, v)
    ensures WellFormed(WorkerStep(s, a)) && v < |WorkerStep(s, a).vms| && FlagSound(WorkerStep(s, a), v)
  {
    WorkerStepKeepsClears(s, a, v);
    hide Pending;
  }

  /**
   In every run, races and all, a VMCS flagged as launched has not been VMCLEARed since its last
   launch, unless the clear that did it is still to reset the flag.
  */
  lemma {:induction false} LaunchedMeansNotCleared(states: seq<State>, acts: seq<Action>, v: nat, k: nat)
    requires IsRun(states, acts) && k <= |acts| && v < |states[0].vms|
    ensures WellFormed(states[k]) && v < |states[k].vms| && FlagSound(states[k], v)
  {
    if k > 0 {
      LaunchedMeansNotCleared(states, acts, v, k - 1);
      if WorkerAction(acts[k - 1]) {
        WorkerStepKeepsFlagSound(states[k - 1], acts[k - 1], v);
      } else {
        CpuStepKeepsFlagSound(states[k - 1], acts[k - 1], v);
      }
    }
  }

  lemma {:induction false} RunsStayWellFormed(states: seq<State>, acts: seq<Action>, k: nat)
    requires IsRun(states, acts) && k <= |acts|
    ensures WellFormed(states[k]) && |states[k].vms| == |states[0].vms| && |states[k].power| == |states[0].power|
  {
    hide WorkerStep, CpuStep, WorkerEnabled, CpuEnabled;
    if k > 0 {
      RunsStayWellFormed(states, acts, k - 1);
      if WorkerAction(acts[k - 1]) {
        WorkerStepShape(states[k - 1], acts[k - 1]);
      } else {
        CpuStepShape(states[k - 1], acts[k - 1]);
      }
    }
  }

  /** No VM entry of v happened while a clear of v had yet to reset the flag. */
  ghost predicate EntersOutsideClears(states: seq<State>, acts: seq<Action>, v: nat, k: nat)
    requires IsRun(states, acts) && k <= |acts|
  {
    forall m :: 0 <= m < k && acts[m] == Run(v) && WellFormed(states[m]) ==> !Pending(states[m], v)
  }

  lemma {:induction false} RunsKeepMatched(states: seq<State>, acts: seq<Action>, v: nat, k: nat)
    requires IsRun(states, acts) && k <= |acts| && EntersOutsideClears(states, acts, v, k)
    requires v < |states[0].vms|
    ensures WellFormed(states[k]) && v < |states[k].vms| && Matched(states[k], v)
  {
    if k > 0 {
      RunsKeepMatched(states, acts, v, k - 1);
      if WorkerAction(acts[k - 1]) {
        WorkerStepKeepsMatched(states[k - 1], acts[k - 1], v);
      } else {
        CpuStepKeepsMatched(states[k - 1], acts[k - 1], v);
      }
    }
  }

  /**
   VM entry picks VMLAUNCH or VMRESUME correctly, and leaves the flag correct, exactly when no
   CPU is between VMCLEARing this VMCS and resetting the flag.
  */
  lemma LaunchFlagIsRightIffNoClearPending(states: seq<State>, acts: seq<Action>, v: nat, k: nat)
    requires IsRun(states, acts) && k < |acts| && acts[k] == Run(v) && EntersOutsideClears(states, acts, v, k)
    requires v < |states[0].vms|
    ensures WellFormed(states[k]) && v < |states[k].vms| && WellFormed(states[k + 1]) && v < |states[k + 1].vms|
    ensures (states[k].vms[v].launched == states[k].vms[v].hwLaunched && Matched(states[k + 1], v))
            <==> !Pending(states[k], v)
  {
    RunsKeepMatched(states, acts, v, k);
    WorkerStepKeepsClears(states[k], acts[k], v);
    hide Pending;
  }

  /** Outside the race, only the offline loop can be caught in that window: a remote clear is waited for. */
  lemma PendingClearAtEntryIsOffline(states: seq<State>, acts: seq<Action>, v: nat, k: nat, c: nat)
    requires IsRun(states, acts) && k < |acts| && acts[k] == Run(v) && v < |states[0].vms|
    requires RaceFree(states, acts, v, k)
    ensures WellFormed(states[k])
    ensures c < |states[k].power| && UnflaggedOn(states[k], v, c) ==>
              states[k].loops[c] == Clear(v, ResetLaunched) && states[k].power[c].Dying?
  {
    RunsKeepInv(states, acts, v, k);
    if c < |states[k].power| { assert PairOk(states[k], v, c); }
  }
}
