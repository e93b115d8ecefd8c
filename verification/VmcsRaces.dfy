/**
 What a remote clear does when it interrupts the offline loop (vmx.c): the exact condition under
 which every list_del of a VMCS is legal, and two runs that end badly.
*/
module VmcsRaces {
  import opened VmcsOwnership

  // ---------------------------------------------------------------- the exact condition

  /** list_del of a VMCS that is not on the list of the CPU that deletes it. */
  predicate IllegalUnlink(s: State, a: Action, v: nat)
    requires WellFormed(s)
  {
    Unlinks(s, a, v) && a.c < |s.lists| && v !in s.lists[a.c]
  }

  /** The handler is at work inside the loop's clear and has not unlinked v yet. */
  ghost predicate Inside(s: State, v: nat, c: nat) {
    && WellFormed(s) && v < |s.vms| && c < |s.power|
    && s.power[c].Dying? && s.vms[v].cpu == c
    && s.workers[v].Waiting? && s.workers[v].x == c && s.workers[v].goal != LoadOn(c)
    && Busy(s.handlers[c], v) && !s.handlers[c].stage.ResetCpu? && !s.handlers[c].stage.ResetLaunched?
    && Clearing(s.loops[c], v) && (s.loops[c].stage.ResetCpu? ==> v !in s.lists[c])
    && forall d :: 0 <= d < |s.power| && d != c ==> !Busy(s.handlers[d], v) && !Clearing(s.loops[d], v)
  }

  /** v has been unlinked and the loop has its own list_del still to come. */
  predicate Ahead(s: State, v: nat, c: nat) {
    && WellFormed(s) && v < |s.vms| && c < |s.power|
    && s.power[c].Dying? && v !in s.lists[c] && !Occupies(s.workers[v], c)
    && Clearing(s.loops[c], v) && !s.loops[c].stage.ResetCpu?
  }

  lemma RaceGetsInside(s: State, a: Action, v: nat)
    requires InvOf(s, v) && Enabled(s, a) && Races(s, a, v)
    ensures Inside(Step(s, a), v, a.c)
  {
    assert PairOk(s, v, a.c);
    forall d | 0 <= d < |s.power| && d != a.c
      ensures !Busy(s.handlers[d], v) && !Clearing(s.loops[d], v)
    {
      assert PairOk(s, v, d);
    }
  }

  lemma WorkerStaysInside(s: State, a: Action, v: nat, c: nat)
    requires Inside(s, v, c) && Enabled(s, a) && WorkerAction(a)
    ensures Inside(WorkerStep(s, a), v, c)
  {
  }

  lemma CpuStaysInside(s: State, a: Action, v: nat, c: nat)
    requires Inside(s, v, c) && Enabled(s, a) && !WorkerAction(a) && !IllegalUnlink(s, a, v)
    ensures Inside(CpuStep(s, a), v, c) || Ahead(CpuStep(s, a), v, c)
  {
  }

  lemma WorkerStaysAhead(s: State, a: Action, v: nat, c: nat)
    requires Ahead(s, v, c) && Enabled(s, a) && WorkerAction(a)
    ensures Ahead(WorkerStep(s, a), v, c)
  {
  }

  lemma CpuStaysAhead(s: State, a: Action, v: nat, c: nat)
    requires Ahead(s, v, c) && Enabled(s, a) && !WorkerAction(a) && !IllegalUnlink(s, a, v)
    ensures Ahead(CpuStep(s, a), v, c)
  {
  }

  /** Until some list_del of v is illegal, the loop cannot get past its own. */
  lemma {:induction false} RaceLingers(states: seq<State>, acts: seq<Action>, v: nat, j: nat, k: nat)
    requires IsRun(states, acts) && j < k <= |acts| && v < |states[0].vms|
    requires RaceFree(states, acts, v, j) && Races(states[j], acts[j], v)
    requires forall m :: j <= m < k ==> WellFormed(states[m]) && !IllegalUnlink(states[m], acts[m], v)
    ensures Inside(states[k], v, acts[j].c) || Ahead(states[k], v, acts[j].c)
  {
    var c := acts[j].c;
    if k == j + 1 {
      RunsKeepInv(states, acts, v, j);
      RaceGetsInside(states[j], acts[j], v);
    } else {
      RaceLingers(states, acts, v, j, k - 1);
      var s, a := states[k - 1], acts[k - 1];
      hide Inside, Ahead, WorkerStep, CpuStep, WorkerEnabled, CpuEnabled, IllegalUnlink;
      if Inside(s, v, c) {
        if WorkerAction(a) { WorkerStaysInside(s, a, v, c); } else { CpuStaysInside(s, a, v, c); }
      } else {
        if WorkerAction(a) { WorkerStaysAhead(s, a, v, c); } else { CpuStaysAhead(s, a, v, c); }
      }
    }
  }

  /** No clear of v is in progress. */
  ghost predicate Quiet(s: State, v: nat)
    requires WellFormed(s)
  {
    forall c :: 0 <= c < |s.power| ==> !Busy(s.handlers[c], v) && !Busy(s.loops[c], v)
  }

  ghost predicate LegalUnlinks(states: seq<State>, acts: seq<Action>, v: nat, k: nat)
    requires |acts| < |states| && k <= |acts|
  {
    forall m :: 0 <= m < k && WellFormed(states[m]) ==> !IllegalUnlink(states[m], acts[m], v)
  }

  lemma {:induction false} FirstRace(states: seq<State>, acts: seq<Action>, v: nat, k: nat) returns (j: nat)
    requires |acts| < |states| && k <= |acts| && !RaceFree(states, acts, v, k)
    ensures j < k && RaceFree(states, acts, v, j) && Races(states[j], acts[j], v)
  {
    if RaceFree(states, acts, v, k - 1) {
      j := k - 1;
    } else {
      j := FirstRace(states, acts, v, k - 1);
    }
  }

  /**
   Once no clear of v is in progress, every list_del of v has been legal exactly when no remote clear
   of v started inside the offline loop's clear of it.
  */
  lemma UnlinksAreLegalIffRaceFree(states: seq<State>, acts: seq<Action>, v: nat, k: nat)
    requires IsRun(states, acts) && k <= |acts| && v < |states[0].vms|
    requires WellFormed(states[k]) && Quiet(states[k], v)
    ensures LegalUnlinks(states, acts, v, k) <==> RaceFree(states, acts, v, k)
  {
    if RaceFree(states, acts, v, k) {
      forall m | 0 <= m < k && WellFormed(states[m])
        ensures !IllegalUnlink(states[m], acts[m], v)
      {
        if Unlinks(states[m], acts[m], v) && acts[m].c < |states[m].power| {
          OperationsAreLegal(states, acts, m, v, acts[m].c);
        }
      }
    } else {
      var j := FirstRace(states, acts, v, k);
      if LegalUnlinks(states, acts, v, k) {
        forall m | j <= m < k
          ensures WellFormed(states[m])
        {
          RunsStayWellFormed(states, acts, m);
        }
        RaceLingers(states, acts, v, j, k);
        assert false;
      }
    }
  }

  // ---------------------------------------------------------------- one VMCS on two CPUs

  /** The states of a system with one VMCS, and two CPUs of which only CPU 0 goes down. */
  datatype Small = Small(
    power0: Power, list0: set<nat>, list1: set<nat>, current0: int, current1: int,
    handler: Clearer, loop: Clearer, vm: LoadedVmcs, worker: Worker)

  function Full(m: Small): State {
    State([m.power0, Online], [m.list0, m.list1], [m.current0, m.current1], [m.handler, NoClear], [m.loop, NoClear],
          [m.vm], [m.worker])
  }

  predicate SmallEnabled(m: Small, a: Action) {
    if WorkerAction(a) then
      && a.v == 0 && (Occupies(m.worker, 0) ==> m.handler.NoClear?)
      && match a
         case BeginLoad(_, c) => m.worker.Idle? && c < 2 && (c == 0 ==> m.power0.Online? && m.handler.NoClear?)
         case BeginFree(_) => m.worker.Idle?
         case ReadCpu(_) => m.worker.NeedClear?
         case Call(_) => m.worker.Calling? && m.worker.x == 0 && !m.power0.Offline?
         case ListAdd(_) => m.worker.Cleared? && m.worker.goal.LoadOn? && 0 <= m.worker.goal.cpu < 2
         case SetCurrent(_) => m.worker.Listed? && 0 <= m.worker.c < 2
         case SetCpu(_) => m.worker.PtrLoaded?
         case Run(_) => m.worker.Resident?
         case Put(_) => m.worker.Resident?
         case FreePage(_) => m.worker == Cleared(Free)
    else
      && a.c == 0 && (a.HandlerStep? || m.handler.NoClear?)
      && match a
         case StartHandler(_, v) => v == 0 && !m.power0.Offline? && m.worker.Waiting? && m.worker.x == 0
         case HandlerStep(_) => m.handler.Clear? && m.handler.v == 0
         case StartOffline(_) => m.power0.Online? && !Occupies(m.worker, 0)
         case OfflinePick(_, v) => v == 0 && m.power0.Dying? && m.loop.NoClear?
         case LoopStep(_) => m.loop.Clear? && m.loop.v == 0
         case _ => false
  }

  function SmallEffect(m: Small, x: Clearer): Small
    requires x.Clear?
  {
    match x.stage
    case Check => m
    case DropCurrent => if m.current0 == 0 then m.(current0 := NONE) else m
    case Vmclear => m.(vm := m.vm.(hwActive := m.vm.hwActive - {0}, hwLaunched := false))
    case ListDel => m.(list0 := m.list0 - {0}, list1 := m.list1 - {0})
    case ResetCpu => m.(vm := m.vm.(cpu := NONE))
    case ResetLaunched => m.(vm := m.vm.(launched := false))
  }

  function SmallStep(m: Small, a: Action): Small
    requires SmallEnabled(m, a)
  {
    var w, vm := m.worker, m.vm;
    match a
    case BeginLoad(_, c) => m.(worker := if vm.cpu == c then AlreadyLoaded(c) else NeedClear(LoadOn(c)))
    case BeginFree(_) => m.(worker := NeedClear(Free))
    case ReadCpu(_) => m.(worker := if vm.cpu == NONE then Cleared(w.goal) else Calling(w.goal, vm.cpu))
    case Call(_) => m.(worker := Waiting(w.goal, w.x))
    case ListAdd(_) =>
      if w.goal.cpu == 0 then m.(worker := Listed(0), list0 := m.list0 + {0})
      else m.(worker := Listed(1), list1 := m.list1 + {0})
    case SetCurrent(_) =>
      if (if w.c == 0 then m.current0 else m.current1) == 0 then m.(worker := PtrLoaded(w.c))
      else
        var t := m.(worker := PtrLoaded(w.c), vm := vm.(hwActive := vm.hwActive + {w.c}));
        if w.c == 0 then t.(current0 := 0) else t.(current1 := 0)
    case SetCpu(_) => m.(worker := Resident(w.c), vm := vm.(cpu := w.c))
    case Run(_) => if vm.launched == vm.hwLaunched then m.(vm := vm.(launched := true, hwLaunched := true)) else m
    case Put(_) => m.(worker := Idle)
    case FreePage(_) => m.(worker := Gone, vm := vm.(live := false))
    case StartHandler(_, _) => m.(handler := Clear(0, Check))
    case HandlerStep(_) =>
      var y := Advanced(m.handler, vm.cpu == 0);
      var t := SmallEffect(m, m.handler).(handler := y);
      if y.NoClear? && w.Waiting? then t.(worker := Cleared(w.goal)) else t
    case StartOffline(_) => m.(power0 := Dying)
    case OfflinePick(_, _) => m.(loop := Clear(0, Check))
    case LoopStep(_) => SmallEffect(m, m.loop).(loop := Advanced(m.loop, vm.cpu == 0))
  }

  lemma SmallIsEnabled(m: Small, a: Action)
    requires SmallEnabled(m, a)
    ensures Enabled(Full(m), a)
  {
  }

  lemma SmallTaskStep(m: Small, a: Action)
    requires SmallEnabled(m, a) && Enabled(Full(m), a)
    requires a.BeginLoad? || a.BeginFree? || a.ReadCpu? || a.Call? || a.Put?
    ensures Step(Full(m), a) == Full(SmallStep(m, a))
  {
    hide WorkerEnabled;
  }

  lemma SmallLoadStep(m: Small, a: Action)
    requires SmallEnabled(m, a) && Enabled(Full(m), a)
    requires a.ListAdd? || a.SetCurrent? || a.SetCpu? || a.Run? || a.FreePage?
    ensures Step(Full(m), a) == Full(SmallStep(m, a))
  {
    hide WorkerEnabled;
  }

  lemma SmallEffectIsExact(m: Small, x: Clearer)
    requires x.Clear? && x.v == 0
    ensures Effect(Full(m), 0, x) == Full(SmallEffect(m, x))
  {
    assert Unlinked([m.list0, m.list1], 0) == [m.list0 - {0}, m.list1 - {0}];
  }

  lemma SmallClearStep(m: Small, a: Action)
    requires SmallEnabled(m, a) && Enabled(Full(m), a) && !WorkerAction(a)
    ensures Step(Full(m), a) == Full(SmallStep(m, a))
  {
    if a.HandlerStep? { SmallEffectIsExact(m, m.handler); }
    if a.LoopStep? { SmallEffectIsExact(m, m.loop); }
    hide CpuEnabled, Effect, SmallEffect;
  }

  lemma SmallStepIsExact(m: Small, a: Action)
    requires SmallEnabled(m, a)
    ensures Enabled(Full(m), a) && Step(Full(m), a) == Full(SmallStep(m, a))
  {
    SmallIsEnabled(m, a);
    hide Enabled, Step, SmallEnabled, SmallStep, Full;
    if !WorkerAction(a) {
      SmallClearStep(m, a);
    } else if a.ListAdd? || a.SetCurrent? || a.SetCpu? || a.Run? || a.FreePage? {
      SmallLoadStep(m, a);
    } else {
      SmallTaskStep(m, a);
    }
  }

  /** A run of the small system, from boot. */
  datatype Trace = Trace(states: seq<Small>, acts: seq<Action>)

  function Boot(): Small {
    Small(Online, {}, {}, NONE, NONE, NoClear, NoClear, LoadedVmcs(NONE, false, true, {}, false), Idle)
  }

  ghost predicate IsTrace(r: Trace) {
    |r.states| == |r.acts| + 1 && r.states[0] == Boot() &&
    forall k :: 0 <= k < |r.acts| ==>
      SmallEnabled(r.states[k], r.acts[k]) && r.states[k + 1] == SmallStep(r.states[k], r.acts[k])
  }

  function Last(r: Trace): Small { if r.states == [] then Boot() else r.states[|r.states| - 1] }

  predicate NoHandler(r: Trace) { forall a :: a in r.acts ==> !a.StartHandler? }

  lemma TraceIsRun(r: Trace) returns (states: seq<State>)
    requires IsTrace(r)
    ensures IsRun(states, r.acts) && states[|r.acts|] == Full(Last(r))
    ensures NoHandler(r) ==> RaceFree(states, r.acts, 0, |r.acts|)
  {
    states := seq(|r.states|, k requires 0 <= k < |r.states| => Full(r.states[k]));
    forall k | 0 <= k < |r.acts|
      ensures Enabled(states[k], r.acts[k]) && states[k + 1] == Step(states[k], r.acts[k])
    {
      SmallStepIsExact(r.states[k], r.acts[k]);
    }
  }

  lemma Do(r: Trace, a: Action) returns (r': Trace)
    requires IsTrace(r) && SmallEnabled(Last(r), a)
    ensures IsTrace(r') && Last(r') == SmallStep(Last(r), a)
    ensures NoHandler(r) && !a.StartHandler? ==> NoHandler(r')
  {
    r' := Trace(r.states + [SmallStep(Last(r), a)], r.acts + [a]);
  }

  // ---------------------------------------------------------------- two runs that end badly

  /** From a worker that has been cleared to one that is resident on CPU c. */
  lemma DoLoad(r: Trace, c: nat) returns (r': Trace)
    requires IsTrace(r) && c < 2 && Last(r).worker == Cleared(LoadOn(c)) && Last(r).handler.NoClear?
    requires (if c == 0 then Last(r).current0 else Last(r).current1) == NONE
    ensures IsTrace(r') && (NoHandler(r) ==> NoHandler(r'))
    ensures var m := Last(r);
            var vm := m.vm.(cpu := c, hwActive := m.vm.hwActive + {c});
            Last(r') == if c == 0 then m.(list0 := m.list0 + {0}, current0 := 0, vm := vm, worker := Resident(0))
                        else m.(list1 := m.list1 + {0}, current1 := 0, vm := vm, worker := Resident(1))
  {
    hide IsTrace, Last, NoHandler;
    r' := Do(r, ListAdd(0));
    r' := Do(r', SetCurrent(0));
    r' := Do(r', SetCpu(0));
  }

  /** The offline loop from picking VMCS 0 up to the list_del. */
  lemma DoHalfClear(r: Trace) returns (r': Trace)
    requires IsTrace(r) && Last(r).power0.Online? && Last(r).handler.NoClear? && Last(r).loop.NoClear?
    requires Last(r).vm.cpu == 0 && Last(r).current0 == 0 && !Occupies(Last(r).worker, 0)
    ensures IsTrace(r') && (NoHandler(r) ==> NoHandler(r'))
    ensures var m := Last(r);
            Last(r') == m.(power0 := Dying, current0 := NONE, loop := Clear(0, ListDel),
                           vm := m.vm.(hwActive := m.vm.hwActive - {0}, hwLaunched := false))
  {
    hide IsTrace, Last, NoHandler;
    r' := Do(r, StartOffline(0));
    r' := Do(r', OfflinePick(0, 0));
    r' := Do(r', LoopStep(0));
    r' := Do(r', LoopStep(0));
    r' := Do(r', LoopStep(0));
  }

  /** VMCS 0 loaded on CPU 0 and put again. */
  lemma DoFirstLoad() returns (r: Trace)
    ensures IsTrace(r) && NoHandler(r)
    ensures Last(r) == Small(Online, {0}, {}, 0, NONE, NoClear, NoClear, LoadedVmcs(0, false, true, {0}, false), Idle)
  {
    r := Trace([Boot()], []);
    assert IsTrace(r) && Last(r) == Boot() && NoHandler(r);
    hide IsTrace, Last, NoHandler;
    r := Do(r, BeginLoad(0, 0));
    r := Do(r, ReadCpu(0));
    r := DoLoad(r, 0);
    r := Do(r, Put(0));
  }

  /**
   The converse of "launched implies not cleared since the last launch" fails even without the race:
   this run ends with no clear and no load in progress, a launched VMCS and a flag that says it is not.
  */
  lemma OfflineRaceLosesTheLaunchedFlag() returns (states: seq<State>, acts: seq<Action>)
    ensures IsRun(states, acts) && RaceFree(states, acts, 0, |acts|)
    ensures var s := states[|acts|];
            && WellFormed(s) && |s.vms| == 1 && Settled(s, 0) && !Pending(s, 0)
            && s.vms[0].hwLaunched && !s.vms[0].launched
  {
    var r := DoFirstLoad();
    r := DoHalfClear(r);
    r := DoLateFlag(r);
    acts := r.acts;
    states := TraceIsRun(r);
  }

  lemma DoLateFlag(r: Trace) returns (r': Trace)
    requires IsTrace(r) && NoHandler(r)
    requires Last(r) == Small(Dying, {0}, {}, NONE, NONE, NoClear, Clear(0, ListDel),
                              LoadedVmcs(0, false, true, {}, false), Idle)
    ensures IsTrace(r') && NoHandler(r')
    ensures Last(r') == Small(Dying, {}, {0}, NONE, 0, NoClear, NoClear,
                              LoadedVmcs(1, false, true, {1}, true), Resident(1))
  {
    hide IsTrace, Last, NoHandler;
    r' := Do(r, LoopStep(0));
    r' := Do(r', LoopStep(0));
    r' := Do(r', BeginLoad(0, 1));
    r' := Do(r', ReadCpu(0));
    r' := DoLoad(r', 1);
    r' := Do(r', Run(0));
    r' := Do(r', LoopStep(0));
  }

  /**
   A remote clear that interrupts the offline loop between VMCLEAR and list_del.  The VMCS moves to
   CPU 1, the loop takes it off CPU 1's list and resets its cpu field, free_loaded_vmcs then sees
   nothing to clear, and the freed page is still current and active on CPU 1.
  */
  lemma InterruptedLoopLosesTheVmcs() returns (states: seq<State>, acts: seq<Action>)
    ensures IsRun(states, acts) && !RaceFree(states, acts, 0, |acts|)
    ensures var s := states[|acts|];
            && WellFormed(s) && |s.vms| == 1 && Settled(s, 0) && Quiet(s, 0) && |s.power| == 2
            && !s.vms[0].live && s.current[1] == 0 && s.vms[0].hwActive == {1}
  {
    var r := DoInterruptedLoop();
    acts := r.acts;
    states := TraceIsRun(r);
    if RaceFree(states, acts, 0, |acts|) {
      RunsStayWellFormed(states, acts, |acts|);
      FreedPageIsUnreferenced(states, acts, |acts|, 0);
      assert false;
    }
  }

  lemma DoInterruptedLoop() returns (r: Trace)
    ensures IsTrace(r)
    ensures Last(r) == Small(Dying, {}, {}, NONE, 0, NoClear, NoClear,
                             LoadedVmcs(NONE, false, false, {1}, false), Gone)
  {
    r := DoFirstLoad();
    r := DoCallAcross(r);
    r := DoHalfClear(r);
    hide IsTrace, Last, NoHandler;
    r := DoHalfHandler(r);
    r := DoRestOfHandler(r);
    r := DoLoad(r, 1);
    r := Do(r, Put(0));
    r := DoRestOfLoop(r);
    r := DoFree(r);
  }

  lemma DoCallAcross(r: Trace) returns (r': Trace)
    requires IsTrace(r) && Last(r).worker.Idle? && Last(r).vm.cpu == 0 && Last(r).power0.Online?
    ensures IsTrace(r') && Last(r') == Last(r).(worker := Waiting(LoadOn(1), 0))
  {
    hide IsTrace, Last;
    r' := Do(r, BeginLoad(0, 1));
    r' := Do(r', ReadCpu(0));
    r' := Do(r', Call(0));
  }

  /** The handler runs on CPU 0 up to its list_del. */
  lemma DoHalfHandler(r: Trace) returns (r': Trace)
    requires IsTrace(r) && Last(r).worker == Waiting(LoadOn(1), 0) && Last(r).power0.Dying?
    requires Last(r).handler.NoClear? && Last(r).vm.cpu == 0 && Last(r).current0 == NONE
    ensures IsTrace(r')
    ensures var m := Last(r);
            Last(r') == m.(handler := Clear(0, ListDel), vm := m.vm.(hwActive := m.vm.hwActive - {0}, hwLaunched := false))
  {
    hide IsTrace, Last;
    r' := Do(r, StartHandler(0, 0));
    r' := Do(r', HandlerStep(0));
    r' := Do(r', HandlerStep(0));
    r' := Do(r', HandlerStep(0));
  }

  /** ... and from there to its end. */
  lemma DoRestOfHandler(r: Trace) returns (r': Trace)
    requires IsTrace(r) && Last(r).worker == Waiting(LoadOn(1), 0) && Last(r).handler == Clear(0, ListDel)
    ensures IsTrace(r')
    ensures var m := Last(r);
            Last(r') == m.(list0 := m.list0 - {0}, list1 := m.list1 - {0}, worker := Cleared(LoadOn(1)),
                           handler := NoClear, vm := m.vm.(cpu := NONE, launched := false))
  {
    hide IsTrace, Last;
    r' := Do(r, HandlerStep(0));
    r' := Do(r', HandlerStep(0));
    r' := Do(r', HandlerStep(0));
  }

  lemma DoRestOfLoop(r: Trace) returns (r': Trace)
    requires IsTrace(r) && Last(r).handler.NoClear? && Last(r).loop == Clear(0, ListDel)
    ensures IsTrace(r')
    ensures var m := Last(r);
            Last(r') == m.(list0 := m.list0 - {0}, list1 := m.list1 - {0}, loop := NoClear,
                           vm := m.vm.(cpu := NONE, launched := false))
  {
    hide IsTrace, Last;
    r' := Do(r, LoopStep(0));
    r' := Do(r', LoopStep(0));
    r' := Do(r', LoopStep(0));
  }

  lemma DoFree(r: Trace) returns (r': Trace)
    requires IsTrace(r) && Last(r).worker.Idle? && Last(r).vm.cpu == NONE
    ensures IsTrace(r') && Last(r') == Last(r).(worker := Gone, vm := Last(r).vm.(live := false))
  {
    hide IsTrace, Last;
    r' := Do(r, BeginFree(0));
    r' := Do(r', ReadCpu(0));
    r' := Do(r', FreePage(0));
  }
}
