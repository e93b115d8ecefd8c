/**
 The RDTSC exit handlers that slow the guest's counter (vmx.c and svm.c, the same code in both).

 The three static variables are shared by all vCPUs, so a run is a sequence of samples of the real
 counter, from whichever CPU, in the order in which the exits are handled.  The code takes no lock;
 the model assumes that no two exits overlap.
*/
module RdtscHandler {
  import opened Arithmetic

  /** rdtsc_fake, rdtsc_prev, and print_once, which marks the first call. */
  datatype Clock = Clock(first: bool, fake: nat, prev: nat)

  function Start(): Clock { Clock(true, 0, 0) }

  /** The counter before the clamp, in u64 arithmetic. */
  function Advanced(s: Clock, tsc: nat): nat {
    var fake := if s.first then tsc else s.fake;
    if s.prev != 0 && tsc > s.prev then (fake + (tsc - s.prev) / 16) % TWO_64 else fake
  }

  predicate Clamped(s: Clock, tsc: nat) { Advanced(s, tsc) > tsc }

  function Next(s: Clock, tsc: nat): Clock {
    Clock(false, if Clamped(s, tsc) then tsc else Advanced(s, tsc), tsc)
  }

  function Run(s: Clock, samples: seq<nat>): Clock {
    if samples == [] then s else Next(Run(s, samples[..|samples| - 1]), samples[|samples| - 1])
  }

  predicate SamplesOk(samples: seq<nat>) { forall i :: 0 <= i < |samples| ==> samples[i] < TWO_64 }

  // ---------------------------------------------------------------- any samples

  predicate Inv(s: Clock) { s.fake <= s.prev < TWO_64 && (s.first ==> s.prev == 0) }

  lemma {:induction false} RunsKeepInv(s: Clock, samples: seq<nat>)
    requires Inv(s) && SamplesOk(samples)
    ensures Inv(Run(s, samples))
    ensures samples != [] ==> !Run(s, samples).first && Run(s, samples).prev == samples[|samples| - 1]
  {
    if samples != [] {
      RunsKeepInv(s, samples[..|samples| - 1]);
    }
  }

  /** Whatever the samples, the value returned never exceeds the real counter. */
  lemma NeverAhead(samples: seq<nat>)
    requires samples != [] && SamplesOk(samples)
    ensures Run(Start(), samples).fake <= samples[|samples| - 1]
  {
    RunsKeepInv(Start(), samples);
  }

  /** The 64-bit addition never wraps, and the clamp fires exactly when the real counter is behind the last value returned. */
  lemma StepIsExact(s: Clock, tsc: nat)
    requires Inv(s) && tsc < TWO_64 && !s.first
    ensures Clamped(s, tsc) <==> tsc < s.fake
    ensures Next(s, tsc).fake ==
            if tsc < s.fake then tsc
            else if s.prev != 0 && tsc > s.prev then s.fake + (tsc - s.prev) / 16
            else s.fake
  {
  }

  /** The guest sees its counter step back exactly when the real one is behind the last value returned. */
  lemma {:induction false} StepsBackIff(samples: seq<nat>, tsc: nat)
    requires samples != [] && SamplesOk(samples) && tsc < TWO_64
    ensures Run(Start(), samples + [tsc]).fake < Run(Start(), samples).fake <==> tsc < Run(Start(), samples).fake
  {
    RunsKeepInv(Start(), samples);
    assert (samples + [tsc])[..|samples|] == samples;
    StepIsExact(Run(Start(), samples), tsc);
  }

  /** An exit on a CPU whose counter is 50 behind sends the guest back by 50. */
  lemma BackwardSample()
    ensures Run(Start(), [100]).fake == 100 && Run(Start(), [100, 50]).fake == 50
  {
    assert [100, 50][..1] == [100] && [100][..0] == [];
  }

  // ---------------------------------------------------------------- samples in order

  predicate NonDecreasing(samples: seq<nat>) { forall i, j :: 0 <= i <= j < |samples| ==> samples[i] <= samples[j] }

  /**
   With samples that never go back and a nonzero first one, the returned counter never goes back, the
   clamp never fires, and after n further exits the guest has seen a sixteenth of the real cycles,
   less at most fifteen sixteenths of a cycle lost to rounding at each exit.
  */
  lemma {:induction false} RateIsOneSixteenth(samples: seq<nat>)
    requires samples != [] && SamplesOk(samples) && NonDecreasing(samples) && samples[0] != 0
    ensures var n := |samples| - 1;
            var gained := 16 * (Run(Start(), samples).fake - samples[0]);
            && samples[n] - samples[0] - 15 * n <= gained <= samples[n] - samples[0]
            && Run(Start(), samples[..1]).fake == samples[0]
  {
    var n := |samples| - 1;
    assert samples[..1][..0] == [];
    if n == 0 {
      assert samples[..1] == samples;
    } else {
      assert samples[..n][..1] == samples[..1];
      RateIsOneSixteenth(samples[..n]);
      RunsKeepInv(Start(), samples[..n]);
      StepIsExact(Run(Start(), samples[..n]), samples[n]);
    }
  }

  lemma OrderedStepAdvances(samples: seq<nat>)
    requires |samples| > 1 && SamplesOk(samples) && NonDecreasing(samples)
    ensures var before := Run(Start(), samples[..|samples| - 1]);
            !Clamped(before, samples[|samples| - 1]) && before.fake <= Run(Start(), samples).fake
  {
    RunsKeepInv(Start(), samples[..|samples| - 1]);
    StepIsExact(Run(Start(), samples[..|samples| - 1]), samples[|samples| - 1]);
  }

  /** Over a whole run in order, later values are never below earlier ones. */
  lemma {:induction false} CounterNeverGoesBack(samples: seq<nat>, i: nat)
    requires SamplesOk(samples) && NonDecreasing(samples) && 1 <= i <= |samples|
    ensures Run(Start(), samples[..i]).fake <= Run(Start(), samples).fake
    decreases |samples|
  {
    if i == |samples| {
      assert samples[..i] == samples;
    } else {
      assert samples[..|samples| - 1][..i] == samples[..i];
      CounterNeverGoesBack(samples[..|samples| - 1], i);
      OrderedStepAdvances(samples);
    }
  }

  /** A zero first sample keeps rdtsc_prev at its initial value, so the next exit gains nothing. */
  lemma ZeroFirstSampleStalls(tsc: nat)
    requires tsc < TWO_64
    ensures Run(Start(), [0, tsc]).fake == 0
    ensures tsc - 15 <= 16 * Run(Start(), [0, tsc]).fake <==> tsc <= 15     // RateIsOneSixteenth, for n == 1
  {
    assert [0, tsc][..1] == [0] && [0][..0] == [];
    assert Run(Start(), [0]) == Clock(false, 0, 0);
  }

  // ---------------------------------------------------------------- in place

  datatype Regs = Regs(rax: nat, rdx: nat)

  lemma HalvesRecombine(v: nat)
    requires v < TWO_64
    ensures ((v / TWO_32) % TWO_32) * TWO_32 + v % TWO_32 == v
  {
    assert v / TWO_32 < TWO_32;
  }

  class RdtscCounter {
    var printOnce: bool
    var rdtscFake: nat
    var rdtscPrev: nat

    ghost predicate Valid()
      reads this
    {
      Inv(View())
    }

    ghost function View(): Clock
      reads this
    {
      Clock(printOnce, rdtscFake, rdtscPrev)
    }

    constructor ()
      ensures Valid() && View() == Start()
    {
      printOnce, rdtscFake, rdtscPrev := true, 0, 0;
    }

    /** handle_rdtsc and handle_rdtsc_interception: EDX:EAX is the counter, and it is not ahead of the real one. */
    method HandleRdtsc(rdtscReal: nat) returns (regs: Regs)
      requires Valid() && rdtscReal < TWO_64
      modifies this
      ensures Valid() && View() == Next(old(View()), rdtscReal)
      ensures regs.rax < TWO_32 && regs.rdx < TWO_32
      ensures regs.rdx * TWO_32 + regs.rax == View().fake <= rdtscReal
    {
      if printOnce {
        printOnce := false;
        rdtscFake := rdtscReal;
      }
      if rdtscPrev != 0 {
        if rdtscReal > rdtscPrev {
          var diff := rdtscReal - rdtscPrev;
          var fakeDiff := diff / 16;
          rdtscFake := (rdtscFake + fakeDiff) % TWO_64;
        }
      }
      if rdtscFake > rdtscReal {
        rdtscFake := rdtscReal;
      }
      rdtscPrev := rdtscReal;
      HalvesRecombine(rdtscFake);
      regs := Regs(rdtscFake % TWO_32, (rdtscFake / TWO_32) % TWO_32);
    }
  }
}
