/**
 The APIC timer on the VMX preemption timer (vmx.c): arming a deadline in vmx_set_hv_timer and
 programming the timer on every VM entry in vmx_update_hv_timer.

 u64 values are naturals below TWO_64 and every wrap-around or truncation is written out.
 The TSC is read by the caller of the model, so each method takes the value read.
*/
module PreemptionTimer {
  import opened Arithmetic
  import opened Options

  const DISARMED: nat := TWO_64 - 1
  const TIMER_MAX: nat := TWO_32 - 1

  function Pow2(n: nat): (p: nat)
    ensures p > 0
  {
    if n == 0 then 1 else 2 * Pow2(n - 1)
  }

  lemma {:induction false} Pow2Sum(m: nat, n: nat)
    ensures Pow2(m + n) == Pow2(m) * Pow2(n)
  {
    if m > 0 {
      Pow2Sum(m - 1, n);
      assert Pow2(m + n) == 2 * Pow2(m - 1 + n);
    }
  }

  lemma Pow2Of64()
    ensures Pow2(16) == 0x1_0000 && Pow2(32) == TWO_32 && Pow2(64) == TWO_64
  {
    assert Pow2(4) == 16;
    Pow2Sum(4, 4);
    Pow2Sum(8, 8);
    Pow2Sum(16, 16);
    Pow2Sum(32, 32);
  }

  /** a << n, not truncated. */
  function Shl(a: nat, n: nat): nat {
    MulMonotone(0, a, Pow2(n));
    a * Pow2(n)
  }

  /** a >> n. */
  function Shr(a: nat, n: nat): nat { Quotient(a, Pow2(n)) }

  // ---------------------------------------------------------------- u64_shl_div_u64

  /** None is the function's overflow return; divq divides the 128-bit high:low. */
  function U64ShlDivU64(a: nat, shift: nat, divisor: nat): Option<nat>
    requires a < TWO_64 && 0 < shift < 64
  {
    var low, high := Shl(a, shift) % TWO_64, Shr(a, 64 - shift);
    if high >= divisor then None else Some(Quotient(high * TWO_64 + low, divisor))
  }

  /** The two halves handed to divq are the whole product. */
  lemma HalvesAreTheProduct(a: nat, shift: nat)
    requires a < TWO_64 && 0 < shift < 64
    ensures Shr(a, 64 - shift) * TWO_64 + Shl(a, shift) % TWO_64 == Shl(a, shift)
  {
    Pow2Of64();
    Pow2Sum(64 - shift, shift);
    Euclid(a, Pow2(64 - shift));
    hide Pow2, Quotient;
    HalvesOf(a, Shr(a, 64 - shift), Pow2(64 - shift), Pow2(shift));
  }

  lemma HalvesOf(a: nat, q: nat, m: nat, n: nat)
    requires q * m <= a < q * m + m && m * n == TWO_64 && n > 0
    ensures q * TWO_64 + (a * n) % TWO_64 == a * n
  {
    ProductSplits(a, q, a - q * m, m, n);
    MulMonotone(0, a, n);
    RemainderIs(a * n, q, TWO_64);
  }

  lemma ProductSplits(a: nat, q: nat, r: nat, m: nat, n: nat)
    requires a == q * m + r && r < m && n > 0
    ensures q * (m * n) <= a * n < q * (m * n) + m * n
  {
    assert a * n == (q * m) * n + r * n;
    assert (q * m) * n == q * (m * n);
    MulMonotone(0, r, n);
    MulMonotone(r + 1, m, n);
    assert (r + 1) * n == r * n + n;
  }

  lemma RemainderIs(n: nat, q: nat, m: nat)
    requires m > 0 && q * m <= n < q * m + m
    ensures q * m + n % m == n
  {
    QuotientIs(n, m, q);
    assert n == m * (n / m) + n % m;
  }

  /** Overflow is reported exactly when floor(a * 2^shift / divisor) needs more than 64 bits. */
  lemma ShlDivIsExact(a: nat, shift: nat, divisor: nat)
    requires a < TWO_64 && 0 < shift < 64 && divisor > 0
    ensures var exact := Quotient(a * Pow2(shift), divisor);
            U64ShlDivU64(a, shift, divisor) == if exact >= TWO_64 then None else Some(exact)
  {
    HalvesAreTheProduct(a, shift);
    var product := Shl(a, shift);
    assert product == a * Pow2(shift);
    var low, high := product % TWO_64, Shr(a, 64 - shift);
    QuotientAtLeast(product, divisor, TWO_64);
    hide Pow2, Shl, Shr, Quotient;
    if high >= divisor {
      MulMonotone(divisor, high, TWO_64);
    } else {
      MulMonotone(high + 1, divisor, TWO_64);
    }
  }

  lemma ZeroDivisorOverflows(a: nat, shift: nat)
    requires a < TWO_64 && 0 < shift < 64
    ensures U64ShlDivU64(a, shift, 0) == None
  {
  }

  // ---------------------------------------------------------------- the machine's constants

  /** ratio is the guest's TSC frequency over the host's, as a fixed-point number with fracBits fraction bits. */
  datatype Config = Config(multi: nat, fracBits: nat, ratio: nat)

  predicate ConfigOk(c: Config) {
    c.multi < 32 && 0 < c.fracBits < 64 && 0 < c.ratio < TWO_64
  }

  function DefaultRatio(c: Config): nat { Pow2(c.fracBits) }

  // ---------------------------------------------------------------- vmx_set_hv_timer

  /** What vmx_set_hv_timer reads: the guest's deadline, both TSCs now, and the advance in cycles. */
  datatype Request = Request(guestDeadline: nat, tscl: nat, guestTscl: nat, advance: nat)

  predicate RequestOk(q: Request) {
    q.guestDeadline < TWO_64 && q.tscl < TWO_64 && q.guestTscl < TWO_64 && q.advance < TWO_64
  }

  function Max(x: nat, y: nat): nat { if x > y then x else y }

  /** Guest cycles to wait, after the advance. */
  function GuestDelta(q: Request): (delta: nat)
    requires RequestOk(q)
    ensures delta < TWO_64
  {
    var delta := Max(q.guestDeadline, q.guestTscl) - q.guestTscl;
    if delta > q.advance then delta - q.advance else 0
  }

  /** Host cycles to wait; None is -ERANGE. */
  function HostDelta(q: Request, c: Config): Option<nat>
    requires RequestOk(q) && ConfigOk(c)
  {
    var delta := GuestDelta(q);
    var scaled := if c.ratio != DefaultRatio(c) && delta != 0
                  then U64ShlDivU64(delta, c.fracBits, c.ratio) else Some(delta);
    if scaled.None? || Shr(scaled.value, c.multi + 32) != 0 then None else scaled
  }

  datatype SetResult = ERange | Armed(hvDeadline: nat, expired: bool)

  function SetHvTimerResult(q: Request, c: Config): SetResult
    requires RequestOk(q) && ConfigOk(c)
  {
    match HostDelta(q, c)
    case None => ERange
    case Some(delta) => Armed((q.tscl + delta) % TWO_64, delta == 0)
  }

  lemma GuestDeltaIs(q: Request)
    requires RequestOk(q)
    ensures GuestDelta(q) ==
            if q.guestDeadline > q.guestTscl + q.advance then q.guestDeadline - q.advance - q.guestTscl else 0
  {
  }

  /**
   The accepted host delta is the time the guest has to wait, less the advance, converted and
   rounded down.
  */
  lemma HostDeltaIsRoundedDown(q: Request, c: Config)
    requires RequestOk(q) && ConfigOk(c) && HostDelta(q, c).Some?
    ensures var h := HostDelta(q, c).value;
            var wait := if q.guestDeadline > q.guestTscl + q.advance then q.guestDeadline - q.advance - q.guestTscl else 0;
            h * c.ratio <= wait * DefaultRatio(c) < (h + 1) * c.ratio
  {
    var delta := GuestDelta(q);
    GuestDeltaIs(q);
    hide Shr, GuestDelta, Quotient, DefaultRatio;
    if c.ratio != DefaultRatio(c) && delta != 0 {
      ShlDivIsExact(delta, c.fracBits, c.ratio);
      assert DefaultRatio(c) == Pow2(c.fracBits) by { DefaultRatioIs(c); }
      hide Pow2;
      RoundedDown(delta * DefaultRatio(c), c.ratio);
    } else {
      Unscaled(delta, c.ratio, DefaultRatio(c));
    }
  }

  lemma DefaultRatioIs(c: Config)
    ensures DefaultRatio(c) == Pow2(c.fracBits)
  {
  }

  lemma RoundedDown(n: nat, d: nat)
    requires d > 0
    ensures Quotient(n, d) * d <= n < (Quotient(n, d) + 1) * d
  {
    Euclid(n, d);
    hide Quotient;
    assert (Quotient(n, d) + 1) * d == Quotient(n, d) * d + d;
  }

  lemma Unscaled(x: nat, k: nat, d: nat)
    requires k > 0 && (k == d || x == 0)
    ensures x * k <= x * d < (x + 1) * k
  {
    assert (x + 1) * k == x * k + k;
  }

  /** The accepted host delta fits 32 bits of timer ticks. */
  lemma HostDeltaFits(q: Request, c: Config)
    requires RequestOk(q) && ConfigOk(c) && HostDelta(q, c).Some?
    ensures HostDelta(q, c).value < Pow2(c.multi) * TWO_32 <= TWO_64
  {
    hide Pow2, Shr, GuestDelta, Quotient;
    FitsTheTimer(HostDelta(q, c).value, c.multi);
    Pow2Small(c.multi);
  }

  lemma FitsTheTimer(h: nat, multi: nat)
    ensures Shr(h, multi + 32) == 0 <==> h < Pow2(multi) * TWO_32
  {
    Pow2Of64();
    Pow2Sum(multi, 32);
    QuotientAtLeast(h, Pow2(multi + 32), 1);
  }

  /** -ERANGE is exactly "the converted delta does not fit 32 bits of timer ticks". */
  lemma RefusedIffTooFar(q: Request, c: Config)
    requires RequestOk(q) && ConfigOk(c)
    ensures SetHvTimerResult(q, c) == ERange <==>
            q.guestDeadline > q.guestTscl + q.advance &&
            (q.guestDeadline - q.advance - q.guestTscl) * DefaultRatio(c) >= Pow2(c.multi) * TWO_32 * c.ratio
  {
    var delta, room := GuestDelta(q), Pow2(c.multi) * TWO_32;
    GuestDeltaIs(q);
    Pow2Small(c.multi);
    hide Pow2, Shr, GuestDelta, Quotient;
    if c.ratio != DefaultRatio(c) && delta != 0 {
      ShlDivIsExact(delta, c.fracBits, c.ratio);
      var product := delta * Pow2(c.fracBits);
      FitsTheTimer(Quotient(product, c.ratio), c.multi);
      QuotientAtLeast(product, c.ratio, room);
    } else {
      FitsTheTimer(delta, c.multi);
      ComparesAlike(delta, room, c.ratio);
      MulMonotone(1, room, c.ratio);
    }
  }

  lemma ComparesAlike(x: nat, y: nat, k: nat)
    requires k > 0
    ensures x >= y <==> x * k >= y * k
  {
    if x >= y {
      MulMonotone(y, x, k);
    } else {
      MulMonotone(x + 1, y, k);
      assert (x + 1) * k == x * k + k;
    }
  }

  lemma Pow2Small(multi: nat)
    requires multi < 32
    ensures 0 < Pow2(multi) * TWO_32 <= TWO_64
  {
    hide Pow2;
    Pow2Of64();
    Pow2Sum(multi, 32 - multi);
    MulMonotone(1, Pow2(32 - multi), Pow2(multi));
    assert Pow2(32 - multi) * Pow2(multi) == TWO_32;
  }

  // ---------------------------------------------------------------- the guest's clock

  /** The guest's TSC when the host's is t: scaled, then shifted by the offset (kvm_read_l1_tsc). */
  function GuestTsc(t: nat, c: Config, offset: int): int
    requires ConfigOk(c)
  {
    MulMonotone(0, t, c.ratio);
    Quotient(t * c.ratio, DefaultRatio(c)) + offset
  }

  lemma ScaledSum(t: nat, h: nat, ratio: nat, frac: nat, delta: nat)
    requires frac > 0 && t * ratio >= 0 && (t + h) * ratio >= 0
    ensures h * ratio <= delta * frac ==> Quotient((t + h) * ratio, frac) <= Quotient(t * ratio, frac) + delta
    ensures h * ratio >= delta * frac ==> Quotient((t + h) * ratio, frac) >= Quotient(t * ratio, frac) + delta
  {
    var now := Quotient(t * ratio, frac);
    Euclid(t * ratio, frac);
    hide Quotient;
    assert (t + h) * ratio == t * ratio + h * ratio;
    assert (now + delta) * frac == now * frac + delta * frac;
    assert (now + delta + 1) * frac == now * frac + delta * frac + frac;
    QuotientAtLeast((t + h) * ratio, frac, now + delta);
    QuotientAtLeast((t + h) * ratio, frac, now + delta + 1);
  }

  lemma GuestClockAdvances(t: nat, h: nat, delta: nat, c: Config, offset: int)
    requires ConfigOk(c)
    ensures h * c.ratio <= delta * DefaultRatio(c) ==> GuestTsc(t + h, c, offset) <= GuestTsc(t, c, offset) + delta
    ensures h * c.ratio >= delta * DefaultRatio(c) ==> GuestTsc(t + h, c, offset) >= GuestTsc(t, c, offset) + delta
  {
    hide Quotient, Pow2;
    MulMonotone(0, t, c.ratio);
    MulMonotone(0, t + h, c.ratio);
    ScaledSum(t, h, c.ratio, DefaultRatio(c), delta);
  }

  /**
   Rounding never pushes the deadline past what the guest asked for: when the host reaches the
   armed deadline the guest's clock is at most the guest's deadline less the advance, and one
   host cycle later it is at least that.  With no more than the advance left to wait, the timer is
   armed at once and reported as expired.
  */
  lemma HostDeadlineIsTheGuestDeadline(q: Request, c: Config, offset: int)
    requires RequestOk(q) && ConfigOk(c) && HostDelta(q, c).Some?
    requires q.guestTscl == GuestTsc(q.tscl, c, offset)
    ensures var d := q.tscl + HostDelta(q, c).value;
            if q.guestDeadline > q.guestTscl + q.advance then
              GuestTsc(d, c, offset) <= q.guestDeadline - q.advance <= GuestTsc(d + 1, c, offset)
            else d == q.tscl && SetHvTimerResult(q, c) == Armed(q.tscl, true)
  {
    HostDeltaIsRoundedDown(q, c);
    GuestDeltaIs(q);
    if q.guestDeadline <= q.guestTscl + q.advance { NothingToWait(q, c); }
    var h, delta, t := HostDelta(q, c).value, GuestDelta(q), q.tscl;
    hide HostDelta, GuestDelta, DefaultRatio, GuestTsc, RequestOk, SetHvTimerResult;
    GuestClockAdvances(t, h, delta, c, offset);
    GuestClockAdvances(t, h + 1, delta, c, offset);
  }

  lemma NothingToWait(q: Request, c: Config)
    requires RequestOk(q) && ConfigOk(c) && q.guestDeadline <= q.guestTscl + q.advance
    ensures HostDelta(q, c) == Some(0) && SetHvTimerResult(q, c) == Armed(q.tscl, true)
  {
    GuestDeltaIs(q);
    QuotientIs(0, Pow2(c.multi + 32), 0);
    hide GuestDelta, Pow2;
  }

  // ---------------------------------------------------------------- vmx_update_hv_timer

  datatype Timer = Timer(hvDeadline: nat, immediateExit: bool, softDisabled: bool, value: nat)

  /** vmx_update_hv_timer with the TSC at t. */
  function AfterUpdate(v: Timer, t: nat, multi: nat): Timer {
    if v.immediateExit then v.(value := 0, softDisabled := false)
    else if v.hvDeadline != DISARMED then
      var ticks := if v.hvDeadline > t then Shr(v.hvDeadline - t, multi) % TWO_32 else 0;
      v.(value := ticks, softDisabled := false)
    else if !v.softDisabled then v.(value := TIMER_MAX, softDisabled := true)
    else v
  }

  /**
   The TSC at which a timer loaded with n at TSC t expires: it counts down by one each time bit
   multi of the TSC changes (section 26.5.1 of the Intel SDM, 25.5.1 in earlier editions), and
   zero expires at once.
  */
  function ExpiryTsc(t: nat, n: nat, multi: nat): nat {
    if n == 0 then t else Shl(Shr(t, multi) + n, multi)
  }

  /** The ticks left until d run out at or before d, and less than two ticks before it. */
  lemma TicksRunOutInTime(t: nat, d: nat, multi: nat)
    requires t <= d
    ensures var end := ExpiryTsc(t, Shr(d - t, multi), multi);
            end <= d < end + 2 * Pow2(multi)
  {
    var p, n, k := Pow2(multi), Shr(d - t, multi), Shr(t, multi);
    Euclid(d - t, p);
    Euclid(t, p);
    assert Shl(k + n, multi) == (k + n) * p;
    hide Pow2, Shr, Shl, Quotient;
    assert (k + n) * p == k * p + n * p;
  }

  /**
   A deadline accepted without wrapping keeps every bit in the cast to u32 at any TSC at or after
   arming, and the timer it programs never expires after the deadline.
  */
  lemma AcceptedDeadlineIsKept(q: Request, c: Config, v: Timer, t: nat)
    requires RequestOk(q) && ConfigOk(c) && HostDelta(q, c).Some?
    requires q.tscl + HostDelta(q, c).value < DISARMED
    requires v.hvDeadline == q.tscl + HostDelta(q, c).value && !v.immediateExit
    requires q.tscl <= t
    ensures var w := AfterUpdate(v, t, c.multi);
            var end := ExpiryTsc(t, w.value, c.multi);
            && SetHvTimerResult(q, c) == Armed(v.hvDeadline, v.hvDeadline == q.tscl)
            && !w.softDisabled
            && w.value == (if t < v.hvDeadline then Shr(v.hvDeadline - t, c.multi) else 0)
            && (if t <= v.hvDeadline then end <= v.hvDeadline < end + 2 * Pow2(c.multi) else end == t)
  {
    HostDeltaFits(q, c);
    var d := v.hvDeadline;
    assert (q.tscl + HostDelta(q, c).value) % TWO_64 == d;
    hide HostDelta, GuestDelta, DefaultRatio, ConfigOk, RequestOk;
    if t <= d {
      TicksFit(d - t, c.multi);
      TicksRunOutInTime(t, d, c.multi);
      hide Pow2, Shr, ExpiryTsc;
    } else {
      hide Pow2, Shr;
    }
  }

  lemma TicksFit(delta: nat, multi: nat)
    requires delta < Pow2(multi) * TWO_32
    ensures Shr(delta, multi) < TWO_32 && (delta < Pow2(multi) <==> Shr(delta, multi) == 0)
  {
    QuotientAtLeast(delta, Pow2(multi), TWO_32);
    QuotientAtLeast(delta, Pow2(multi), 1);
  }

  function AfterSet(v: Timer, q: Request, c: Config): Timer
    requires RequestOk(q) && ConfigOk(c)
  {
    match SetHvTimerResult(q, c)
    case ERange => v
    case Armed(hvDeadline, _) => v.(hvDeadline := hvDeadline)
  }

  /**
   What wrapping costs.  Arming and entering at once programs the accepted delta exactly when the
   sum neither is the disarmed value nor wraps, except that a wrapped deadline less than a tick
   away also gives the zero it should.
  */
  lemma ArmedDeltaIsProgrammedIff(q: Request, c: Config, v: Timer)
    requires RequestOk(q) && ConfigOk(c) && HostDelta(q, c).Some?
    requires v.hvDeadline == AfterSet(v, q, c).hvDeadline && !v.immediateExit
    ensures var w := AfterUpdate(v, q.tscl, c.multi);
            var h := HostDelta(q, c).value;
            (!w.softDisabled && w.value == Shr(h, c.multi)) <==>
            (q.tscl + h != DISARMED && (q.tscl + h < TWO_64 || h < Pow2(c.multi)))
  {
    HostDeltaFits(q, c);
    var h := HostDelta(q, c).value;
    TicksFit(h, c.multi);
    assert v.hvDeadline == (q.tscl + h) % TWO_64;
    hide Pow2, Shr, HostDelta, SetHvTimerResult, AfterUpdate;
    ArmedNow(v, q.tscl, h, c.multi);
  }

  lemma ArmedNow(v: Timer, tscl: nat, h: nat, multi: nat)
    requires tscl < TWO_64 && h < TWO_64 && v.hvDeadline == (tscl + h) % TWO_64 && !v.immediateExit
    requires Shr(h, multi) < TWO_32 && (h < Pow2(multi) <==> Shr(h, multi) == 0)
    ensures var w := AfterUpdate(v, tscl, multi);
            (!w.softDisabled && w.value == Shr(h, multi)) <==>
            (tscl + h != DISARMED && (tscl + h < TWO_64 || h < Pow2(multi)))
  {
    hide Shr;
    if h == 0 { assert h < Pow2(multi); }
    hide Pow2;
    assert v.hvDeadline == if tscl + h < TWO_64 then tscl + h else tscl + h - TWO_64;
  }

  /** A concrete deadline that is accepted and then not programmed at all. */
  lemma TopDeadlineIsDropped()
    ensures var c := Config(5, 48, Pow2(48));
            var q := Request(2000, TWO_64 - 1001, 1000, 0);
            && RequestOk(q) && ConfigOk(c) && SetHvTimerResult(q, c) == Armed(DISARMED, false)
            && AfterUpdate(Timer(DISARMED, false, false, 0), q.tscl, c.multi).softDisabled
  {
    Pow2Of64();
    Pow2Sum(32, 16);
    assert Pow2(5) == 32;
    FitsTheTimer(1000, 5);
  }

  // ---------------------------------------------------------------- whole runs

  datatype Step =
    | Set(request: Request)
    | Cancel
    | RequestImmediateExit
    | Entry(t: nat)      // vmx_update_hv_timer, before the guest runs
    | PrepareSwitch      // vmx_prepare_switch_to_guest drops the request for an immediate exit

  predicate StepOk(step: Step) { step.Set? ==> RequestOk(step.request) }

  function AfterStep(v: Timer, step: Step, c: Config): Timer
    requires StepOk(step) && ConfigOk(c)
  {
    match step
    case Set(q) => AfterSet(v, q, c)
    case Cancel => v.(hvDeadline := DISARMED)
    case RequestImmediateExit => v.(immediateExit := true)
    case Entry(t) => AfterUpdate(v, t, c.multi)
    case PrepareSwitch => v.(immediateExit := false)
  }

  function Run(v: Timer, steps: seq<Step>, c: Config): Timer
    requires ConfigOk(c) && forall i :: 0 <= i < |steps| ==> StepOk(steps[i])
  {
    if steps == [] then v else AfterStep(Run(v, steps[..|steps| - 1], c), steps[|steps| - 1], c)
  }

  predicate Inv(v: Timer) { v.softDisabled ==> v.value == TIMER_MAX }

  lemma {:induction false} RunsKeepInv(v: Timer, steps: seq<Step>, c: Config)
    requires Inv(v) && ConfigOk(c) && forall i :: 0 <= i < |steps| ==> StepOk(steps[i])
    ensures Inv(Run(v, steps, c))
  {
    hide SetHvTimerResult, ConfigOk;
    if steps != [] {
      RunsKeepInv(v, steps[..|steps| - 1], c);
    }
  }

  /** Once cancelled, the timer stays at its maximum for every entry until it is armed again. */
  lemma {:induction false} CancelHolds(v: Timer, steps: seq<Step>, c: Config, t: nat)
    requires Inv(v) && ConfigOk(c) && (forall i :: 0 <= i < |steps| ==> StepOk(steps[i]) && !steps[i].Set?)
    requires !Run(AfterStep(v, Cancel, c), steps, c).immediateExit
    ensures Run(AfterStep(v, Cancel, c), steps, c).hvDeadline == 0xffff_ffff_ffff_ffff
    ensures AfterUpdate(Run(AfterStep(v, Cancel, c), steps, c), t, c.multi).value == 0xffff_ffff
  {
    RunsKeepInv(AfterStep(v, Cancel, c), steps, c);
    NoSetKeepsDeadline(AfterStep(v, Cancel, c), steps, c);
  }

  /** A request for an immediate exit stands until the next switch to the guest is prepared, and no longer. */
  lemma {:induction false} ImmediateExitHolds(v: Timer, steps: seq<Step>, c: Config)
    requires ConfigOk(c) && forall i :: 0 <= i < |steps| ==> StepOk(steps[i])
    ensures (forall i :: 0 <= i < |steps| ==> !steps[i].PrepareSwitch?) ==>
              Run(AfterStep(v, RequestImmediateExit, c), steps, c).immediateExit
    ensures (forall i :: 0 <= i < |steps| ==> !steps[i].RequestImmediateExit?) ==>
              !Run(AfterStep(v, PrepareSwitch, c), steps, c).immediateExit
  {
    if steps != [] {
      ImmediateExitHolds(v, steps[..|steps| - 1], c);
    }
  }

  lemma {:induction false} NoSetKeepsDeadline(v: Timer, steps: seq<Step>, c: Config)
    requires ConfigOk(c) && (forall i :: 0 <= i < |steps| ==> StepOk(steps[i]) && !steps[i].Set?)
    requires v.hvDeadline == DISARMED
    ensures Run(v, steps, c).hvDeadline == DISARMED
  {
    if steps != [] { NoSetKeepsDeadline(v, steps[..|steps| - 1], c); }
  }

  /** The latest TSC reading of a run that began at now. */
  function Now(steps: seq<Step>, now: nat): nat {
    if steps == [] then now
    else
      match steps[|steps| - 1]
      case Set(q) => q.tscl
      case Entry(t) => t
      case _ => Now(steps[..|steps| - 1], now)
  }

  /** TSC readings never go back. */
  predicate Ordered(steps: seq<Step>, now: nat) {
    steps == [] ||
    (Ordered(steps[..|steps| - 1], now) && Now(steps[..|steps| - 1], now) <= Now(steps, now))
  }

  /** Arming at q neither wraps nor gives the disarmed value. */
  predicate ArmsCleanly(q: Request, c: Config)
    requires RequestOk(q) && ConfigOk(c)
  {
    match HostDelta(q, c)
    case None => true
    case Some(delta) => q.tscl + delta < DISARMED
  }

  /** The request that last decided the deadline armed cleanly. */
  predicate LastSetIsClean(steps: seq<Step>, c: Config)
    requires ConfigOk(c) && forall i :: 0 <= i < |steps| ==> StepOk(steps[i])
  {
    if steps == [] then true
    else
      assert StepOk(steps[|steps| - 1]);
      match steps[|steps| - 1]
      case Set(q) => if HostDelta(q, c).Some? then ArmsCleanly(q, c) else LastSetIsClean(steps[..|steps| - 1], c)
      case Cancel => true
      case _ => LastSetIsClean(steps[..|steps| - 1], c)
  }

  /** An armed deadline is no further off than 32 bits of ticks. */
  predicate Fits(v: Timer, now: nat, multi: nat) {
    v.hvDeadline == DISARMED || v.hvDeadline <= now || v.hvDeadline - now < Pow2(multi) * TWO_32
  }

  lemma CleanSetFits(v: Timer, q: Request, c: Config)
    requires RequestOk(q) && ConfigOk(c) && HostDelta(q, c).Some? && ArmsCleanly(q, c)
    ensures Fits(AfterSet(v, q, c), q.tscl, c.multi)
  {
    HostDeltaFits(q, c);
    var h := HostDelta(q, c).value;
    hide HostDelta, Pow2;
    assert (q.tscl + h) % TWO_64 == q.tscl + h;
  }

  lemma {:induction false} RunsKeepFits(v: Timer, steps: seq<Step>, c: Config, now: nat)
    requires ConfigOk(c) && (forall i :: 0 <= i < |steps| ==> StepOk(steps[i])) && Fits(v, now, c.multi)
    requires Ordered(steps, now) && LastSetIsClean(steps, c)
    ensures Fits(Run(v, steps, c), Now(steps, now), c.multi)
  {
    if steps != [] {
      var before, step := steps[..|steps| - 1], steps[|steps| - 1];
      hide HostDelta, Pow2, ConfigOk, AfterUpdate;
      if step.Set? && HostDelta(step.request, c).Some? {
        CleanSetFits(Run(v, before, c), step.request, c);
      } else if step.Entry? {
        RunsKeepFits(v, before, c, now);
        UpdateKeepsDeadline(Run(v, before, c), step.t, c.multi);
      } else if !step.Cancel? {
        RunsKeepFits(v, before, c, now);
      }
    }
  }

  lemma UpdateKeepsDeadline(v: Timer, t: nat, multi: nat)
    ensures AfterUpdate(v, t, multi).hvDeadline == v.hvDeadline
  {
  }

  lemma FittingDeadlineIsProgrammed(v: Timer, t: nat, multi: nat)
    requires Fits(v, t, multi) && !v.immediateExit && v.hvDeadline != DISARMED
    ensures var n := AfterUpdate(v, t, multi).value;
            && n == (if t < v.hvDeadline then Shr(v.hvDeadline - t, multi) else 0)
            && (t <= v.hvDeadline ==> ExpiryTsc(t, n, multi) <= v.hvDeadline < ExpiryTsc(t, n, multi) + 2 * Pow2(multi))
            && (t > v.hvDeadline ==> ExpiryTsc(t, n, multi) == t)
  {
    var d := v.hvDeadline;
    hide Pow2;
    if t < d {
      TicksFit(d - t, multi);
      TicksRunOutInTime(t, d, multi);
      hide Shr, ExpiryTsc;
    } else {
      ZeroExpiresAtOnce(t, multi);
      hide Shr, ExpiryTsc;
    }
  }

  lemma ZeroExpiresAtOnce(t: nat, multi: nat)
    ensures ExpiryTsc(t, 0, multi) == t
  {
  }

  /**
   In every run, the timer the guest starts with is zero for a requested exit and the maximum while
   disarmed; so skipping the write when the timer is already soft-disabled is safe.  The exit
   handler's test for a real expiry, no request and not soft-disabled, holds exactly when a deadline
   was armed.
  */
  lemma EntryProgramsTheTimer(v: Timer, steps: seq<Step>, c: Config, t: nat)
    requires Inv(v) && ConfigOk(c) && forall i :: 0 <= i < |steps| ==> StepOk(steps[i])
    ensures var before := Run(v, steps, c);
            var after := AfterUpdate(before, t, c.multi);
            && (before.immediateExit ==> after.value == 0)
            && (!before.immediateExit && before.hvDeadline == DISARMED ==> after.value == 0xffff_ffff)
            && (!after.immediateExit && !after.softDisabled <==> !before.immediateExit && before.hvDeadline != DISARMED)
  {
    RunsKeepInv(v, steps, c);
  }

  /**
   In every run whose TSC readings never go back and whose last deciding request armed cleanly, an
   entry with a deadline armed programs exactly the remaining ticks, none of them lost to the cast,
   and the timer expires at or before the deadline, by less than two ticks.
  */
  lemma EntryProgramsTheDeadline(v: Timer, steps: seq<Step>, c: Config, now: nat, t: nat)
    requires ConfigOk(c) && (forall i :: 0 <= i < |steps| ==> StepOk(steps[i])) && Fits(v, now, c.multi)
    requires Ordered(steps, now) && LastSetIsClean(steps, c) && Now(steps, now) <= t
    ensures var before := Run(v, steps, c);
            var n, d := AfterUpdate(before, t, c.multi).value, before.hvDeadline;
            !before.immediateExit && d != DISARMED ==>
              && n == (if t < d then Shr(d - t, c.multi) else 0)
              && (t <= d ==> ExpiryTsc(t, n, c.multi) <= d < ExpiryTsc(t, n, c.multi) + 2 * Pow2(c.multi))
              && (t > d ==> ExpiryTsc(t, n, c.multi) == t)
  {
    RunsKeepFits(v, steps, c, now);
    var before := Run(v, steps, c);
    assert Fits(before, t, c.multi) by { FitsLater(before, Now(steps, now), t, c.multi); }
    hide Fits, Run, AfterUpdate, Pow2, Shr, ExpiryTsc;
    if !before.immediateExit && before.hvDeadline != DISARMED {
      FittingDeadlineIsProgrammed(before, t, c.multi);
    }
  }

  lemma FitsLater(v: Timer, now: nat, t: nat, multi: nat)
    requires Fits(v, now, multi) && now <= t
    ensures Fits(v, t, multi)
  {
  }

  // ---------------------------------------------------------------- in place

  class VcpuVmx {
    const config: Config
    var hvDeadlineTsc: nat
    var reqImmediateExit: bool
    var hvTimerSoftDisabled: bool      // of the loaded VMCS
    var timerValue: nat                // VMX_PREEMPTION_TIMER_VALUE

    ghost predicate Valid()
      reads this
    {
      ConfigOk(config) && Inv(View())
    }

    ghost function View(): Timer
      reads this
    {
      Timer(hvDeadlineTsc, reqImmediateExit, hvTimerSoftDisabled, timerValue)
    }

    constructor (config: Config)
      requires ConfigOk(config)
      ensures Valid() && View() == Timer(DISARMED, false, false, 0)
    {
      this.config := config;
      hvDeadlineTsc, reqImmediateExit, hvTimerSoftDisabled, timerValue := DISARMED, false, false, 0;
    }

    method SetHvTimer(q: Request) returns (r: SetResult)
      requires Valid() && RequestOk(q)
      modifies this`hvDeadlineTsc
      ensures Valid() && r == SetHvTimerResult(q, config) && View() == AfterSet(old(View()), q, config)
    {
      var delta := Max(q.guestDeadline, q.guestTscl) - q.guestTscl;
      if delta > q.advance {
        delta := delta - q.advance;
      } else {
        delta := 0;
      }
      if config.ratio != DefaultRatio(config) && delta != 0 {
        var scaled := U64ShlDivU64(delta, config.fracBits, config.ratio);
        if scaled.None? {
          return ERange;
        }
        delta := scaled.value;
      }
      if Shr(delta, config.multi + 32) != 0 {
        return ERange;
      }
      hvDeadlineTsc := (q.tscl + delta) % TWO_64;
      r := Armed(hvDeadlineTsc, delta == 0);
    }

    method CancelHvTimer()
      requires Valid()
      modifies this`hvDeadlineTsc
      ensures Valid() && View() == AfterStep(old(View()), Cancel, config) && hvDeadlineTsc == 0xffff_ffff_ffff_ffff
    {
      hvDeadlineTsc := DISARMED;
    }

    method UpdateHvTimer(tscl: nat)
      requires Valid()
      modifies this`timerValue, this`hvTimerSoftDisabled
      ensures Valid() && View() == AfterUpdate(old(View()), tscl, config.multi)
    {
      if reqImmediateExit {
        timerValue := 0;
        hvTimerSoftDisabled := false;
      } else if hvDeadlineTsc != DISARMED {
        var deltaTsc := 0;
        if hvDeadlineTsc > tscl {
          deltaTsc := Shr(hvDeadlineTsc - tscl, config.multi) % TWO_32;
        }
        timerValue := deltaTsc;
        hvTimerSoftDisabled := false;
      } else if !hvTimerSoftDisabled {
        timerValue := TIMER_MAX;
        hvTimerSoftDisabled := true;
      }
    }
  }
}
