/** The time that the inner loop of st_prep_buffer (stepper.c) accounts for.  It takes the time of a ramp
    to the maximum speed over the whole segment, even when earlier passes have covered part of the ramp:
    exactly when the clock is wrong, and when it has to run back. */
module Timing {
  import opened Machine
  import opened Prep

  /** The time the machine takes for a pass, from the change of speed or the distance covered. */
  function Taken(z: Pass, a: real, p: Profile): real
    requires a > 0.0 && (z.from.ramp == CRUISE ==> p.maximumSpeed > 0.0)
  {
    match z.from.ramp
    case ACCEL => (z.to.v - z.from.v) / a
    case DECEL_OVERRIDE => (z.from.v - z.to.v) / a
    case CRUISE => (z.from.mm - z.to.mm) / p.maximumSpeed
    case DECEL => (z.from.v - z.to.v) / a
  }

  ghost predicate Regular(zs: seq<Pass>, a: real, p: Profile) {
    a > 0.0 && forall i | 0 <= i < |zs| :: On(zs[i].from, a, p)
  }

  ghost function TotalTaken(zs: seq<Pass>, a: real, p: Profile): real
    requires Regular(zs, a, p)
  {
    if zs == [] then 0.0 else TotalTaken(zs[..|zs| - 1], a, p) + Taken(zs[|zs| - 1], a, p)
  }

  /** Leaving a ramp at the maximum speed. */
  predicate EndsRamp(z: Pass) {
    ToMaximum(z.from.ramp) && !ToMaximum(z.to.ramp)
  }

  // ---- one pass ------------------------------------------------------------------------------------

  /** Every other pass accounts for exactly the time it takes. */
  lemma PassExact(z: Pass, block: real, a: real, p: Profile)
    requires a > 0.0 && On(z.from, a, p) && !EndsRamp(z)
    requires Passes(z.from, z.budget, z.to, z.time, a, p) && Clocked(z, block, p)
    ensures z.time == Taken(z, a, p)
  {
    hide OnRamp, Passes, Clocked;
    match z.from.ramp
    case ACCEL => ChangeExact(z, a, p);
    case DECEL_OVERRIDE => ChangeExact(z, a, p);
    case CRUISE => CruiseExact(z, a, p);
    case DECEL => BrakingExact(z, block, a, p);
  }

  lemma ChangeExact(z: Pass, a: real, p: Profile)
    requires a > 0.0 && On(z.from, a, p) && ToMaximum(z.from.ramp) && !EndsRamp(z)
    requires Passes(z.from, z.budget, z.to, z.time, a, p)
    ensures z.time == (if z.from.ramp == ACCEL then z.to.v - z.from.v else z.from.v - z.to.v) / a
  {
    hide OnRamp, Travel;
    Divide(z.time, a, if z.from.ramp == ACCEL then z.to.v - z.from.v else z.from.v - z.to.v);
  }

  lemma CruiseExact(z: Pass, a: real, p: Profile)
    requires a > 0.0 && On(z.from, a, p) && z.from.ramp == CRUISE
    requires Passes(z.from, z.budget, z.to, z.time, a, p)
    ensures z.time == (z.from.mm - z.to.mm) / p.maximumSpeed
  {
    hide Sqr, Gain, Travel;
    Divide(z.time, p.maximumSpeed, z.from.mm - z.to.mm);
  }

  lemma BrakingExact(z: Pass, block: real, a: real, p: Profile)
    requires a > 0.0 && On(z.from, a, p) && z.from.ramp == DECEL
    requires Passes(z.from, z.budget, z.to, z.time, a, p) && Clocked(z, block, p)
    ensures z.time == (z.from.v - z.to.v) / a
  {
    hide Sqr, Gain, Travel;
    if z.to.mm == p.mmComplete {
      BrakingTime(z, a, p);
    } else {
      Divide(z.time, a, z.from.v - z.to.v);
    }
  }

  lemma Divide(t: real, a: real, d: real)
    requires a > 0.0 && t * a == d
    ensures t == d / a
  {
  }

  lemma BrakingTime(z: Pass, a: real, p: Profile)
    requires a > 0.0 && On(z.from, a, p) && z.from.ramp == DECEL && z.to == Point(DECEL, p.exitSpeed, p.mmComplete)
    requires Clocked(z, 0.0, p)
    ensures z.time == (z.from.v - z.to.v) / a
  {
    var v, x, d := z.from.v, p.exitSpeed, z.from.mm - z.to.mm;
    assert Sqr(v) - Sqr(x) == Gain(a, d) && v >= 0.0 && x >= 0.0;
    assert v + x > 0.0 ==> z.time * (v + x) == 2.0 * d;
    assert v + x == 0.0 ==> z.time == 0.0;
    hide *;
    SpeedsApart(v, x, a, d);
    if v + x > 0.0 {
      SpanTime(z.time, v, x, a, 2.0 * d);
    }
  }

  /** Speeds v and x, a distance d/2 apart at acceleration a. */
  lemma SpanTime(t: real, v: real, x: real, a: real, d: real)
    requires a > 0.0 && v + x > 0.0 && v * v - x * x == a * d && t * (v + x) == d
    ensures t == (v - x) / a
  {
    assert (t * a) * (v + x) == a * (t * (v + x));
    assert (v - x) * (v + x) == v * v - x * x;
    assert (t * a - (v - x)) * (v + x) == 0.0;
    NoFactor(t * a - (v - x), v + x);
    Divide(t, a, v - x);
  }

  lemma NoFactor(x: real, y: real)
    requires x * y == 0.0 && y > 0.0
    ensures x == 0.0
  {
  }

  /** The pass that ends such a ramp, part of the segment before it, overshoots. */
  lemma PassOvershoots(z: Pass, block: real, a: real, p: Profile)
    requires a > 0.0 && On(z.from, a, p) && EndsRamp(z)
    requires Passes(z.from, z.budget, z.to, z.time, a, p) && Clocked(z, block, p)
    ensures (z.time - Taken(z, a, p)) * (z.from.v + p.maximumSpeed) == 2.0 * (block - z.from.mm)
  {
    hide *;
    RampEnd(z, block, a, p);
    var v, from, to := z.from.v, z.from.mm, z.to.mm;
    if z.from.ramp == ACCEL {
      Overshoot(z.time, Taken(z, a, p), p.maximumSpeed, v, a, from, to, block);
    } else {
      Overshoot(z.time, Taken(z, a, p), v, p.maximumSpeed, a, from, to, block);
    }
  }

  lemma Overshoot(time: real, taken: real, v: real, x: real, a: real, from: real, to: real, block: real)
    requires a > 0.0 && v >= 0.0 && x >= 0.0 && v + x > 0.0 && Sqr(v) - Sqr(x) == Gain(a, from - to)
    requires taken == (v - x) / a && time * (x + v) == 2.0 * (block - to)
    ensures (time - taken) * (x + v) == 2.0 * (block - from)
  {
    hide *;
    SpeedsApart(v, x, a, from - to);
    TimeDiffers(time, v, x, a, 2.0 * (from - to), 2.0 * (block - to));
  }

  lemma RampEnd(z: Pass, block: real, a: real, p: Profile)
    requires a > 0.0 && On(z.from, a, p) && EndsRamp(z)
    requires Passes(z.from, z.budget, z.to, z.time, a, p) && Clocked(z, block, p)
    ensures z.time * (z.from.v + p.maximumSpeed) == 2.0 * (block - z.to.mm)
    ensures z.from.v >= 0.0 && p.maximumSpeed > 0.0
    ensures if z.from.ramp == ACCEL then
              && Sqr(p.maximumSpeed) - Sqr(z.from.v) == Gain(a, z.from.mm - z.to.mm)
              && Taken(z, a, p) == (p.maximumSpeed - z.from.v) / a
            else
              && Sqr(z.from.v) - Sqr(p.maximumSpeed) == Gain(a, z.from.mm - z.to.mm)
              && Taken(z, a, p) == (z.from.v - p.maximumSpeed) / a
  {
    hide Sqr, Gain, Travel;
  }

  lemma SpeedsApart(v: real, x: real, a: real, d: real)
    requires Sqr(v) - Sqr(x) == Gain(a, d)
    ensures v * v - x * x == a * (2.0 * d)
  {
    assert 2.0 * a * d == a * (2.0 * d);
  }

  lemma TimeDiffers(time: real, v: real, x: real, a: real, d: real, e: real)
    requires a > 0.0 && v + x > 0.0 && v * v - x * x == a * d && time * (x + v) == e
    ensures (time - (v - x) / a) * (x + v) == e - d
  {
    var t := d / (v + x);
    assert t * (v + x) == d;
    SpanTime(t, v, x, a, d);
    assert (time - t) * (x + v) == time * (x + v) - t * (v + x);
  }

  // ---- the passes of a segment that starts on such a ramp -------------------------------------------

  /** The maximum speed still lies ahead, above or below. */
  predicate Towards(x: Point, p: Profile) {
    if x.ramp == ACCEL then x.v <= p.maximumSpeed else p.maximumSpeed < x.v
  }

  function Rate(r: Ramp, a: real): real {
    if r == ACCEL then a else -a
  }

  /** After n whole segment times on the ramp. */
  function Along(s: Point, a: real, n: nat): Point {
    var r, t := Rate(s.ramp, a), DT_SEGMENT * n as real;
    Point(s.ramp, s.v + r * t, s.mm - Travel(s.v, r, t))
  }

  /** How many whole segment times fit into the rest of the ramp; not quite reaching nominal speed from
      above, but possibly from below. */
  function WholeTimes(s: Point, a: real, p: Profile): nat
    requires a > 0.0 && Towards(s, p)
  {
    if s.ramp == ACCEL then ((p.maximumSpeed - s.v) / (a * DT_SEGMENT)).Floor
    else PositiveSpan(s, a, p); Ceil((s.v - p.maximumSpeed) / (a * DT_SEGMENT)) - 1
  }

  lemma PositiveSpan(s: Point, a: real, p: Profile)
    requires a > 0.0 && p.maximumSpeed < s.v
    ensures (s.v - p.maximumSpeed) / (a * DT_SEGMENT) > 0.0
  {
  }

  lemma WholeTimesIff(s: Point, a: real, p: Profile, n: nat)
    requires a > 0.0 && Towards(s, p)
    ensures n <= WholeTimes(s, a, p) <==> Towards(Along(s, a, n), p)
  {
    AlongIs(s, a, n);
    TimesApart(a, n);
    if s.ramp == ACCEL {
      hide Along, Travel, Ceil;
      Rises(s.v, a * DT_SEGMENT, n, p.maximumSpeed);
    } else {
      hide Along, Travel, Ceil;
      Falls(s.v, a * DT_SEGMENT, n, p.maximumSpeed);
    }
  }

  lemma TimesApart(a: real, n: nat)
    ensures a * (DT_SEGMENT * n as real) == n as real * (a * DT_SEGMENT)
  {
  }

  lemma Rises(v: real, step: real, n: nat, maximum: real)
    requires step > 0.0 && v <= maximum
    ensures n <= ((maximum - v) / step).Floor <==> v + n as real * step <= maximum
  {
    var q := (maximum - v) / step;
    assert q == Over(maximum - v, step);
    hide Over;
    Compare(n as real, q, step);
    WholeNumbers(n, q);
  }

  lemma Falls(v: real, step: real, n: nat, low: real)
    requires step > 0.0 && low < v
    ensures n <= Ceil((v - low) / step) - 1 <==> low < v - n as real * step
  {
    var q := (v - low) / step;
    assert q == Over(v - low, step);
    hide Over, Ceil;
    Compare(q, n as real, step);
    WholeNumbers(n, q);
  }

  lemma WholeNumbers(n: nat, q: real)
    ensures n <= q.Floor <==> n as real <= q
    ensures n <= Ceil(q) - 1 <==> n as real < q
  {
  }

  lemma Scale(x: real, y: real, z: real)
    requires x <= y && z > 0.0
    ensures x * z <= y * z && (x < y ==> x * z < y * z)
  {
  }

  lemma StartBelow(s: Point, a: real, p: Profile)
    requires a > 0.0 && On(s, a, p) && ToMaximum(s.ramp)
    ensures 0.0 <= s.v && Towards(s, p) && p.maximumSpeed > 0.0 && p.mmComplete == 0.0
            && 0.0 <= p.accelerateUntil <= s.mm
    ensures var d := s.mm - p.accelerateUntil;
            if s.ramp == ACCEL then Sqr(s.v) + Gain(a, d) == Sqr(p.maximumSpeed)
            else Sqr(s.v) == Sqr(p.maximumSpeed) + Gain(a, d)
  {
    hide Sqr, Gain;
    GainLinear(a, p.accelerateUntil, s.mm); GainLinear(a, s.mm, p.accelerateUntil);
    GainLinear(a, 0.0, s.mm - p.accelerateUntil);
    SqMonotone(s.v, p.maximumSpeed);
  }

  /** The end of the ramp lies ahead just when the maximum speed does. */
  lemma RampGoesOn(s: Point, a: real, p: Profile, n: nat)
    requires a > 0.0 && On(s, a, p) && ToMaximum(s.ramp)
    ensures Towards(Along(s, a, n), p) ==> p.accelerateUntil <= Along(s, a, n).mm
    ensures s.ramp == ACCEL && p.accelerateUntil <= Along(s, a, n).mm ==> Towards(Along(s, a, n), p)
  {
    hide Along, OnRamp, Sqr, Gain, Travel;
    var t, d := DT_SEGMENT * n as real, s.mm - p.accelerateUntil;
    AlongIs(s, a, n);
    StartBelow(s, a, p);
    if s.ramp == ACCEL { Rising(s.v, a, t, d, p.maximumSpeed); }
    else if p.maximumSpeed < s.v - a * t { Slowing(s.v, a, t, d, p.maximumSpeed); }
  }

  lemma AlongIs(s: Point, a: real, n: nat)
    ensures var t := DT_SEGMENT * n as real;
            && t >= 0.0 && (a >= 0.0 ==> a * t >= 0.0)
            && Along(s, a, n) == if s.ramp == ACCEL then Point(ACCEL, s.v + a * t, s.mm - Travel(s.v, a, t))
                                 else Point(s.ramp, s.v - a * t, s.mm - Travel(s.v, -a, t))
  {
    hide Travel;
    assert -a * (DT_SEGMENT * n as real) == -(a * (DT_SEGMENT * n as real));
  }

  lemma Rising(v: real, a: real, t: real, d: real, maximum: real)
    requires a > 0.0 && 0.0 <= v && 0.0 <= a * t && 0.0 <= maximum && Sqr(v) + Gain(a, d) == Sqr(maximum)
    ensures Travel(v, a, t) <= d <==> v + a * t <= maximum
  {
    hide *;
    SpeedUp(v, a, t);
    GainLinear(a, Travel(v, a, t), d);
    SqMonotone(v + a * t, maximum);
  }

  lemma Slowing(v: real, a: real, t: real, d: real, minimum: real)
    requires a > 0.0 && 0.0 <= minimum < v - a * t && Sqr(v) == Sqr(minimum) + Gain(a, d)
    ensures Travel(v, -a, t) <= d
  {
    hide *;
    SlowDown(v, a, t);
    GainLinear(a, Travel(v, -a, t), d);
    SqMonotone(minimum, v - a * t);
  }

  lemma OnceMore(s: Point, a: real, n: nat)
    ensures var x, y := Along(s, a, n), Along(s, a, n + 1);
            var r := Rate(s.ramp, a);
            y.v == x.v + r * DT_SEGMENT && y.mm == x.mm - Travel(x.v, r, DT_SEGMENT)
  {
    hide Along, Travel, Rate;
    AlongOn(s, a, n, 1);
    assert DT_SEGMENT * 1 as real == DT_SEGMENT;
  }

  /** Another k times on. */
  lemma AlongOn(s: Point, a: real, n: nat, k: nat)
    ensures var x, y := Along(s, a, n), Along(s, a, n + k);
            var r, d := Rate(s.ramp, a), DT_SEGMENT * k as real;
            x.ramp == y.ramp == s.ramp && y.v == x.v + r * d && y.mm == x.mm - Travel(x.v, r, d)
  {
    hide Travel, Rate;
    var r, t, d := Rate(s.ramp, a), DT_SEGMENT * n as real, DT_SEGMENT * k as real;
    assert DT_SEGMENT * (n + k) as real == t + d;
    TravelOn(s.v, r, t, d);
    assert Along(s, a, n) == Point(s.ramp, s.v + r * t, s.mm - Travel(s.v, r, t));
    assert Along(s, a, n + k) == Point(s.ramp, s.v + r * (t + d), s.mm - Travel(s.v, r, t + d));
  }

  lemma TravelOn(v: real, a: real, t: real, d: real)
    ensures Travel(v, a, t + d) == Travel(v, a, t) + Travel(v + a * t, a, d)
    ensures a * (t + d) == a * t + a * d
  {
    var at, ad := a * t, a * d;
    assert a * (t + d) == at + ad;
    assert t * ad == d * at;
    assert Travel(v, a, t + d) == (t + d) * v + 0.5 * ((t + d) * (at + ad));
    assert (t + d) * (at + ad) == t * at + t * ad + d * at + d * ad;
    assert Travel(v, a, t) == t * v + 0.5 * (t * at);
    assert Travel(v + at, a, d) == d * v + d * at + 0.5 * (d * ad);
  }

  // ---- all passes of the segment ---------------------------------------------------------------------------

  /** Where pass n of a segment that starts on such a ramp begins, and what it does. */
  ghost predicate PassAt(s: Point, z: Pass, n: nat, a: real, p: Profile)
    requires a > 0.0 && Towards(s, p)
  {
    var k := WholeTimes(s, a, p);
    && On(z.from, a, p)
    && (n <= k ==> z.from == Along(s, a, n) && z.budget == DT_SEGMENT)
    && (n < k ==> z.to == Along(s, a, n + 1) && z.time == DT_SEGMENT)
    && (n == k ==> z.to == Point(z.to.ramp, p.maximumSpeed, p.accelerateUntil) && EndsRamp(z))
    && (n > k ==> !ToMaximum(z.from.ramp))
  }

  /** Pass n, given where it begins. */
  lemma PassFrom(s: Point, z: Pass, n: nat, a: real, p: Profile)
    requires a > 0.0 && On(s, a, p) && ToMaximum(s.ramp) && On(z.from, a, p) && Towards(s, p)
    requires if n <= WholeTimes(s, a, p) then z.from == Along(s, a, n) && z.budget == DT_SEGMENT
             else !ToMaximum(z.from.ramp)
    requires Passes(z.from, z.budget, z.to, z.time, a, p)
    ensures PassAt(s, z, n, a, p)
  {
    if n <= WholeTimes(s, a, p) {
      hide OnRamp, Travel, WholeTimes;
      OnceMore(s, a, n);
      RampGoesOn(s, a, p, n + 1);
      WholeTimesIff(s, a, p, n + 1);
    }
  }

  /** Every pass of the segment is on the profile, and as described. */
  lemma {:induction false} LastPass(s: Point, zs: seq<Pass>, minimum: real, a: real, p: Profile)
    requires a > 0.0 && On(s, a, p) && ToMaximum(s.ramp) && Towards(s, p)
    requires Loop(s, zs, minimum, a, p) && zs != []
    ensures PassAt(s, zs[|zs| - 1], |zs| - 1, a, p)
    decreases |zs|
  {
    var n, z, before := |zs| - 1, zs[|zs| - 1], zs[..|zs| - 1];
    WholeTimesIff(s, a, p, 0);
    if n == 0 {
      NoTime(s, a);
    } else {
      var y := zs[n - 1];
      LastPass(s, before, minimum, a, p);
      assert before[|before| - 1] == y;
      LastPassOn(s, before, minimum, a, p);
    }
    hide Loop, Passes, OnRamp, WholeTimes, Along;
    PassFrom(s, z, n, a, p);
  }

  lemma NoTime(s: Point, a: real)
    requires ToMaximum(s.ramp)
    ensures Along(s, a, 0) == s
  {
    assert DT_SEGMENT * 0.0 == 0.0;
  }

  lemma LastPassOn(s: Point, zs: seq<Pass>, minimum: real, a: real, p: Profile)
    requires a > 0.0 && Towards(s, p) && zs != [] && Loop(s, zs, minimum, a, p)
    requires PassAt(s, zs[|zs| - 1], |zs| - 1, a, p)
    ensures zs[|zs| - 1].to.mm > p.mmComplete ==> On(zs[|zs| - 1].to, a, p)
  {
    hide OnRamp, WholeTimes, Along;
    var z := zs[|zs| - 1];
    PassOn(z.from, z.budget, z.to, z.time, a, p);
  }

  // ---- when the times add up -----------------------------------------------------------------------------

  /** By how much the clock is ahead once the ramp has ended. */
  function Ahead(s: Point, a: real, p: Profile): real
    requires a > 0.0 && Towards(s, p) && Along(s, a, WholeTimes(s, a, p)).v + p.maximumSpeed > 0.0
  {
    var x := Along(s, a, WholeTimes(s, a, p));
    2.0 * (s.mm - x.mm) / (x.v + p.maximumSpeed)
  }

  lemma SpeedAlong(s: Point, a: real, p: Profile, n: nat)
    requires a > 0.0 && On(s, a, p) && ToMaximum(s.ramp) && Towards(s, p) && Towards(Along(s, a, n), p)
    ensures 0.0 <= Along(s, a, n).v && Along(s, a, n).v + p.maximumSpeed > 0.0
    ensures Along(s, a, n).mm <= s.mm && (Along(s, a, n).mm == s.mm <==> n == 0)
  {
    StartBelow(s, a, p);
    AlongIs(s, a, n);
    NoTime(s, a);
    hide Along, Travel, OnRamp;
    var t := DT_SEGMENT * n as real;
    if n > 0 {
      Positive(a, t);
      if s.ramp == ACCEL { AccelerationTravels(s.v, a, t); } else { BrakingTravels(s.v, a, t); }
    }
  }

  /** After any passes, the clock is right until the ramp ends, then ahead by a fixed time. */
  lemma {:induction false} ClockAhead(s: Point, zs: seq<Pass>, minimum: real, a: real, p: Profile)
    requires a > 0.0 && On(s, a, p) && ToMaximum(s.ramp) && Towards(s, p)
    requires Loop(s, zs, minimum, a, p)
    requires Along(s, a, WholeTimes(s, a, p)).v + p.maximumSpeed > 0.0
    ensures Regular(zs, a, p)
    ensures Total(zs) - TotalTaken(zs, a, p) == if |zs| <= WholeTimes(s, a, p) then 0.0 else Ahead(s, a, p)
    decreases |zs|
  {
    if zs != [] {
      var before, z := zs[..|zs| - 1], zs[|zs| - 1];
      ClockAhead(s, before, minimum, a, p);
      LastPass(s, zs, minimum, a, p);
      assert zs == before + [z];
      assert forall i | 0 <= i < |before| :: zs[i] == before[i];
      hide Loop, OnRamp, WholeTimes, Along, Ahead, Passes, Clocked, Taken;
      if |before| == WholeTimes(s, a, p) {
        EndIsAhead(s, zs, minimum, a, p);
      } else {
        OtherIsExact(s, zs, minimum, a, p);
      }
    }
  }

  lemma OtherIsExact(s: Point, zs: seq<Pass>, minimum: real, a: real, p: Profile)
    requires a > 0.0 && zs != [] && Loop(s, zs, minimum, a, p) && Towards(s, p)
    requires PassAt(s, zs[|zs| - 1], |zs| - 1, a, p) && |zs| - 1 != WholeTimes(s, a, p)
    ensures zs[|zs| - 1].time == Taken(zs[|zs| - 1], a, p)
  {
    hide OnRamp, Passes, Clocked, WholeTimes, Taken;
    PassExact(zs[|zs| - 1], s.mm, a, p);
  }

  lemma EndIsAhead(s: Point, zs: seq<Pass>, minimum: real, a: real, p: Profile)
    requires a > 0.0 && zs != [] && Loop(s, zs, minimum, a, p) && Towards(s, p)
    requires PassAt(s, zs[|zs| - 1], |zs| - 1, a, p) && |zs| - 1 == WholeTimes(s, a, p)
    requires Along(s, a, WholeTimes(s, a, p)).v + p.maximumSpeed > 0.0
    ensures zs[|zs| - 1].time - Taken(zs[|zs| - 1], a, p) == Ahead(s, a, p)
  {
    hide OnRamp, Passes, Clocked, WholeTimes, Taken, Along;
    var z := zs[|zs| - 1];
    PassOvershoots(z, s.mm, a, p);
    Divide(z.time - Taken(z, a, p), z.from.v + p.maximumSpeed, 2.0 * (s.mm - z.from.mm));
  }

  /** The ramp ends within the segment, and not in its first pass. */
  predicate EndsLate(s: Point, minimum: real, a: real, p: Profile)
    requires a > 0.0 && Towards(s, p)
  {
    WholeTimes(s, a, p) > 0 && Along(s, a, WholeTimes(s, a, p)).mm > minimum
  }

  lemma Falling(s: Point, a: real, p: Profile, m: nat, n: nat)
    requires a > 0.0 && On(s, a, p) && ToMaximum(s.ramp) && Towards(s, p) && m <= n <= WholeTimes(s, a, p)
    ensures Along(s, a, n).mm <= Along(s, a, m).mm
  {
    hide Travel, WholeTimes, OnRamp, Along;
    StartBelow(s, a, p);
    WholeTimesIff(s, a, p, n); WholeTimesIff(s, a, p, m);
    SpeedAlong(s, a, p, m);
    var k := n - m;
    AlongOn(s, a, m, k);
    if k > 0 { StillMoves(Along(s, a, m).v, a, s.ramp, DT_SEGMENT * k as real, p.maximumSpeed); }
  }

  lemma StillMoves(v: real, a: real, ramp: Ramp, d: real, maximum: real)
    requires a > 0.0 && d > 0.0 && maximum > 0.0 && v >= 0.0 && (ramp != ACCEL ==> maximum < v + Rate(ramp, a) * d)
    ensures Travel(v, Rate(ramp, a), d) > 0.0
  {
    hide Travel;
    assert -a * d == -(a * d);
    if ramp == ACCEL { AccelerationTravels(v, a, d); } else { BrakingTravels(v, a, d); }
  }

  /** All passes made, the end of the ramp is among them just when nothing ends the segment
      before. */
  lemma EndReached(s: Point, zs: seq<Pass>, minimum: real, a: real, p: Profile)
    requires a > 0.0 && On(s, a, p) && ToMaximum(s.ramp) && Towards(s, p) && 0.0 <= minimum
    requires Loop(s, zs, minimum, a, p) && Done(zs, minimum, p)
    ensures |zs| > WholeTimes(s, a, p) <==>
              WholeTimes(s, a, p) == 0 || Along(s, a, WholeTimes(s, a, p)).mm > minimum
  {
    hide OnRamp, WholeTimes, Along, Loop;
    var k := WholeTimes(s, a, p);
    if |zs| > k > 0 {
      Prefix(s, zs, k + 1, minimum, a, p);
      assert zs[..k + 1][..k] == zs[..k];
      WentOn(s, zs[..k + 1], minimum, a, p);
    } else if |zs| <= k {
      StoppedShort(s, zs, minimum, a, p);
    }
  }

  lemma WentOn(s: Point, zs: seq<Pass>, minimum: real, a: real, p: Profile)
    requires a > 0.0 && On(s, a, p) && ToMaximum(s.ramp) && Towards(s, p)
    requires Loop(s, zs, minimum, a, p) && |zs| == WholeTimes(s, a, p) + 1 > 1
    ensures Along(s, a, WholeTimes(s, a, p)).mm > minimum
  {
    hide OnRamp, WholeTimes, Along, Passes, Clocked;
    LastPass(s, zs[..|zs| - 1], minimum, a, p);
  }

  lemma StoppedShort(s: Point, zs: seq<Pass>, minimum: real, a: real, p: Profile)
    requires a > 0.0 && On(s, a, p) && ToMaximum(s.ramp) && Towards(s, p) && 0.0 <= minimum
    requires Loop(s, zs, minimum, a, p) && Done(zs, minimum, p) && |zs| <= WholeTimes(s, a, p)
    ensures Along(s, a, WholeTimes(s, a, p)).mm <= minimum
  {
    hide OnRamp, WholeTimes, Along, Loop;
    StartBelow(s, a, p);
    LastPass(s, zs, minimum, a, p);
    Falling(s, a, p, |zs|, WholeTimes(s, a, p));
  }

  lemma {:induction false} Prefix(s: Point, zs: seq<Pass>, n: nat, minimum: real, a: real, p: Profile)
    requires Loop(s, zs, minimum, a, p) && n <= |zs|
    ensures Loop(s, zs[..n], minimum, a, p)
    decreases |zs|
  {
    hide Passes, Clocked, Pending;
    if n < |zs| {
      Prefix(s, zs[..|zs| - 1], n, minimum, a, p);
      assert zs[..|zs| - 1][..n] == zs[..n];
    } else {
      assert zs[..n] == zs;
    }
  }

  /** A segment that starts on such a ramp accounts for exactly the time it takes unless the ramp
      ends in it, but not in its first pass; then it accounts for too much. */
  lemma TimesAddUp(s: Point, zs: seq<Pass>, minimum: real, a: real, p: Profile)
    requires a > 0.0 && On(s, a, p) && ToMaximum(s.ramp) && 0.0 <= minimum
    requires Loop(s, zs, minimum, a, p) && Done(zs, minimum, p)
    ensures Regular(zs, a, p) && Towards(s, p)
    ensures Total(zs) == TotalTaken(zs, a, p) <==> !EndsLate(s, minimum, a, p)
    ensures Total(zs) >= TotalTaken(zs, a, p)
  {
    hide OnRamp, Loop, Done, Total, TotalTaken, WholeTimes, Along, Regular;
    StartBelow(s, a, p);
    var k := WholeTimes(s, a, p);
    WholeTimesIff(s, a, p, k);
    SpeedAlong(s, a, p, k);
    ClockAhead(s, zs, minimum, a, p);
    EndReached(s, zs, minimum, a, p);
    var x := Along(s, a, k);
    Fraction(2.0 * (s.mm - x.mm), x.v + p.maximumSpeed);
  }

  lemma Fraction(x: real, y: real)
    requires x >= 0.0 && y > 0.0
    ensures x / y >= 0.0 && (x / y == 0.0 <==> x == 0.0)
  {
  }

  /** A segment that starts cruising or braking always accounts for exactly the time it takes. */
  lemma {:induction false} TimesAddUpLater(s: Point, zs: seq<Pass>, minimum: real, a: real, p: Profile)
    requires a > 0.0 && On(s, a, p) && !ToMaximum(s.ramp)
    requires Loop(s, zs, minimum, a, p)
    ensures Regular(zs, a, p) && Total(zs) == TotalTaken(zs, a, p)
    ensures forall i | 0 <= i < |zs| :: !ToMaximum(zs[i].to.ramp)
    decreases |zs|
  {
    if zs != [] {
      var before, z := zs[..|zs| - 1], zs[|zs| - 1];
      TimesAddUpLater(s, before, minimum, a, p);
      assert Passes(z.from, z.budget, z.to, z.time, a, p) && Clocked(z, s.mm, p);
      LaterFrom(s, zs, minimum, a, p);
      hide Loop, OnRamp, Clocked, Taken, Passes;
      PassExact(z, s.mm, a, p);
      StaysOff(z, a, p);
      OneMorePass(before, z, a, p);
    }
  }

  lemma OneMorePass(before: seq<Pass>, z: Pass, a: real, p: Profile)
    requires Regular(before, a, p) && On(z.from, a, p) && Total(before) == TotalTaken(before, a, p)
    requires z.time == Taken(z, a, p)
    ensures Regular(before + [z], a, p) && Total(before + [z]) == TotalTaken(before + [z], a, p)
  {
    hide OnRamp, Taken;
    assert (before + [z])[..|before|] == before;
  }

  /** Where its last pass begins. */
  lemma LaterFrom(s: Point, zs: seq<Pass>, minimum: real, a: real, p: Profile)
    requires a > 0.0 && On(s, a, p) && !ToMaximum(s.ramp)
    requires Loop(s, zs, minimum, a, p) && zs != []
    requires Regular(zs[..|zs| - 1], a, p) && forall i | 0 <= i < |zs| - 1 :: !ToMaximum(zs[i].to.ramp)
    ensures var z := zs[|zs| - 1];
            && On(z.from, a, p) && !ToMaximum(z.from.ramp) && zs == zs[..|zs| - 1] + [z]
  {
    if |zs| > 1 {
      var before, y := zs[..|zs| - 1], zs[|zs| - 2];
      assert before[|before| - 1] == y && Loop(s, before, minimum, a, p);
      assert Passes(y.from, y.budget, y.to, y.time, a, p) && Goes(y, minimum, p);
      assert y.from.ramp == s.ramp || |zs| > 2 by { if |zs| == 2 { assert before[..0] == []; } }
      assert !ToMaximum(y.from.ramp) by {
        if |zs| > 2 { assert before[..|before| - 1][|before| - 2] == zs[|zs| - 3]; }
      }
      hide Loop, OnRamp, MeetsExit;
      PassOn(y.from, y.budget, y.to, y.time, a, p);
    }
  }

  lemma StaysOff(z: Pass, a: real, p: Profile)
    requires !ToMaximum(z.from.ramp) && Passes(z.from, z.budget, z.to, z.time, a, p)
    ensures !ToMaximum(z.to.ramp)
  {
    hide Travel;
  }

  // ---- when the clock runs back -----------------------------------------------------------------------------

  /** The overshoot exceeds the whole time a further pass could be given. */
  predicate RunsBack(s: Point, minimum: real, a: real, p: Profile)
    requires a > 0.0 && Towards(s, p)
  {
    && p.accelerateUntil > minimum
    && s.mm - p.accelerateUntil > DT_SEGMENT * (Along(s, a, WholeTimes(s, a, p)).v + p.maximumSpeed)
  }

  /** No pass but the end of a ramp accounts for more than it was given, if the loop goes on. */
  lemma WithinBudget(z: Pass, block: real, minimum: real, a: real, p: Profile)
    requires a > 0.0 && On(z.from, a, p) && !EndsRamp(z) && Goes(z, minimum, p)
    requires Passes(z.from, z.budget, z.to, z.time, a, p)
    ensures z.time <= z.budget
  {
    hide Sqr, Gain, Travel;
    if z.from.ramp == CRUISE && z.to.ramp == DECEL {
      assert p.maximumSpeed * z.time < p.maximumSpeed * z.budget;
      if z.time > z.budget { Scale(z.budget, z.time, p.maximumSpeed); }
    }
  }

  /** The time given to a pass. */
  lemma Given(s: Point, zs: seq<Pass>, minimum: real, a: real, p: Profile)
    requires a > 0.0 && On(s, a, p) && ToMaximum(s.ramp) && 0.0 <= minimum && Towards(s, p)
    requires Loop(s, zs, minimum, a, p) && zs != []
    ensures zs[|zs| - 1].budget < 0.0 <==> |zs| - 2 == WholeTimes(s, a, p) && RunsBack(s, minimum, a, p)
  {
    var n, z := |zs| - 1, zs[|zs| - 1];
    if n > 0 {
      var before, y := zs[..n], zs[n - 1];
      LastPass(s, before, minimum, a, p);
      assert before[n - 1] == y && Pending(s, before, z.from, z.budget, minimum, p);
      if n - 1 == WholeTimes(s, a, p) {
        EndBudget(s, y, minimum, a, p);
      } else {
        WithinBudget(y, s.mm, minimum, a, p);
      }
    }
    hide OnRamp, WholeTimes, Along, Passes, Clocked;
  }

  lemma EndBudget(s: Point, y: Pass, minimum: real, a: real, p: Profile)
    requires a > 0.0 && On(s, a, p) && ToMaximum(s.ramp) && Towards(s, p)
    requires PassAt(s, y, WholeTimes(s, a, p), a, p) && Clocked(y, s.mm, p) && Goes(y, minimum, p)
    ensures Next(y) < 0.0 <==> RunsBack(s, minimum, a, p)
  {
    hide OnRamp, WholeTimes, Along;
    StartBelow(s, a, p);
    WholeTimesIff(s, a, p, WholeTimes(s, a, p));
    SpeedAlong(s, a, p, WholeTimes(s, a, p));
    LongTime(y.time, y.from.v + p.maximumSpeed, s.mm - p.accelerateUntil);
  }

  lemma LongTime(t: real, sum: real, d: real)
    requires sum > 0.0 && t * sum == 2.0 * d
    ensures t > 2.0 * DT_SEGMENT <==> d > DT_SEGMENT * sum
  {
    Compare(t, 2.0 * DT_SEGMENT, sum);
  }

  lemma Compare(x: real, y: real, z: real)
    requires z > 0.0
    ensures x > y <==> x * z > y * z
  {
    if x > y { Scale(y, x, z); } else { Scale(x, y, z); }
  }

  /** The loop gives a pass a negative time exactly when the ramp ends with more than a step of the
      segment to go, so late that its time taken over the whole segment exceeds two segment times. */
  lemma RunsBackIff(s: Point, zs: seq<Pass>, minimum: real, a: real, p: Profile)
    requires a > 0.0 && On(s, a, p) && ToMaximum(s.ramp) && 0.0 <= minimum
    requires Loop(s, zs, minimum, a, p) && Done(zs, minimum, p)
    ensures Towards(s, p)
    ensures (exists i :: 0 <= i < |zs| && zs[i].budget < 0.0) <==> RunsBack(s, minimum, a, p)
  {
    StartBelow(s, a, p);
    hide OnRamp, WholeTimes, Along, Passes, Clocked, Loop;
    if i :| 0 <= i < |zs| && zs[i].budget < 0.0 {
      Prefix(s, zs, i + 1, minimum, a, p);
      Given(s, zs[..i + 1], minimum, a, p);
    }
    if RunsBack(s, minimum, a, p) {
      BackReached(s, zs, minimum, a, p);
      var k := WholeTimes(s, a, p);
      Prefix(s, zs, k + 2, minimum, a, p);
      Given(s, zs[..k + 2], minimum, a, p);
      assert zs[k + 1].budget < 0.0;
    }
  }

  lemma BackReached(s: Point, zs: seq<Pass>, minimum: real, a: real, p: Profile)
    requires a > 0.0 && On(s, a, p) && ToMaximum(s.ramp) && 0.0 <= minimum && Towards(s, p)
    requires Loop(s, zs, minimum, a, p) && Done(zs, minimum, p) && p.accelerateUntil > minimum
    ensures |zs| > WholeTimes(s, a, p) + 1
  {
    var k := WholeTimes(s, a, p);
    StartBelow(s, a, p);
    WholeTimesIff(s, a, p, k);
    RampGoesOn(s, a, p, k);
    EndReached(s, zs, minimum, a, p);
    if |zs| == k + 1 {
      LastPass(s, zs, minimum, a, p);
    }
    hide OnRamp, WholeTimes, Along, Passes, Clocked, Loop;
  }

  /** It happens: from rest at 10 mm/s^2 (36000 mm/min^2) with 100 steps to the millimeter, a ramp that
      ends four and a half segment times on. */
  const SLOW_START: Point := Point(ACCEL, 0.0, 1.0)
  const SLOW_PROFILE: Profile := Profile(0.0, 27.0, 0.0, 0.989875, 0.010125)

  function SlowPass(n: nat): Pass {
    var x := Point(ACCEL, 6.0 * n as real, 1.0 - n as real * n as real / 2000.0);
    var y := Point(CRUISE, 27.0, 0.989875);
    var late := 0.02025 / 51.0;
    var back := 2.0 * DT_SEGMENT - late;
    if n < 4 then
      Pass(x, DT_SEGMENT, Point(ACCEL, 6.0 * (n + 1) as real, 1.0 - (n + 1) as real * (n + 1) as real / 2000.0),
           DT_SEGMENT)
    else if n == 4 then Pass(x, DT_SEGMENT, y, late)
    else Pass(y, back, Point(CRUISE, 27.0, 0.989875 - 27.0 * back), back)
  }

  function SlowPasses(n: nat): (zs: seq<Pass>)
    ensures |zs| == n
  {
    seq(n, i requires 0 <= i < n => SlowPass(i))
  }

  lemma {:induction false} SlowLoop(n: nat)
    requires n <= 6
    ensures Loop(SLOW_START, SlowPasses(n), MinimumMm(1.0, 100.0), 36000.0, SLOW_PROFILE)
  {
    hide *;
    if n > 0 {
      SlowLoop(n - 1);
      SlowPassOk(n - 1);
      SlowPending(n - 1);
      assert SlowPasses(n) == SlowPasses(n - 1) + [SlowPass(n - 1)] by { SlowMore(n - 1); }
      LoopStep(SLOW_START, SlowPasses(n - 1), SlowPass(n - 1), MinimumMm(1.0, 100.0), 36000.0, SLOW_PROFILE);
    } else {
      LoopStart(SLOW_START, MinimumMm(1.0, 100.0), 36000.0, SLOW_PROFILE);
      assert SlowPasses(0) == [];
    }
  }

  lemma SlowMore(n: nat)
    ensures SlowPasses(n + 1) == SlowPasses(n) + [SlowPass(n)]
  {
    hide SlowPass;
  }

  lemma SlowPassOk(n: nat)
    requires n < 6
    ensures var z := SlowPass(n);
            && Passes(z.from, z.budget, z.to, z.time, 36000.0, SLOW_PROFILE)
            && Clocked(z, SLOW_START.mm, SLOW_PROFILE)
  {
    match n
    case 0 => case 1 => case 2 => case 3 => case 4 => case _ =>
  }

  lemma SlowPending(n: nat)
    requires n < 6
    ensures Pending(SLOW_START, SlowPasses(n), SlowPass(n).from, SlowPass(n).budget, MinimumMm(1.0, 100.0),
                    SLOW_PROFILE)
  {
    if n > 0 { SlowGoes(n - 1); }
  }

  lemma SlowGoes(n: nat)
    requires n < 5
    ensures var z, y := SlowPass(n), SlowPass(n + 1);
            Goes(z, MinimumMm(1.0, 100.0), SLOW_PROFILE) && y.from == z.to && y.budget == Next(z)
  {
    match n
    case 0 => case 1 => case 2 => case 3 => case _ =>
  }

  /** The sixth pass is given a negative time and goes backward. */
  lemma ClockRunsBack()
    ensures On(SLOW_START, 36000.0, SLOW_PROFILE)
    ensures Loop(SLOW_START, SlowPasses(6), MinimumMm(1.0, 100.0), 36000.0, SLOW_PROFILE)
    ensures SlowPass(5).budget < 0.0 && SlowPass(5).to.mm > SlowPass(5).from.mm
    ensures RunsBack(SLOW_START, MinimumMm(1.0, 100.0), 36000.0, SLOW_PROFILE)
  {
    SlowLoop(6);
    Given(SLOW_START, SlowPasses(6), MinimumMm(1.0, 100.0), 36000.0, SLOW_PROFILE);
  }
}
