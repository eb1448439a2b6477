/** The segment generator's arithmetic (st_prep_buffer in stepper.c): the velocity profile of a
    block and its division into segments of a fixed time, with speeds as exact reals. */
module Prep {
  import opened Machine
  import opened Bresenham

  const DT_SEGMENT: real := 1.0 / 6000.0
  const REQ_MM_INCREMENT_SCALAR: real := 1.25

  lemma SqMonotone(x: real, y: real)
    requires 0.0 <= x && 0.0 <= y
    ensures x <= y <==> Sqr(x) <= Sqr(y)
    ensures x == y <==> Sqr(x) == Sqr(y)
  {
    if x < y { SqStrict(x, y); } else if y < x { SqStrict(y, x); }
  }

  lemma SqStrict(x: real, y: real)
    requires 0.0 <= x < y
    ensures Sqr(x) < Sqr(y)
  {
    SquareStrict(x, y);
  }

  lemma SquareStrict(x: real, y: real)
    requires 0.0 <= x < y
    ensures x * x < y * y
  {
    Positive(y - x, y + x);
    assert (y - x) * (y + x) == (y - x) * y + (y - x) * x;
    assert (y - x) * y == y * y - x * y;
    assert (y - x) * x == y * x - x * x;
  }

  lemma Positive(x: real, y: real)
    requires x > 0.0 && y > 0.0
    ensures x * y > 0.0
  {
  }

  function Over(x: real, y: real): (q: real)
    requires y > 0.0
    ensures q * y == x && y * q == x
  {
    x / y
  }

  /** Travelled from speed v for a time t at acceleration a. */
  function Travel(v: real, a: real, t: real): real {
    t * (v + 0.5 * (a * t))
  }

  lemma TravelSq(v: real, a: real, t: real)
    ensures Sqr(v + a * t) == Sqr(v) + 2.0 * a * Travel(v, a, t)
  {
    var s := a * t;
    assert a * Travel(v, a, t) == s * (v + 0.5 * s);
    assert (v + s) * (v + s) == v * v + 2.0 * (s * v) + s * s;
    assert s * (v + 0.5 * s) == s * v + 0.5 * (s * s);
  }

  /** Change of squared speed that acceleration a makes over a distance. */
  function Gain(a: real, distance: real): real {
    2.0 * a * distance
  }

  lemma GainLinear(a: real, x: real, y: real)
    requires a > 0.0
    ensures Gain(a, x - y) == Gain(a, x) - Gain(a, y) && Gain(a, 0.0) == 0.0
    ensures x <= y <==> Gain(a, x) <= Gain(a, y)
  {
    if x < y { Positive(a, y - x); }
    if y < x { Positive(a, x - y); }
  }

  /** Distance over which the squared speed rises from low to high, inv being 1/(2a). */
  function Span(inv: real, low: real, high: real): real {
    inv * (high - low)
  }

  datatype Ramp = ACCEL | CRUISE | DECEL | DECEL_OVERRIDE

  /** The ramps that lead to the maximum speed, from below or, after an override, from above. */
  predicate ToMaximum(r: Ramp) {
    r == ACCEL || r == DECEL_OVERRIDE
  }

  /** A velocity profile; distances are measured back from the end of the block. */
  datatype Profile = Profile(
    mmComplete: real, maximumSpeed: real, exitSpeed: real, accelerateUntil: real, decelerateAfter: real)

  /** Cruising at the maximum speed may last until deceleration has to start. */
  ghost predicate CruiseOk(p: Profile, a: real) {
    && p.maximumSpeed > 0.0 && p.mmComplete == 0.0 && 0.0 <= p.decelerateAfter
    && Sqr(p.maximumSpeed) == Sqr(p.exitSpeed) + Gain(a, p.decelerateAfter)
  }

  /** The acceleration ramp ends where cruising or deceleration starts, or at the end of the block
      with the exit speed; decelerateAfter then means nothing. */
  ghost predicate AccelOk(p: Profile, a: real) {
    && p.maximumSpeed > 0.0 && p.mmComplete == 0.0
    && if p.accelerateUntil == 0.0 then p.maximumSpeed == p.exitSpeed
       else CruiseOk(p, a) && p.decelerateAfter <= p.accelerateUntil
  }

  /** At speed v, mm before the end of the block, the machine is on the given ramp of the profile. */
  ghost predicate OnRamp(ramp: Ramp, v: real, mm: real, a: real, p: Profile) {
    && 0.0 <= v && 0.0 <= p.exitSpeed && 0.0 <= p.mmComplete <= mm
    && match ramp
       case ACCEL => && AccelOk(p, a) && 0.0 <= p.accelerateUntil <= mm
                     && Sqr(v) + Gain(a, mm - p.accelerateUntil) == Sqr(p.maximumSpeed)
       case DECEL_OVERRIDE => && AccelOk(p, a) && 0.0 < p.accelerateUntil <= mm && p.maximumSpeed < v
                              && Sqr(v) == Sqr(p.maximumSpeed) + Gain(a, mm - p.accelerateUntil)
       case CRUISE => CruiseOk(p, a) && v == p.maximumSpeed && p.decelerateAfter <= mm
       case DECEL => Sqr(v) == Sqr(p.exitSpeed) + Gain(a, mm - p.mmComplete)
  }

  /** From here the exit speed can be met, braking or accelerating. */
  ghost predicate MeetsExit(v: real, mm: real, a: real, p: Profile) {
    && 0.0 <= v
    && Sqr(v) <= Sqr(p.exitSpeed) + Gain(a, mm - p.mmComplete)
    && Sqr(p.exitSpeed) <= Sqr(v) + Gain(a, mm - p.mmComplete)
  }

  lemma OnRampMeetsExit(ramp: Ramp, v: real, mm: real, a: real, p: Profile)
    requires OnRamp(ramp, v, mm, a, p) && a > 0.0
    ensures MeetsExit(v, mm, a, p)
  {
    hide Sqr, Gain;
    GainLinear(a, mm, p.mmComplete); GainLinear(a, p.mmComplete, mm); GainLinear(a, 0.0, mm);
    GainLinear(a, mm, p.accelerateUntil); GainLinear(a, p.decelerateAfter, p.accelerateUntil);
    GainLinear(a, p.decelerateAfter, mm); GainLinear(a, 0.0, p.decelerateAfter); GainLinear(a, p.accelerateUntil, mm);
  }

  // ---- how fast a profile is -----------------------------------------------------------------------

  function Min(x: real, y: real): real {
    if x < y then x else y
  }

  function Max(x: real, y: real): real {
    if x < y then y else x
  }

  /** The squared speed of a profile x millimeters before the end of the block. */
  function Curve(ramp: Ramp, p: Profile, a: real, x: real): real {
    if ramp == ACCEL && x >= p.accelerateUntil then Sqr(p.maximumSpeed) - Gain(a, x - p.accelerateUntil)
    else if ramp == DECEL_OVERRIDE && x >= p.accelerateUntil then Sqr(p.maximumSpeed) + Gain(a, x - p.accelerateUntil)
    else if ramp == DECEL || x < p.decelerateAfter then Sqr(p.exitSpeed) + Gain(a, x - p.mmComplete)
    else Sqr(p.maximumSpeed)
  }

  /** The squared speed no more than which a block of length mm allows x before its end: what acceleration
      from the entry speed and deceleration to the exit speed leave, and nominal speed or, entered
      faster, what full braking leads to. */
  function Best(entry: real, exit: real, nominal: real, a: real, mm: real, x: real): real {
    Min(Max(nominal, entry - Gain(a, mm - x)), Min(entry + Gain(a, mm - x), exit + Gain(a, x)))
  }

  /** The squared speeds of a way through the block: from the entry to the exit speed within the
      acceleration limit, and no faster than nominal once full braking can have led there. */
  ghost predicate Admissible(f: real -> real, entry: real, exit: real, nominal: real, a: real, mm: real) {
    && f(mm) == entry && f(0.0) == exit
    && (forall x, y | 0.0 <= x <= y <= mm :: f(x) <= f(y) + Gain(a, y - x) && f(y) <= f(x) + Gain(a, y - x))
    && (forall x | 0.0 <= x <= mm :: 0.0 <= f(x) <= Max(nominal, entry - Gain(a, mm - x)))
  }

  lemma NoneIsFaster(f: real -> real, entry: real, exit: real, nominal: real, a: real, mm: real, x: real)
    requires Admissible(f, entry, exit, nominal, a, mm) && 0.0 <= x <= mm
    ensures f(x) <= Best(entry, exit, nominal, a, mm, x)
  {
    hide Gain;
    assert f(x) <= f(mm) + Gain(a, mm - x) && f(x) <= f(0.0) + Gain(a, x - 0.0);
    assert x - 0.0 == x;
  }

  lemma BestIsAdmissible(entry: real, exit: real, nominal: real, a: real, mm: real)
    requires a > 0.0 && mm >= 0.0 && 0.0 <= entry && 0.0 <= exit <= Max(nominal, entry - Gain(a, mm))
    requires entry <= exit + Gain(a, mm) && exit <= entry + Gain(a, mm)
    ensures Admissible(x => Best(entry, exit, nominal, a, mm, x), entry, exit, nominal, a, mm)
  {
    hide Gain, Best;
    var f := x => Best(entry, exit, nominal, a, mm, x);
    BestAtEnds(entry, exit, nominal, a, mm);
    forall x, y | 0.0 <= x <= y <= mm ensures f(x) <= f(y) + Gain(a, y - x) && f(y) <= f(x) + Gain(a, y - x) {
      BestIsGradual(entry, exit, nominal, a, mm, x, y);
    }
    forall x | 0.0 <= x <= mm ensures 0.0 <= f(x) <= Max(nominal, entry - Gain(a, mm - x)) {
      BestIsPositive(entry, exit, nominal, a, mm, x);
    }
  }

  lemma BestAtEnds(entry: real, exit: real, nominal: real, a: real, mm: real)
    requires a > 0.0 && mm >= 0.0 && exit <= Max(nominal, entry - Gain(a, mm))
    requires entry <= exit + Gain(a, mm) && exit <= entry + Gain(a, mm)
    ensures Best(entry, exit, nominal, a, mm, mm) == entry && Best(entry, exit, nominal, a, mm, 0.0) == exit
  {
    hide Gain;
    GainLinear(a, mm, mm); GainLinear(a, mm, 0.0);
    assert mm - mm == 0.0 && mm - 0.0 == mm;
  }

  lemma BestIsGradual(entry: real, exit: real, nominal: real, a: real, mm: real, x: real, y: real)
    requires a > 0.0 && 0.0 <= x <= y <= mm
    ensures var u, v := Best(entry, exit, nominal, a, mm, x), Best(entry, exit, nominal, a, mm, y);
            u <= v + Gain(a, y - x) && v <= u + Gain(a, y - x)
  {
    hide Gain;
    GainLinear(a, mm, x); GainLinear(a, mm, y); GainLinear(a, y, x); GainLinear(a, x, y);
  }

  lemma BestIsPositive(entry: real, exit: real, nominal: real, a: real, mm: real, x: real)
    requires a > 0.0 && 0.0 <= x <= mm && 0.0 <= entry && 0.0 <= exit <= Max(nominal, entry - Gain(a, mm))
    ensures 0.0 <= Best(entry, exit, nominal, a, mm, x) <= Max(nominal, entry - Gain(a, mm - x))
  {
    hide Gain;
    GainLinear(a, mm, x); GainLinear(a, 0.0, x); GainLinear(a, mm - x, mm); GainLinear(a, 0.0, mm - x);
  }

  /** The peak of a profile is nominal speed or where its ramps meet. */
  ghost predicate Peaks(ramp: Ramp, v: real, mm: real, a: real, p: Profile, n: real) {
    && p.mmComplete == 0.0
    && match ramp
       case ACCEL => p.maximumSpeed <= n
                     && (p.maximumSpeed == n || p.accelerateUntil == 0.0 || p.accelerateUntil == p.decelerateAfter)
       case CRUISE => p.maximumSpeed == n
       case DECEL_OVERRIDE => p.maximumSpeed == n
       case DECEL => Sqr(v) <= Sqr(n) || Sqr(n) <= Sqr(p.exitSpeed)
  }

  /** Such a profile is as fast as the block allows, everywhere. */
  lemma PeaksIsBest(ramp: Ramp, v: real, mm: real, a: real, p: Profile, n: real, x: real)
    requires a > 0.0 && OnRamp(ramp, v, mm, a, p) && Peaks(ramp, v, mm, a, p, n) && 0.0 <= x <= mm
    ensures Curve(ramp, p, a, x) == Best(Sqr(v), Sqr(p.exitSpeed), Sqr(n), a, mm, x)
  {
    hide Gain, Sqr;
    var acc, dec := p.accelerateUntil, p.decelerateAfter;
    if ramp == ACCEL { SqMonotone(p.maximumSpeed, n); }
    GainLinear(a, mm, x); GainLinear(a, mm, acc); GainLinear(a, x, acc); GainLinear(a, acc, x);
    GainLinear(a, x, 0.0); GainLinear(a, 0.0, x); GainLinear(a, x, dec); GainLinear(a, dec, x);
    GainLinear(a, dec, acc); GainLinear(a, x, mm); GainLinear(a, acc, mm); GainLinear(a, mm, 0.0);
    assert x - 0.0 == x && mm - 0.0 == mm;
  }

  lemma PeaksEverywhere(ramp: Ramp, v: real, mm: real, a: real, p: Profile, n: real)
    requires a > 0.0 && OnRamp(ramp, v, mm, a, p) && Peaks(ramp, v, mm, a, p, n)
    ensures forall x | 0.0 <= x <= mm :: Curve(ramp, p, a, x) == Best(Sqr(v), Sqr(p.exitSpeed), Sqr(n), a, mm, x)
  {
    hide *;
    forall x | 0.0 <= x <= mm
      ensures Curve(ramp, p, a, x) == Best(Sqr(v), Sqr(p.exitSpeed), Sqr(n), a, mm, x)
    {
      PeaksIsBest(ramp, v, mm, a, p, n, x);
    }
  }

  // ---- the profile of a block ----------------------------------------------------------------------

  /** The square root the code takes from its library. */
  ghost predicate IsSqrt(f: real -> real) {
    forall x :: x >= 0.0 ==> f(x) >= 0.0 && Sqr(f(x)) == x
  }

  class PrepState {
    const sqrt: real -> real
    var rampType: Ramp
    var mmComplete: real
    var currentSpeed: real
    var maximumSpeed: real
    var exitSpeed: real
    var accelerateUntil: real
    var decelerateAfter: real
    var dtRemainder: real
    /** Of the block so far: the time of the passes of its segments, and the time its steps are given. */
    ghost var accounted: real
    ghost var executed: real

    /** st_reset */
    constructor (sqrt: real -> real)
      ensures this.sqrt == sqrt && currentSpeed == 0.0 && exitSpeed == 0.0 && InTime()
    {
      this.sqrt := sqrt;
      rampType, mmComplete, currentSpeed, maximumSpeed, exitSpeed := ACCEL, 0.0, 0.0, 0.0, 0.0;
      accelerateUntil, decelerateAfter, dtRemainder := 0.0, 0.0, 0.0;
      accounted, executed := 0.0, 0.0;
    }

    ghost function P(): Profile
      reads this
    {
      Profile(mmComplete, maximumSpeed, exitSpeed, accelerateUntil, decelerateAfter)
    }

    ghost predicate Ready(mm: real, a: real)
      reads this
    {
      a > 0.0 && OnRamp(rampType, currentSpeed, mm, a, P())
    }

    /** No time is lost or added between the passes and the steps, but for a fraction of a step carried. */
    ghost predicate InTime()
      reads this
    {
      executed + dtRemainder == accounted
    }

    /** A new block begins. */
    method Restart()
      modifies this`dtRemainder, this`accounted, this`executed
      ensures InTime() && dtRemainder == accounted == executed == 0.0
    {
      dtRemainder := 0.0;
      accounted, executed := 0.0, 0.0;
    }

    /** Speeds and distances make sense, whether or not the profile is in order. */
    ghost predicate Sane(mm: real, a: real)
      reads this
    {
      a > 0.0 && Running(Point(rampType, currentSpeed, mm), a, P())
    }

    /** The profile during normal operation, towards the planned exit speed; after an override has
        reduced the nominal speed below the present one, towards nominal speed first.  It is in order
        unless the reduction has left too little length to brake in; if even nominal speed is out of
        reach the block is left at the speed that full braking leads to. */
    method ComputeProfile(mm: real, a: real, entrySpeedSqr: real, exitSpeedSqr: real, nominalSpeed: real)
        returns (decelOverride: bool)
      requires IsSqrt(sqrt) && mm > 0.0 && a > 0.0 && nominalSpeed > 0.0
      requires 0.0 <= currentSpeed && Sqr(currentSpeed) == entrySpeedSqr
      requires 0.0 <= exitSpeedSqr <= Sqr(nominalSpeed) && exitSpeedSqr <= entrySpeedSqr + Gain(a, mm)
      modifies this`mmComplete, this`rampType, this`accelerateUntil, this`decelerateAfter, this`maximumSpeed,
               this`exitSpeed
      ensures currentSpeed == old(currentSpeed) && mmComplete == 0.0 && exitSpeed >= 0.0 && accelerateUntil <= mm
      ensures decelOverride <==> entrySpeedSqr > Sqr(nominalSpeed) && entrySpeedSqr - Gain(a, mm) >= Sqr(nominalSpeed)
      ensures Sqr(exitSpeed) == if decelOverride then entrySpeedSqr - Gain(a, mm) else exitSpeedSqr
      ensures Ready(mm, a) <==> decelOverride || entrySpeedSqr <= exitSpeedSqr + Gain(a, mm)
      ensures rampType == DECEL_OVERRIDE <==> entrySpeedSqr > Sqr(nominalSpeed) && !decelOverride
      ensures rampType != DECEL ==> 0.0 < maximumSpeed <= nominalSpeed
      ensures Sane(mm, a)
      ensures Ready(mm, a) ==> Peaks(rampType, currentSpeed, mm, a, P(), nominalSpeed)
      ensures Ready(mm, a) ==>
                forall x | 0.0 <= x <= mm ::
                  Curve(rampType, P(), a, x) == Best(entrySpeedSqr, Sqr(exitSpeed), Sqr(nominalSpeed), a, mm, x)
    {
      hide Sqr, OnRamp, Gain, Span, Curve, Best;
      mmComplete := 0.0;
      decelOverride := false;
      var inv2Accel := 0.5 / a;
      rampType := ACCEL;
      accelerateUntil := mm;
      exitSpeed := sqrt(exitSpeedSqr);
      var nominalSpeedSqr := nominalSpeed * nominalSpeed;
      var intersectDistance := 0.5 * (mm + Span(inv2Accel, exitSpeedSqr, entrySpeedSqr));
      ProfileBounds(currentSpeed, mm, a, inv2Accel, exitSpeed, nominalSpeed);
      if entrySpeedSqr > nominalSpeedSqr {
        OverrideBounds(currentSpeed, mm, a, inv2Accel, exitSpeed, nominalSpeed);
        accelerateUntil := mm - Span(inv2Accel, nominalSpeedSqr, entrySpeedSqr);
        if accelerateUntil <= 0.0 {
          rampType := DECEL;
          exitSpeed := sqrt(entrySpeedSqr - Gain(a, mm));
          decelOverride := true;
          FullBraking(currentSpeed, mm, a, P());
        } else {
          decelerateAfter := Span(inv2Accel, exitSpeedSqr, nominalSpeedSqr);
          maximumSpeed := nominalSpeed;
          rampType := DECEL_OVERRIDE;
          Overridden(currentSpeed, mm, a, inv2Accel, exitSpeed, nominalSpeed, P());
        }
      } else if intersectDistance > 0.0 {
        if intersectDistance < mm {
          decelerateAfter := Span(inv2Accel, exitSpeedSqr, nominalSpeedSqr);
          if decelerateAfter < intersectDistance {
            Trapezoid(currentSpeed, mm, a, inv2Accel, exitSpeed, nominalSpeed);
            maximumSpeed := nominalSpeed;
            if entrySpeedSqr == nominalSpeedSqr {
              rampType := CRUISE;
            } else {
              accelerateUntil := accelerateUntil - Span(inv2Accel, entrySpeedSqr, nominalSpeedSqr);
            }
          } else {
            accelerateUntil := intersectDistance;
            decelerateAfter := intersectDistance;
            maximumSpeed := sqrt(Gain(a, intersectDistance) + exitSpeedSqr);
            Triangle(currentSpeed, mm, a, inv2Accel, exitSpeed, nominalSpeed, maximumSpeed);
          }
        } else {
          rampType := DECEL;
          OneRamp(currentSpeed, mm, a, inv2Accel, exitSpeed, nominalSpeed, P());
        }
      } else {
        accelerateUntil := 0.0;
        maximumSpeed := exitSpeed;
        OneRamp(currentSpeed, mm, a, inv2Accel, exitSpeed, nominalSpeed, P());
      }
      if Ready(mm, a) {
        OnIsRunning(Point(rampType, currentSpeed, mm), a, P());
        assert Peaks(rampType, currentSpeed, mm, a, P(), nominalSpeed);
        PeaksEverywhere(rampType, currentSpeed, mm, a, P(), nominalSpeed);
      }
    }

    /** The profile during a feed hold: brake to a standstill, in this block or beyond it. */
    method ComputeHoldProfile(mm: real, a: real, entrySpeedSqr: real)
      requires IsSqrt(sqrt) && mm >= 0.0 && a > 0.0
      requires 0.0 <= currentSpeed && Sqr(currentSpeed) == entrySpeedSqr
      modifies this`mmComplete, this`rampType, this`exitSpeed
      ensures Ready(mm, a) && currentSpeed == old(currentSpeed) && rampType == DECEL
      ensures exitSpeed >= 0.0 && (exitSpeed == 0.0 || mmComplete == 0.0)
      ensures Sqr(exitSpeed) == if entrySpeedSqr > Gain(a, mm) then entrySpeedSqr - Gain(a, mm) else 0.0
    {
      mmComplete := 0.0;
      var inv2Accel := 0.5 / a;
      rampType := DECEL;
      HoldDistance(mm, a, inv2Accel, entrySpeedSqr);
      hide Gain, Span;
      var decelDist := mm - Span(inv2Accel, 0.0, entrySpeedSqr);
      if decelDist < 0.0 {
        exitSpeed := sqrt(entrySpeedSqr - Gain(a, mm));
      } else {
        mmComplete := decelDist;
        exitSpeed := 0.0;
      }
    }

    /** One pass of the ramp switch: from mm0 for the time t0, or to the end of the ramp. */
    method RampPass(block: real, a: real, mm0: real, t0: real) returns (mm: real, t: real)
      requires 0.0 <= currentSpeed && 0.0 <= exitSpeed && (rampType != DECEL ==> maximumSpeed > 0.0)
      modifies this`rampType, this`currentSpeed
      ensures var z := Pass(Point(old(rampType), old(currentSpeed), mm0), t0, Point(rampType, currentSpeed, mm), t);
              Passes(z.from, t0, z.to, t, a, P()) && Clocked(z, block, P())
    {
      hide Passes, Clocked;
      match rampType {
        case DECEL_OVERRIDE => mm, t := OverridePass(block, a, mm0, t0);
        case ACCEL => mm, t := AccelPass(block, a, mm0, t0);
        case CRUISE => mm, t := CruisePass(block, a, mm0, t0);
        case DECEL => mm, t := BrakePass(block, a, mm0, t0);
      }
    }

    /** Braking to the maximum speed, after an override. */
    method OverridePass(block: real, a: real, mm0: real, t0: real) returns (mm: real, t: real)
      requires rampType == DECEL_OVERRIDE && 0.0 <= currentSpeed && maximumSpeed > 0.0
      modifies this`rampType, this`currentSpeed
      ensures var z := Pass(Point(DECEL_OVERRIDE, old(currentSpeed), mm0), t0, Point(rampType, currentSpeed, mm), t);
              Passes(z.from, t0, z.to, t, a, P()) && Clocked(z, block, P())
    {
      hide Travel, Over;
      var speedVar := a * t0;
      if currentSpeed - maximumSpeed <= speedVar {
        mm := accelerateUntil;
        t := Over(2.0 * (block - mm), currentSpeed + maximumSpeed);
        rampType := CRUISE;
        currentSpeed := maximumSpeed;
      } else {
        mm, t := mm0 - Travel(currentSpeed, -a, t0), t0;
        currentSpeed := currentSpeed - speedVar;
      }
    }

    /** Accelerating. */
    method AccelPass(block: real, a: real, mm0: real, t0: real) returns (mm: real, t: real)
      requires rampType == ACCEL && 0.0 <= currentSpeed && maximumSpeed > 0.0
      modifies this`rampType, this`currentSpeed
      ensures var z := Pass(Point(ACCEL, old(currentSpeed), mm0), t0, Point(rampType, currentSpeed, mm), t);
              Passes(z.from, t0, z.to, t, a, P()) && Clocked(z, block, P())
    {
      hide Travel, Over;
      var speedVar := a * t0;
      mm, t := mm0 - Travel(currentSpeed, a, t0), t0;
      if mm < accelerateUntil {
        mm := accelerateUntil;
        t := Over(2.0 * (block - mm), currentSpeed + maximumSpeed);
        if mm == decelerateAfter { rampType := DECEL; } else { rampType := CRUISE; }
        currentSpeed := maximumSpeed;
      } else {
        currentSpeed := currentSpeed + speedVar;
      }
    }

    /** Cruising. */
    method CruisePass(ghost block: real, a: real, mm0: real, t0: real) returns (mm: real, t: real)
      requires rampType == CRUISE && 0.0 <= currentSpeed && maximumSpeed > 0.0
      modifies this`rampType, this`currentSpeed
      ensures var z := Pass(Point(CRUISE, old(currentSpeed), mm0), t0, Point(rampType, currentSpeed, mm), t);
              Passes(z.from, t0, z.to, t, a, P()) && Clocked(z, block, P())
    {
      hide Travel, Over;
      mm, t := mm0 - maximumSpeed * t0, t0;
      if mm < decelerateAfter {
        t := Over(mm0 - decelerateAfter, maximumSpeed);
        mm := decelerateAfter;
        rampType := DECEL;
      }
    }

    /** Braking. */
    method BrakePass(ghost block: real, a: real, mm0: real, t0: real) returns (mm: real, t: real)
      requires rampType == DECEL && 0.0 <= currentSpeed && 0.0 <= exitSpeed
      modifies this`rampType, this`currentSpeed
      ensures var z := Pass(Point(DECEL, old(currentSpeed), mm0), t0, Point(rampType, currentSpeed, mm), t);
              Passes(z.from, t0, z.to, t, a, P()) && Clocked(z, block, P())
    {
      hide Travel, Over;
      var speedVar := a * t0;
      if currentSpeed > speedVar {
        mm, t := mm0 - Travel(currentSpeed, -a, t0), t0;
        if mm > mmComplete {
          currentSpeed := currentSpeed - speedVar;
          return;
        }
      }
      // 0/0 when a hold starts from rest; no time passes then.
      t := if currentSpeed + exitSpeed == 0.0 then 0.0 else Over(2.0 * (mm0 - mmComplete), currentSpeed + exitSpeed);
      mm := mmComplete;
      currentSpeed := exitSpeed;
    }

    /** Cut one segment off a block with millimeters left and stepsRemaining whole steps: n base steps
        at a smoothing level, leaving mm.  Fewer than one step is only cut at the end of a hold.  The
        passes of the loop account for the time, and that for the rate of the segment. */
    method PrepSegment(millimeters: real, a: real, stepsRemaining: nat, stepPerMm: real, hold: bool)
        returns (n: nat, level: nat, mm: real, cyclesPerTick: int, ghost passes: seq<Pass>)
      requires Sane(millimeters, a) && stepPerMm > 0.0 && stepsRemaining == Ceil(stepPerMm * millimeters)
      requires millimeters > 0.0 && (!hold ==> mmComplete == 0.0)
      modifies this`rampType, this`currentSpeed, this`dtRemainder, this`accounted, this`executed
      ensures level <= MAX_AMASS_LEVEL && n <= stepsRemaining
      ensures 0.0 <= mm <= millimeters && n == stepsRemaining - Ceil(stepPerMm * mm)
      ensures mm == 0.0 <==> n == stepsRemaining
      ensures n == 0 ==> hold && mm == mmComplete > 0.0
      ensures mmComplete <= mm && 0.0 <= currentSpeed && (mm > mmComplete ==> Sane(mm, a))
      ensures old(rampType) == DECEL ==> rampType == DECEL
      ensures old(Ready(millimeters, a)) ==>
                && MeetsExit(currentSpeed, mm, a, P()) && (mm > mmComplete ==> Ready(mm, a))
                && Sqr(currentSpeed) <= Sqr(old(currentSpeed)) + Gain(a, millimeters - mm)
                && (old(rampType) == ACCEL ==> currentSpeed <= maximumSpeed)
                && (old(rampType) == DECEL ==> Sqr(currentSpeed) == Sqr(exitSpeed) + Gain(a, mm - mmComplete))
                && (old(rampType) != ACCEL ==> rampType != ACCEL && currentSpeed <= old(currentSpeed))
                && (rampType == DECEL_OVERRIDE ==> old(rampType) == DECEL_OVERRIDE)
                && Sqr(currentSpeed) == Curve(old(rampType), P(), a, mm)
                && (forall n | n > 0.0 && mm > mmComplete
                               && Peaks(old(rampType), old(currentSpeed), millimeters, a, P(), n) ::
                      Peaks(rampType, currentSpeed, mm, a, P(), n))
      ensures var s := Point(old(rampType), old(currentSpeed), millimeters);
              && Loop(s, passes, MinimumMm(millimeters, stepPerMm), a, P())
              && Done(passes, MinimumMm(millimeters, stepPerMm), P())
              && passes[|passes| - 1].to == Point(rampType, currentSpeed, mm)
      ensures n > 0 ==>
                var steps := stepsRemaining as real - stepPerMm * mm;
                && steps > 0.0
                && var invRate := (Total(passes) + old(dtRemainder)) / steps;
                   var cycles := Ceil(TICKS_PER_MINUTE * invRate);
                   && level == AmassLevel(cycles) && cyclesPerTick == CyclesPerTick(cycles)
                   && dtRemainder == (Ceil(stepPerMm * mm) as real - stepPerMm * mm) * invRate
                   && executed == old(executed) + n as real * invRate
      ensures n > 0 ==> accounted == old(accounted) + Total(passes)
      ensures n == 0 ==> executed == old(executed) && accounted == old(accounted) && dtRemainder == old(dtRemainder)
      ensures old(InTime()) ==> InTime() && (mm == 0.0 ==> dtRemainder == 0.0 && executed == accounted)
    {
      hide Sqr, Gain, OnRamp, MeetsExit, Within, Loop, Goes, Done, Total, AmassLevel, CyclesPerTick, Ceil, Curve,
           Peaks;
      ghost var s := Point(rampType, currentSpeed, millimeters);
      var minimumMm := millimeters - REQ_MM_INCREMENT_SCALAR / stepPerMm;
      if minimumMm < 0.0 { minimumMm := 0.0; }
      var dt;
      mm, dt, passes := FillSegment(millimeters, a, minimumMm);
      if On(s, a, P()) {
        Followed(s, Point(rampType, currentSpeed, mm), minimumMm, a, P());
      }
      StepsCut(millimeters, mm, stepPerMm, minimumMm, stepsRemaining);
      var stepDistRemaining := stepPerMm * mm;
      var nStepsRemaining := Ceil(stepDistRemaining);
      n := stepsRemaining - nStepsRemaining;
      level, cyclesPerTick := 0, 0;
      if n == 0 { return; }
      level, cyclesPerTick := SetRate(dt, stepsRemaining, nStepsRemaining, stepDistRemaining);
    }

    /** The rate of a segment whose passes take the time dt, and the time of the fraction of a step left over. */
    method SetRate(dt: real, stepsRemaining: nat, nStepsRemaining: nat, stepDistRemaining: real)
        returns (level: nat, cyclesPerTick: int)
      requires nStepsRemaining < stepsRemaining && stepDistRemaining < stepsRemaining as real
      modifies this`dtRemainder, this`accounted, this`executed
      ensures var invRate := (dt + old(dtRemainder)) / (stepsRemaining as real - stepDistRemaining);
              var cycles := Ceil(TICKS_PER_MINUTE * invRate);
              && level == AmassLevel(cycles) && cyclesPerTick == CyclesPerTick(cycles)
              && dtRemainder == (nStepsRemaining as real - stepDistRemaining) * invRate
              && executed == old(executed) + (stepsRemaining - nStepsRemaining) as real * invRate
      ensures accounted == old(accounted) + dt
      ensures old(InTime()) ==> InTime()
      ensures old(InTime()) && stepDistRemaining == 0.0 && nStepsRemaining == 0 ==>
                dtRemainder == 0.0 && executed == accounted
    {
      hide AmassLevel, CyclesPerTick, Ceil;
      var time := dt + dtRemainder;
      var invRate := time / (stepsRemaining as real - stepDistRemaining);
      var cycles := Ceil(TICKS_PER_MINUTE * invRate);
      level := AmassLevel(cycles);
      cyclesPerTick := CyclesPerTick(cycles);
      CarryOver(time, stepsRemaining, nStepsRemaining, stepDistRemaining, invRate);
      accounted := accounted + dt;
      executed := executed + (stepsRemaining - nStepsRemaining) as real * invRate;
      dtRemainder := (nStepsRemaining as real - stepDistRemaining) * invRate;
    }

    /** The inner loop: passes of the ramp switch until the time of a segment is used up and a whole
        step covered, or the profile is complete. */
    method FillSegment(millimeters: real, a: real, minimumMm: real)
        returns (mm: real, dt: real, ghost passes: seq<Pass>)
      requires Sane(millimeters, a) && 0.0 <= minimumMm
      modifies this`rampType, this`currentSpeed
      ensures var s := Point(old(rampType), old(currentSpeed), millimeters);
              var x, p := Point(rampType, currentSpeed, mm), P();
              && Loop(s, passes, minimumMm, a, p) && Done(passes, minimumMm, p)
              && passes[|passes| - 1].to == x && dt == Total(passes)
              && 0.0 <= p.mmComplete <= mm && 0.0 <= currentSpeed && (mm > p.mmComplete ==> Running(x, a, p))
              && (mm <= minimumMm || mm == p.mmComplete) && (s.ramp == DECEL ==> rampType == DECEL)
              && (On(s, a, p) ==>
                    && Within(s, x, minimumMm, a, p) && MeetsExit(currentSpeed, mm, a, p)
                    && (mm > p.mmComplete ==> On(x, a, p))
                    && (s.ramp == DECEL ==> Sqr(currentSpeed) == Sqr(exitSpeed) + Gain(a, mm - mmComplete)))
    {
      hide Sqr, Gain, Travel, OnRamp, MeetsExit, Within, TimeOk, Passes, Clocked, Loop, Goes, Next, Total, Pending, On;
      ghost var s, p := Point(rampType, currentSpeed, millimeters), P();
      var dtMax := DT_SEGMENT;
      dt := 0.0;
      var timeVar := dtMax;
      mm := millimeters;
      ghost var stride := Stride(a, p);
      ghost var ready := On(s, a, p);
      if ready { SegmentStart(s, minimumMm, a, p); }
      passes := [];
      LoopStart(s, minimumMm, a, p);
      while true
        invariant P() == p && p.mmComplete <= mm && dt + timeVar == dtMax && (s.ramp == DECEL ==> rampType == DECEL)
        invariant Running(Point(rampType, currentSpeed, mm), a, p) && (ToMaximum(rampType) ==> timeVar == DT_SEGMENT)
        invariant ready ==>
                    var x := Point(rampType, currentSpeed, mm);
                    On(x, a, p) && Within(s, x, minimumMm, a, p) && TimeOk(timeVar, s, x, minimumMm, p)
        invariant Loop(s, passes, minimumMm, a, p) && dt == Total(passes)
        invariant Pending(s, passes, Point(rampType, currentSpeed, mm), timeVar, minimumMm, p)
        decreases Rank(rampType), if timeVar == DT_SEGMENT then 0 else 1, Strides(mm, stride)
      {
        ghost var x, t0 := Point(rampType, currentSpeed, mm), timeVar;
        mm, timeVar := RampPass(millimeters, a, mm, timeVar);
        ghost var y := Point(rampType, currentSpeed, mm);
        RunsOn(x, t0, y, timeVar, a, p);
        if ready { Passed(s, x, t0, y, timeVar, dt, dtMax, minimumMm, a, p); }
        LoopStep(s, passes, Pass(x, t0, y, timeVar), minimumMm, a, p);
        NextIs(Pass(x, t0, y, timeVar), passes, dt, dtMax, s, minimumMm, p);
        passes := passes + [Pass(x, t0, y, timeVar)];
        dt := dt + timeVar;
        if dt < dtMax {
          timeVar := dtMax - dt;
        } else {
          if mm > minimumMm {
            dtMax := dtMax + DT_SEGMENT;
            timeVar := dtMax - dt;
          } else {
            break;
          }
        }
        if mm <= mmComplete { break; }
      }
    }
  }

  /** The time of a segment is divided between its whole steps and the fraction of a step carried over. */
  lemma CarryOver(dt: real, before: nat, after: nat, distance: real, invRate: real)
    requires before as real > distance && invRate == dt / (before as real - distance)
    ensures (before - after) as real * invRate + (after as real - distance) * invRate == dt
    ensures distance == 0.0 && after == 0 ==> (after as real - distance) * invRate == 0.0
  {
    assert (before as real - distance) * invRate == dt;
    assert (before - after) as real * invRate + (after as real - distance) * invRate
           == (before as real - distance) * invRate;
  }

  lemma HoldDistance(mm: real, a: real, inv: real, entry: real)
    requires a > 0.0 && inv == 0.5 / a && mm >= 0.0 && entry >= 0.0
    ensures var d := mm - Span(inv, 0.0, entry);
            && (d < 0.0 <==> entry > Gain(a, mm)) && Gain(a, mm - d) == entry && Gain(a, mm - 0.0) == Gain(a, mm)
            && d <= mm && Sqr(0.0) == 0.0
  {
    assert 2.0 * a * inv == 1.0;
    assert Gain(a, Span(inv, 0.0, entry)) == entry;
    GainLinear(a, Span(inv, 0.0, entry), mm); GainLinear(a, 0.0, Span(inv, 0.0, entry));
  }

  // ---- one pass ------------------------------------------------------------------------------------

  datatype Point = Point(ramp: Ramp, v: real, mm: real)

  /** What one pass of the ramp switch does. */
  ghost predicate Passes(x: Point, t0: real, y: Point, t: real, a: real, p: Profile) {
    match x.ramp
    case ACCEL =>
      || (&& y == Point(ACCEL, x.v + a * t0, x.mm - Travel(x.v, a, t0)) && t == t0 && p.accelerateUntil <= y.mm)
      || (&& y.ramp == (if p.accelerateUntil == p.decelerateAfter then DECEL else CRUISE)
          && y.v == p.maximumSpeed && y.mm == p.accelerateUntil
          && x.mm - Travel(x.v, a, t0) < y.mm)
    case DECEL_OVERRIDE =>
      || (&& y == Point(DECEL_OVERRIDE, x.v - a * t0, x.mm - Travel(x.v, -a, t0)) && t == t0
          && p.maximumSpeed < y.v)
      || (y == Point(CRUISE, p.maximumSpeed, p.accelerateUntil) && x.v - a * t0 <= p.maximumSpeed)
    case CRUISE =>
      || (y == Point(CRUISE, x.v, x.mm - p.maximumSpeed * t0) && t == t0 && p.decelerateAfter <= y.mm)
      || (&& y == Point(DECEL, x.v, p.decelerateAfter) && x.mm - p.maximumSpeed * t0 < y.mm
          && p.maximumSpeed * t == x.mm - y.mm)
    case DECEL =>
      || (&& y == Point(DECEL, x.v - a * t0, x.mm - Travel(x.v, -a, t0)) && t == t0
          && p.mmComplete < y.mm && 0.0 < y.v)
      || y == Point(DECEL, p.exitSpeed, p.mmComplete)
  }

  /** One pass of the inner loop: from one point to another, given a time, accounting for a time. */
  datatype Pass = Pass(from: Point, budget: real, to: Point, time: real)

  /** The time accounted for at the end of a ramp; that of a ramp to the maximum speed is taken over the
      whole segment, which starts block millimeters before the end of the block. */
  ghost predicate Clocked(z: Pass, block: real, p: Profile) {
    match z.from.ramp
    case ACCEL => z.to.ramp != ACCEL ==> z.time * (z.from.v + p.maximumSpeed) == 2.0 * (block - z.to.mm)
    case DECEL_OVERRIDE =>
      z.to.ramp != DECEL_OVERRIDE ==> z.time * (z.from.v + p.maximumSpeed) == 2.0 * (block - z.to.mm)
    case CRUISE => true
    case DECEL =>
      z.to.mm == p.mmComplete ==>
        if z.from.v + p.exitSpeed == 0.0 then z.time == 0.0
        else z.time * (z.from.v + p.exitSpeed) == 2.0 * (z.from.mm - z.to.mm)
  }

  /** The time given to the pass after z. */
  function Next(z: Pass): real {
    if z.time < z.budget then z.budget - z.time else z.budget + DT_SEGMENT - z.time
  }

  /** The loop goes on after z: the block is not over, and time is left or no whole step covered. */
  predicate Goes(z: Pass, minimum: real, p: Profile) {
    z.to.mm > p.mmComplete && (z.time < z.budget || z.to.mm > minimum)
  }

  /** The next pass starts at x with time t. */
  predicate Pending(s: Point, zs: seq<Pass>, x: Point, t: real, minimum: real, p: Profile) {
    if zs == [] then x == s && t == DT_SEGMENT
    else var z := zs[|zs| - 1]; Goes(z, minimum, p) && x == z.to && t == Next(z)
  }

  /** The first passes of the loop for a segment starting at s. */
  ghost predicate Loop(s: Point, zs: seq<Pass>, minimum: real, a: real, p: Profile) {
    zs == [] ||
    var before, z := zs[..|zs| - 1], zs[|zs| - 1];
    && Loop(s, before, minimum, a, p) && Pending(s, before, z.from, z.budget, minimum, p)
    && Passes(z.from, z.budget, z.to, z.time, a, p) && Clocked(z, s.mm, p)
  }

  /** All of them. */
  predicate Done(zs: seq<Pass>, minimum: real, p: Profile) {
    zs != [] && !Goes(zs[|zs| - 1], minimum, p)
  }

  /** Time accounted for. */
  function Total(zs: seq<Pass>): real {
    if zs == [] then 0.0 else Total(zs[..|zs| - 1]) + zs[|zs| - 1].time
  }

  lemma LoopStart(s: Point, minimum: real, a: real, p: Profile)
    ensures Loop(s, [], minimum, a, p) && Total([]) == 0.0 && Pending(s, [], s, DT_SEGMENT, minimum, p)
  {
  }

  lemma LoopStep(s: Point, zs: seq<Pass>, z: Pass, minimum: real, a: real, p: Profile)
    requires Loop(s, zs, minimum, a, p) && Pending(s, zs, z.from, z.budget, minimum, p)
    requires Passes(z.from, z.budget, z.to, z.time, a, p) && Clocked(z, s.mm, p)
    ensures Loop(s, zs + [z], minimum, a, p) && Total(zs + [z]) == Total(zs) + z.time
  {
    hide Passes, Clocked, Pending;
    assert (zs + [z])[..|zs|] == zs;
  }

  /** What follows a pass, in terms of the clock of the loop. */
  lemma NextIs(z: Pass, before: seq<Pass>, dt: real, dtMax: real, s: Point, minimum: real, p: Profile)
    requires dt + z.budget == dtMax
    ensures var now := dt + z.time;
            var goes := z.to.mm > p.mmComplete && (now < dtMax || z.to.mm > minimum);
            var t := if now < dtMax then dtMax - now else dtMax + DT_SEGMENT - now;
            && (goes ==> Pending(s, before + [z], z.to, t, minimum, p))
            && (!goes ==> Done(before + [z], minimum, p))
  {
    assert (before + [z])[|before + [z]| - 1] == z;
  }

  /** A segment has to reach below this, to cover a whole step. */
  function MinimumMm(mm: real, stepPerMm: real): real
    requires stepPerMm > 0.0
  {
    var minimum := mm - REQ_MM_INCREMENT_SCALAR / stepPerMm;
    if minimum < 0.0 then 0.0 else minimum
  }

  /** Speeds and distances make sense. */
  ghost predicate Running(x: Point, a: real, p: Profile) {
    && 0.0 <= x.v && 0.0 <= p.exitSpeed && 0.0 <= p.mmComplete <= x.mm
    && (x.ramp != DECEL ==>
          && p.maximumSpeed > 0.0 && p.mmComplete == 0.0
          && (x.ramp == CRUISE || p.accelerateUntil > 0.0 ==> 0.0 <= p.decelerateAfter))
    && (x.ramp == ACCEL ==> 0.0 <= p.accelerateUntil)
    && (x.ramp == DECEL_OVERRIDE ==>
          && 0.0 < p.accelerateUntil <= x.mm && p.maximumSpeed < x.v
          && Sqr(x.v) == Sqr(p.maximumSpeed) + Gain(a, x.mm - p.accelerateUntil))
  }

  lemma OnIsRunning(x: Point, a: real, p: Profile)
    requires On(x, a, p)
    ensures Running(x, a, p)
  {
    hide Sqr, Gain;
  }

  ghost predicate On(x: Point, a: real, p: Profile) {
    OnRamp(x.ramp, x.v, x.mm, a, p)
  }

  /** A pass takes time, except that after a slow ramp to the maximum speed the clock may run ahead of the
      segment and the next pass goes back: the code times that ramp from the start of the segment.
      It only happens more than one step before the segment may end. */
  ghost predicate TimeOk(t: real, s: Point, x: Point, minimum: real, p: Profile) {
    t > 0.0
    || (&& ToMaximum(s.ramp) && p.accelerateUntil > minimum && x.mm > p.mmComplete
        && (x.ramp == CRUISE || (s.ramp == ACCEL && x.ramp == DECEL && p.accelerateUntil == p.decelerateAfter)))
  }

  lemma PassOn(x: Point, t0: real, y: Point, t: real, a: real, p: Profile)
    requires a > 0.0 && On(x, a, p) && Passes(x, t0, y, t, a, p)
    requires t0 > 0.0 || !ToMaximum(x.ramp)
    ensures p.mmComplete <= y.mm && 0.0 <= y.v && MeetsExit(y.v, y.mm, a, p)
    ensures y.mm > p.mmComplete || y.ramp == DECEL_OVERRIDE ==> On(y, a, p)
    ensures x.ramp == DECEL ==> y.ramp == DECEL && Sqr(y.v) == Sqr(p.exitSpeed) + Gain(a, y.mm - p.mmComplete)
  {
    hide Sqr, Gain, Travel;
    SpeedUp(x.v, a, t0); SlowDown(x.v, a, t0);
    GainLinear(a, x.mm, Travel(x.v, a, t0)); GainLinear(a, x.mm, Travel(x.v, -a, t0));
    GainLinear(a, x.mm, p.accelerateUntil); GainLinear(a, y.mm, p.accelerateUntil);
    GainLinear(a, x.mm, p.mmComplete); GainLinear(a, y.mm, p.mmComplete);
    if x.ramp == ACCEL && t0 > 0.0 { Positive(a, t0); }
    GainLinear(a, p.mmComplete, p.mmComplete);
    if x.ramp == DECEL_OVERRIDE { SqMonotone(p.maximumSpeed, y.v); }
    GainLinear(a, x.mm - p.accelerateUntil, Travel(x.v, -a, t0));
    GainLinear(a, Travel(x.v, -a, t0), x.mm - p.accelerateUntil);
    assert y.mm > p.mmComplete || y.ramp == DECEL_OVERRIDE ==> On(y, a, p);
    if y.mm > p.mmComplete { OnRampMeetsExit(y.ramp, y.v, y.mm, a, p); }
  }

  lemma SpeedUp(v: real, a: real, t: real)
    ensures Sqr(v + a * t) == Sqr(v) + Gain(a, Travel(v, a, t))
  {
    TravelSq(v, a, t);
    hide Travel, Sqr;
  }

  lemma SlowDown(v: real, a: real, t: real)
    ensures Sqr(v - a * t) == Sqr(v) - Gain(a, Travel(v, -a, t))
  {
    TravelSq(v, -a, t);
    assert v + -a * t == v - a * t;
    var d := Travel(v, -a, t);
    hide Travel, Sqr;
    assert 2.0 * -a * d == -(2.0 * a * d);
  }

  /** How the passes so far have moved from the start s of the segment. */
  ghost predicate Within(s: Point, x: Point, minimum: real, a: real, p: Profile) {
    if !ToMaximum(s.ramp) then !ToMaximum(x.ramp) && x.mm <= s.mm && x.v <= s.v
    else if ToMaximum(x.ramp) then
      && x.ramp == s.ramp && p.accelerateUntil <= x.mm <= s.mm
      && if s.ramp == ACCEL then Sqr(x.v) + Gain(a, x.mm) == Sqr(s.v) + Gain(a, s.mm) else x.v <= s.v
    else
      && p.mmComplete == 0.0 && p.accelerateUntil <= s.mm
      && (if s.ramp == ACCEL then Sqr(p.maximumSpeed) + Gain(a, p.accelerateUntil) == Sqr(s.v) + Gain(a, s.mm)
          else p.maximumSpeed <= s.v)
      && (x.mm <= p.accelerateUntil || p.accelerateUntil > minimum)
      && (x.mm > 0.0 ==> p.accelerateUntil > 0.0)
      && (x.mm > 0.0 && x.ramp == DECEL ==> x.mm <= p.decelerateAfter || p.accelerateUntil == p.decelerateAfter)
      && (x.mm <= p.accelerateUntil ==> x.v <= p.maximumSpeed)
      && (x.mm > 0.0 && s.ramp == ACCEL && x.ramp == CRUISE ==> p.accelerateUntil != p.decelerateAfter)
  }

  /** A segment may end within its block where a whole step has been covered. */
  lemma SegmentEnd(s: Point, x: Point, minimum: real, a: real, p: Profile)
    requires a > 0.0 && On(s, a, p) && Within(s, x, minimum, a, p) && 0.0 <= x.v && 0.0 <= minimum <= s.mm
    requires x.mm <= minimum || x.mm == p.mmComplete
    ensures x.mm <= s.mm && Sqr(x.v) <= Sqr(s.v) + Gain(a, s.mm - x.mm)
    ensures ToMaximum(x.ramp) ==> s.ramp == x.ramp
    ensures s.ramp != ACCEL ==> x.v <= s.v
    ensures s.ramp == ACCEL ==> x.v <= p.maximumSpeed
  {
    GainLinear(a, s.mm, x.mm); GainLinear(a, x.mm, s.mm);
    GainLinear(a, s.mm, p.accelerateUntil); GainLinear(a, x.mm, p.accelerateUntil);
    GainLinear(a, p.accelerateUntil, x.mm);
    if s.ramp == ACCEL { SqMonotone(x.v, p.maximumSpeed); } else { SqMonotone(x.v, s.v); }
    hide Sqr, Gain;
  }

  /** All this for a segment of a profile in order. */
  lemma Followed(s: Point, x: Point, minimum: real, a: real, p: Profile)
    requires a > 0.0 && On(s, a, p) && Within(s, x, minimum, a, p) && 0.0 <= minimum <= s.mm
    requires 0.0 <= p.mmComplete <= x.mm && 0.0 <= x.v && (x.mm <= minimum || x.mm == p.mmComplete)
    requires (x.mm > p.mmComplete ==> On(x, a, p)) && MeetsExit(x.v, x.mm, a, p)
             && (s.ramp == DECEL ==> x.ramp == DECEL)
    ensures x.mm <= s.mm && Sqr(x.v) <= Sqr(s.v) + Gain(a, s.mm - x.mm) && Sqr(x.v) == Curve(s.ramp, p, a, x.mm)
    ensures ToMaximum(x.ramp) ==> s.ramp == x.ramp
    ensures if s.ramp == ACCEL then x.v <= p.maximumSpeed else x.v <= s.v
    ensures forall n | n > 0.0 && x.mm > p.mmComplete && Peaks(s.ramp, s.v, s.mm, a, p, n) ::
              Peaks(x.ramp, x.v, x.mm, a, p, n)
  {
    hide *;
    SegmentEnd(s, x, minimum, a, p);
    EndOnCurve(s, x, minimum, a, p);
    if x.mm > p.mmComplete && x.mm <= minimum { PeaksLater(s, x, minimum, a, p); }
  }

  lemma PeaksLater(s: Point, x: Point, minimum: real, a: real, p: Profile)
    requires a > 0.0 && On(s, a, p) && On(x, a, p) && Within(s, x, minimum, a, p) && 0.0 <= minimum <= s.mm
    requires x.mm <= minimum && x.mm > p.mmComplete >= 0.0 && (s.ramp == DECEL ==> x.ramp == DECEL)
    ensures forall n | n > 0.0 && Peaks(s.ramp, s.v, s.mm, a, p, n) :: Peaks(x.ramp, x.v, x.mm, a, p, n)
  {
    hide *;
    forall n | n > 0.0 && Peaks(s.ramp, s.v, s.mm, a, p, n) ensures Peaks(x.ramp, x.v, x.mm, a, p, n) {
      StillPeaks(s, x, minimum, a, p, n);
    }
  }

  /** There the machine has the speed of the profile it followed. */
  lemma EndOnCurve(s: Point, x: Point, minimum: real, a: real, p: Profile)
    requires a > 0.0 && On(s, a, p) && Within(s, x, minimum, a, p) && 0.0 <= minimum <= s.mm && p.mmComplete <= x.mm
    requires x.mm <= minimum || x.mm == p.mmComplete
    requires (x.mm > p.mmComplete ==> On(x, a, p)) && MeetsExit(x.v, x.mm, a, p)
    requires s.ramp == DECEL ==> x.ramp == DECEL
    ensures Sqr(x.v) == Curve(s.ramp, p, a, x.mm)
  {
    hide Gain, Sqr;
    var acc, dec := p.accelerateUntil, p.decelerateAfter;
    GainLinear(a, x.mm, acc); GainLinear(a, s.mm, acc); GainLinear(a, x.mm, p.mmComplete); GainLinear(a, x.mm, dec);
    GainLinear(a, p.mmComplete, p.mmComplete); GainLinear(a, dec, dec); GainLinear(a, dec, x.mm);
    GainLinear(a, acc, dec); GainLinear(a, x.mm, 0.0); GainLinear(a, s.mm, x.mm);
    SqMonotone(x.v, s.v);
  }

  /** From there on it is still the fastest. */
  lemma StillPeaks(s: Point, x: Point, minimum: real, a: real, p: Profile, n: real)
    requires a > 0.0 && On(s, a, p) && On(x, a, p) && Within(s, x, minimum, a, p) && 0.0 <= minimum <= s.mm
    requires x.mm <= minimum && x.mm > 0.0 && n > 0.0 && (s.ramp == DECEL ==> x.ramp == DECEL)
    requires Peaks(s.ramp, s.v, s.mm, a, p, n)
    ensures Peaks(x.ramp, x.v, x.mm, a, p, n)
  {
    hide Gain, Sqr;
    SqMonotone(x.v, s.v); SqMonotone(x.v, n);
  }

  lemma PassWithin(s: Point, x: Point, t0: real, y: Point, t: real, minimum: real, a: real, p: Profile)
    requires a > 0.0 && On(s, a, p) && On(x, a, p) && 0.0 <= minimum
    requires Within(s, x, minimum, a, p) && TimeOk(t0, s, x, minimum, p) && Passes(x, t0, y, t, a, p)
    ensures Within(s, y, minimum, a, p)
  {
    if !ToMaximum(s.ramp) { PassSlows(x, t0, y, t, a, p); }
    else if x.ramp == DECEL_OVERRIDE {
      PassSlows(x, t0, y, t, a, p);
      PassOverridden(s, x, t0, y, t, minimum, a, p);
      return;
    }
    else if x.ramp == ACCEL { PassAccelerates(s, x, t0, y, t, a, p); }
    else { PassLate(x, t0, y, t, a, p); }
    hide Sqr, Gain, Travel;
  }

  lemma PassOverridden(s: Point, x: Point, t0: real, y: Point, t: real, minimum: real, a: real, p: Profile)
    requires a > 0.0 && t0 > 0.0 && On(s, a, p) && On(x, a, p) && Within(s, x, minimum, a, p) && 0.0 <= minimum
    requires Passes(x, t0, y, t, a, p) && x.ramp == DECEL_OVERRIDE && ToMaximum(s.ramp) && y.mm <= x.mm && y.v <= x.v
    ensures Within(s, y, minimum, a, p)
  {
    PassOn(x, t0, y, t, a, p);
    hide Sqr, Gain, Travel;
  }

  lemma PassSlows(x: Point, t0: real, y: Point, t: real, a: real, p: Profile)
    requires a > 0.0 && t0 > 0.0 && On(x, a, p) && Passes(x, t0, y, t, a, p) && x.ramp != ACCEL
    ensures y.ramp != ACCEL && y.mm <= x.mm && y.v <= x.v && (y.ramp == DECEL_OVERRIDE ==> x.ramp == DECEL_OVERRIDE)
  {
    Positive(a, t0);
    if x.ramp == CRUISE { Positive(p.maximumSpeed, t0); }
    if 0.0 < x.v - a * t0 { BrakingTravels(x.v, a, t0); }
    SqMonotone(p.exitSpeed, x.v);
    GainLinear(a, 0.0, x.mm - p.mmComplete);
    hide Sqr, Gain, Travel;
  }

  lemma PassAccelerates(s: Point, x: Point, t0: real, y: Point, t: real, a: real, p: Profile)
    requires a > 0.0 && t0 > 0.0 && On(x, a, p) && Passes(x, t0, y, t, a, p) && x.ramp == ACCEL
    ensures y.ramp == ACCEL ==> y.mm <= x.mm && Sqr(y.v) + Gain(a, y.mm) == Sqr(x.v) + Gain(a, x.mm)
    ensures Sqr(p.maximumSpeed) + Gain(a, p.accelerateUntil) == Sqr(x.v) + Gain(a, x.mm)
  {
    hide Sqr, Gain, Travel;
    AccelerationTravels(x.v, a, t0);
    SpeedUp(x.v, a, t0);
    GainLinear(a, x.mm, Travel(x.v, a, t0)); GainLinear(a, x.mm, p.accelerateUntil);
  }

  lemma AccelerationTravels(v: real, a: real, t: real)
    requires a > 0.0 && t > 0.0 && v >= 0.0
    ensures Travel(v, a, t) > 0.0
  {
    Positive(a, t);
    Positive(t, v + 0.5 * (a * t));
  }

  lemma PassLate(x: Point, t0: real, y: Point, t: real, a: real, p: Profile)
    requires a > 0.0 && On(x, a, p) && Passes(x, t0, y, t, a, p) && !ToMaximum(x.ramp) && p.mmComplete == 0.0
    requires AccelOk(p, a)
    ensures t0 > 0.0 ==> y.mm <= x.mm && y.v <= x.v
    ensures t0 <= 0.0 && x.ramp == CRUISE ==> y.ramp == CRUISE
    ensures y.ramp == CRUISE ==> y.v == p.maximumSpeed
    ensures 0.0 < y.mm && p.accelerateUntil > 0.0 && y.ramp == DECEL && y.mm <= p.decelerateAfter
            ==> y.v <= p.maximumSpeed
    ensures y.mm == 0.0 ==> y.v <= p.maximumSpeed
  {
    PassOn(x, t0, y, t, a, p);
    if t0 > 0.0 { PassSlows(x, t0, y, t, a, p); } else if x.ramp == CRUISE { NotPositive(p.maximumSpeed, t0); }
    GainLinear(a, y.mm, p.decelerateAfter); GainLinear(a, 0.0, p.decelerateAfter);
    SqMonotone(y.v, p.maximumSpeed); SqMonotone(p.exitSpeed, p.maximumSpeed);
    hide Sqr, Gain, Travel;
  }

  lemma BrakingTravels(v: real, a: real, t: real)
    requires a > 0.0 && t > 0.0 && v > a * t
    ensures Travel(v, -a, t) > 0.0
  {
    Positive(a, t);
    assert -a * t == -(a * t);
    Positive(t, v + 0.5 * (-a * t));
  }

  lemma NotPositive(x: real, y: real)
    requires x > 0.0 && y <= 0.0
    ensures x * y <= 0.0
  {
  }

  /** After a pass that leaves more to do, the time for the next one is in order. */
  lemma TimeAfter(s: Point, x: Point, t0: real, y: Point, t: real, dt: real, dtMax: real, minimum: real, a: real,
                  p: Profile)
    requires a > 0.0 && On(x, a, p) && Within(s, x, minimum, a, p) && dt + t0 == dtMax
    requires TimeOk(t0, s, x, minimum, p) && Passes(x, t0, y, t, a, p) && y.mm > p.mmComplete
    ensures dt + t >= dtMax && y.mm > minimum ==> TimeOk(dtMax + DT_SEGMENT - (dt + t), s, y, minimum, p)
    ensures y.ramp == x.ramp ==> t == t0
  {
    if x.ramp == CRUISE && y.ramp == DECEL {
      if t >= t0 { NotPositive(p.maximumSpeed, t0 - t); }
      assert p.maximumSpeed * (t0 - t) == p.maximumSpeed * t0 - p.maximumSpeed * t;
    }
    hide Sqr, Gain, Travel;
  }

  function Rank(r: Ramp): nat {
    match r case ACCEL => 2 case DECEL_OVERRIDE => 2 case CRUISE => 1 case DECEL => 0
  }

  /** A full segment time covers at least this much of any ramp. */
  function Stride(a: real, p: Profile): (d: real)
    requires a > 0.0
    ensures d > 0.0
  {
    var ramp := 0.5 * (a * DT_SEGMENT) * DT_SEGMENT;
    var cruise := p.maximumSpeed * DT_SEGMENT;
    if 0.0 < cruise < ramp then cruise else ramp
  }

  function Strides(mm: real, stride: real): nat
    requires stride > 0.0 && mm >= 0.0
  {
    (mm / stride).Floor
  }

  lemma StridesFall(mm: real, next: real, stride: real)
    requires stride > 0.0 && 0.0 <= next <= mm - stride
    ensures Strides(next, stride) < Strides(mm, stride)
  {
    assert mm / stride - next / stride == (mm - next) / stride;
    assert (mm - next) / stride >= 1.0;
  }

  lemma PassProgresses(x: Point, t0: real, y: Point, t: real, a: real, p: Profile)
    requires a > 0.0 && Running(x, a, p) && Passes(x, t0, y, t, a, p) && y.mm > p.mmComplete
    ensures Rank(y.ramp) < Rank(x.ramp) || (y.ramp == x.ramp && t == t0)
    ensures y.ramp == x.ramp && t0 == DT_SEGMENT ==> y.mm <= x.mm - Stride(a, p)
  {
  }

  lemma OverrideGoesOn(x: Point, t0: real, y: Point, t: real, a: real, p: Profile)
    requires a > 0.0 && Running(x, a, p) && Passes(x, t0, y, t, a, p) && x.ramp == y.ramp == DECEL_OVERRIDE
    ensures p.accelerateUntil <= y.mm && Running(y, a, p)
  {
    hide Sqr, Gain, Travel;
    var d := Travel(x.v, -a, t0);
    SlowDown(x.v, a, t0);
    SqMonotone(p.maximumSpeed, y.v);
    GainLinear(a, x.mm - p.accelerateUntil, d); GainLinear(a, d, x.mm - p.accelerateUntil);
    assert x.mm - p.accelerateUntil - d == y.mm - p.accelerateUntil;
  }

  /** Any pass leaves speeds and distances that make sense, and gets on. */
  lemma RunsOn(x: Point, t0: real, y: Point, t: real, a: real, p: Profile)
    requires a > 0.0 && Running(x, a, p) && Passes(x, t0, y, t, a, p) && (ToMaximum(x.ramp) ==> t0 > 0.0)
    ensures 0.0 <= p.mmComplete <= y.mm && 0.0 <= y.v && (y.mm > p.mmComplete ==> Running(y, a, p))
    ensures x.ramp == DECEL ==> y.ramp == DECEL
    ensures y.mm > p.mmComplete ==> Rank(y.ramp) < Rank(x.ramp) || (y.ramp == x.ramp && t == t0)
    ensures y.mm > p.mmComplete && y.ramp == x.ramp && t0 == DT_SEGMENT ==>
              Strides(y.mm, Stride(a, p)) < Strides(x.mm, Stride(a, p))
  {
    if ToMaximum(x.ramp) { Positive(a, t0); }
    hide Sqr, Gain, Travel, Stride, Strides;
    if x.ramp == DECEL_OVERRIDE && y.ramp == DECEL_OVERRIDE { OverrideGoesOn(x, t0, y, t, a, p); }
    if y.mm > p.mmComplete {
      PassProgresses(x, t0, y, t, a, p);
      if y.ramp == x.ramp && t0 == DT_SEGMENT { StridesFall(x.mm, y.mm, Stride(a, p)); }
    }
  }

  /** What a pass leaves for the next one, or for the end of the segment. */
  lemma Passed(s: Point, x: Point, t0: real, y: Point, t: real, dt: real, dtMax: real, minimum: real, a: real,
               p: Profile)
    requires a > 0.0 && On(s, a, p) && On(x, a, p) && Within(s, x, minimum, a, p) && dt + t0 == dtMax
    requires 0.0 <= minimum && TimeOk(t0, s, x, minimum, p) && Passes(x, t0, y, t, a, p)
    ensures 0.0 <= p.mmComplete <= x.mm && p.mmComplete <= y.mm && 0.0 <= y.v && MeetsExit(y.v, y.mm, a, p)
    ensures Within(s, y, minimum, a, p) && (y.mm > p.mmComplete ==> On(y, a, p))
    ensures y.mm > p.mmComplete && dt + t >= dtMax && y.mm > minimum ==>
              TimeOk(dtMax + DT_SEGMENT - (dt + t), s, y, minimum, p)
    ensures dt + t < dtMax ==> TimeOk(dtMax - (dt + t), s, y, minimum, p)
    ensures x.ramp == DECEL ==> y.ramp == DECEL && Sqr(y.v) == Sqr(p.exitSpeed) + Gain(a, y.mm - p.mmComplete)
  {
    hide Sqr, Gain, Travel, MeetsExit, Within, Passes;
    PassOn(x, t0, y, t, a, p);
    PassWithin(s, x, t0, y, t, minimum, a, p);
    if y.mm > p.mmComplete {
      TimeAfter(s, x, t0, y, t, dt, dtMax, minimum, a, p);
    }
  }

  lemma SegmentStart(s: Point, minimum: real, a: real, p: Profile)
    requires On(s, a, p)
    ensures Within(s, s, minimum, a, p) && TimeOk(DT_SEGMENT, s, s, minimum, p) && 0.0 <= p.mmComplete <= s.mm
  {
    hide Sqr, Gain;
  }

  // ---- steps ---------------------------------------------------------------------------------------

  function Ceil(x: real): (n: int)
    ensures x <= n as real < x + 1.0
  {
    -((-x).Floor)
  }

  /** Whole steps of a segment that covers a minimal distance or reaches the end of the block. */
  lemma StepsCut(before: real, after: real, stepPerMm: real, minimum: real, steps: nat)
    requires stepPerMm > 0.0 && before > 0.0 && 0.0 <= after <= before && steps == Ceil(stepPerMm * before)
    requires minimum == (if before - REQ_MM_INCREMENT_SCALAR / stepPerMm < 0.0 then 0.0
                         else before - REQ_MM_INCREMENT_SCALAR / stepPerMm)
    ensures 0 <= Ceil(stepPerMm * after) <= steps && stepPerMm * after <= steps as real
    ensures after == 0.0 <==> Ceil(stepPerMm * after) == 0
    ensures after <= minimum || after == 0.0 ==> Ceil(stepPerMm * after) < steps
  {
  }

  const TICKS_PER_MINUTE: real := 960000000.0
  const AMASS_LEVEL1: int := 2000
  const AMASS_LEVEL2: int := 4000
  const AMASS_LEVEL3: int := 8000

  /** Smoothing level for a step period in CPU cycles. */
  function AmassLevel(cycles: int): (level: nat)
    ensures level <= MAX_AMASS_LEVEL
  {
    if cycles < AMASS_LEVEL1 then 0
    else if cycles < AMASS_LEVEL2 then 1
    else if cycles < AMASS_LEVEL3 then 2
    else 3
  }

  /** Cycles from one interrupt to the next, in sixteen bits. */
  function CyclesPerTick(cycles: int): int {
    var c := cycles / Pow2(AmassLevel(cycles));
    if c < 0x1_0000 then c else 0xffff
  }

  /** The ticks of a segment of n base steps, each so many cycles long, take the cycles of its steps: too
      few only by less than one each, for the bits shifted out, and but for a tick of more than 65535. */
  lemma PeriodIsRate(cycles: nat, n: nat)
    ensures var level, period := AmassLevel(cycles), CyclesPerTick(cycles);
            && 0 <= period < 0x1_0000
            && var ticks := Shl(n, level);
               ticks * period <= n * cycles
               && (cycles / Pow2(level) < 0x1_0000 ==> n * cycles < ticks * (period + 1) || n == 0)
               && (cycles / Pow2(level) >= 0x1_0000 ==> period == 0xffff && level == MAX_AMASS_LEVEL)
  {
    var level := AmassLevel(cycles);
    var p := Pow2(level);
    var q := cycles / p;
    assert q * p <= cycles < (q + 1) * p;
    var period := CyclesPerTick(cycles);
    assert period <= q;
    hide *;
    TicksOf(n, p, period, q, cycles);
  }

  lemma TicksOf(n: nat, p: nat, period: nat, q: nat, cycles: nat)
    requires q * p <= cycles < (q + 1) * p && period <= q
    ensures n * p * period <= n * cycles
    ensures period == q ==> n * cycles < n * p * (period + 1) || n == 0
  {
    assert p * period <= p * q by { MulOrder(p, period, q); }
    MulOrder(n, p * period, cycles);
    assert n * p * period == n * (p * period);
    assert n * p * (period + 1) == n * (p * (period + 1));
    if period == q && n > 0 { MulStrict(n, cycles, p * (q + 1)); }
  }

  lemma MulOrder(x: nat, y: nat, z: nat)
    requires y <= z
    ensures x * y <= x * z
  {
  }

  lemma MulStrict(x: nat, y: nat, z: nat)
    requires y < z && x > 0
    ensures x * y < x * z
  {
  }

  /** Smoothing never drives the interrupt beyond 16 kHz, a period of 1000 cycles, and always uses
      the highest level that keeps to this. */
  lemma AmassRate(cycles: nat)
    ensures var level := AmassLevel(cycles);
            && (level > 0 ==> Shr(cycles, level) >= 1000)
            && (level < MAX_AMASS_LEVEL ==> Shr(cycles, level + 1) < 1000)
  {
  }

  /** A block to be entered at v, left at x and run at n. */
  ghost predicate Asked(v: real, mm: real, a: real, inv: real, x: real, n: real) {
    && mm > 0.0 && a > 0.0 && inv == 0.5 / a && 0.0 <= v && 0.0 <= x && 0.0 < n
    && Sqr(x) <= Sqr(n) && Sqr(x) <= Sqr(v) + Gain(a, mm)
  }

  /** At n at most, and with length enough to brake in. */
  ghost predicate Bounds(v: real, mm: real, a: real, inv: real, x: real, n: real) {
    Asked(v, mm, a, inv, x, n) && Sqr(v) <= Sqr(n) && Sqr(v) <= Sqr(x) + Gain(a, mm)
  }

  /** Where acceleration from the entry speed and deceleration to the exit speed meet. */
  function Intersect(v: real, mm: real, inv: real, x: real): real {
    0.5 * (mm + Span(inv, Sqr(x), Sqr(v)))
  }

  lemma ProfileBounds(v: real, mm: real, a: real, inv: real, x: real, n: real)
    requires Asked(v, mm, a, inv, x, n)
    ensures n * n == Sqr(n) && x <= n && 0.0 <= Intersect(v, mm, inv, x)
    ensures Sqr(v) <= Sqr(n) ==> v <= n
    ensures Sqr(v) > Sqr(x) + Gain(a, mm) <==> Intersect(v, mm, inv, x) > mm
    ensures Intersect(v, mm, inv, x) == 0.0 ==> Sqr(v) <= Sqr(x) + Gain(a, mm)
    ensures Gain(a, Intersect(v, mm, inv, x)) >= 0.0
  {
    assert n * n == Sqr(n) && Sqr(v) >= 0.0;
    hide Sqr, Gain, Span;
    SqMonotone(v, n); SqMonotone(x, n);
    var sp := Span(inv, Sqr(x), Sqr(v));
    SpanGain(a, inv, Sqr(x), Sqr(v));
    GainLinear(a, mm, sp); GainLinear(a, sp, mm); GainLinear(a, -mm, sp); GainLinear(a, 0.0, mm);
    GainLinear(a, 0.0, Intersect(v, mm, inv, x));
  }

  /** Entered above nominal speed: where that is reached, and how long it may be kept. */
  lemma OverrideBounds(v: real, mm: real, a: real, inv: real, x: real, n: real)
    requires Asked(v, mm, a, inv, x, n) && Sqr(v) > Sqr(n)
    ensures var acc, dec := mm - Span(inv, Sqr(n), Sqr(v)), Span(inv, Sqr(x), Sqr(n));
            && n < v && 0.0 <= dec && acc < mm && Gain(a, mm - acc) == Sqr(v) - Sqr(n)
            && Gain(a, dec) == Sqr(n) - Sqr(x)
            && (acc <= 0.0 <==> Sqr(v) - Gain(a, mm) >= Sqr(n))
            && (dec <= acc <==> Sqr(v) <= Sqr(x) + Gain(a, mm))
            && Sqr(n) >= 0.0
  {
    assert Sqr(n) >= 0.0;
    hide Sqr, Gain, Span;
    var acc, dec := mm - Span(inv, Sqr(n), Sqr(v)), Span(inv, Sqr(x), Sqr(n));
    SpanGain(a, inv, Sqr(n), Sqr(v)); SpanGain(a, inv, Sqr(x), Sqr(n));
    SqMonotone(v, n);
    GainLinear(a, acc, 0.0); GainLinear(a, 0.0, dec); GainLinear(a, mm, acc); GainLinear(a, acc, mm);
    GainLinear(a, dec, acc); GainLinear(a, 0.0, mm - acc); GainLinear(a, mm - acc, 0.0);
  }

  /** Braking all through the block. */
  lemma FullBraking(v: real, mm: real, a: real, p: Profile)
    requires mm > 0.0 && 0.0 <= v && p.mmComplete == 0.0 && 0.0 <= p.exitSpeed
             && Sqr(p.exitSpeed) == Sqr(v) - Gain(a, mm)
    ensures OnRamp(DECEL, v, mm, a, p)
  {
    hide Sqr, Gain;
  }

  /** Braking to nominal speed first is in order exactly if there is length enough to brake to the exit speed. */
  lemma Overridden(v: real, mm: real, a: real, inv: real, x: real, n: real, p: Profile)
    requires Asked(v, mm, a, inv, x, n) && Sqr(v) > Sqr(n)
    requires p == Profile(0.0, n, x, mm - Span(inv, Sqr(n), Sqr(v)), Span(inv, Sqr(x), Sqr(n)))
             && p.accelerateUntil > 0.0
    ensures OnRamp(DECEL_OVERRIDE, v, mm, a, p) <==> Sqr(v) <= Sqr(x) + Gain(a, mm)
    ensures Running(Point(DECEL_OVERRIDE, v, mm), a, p)
  {
    hide Sqr, Gain, Span;
    OverrideBounds(v, mm, a, inv, x, n);
  }

  /** Otherwise the cruise after it runs backward, to where braking should have begun, in negative time. */
  lemma OverriddenTooLate(v: real, mm: real, a: real, inv: real, x: real, n: real, p: Profile, t0: real, y: Point,
                          t: real)
    requires Asked(v, mm, a, inv, x, n) && Sqr(v) > Sqr(n) && Sqr(v) > Sqr(x) + Gain(a, mm)
    requires p == Profile(0.0, n, x, mm - Span(inv, Sqr(n), Sqr(v)), Span(inv, Sqr(x), Sqr(n)))
             && p.accelerateUntil > 0.0
    requires t0 > 0.0 && Passes(Point(CRUISE, n, p.accelerateUntil), t0, y, t, a, p)
    ensures y == Point(DECEL, n, p.decelerateAfter) && y.mm > p.accelerateUntil && t < 0.0
  {
    hide Sqr, Gain, Span;
    OverrideBounds(v, mm, a, inv, x, n);
    Positive(n, t0);
  }

  lemma Trapezoid(v: real, mm: real, a: real, inv: real, x: real, n: real)
    requires Bounds(v, mm, a, inv, x, n) && Span(inv, Sqr(x), Sqr(n)) < Intersect(v, mm, inv, x)
    ensures var dec, acc := Span(inv, Sqr(x), Sqr(n)), mm - Span(inv, Sqr(v), Sqr(n));
            && (Sqr(v) == Sqr(n) ==> OnRamp(CRUISE, v, mm, a, Profile(0.0, n, x, mm, dec)))
            && OnRamp(ACCEL, v, mm, a, Profile(0.0, n, x, acc, dec)) && 0.0 <= acc <= mm
  {
    TrapezoidBounds(v, mm, a, inv, x, n);
    hide Sqr, Gain, Span, Intersect;
  }

  lemma TrapezoidBounds(v: real, mm: real, a: real, inv: real, x: real, n: real)
    requires Bounds(v, mm, a, inv, x, n) && Span(inv, Sqr(x), Sqr(n)) < Intersect(v, mm, inv, x)
    ensures var dec, acc := Span(inv, Sqr(x), Sqr(n)), mm - Span(inv, Sqr(v), Sqr(n));
            && Gain(a, dec) == Sqr(n) - Sqr(x) && Gain(a, mm - acc) == Sqr(n) - Sqr(v) && 0.0 <= dec < acc <= mm
            && (Sqr(v) == Sqr(n) ==> v == n)
  {
    hide Sqr, Gain, Span;
    SqMonotone(v, n);
    ProfileArithmetic(mm, a, inv, Sqr(v), Sqr(x), Sqr(n));
  }

  lemma Triangle(v: real, mm: real, a: real, inv: real, x: real, n: real, peak: real)
    requires Bounds(v, mm, a, inv, x, n) && Span(inv, Sqr(x), Sqr(n)) >= Intersect(v, mm, inv, x) > 0.0
    requires 0.0 <= peak && Sqr(peak) == Gain(a, Intersect(v, mm, inv, x)) + Sqr(x)
    ensures var cross := Intersect(v, mm, inv, x);
            && OnRamp(ACCEL, v, mm, a, Profile(0.0, peak, x, cross, cross)) && 0.0 < peak <= n && cross <= mm
  {
    assert Sqr(0.0) == 0.0;
    hide Sqr, Gain, Span;
    var cross := Intersect(v, mm, inv, x);
    GainLinear(a, cross, 0.0);
    SqMonotone(peak, n); SqMonotone(0.0, peak); SqMonotone(0.0, x);
    ProfileArithmetic(mm, a, inv, Sqr(v), Sqr(x), Sqr(n));
  }

  lemma OneRamp(v: real, mm: real, a: real, inv: real, x: real, n: real, p: Profile)
    requires Asked(v, mm, a, inv, x, n) && Sqr(v) <= Sqr(n) && p.mmComplete == 0.0 && p.exitSpeed == x
    ensures Intersect(v, mm, inv, x) >= mm ==> (OnRamp(DECEL, v, mm, a, p) <==> Sqr(v) <= Sqr(x) + Gain(a, mm))
    ensures Intersect(v, mm, inv, x) <= 0.0 && p.accelerateUntil == 0.0 && p.maximumSpeed == x ==>
              OnRamp(ACCEL, v, mm, a, p) && 0.0 < x
  {
    assert Sqr(0.0) == 0.0;
    hide Sqr, Gain, Span;
    ProfileBounds(v, mm, a, inv, x, n);
    if Sqr(v) <= Sqr(x) + Gain(a, mm) { ProfileArithmetic(mm, a, inv, Sqr(v), Sqr(x), Sqr(n)); }
    GainLinear(a, mm, 0.0);
    SqMonotone(0.0, x); SqMonotone(0.0, v);
  }

  lemma ProfileArithmetic(mm: real, a: real, inv: real, entry: real, exit: real, nominal: real)
    requires mm > 0.0 && a > 0.0 && inv == 0.5 / a
    requires 0.0 <= entry <= nominal && 0.0 <= exit <= nominal
    requires entry <= exit + Gain(a, mm) && exit <= entry + Gain(a, mm)
    ensures var cross := 0.5 * (mm + Span(inv, exit, entry)); var dec := Span(inv, exit, nominal);
            var acc := mm - Span(inv, entry, nominal);
            && inv > 0.0 && 0.0 <= cross <= mm && 0.0 <= dec && acc <= mm
            && Gain(a, dec) == nominal - exit && Gain(a, mm - acc) == nominal - entry
            && Gain(a, cross) == 0.5 * (Gain(a, mm) + entry - exit)
            && Gain(a, mm - cross) == 0.5 * (Gain(a, mm) - entry + exit)
            && (cross == 0.0 ==> exit == entry + Gain(a, mm))
            && (cross == mm ==> entry == exit + Gain(a, mm))
            && (dec < cross ==> dec < acc)
            && (dec >= cross ==> Gain(a, cross) + exit <= nominal)
  {
    hide Gain, Span;
    var sp, dec, up := Span(inv, exit, entry), Span(inv, exit, nominal), Span(inv, entry, nominal);
    SpanGain(a, inv, exit, entry); SpanGain(a, inv, exit, nominal); SpanGain(a, inv, entry, nominal);
    var cross, acc := 0.5 * (mm + sp), mm - up;
    GainMid(a, mm, sp);
    GainLinear(a, mm, up); GainLinear(a, mm, cross); GainLinear(a, mm, acc);
    GainLinear(a, cross, mm); GainLinear(a, 0.0, cross); GainLinear(a, cross, 0.0);
    GainLinear(a, 0.0, dec); GainLinear(a, 0.0, up); GainLinear(a, cross, dec); GainLinear(a, acc, dec);
  }

  lemma SpanGain(a: real, inv: real, low: real, high: real)
    requires a > 0.0 && inv == 0.5 / a
    ensures inv > 0.0 && Gain(a, Span(inv, low, high)) == high - low
  {
    assert 2.0 * a * inv == 1.0;
    assert 2.0 * a * (inv * (high - low)) == (2.0 * a * inv) * (high - low);
  }

  lemma GainMid(a: real, x: real, y: real)
    ensures Gain(a, 0.5 * (x + y)) == 0.5 * (Gain(a, x) + Gain(a, y))
  {
  }
}
