/** The whole segment generator (st_prep_buffer in stepper.c) on top of the planner, the profile
    arithmetic and the rings: every segment it cuts keeps the queue re-plannable at any moment, and
    across holds, resumes and re-planning the steps of a block all leave in its segments. */
module Generator {
  import opened Machine
  import opened PlannerSpec
  import opened Planner
  import opened StepQueue
  import opened Stepper
  import opened CoreXY
  import opened Prep
  import opened Bresenham

  function Entry(w: seq<Node>): real {
    if |w| > 0 then w[0].entry else 0.0
  }

  /** The tail block with some length left, at some speed. */
  lemma SeenAt(b: Block, mm: real, speed: real)
    ensures Seen(b.(millimeters := mm), true, speed) == Node(Sqr(speed), b.maxEntrySpeedSqr, Gain(b.acceleration, mm))
    ensures NodeOf(b).reach == Gain(b.acceleration, b.millimeters)
  {
  }

  lemma LongBlock(a: real, mm: real)
    requires Gain(a, mm) > 0.0 && a >= 0.0 && mm >= 0.0
    ensures a > 0.0 && mm > 0.0
  {
  }

  /** A segment cut in normal operation leaves a pair of speed and length the plan can go on from. */
  lemma CutProgresses(w: seq<Node>, p: nat, v: real, a: real, before: real, mm: real, x: real)
    requires QueueOk(w, p) && w[0].reach == Gain(a, before) && a > 0.0 && 0.0 <= mm <= before
    requires Sqr(x) == ExitOf(w) && Sqr(v) <= w[0].entry + Gain(a, before - mm)
    requires Sqr(v) <= Sqr(x) + Gain(a, mm) && Sqr(x) <= Sqr(v) + Gain(a, mm)
    ensures Progresses(w, w[0 := Node(Sqr(v), w[0].max, Gain(a, mm))])
  {
    hide Plan, Rev, Pinned, Sqr, Gain;
    ExitReachable(w, p);
    GainLinear(a, before, mm); GainLinear(a, mm, before); GainLinear(a, 0.0, mm);
  }

  /** A segment cut during a hold only slows the machine down. */
  lemma CutSlows(w: seq<Node>, v: real, a: real, before: real, mm: real, x: real, end: real)
    requires |w| > 0 && w[0].reach == Gain(a, before) && a > 0.0 && 0.0 <= mm <= before
    requires w[0].entry == Sqr(x) + Gain(a, before - end) && Sqr(v) == Sqr(x) + Gain(a, mm - end)
    ensures Slows(w, w[0 := Node(Sqr(v), w[0].max, Gain(a, mm))])
  {
    hide Sqr, Gain;
    GainLinear(a, before, mm); GainLinear(a, mm, before); GainLinear(a, 0.0, mm);
    GainLinear(a, before, end); GainLinear(a, mm, end);
    assert Sqr(v) >= 0.0;
  }

  /** Entering the next block, a hold is at most as fast as planned. */
  lemma HoldEntersNext(w: seq<Node>, u: seq<Node>)
    requires HeldOk(w) && Slows(w, u) && u[0].reach == 0.0
    ensures u[0].entry <= ExitOf(w)
  {
    SlowPlan(w, u);
    if |u| > 1 { assert u[1 - 1].entry <= u[1].entry + u[1 - 1].reach && u[1] == u[1..][0] == w[1..][0]; }
  }

  lemma ExactSteps(n: nat, mm: real)
    requires mm > 0.0
    ensures Ceil(n as real / mm * mm) == n && (n > 0 ==> n as real / mm > 0.0)
  {
    assert n as real / mm * mm == n as real;
  }

  /** What the generator's invariant is about: the planner queue and the block at its tail, the
      planner's idea of the executing block, the steps not yet cut, and the generator's own state. */
  datatype View = View(
    queue: seq<Node>, tail: Block, nominal: real, prepping: bool, recalculate: bool, plannerSpeed: real, remaining: nat,
    ramp: Ramp, speed: real, profile: Profile, stepPerMm: real, hold: bool, endMotion: bool)

  /** Of the block being cut, the whole steps left are those of the length left. */
  ghost predicate Counted(x: View) {
    x.remaining > 0 ==> x.stepPerMm > 0.0 && x.remaining == Ceil(x.stepPerMm * x.tail.millimeters)
  }

  /** The profile leads to the planned exit speed as fast as nominal speed and acceleration allow, or
      during a hold to a standstill. */
  ghost predicate Profiled(x: View) {
    x.prepping && !x.endMotion ==>
      && x.tail.acceleration > 0.0
      && OnRamp(x.ramp, x.speed, x.tail.millimeters, x.tail.acceleration, x.profile)
      && (x.profile.mmComplete < x.tail.millimeters || x.ramp == DECEL)
      && if x.hold then x.ramp == DECEL && (x.profile.exitSpeed == 0.0 || x.profile.mmComplete == 0.0)
         else
           && x.profile.mmComplete == 0.0 && Sqr(x.profile.exitSpeed) == ExitOf(x.queue) && x.ramp != DECEL_OVERRIDE
           && Peaks(x.ramp, x.speed, x.tail.millimeters, x.tail.acceleration, x.profile, x.nominal)
  }

  /** The generator and the planner agree on the current speed; between blocks the speed the last
      one was left with does not exceed the planned entry into the next. */
  ghost predicate SpeedsOk(x: View) {
    && 0.0 <= x.speed && 0.0 <= x.profile.exitSpeed
    && (x.prepping ==> x.speed == x.plannerSpeed && !x.recalculate)
    && (x.recalculate ==> Sqr(x.speed) == Entry(x.queue))
    && (!x.recalculate && !x.prepping ==> Sqr(x.profile.exitSpeed) <= Entry(x.queue))
  }

  ghost predicate Ok(x: View) {
    AllLong(x.queue) && Counted(x) && Profiled(x) && SpeedsOk(x)
  }

  lemma StartOk(x: View)
    requires x.queue == [] && !x.prepping && !x.recalculate && x.remaining == 0
    requires x.speed == x.profile.exitSpeed == 0.0
    ensures Ok(x)
  {
    assert Sqr(0.0) == 0.0;
  }

  /** Taking up a block in state x leaves state y. */
  lemma LoadOk(x: View, y: View)
    requires Ok(x) && |x.queue| > 0 && !x.prepping
    requires y.queue == x.queue[0 := x.queue[0].(entry := Sqr(y.speed))]
    requires y.prepping && !y.recalculate && y.plannerSpeed == y.speed >= 0.0 && y.profile.exitSpeed >= 0.0
    requires y.tail.millimeters == x.tail.millimeters
    requires if x.recalculate then y.remaining == x.remaining && y.stepPerMm == x.stepPerMm
             else y.stepPerMm > 0.0 && y.remaining == Ceil(y.stepPerMm * y.tail.millimeters)
    requires Profiled(y)
    ensures Ok(y)
  {
    hide Sqr, OnRamp;
  }

  /** What cutting a segment of n steps, leaving mm, makes of the generator's state x. */
  ghost predicate Segmented(x: View, y: View, n: nat, mm: real) {
    var a, p := x.tail.acceleration, x.profile;
    && y == x.(ramp := y.ramp, speed := y.speed)
    && 0.0 <= mm <= x.tail.millimeters && p.mmComplete <= mm
    && n <= x.remaining && n == x.remaining - Ceil(x.stepPerMm * mm) && (mm == 0.0 <==> n == x.remaining)
    && 0.0 <= y.speed && MeetsExit(y.speed, mm, a, p) && (mm > p.mmComplete ==> OnRamp(y.ramp, y.speed, mm, a, p))
    && Sqr(y.speed) <= Sqr(x.speed) + Gain(a, x.tail.millimeters - mm)
    && (x.ramp == DECEL ==> y.ramp == DECEL && Sqr(y.speed) == Sqr(p.exitSpeed) + Gain(a, mm - p.mmComplete))
    && (!x.hold && mm > 0.0 ==> Peaks(y.ramp, y.speed, mm, a, p, x.nominal))
    && (ToMaximum(y.ramp) ==> y.ramp == x.ramp) && (!x.hold ==> Sqr(y.speed) <= Sqr(x.nominal))
  }

  /** The queue entry of the executing block, and that of the block once cut to mm. */
  function Head(x: View): Node {
    Node(Sqr(x.speed), x.tail.maxEntrySpeedSqr, Gain(x.tail.acceleration, x.tail.millimeters))
  }

  function HeadAfter(x: View, y: View, mm: real): Node {
    Node(Sqr(y.speed), x.tail.maxEntrySpeedSqr, Gain(x.tail.acceleration, mm))
  }

  ghost predicate CutReady(x: View) {
    && Ok(x) && x.prepping && !x.endMotion && |x.queue| > 0 && x.queue[0] == Head(x)
    && x.tail.acceleration > 0.0 && x.remaining > 0
  }

  lemma CutAllowed(x: View, y: View, n: nat, mm: real, p: nat)
    requires CutReady(x) && Segmented(x, y, n, mm)
    requires if x.hold then HeldOk(x.queue) else QueueOk(x.queue, p)
    ensures var u := x.queue[0 := HeadAfter(x, y, mm)];
            if x.hold then Slows(x.queue, u) else Progresses(x.queue, u)
    ensures mm == 0.0 ==> Sqr(x.profile.exitSpeed) <= ExitOf(x.queue)
    ensures !x.hold ==> x.profile.mmComplete == 0.0
  {
    hide Gain, Sqr, OnRamp, HeldOk, QueueOk, Slows, Progresses, Profiled, Counted, SpeedsOk, MeetsExit, Ceil;
    var w, a, u := x.queue, x.tail.acceleration, x.queue[0 := HeadAfter(x, y, mm)];
    ProfileFacts(x);
    MeetsFacts(y.speed, mm, a, x.profile);
    GainLinear(a, 0.0, 0.0);
    if x.hold {
      CutSlows(w, y.speed, a, x.tail.millimeters, mm, x.profile.exitSpeed, x.profile.mmComplete);
      if mm == 0.0 { HoldEntersNext(w, u); }
    } else {
      CutProgresses(w, p, y.speed, a, x.tail.millimeters, mm, x.profile.exitSpeed);
    }
  }

  lemma ProfileFacts(x: View)
    requires CutReady(x)
    ensures 0.0 <= x.profile.mmComplete
    ensures x.hold ==>
              && x.ramp == DECEL
              && Sqr(x.speed) == Sqr(x.profile.exitSpeed)
                + Gain(x.tail.acceleration, x.tail.millimeters - x.profile.mmComplete)
    ensures !x.hold ==> x.profile.mmComplete == 0.0 && Sqr(x.profile.exitSpeed) == ExitOf(x.queue)
  {
    hide Gain, Sqr, Counted, SpeedsOk;
  }

  /** No faster than nominal, whether still accelerating or not. */
  lemma NotAboveNominal(ramp: Ramp, was: real, v: real, maximum: real, nominal: real)
    requires 0.0 <= v && 0.0 <= was && 0.0 <= nominal && Sqr(was) <= Sqr(nominal)
    requires if ramp == ACCEL then v <= maximum <= nominal else v <= was
    ensures Sqr(v) <= Sqr(nominal)
  {
    SqMonotone(was, nominal);
    SqMonotone(v, nominal);
  }

  lemma PeakBelow(ramp: Ramp, v: real, mm: real, a: real, p: Profile, n: real)
    requires Peaks(ramp, v, mm, a, p, n)
    ensures ramp == ACCEL ==> p.maximumSpeed <= n
  {
  }

  lemma MeetsFacts(v: real, mm: real, a: real, p: Profile)
    requires MeetsExit(v, mm, a, p)
    ensures Sqr(v) <= Sqr(p.exitSpeed) + Gain(a, mm - p.mmComplete)
    ensures Sqr(p.exitSpeed) <= Sqr(v) + Gain(a, mm - p.mmComplete)
  {
  }

  /** A segment cut within the block. */
  lemma CutOk(x: View, y: View, n: nat, mm: real, z: View)
    requires CutReady(x) && Segmented(x, y, n, mm) && 0.0 < mm
    requires z == y.(queue := x.queue[0 := HeadAfter(x, y, mm)], tail := x.tail.(millimeters := mm),
                     plannerSpeed := y.speed, remaining := x.remaining - n, endMotion := mm == x.profile.mmComplete)
    ensures Ok(z)
  {
    assert Gain(x.tail.acceleration, mm) > 0.0 by { Positive(x.tail.acceleration, mm); }
    hide Sqr, OnRamp, Gain;
  }

  lemma FinishOk(x: View, y: View)
    requires Ok(x) && x.prepping && !x.endMotion && |x.queue| > 0
    requires y.queue == x.queue[1..] && !y.prepping && !y.recalculate && y.remaining == 0
    requires y.profile == x.profile && y.speed >= 0.0
    requires Sqr(x.profile.exitSpeed) <= ExitOf(x.queue)
    ensures Ok(y)
  {
    hide Sqr, OnRamp;
  }

  lemma StopOk(x: View, y: View)
    requires Ok(x) && x.prepping && |x.queue| > 0 && y.endMotion
    requires y.queue == x.queue[0 := x.queue[0].(entry := 0.0)]
    requires y.prepping && !y.recalculate && y.speed == y.plannerSpeed == 0.0
    requires y.profile == x.profile && y.tail == x.tail && y.remaining == x.remaining && y.stepPerMm == x.stepPerMm
    ensures Ok(y)
  {
    hide Sqr, OnRamp;
  }

  lemma OkLong(x: View)
    requires Ok(x)
    ensures AllLong(x.queue)
  {
  }

  lemma WithPlanHead(w: seq<Node>)
    requires |w| > 0
    ensures |WithPlan(w)| > 0 && WithPlan(w)[0] == w[0]
  {
  }

  lemma StandsStill(v: real, x: real, a: real, mm: real, end: real)
    requires x == 0.0 <= v && mm == end && Sqr(v) == Sqr(x) + Gain(a, mm - end)
    ensures v == 0.0 == Sqr(v)
  {
    assert Sqr(x) == 0.0;
    SqMonotone(v, x);
  }

  /** The planner has changed speeds or appended a block: state x becomes y. */
  lemma ReplannedOk(x: View, y: View)
    requires Ok(x) && AllLong(y.queue) && Entry(y.queue) == Entry(x.queue)
    requires y == x.(queue := y.queue, tail := y.tail, nominal := y.nominal, prepping := y.prepping,
                     recalculate := y.recalculate, hold := y.hold, endMotion := y.endMotion)
    requires x.prepping ==> Entry(x.queue) == Sqr(x.plannerSpeed)
    requires x.remaining > 0 ==> y.tail.millimeters == x.tail.millimeters && y.tail.acceleration == x.tail.acceleration
    requires (x.prepping || x.recalculate <==> y.prepping || y.recalculate) && !(y.prepping && y.recalculate)
    requires y.prepping ==>
               && x.prepping && x.remaining > 0 && y.hold == x.hold && y.endMotion == x.endMotion
               && y.nominal == x.nominal && ExitOf(y.queue) == ExitOf(x.queue)
    ensures Ok(y)
  {
    hide Sqr, OnRamp;
  }

  lemma StillLong(w: seq<Node>)
    requires AllLong(w)
    ensures AllLong(WithPlan(w))
  {
    hide Plan;
  }

  class SegmentGenerator {
    const motion: Motion
    const prep: PrepState
    /** prep.step_per_mm */
    var stepPerMm: real
    /** STEP_CONTROL_EXECUTE_HOLD and STEP_CONTROL_END_MOTION */
    var hold: bool
    var endMotion: bool

    ghost function Now(): View
      requires motion.planner.Indices()
      reads this, motion, motion.planner, motion.planner.buf, motion.stepper, prep
    {
      var pl := motion.planner;
      View(pl.Queue(), pl.buf[pl.tail], pl.buf[pl.tail].NominalSpeedUnder(pl.fOverride, pl.rOverride), pl.prepping,
           pl.recalculate, pl.currentSpeed, motion.stepper.queue.remaining,
           prep.rampType, prep.currentSpeed, prep.P(), stepPerMm, hold, endMotion)
    }

    ghost predicate Valid()
      reads this, motion, motion.planner, motion.planner.buf, motion.stepper, motion.stepper.stBlocks,
            motion.stepper.segments, prep
    {
      && motion.planner.Indices() && motion.Valid() && (!hold ==> motion.planner.Valid())
      && IsSqrt(prep.sqrt) && prep.InTime() && Ok(Now())
    }

    constructor (sysPosition: Axes<int>, fOverride: nat, rOverride: nat, sqrt: real -> real)
      requires IsSqrt(sqrt)
      ensures Valid() && !hold && !endMotion
      ensures fresh(motion) && fresh(motion.planner) && fresh(motion.planner.buf) && fresh(prep)
      ensures fresh(motion.stepper) && fresh(motion.stepper.stBlocks) && fresh(motion.stepper.segments)
    {
      hide *;
      motion := new Motion(sysPosition, fOverride, rOverride);
      prep := new PrepState(sqrt);
      stepPerMm, hold, endMotion := 0.0, false, false;
      new;
      InitRemains(sysPosition);
      Started();
    }

    lemma Started()
      requires motion.Valid() && motion.planner.Valid() && motion.planner.Count() == 0 && !hold
      requires !motion.planner.prepping && !motion.planner.recalculate && motion.stepper.queue.remaining == 0
      requires IsSqrt(prep.sqrt) && prep.InTime() && prep.currentSpeed == prep.exitSpeed == 0.0
      ensures Valid()
    {
      hide Motion.Valid, PlannerState.Valid, PlannerState.Held, PlannerState.Queue, IsSqrt, Ok;
      motion.Parts();
      StartOk(Now());
    }

    /** Compute the velocity profile of the block just taken up. */
    method ProfileTail()
      requires motion.planner.Held() && motion.planner.Count() > 0 && !endMotion && (!hold ==> motion.planner.Valid())
      requires var b := motion.planner.buf[motion.planner.tail]; var w := motion.planner.Queue();
               && b.acceleration > 0.0 && b.millimeters > 0.0 && w[0].reach == Gain(b.acceleration, b.millimeters)
               && prep.currentSpeed >= 0.0 && Sqr(prep.currentSpeed) == w[0].entry
      requires IsSqrt(prep.sqrt) && prep.InTime()
      modifies prep
      ensures prep.InTime() && prep.currentSpeed == old(prep.currentSpeed) && 0.0 <= prep.exitSpeed && Profiled(Now())
    {
      hide PlannerState.Valid, PlannerState.Held, PlannerState.Queue, QueueOk, HeldOk, Gain, Sqr, IsSqrt, OnRamp;
      hide NominalSpeed;
      var b := motion.planner.buf[motion.planner.tail];
      if hold {
        prep.ComputeHoldProfile(b.millimeters, b.acceleration, Sqr(prep.currentSpeed));
      } else {
        motion.planner.ValidQueue();
        ExitReachable(motion.planner.Queue(), motion.planner.PlannedOffset());
        motion.planner.TailPace();
        var nominalSpeed := b.NominalSpeedUnder(motion.planner.fOverride, motion.planner.rOverride);
        var exitSpeedSqr := motion.planner.PlanGetExecBlockExitSpeedSqr();
        var decelOverride :=
          prep.ComputeProfile(b.millimeters, b.acceleration, Sqr(prep.currentSpeed), exitSpeedSqr, nominalSpeed);
      }
    }

    /** In operation the profile of the block being cut is as fast, at every point of the length left, as the
        acceleration, the planned exit speed and nominal speed allow. */
    lemma FollowsFastest()
      requires Valid() && motion.planner.prepping && !endMotion && !hold && motion.planner.Count() > 0
      ensures var b, w := motion.planner.buf[motion.planner.tail], motion.planner.Queue();
              var nominal := b.NominalSpeedUnder(motion.planner.fOverride, motion.planner.rOverride);
              && w[0].entry == Sqr(prep.currentSpeed) && Sqr(prep.exitSpeed) == ExitOf(w) && nominal > 0.0
              && forall x | 0.0 <= x <= b.millimeters ::
                   Curve(prep.rampType, prep.P(), b.acceleration, x)
                   == Best(w[0].entry, ExitOf(w), Sqr(nominal), b.acceleration, b.millimeters, x)
    {
      CutFacts();
      var b := motion.planner.buf[motion.planner.tail];
      var nominal := b.NominalSpeedUnder(motion.planner.fOverride, motion.planner.rOverride);
      SeenAt(b, b.millimeters, prep.currentSpeed);
      motion.planner.TailNode();
      motion.Parts();
      hide Motion.Valid, PlannerState.Valid, PlannerState.Held, PlannerState.Queue, Sqr, Gain, OnRamp, Peaks,
           NominalSpeed,
           Curve, Best;
      PeaksEverywhere(prep.rampType, prep.currentSpeed, b.millimeters, b.acceleration, prep.P(), nominal);
    }

    /** Take up the first planner block, a new one or one released for re-planning, and compute its
        velocity profile. */
    method LoadProfile()
      requires Valid() && !motion.planner.prepping && motion.planner.Count() > 0 && !endMotion
      requires |motion.stepper.queue.pieces| < SEGMENT_BUFFER_SIZE - 1
      modifies this`stepPerMm, prep, motion`history, motion.planner, motion.planner.buf, motion.stepper,
               motion.stepper.stBlocks
      ensures Valid() && motion.planner.prepping
      ensures motion.stepper.queue.pieces == old(motion.stepper.queue.pieces)
      ensures motion.history == if old(motion.planner.recalculate) then old(motion.history)
              else old(motion.history) + [OpLoad(old(motion.planner.buf[motion.planner.tail]).Move())]
      ensures motion.Owing() == old(motion.Owing())
      ensures motion.planner.position == old(motion.planner.position)
              && motion.stepper.enabled == old(motion.stepper.enabled)
    {
      hide Motion.Valid, Motion.Owing, PlannerState.Valid, PlannerState.Held, PlannerState.Queue;
      hide QueueOk, HeldOk, Gain, Sqr, IsSqrt, Ok, StepperState.Valid, PlannerState.Moves, OnRamp, Counted, Profiled,
           Ceil, NominalSpeed;
      ghost var x := Now();
      LoadFacts();
      var b := motion.planner.buf[motion.planner.tail];
      if !motion.planner.recalculate {
        stepPerMm := b.stepEventCount as real / b.millimeters;
        prep.Restart();
        ExactSteps(b.stepEventCount, b.millimeters);
        if hold {
          prep.currentSpeed := prep.exitSpeed;
        } else {
          prep.currentSpeed := prep.sqrt(b.entrySpeedSqr);
          SqrtLaw(prep.sqrt, b.entrySpeedSqr);
        }
      }
      motion.TakeBlock(prep.currentSpeed, hold);
      motion.Parts();
      ProfileTail();
      LoadOk(x, Now());
    }

    /** Cut one segment off the block: at least one step, unless a hold ends with less than one left. */
    method Cut() returns (n: nat, level: nat)
      requires Valid() && motion.planner.prepping && !endMotion
      requires |motion.stepper.queue.pieces| < SEGMENT_BUFFER_SIZE - 1
      modifies this`endMotion, prep, motion`history, motion.planner, motion.planner.buf, motion.stepper,
               motion.stepper.segments
      ensures Valid() && (endMotion ==> hold)
      ensures n == 0 ==> hold && endMotion && motion.stepper.queue == old(motion.stepper.queue)
      ensures !motion.planner.prepping ==> prep.dtRemainder == 0.0 && prep.executed == prep.accounted
      ensures !hold ==>
                var x := old(Now());
                var mm := if motion.planner.prepping then motion.planner.buf[motion.planner.tail].millimeters else 0.0;
                Sqr(prep.currentSpeed)
                == Best(Entry(x.queue), ExitOf(x.queue), Sqr(x.nominal), x.tail.acceleration, x.tail.millimeters, mm)
      ensures motion.Owing() <= old(motion.Owing())
      ensures motion.planner.position == old(motion.planner.position)
              && motion.stepper.enabled == old(motion.stepper.enabled)
      ensures motion.history == if n > 0 then old(motion.history) + [OpCommit(n, level)] else old(motion.history)
      ensures n > 0 ==> n <= old(motion.stepper.queue.remaining) && level <= MAX_AMASS_LEVEL
                        && motion.stepper.queue == Commit(old(motion.stepper.queue), n, level)
    {
      hide Motion.Valid, Motion.Owing, PlannerState.Valid, PlannerState.Held, PlannerState.Queue;
      hide QueueOk, HeldOk, Gain, Sqr, IsSqrt, StepperState.Valid, PlannerState.Moves, OnRamp, Ceil, AllLong,
           NominalSpeed;
      hide Profiled, SpeedsOk, Counted, MeetsExit, Best, Curve, Peaks;
      CutFacts();
      ghost var x := Now();
      var mm: real;
      n, level, mm := CutProfile();
      if n == 0 {
        endMotion := true;
        StandsStill(prep.currentSpeed, prep.exitSpeed, x.tail.acceleration, mm, prep.mmComplete);
        motion.SlowTo(prep.currentSpeed);
        motion.Parts();
        StopOk(x, Now());
      } else {
        HandOver(x, n, level, mm);
      }
    }

    /** The velocity profile is followed through one segment. */
    method CutProfile() returns (n: nat, level: nat, mm: real)
      requires Valid() && motion.planner.prepping && !endMotion
      modifies prep
      ensures prep.InTime() && level <= MAX_AMASS_LEVEL
      ensures mm == 0.0 ==> prep.dtRemainder == 0.0 && prep.executed == prep.accounted
      ensures Segmented(old(Now()), Now(), n, mm)
      ensures n == 0 ==>
                && hold && mm == prep.mmComplete > 0.0 && prep.exitSpeed == 0.0 <= prep.currentSpeed
                && Sqr(prep.currentSpeed) == Sqr(prep.exitSpeed)
                  + Gain(old(Now()).tail.acceleration, mm - prep.mmComplete)
      ensures !hold ==>
                var x := old(Now());
                Sqr(prep.currentSpeed)
                == Best(Entry(x.queue), ExitOf(x.queue), Sqr(x.nominal), x.tail.acceleration, x.tail.millimeters, mm)
    {
      hide Motion.Valid, Motion.Owing, PlannerState.Valid, PlannerState.Held, PlannerState.Queue;
      hide QueueOk, HeldOk, Gain, Sqr, IsSqrt, StepperState.Valid, PlannerState.Moves, OnRamp, Ceil, AllLong,
           NominalSpeed;
      hide Loop, Done, Prep.Total, AmassLevel, CyclesPerTick, MinimumMm, Curve, Best, Peaks;
      CutFacts();
      if !hold { FollowsFastest(); }
      ghost var x := Now();
      if !hold { PeakBelow(x.ramp, x.speed, x.tail.millimeters, x.tail.acceleration, x.profile, x.nominal); }
      var b := motion.planner.buf[motion.planner.tail];
      var cyclesPerTick: int;
      ghost var passes: seq<Pass>;
      OnIsRunning(Point(prep.rampType, prep.currentSpeed, b.millimeters), b.acceleration, prep.P());
      n, level, mm, cyclesPerTick, passes :=
        prep.PrepSegment(b.millimeters, b.acceleration, motion.stepper.stepsRemaining, stepPerMm, hold);
      if !hold { NotAboveNominal(x.ramp, x.speed, prep.currentSpeed, x.profile.maximumSpeed, x.nominal); }
    }

    lemma HandFacts(x: View, n: nat, level: nat, mm: real)
      requires motion.Valid() && motion.planner.Indices() && (!hold ==> motion.planner.Valid())
      requires motion.planner.prepping && motion.planner.Count() > 0
      requires CutReady(x) && Segmented(x, Now(), n, mm) && n > 0 && level <= MAX_AMASS_LEVEL
      requires |motion.stepper.queue.pieces| < SEGMENT_BUFFER_SIZE - 1
      ensures CanCommit(motion.stepper.queue, n, level) && 0.0 <= mm
      ensures mm == 0.0 <==> n == motion.stepper.queue.remaining
      ensures var w, u := x.queue, Seen(x.tail.(millimeters := mm), true, prep.currentSpeed);
              && motion.planner.Queue() == w && motion.planner.buf[motion.planner.tail] == x.tail
              && u == HeadAfter(x, Now(), mm)
              && if hold then Slows(w, w[0 := u])
                 else Progresses(w, w[0 := u]) && Sqr(prep.currentSpeed) <= Sqr(x.nominal)
      ensures mm == 0.0 ==> Sqr(x.profile.exitSpeed) <= ExitOf(x.queue)
      ensures !hold ==> prep.mmComplete == 0.0
      ensures Now() == x.(ramp := prep.rampType, speed := prep.currentSpeed) && |x.queue| > 0
      ensures Ok(x) && x.prepping && !x.endMotion && 0.0 <= Now().speed
    {
      hide Motion.Valid, Motion.Owing, PlannerState.Valid, PlannerState.Held, PlannerState.Queue;
      hide QueueOk, HeldOk, Gain, Sqr, IsSqrt, StepperState.Valid, PlannerState.Moves, OnRamp, Ceil, Ok, MeetsExit,
           NominalSpeed, Progresses, Slows, AllLong;
      var p := motion.planner.PlannedOffset();
      motion.Parts();
      if hold { motion.planner.HeldQueue(); } else { motion.planner.ValidQueue(); }
      CutAllowed(x, Now(), n, mm, p);
      SeenAt(x.tail, mm, prep.currentSpeed);
      motion.HasBlock();
    }

    /** The segment joins the ring; a block used up is discarded, the end of a hold noted. */
    method HandOver(ghost x: View, n: nat, level: nat, mm: real)
      requires motion.Valid() && motion.planner.Indices() && (!hold ==> motion.planner.Valid())
      requires IsSqrt(prep.sqrt) && prep.InTime() && motion.planner.prepping
      requires CutReady(x) && Segmented(x, Now(), n, mm) && n > 0 && level <= MAX_AMASS_LEVEL
      requires |motion.stepper.queue.pieces| < SEGMENT_BUFFER_SIZE - 1 && motion.planner.Count() > 0
      modifies this`endMotion, motion`history, motion.planner, motion.planner.buf, motion.stepper,
               motion.stepper.segments
      ensures Valid() && motion.stepper.queue == Commit(old(motion.stepper.queue), n, level) && (endMotion ==> hold)
      ensures motion.history == old(motion.history) + [OpCommit(n, level)]
      ensures motion.planner.prepping <==> mm > 0.0
      ensures mm > 0.0 ==> motion.planner.buf[motion.planner.tail].millimeters == mm
      ensures motion.Owing() <= old(motion.Owing())
      ensures motion.planner.position == old(motion.planner.position)
              && motion.stepper.enabled == old(motion.stepper.enabled)
    {
      hide Motion.Valid, Motion.Owing, PlannerState.Valid, PlannerState.Held, PlannerState.Queue;
      hide QueueOk, HeldOk, Gain, Sqr, IsSqrt, StepperState.Valid, PlannerState.Moves, OnRamp, Ceil, Ok, MeetsExit,
           NominalSpeed, Progresses, Slows, Profiled, SpeedsOk, Counted, AllLong, CutReady, Segmented, CanCommit, Head;
      ghost var y := Now();
      HandFacts(x, n, level, mm);
      motion.Parts();
      motion.CutSegment(n, level, prep.currentSpeed, mm, hold);
      motion.Parts();
      if mm == prep.mmComplete && mm > 0.0 { endMotion := true; }
      if mm > 0.0 { CutOk(x, y, n, mm, Now()); } else { FinishOk(x, Now()); }
    }

    /** st_prep_buffer: cut segments until the ring is full, no block is left or a hold has ended. */
    method StPrepBuffer()
      requires Valid()
      modifies this, prep, motion`history, motion.planner, motion.planner.buf, motion.stepper, motion.stepper.stBlocks,
               motion.stepper.segments
      ensures Valid() && hold == old(hold) && (endMotion ==> hold || old(endMotion))
      ensures old(motion.stepper.queue.pieces) <= motion.stepper.queue.pieces
      ensures Generates(old(motion.history), motion.history) && motion.Owing() <= old(motion.Owing())
      ensures motion.planner.position == old(motion.planner.position)
              && motion.stepper.enabled == old(motion.stepper.enabled)
      ensures || endMotion || |motion.stepper.queue.pieces| == SEGMENT_BUFFER_SIZE - 1
              || (!motion.planner.prepping && motion.planner.Count() == 0)
    {
      hide Motion.Valid, Motion.Owing, PlannerState.Valid, PlannerState.Held, PlannerState.Queue, Ok,
           StepperState.Valid, IsSqrt, Sqr, NominalSpeed, Generates;
      GeneratesNothing(motion.history);
      if endMotion { return; }
      motion.Parts();
      motion.stepper.RoomLeft();
      while motion.stepper.segmentTail != motion.stepper.segmentNextHead
        invariant Valid() && hold == old(hold) && !endMotion
        invariant old(motion.stepper.queue.pieces) <= motion.stepper.queue.pieces
        invariant motion.stepper.Valid() && motion.planner.Indices()
        invariant Generates(old(motion.history), motion.history) && motion.Owing() <= old(motion.Owing())
        invariant motion.planner.position == old(motion.planner.position)
                  && motion.stepper.enabled == old(motion.stepper.enabled)
        invariant motion.stepper.segmentTail != motion.stepper.segmentNextHead
             <==> |motion.stepper.queue.pieces| < SEGMENT_BUFFER_SIZE - 1
        invariant |motion.stepper.queue.pieces| <= SEGMENT_BUFFER_SIZE - 1
        decreases SEGMENT_BUFFER_SIZE - |motion.stepper.queue.pieces|
      {
        ghost var h := motion.history;
        var stop := NextSegment();
        GeneratesThen(old(motion.history), h, motion.history);
        if stop { return; }
        motion.Parts();
        motion.stepper.RoomLeft();
      }
    }

    /** One turn of its loop: take up a block if need be, and cut a segment off it. */
    method NextSegment() returns (stop: bool)
      requires Valid() && !endMotion && |motion.stepper.queue.pieces| < SEGMENT_BUFFER_SIZE - 1
      modifies this, prep, motion`history, motion.planner, motion.planner.buf, motion.stepper, motion.stepper.stBlocks,
               motion.stepper.segments
      ensures Valid() && hold == old(hold) && (endMotion ==> hold)
      ensures old(motion.stepper.queue.pieces) <= motion.stepper.queue.pieces
      ensures Generates(old(motion.history), motion.history) && motion.Owing() <= old(motion.Owing())
      ensures motion.planner.position == old(motion.planner.position)
              && motion.stepper.enabled == old(motion.stepper.enabled)
      ensures stop ==> endMotion || (!motion.planner.prepping && motion.planner.Count() == 0)
      ensures !stop ==> !endMotion && |motion.stepper.queue.pieces| == |old(motion.stepper.queue.pieces)| + 1
    {
      hide Motion.Valid, Motion.Owing, PlannerState.Valid, PlannerState.Held, PlannerState.Queue, Ok,
           StepperState.Valid, IsSqrt, Sqr, NominalSpeed, Generates, Planner.Block.Move;
      ghost var h := motion.history;
      GeneratesNothing(h);
      if !motion.planner.prepping {
        if motion.planner.head == motion.planner.tail { return true; }
        ghost var l := OpLoad(motion.planner.buf[motion.planner.tail].Move());
        LoadProfile();
        GeneratesOn(h, h, l);
      }
      ghost var loaded := motion.history;
      var n, level := Cut();
      GeneratesOn(h, loaded, OpCommit(n, level));
      return endMotion;
    }

    /** mc_line: queue one more move, which may also happen while a hold decelerates. */
    method LineTo(target: Axes<int>, data: LineData)
      requires Valid() && data.Valid() && (data.systemMotion || motion.planner.nextHead != motion.planner.tail)
      modifies motion.planner, motion.planner.buf
      ensures Valid() && motion.planner.position == if data.systemMotion then old(motion.planner.position) else target
    {
      hide Motion.Valid, Motion.Owing, PlannerState.Valid, PlannerState.Held, PlannerState.Queue, Ok,
           StepperState.Valid, IsSqrt, Sqr, NominalSpeed;
      hide WithPlan, AllLong, PlannerState.Moves;
      ghost var x := Now();
      motion.Parts();
      if motion.planner.Count() > 0 { motion.planner.TailNode(); }
      var queued := motion.LineTo(target, data);
      motion.Parts();
      OkLong(x);
      ReplannedOk(x, Now());
    }

    /** A feed hold begins. */
    method BeginHold()
      requires Valid() && !hold
      modifies this`hold, motion.planner, motion.planner.buf
      ensures Valid() && hold
    {
      hide Motion.Valid, Motion.Owing, PlannerState.Valid, PlannerState.Held, PlannerState.Queue, Ok,
           StepperState.Valid, IsSqrt, Sqr, NominalSpeed;
      hide PlannerState.Moves;
      ghost var x := Now();
      motion.Parts();
      if motion.planner.Count() > 0 { motion.planner.TailNode(); }
      motion.Release();
      hold := true;
      motion.Parts();
      OkLong(x);
      ReplannedOk(x, Now());
    }

    /** The hold is over: the queue is planned afresh and normal operation resumes. */
    method Resume()
      requires Valid()
      modifies this`hold, this`endMotion, motion.planner, motion.planner.buf
      ensures Valid() && !hold && !endMotion
    {
      hide Motion.Valid, Motion.Owing, PlannerState.Valid, PlannerState.Held, PlannerState.Queue, Ok,
           StepperState.Valid, IsSqrt, Sqr, NominalSpeed;
      hide PlannerState.Moves, WithPlan;
      ghost var x := Now();
      motion.Parts();
      if motion.planner.Count() > 0 { motion.planner.TailNode(); PlanStart(x.queue); WithPlanHead(x.queue); }
      motion.Reinitialize();
      hold, endMotion := false, false;
      motion.Parts();
      OkLong(x);
      StillLong(x.queue);
      ReplannedOk(x, Now());
    }

    /** One stepper interrupt. */
    method Interrupt()
      requires Valid() && motion.stepper.enabled
      modifies motion`history, motion.stepper
      ensures Valid() && (motion.stepper.enabled <==> old(motion.stepper.queue.pieces) != [])
      ensures motion.history == old(motion.history) + if motion.stepper.enabled then [OpTick] else []
      ensures old(motion.Owing()) == motion.Owing() + if motion.stepper.enabled then 1 else 0
      ensures !motion.stepper.enabled ==> motion.stepper.queue == old(motion.stepper.queue) && motion.stepper.cycleStop
    {
      hide Motion.Valid, Motion.Owing, PlannerState.Valid, PlannerState.Held, PlannerState.Queue, Ok,
           StepperState.Valid, IsSqrt, Sqr, NominalSpeed;
      ghost var x := Now();
      motion.Interrupt();
      assert Now() == x;
    }

    /** protocol_buffer_synchronize without a hold: the cycle starts, and the main program keeps the ring of
        segments filled while the interrupt traces them, between(i) more of them after the one that follows
        the i-th refill, as long as they find a segment.  Everything queued is executed, in a number of
        interrupts known beforehand. */
    method BufferSynchronize(between: nat -> nat) returns (ticks: nat)
      requires Valid() && !hold && !endMotion
      modifies this, prep, motion`history, motion.planner, motion.planner.buf, motion.stepper, motion.stepper.stBlocks,
               motion.stepper.segments
      ensures Valid() && !hold && !endMotion && ticks <= old(motion.Owing())
      ensures motion.planner.Count() == 0 && motion.stepper.queue.pieces == []
      ensures !motion.stepper.enabled && motion.stepper.cycleStop
      ensures motion.planner.position == old(motion.planner.position)
      ensures motion.stepper.sysPosition == Add(Motors(motion.planner.position), motion.lost)
    {
      hide Motion.Valid, Motion.Owing, PlannerState.Valid, PlannerState.Held, PlannerState.Queue, Ok,
           StepperState.Valid;
      hide IsSqrt, Sqr, NominalSpeed, Generates, Motors, Add;
      StPrepBuffer();
      WakeUp();
      ticks := 0;
      var turn := 0;
      while motion.stepper.enabled
        invariant Valid() && !hold && !endMotion && ticks + motion.Owing() <= old(motion.Owing())
        invariant motion.planner.position == old(motion.planner.position)
        invariant !motion.stepper.enabled ==>
                    motion.stepper.cycleStop && motion.planner.Count() == 0 && motion.stepper.queue.pieces == []
        decreases motion.Owing(), motion.stepper.enabled
      {
        StPrepBuffer();
        Interrupt();
        if motion.stepper.enabled {
          var more := Interrupts(between(turn));
          ticks := ticks + 1 + more;
        }
        turn := turn + 1;
      }
      motion.DrainedAtTarget();
    }

    /** st_wake_up */
    method WakeUp()
      requires Valid()
      modifies motion.stepper`enabled
      ensures Valid() && motion.stepper.enabled && motion.Owing() == old(motion.Owing())
    {
      hide Motion.Valid, Motion.Owing, PlannerState.Valid, PlannerState.Held, PlannerState.Queue, Ok,
           StepperState.Valid;
      ghost var x := Now();
      motion.WakeUp();
      assert Now() == x;
    }

    /** At most a number of interrupts while the main program does something else. */
    method Interrupts(most: nat) returns (ticks: nat)
      requires Valid() && motion.stepper.enabled
      modifies motion`history, motion.stepper
      ensures Valid() && motion.stepper.enabled && ticks + motion.Owing() == old(motion.Owing())
    {
      hide Motion.Valid, Motion.Owing, PlannerState.Valid, PlannerState.Held, PlannerState.Queue, Ok,
           StepperState.Valid;
      hide IsSqrt, Sqr, NominalSpeed;
      ticks := 0;
      motion.Parts();
      motion.stepper.RoomLeft();
      while ticks < most && motion.stepper.segmentTail != motion.stepper.segmentHead
        invariant Valid() && motion.stepper.enabled && ticks + motion.Owing() == old(motion.Owing())
        invariant motion.stepper.segmentTail != motion.stepper.segmentHead <==> motion.stepper.queue.pieces != []
      {
        Interrupt();
        ticks := ticks + 1;
        motion.Parts();
        motion.stepper.RoomLeft();
      }
    }

    lemma CutFacts()
      requires Valid() && motion.planner.prepping && !endMotion
      ensures motion.planner.Count() > 0 && motion.stepper.stepsRemaining == motion.stepper.queue.remaining
      ensures var x := Now();
              && CutReady(x) && SpeedsOk(x) && x.stepPerMm > 0.0 && x.tail.millimeters > 0.0
              && x.nominal > 0.0 && Sqr(x.speed) <= Sqr(x.nominal)
    {
      motion.Parts();
      LoadFacts();
      motion.planner.TailNode();
      motion.planner.TailPace();
      hide NominalSpeed;
      hide Motion.Valid, Motion.Owing, PlannerState.Valid, PlannerState.Held, PlannerState.Queue, IsSqrt, Sqr,
           Profiled, Gain, Ceil;
      SeenAt(motion.planner.buf[motion.planner.tail], motion.planner.buf[motion.planner.tail].millimeters, 0.0);
    }

    lemma LoadFacts()
      requires Valid() && motion.planner.Count() > 0
      ensures motion.planner.Held() && motion.Together()
      ensures var b := motion.planner.buf[motion.planner.tail]; var w := motion.planner.Queue();
              && BlockOk(b) && b.acceleration > 0.0 && b.millimeters > 0.0 && b.stepEventCount > 0
              && w[0].reach == Gain(b.acceleration, b.millimeters) && SpeedsOk(Now())
              && Entry(w) == if motion.planner.prepping then Sqr(motion.planner.currentSpeed) else b.entrySpeedSqr
    {
      motion.Parts();
      motion.planner.TailNode(); motion.planner.TailMove();
      var b := motion.planner.buf[motion.planner.tail];
      assert motion.planner.Moves()[0].Ok();
      hide Motion.Valid, Motion.Owing, PlannerState.Valid, PlannerState.Held, PlannerState.Queue, IsSqrt, Sqr;
      SeenAt(b, b.millimeters, 0.0);
      LongBlock(b.acceleration, b.millimeters);
    }
  }

  lemma InitRemains(p: Axes<int>)
    ensures Init(p).remaining == 0
  {
  }

  lemma SqrtLaw(f: real -> real, x: real)
    requires IsSqrt(f) && x >= 0.0
    ensures f(x) >= 0.0 && Sqr(f(x)) == x
  {
  }
}
