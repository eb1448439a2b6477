/** The line tracer of the stepper interrupt with adaptive step smoothing (AMASS): block data are
    stored times eight, a segment at level l runs 2^l times as many ticks, and each tick adds the
    stored axis steps shifted back by l. */
module Bresenham {

  const MAX_AMASS_LEVEL: nat := 3

  function Pow2(level: nat): (p: nat)
    requires level <= MAX_AMASS_LEVEL
    ensures p in {1, 2, 4, 8}
  {
    if level == 0 then 1 else if level == 1 then 2 else if level == 2 then 4 else 8
  }

  function Shl(n: nat, level: nat): nat
    requires level <= MAX_AMASS_LEVEL
  {
    n * Pow2(level)
  }

  function Shr(n: nat, level: nat): nat
    requires level <= MAX_AMASS_LEVEL
  {
    n / Pow2(level)
  }

  /** Share of a base step, in eighths, that one tick at the given level advances. */
  function Eighths(level: nat): (e: nat)
    requires level <= MAX_AMASS_LEVEL
    ensures e in {1, 2, 4, 8} && e * Pow2(level) == 8
  {
    Pow2(MAX_AMASS_LEVEL - level)
  }

  /** Because the data are stored times eight, shifting back never drops a fraction. */
  lemma ShiftIsExact(n: nat, level: nat)
    requires level <= MAX_AMASS_LEVEL
    ensures Shr(Shl(n, MAX_AMASS_LEVEL), level) == n * Eighths(level)
  {
  }

  /** Counter of one axis and the pulses it has emitted. */
  datatype Track = Track(counter: nat, pulses: nat)

  function Start(n: nat): Track {
    Track(Shl(n, MAX_AMASS_LEVEL) / 2, 0)
  }

  /** One tick of one axis: limit is the stored step event count, increment the shifted steps. */
  function AxisTick(t: Track, increment: nat, limit: nat): Track {
    if t.counter + increment > limit
    then Track(t.counter + increment - limit, t.pulses + 1)
    else Track(t.counter + increment, t.pulses)
  }

  /** After done eighths of base steps of a block of n step events, s of them on this axis: the
      counter accounts exactly for the pulses emitted so far. */
  ghost predicate OnTrack(t: Track, s: nat, n: nat, done: nat) {
    && s <= n
    && t.counter + 8 * n * t.pulses == 4 * n + s * done
    && (n > 0 ==> 0 < t.counter <= 8 * n)
  }

  lemma StartOnTrack(s: nat, n: nat)
    requires s <= n
    ensures OnTrack(Start(n), s, n, 0)
  {
  }

  lemma TickStaysOnTrack(t: Track, s: nat, n: nat, done: nat, level: nat)
    requires OnTrack(t, s, n, done) && n > 0 && level <= MAX_AMASS_LEVEL
    ensures OnTrack(AxisTick(t, Shr(Shl(s, MAX_AMASS_LEVEL), level), Shl(n, MAX_AMASS_LEVEL)),
                    s, n, done + Eighths(level))
  {
    var e := Eighths(level);
    ShiftIsExact(s, level);
    assert s * e <= 8 * n;
    assert s * (done + e) == s * done + s * e;
    assert 8 * n * (t.pulses + 1) == 8 * n * t.pulses + 8 * n;
  }

  /** At every instant the axis is within half a step of the ideal line. */
  lemma Drift(t: Track, s: nat, n: nat, done: nat)
    requires OnTrack(t, s, n, done)
    ensures -(4 * n) <= 8 * n * t.pulses - s * done <= 4 * n
  {
  }

  predicate WithinHalf(d: int, n: int) {
    -n <= 2 * d <= n
  }

  /** After whole base steps: |pulses*n - s*steps| <= n/2. */
  lemma DriftAtStep(t: Track, s: nat, n: nat, steps: nat)
    requires OnTrack(t, s, n, 8 * steps)
    ensures WithinHalf(n * t.pulses - s * steps, n)
  {
    Drift(t, s, n, 8 * steps);
    assert s * (8 * steps) == 8 * (s * steps);
    assert 8 * n * t.pulses == 8 * (n * t.pulses);
  }

  lemma MultipleInRange(limit: nat, k: int)
    requires -1 * limit < limit * k < limit
    ensures k == 0
  {
    assert limit * k == limit + limit * (k - 1) == limit * (k + 1) - limit;
  }

  /** A finished block has emitted exactly its steps and left the counter where it started. */
  lemma Exact(t: Track, s: nat, n: nat)
    requires OnTrack(t, s, n, 8 * n) && n > 0
    ensures t == Track(Start(n).counter, s)
  {
    var limit := 8 * n;
    assert limit * (s - t.pulses) == limit * s - limit * t.pulses;
    assert s * limit == limit * s;
    MultipleInRange(limit, s - t.pulses);
  }

  // ---- a block cut into segments -----------------------------------------------------------------

  /** A segment of some base steps, run at one smoothing level. */
  datatype Cut = Cut(steps: nat, level: nat)

  ghost predicate CutsOk(cuts: seq<Cut>) {
    forall i | 0 <= i < |cuts| :: cuts[i].level <= MAX_AMASS_LEVEL
  }

  function StepsOf(cuts: seq<Cut>): nat {
    if cuts == [] then 0 else cuts[0].steps + StepsOf(cuts[1..])
  }

  /** ticks interrupts of a segment at one level. */
  function Ticks(t: Track, s: nat, n: nat, level: nat, ticks: nat): Track
    requires level <= MAX_AMASS_LEVEL
  {
    if ticks == 0 then t
    else AxisTick(Ticks(t, s, n, level, ticks - 1), Shr(Shl(s, MAX_AMASS_LEVEL), level), Shl(n, MAX_AMASS_LEVEL))
  }

  function RunCuts(t: Track, s: nat, n: nat, cuts: seq<Cut>): Track
    requires CutsOk(cuts)
    decreases |cuts|
  {
    if cuts == [] then t
    else RunCuts(Ticks(t, s, n, cuts[0].level, Shl(cuts[0].steps, cuts[0].level)), s, n, cuts[1..])
  }

  lemma {:induction false} TicksOnTrack(t: Track, s: nat, n: nat, done: nat, level: nat, ticks: nat)
    requires OnTrack(t, s, n, done) && n > 0 && level <= MAX_AMASS_LEVEL
    ensures OnTrack(Ticks(t, s, n, level, ticks), s, n, done + ticks * Eighths(level))
  {
    if ticks > 0 {
      var e := Eighths(level);
      assert (ticks - 1) * e + e == ticks * e;
      TicksOnTrack(t, s, n, done, level, ticks - 1);
      hide OnTrack, Eighths;
      TickStaysOnTrack(Ticks(t, s, n, level, ticks - 1), s, n, done + (ticks - 1) * Eighths(level), level);
    }
  }

  lemma {:induction false} CutsOnTrack(t: Track, s: nat, n: nat, steps: nat, cuts: seq<Cut>)
    requires OnTrack(t, s, n, 8 * steps) && n > 0 && CutsOk(cuts)
    ensures OnTrack(RunCuts(t, s, n, cuts), s, n, 8 * (steps + StepsOf(cuts)))
    decreases |cuts|
  {
    if cuts != [] {
      var c := cuts[0];
      TicksOnTrack(t, s, n, 8 * steps, c.level, Shl(c.steps, c.level));
      assert Shl(c.steps, c.level) * Eighths(c.level) == 8 * c.steps;
      CutsOnTrack(Ticks(t, s, n, c.level, Shl(c.steps, c.level)), s, n, steps + c.steps, cuts[1..]);
    }
  }

  /** Exact step output: however a block of n step events is cut into segments and whatever
      smoothing level each runs at, an axis with s steps pulses exactly s times and its counter
      returns to its start value; part-way it is within half a step of the line. */
  lemma ExactStepOutput(s: nat, n: nat, cuts: seq<Cut>)
    requires s <= n && n > 0 && CutsOk(cuts) && StepsOf(cuts) <= n
    ensures var t := RunCuts(Start(n), s, n, cuts);
            && WithinHalf(n * t.pulses - s * StepsOf(cuts), n)
            && (StepsOf(cuts) == n ==> t == Track(Start(n).counter, s))
  {
    StartOnTrack(s, n);
    CutsOnTrack(Start(n), s, n, 0, cuts);
    var t := RunCuts(Start(n), s, n, cuts);
    DriftAtStep(t, s, n, StepsOf(cuts));
    if StepsOf(cuts) == n { Exact(t, s, n); }
  }
}
