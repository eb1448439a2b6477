/** The planner's ring buffer (planner.c): the code that keeps the look-ahead plan up to date as
    blocks are queued, consumed and re-planned, proved against module PlannerSpec. */
module Planner {
  import opened Machine
  import opened PlannerSpec

  const BLOCK_BUFFER_SIZE: nat := 16
  const MINIMUM_FEED_RATE: real := 1.0

  /** One queued line motion.  Rates are mm/min, speeds squared are (mm/min)^2. */
  datatype Block = Block(
    steps: Axes<nat>,
    stepEventCount: nat,
    negative: Axes<bool>,
    rapid: bool,
    systemMotion: bool,
    noFeedOverride: bool,
    entrySpeedSqr: real,
    maxEntrySpeedSqr: real,
    acceleration: real,
    millimeters: real,
    maxJunctionSpeedSqr: real,
    rapidRate: real,
    programmedRate: real)
  {
    function NominalSpeedUnder(fOverride: nat, rOverride: nat): real {
      NominalSpeed(rapid, noFeedOverride, programmedRate, rapidRate, fOverride, rOverride)
    }

    /** Change of squared speed the acceleration allows over the remaining length. */
    function Reach(): real {
      2.0 * acceleration * millimeters
    }

    /** What the stepper copies. */
    function Move(): Line {
      Line(steps, stepEventCount, negative)
    }
  }

  /** The request handed to the planner, with the direction-dependent limits already looked up:
      length, axis-limited acceleration and rapid rate, and the junction speed limit. */
  datatype LineData = LineData(
    rapid: bool, systemMotion: bool, noFeedOverride: bool, inverseTime: bool,
    feedRate: real, millimeters: real, acceleration: real, rapidRate: real, junctionSpeedSqr: real)
  {
    function ProgrammedRate(): real {
      if rapid then rapidRate else if inverseTime then feedRate * millimeters else feedRate
    }

    function NominalSpeedUnder(fOverride: nat, rOverride: nat): real {
      NominalSpeed(rapid, noFeedOverride, ProgrammedRate(), rapidRate, fOverride, rOverride)
    }

    /** The line as the optimiser sees it, following a block of the given nominal speed. */
    function Node(first: bool, nominal: real, previous: real): Node {
      PlannerSpec.Node(0.0, MaxEntrySpeedSqr(if first then 0.0 else junctionSpeedSqr, nominal, previous),
                       2.0 * acceleration * millimeters)
    }

    predicate Valid() {
      millimeters > 0.0 && acceleration > 0.0 && junctionSpeedSqr >= 0.0
    }
  }

  /** Within the limits: at most hi, at least the minimum rate. */
  function Limited(x: real, hi: real): real {
    if MINIMUM_FEED_RATE < x <= hi then x else if hi > MINIMUM_FEED_RATE && x > hi then hi else MINIMUM_FEED_RATE
  }

  /** The nominal speed v is what the request asks for.  A rapid runs at the rapid rate, scaled by the rapid
      override.  A feed move runs at its feed rate, and an inverse-time move takes the time asked for, 1/F
      minutes, both scaled by the feed override unless that is off for the move, and within the limits. */
  ghost predicate AsAsked(d: LineData, fOverride: nat, rOverride: nat, v: real) {
    var percent := if d.noFeedOverride then 100.0 else fOverride as real;
    && (d.rapid && d.rapidRate * rOverride as real > 100.0 * MINIMUM_FEED_RATE ==>
          100.0 * v == d.rapidRate * rOverride as real)
    && (d.rapid && d.rapidRate * rOverride as real <= 100.0 * MINIMUM_FEED_RATE ==> v == MINIMUM_FEED_RATE)
    && (!d.rapid && !d.inverseTime ==> v == Limited(d.feedRate * percent / 100.0, d.rapidRate))
    && (!d.rapid && d.inverseTime && d.feedRate > 0.0 ==>
          v == Limited(percent / 100.0 * (d.millimeters / (1.0 / d.feedRate)), d.rapidRate))
  }

  lemma RateAsAsked(d: LineData, fOverride: nat, rOverride: nat)
    requires d.Valid()
    ensures AsAsked(d, fOverride, rOverride, d.NominalSpeedUnder(fOverride, rOverride))
  {
    if d.rapid { RapidRate(d, fOverride, rOverride); }
    else if d.inverseTime && d.feedRate > 0.0 { InverseTimeRate(d, fOverride, rOverride); }
    else { FeedRate(d, fOverride, rOverride); }
  }

  lemma RapidRate(d: LineData, fOverride: nat, rOverride: nat)
    requires d.rapid
    ensures AsAsked(d, fOverride, rOverride, d.NominalSpeedUnder(fOverride, rOverride))
  {
    assert d.rapidRate * (0.01 * rOverride as real) == 0.01 * (d.rapidRate * rOverride as real);
  }

  lemma FeedRate(d: LineData, fOverride: nat, rOverride: nat)
    requires !d.rapid && !(d.inverseTime && d.feedRate > 0.0)
    ensures AsAsked(d, fOverride, rOverride, d.NominalSpeedUnder(fOverride, rOverride))
  {
    assert d.feedRate * (0.01 * fOverride as real) == d.feedRate * fOverride as real / 100.0;
  }

  lemma InverseTimeRate(d: LineData, fOverride: nat, rOverride: nat)
    requires d.Valid() && !d.rapid && d.inverseTime && d.feedRate > 0.0
    ensures AsAsked(d, fOverride, rOverride, d.NominalSpeedUnder(fOverride, rOverride))
  {
    var f, mm := d.feedRate, d.millimeters;
    TimeOfRate(mm, f);
    assert f * mm * (0.01 * fOverride as real) == fOverride as real / 100.0 * (f * mm);
  }

  /** Within the limits and at 100 percent an inverse-time move takes exactly the time asked for. */
  lemma InverseTime(d: LineData, fOverride: nat, rOverride: nat)
    requires d.Valid() && !d.rapid && d.inverseTime && d.feedRate > 0.0 && (d.noFeedOverride || fOverride == 100)
    requires MINIMUM_FEED_RATE < d.feedRate * d.millimeters <= d.rapidRate
    ensures d.millimeters / d.NominalSpeedUnder(fOverride, rOverride) == 1.0 / d.feedRate
  {
    TimeOfRate(d.millimeters, d.feedRate);
    RateAsAsked(d, fOverride, rOverride);
  }

  lemma TimeOfRate(mm: real, f: real)
    requires mm > 0.0 && f > 0.0
    ensures f * mm > 0.0 && mm / (f * mm) == 1.0 / f && mm / (1.0 / f) == f * mm
  {
    assert 1.0 / f * (f * mm) == mm;
  }

  function NodeOf(b: Block): Node {
    Node(b.entrySpeedSqr, b.maxEntrySpeedSqr, b.Reach())
  }

  ghost predicate BlockOk(b: Block) {
    b.entrySpeedSqr >= 0.0 && b.maxEntrySpeedSqr >= 0.0 && b.acceleration >= 0.0 && b.millimeters >= 0.0
  }

  lemma NodeOk(b: Block)
    requires BlockOk(b)
    ensures NodeOf(b).entry >= 0.0 && NodeOf(b).max >= 0.0 && NodeOf(b).reach >= 0.0
  {
  }

  function NextBlockIndex(i: nat): nat
    requires i < BLOCK_BUFFER_SIZE
  {
    if i + 1 == BLOCK_BUFFER_SIZE then 0 else i + 1
  }

  function PrevBlockIndex(i: nat): nat
    requires i < BLOCK_BUFFER_SIZE
  {
    if i == 0 then BLOCK_BUFFER_SIZE - 1 else i - 1
  }

  /** Ring slot j places after base. */
  function At(base: nat, j: nat): (i: nat)
    requires base < BLOCK_BUFFER_SIZE && j <= BLOCK_BUFFER_SIZE
    ensures i < BLOCK_BUFFER_SIZE
  {
    if base + j < BLOCK_BUFFER_SIZE then base + j else base + j - BLOCK_BUFFER_SIZE
  }

  /** Slots from a up to, not including, b; a full round when they coincide. */
  function Dist(a: nat, b: nat): (d: nat)
    requires a < BLOCK_BUFFER_SIZE && b < BLOCK_BUFFER_SIZE
    ensures 1 <= d <= BLOCK_BUFFER_SIZE && At(a, d) == b
  {
    if a < b then b - a else b + BLOCK_BUFFER_SIZE - a
  }

  /** How many places after base slot i lies. */
  function Off(base: nat, i: nat): (j: nat)
    requires base < BLOCK_BUFFER_SIZE && i < BLOCK_BUFFER_SIZE
    ensures j < BLOCK_BUFFER_SIZE && At(base, j) == i
  {
    if i >= base then i - base else i + BLOCK_BUFFER_SIZE - base
  }

  const EMPTY_BLOCK: Block := Block(Axes(0, 0, 0), 0, Axes(false, false, false), false, false, false,
                                    0.0, 0.0, 0.0, 0.0, 0.0, 0.0, 0.0)

  function MovesOf(b: seq<Block>, base: nat, n: nat): (m: seq<Line>)
    requires |b| == BLOCK_BUFFER_SIZE && base < BLOCK_BUFFER_SIZE && n <= BLOCK_BUFFER_SIZE
    ensures |m| == n
  {
    seq(n, j requires 0 <= j < n => b[At(base, j)].Move())
  }

  /** plan_compute_profile_nominal_speed: programmed rate under the overrides, in percent. */
  function NominalSpeed(rapid: bool, noFeedOverride: bool, programmedRate: real, rapidRate: real,
                        fOverride: nat, rOverride: nat): (v: real)
    ensures v >= MINIMUM_FEED_RATE
    ensures !rapid ==> v <= rapidRate || v == MINIMUM_FEED_RATE
  {
    var scaled := if rapid then programmedRate * (0.01 * rOverride as real)
                  else if noFeedOverride then programmedRate
                  else programmedRate * (0.01 * fOverride as real);
    var limited := if !rapid && scaled > rapidRate then rapidRate else scaled;
    if limited > MINIMUM_FEED_RATE then limited else MINIMUM_FEED_RATE
  }

  /** plan_compute_profile_parameters: squared entry limit of a block between two nominal speeds. */
  function MaxEntrySpeedSqr(junctionSqr: real, nominal: real, previous: real): (m: real)
    ensures m <= nominal * nominal || previous < nominal
    ensures m <= junctionSqr
    ensures junctionSqr >= 0.0 ==> m >= 0.0
  {
    var m := if nominal > previous then previous * previous else nominal * nominal;
    if m > junctionSqr then junctionSqr else m
  }

  /** It is the least of junction limit and both nominal speeds. */
  lemma MaxEntryPaced(junctionSqr: real, nominal: real, previous: real)
    requires nominal >= 0.0 && (junctionSqr == 0.0 || previous >= 0.0)
    ensures var m := MaxEntrySpeedSqr(junctionSqr, nominal, previous);
            && m <= junctionSqr && m <= Sqr(nominal) && (previous >= 0.0 ==> m <= Sqr(previous))
            && (m == junctionSqr || m == Sqr(nominal) || m == Sqr(previous))
  {
    assert Sqr(nominal) >= 0.0 && Sqr(previous) >= 0.0;
    if previous >= 0.0 {
      if nominal > previous {
        SquareOrder(previous, nominal);
      } else {
        SquareOrder(nominal, previous);
      }
    }
  }

  lemma SquareOrder(x: real, y: real)
    requires 0.0 <= x <= y
    ensures x * x <= y * y
  {
    assert x * x <= x * y <= y * y;
  }

  /** Slot b as the optimiser sees it; a block in execution enters at its current speed. */
  function Seen(b: Block, executing: bool, speed: real): Node {
    if executing then NodeOf(b).(entry := Sqr(speed)) else NodeOf(b)
  }

  /** n ring slots from base on, the first one in execution or not. */
  function Nodes(b: seq<Block>, base: nat, n: nat, executing: bool, speed: real): (w: seq<Node>)
    requires |b| == BLOCK_BUFFER_SIZE && base < BLOCK_BUFFER_SIZE && n <= BLOCK_BUFFER_SIZE
    ensures |w| == n
  {
    seq(n, j requires 0 <= j < n => Seen(b[At(base, j)], j == 0 && executing, speed))
  }

  // ---- nominal speeds ---------------------------------------------------------------------------

  /** Nominal speeds of n ring slots from base on. */
  function PacesOf(b: seq<Block>, base: nat, n: nat, fOverride: nat, rOverride: nat): (s: seq<real>)
    requires |b| == BLOCK_BUFFER_SIZE && base < BLOCK_BUFFER_SIZE && n <= BLOCK_BUFFER_SIZE
    ensures |s| == n
  {
    seq(n, j requires 0 <= j < n => b[At(base, j)].NominalSpeedUnder(fOverride, rOverride))
  }

  /** No junction is planned faster than the nominal speed of either block, nor does the first block
      start faster than its own; last is the nominal speed of the newest block. */
  ghost predicate Paced(w: seq<Node>, s: seq<real>, last: real) {
    && |w| == |s| > 0 && s[|s| - 1] == last
    && w[0].entry <= Sqr(s[0])
    && (forall i | 0 <= i < |s| :: s[i] >= MINIMUM_FEED_RATE)
    && (forall i | 1 <= i < |w| :: w[i].max <= Sqr(s[i - 1]) && w[i].max <= Sqr(s[i]))
  }

  lemma PacedExit(w: seq<Node>, s: seq<real>, last: real)
    requires HeldOk(w) && Paced(w, s, last)
    ensures ExitOf(w) <= Sqr(s[0])
  {
    hide Sqr;
    assert Sqr(s[0]) >= 0.0;
  }

  lemma PacedDiscard(w: seq<Node>, s: seq<real>, last: real)
    requires HeldOk(w) && Paced(w, s, last) && |w| > 1
    ensures Paced(w[1..], s[1..], last)
  {
    hide Sqr;
  }

  /** Executing the first block at no more than its nominal speed. */
  lemma PacedProgress(w: seq<Node>, u: seq<Node>, s: seq<real>, last: real)
    requires Paced(w, s, last) && |u| == |w| && u[1..] == w[1..] && u[0].entry <= Sqr(s[0])
    ensures Paced(u, s, last)
  {
    hide Sqr;
    assert forall i | 1 <= i < |w| :: u[i] == u[1..][i - 1] == w[i];
  }

  lemma PacedSlows(w: seq<Node>, u: seq<Node>, s: seq<real>, last: real)
    requires WellFormed(w) && Paced(w, s, last) && Slows(w, u)
    ensures Paced(u, s, last)
  {
    PacedProgress(w, u, s, last);
  }

  lemma PacedReplanned(u: seq<Node>, p: nat, s: seq<real>, last: real)
    requires Paced(u, s, last) && p < |u|
    ensures Paced(Replanned(u, p), s, last)
  {
    hide Sqr, Replanned;
    ReplannedKeeps(u, p);
  }

  lemma PacedAppend(w: seq<Node>, s: seq<real>, last: real, x: Node, nominal: real)
    requires Paced(w, s, last) && nominal >= MINIMUM_FEED_RATE && x.max <= Sqr(last) && x.max <= Sqr(nominal)
    ensures Paced(w + [x], s + [nominal], nominal)
  {
    hide Sqr;
  }

  // ---- the ring read from the planned pointer on ------------------------------------------------

  function Rotated(b: seq<Block>, base: nat): (r: seq<Block>)
    requires |b| == BLOCK_BUFFER_SIZE && base < BLOCK_BUFFER_SIZE
    ensures |r| == BLOCK_BUFFER_SIZE
  {
    b[base..] + b[..base]
  }

  lemma RotatedAt(b: seq<Block>, base: nat, k: nat, x: Block)
    requires |b| == BLOCK_BUFFER_SIZE && base < BLOCK_BUFFER_SIZE && k < BLOCK_BUFFER_SIZE
    ensures Rotated(b, base)[k] == b[At(base, k)]
    ensures Rotated(b[At(base, k) := x], base) == Rotated(b, base)[k := x]
  {
  }

  /** r0 with the reverse-pass speeds of w written from block n-1 down to block j+1; when block 0
      is reached it carries the speed the stepper reports for it. */
  function RevDone(r0: seq<Block>, w: seq<Node>, j: nat): (r: seq<Block>)
    requires 0 < |w| <= |r0|
    ensures |r| == |r0|
  {
    seq(|r0|, k requires 0 <= k < |r0| =>
      if j < k < |w| then r0[k].(entrySpeedSqr := RevSkip(w, k))
      else if k == j == 0 then r0[k].(entrySpeedSqr := w[0].entry)
      else r0[k])
  }

  /** r0 with the final speeds of w written up to block j and reverse-pass speeds beyond. */
  function FwdDone(r0: seq<Block>, w: seq<Node>, j: nat): (r: seq<Block>)
    requires 0 < |w| <= |r0|
    ensures |r| == |r0|
  {
    seq(|r0|, k requires 0 <= k < |r0| =>
      if k >= |w| then r0[k]
      else r0[k].(entrySpeedSqr := if k <= j then PlanSkip(w, k) else RevSkip(w, k)))
  }

  /** Walking backward from the head towards base, the tail can only be met at base itself. */
  lemma BackwardStep(base: nat, head: nat, tail: nat, j: nat)
    requires base < BLOCK_BUFFER_SIZE && head < BLOCK_BUFFER_SIZE && tail < BLOCK_BUFFER_SIZE
    requires 1 <= j < Dist(base, head)
    requires Off(base, tail) == 0 || Off(base, tail) >= Dist(base, head) - 1
    ensures At(base, 0) == base != At(base, j) && PrevBlockIndex(At(base, j)) == At(base, j - 1)
    ensures At(base, j - 1) == tail <==> base == tail && j == 1
  {
  }

  lemma PrevOfHead(base: nat, head: nat)
    requires base < BLOCK_BUFFER_SIZE && head < BLOCK_BUFFER_SIZE
    ensures PrevBlockIndex(head) == At(base, Dist(base, head) - 1) && At(base, 0) == base
  {
  }

  lemma WindowNodes(b: seq<Block>, base: nat, n: nat, executing: bool, speed: real)
    requires |b| == BLOCK_BUFFER_SIZE && base < BLOCK_BUFFER_SIZE && n <= BLOCK_BUFFER_SIZE
    ensures forall k | 0 <= k < n ::
              Nodes(b, base, n, executing, speed)[k] == Seen(Rotated(b, base)[k], k == 0 && executing, speed)
  {
  }

  lemma RevDoneStep(r0: seq<Block>, w: seq<Node>, j: nat)
    requires 1 <= j < |w| - 1 && |w| <= |r0| && w[j] == NodeOf(r0[j])
    ensures var r := RevDone(r0, w, j);
            RevDone(r0, w, j - 1)
            == (if j == 1 then r[0 := r0[0].(entrySpeedSqr := w[0].entry)] else r)
                 [j := r[j].(entrySpeedSqr := ReverseEntry(NodeOf(r[j]), r[j + 1].entrySpeedSqr))]
  {
  }

  lemma FwdDoneStep(r0: seq<Block>, w: seq<Node>, j: nat)
    requires 1 <= j < |w| <= |r0| && w[j - 1] == NodeOf(r0[j - 1]).(entry := w[j - 1].entry)
    requires w[j].max == r0[j].maxEntrySpeedSqr
    ensures var r := FwdDone(r0, w, j - 1);
            var v := ForwardEntry(NodeOf(r[j - 1]), r[j].entrySpeedSqr);
            && v == PlanSkip(w, j)
            && FwdDone(r0, w, j) == r[j := r[j].(entrySpeedSqr := v)]
            && Planned(w, j) == if v < r[j].entrySpeedSqr || v == r[j].maxEntrySpeedSqr then j
                                else Planned(w, j - 1)
  {
    var r := FwdDone(r0, w, j - 1);
    NodeOfEntry(r0[j - 1], PlanSkip(w, j - 1));
    assert r[j].entrySpeedSqr == RevSkip(w, j);
    FwdDoneNext(r0, w, j);
  }

  lemma NodeOfEntry(b: Block, entrySpeedSqr: real)
    ensures NodeOf(b.(entrySpeedSqr := entrySpeedSqr)) == NodeOf(b).(entry := entrySpeedSqr)
  {
  }

  lemma FwdDoneNext(r0: seq<Block>, w: seq<Node>, j: nat)
    requires 1 <= j < |w| <= |r0|
    ensures FwdDone(r0, w, j) == FwdDone(r0, w, j - 1)[j := r0[j].(entrySpeedSqr := PlanSkip(w, j))]
  {
  }

  lemma PassesMeet(r0: seq<Block>, w: seq<Node>)
    requires 0 < |w| <= |r0|
    ensures RevDone(r0, w, 0) == FwdDone(r0, w, 0)
  {
  }

  /** The window from p blocks into the queue is the queue from there on. */
  lemma WindowIsQueue(b: seq<Block>, tail: nat, p: nat, n: nat, executing: bool, speed: real)
    requires |b| == BLOCK_BUFFER_SIZE && tail < BLOCK_BUFFER_SIZE && p < n < BLOCK_BUFFER_SIZE
    ensures Nodes(b, At(tail, p), n - p, executing && p == 0, speed) == Nodes(b, tail, n, executing, speed)[p..]
  {
    assert forall j | 0 <= j < n - p :: At(At(tail, p), j) == At(tail, p + j);
  }

  /** What a recomputation from p blocks into a queue of n leaves in the queue. */
  lemma QueueAfter(b: seq<Block>, c: seq<Block>, tail: nat, p: nat, n: nat, executing: bool, speed: real, i: nat)
    requires |b| == |c| == BLOCK_BUFFER_SIZE && tail < BLOCK_BUFFER_SIZE && p < n < BLOCK_BUFFER_SIZE && i < n
    requires n == 1 ==> !executing
    requires var w := Nodes(b, tail, n, executing, speed)[p..];
             Rotated(c, At(tail, p)) == FwdDone(Rotated(b, At(tail, p)), w, n - p - 1)
    ensures var v := Nodes(b, tail, n, executing, speed);
            Nodes(c, tail, n, executing && p > 0, speed)[i]
            == if i <= p then v[i] else v[i].(entry := PlanSkip(v[p..], i - p))
  {
    hide Rotated, Block.Reach, At;
    var base := At(tail, p);
    var v := Nodes(b, tail, n, executing, speed);
    var k := if i < p then BLOCK_BUFFER_SIZE - p + i else i - p;
    SameSlot(tail, p, i);
    RotatedAt(b, base, k, b[0]);
    RotatedAt(c, base, k, b[0]);
    if i >= p { NodeOfEntry(b[At(tail, i)], PlanSkip(v[p..], k)); }
  }

  /** A recomputation changes entry speeds only, and keeps every slot sane. */
  lemma SlotsAfter(b: seq<Block>, c: seq<Block>, base: nat, w: seq<Node>, i: nat)
    requires |b| == |c| == BLOCK_BUFFER_SIZE && base < BLOCK_BUFFER_SIZE && i < BLOCK_BUFFER_SIZE
    requires 0 < |w| <= BLOCK_BUFFER_SIZE && WellFormed(w) && BlockOk(b[i])
    requires Rotated(c, base) == FwdDone(Rotated(b, base), w, |w| - 1)
    ensures BlockOk(c[i]) && c[i] == b[i].(entrySpeedSqr := c[i].entrySpeedSqr)
  {
    hide Rotated, Block.Reach, At;
    var k := Off(base, i);
    RotatedAt(b, base, k, b[0]);
    RotatedAt(c, base, k, b[0]);
    if k < |w| { SkipNonNegative(w, k); }
  }

  /** c differs from b in entry speeds only, and is sane. */
  ghost predicate Respeeded(b: seq<Block>, c: seq<Block>)
    requires |b| == |c| == BLOCK_BUFFER_SIZE
  {
    forall i | 0 <= i < BLOCK_BUFFER_SIZE :: BlockOk(c[i]) && c[i] == b[i].(entrySpeedSqr := c[i].entrySpeedSqr)
  }

  lemma RecalculatedSlots(b: seq<Block>, c: seq<Block>, base: nat, w: seq<Node>)
    requires |b| == |c| == BLOCK_BUFFER_SIZE && base < BLOCK_BUFFER_SIZE
    requires 0 < |w| <= BLOCK_BUFFER_SIZE && WellFormed(w)
    requires forall i | 0 <= i < BLOCK_BUFFER_SIZE :: BlockOk(b[i])
    requires Rotated(c, base) == FwdDone(Rotated(b, base), w, |w| - 1)
    ensures Respeeded(b, c)
  {
    forall i | 0 <= i < BLOCK_BUFFER_SIZE ensures BlockOk(c[i]) && c[i] == b[i].(entrySpeedSqr := c[i].entrySpeedSqr) {
      SlotsAfter(b, c, base, w, i);
    }
  }

  lemma RespeededMoves(b: seq<Block>, c: seq<Block>, base: nat, n: nat)
    requires |b| == |c| == BLOCK_BUFFER_SIZE && base < BLOCK_BUFFER_SIZE && n <= BLOCK_BUFFER_SIZE
    requires Respeeded(b, c)
    ensures MovesOf(b, base, n) == MovesOf(c, base, n)
  {
    hide BlockOk;
  }

  /** Nominal speeds do not depend on what planning and execution change in a block. */
  lemma SamePaces(b: seq<Block>, c: seq<Block>, base: nat, n: nat, f: nat, r: nat)
    requires |b| == |c| == BLOCK_BUFFER_SIZE && base < BLOCK_BUFFER_SIZE && n <= BLOCK_BUFFER_SIZE
    requires forall i | 0 <= i < BLOCK_BUFFER_SIZE ::
               c[i] == b[i].(entrySpeedSqr := c[i].entrySpeedSqr, millimeters := c[i].millimeters)
    ensures PacesOf(b, base, n, f, r) == PacesOf(c, base, n, f, r)
  {
    hide NominalSpeed;
  }

  lemma PacesShift(b: seq<Block>, tail: nat, n: nat, f: nat, r: nat)
    requires |b| == BLOCK_BUFFER_SIZE && tail < BLOCK_BUFFER_SIZE && 0 < n <= BLOCK_BUFFER_SIZE
    ensures PacesOf(b, NextBlockIndex(tail), n - 1, f, r) == PacesOf(b, tail, n, f, r)[1..]
  {
    hide NominalSpeed;
    assert forall j | 0 <= j < n - 1 :: At(NextBlockIndex(tail), j) == At(tail, j + 1);
  }

  lemma PacesExtend(b: seq<Block>, c: seq<Block>, tail: nat, n: nat, x: Block, f: nat, r: nat)
    requires |b| == |c| == BLOCK_BUFFER_SIZE && tail < BLOCK_BUFFER_SIZE && n < BLOCK_BUFFER_SIZE
    requires c == b[At(tail, n) := x]
    ensures PacesOf(c, tail, n, f, r) == PacesOf(b, tail, n, f, r)
    ensures PacesOf(c, tail, n + 1, f, r) == PacesOf(b, tail, n, f, r) + [x.NominalSpeedUnder(f, r)]
  {
    hide NominalSpeed;
    assert forall j | 0 <= j < n :: At(tail, j) != At(tail, n);
  }

  /** What a recomputation from p blocks into a queue of n leaves in the queue. */
  lemma RecalculatedQueue(b: seq<Block>, c: seq<Block>, tail: nat, p: nat, n: nat, executing: bool, speed: real)
    requires |b| == |c| == BLOCK_BUFFER_SIZE && tail < BLOCK_BUFFER_SIZE && p < n < BLOCK_BUFFER_SIZE
    requires n == 1 ==> !executing
    requires var w := Nodes(b, tail, n, executing, speed)[p..];
             Rotated(c, At(tail, p)) == FwdDone(Rotated(b, At(tail, p)), w, n - p - 1)
    ensures Nodes(c, tail, n, executing && p > 0, speed) == Replanned(Nodes(b, tail, n, executing, speed), p)
  {
    hide Rotated, Block.Reach, At;
    forall i | 0 <= i < n
      ensures Nodes(c, tail, n, executing && p > 0, speed)[i]
              == Replanned(Nodes(b, tail, n, executing, speed), p)[i]
    {
      QueueAfter(b, c, tail, p, n, executing, speed, i);
    }
  }

  lemma NodesOk(b: seq<Block>, base: nat, n: nat, executing: bool, speed: real)
    requires |b| == BLOCK_BUFFER_SIZE && base < BLOCK_BUFFER_SIZE && n <= BLOCK_BUFFER_SIZE
    requires forall i | 0 <= i < BLOCK_BUFFER_SIZE :: BlockOk(b[i])
    ensures WellFormed(Nodes(b, base, n, executing, speed))
  {
    forall j | 0 <= j < n
      ensures var x := Nodes(b, base, n, executing, speed)[j]; x.entry >= 0.0 && x.max >= 0.0 && x.reach >= 0.0
    {
      NodeOk(b[At(base, j)]);
    }
  }

  lemma NodesShift(b: seq<Block>, tail: nat, n: nat, executing: bool, speed: real)
    requires |b| == BLOCK_BUFFER_SIZE && tail < BLOCK_BUFFER_SIZE && 0 < n <= BLOCK_BUFFER_SIZE
    ensures Nodes(b, NextBlockIndex(tail), n - 1, false, speed) == Nodes(b, tail, n, executing, speed)[1..]
  {
    assert forall j | 0 <= j < n - 1 :: At(NextBlockIndex(tail), j) == At(tail, j + 1);
  }

  lemma MovesShift(b: seq<Block>, tail: nat, n: nat)
    requires |b| == BLOCK_BUFFER_SIZE && tail < BLOCK_BUFFER_SIZE && 0 < n <= BLOCK_BUFFER_SIZE
    ensures MovesOf(b, NextBlockIndex(tail), n - 1) == MovesOf(b, tail, n)[1..]
  {
    assert forall j | 0 <= j < n - 1 :: At(NextBlockIndex(tail), j) == At(tail, j + 1);
  }

  lemma ReleasedQueue(b: seq<Block>, c: seq<Block>, tail: nat, n: nat, executing: bool, speed: real)
    requires |b| == |c| == BLOCK_BUFFER_SIZE && tail < BLOCK_BUFFER_SIZE && n < BLOCK_BUFFER_SIZE
    requires c == if executing then b[tail := b[tail].(entrySpeedSqr := Sqr(speed))] else b
    ensures Nodes(c, tail, n, false, speed) == Nodes(b, tail, n, executing, speed)
    ensures MovesOf(b, tail, n) == MovesOf(c, tail, n)
  {
    hide Block.Reach;
    if executing { NodeOfEntry(b[tail], Sqr(speed)); }
  }

  /** Writing the free slot at the head leaves the queue before it alone and extends it by one. */
  lemma NodesExtend(b: seq<Block>, c: seq<Block>, tail: nat, n: nat, x: Block, executing: bool, speed: real)
    requires |b| == |c| == BLOCK_BUFFER_SIZE && tail < BLOCK_BUFFER_SIZE && n < BLOCK_BUFFER_SIZE
    requires c == b[At(tail, n) := x] && (executing ==> n > 0)
    ensures Nodes(c, tail, n, executing, speed) == Nodes(b, tail, n, executing, speed)
    ensures Nodes(c, tail, n + 1, executing, speed) == Nodes(b, tail, n, executing, speed) + [NodeOf(x)]
    ensures MovesOf(c, tail, n) == MovesOf(b, tail, n)
    ensures MovesOf(c, tail, n + 1) == MovesOf(b, tail, n) + [x.Move()]
  {
    hide Block.Reach;
    assert forall j | 0 <= j < n :: At(tail, j) != At(tail, n);
  }

  lemma MoveOf(b: Block, maxEntrySpeedSqr: real)
    ensures b.(maxEntrySpeedSqr := maxEntrySpeedSqr).Move() == b.Move()
    ensures b.(maxEntrySpeedSqr := maxEntrySpeedSqr).Reach() == b.Reach()
    ensures BlockOk(b) && maxEntrySpeedSqr >= 0.0 ==> BlockOk(b.(maxEntrySpeedSqr := maxEntrySpeedSqr))
  {
  }

  lemma SpeedUnused(b: seq<Block>, base: nat, n: nat, speed: real)
    requires |b| == BLOCK_BUFFER_SIZE && base < BLOCK_BUFFER_SIZE && n <= BLOCK_BUFFER_SIZE
    ensures Nodes(b, base, n, false, speed) == Nodes(b, base, n, false, 0.0)
  {
  }

  lemma FirstBlock(b: seq<Block>, c: seq<Block>, base: nat, tail: nat)
    requires |b| == |c| == BLOCK_BUFFER_SIZE && base < BLOCK_BUFFER_SIZE && tail < BLOCK_BUFFER_SIZE
    requires forall i | 0 <= i < BLOCK_BUFFER_SIZE :: BlockOk(b[i])
    requires b[tail].entrySpeedSqr == b[tail].maxEntrySpeedSqr == 0.0
    requires var w := Nodes(b, base, Dist(base, NextBlockIndex(tail)), false, 0.0);
             Rotated(c, base) == FwdDone(Rotated(b, base), w, |w| - 1)
    ensures var w := Nodes(b, base, Dist(base, NextBlockIndex(tail)), false, 0.0);
            At(base, Planned(w, |w| - 1)) == tail && c[tail] == b[tail]
  {
    hide Block.Reach, Rotated, BlockOk;
    var w := Nodes(b, base, Dist(base, NextBlockIndex(tail)), false, 0.0);
    NodesOk(b, base, |w|, false, 0.0);
    assert At(base, |w| - 1) == tail;
    FirstBlockPlan(w);
    RotatedAt(b, base, |w| - 1, b[0]);
    RotatedAt(c, base, |w| - 1, b[0]);
  }

  lemma SameSlot(tail: nat, p: nat, i: nat)
    requires tail < BLOCK_BUFFER_SIZE && p < BLOCK_BUFFER_SIZE && i < BLOCK_BUFFER_SIZE
    ensures At(At(tail, p), if i < p then BLOCK_BUFFER_SIZE - p + i else i - p) == At(tail, i)
  {
  }

  lemma OffsetMoves(tail: nat, p: nat, q: nat)
    requires tail < BLOCK_BUFFER_SIZE && p + q < BLOCK_BUFFER_SIZE
    ensures Off(tail, At(At(tail, p), q)) == p + q
  {
  }

  class PlannerState {
    const buf: array<Block>
    /** sys.f_override and sys.r_override, in percent. */
    const fOverride: nat
    const rOverride: nat
    var tail: nat
    var head: nat
    var nextHead: nat
    var planned: nat
    var position: Axes<int>
    var previousNominalSpeed: real

    // The stepper's hold on the executing block: pl_block != NULL, and its current speed.
    var prepping: bool
    var currentSpeed: real
    var recalculate: bool

    ghost predicate Indices()
      reads this
    {
      && buf.Length == BLOCK_BUFFER_SIZE
      && tail < BLOCK_BUFFER_SIZE && head < BLOCK_BUFFER_SIZE && planned < BLOCK_BUFFER_SIZE
    }

    ghost predicate SlotsOk()
      requires Indices()
      reads this, buf
    {
      forall i | 0 <= i < BLOCK_BUFFER_SIZE :: BlockOk(buf[i])
    }

    function Count(): (n: nat)
      requires Indices()
      reads this
    {
      if head >= tail then head - tail else BLOCK_BUFFER_SIZE - (tail - head)
    }

    /** The queued blocks from the tail on. */
    ghost function Queue(): (w: seq<Node>)
      requires Indices()
      reads this, buf
      ensures |w| == Count()
    {
      Nodes(buf[..], tail, Count(), prepping, currentSpeed)
    }

    /** The recomputation reaches and releases the executing block. */
    predicate Releases()
      requires Indices()
      reads this
    {
      Dist(planned, head) >= 2 && planned == tail && prepping
    }

    /** The blocks the recomputation looks at, from the planned pointer to the head. */
    ghost function Window(): (w: seq<Node>)
      requires Indices()
      reads this, buf
      ensures |w| == Dist(planned, head)
    {
      Nodes(buf[..], planned, Dist(planned, head), Releases(), currentSpeed)
    }

    /** st_update_plan_block_parameters: write the executing block's speed back and let go of it. */
    method StUpdatePlanBlockParameters()
      requires Indices()
      modifies this`prepping, this`recalculate, buf
      ensures !prepping && recalculate == (old(recalculate) || old(prepping))
      ensures buf[..] == if old(prepping)
                         then old(buf[..])[tail := old(buf[tail]).(entrySpeedSqr := Sqr(currentSpeed))]
                         else old(buf[..])
    {
      ghost var b := buf[..];
      if prepping {
        recalculate := true;
        var entrySpeedSqr := Sqr(currentSpeed);
        buf[tail] := buf[tail].(entrySpeedSqr := entrySpeedSqr);
        prepping := false;
        assert buf[..] == b[tail := b[tail].(entrySpeedSqr := entrySpeedSqr)];
      }
    }

    method WriteEntry(ghost base: nat, ghost k: nat, i: nat, entrySpeedSqr: real)
      requires Indices() && base < BLOCK_BUFFER_SIZE && k < BLOCK_BUFFER_SIZE && i == At(base, k)
      modifies buf
      ensures var r := Rotated(old(buf[..]), base);
              Rotated(buf[..], base) == r[k := r[k].(entrySpeedSqr := entrySpeedSqr)]
    {
      RotatedAt(buf[..], base, k, buf[i].(entrySpeedSqr := entrySpeedSqr));
      ghost var b := buf[..];
      buf[i] := buf[i].(entrySpeedSqr := entrySpeedSqr);
      assert buf[..] == b[i := b[i].(entrySpeedSqr := entrySpeedSqr)];
    }

    /** One step of the reverse pass: the fastest entry into current that can brake to next. */
    method LowerEntry(ghost k: nat, current: nat, next: nat)
      requires Indices() && k < BLOCK_BUFFER_SIZE - 1
      requires current == At(planned, k) && next == At(planned, k + 1)
      modifies buf
      ensures var r := Rotated(old(buf[..]), planned);
              Rotated(buf[..], planned)
              == r[k := r[k].(entrySpeedSqr := ReverseEntry(NodeOf(r[k]), r[k + 1].entrySpeedSqr))]
    {
      hide Block.Reach;
      RotatedAt(buf[..], planned, k, buf[current]);
      RotatedAt(buf[..], planned, k + 1, buf[next]);
      if buf[current].entrySpeedSqr != buf[current].maxEntrySpeedSqr {
        var entrySpeedSqr := buf[next].entrySpeedSqr + buf[current].Reach();
        if entrySpeedSqr < buf[current].maxEntrySpeedSqr {
          WriteEntry(planned, k, current, entrySpeedSqr);
        } else {
          WriteEntry(planned, k, current, buf[current].maxEntrySpeedSqr);
        }
      }
    }

    /** Releasing the executing block, seen from the planned pointer standing on it. */
    method Release()
      requires Indices() && planned == tail
      modifies this`prepping, this`recalculate, buf
      ensures !prepping && recalculate == (old(recalculate) || old(prepping))
      ensures var r := Rotated(old(buf[..]), planned);
              Rotated(buf[..], planned)
              == r[0 := r[0].(entrySpeedSqr := Seen(r[0], old(prepping), currentSpeed).entry)]
    {
      RotatedAt(buf[..], planned, 0, buf[tail].(entrySpeedSqr := Sqr(currentSpeed)));
      StUpdatePlanBlockParameters();
    }

    /** The newest block is planned to end at rest; with only two blocks to plan, that is all the
        reverse pass does. */
    method PlanLastBlock(current: nat)
      requires Indices() && Dist(planned, head) >= 2 && current == PrevBlockIndex(head)
      modifies this`prepping, this`recalculate, buf
      ensures var n := Dist(planned, head);
              && prepping == (old(prepping) && !(planned == tail && n == 2))
              && recalculate == (old(recalculate) || (old(prepping) && planned == tail && n == 2))
              && Rotated(buf[..], planned) == RevDone(Rotated(old(buf[..]), planned), old(Window()), n - 2)
    {
      hide Block.Reach, Rotated;
      ghost var w, n := Window(), Dist(planned, head);
      ghost var r0 := Rotated(buf[..], planned);
      WindowNodes(buf[..], planned, n, Releases(), currentSpeed);
      RotatedAt(buf[..], planned, n - 1, buf[current]);
      WriteEntry(planned, n - 1, current, Min(buf[current].maxEntrySpeedSqr, buf[current].Reach()));
      var blockIndex := PrevBlockIndex(current);
      if blockIndex == planned && blockIndex == tail { Release(); }
      assert Rotated(buf[..], planned) == RevDone(r0, w, n - 2);
    }

    /** One round of the reverse pass: release the executing block once it comes next, then plan
        current. */
    method PlanBlockBackward(ghost r0: seq<Block>, ghost w: seq<Node>, ghost j: nat,
                             current: nat, next: nat, before: nat)
      requires Indices() && |r0| == BLOCK_BUFFER_SIZE && 1 <= j < |w| - 1 <= BLOCK_BUFFER_SIZE - 1
      requires before == At(planned, j - 1) && current == At(planned, j) && next == At(planned, j + 1)
      requires before == tail ==> planned == tail && j == 1
      requires planned == tail && j == 1 ==> before == tail
      requires w[j] == NodeOf(r0[j]) && w[0] == Seen(r0[0], prepping && planned == tail, currentSpeed)
      requires Rotated(buf[..], planned) == RevDone(r0, w, j)
      modifies this`prepping, this`recalculate, buf
      ensures Rotated(buf[..], planned) == RevDone(r0, w, j - 1)
      ensures prepping == (old(prepping) && before != tail)
      ensures recalculate == (old(recalculate) || (old(prepping) && before == tail))
    {
      hide Block.Reach, Rotated;
      if before == tail { Release(); }
      LowerEntry(j, current, next);
      RevDoneStep(r0, w, j);
    }

    /** Reverse pass of planner_recalculate, with the release of the executing block. */
    method ReversePass()
      requires Indices() && Dist(planned, head) >= 2
      requires Off(planned, tail) == 0 || Off(planned, tail) >= Dist(planned, head) - 1
      modifies this`prepping, this`recalculate, buf
      ensures prepping == (old(prepping) && !old(Releases()))
      ensures recalculate == (old(recalculate) || old(Releases()))
      ensures Rotated(buf[..], planned) == FwdDone(Rotated(old(buf[..]), planned), old(Window()), 0)
    {
      hide Block.Reach, Rotated, At, PrevBlockIndex;
      ghost var w, j := Window(), Dist(planned, head) - 2;
      ghost var r0 := Rotated(buf[..], planned);
      WindowNodes(buf[..], planned, |w|, Releases(), currentSpeed);
      assert PrevBlockIndex(head) == At(planned, |w| - 1) by { PrevOfHead(planned, head); }
      var current := PrevBlockIndex(head);
      PlanLastBlock(current);
      BackwardStep(planned, head, tail, |w| - 1);
      var blockIndex := PrevBlockIndex(current);
      while blockIndex != planned
        invariant 0 <= j <= |w| - 2 && blockIndex == At(planned, j) && current == At(planned, j + 1)
        invariant Rotated(buf[..], planned) == RevDone(r0, w, j)
        invariant prepping == (old(prepping) && !(planned == tail && j == 0))
        invariant recalculate == (old(recalculate) || (old(prepping) && planned == tail && j == 0))
        decreases j
      {
        if j > 0 { BackwardStep(planned, head, tail, j); }
        var next := current;
        current := blockIndex;
        blockIndex := PrevBlockIndex(blockIndex);
        PlanBlockBackward(r0, w, j, current, next, blockIndex);
        j := j - 1;
      }
      if j > 0 { BackwardStep(planned, head, tail, j); }
      PassesMeet(r0, w);
    }

    /** One step of the forward pass; tells whether the planned pointer moves to next. */
    method RaiseEntry(ghost base: nat, ghost k: nat, current: nat, next: nat) returns (optimal: bool)
      requires Indices() && base < BLOCK_BUFFER_SIZE && k < BLOCK_BUFFER_SIZE - 1
      requires current == At(base, k) && next == At(base, k + 1)
      modifies buf
      ensures var r := Rotated(old(buf[..]), base);
              var v := ForwardEntry(NodeOf(r[k]), r[k + 1].entrySpeedSqr);
              && Rotated(buf[..], base) == r[k + 1 := r[k + 1].(entrySpeedSqr := v)]
              && optimal == (v < r[k + 1].entrySpeedSqr || v == r[k + 1].maxEntrySpeedSqr)
    {
      hide Block.Reach;
      RotatedAt(buf[..], base, k, buf[current]);
      RotatedAt(buf[..], base, k + 1, buf[next]);
      optimal := false;
      if buf[current].entrySpeedSqr < buf[next].entrySpeedSqr {
        var entrySpeedSqr := buf[current].entrySpeedSqr + buf[current].Reach();
        if entrySpeedSqr < buf[next].entrySpeedSqr {
          WriteEntry(base, k + 1, next, entrySpeedSqr);
          optimal := true;
        }
      }
      RotatedAt(buf[..], base, k + 1, buf[next]);
      if buf[next].entrySpeedSqr == buf[next].maxEntrySpeedSqr { optimal := true; }
    }

    /** Forward pass of planner_recalculate over the window w, of which r0 are the blocks. */
    method ForwardPass(ghost r0: seq<Block>, ghost w: seq<Node>)
      requires Indices() && |r0| == BLOCK_BUFFER_SIZE && |w| == Dist(planned, head)
      requires forall k | 0 <= k < |w| :: w[k] == NodeOf(r0[k]).(entry := w[k].entry)
      requires Rotated(buf[..], planned) == FwdDone(r0, w, 0)
      modifies this`planned, buf
      ensures Rotated(buf[..], old(planned)) == FwdDone(r0, w, |w| - 1)
      ensures planned == At(old(planned), Planned(w, |w| - 1))
    {
      hide Block.Reach, Rotated;
      ghost var p, j := planned, 1;
      var next := planned;
      var blockIndex := NextBlockIndex(planned);
      while blockIndex != head
        invariant 1 <= j <= |w| && blockIndex == At(p, j) && next == At(p, j - 1)
        invariant Rotated(buf[..], p) == FwdDone(r0, w, j - 1)
        invariant planned == At(p, Planned(w, j - 1))
        decreases |w| - j
      {
        var current := next;
        next := blockIndex;
        FwdDoneStep(r0, w, j);
        var optimal := RaiseEntry(p, j - 1, current, next);
        if optimal { planned := blockIndex; }
        blockIndex := NextBlockIndex(blockIndex);
        j := j + 1;
      }
    }

    /** planner_recalculate. */
    method Recalculate()
      requires Indices()
      requires Off(planned, tail) == 0 || Off(planned, tail) >= Dist(planned, head) - 1
      modifies this`planned, this`prepping, this`recalculate, buf
      ensures prepping == (old(prepping) && !old(Releases()))
      ensures recalculate == (old(recalculate) || old(Releases()))
      ensures var p, w := old(planned), old(Window());
              && Rotated(buf[..], p) == FwdDone(Rotated(old(buf[..]), p), w, |w| - 1)
              && planned == At(p, Planned(w, |w| - 1))
    {
      hide Block.Reach;
      ghost var w, r0 := Window(), Rotated(buf[..], planned);
      WindowNodes(buf[..], planned, |w|, Releases(), currentSpeed);
      if PrevBlockIndex(head) == planned {
        assert r0 == FwdDone(r0, w, 0);
        return;
      }
      ReversePass();
      ForwardPass(r0, w);
    }

    // ---- the planner's interface ---------------------------------------------------------------

    /** How far the planned pointer stands from the tail. */
    ghost function PlannedOffset(): (p: nat)
      requires Indices()
      reads this
    {
      Off(tail, planned)
    }

    /** The stored plan of a non-empty buffer is the optimal one; slots outside the queue, and the
        planned pointer of an empty buffer, may hold anything sane. */
    ghost predicate Valid()
      reads this, buf
      ensures Valid() ==> Indices()
    {
      && Indices() && SlotsOk() && nextHead == NextBlockIndex(head)
      && (Count() == 0 ==> !prepping)
      && (Count() > 0 ==> QueueOk(Queue(), PlannedOffset()) && Paced(Queue(), Paces(), previousNominalSpeed))
    }

    /** Nominal speeds of the queued blocks, tail first. */
    ghost function Paces(): (s: seq<real>)
      requires Indices()
      reads this, buf
      ensures |s| == Count()
    {
      PacesOf(buf[..], tail, Count(), fOverride, rOverride)
    }

    lemma TailNode()
      requires Held() && Count() > 0
      ensures Queue()[0] == Seen(buf[tail], prepping, currentSpeed) && BlockOk(buf[tail])
      ensures Queue()[0].entry == (if prepping then Sqr(currentSpeed) else buf[tail].entrySpeedSqr)
      ensures Queue()[0].reach == 2.0 * buf[tail].acceleration * buf[tail].millimeters
    {
      assert At(tail, 0) == tail;
    }

    lemma HeldQueue()
      requires Held() && Count() > 0
      ensures HeldOk(Queue()) && Paced(Queue(), Paces(), previousNominalSpeed)
    {
    }

    lemma ValidQueue()
      requires Valid() && Count() > 0
      ensures QueueOk(Queue(), PlannedOffset()) && Paced(Queue(), Paces(), previousNominalSpeed)
    {
    }

    lemma HeldInside()
      requires Held()
      ensures Count() > 0 ==> PlannedOffset() < Count()
      ensures Count() == 0 ==> !prepping && Queue() == []
    {
    }

    /** The state during and after a feed hold, until the queue is planned afresh. */
    ghost predicate Held()
      reads this, buf
      ensures Held() ==> Indices()
    {
      && Indices() && SlotsOk() && nextHead == NextBlockIndex(head)
      && (Count() == 0 ==> !prepping)
      && (Count() > 0 ==>
            && HeldOk(Queue()) && PlannedOffset() < Count()
            && Paced(Queue(), Paces(), previousNominalSpeed))
    }

    lemma ValidIsHeld()
      requires Valid()
      ensures Held()
    {
      if Count() > 0 { QueueOkIsHeld(Queue(), PlannedOffset()); }
    }

    /** Motor moves of the queued blocks, tail first. */
    ghost function Moves(): (m: seq<Line>)
      requires Indices()
      reads this, buf
      ensures |m| == Count()
    {
      MovesOf(buf[..], tail, Count())
    }

    /** plan_get_exec_block_exit_speed_sqr */
    method PlanGetExecBlockExitSpeedSqr() returns (exitSpeedSqr: real)
      requires Held() && Count() > 0
      ensures exitSpeedSqr == ExitOf(Queue())
    {
      var blockIndex := NextBlockIndex(tail);
      if blockIndex == head { return 0.0; }
      assert At(tail, 1) == blockIndex;
      return buf[blockIndex].entrySpeedSqr;
    }

    lemma TailMove()
      requires Indices() && Count() > 0
      ensures Moves()[0] == buf[tail].Move()
    {
      assert At(tail, 0) == tail;
    }

    /** As long as no override changes, the tail block neither starts nor ends faster than its
        nominal speed. */
    lemma TailPace()
      requires Held() && Count() > 0
      ensures var nominal := buf[tail].NominalSpeedUnder(fOverride, rOverride);
              && nominal >= MINIMUM_FEED_RATE
              && Queue()[0].entry <= Sqr(nominal) && ExitOf(Queue()) <= Sqr(nominal)
    {
      hide NominalSpeed, HeldOk, Nodes, Sqr;
      assert At(tail, 0) == tail;
      assert Paces()[0] == buf[tail].NominalSpeedUnder(fOverride, rOverride);
      PacedExit(Queue(), Paces(), previousNominalSpeed);
    }

    constructor (fOverride: nat, rOverride: nat)
      ensures Valid() && Count() == 0 && !prepping && !recalculate && fresh(buf)
      ensures this.fOverride == fOverride && this.rOverride == rOverride
    {
      this.fOverride, this.rOverride := fOverride, rOverride;
      buf := new Block[BLOCK_BUFFER_SIZE](_ => EMPTY_BLOCK);
      tail, head, nextHead, planned := 0, 0, 1, 0;
      position, previousNominalSpeed := Axes(0, 0, 0), 0.0;
      prepping, currentSpeed, recalculate := false, 0.0, false;
    }

    /** plan_sync_position */
    method PlanSyncPosition(sysPosition: Axes<int>)
      requires Indices()
      modifies this`position
      ensures position == Machine.Machine(sysPosition)
      ensures old(Valid()) ==> Valid()
      ensures Queue() == old(Queue()) && Moves() == old(Moves())
    {
      position := Machine.Machine(sysPosition);
    }

    /** The executing block is used up: the stepper lets go of it and plan_discard_current_block
        drops it. */
    method PlanDiscardCurrentBlock()
      requires Held()
      modifies this`tail, this`planned, this`prepping
      ensures Held() && !prepping && (old(Valid()) ==> Valid())
      ensures old(Count()) == 0 ==> Count() == 0
      ensures old(Count()) > 0 ==> Queue() == old(Queue())[1..] && Moves() == old(Moves())[1..]
    {
      hide Block.Reach, Plan, Rev, Pinned, TailCanBrake, QueueOk, HeldOk, BlockOk, Nodes, MovesOf, PacesOf, Paced;
      ghost var v, n := Queue(), Count();
      ghost var ok, p := Valid(), PlannedOffset();
      if head != tail {
        NodesShift(buf[..], tail, n, prepping, currentSpeed);
        MovesShift(buf[..], tail, n);
        PacesShift(buf[..], tail, n, fOverride, rOverride);
        if n > 1 {
          PacedDiscard(v, Paces(), previousNominalSpeed);
          DiscardHeld(v);
          if ok { DiscardPlan(v, p); }
        }
        var blockIndex := NextBlockIndex(tail);
        if tail == planned { planned := blockIndex; }
        tail := blockIndex;
        prepping := false;
      }
    }

    /** The segment generator takes up the tail block at its entry speed. */
    method StTakeTailBlock(speed: real)
      requires Valid() && Count() > 0 && !prepping
      requires Sqr(speed) == buf[tail].entrySpeedSqr
      modifies this`prepping, this`currentSpeed, this`recalculate
      ensures Valid() && prepping && !recalculate && Queue() == old(Queue()) && Moves() == old(Moves())
      ensures currentSpeed == speed
    {
      hide QueueOk, Paced, PacesOf, BlockOk;
      prepping, currentSpeed, recalculate := true, speed, false;
      assert Queue() == old(Queue());
    }

    /** During a hold it takes up the next block at the speed the previous one was left with,
        which is no more than planned, and overrides the planned entry speed. */
    method StTakeHeldBlock(speed: real)
      requires Held() && Count() > 0 && !prepping
      requires 0.0 <= Sqr(speed) <= buf[tail].entrySpeedSqr
      modifies this`prepping, this`currentSpeed, this`recalculate, buf
      ensures Held() && prepping && !recalculate && Moves() == old(Moves())
      ensures Queue() == old(Queue())[0 := old(Queue()[0]).(entry := Sqr(speed))]
      ensures currentSpeed == speed && buf[tail] == old(buf[tail]).(entrySpeedSqr := buf[tail].entrySpeedSqr)
    {
      hide Rev, Plan, Pinned, Paced, PacesOf;
      ghost var v, b := Queue(), buf[..];
      prepping, currentSpeed, recalculate := true, speed, false;
      var entrySpeedSqr := Sqr(speed);
      buf[tail] := buf[tail].(entrySpeedSqr := entrySpeedSqr);
      assert buf[..] == b[tail := b[tail].(entrySpeedSqr := entrySpeedSqr)];
      ghost var u := v[0 := v[0].(entry := entrySpeedSqr)];
      NodeOfEntry(b[tail], entrySpeedSqr);
      assert Queue() == u;
      assert u[1..] == v[1..];
      SlowPlan(v, u);
      SamePaces(b, buf[..], tail, Count(), fOverride, rOverride);
      PacedSlows(v, u, Paces(), previousNominalSpeed);
    }

    lemma PreviousPace()
      requires Held()
      ensures Count() > 0 ==> previousNominalSpeed >= MINIMUM_FEED_RATE
      ensures nextHead == NextBlockIndex(head)
    {
    }

    lemma FirstPace()
      requires Indices() && Count() > 0
      ensures Paces()[0] == buf[tail].NominalSpeedUnder(fOverride, rOverride)
    {
      assert At(tail, 0) == tail;
    }

    /** The segment generator has cut a segment off the tail block. */
    method StAdvance(speed: real, millimeters: real)
      requires Valid() && prepping && 0.0 <= millimeters
      requires var n := Seen(buf[tail].(millimeters := millimeters), true, speed);
               Progresses(Queue(), Queue()[0 := n])
      requires Sqr(speed) <= Sqr(buf[tail].NominalSpeedUnder(fOverride, rOverride))
      modifies this`currentSpeed, buf
      ensures Valid() && prepping && Moves() == old(Moves())
      ensures Queue() == old(Queue())[0 := Seen(old(buf[tail]).(millimeters := millimeters), true, speed)]
      ensures currentSpeed == speed && buf[tail] == old(buf[tail]).(millimeters := millimeters)
    {
      hide Paced, PacesOf, NominalSpeed, QueueOk, Plan, Progresses;
      ghost var v, b := Queue(), buf[..];
      FirstPace();
      currentSpeed := speed;
      buf[tail] := buf[tail].(millimeters := millimeters);
      assert buf[..] == b[tail := b[tail].(millimeters := millimeters)];
      ghost var u := v[0 := Seen(buf[tail], true, speed)];
      assert Queue() == u;
      ProgressPlan(v, u, PlannedOffset());
      SamePaces(b, buf[..], tail, Count(), fOverride, rOverride);
      PacedProgress(v, u, Paces(), previousNominalSpeed);
    }

    /** The same while a hold forces a deceleration. */
    method StHoldAdvance(speed: real, millimeters: real)
      requires Held() && prepping && 0.0 <= millimeters
      requires var n := Seen(buf[tail].(millimeters := millimeters), true, speed);
               Slows(Queue(), Queue()[0 := n])
      modifies this`currentSpeed, buf
      ensures Held() && prepping && Moves() == old(Moves())
      ensures Queue() == old(Queue())[0 := Seen(old(buf[tail]).(millimeters := millimeters), true, speed)]
      ensures currentSpeed == speed && buf[tail] == old(buf[tail]).(millimeters := millimeters)
    {
      hide Rev, Plan, Pinned, Paced, PacesOf;
      ghost var v, b := Queue(), buf[..];
      currentSpeed := speed;
      buf[tail] := buf[tail].(millimeters := millimeters);
      assert buf[..] == b[tail := b[tail].(millimeters := millimeters)];
      ghost var u := v[0 := Seen(buf[tail], true, speed)];
      assert Queue() == u;
      SlowPlan(v, u);
      SamePaces(b, buf[..], tail, Count(), fOverride, rOverride);
      PacedSlows(v, u, Paces(), previousNominalSpeed);
    }

    /** st_update_plan_block_parameters as called when a hold begins. */
    method StRelease()
      requires Held()
      modifies this`prepping, this`recalculate, buf
      ensures Held() && !prepping && (old(Valid()) ==> Valid())
      ensures recalculate == (old(recalculate) || old(prepping))
      ensures Queue() == old(Queue()) && Moves() == old(Moves()) && Paces() == old(Paces())
      ensures Count() > 0 ==> buf[tail] == old(buf[tail]).(entrySpeedSqr := buf[tail].entrySpeedSqr)
    {
      hide Block.Reach, Plan, Rev, Pinned, TailCanBrake, QueueOk, HeldOk, Nodes, MovesOf, PacesOf, Paced;
      ghost var b := buf[..];
      StUpdatePlanBlockParameters();
      ReleasedQueue(b, buf[..], tail, Count(), old(prepping), currentSpeed);
      SamePaces(b, buf[..], tail, Count(), fOverride, rOverride);
    }

    /** plan_cycle_reinitialize: plan afresh from the speed a feed hold has left. */
    method PlanCycleReinitialize()
      requires Held()
      modifies this`planned, this`prepping, this`recalculate, buf
      ensures Valid() && !prepping && recalculate == (old(recalculate) || old(prepping))
      ensures Queue() == WithPlan(old(Queue())) && Moves() == old(Moves())
      ensures old(Count()) > 0 ==> buf[tail] == old(buf[tail]).(entrySpeedSqr := buf[tail].entrySpeedSqr)
    {
      hide Block.Reach, Plan, Rev, Pinned, TailCanBrake, PlanSkip, Planned, Nodes, MovesOf, HeldOk, Replanned, WithPlan;
      hide PacesOf, Paced;
      ghost var v, n := Queue(), Count();
      StRelease();
      planned := tail;
      if n > 0 {
        assert v[0..] == v;
        ResumePlan(v);
        PacedReplanned(v, 0, Paces(), previousNominalSpeed);
      }
      Replan();
    }

    /** planner_recalculate in terms of the queue: re-planned from the planned pointer on.  With an
        empty queue it may lead the pointer astray, which the next block queued puts right. */
    method Replan()
      requires Indices() && SlotsOk()
      requires Count() > 0 ==>
                 PlannedOffset() < Count() && (Count() == 1 || PlannedOffset() == 0 ==> !prepping || Releases())
      modifies this`planned, this`prepping, this`recalculate, buf
      ensures Indices() && SlotsOk() && Moves() == old(Moves()) && Paces() == old(Paces())
      ensures Count() > 0 ==>
                var p, u := old(PlannedOffset()), old(Queue());
                Queue() == Replanned(u, p) && PlannedOffset() == p + Planned(u[p..], |u| - p - 1)
      ensures prepping == (old(prepping) && !old(Releases())) && recalculate == (old(recalculate) || old(Releases()))
      ensures Count() > 0 ==> buf[tail] == old(buf[tail]).(entrySpeedSqr := buf[tail].entrySpeedSqr)
    {
      hide Block.Reach, Planned, Rotated, FwdDone, Nodes, MovesOf, PacesOf, Replanned, BlockOk, RevDone;
      ghost var b, n, p, u, w, base := buf[..], Count(), PlannedOffset(), Queue(), Window(), planned;
      if n > 0 { WindowIsQueue(b, tail, p, n, prepping, currentSpeed); }
      NodesOk(b, planned, Dist(planned, head), Releases(), currentSpeed);
      Recalculate();
      RecalculatedSlots(b, buf[..], base, w);
      RespeededMoves(b, buf[..], tail, n);
      SamePaces(b, buf[..], tail, n, fOverride, rOverride);
      if n > 0 {
        RecalculatedQueue(b, buf[..], tail, p, n, old(prepping), currentSpeed);
        OffsetMoves(tail, p, Planned(u[p..], n - p - 1));
      }
    }

    /** The tail of plan_buffer_line: the block written at the head joins the queue. */
    method Enqueue(ghost x: Block, target: Axes<int>, nominal: real)
      requires Held() && nextHead != tail && buf[head] == x && x.entrySpeedSqr == 0.0
      requires Count() == 0 ==> x.maxEntrySpeedSqr == 0.0
      requires nominal == x.NominalSpeedUnder(fOverride, rOverride)
      requires x.maxEntrySpeedSqr <= Sqr(nominal) && (Count() > 0 ==> x.maxEntrySpeedSqr <= Sqr(previousNominalSpeed))
      modifies this`head, this`nextHead, this`planned, this`prepping, this`recalculate, this`position,
               this`previousNominalSpeed, buf
      ensures position == target && previousNominalSpeed == nominal
      ensures Held() && Count() == old(Count()) + 1 && Moves() == old(Moves()) + [x.Move()]
      ensures Paces() == old(Paces()) + [nominal]
      ensures old(Valid()) || old(Count()) == 0 ==> Valid() && Queue() == WithPlan(old(Queue()) + [NodeOf(x)])
      ensures old(Count()) > 0 ==>
                && Queue() == Replanned(old(Queue()) + [NodeOf(x)], old(PlannedOffset()))
                && old(PlannedOffset()) <= PlannedOffset()
                && forall i | 0 <= i <= old(PlannedOffset()) :: Queue()[i] == old(Queue()[i])
      ensures (prepping || recalculate) == (old(prepping) || old(recalculate))
      ensures prepping && recalculate ==> old(prepping) && old(recalculate)
      ensures prepping ==> old(prepping) && old(PlannedOffset()) >= 1
      ensures old(Count()) > 0 ==> buf[tail] == old(buf[tail]).(entrySpeedSqr := buf[tail].entrySpeedSqr)
    {
      hide Block.Reach, Plan, Rev, Pinned, TailCanBrake, PlanSkip, Planned, RevSkip, Rotated, FwdDone, Nodes, MovesOf;
      hide PacesOf, Paced, NominalSpeed, QueueOk, HeldOk, BlockOk, Replanned, WithPlan, Sqr;
      ghost var v, n, p, b := Queue(), Count(), PlannedOffset(), buf[..];
      assert b == b[At(tail, n) := x];
      NodesExtend(b, b, tail, n, x, prepping, currentSpeed);
      PacesExtend(b, b, tail, n, x, fOverride, rOverride);
      if n > 0 { PacedAppend(v, Paces(), previousNominalSpeed, NodeOf(x), nominal); }
      previousNominalSpeed, position := nominal, target;
      var empty := head == tail;
      head := nextHead;
      nextHead := NextBlockIndex(head);
      if empty {
        EnqueueFirst(x);
        assert v + [NodeOf(x)] == [NodeOf(x)];
        ValidIsHeld();
      } else {
        EnqueueNext(x, v, p);
      }
    }

    method EnqueueNext(ghost x: Block, ghost v: seq<Node>, ghost p: nat)
      requires Indices() && SlotsOk() && nextHead == NextBlockIndex(head) && Count() > 1
      requires p == PlannedOffset() && x.entrySpeedSqr == 0.0 && BlockOk(x)
      requires |v| == Count() - 1 && HeldOk(v) && p < |v| && Queue() == v + [NodeOf(x)]
      requires Paced(Queue(), Paces(), previousNominalSpeed)
      modifies this`planned, this`prepping, this`recalculate, buf
      ensures Held() && Queue() == Replanned(v + [NodeOf(x)], p) && Moves() == old(Moves())
      ensures QueueOk(v, p) ==> Valid() && Queue() == WithPlan(v + [NodeOf(x)])
      ensures Paces() == old(Paces())
      ensures old(PlannedOffset()) <= PlannedOffset()
      ensures forall i | 0 <= i <= p :: Queue()[i] == v[i]
      ensures (prepping || recalculate) == (old(prepping) || old(recalculate))
      ensures prepping && recalculate ==> old(prepping) && old(recalculate)
      ensures prepping ==> old(prepping) && old(PlannedOffset()) >= 1
      ensures buf[tail] == old(buf[tail]).(entrySpeedSqr := buf[tail].entrySpeedSqr)
    {
      hide Block.Reach, Plan, Rev, Pinned, TailCanBrake, PlanSkip, Planned, RevSkip, Rotated, FwdDone, Nodes,
           MovesOf, QueueOk, HeldOk, WithPlan, Replanned, BlockOk, Paced, PacesOf;
      NodeOk(x);
      AppendEither(v, NodeOf(x), p);
      PacedReplanned(Queue(), p, Paces(), previousNominalSpeed);
      Replan();
    }

    method EnqueueFirst(ghost x: Block)
      requires Indices() && SlotsOk() && nextHead == NextBlockIndex(head) && Count() == 1
      requires buf[tail] == x && x.entrySpeedSqr == x.maxEntrySpeedSqr == 0.0 && !prepping
      requires Paces() == [previousNominalSpeed] && previousNominalSpeed >= MINIMUM_FEED_RATE
      modifies this`planned, this`prepping, this`recalculate, buf
      ensures Valid() && Queue() == WithPlan([NodeOf(x)]) && Moves() == [x.Move()] && Paces() == old(Paces())
      ensures (prepping || recalculate) == (old(prepping) || old(recalculate))
      ensures prepping && recalculate ==> old(prepping) && old(recalculate)
      ensures !prepping
    {
      hide Block.Reach, Rotated, FwdDone, PlanSkip, RevSkip, Planned, Rev, PacesOf, Sqr;
      ghost var b, base := buf[..], planned;
      NodesOk(b, planned, Dist(planned, head), false, currentSpeed);
      SpeedUnused(b, planned, Dist(planned, head), currentSpeed);
      Recalculate();
      RecalculatedSlots(b, buf[..], base, Nodes(b, base, Dist(base, head), false, 0.0));
      FirstBlock(b, buf[..], base, tail);
      SamePaces(b, buf[..], tail, 1, fOverride, rOverride);
      assert Queue() == [NodeOf(x)];
      NodeOk(x);
      assert WithPlan([NodeOf(x)]) == [NodeOf(x)];
    }

    /** First half of plan_buffer_line: the new block, not yet in the queue. */
    method PrepareBlock(target: Axes<int>, from: Axes<int>, data: LineData, atRest: bool)
        returns (block: Block)
      requires data.Valid()
      ensures BlockOk(block) && block.entrySpeedSqr == block.maxEntrySpeedSqr == 0.0
      ensures block.Move() == Straight(Sub(Motors(target), Motors(from)))
      ensures block.stepEventCount == 0 <==> Motors(target) == Motors(from)
      ensures block.stepEventCount > 0 ==>
                && block.systemMotion == data.systemMotion
                && block.acceleration == data.acceleration && block.millimeters == data.millimeters
                && block.maxJunctionSpeedSqr == (if atRest then 0.0 else data.junctionSpeedSqr)
                && (forall f, r :: block.NominalSpeedUnder(f, r) == data.NominalSpeedUnder(f, r))
    {
      hide NominalSpeed, Sub;
      MotorsLinear(target, from);
      var delta := Sub(target, from);
      block := EMPTY_BLOCK.(rapid := data.rapid, systemMotion := data.systemMotion,
                            noFeedOverride := data.noFeedOverride);
      block := block.(steps := Axes(Abs(delta.x + delta.y), Abs(delta.x - delta.y), Abs(delta.z)));
      block := block.(stepEventCount := Max(Max(block.steps.x, block.steps.y), block.steps.z));
      block := block.(negative := Axes(delta.x + delta.y < 0, delta.x - delta.y < 0, delta.z < 0));
      if block.stepEventCount == 0 { return; }
      block := block.(millimeters := data.millimeters, acceleration := data.acceleration,
                      rapidRate := data.rapidRate);
      block := block.(programmedRate := data.ProgrammedRate());
      if !atRest { block := block.(maxJunctionSpeedSqr := data.junctionSpeedSqr); }
    }

    /** The slot at the head is not part of the queue. */
    method WriteFree(block: Block)
      requires Held() && BlockOk(block)
      modifies buf
      ensures Held() && (old(Valid()) ==> Valid())
      ensures Queue() == old(Queue()) && Moves() == old(Moves()) && Paces() == old(Paces()) && buf[head] == block
      ensures Count() > 0 ==> buf[tail] == old(buf[tail])
    {
      hide Block.Reach, NodeOf, Nodes, MovesOf, PacesOf, Paced, QueueOk, HeldOk, BlockOk;
      ghost var n, b := Count(), buf[..];
      NodesExtend(b, b[head := block], tail, n, block, prepping, currentSpeed);
      PacesExtend(b, b[head := block], tail, n, block, fOverride, rOverride);
      buf[head] := block;
      assert buf[..] == b[head := block];
    }

    /** plan_buffer_line.  For an ordinary move the caller has made sure that the buffer is not full. */
    method PlanBufferLine(target: Axes<int>, sysPosition: Axes<int>, data: LineData) returns (ok: bool)
      requires Held() && data.Valid() && (data.systemMotion || nextHead != tail)
      modifies this`head, this`nextHead, this`planned, this`prepping, this`recalculate,
               this`position, this`previousNominalSpeed, buf
      ensures Held() && (old(Valid()) ==> Valid())
      ensures var from := if data.systemMotion then Machine.Machine(sysPosition) else old(position);
              ok <==> Motors(target) != Motors(from)
      ensures !ok || data.systemMotion ==>
                && Queue() == old(Queue()) && Moves() == old(Moves()) && position == old(position)
                && head == old(head) && planned == old(planned) && prepping == old(prepping)
      ensures ok && !data.systemMotion ==>
                var nominal := data.NominalSpeedUnder(fOverride, rOverride);
                var u := old(Queue()) + [data.Node(old(Count()) == 0, nominal, old(previousNominalSpeed))];
                && position == target && previousNominalSpeed == nominal && AsAsked(data, fOverride, rOverride, nominal)
                && Paces() == old(Paces()) + [nominal]
                && Moves() == old(Moves()) + [Straight(Sub(Motors(target), Motors(old(position))))]
                && (old(Valid()) || old(Count()) == 0 ==> Queue() == WithPlan(u))
                && (old(Count()) > 0 ==>
                      Queue() == Replanned(u, old(PlannedOffset())) && old(PlannedOffset()) <= PlannedOffset()
                      && forall i | 0 <= i <= old(PlannedOffset()) :: Queue()[i] == old(Queue()[i]))
      ensures (prepping || recalculate) == (old(prepping) || old(recalculate))
      ensures prepping && recalculate ==> old(prepping) && old(recalculate)
      ensures prepping ==> old(prepping) && (ok && !data.systemMotion ==> old(PlannedOffset()) >= 1)
      ensures old(Count()) > 0 ==> buf[tail] == old(buf[tail]).(entrySpeedSqr := buf[tail].entrySpeedSqr)
    {
      hide Plan, Rev, Pinned, TailCanBrake, Nodes, MovesOf, Block.Move, Straight, NominalSpeed, MaxEntrySpeedSqr,
           WithPlan, AsAsked;
      hide PlannerState.Held, PlannerState.Valid, PlannerState.Queue, PlannerState.Moves, BlockOk, QueueOk, HeldOk,
           Replanned, Motors, Sub, Machine.Machine, Paced, PacesOf, Sqr;
      PreviousPace();
      var from := if data.systemMotion then Machine.Machine(sysPosition) else position;
      var block := PrepareBlock(target, from, data, head == tail || data.systemMotion);
      var nominal := 0.0;
      if block.stepEventCount > 0 && !data.systemMotion {
        nominal := block.NominalSpeedUnder(fOverride, rOverride);
        RateAsAsked(data, fOverride, rOverride);
        MaxEntryPaced(block.maxJunctionSpeedSqr, nominal, previousNominalSpeed);
        MoveOf(block, MaxEntrySpeedSqr(block.maxJunctionSpeedSqr, nominal, previousNominalSpeed));
        block := block.(maxEntrySpeedSqr :=
          MaxEntrySpeedSqr(block.maxJunctionSpeedSqr, nominal, previousNominalSpeed));
        assert NodeOf(block) == data.Node(head == tail, nominal, previousNominalSpeed);
      }
      hide Block.Reach, NodeOf;
      WriteFree(block);
      if block.stepEventCount == 0 { return false; }
      ok := true;
      if !data.systemMotion {
        Enqueue(block, target, nominal);
      }
    }
  }
}
