/** The stepper's two fixed rings and its interrupt (stepper.c), proved to behave like the unbounded
    queue of module StepQueue: six segment slots, one kept free, and five block slots. */
module Stepper {
  import opened Machine
  import opened Bresenham
  import opened StepQueue

  /** Block data as the interrupt uses them: counts shifted left by the highest smoothing level. */
  datatype StBlock = StBlock(steps: Axes<nat>, stepEventCount: nat, negative: Axes<bool>)

  datatype Segment = Segment(nStep: nat, stBlockIndex: nat, amassLevel: nat)

  function Stored(b: Line): StBlock {
    StBlock(Axes(Shl(b.steps.x, MAX_AMASS_LEVEL), Shl(b.steps.y, MAX_AMASS_LEVEL), Shl(b.steps.z, MAX_AMASS_LEVEL)),
            Shl(b.n, MAX_AMASS_LEVEL), b.negative)
  }

  function Shifted(b: StBlock, level: nat): Axes<nat>
    requires level <= MAX_AMASS_LEVEL
  {
    Axes(Shr(b.steps.x, level), Shr(b.steps.y, level), Shr(b.steps.z, level))
  }

  function TickedAxes(t: Axes<Track>, increments: Axes<nat>, limit: nat): Axes<Track> {
    Axes(AxisTick(t.x, increments.x, limit), AxisTick(t.y, increments.y, limit), AxisTick(t.z, increments.z, limit))
  }

  /** st_next_block_index */
  function StNextBlockIndex(i: nat): nat {
    if i + 1 == SEGMENT_BUFFER_SIZE - 1 then 0 else i + 1
  }

  function NextSegmentIndex(i: nat): nat {
    if i + 1 == SEGMENT_BUFFER_SIZE then 0 else i + 1
  }

  /** Slot of the segment k places after the tail. */
  function SegmentSlot(tail: nat, k: nat): (i: nat)
    requires tail < SEGMENT_BUFFER_SIZE && k < SEGMENT_BUFFER_SIZE
    ensures i < SEGMENT_BUFFER_SIZE
  {
    if tail + k < SEGMENT_BUFFER_SIZE then tail + k else tail + k - SEGMENT_BUFFER_SIZE
  }

  ghost predicate PieceStored(g: Segment, p: Piece) {
    p.level <= MAX_AMASS_LEVEL && g == Segment(Shl(p.n, p.level), p.id % ST_BLOCKS, p.level)
  }

  /** The segment ring holds the queued pieces, oldest at the tail. */
  ghost predicate RingOk(ring: seq<Segment>, tail: nat, head: nat, ps: seq<Piece>) {
    && |ring| == SEGMENT_BUFFER_SIZE && tail < SEGMENT_BUFFER_SIZE && |ps| < SEGMENT_BUFFER_SIZE
    && head == SegmentSlot(tail, |ps|)
    && forall k | 0 <= k < |ps| :: PieceStored(ring[SegmentSlot(tail, k)], ps[k])
  }

  lemma RingCommit(ring: seq<Segment>, tail: nat, head: nat, ps: seq<Piece>, g: Segment, p: Piece)
    requires RingOk(ring, tail, head, ps) && |ps| < SEGMENT_BUFFER_SIZE - 1 && PieceStored(g, p)
    ensures RingOk(ring[head := g], tail, NextSegmentIndex(head), ps + [p])
  {
    hide PieceStored;
  }

  lemma RingHead(ring: seq<Segment>, tail: nat, head: nat, ps: seq<Piece>)
    requires RingOk(ring, tail, head, ps)
    ensures |ring| == SEGMENT_BUFFER_SIZE && head < SEGMENT_BUFFER_SIZE && tail < SEGMENT_BUFFER_SIZE
    ensures head == tail <==> ps == []
    ensures |ps| == SEGMENT_BUFFER_SIZE - 1 <==> NextSegmentIndex(head) == tail
    ensures |ps| > 0 ==> PieceStored(ring[tail], ps[0])
  {
    if |ps| > 0 { assert SegmentSlot(tail, 0) == tail; }
  }

  lemma RingPop(ring: seq<Segment>, tail: nat, head: nat, ps: seq<Piece>)
    requires RingOk(ring, tail, head, ps) && |ps| > 0
    ensures RingOk(ring, NextSegmentIndex(tail), head, ps[1..])
  {
    hide PieceStored;
    var t := NextSegmentIndex(tail);
    forall k | 0 <= k < |ps| - 1 ensures PieceStored(ring[SegmentSlot(t, k)], ps[1..][k]) {
      assert SegmentSlot(t, k) == SegmentSlot(tail, k + 1);
    }
  }

  /** Every block whose data are still needed sits unharmed in its slot. */
  ghost predicate SlotsOk(slots: seq<StBlock>, s: State) {
    && |slots| == ST_BLOCKS
    && forall id {:trigger s.blocks[id]} | 1 <= id < |s.blocks| && Oldest(s) <= id ::
         slots[id % ST_BLOCKS] == Stored(s.blocks[id])
  }

  lemma SlotsLoad(slots: seq<StBlock>, s: State, b: Line)
    requires Inv(s) && CanLoad(s, b) && SlotsOk(slots, s)
    ensures SlotsOk(slots[(s.PrepId() + 1) % ST_BLOCKS := Stored(b)], Load(s, b))
  {
    hide Inv, Stored, CanLoad;
    var t := Load(s, b);
    LoadOrder(s, b);
    forall id | 1 <= id < |t.blocks| && Oldest(t) <= id
      ensures slots[(s.PrepId() + 1) % ST_BLOCKS := Stored(b)][id % ST_BLOCKS] == Stored(t.blocks[id])
    {
      if id <= s.PrepId() {
        assert t.blocks[id] == s.blocks[id];
        assert Oldest(s) <= id;
        SlotDiffers(id, s.PrepId() + 1);
      }
    }
  }

  lemma SlotsKept(slots: seq<StBlock>, s: State, t: State)
    requires SlotsOk(slots, s) && t.blocks == s.blocks && Oldest(s) <= Oldest(t)
    ensures SlotsOk(slots, t)
  {
    hide Stored, Oldest;
  }

  lemma PopOldest(s: State)
    requires OrderOk(s) && |s.pieces| > 0 && |s.blocks| > 0
    ensures Oldest(s) <= Oldest(s.(pieces := s.pieces[1..]))
  {
  }

  class StepperState {
    const stBlocks: array<StBlock>
    const segments: array<Segment>
    var segmentTail: nat
    var segmentHead: nat
    var segmentNextHead: nat
    /** prep.st_block_index and prep.steps_remaining */
    var prepIndex: nat
    var stepsRemaining: nat
    /** st.exec_segment is not null; it then points at the tail slot */
    var executing: bool
    var execIndex: nat
    var counters: Axes<nat>
    var steps: Axes<nat>
    var stepCount: nat
    var sysPosition: Axes<int>
    /** stepper interrupt on */
    var enabled: bool
    /** EXEC_CYCLE_STOP raised */
    var cycleStop: bool
    ghost var queue: State

    ghost predicate Arrays()
      reads this
    {
      stBlocks.Length == ST_BLOCKS && segments.Length == SEGMENT_BUFFER_SIZE
    }

    /** The scalars of the tracer and the generator are those of the queue. */
    ghost predicate ScalarsOk()
      reads this
    {
      && segmentNextHead == NextSegmentIndex(segmentHead)
      && prepIndex == queue.PrepId() % ST_BLOCKS && stepsRemaining == queue.remaining
      && executing == queue.running && execIndex == queue.execId % ST_BLOCKS
      && counters == Axes(queue.tracks.x.counter, queue.tracks.y.counter, queue.tracks.z.counter)
      && sysPosition == queue.position
    }

    ghost predicate RunningOk()
      reads this
      requires |queue.pieces| > 0 && queue.execId < |queue.blocks| && queue.pieces[0].level <= MAX_AMASS_LEVEL
    {
      && stepCount == queue.ticksLeft
      && steps == Shifted(Stored(queue.blocks[queue.execId]), queue.pieces[0].level)
    }

    ghost predicate Valid()
      reads this, stBlocks, segments
    {
      && Arrays() && Inv(queue) && ScalarsOk()
      && RingOk(segments[..], segmentTail, segmentHead, queue.pieces)
      && SlotsOk(stBlocks[..], queue)
      && (executing ==> RunningOk())
    }

    /** The generator's test for a free segment slot. */
    lemma RoomLeft()
      requires Valid()
      ensures segmentTail != segmentNextHead <==> |queue.pieces| < SEGMENT_BUFFER_SIZE - 1
      ensures |queue.pieces| <= SEGMENT_BUFFER_SIZE - 1
      ensures segmentTail != segmentHead <==> queue.pieces != []
    {
      RingHead(segments[..], segmentTail, segmentHead, queue.pieces);
    }

    /** st_reset at a given motor position. */
    constructor (position: Axes<int>)
      ensures Valid() && queue == Init(position) && sysPosition == position && !enabled && !cycleStop
      ensures fresh(stBlocks) && fresh(segments)
    {
      hide Inv, Shifted, Stored;
      InitInv(position);
      stBlocks := new StBlock[ST_BLOCKS](_ => StBlock(Axes(0, 0, 0), 0, Axes(false, false, false)));
      segments := new Segment[SEGMENT_BUFFER_SIZE](_ => Segment(0, 0, 0));
      segmentTail, segmentHead, segmentNextHead := 0, 0, 1;
      prepIndex, stepsRemaining := 0, 0;
      executing, execIndex, stepCount := false, 0, 0;
      counters, steps := Axes(0, 0, 0), Axes(0, 0, 0);
      sysPosition := position;
      enabled, cycleStop := false, false;
      queue := Init(position);
    }

    /** st_wake_up */
    method StWakeUp()
      requires Valid()
      modifies this`enabled
      ensures Valid() && enabled
    {
      enabled := true;
    }

    /** The part of st_prep_buffer that takes up a planner block. */
    method LoadBlock(b: Line)
      requires Valid() && CanLoad(queue, b)
      modifies this`prepIndex, this`stepsRemaining, this`queue, stBlocks
      ensures Valid() && queue == Load(old(queue), b)
    {
      hide Inv, RingOk, SlotsOk, CanLoad, Shifted, Stored, Load;
      LoadInv(queue, b);
      LoadParts(queue, b);
      SlotsLoad(stBlocks[..], queue, b);
      LoadKeepsRunning(queue, b);
      prepIndex := StNextBlockIndex(prepIndex);
      ghost var was := stBlocks[..];
      stBlocks[prepIndex] := Stored(b);
      assert stBlocks[..] == was[prepIndex := Stored(b)];
      stepsRemaining := b.n;
      queue := Load(queue, b);
    }

    /** The part of st_prep_buffer that hands a finished segment of n base steps to the interrupt. */
    method CommitSegment(n: nat, level: nat)
      requires Valid() && CanCommit(queue, n, level)
      modifies this`segmentHead, this`segmentNextHead, this`stepsRemaining, this`queue, segments
      ensures Valid() && queue == Commit(old(queue), n, level)
    {
      hide Inv, RingOk, SlotsOk, Shifted, Stored, Shl, CanCommit;
      CommitInv(queue, n, level);
      CommitKeepsOldest(queue, n, level);
      var g := Segment(Shl(n, level), prepIndex, level);
      RingCommit(segments[..], segmentTail, segmentHead, queue.pieces, g, Piece(queue.PrepId(), n, level));
      SlotsKept(stBlocks[..], queue, Commit(queue, n, level));
      RingHead(segments[..], segmentTail, segmentHead, queue.pieces);
      ghost var was := segments[..];
      segments[segmentHead] := g;
      assert segments[..] == was[segmentHead := g];
      segmentHead := segmentNextHead;
      segmentNextHead := segmentNextHead + 1;
      if segmentNextHead == SEGMENT_BUFFER_SIZE { segmentNextHead := 0; }
      stepsRemaining := stepsRemaining - n;
      queue := Commit(queue, n, level);
    }

    /** The interrupt takes up the segment at the tail; a changed block index restarts the tracer. */
    method FetchSegment()
      requires Valid() && !executing && segmentHead != segmentTail
      modifies this`executing, this`stepCount, this`execIndex, this`counters, this`steps, this`queue
      ensures Valid() && executing
      ensures old(queue.pieces) != [] && FetchReady(old(queue)) && queue == Fetch(old(queue))
    {
      hide Inv, RingOk, SlotsOk, Shifted, Stored, Shl, Fetch, Oldest;
      RingHead(segments[..], segmentTail, segmentHead, queue.pieces);
      FetchFacts(queue, stBlocks[..]);
      FetchInv(queue);
      SlotsKept(stBlocks[..], queue, Fetch(queue));
      assert segments[segmentTail] == segments[..][segmentTail];
      executing := true;
      stepCount := segments[segmentTail].nStep;
      if execIndex != segments[segmentTail].stBlockIndex {
        execIndex := segments[segmentTail].stBlockIndex;
        assert stBlocks[execIndex] == stBlocks[..][execIndex];
        var half := stBlocks[execIndex].stepEventCount / 2;
        counters := Axes(half, half, half);
      }
      assert stBlocks[execIndex] == stBlocks[..][execIndex];
      steps := Shifted(stBlocks[execIndex], segments[segmentTail].amassLevel);
      queue := Fetch(queue);
    }

    /** The tracer's work on one axis: add the increment, and on overflow step the motor. */
    static method TraceAxis(ghost t: Track, counter: nat, increment: nat, limit: nat, negative: bool, position: int)
        returns (c: nat, p: int)
      requires t.counter == counter
      ensures c == AxisTick(t, increment, limit).counter
      ensures p == position + Signed(AxisTick(t, increment, limit).pulses - t.pulses, negative)
    {
      c, p := counter + increment, position;
      if c > limit {
        c := c - limit;
        if negative { p := p - 1; } else { p := p + 1; }
      }
    }

    static method TraceAxes(ghost t: Axes<Track>, counters: Axes<nat>, increments: Axes<nat>, b: StBlock,
                            position: Axes<int>)
        returns (c: Axes<nat>, p: Axes<int>)
      requires counters == Axes(t.x.counter, t.y.counter, t.z.counter)
      ensures var u := TickedAxes(t, increments, b.stepEventCount);
              && c == Axes(u.x.counter, u.y.counter, u.z.counter)
              && p == Axes(position.x + Signed(u.x.pulses - t.x.pulses, b.negative.x),
                           position.y + Signed(u.y.pulses - t.y.pulses, b.negative.y),
                           position.z + Signed(u.z.pulses - t.z.pulses, b.negative.z))
    {
      hide AxisTick, Signed;
      var cx, px := TraceAxis(t.x, counters.x, increments.x, b.stepEventCount, b.negative.x, position.x);
      var cy, py := TraceAxis(t.y, counters.y, increments.y, b.stepEventCount, b.negative.y, position.y);
      var cz, pz := TraceAxis(t.z, counters.z, increments.z, b.stepEventCount, b.negative.z, position.z);
      c, p := Axes(cx, cy, cz), Axes(px, py, pz);
    }

    /** One tick of the line tracer on the segment being executed. */
    method TraceTick()
      requires Valid() && executing
      modifies this`executing, this`stepCount, this`counters, this`sysPosition, this`segmentTail, this`queue
      ensures Valid() && StepReady(old(queue)) && queue == Step(old(queue))
    {
      hide Inv, RingOk, SlotsOk, Shifted, Stored, Step, Oldest, TickedAxes, Signed, PieceStored;
      ghost var t := StepOf(queue, stBlocks[..]);
      RingHead(segments[..], segmentTail, segmentHead, queue.pieces);
      SlotsKept(stBlocks[..], queue, t);
      RingPop(segments[..], segmentTail, segmentHead, queue.pieces);
      var b := stBlocks[execIndex];
      assert b == stBlocks[..][execIndex];
      counters, sysPosition := TraceAxes(queue.tracks, counters, steps, b, sysPosition);
      stepCount := stepCount - 1;
      if stepCount == 0 { DropSegment(); }
      queue := t;
    }

    /** The segment at the tail is used up. */
    method DropSegment()
      requires segmentTail < SEGMENT_BUFFER_SIZE
      modifies this`executing, this`segmentTail
      ensures !executing && segmentTail == NextSegmentIndex(old(segmentTail))
    {
      executing := false;
      segmentTail := segmentTail + 1;
      if segmentTail == SEGMENT_BUFFER_SIZE { segmentTail := 0; }
    }

    /** The stepper interrupt: with a segment at hand it traces one tick, otherwise it switches
        itself off and reports the end of the cycle. */
    method Timer1CompA()
      requires Valid() && enabled
      modifies this
      ensures Valid()
      ensures old(queue.pieces) == [] ==> queue == old(queue) && !enabled && cycleStop
      ensures old(queue.pieces) != [] ==>
                TickReady(old(queue)) && queue == Tick(old(queue)) && enabled && cycleStop == old(cycleStop)
    {
      hide Inv, RingOk, SlotsOk, Shifted, Stored, Shl, Fetch, Step, Oldest;
      RingHead(segments[..], segmentTail, segmentHead, queue.pieces);
      TickFacts(queue);
      if !executing {
        if segmentHead != segmentTail {
          FetchSegment();
        } else {
          enabled := false;
          cycleStop := true;
          return;
        }
      }
      TraceTick();
    }
  }

  predicate FetchReady(s: State) {
    |s.pieces| > 0 && s.pieces[0].id < |s.blocks| && s.pieces[0].level <= MAX_AMASS_LEVEL
  }

  predicate StepReady(s: State) {
    && s.running && |s.pieces| > 0 && s.execId < |s.blocks| && s.ticksLeft > 0
    && s.pieces[0].level <= MAX_AMASS_LEVEL
  }

  /** What the interrupt reads when it takes up a segment is the data of that segment's block. */
  lemma FetchFacts(s: State, slots: seq<StBlock>)
    requires Inv(s) && SlotsOk(slots, s) && !s.running && |s.pieces| > 0
    ensures FetchReady(s) && s.execId < |s.blocks| && Oldest(s) <= Oldest(Fetch(s)) && |slots| == ST_BLOCKS
    ensures var t := Fetch(s);
            && t.blocks == s.blocks && t.running && t.pieces == s.pieces && t.remaining == s.remaining
            && t.PrepId() == s.PrepId() && t.position == s.position
            && t.execId == s.pieces[0].id && t.ticksLeft == Shl(s.pieces[0].n, s.pieces[0].level)
            && slots[t.execId % ST_BLOCKS] == Stored(s.blocks[t.execId])
            && (s.execId % ST_BLOCKS == t.execId % ST_BLOCKS ==> t.tracks == s.tracks)
            && (s.execId % ST_BLOCKS != t.execId % ST_BLOCKS ==>
                  var c := slots[t.execId % ST_BLOCKS].stepEventCount / 2;
                  t.tracks.x.counter == t.tracks.y.counter == t.tracks.z.counter == c)
  {
    hide WorkOk, TracksOk, PositionOk;
    IndexTellsBlock(s);
  }

  /** What one tick changes, in terms of the data the interrupt reads. */
  lemma StepOf(s: State, slots: seq<StBlock>) returns (t: State)
    requires Inv(s) && SlotsOk(slots, s) && s.running
    ensures StepReady(s) && t == Step(s) && Inv(t) && Oldest(s) <= Oldest(t) && |slots| == ST_BLOCKS
    ensures var b := s.blocks[s.execId]; var d := slots[s.execId % ST_BLOCKS];
            var inc := Shifted(Stored(b), s.pieces[0].level); var k := s.tracks;
            && d == Stored(b)
            && t.blocks == s.blocks && t.remaining == s.remaining && t.execId == s.execId && t.PrepId() == s.PrepId()
            && t.ticksLeft == s.ticksLeft - 1 && t.running == (t.ticksLeft > 0)
            && t.pieces == (if t.ticksLeft > 0 then s.pieces else s.pieces[1..])
            && t.tracks == TickedAxes(k, inc, d.stepEventCount)
            && t.position == Axes(s.position.x + Signed(t.tracks.x.pulses - k.x.pulses, d.negative.x),
                                  s.position.y + Signed(t.tracks.y.pulses - k.y.pulses, d.negative.y),
                                  s.position.z + Signed(t.tracks.z.pulses - k.z.pulses, d.negative.z))
  {
    hide WorkOk, TracksOk, PositionOk, Eighths, Shl, Shr, AxisTick, Oldest, SlotsOk;
    StepInv(s);
    RunningSlot(s, slots);
    t := Step(s);
    StepOldest(s, t);
  }

  lemma RunningSlot(s: State, slots: seq<StBlock>)
    requires Inv(s) && SlotsOk(slots, s) && s.running
    ensures |slots| == ST_BLOCKS && s.execId < |s.blocks| && slots[s.execId % ST_BLOCKS] == Stored(s.blocks[s.execId])
  {
    hide WorkOk, TracksOk, PositionOk, Stored;
  }

  lemma StepOldest(s: State, t: State)
    requires OrderOk(s) && |s.pieces| > 0 && |s.blocks| > 0
    requires t.blocks == s.blocks && (t.pieces == s.pieces || t.pieces == s.pieces[1..])
    ensures Oldest(s) <= Oldest(t)
  {
    PopOldest(s);
  }

  lemma TickFacts(s: State)
    requires Inv(s)
    ensures s.running ==> |s.pieces| > 0
    ensures |s.pieces| > 0 ==> TickReady(s)
    ensures |s.pieces| > 0 && !s.running ==> StepReady(Fetch(s))
    ensures |s.pieces| > 0 ==> Tick(s) == if s.running then Step(s) else Step(Fetch(s))
  {
    hide WorkOk, TracksOk, PositionOk;
    if |s.pieces| > 0 && !s.running { assert Fetch(s).ticksLeft > 0; }
  }

  lemma LoadParts(s: State, b: Line)
    requires Inv(s)
    ensures var t := Load(s, b);
            && t == s.(blocks := t.blocks, remaining := b.n) && t.PrepId() == s.PrepId() + 1
  {
  }

  lemma LoadKeepsRunning(s: State, b: Line)
    requires Inv(s)
    ensures |s.blocks| > 0 && s.execId < |s.blocks| && Load(s, b).blocks[s.execId] == s.blocks[s.execId]
    ensures s.running ==> |s.pieces| > 0 && s.pieces[0].level <= MAX_AMASS_LEVEL
  {
    hide WorkOk, TracksOk, PositionOk;
  }

  lemma CommitKeepsOldest(s: State, n: nat, level: nat)
    requires Inv(s) && CanCommit(s, n, level)
    ensures |s.blocks| > 0 && s.execId < |s.blocks| && |s.pieces| < SEGMENT_BUFFER_SIZE - 1
    ensures n <= s.remaining && level <= MAX_AMASS_LEVEL && Oldest(s) <= Oldest(Commit(s, n, level))
    ensures |s.pieces| > 0 ==> Commit(s, n, level).pieces[0] == s.pieces[0]
    ensures s.running ==> |s.pieces| > 0 && s.pieces[0].level <= MAX_AMASS_LEVEL
  {
    hide WorkOk, TracksOk, PositionOk;
  }
}
