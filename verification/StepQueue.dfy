/** The hand-over between the segment generator (main program) and the stepper interrupt as an
    unbounded queue of segments, with blocks told apart by number.  Module Stepper shows that the
    two fixed rings of stepper.c behave like this queue. */
module StepQueue {
  import opened Machine
  import opened Bresenham

  const SEGMENT_BUFFER_SIZE: nat := 6
  const ST_BLOCKS: nat := SEGMENT_BUFFER_SIZE - 1

  const NO_LINE: Line := Line(Axes(0, 0, 0), 0, Axes(false, false, false))

  /** A segment: n base steps of block number id, run at a smoothing level. */
  datatype Piece = Piece(id: nat, n: nat, level: nat)

  /** blocks: every block ever loaded, number 0 standing for "none yet"; execId: the block the
      interrupt traces; pieces: segments not finished, oldest first; running: the first of them is
      being executed, with ticksLeft interrupts to go; remaining: base steps of the newest block
      not yet cut into segments; done: eighths of base steps traced of block execId. */
  datatype State = State(
    blocks: seq<Line>, execId: nat, pieces: seq<Piece>, running: bool, ticksLeft: nat,
    remaining: nat, done: nat, tracks: Axes<Track>, position: Axes<int>, start: Axes<int>)
  {
    function PrepId(): int { |blocks| - 1 }
  }

  function Left(ps: seq<Piece>, id: nat): nat {
    if ps == [] then 0 else (if ps[0].id == id then ps[0].n else 0) + Left(ps[1..], id)
  }

  lemma {:induction false} LeftAppend(ps: seq<Piece>, p: Piece, id: nat)
    ensures Left(ps + [p], id) == Left(ps, id) + if p.id == id then p.n else 0
  {
    if ps != [] {
      assert (ps + [p])[1..] == ps[1..] + [p];
      LeftAppend(ps[1..], p, id);
    } else {
      assert (ps + [p])[1..] == [];
    }
  }

  lemma {:induction false} LeftNone(ps: seq<Piece>, id: nat)
    requires forall i | 0 <= i < |ps| :: ps[i].id != id
    ensures Left(ps, id) == 0
  {
    if ps != [] { LeftNone(ps[1..], id); }
  }

  /** Displacement of the first k blocks. */
  function Total(blocks: seq<Line>, k: nat): Axes<int>
    requires k <= |blocks|
  {
    if k == 0 then Axes(0, 0, 0) else Add(Total(blocks, k - 1), blocks[k - 1].Displacement())
  }

  lemma {:induction false} TotalPrefix(blocks: seq<Line>, more: seq<Line>, k: nat)
    requires k <= |blocks|
    ensures Total(blocks + more, k) == Total(blocks, k)
  {
    if k > 0 { TotalPrefix(blocks, more, k - 1); }
  }

  // ---- the invariant -------------------------------------------------------------------------

  ghost predicate BlocksOk(s: State) {
    && |s.blocks| > 0 && s.blocks[0] == NO_LINE && s.execId < |s.blocks|
    && forall i | 1 <= i < |s.blocks| :: s.blocks[i].Ok()
  }

  /** Segments queue up in block order without skipping a block. */
  ghost predicate OrderOk(s: State) {
    && |s.pieces| < SEGMENT_BUFFER_SIZE
    && (forall i | 0 <= i < |s.pieces| ::
          s.pieces[i].n > 0 && s.pieces[i].level <= MAX_AMASS_LEVEL && 0 < s.pieces[i].id < |s.blocks|)
    && (forall i | 0 < i < |s.pieces| :: s.pieces[i - 1].id <= s.pieces[i].id <= s.pieces[i - 1].id + 1)
    && (|s.pieces| > 0 ==> s.execId <= s.pieces[0].id <= s.execId + 1)
    && s.PrepId() <= (if |s.pieces| > 0 then s.pieces[|s.pieces| - 1].id else s.execId) + 1
    && s.PrepId() - Oldest(s) < ST_BLOCKS
    && (s.running ==> |s.pieces| > 0 && s.pieces[0].id == s.execId && s.ticksLeft > 0)
  }

  /** The oldest block whose stored data are still needed. */
  function Oldest(s: State): int {
    if |s.pieces| > 0 then s.pieces[0].id else s.PrepId()
  }

  function Waiting(s: State): seq<Piece> {
    if s.running && |s.pieces| > 0 then s.pieces[1..] else s.pieces
  }

  /** Eighths of base steps the running segment still owes. */
  function Ahead(s: State): nat {
    if s.running && |s.pieces| > 0 && s.pieces[0].level <= MAX_AMASS_LEVEL
    then s.ticksLeft * Eighths(s.pieces[0].level) else 0
  }

  /** No step of any block is lost or added on the way through the queue. */
  ghost predicate WorkOk(s: State)
    requires BlocksOk(s)
  {
    && (forall id | s.execId < id < |s.blocks| ::
          Left(s.pieces, id) + (if id == s.PrepId() then s.remaining else 0) == s.blocks[id].n)
    && s.done + Ahead(s) + 8 * Left(Waiting(s), s.execId)
         + (if s.execId == s.PrepId() then 8 * s.remaining else 0) == 8 * s.blocks[s.execId].n
  }

  ghost predicate TracksOk(s: State)
    requires BlocksOk(s)
  {
    var b := s.blocks[s.execId];
    && OnTrack(s.tracks.x, b.steps.x, b.n, s.done)
    && OnTrack(s.tracks.y, b.steps.y, b.n, s.done)
    && OnTrack(s.tracks.z, b.steps.z, b.n, s.done)
    && (s.execId == 0 ==> s.tracks.x.pulses == s.tracks.y.pulses == s.tracks.z.pulses == 0)
  }

  function Traced(b: Line, t: Axes<Track>): Axes<int> {
    Axes(Signed(t.x.pulses, b.negative.x), Signed(t.y.pulses, b.negative.y), Signed(t.z.pulses, b.negative.z))
  }

  ghost predicate PositionOk(s: State)
    requires BlocksOk(s)
  {
    s.position == Add(Add(s.start, Total(s.blocks, s.execId)), Traced(s.blocks[s.execId], s.tracks))
  }

  ghost predicate Inv(s: State) {
    BlocksOk(s) && OrderOk(s) && WorkOk(s) && TracksOk(s) && PositionOk(s)
  }

  // ---- the steps -----------------------------------------------------------------------------

  function Init(start: Axes<int>): State {
    State([NO_LINE], 0, [], false, 0, 0, 0, Axes(Track(0, 0), Track(0, 0), Track(0, 0)), start, start)
  }

  lemma InitInv(start: Axes<int>)
    ensures Inv(Init(start))
  {
  }

  /** The segment generator takes up a new planner block, the previous one being cut up entirely. */
  predicate CanLoad(s: State, b: Line) {
    |s.pieces| < SEGMENT_BUFFER_SIZE - 1 && s.remaining == 0 && b.Ok()
  }

  function Load(s: State, b: Line): State {
    s.(blocks := s.blocks + [b], remaining := b.n)
  }

  /** At most four blocks are in use when a fifth slot is filled. */
  lemma LoadOrder(s: State, b: Line)
    requires Inv(s) && CanLoad(s, b)
    ensures s.PrepId() == if |s.pieces| > 0 then s.pieces[|s.pieces| - 1].id else s.execId
    ensures s.PrepId() - Oldest(s) < ST_BLOCKS - 1
  {
    var last := if |s.pieces| > 0 then s.pieces[|s.pieces| - 1].id else s.execId;
    PiecesBetween(s);
    if last < s.PrepId() {
      LeftNone(s.pieces, s.PrepId());
    }
  }

  /** Block numbers along the queue rise by at most one a segment. */
  lemma PiecesBetween(s: State)
    requires OrderOk(s)
    ensures forall i | 0 <= i < |s.pieces| ::
              s.pieces[0].id <= s.pieces[i].id <= s.pieces[|s.pieces| - 1].id
              && s.pieces[|s.pieces| - 1].id <= s.pieces[i].id + (|s.pieces| - 1 - i)
  {
    PiecesBetweenFrom(s, |s.pieces|);
  }

  lemma {:induction false} PiecesBetweenFrom(s: State, k: nat)
    requires OrderOk(s) && k <= |s.pieces|
    ensures forall i | 0 <= i < k ::
              s.pieces[0].id <= s.pieces[i].id <= s.pieces[k - 1].id <= s.pieces[i].id + (k - 1 - i)
  {
    if k > 0 { PiecesBetweenFrom(s, k - 1); }
  }

  lemma LoadWork(s: State, b: Line)
    requires Inv(s) && CanLoad(s, b)
    ensures BlocksOk(Load(s, b)) && WorkOk(Load(s, b))
  {
    var t := Load(s, b);
    PiecesBetween(s);
    LeftNone(s.pieces, |s.blocks|);
    hide TracksOk, PositionOk, OnTrack, OrderOk, Left;
    assert forall i | 0 <= i < |s.blocks| :: t.blocks[i] == s.blocks[i];
  }

  lemma LoadInv(s: State, b: Line)
    requires Inv(s) && CanLoad(s, b)
    ensures Inv(Load(s, b))
  {
    hide WorkOk, OnTrack, Total;
    LoadWork(s, b);
    LoadOrder(s, b);
    TotalPrefix(s.blocks, [b], s.execId);
    assert Load(s, b).blocks[s.execId] == s.blocks[s.execId];
  }

  /** A segment of n base steps joins the queue. */
  predicate CanCommit(s: State, n: nat, level: nat) {
    |s.pieces| < SEGMENT_BUFFER_SIZE - 1 && 0 < n <= s.remaining && level <= MAX_AMASS_LEVEL && |s.blocks| > 1
  }

  function Commit(s: State, n: nat, level: nat): State
    requires |s.blocks| > 0 && n <= s.remaining
  {
    s.(pieces := s.pieces + [Piece(s.PrepId(), n, level)], remaining := s.remaining - n)
  }

  lemma CommitOrder(s: State, n: nat, level: nat)
    requires Inv(s) && CanCommit(s, n, level)
    ensures OrderOk(Commit(s, n, level))
  {
    hide WorkOk, TracksOk, PositionOk;
    PiecesBetween(s);
  }

  lemma CommitWork(s: State, n: nat, level: nat)
    requires BlocksOk(s) && WorkOk(s) && CanCommit(s, n, level) && (s.running ==> |s.pieces| > 0)
    ensures BlocksOk(Commit(s, n, level)) && WorkOk(Commit(s, n, level))
  {
    hide Left, Eighths, Line.Ok;
    var t := Commit(s, n, level);
    var p := Piece(s.PrepId(), n, level);
    LeftAppend(Waiting(s), p, s.execId);
    assert Waiting(t) == Waiting(s) + [p] && Ahead(t) == Ahead(s);
    forall id | s.execId < id < |s.blocks|
      ensures Left(t.pieces, id) == Left(s.pieces, id) + if id == s.PrepId() then n else 0
    {
      LeftAppend(s.pieces, p, id);
    }
  }

  lemma RemainingHasBlock(s: State)
    requires Inv(s) && s.remaining > 0
    ensures |s.blocks| > 1
  {
    hide TracksOk, PositionOk;
  }

  lemma CommitInv(s: State, n: nat, level: nat)
    requires Inv(s) && CanCommit(s, n, level)
    ensures Inv(Commit(s, n, level))
  {
    CommitOrder(s, n, level);
    assert s.running ==> |s.pieces| > 0;
    CommitWork(s, n, level);
    hide WorkOk, OrderOk, OnTrack, Total;
  }

  /** The interrupt takes up the oldest segment; a new block number restarts the tracer. */
  function Fetch(s: State): State
    requires |s.pieces| > 0 && s.pieces[0].id < |s.blocks| && s.pieces[0].level <= MAX_AMASS_LEVEL
  {
    var p := s.pieces[0];
    var r := s.(running := true, ticksLeft := Shl(p.n, p.level));
    if p.id == s.execId then r
    else
      var t := Start(s.blocks[p.id].n);
      r.(execId := p.id, done := 0, tracks := Axes(t, t, t))
  }

  /** A block is left only when traced completely: its axes have pulsed exactly their steps. */
  lemma BlockComplete(s: State)
    requires Inv(s) && !s.running
    requires if |s.pieces| > 0 then s.pieces[0].id != s.execId else s.remaining == 0
    ensures s.done == 8 * s.blocks[s.execId].n
    ensures Traced(s.blocks[s.execId], s.tracks) == s.blocks[s.execId].Displacement()
    ensures |s.pieces| == 0 ==> s.execId == s.PrepId()
  {
    PiecesBetween(s);
    LeftNone(s.pieces, s.execId);
    if |s.pieces| == 0 { LeftNone(s.pieces, s.PrepId()); }
    var b := s.blocks[s.execId];
    if b.n > 0 {
      Exact(s.tracks.x, b.steps.x, b.n);
      Exact(s.tracks.y, b.steps.y, b.n);
      Exact(s.tracks.z, b.steps.z, b.n);
    }
  }

  lemma FetchWork(s: State)
    requires BlocksOk(s) && OrderOk(s) && WorkOk(s) && !s.running && |s.pieces| > 0
    ensures BlocksOk(Fetch(s)) && WorkOk(Fetch(s))
  {
    var p := s.pieces[0];
    assert Shl(p.n, p.level) * Eighths(p.level) == 8 * p.n;
    if p.id != s.execId { PiecesBetween(s); LeftNone(s.pieces, s.execId); }
    hide Eighths;
    assert Left(s.pieces, p.id) == p.n + Left(s.pieces[1..], p.id);
  }

  lemma FetchOrder(s: State)
    requires BlocksOk(s) && OrderOk(s) && !s.running && |s.pieces| > 0
    ensures OrderOk(Fetch(s))
  {
    PiecesBetween(s);
    hide Start;
  }

  lemma FetchTracks(s: State)
    requires BlocksOk(s) && OrderOk(s) && TracksOk(s) && !s.running && |s.pieces| > 0
    ensures BlocksOk(Fetch(s)) && TracksOk(Fetch(s))
  {
    var b := s.blocks[s.pieces[0].id];
    StartOnTrack(b.steps.x, b.n);
    StartOnTrack(b.steps.y, b.n);
    StartOnTrack(b.steps.z, b.n);
    hide OnTrack;
  }

  lemma FetchInv(s: State)
    requires Inv(s) && !s.running && |s.pieces| > 0
    ensures Inv(Fetch(s))
  {
    FetchWork(s); FetchOrder(s); FetchTracks(s);
    if s.pieces[0].id != s.execId { BlockComplete(s); }
    hide WorkOk, OrderOk, TracksOk;
  }

  function Ticked(t: Track, steps: nat, n: nat, level: nat): Track
    requires level <= MAX_AMASS_LEVEL
  {
    AxisTick(t, Shr(Shl(steps, MAX_AMASS_LEVEL), level), Shl(n, MAX_AMASS_LEVEL))
  }

  /** One interrupt within the running segment. */
  function Step(s: State): State
    requires s.running && |s.pieces| > 0 && s.execId < |s.blocks| && s.ticksLeft > 0
    requires s.pieces[0].level <= MAX_AMASS_LEVEL
  {
    var b := s.blocks[s.execId];
    var level := s.pieces[0].level;
    var t := Axes(Ticked(s.tracks.x, b.steps.x, b.n, level),
                  Ticked(s.tracks.y, b.steps.y, b.n, level),
                  Ticked(s.tracks.z, b.steps.z, b.n, level));
    var r := s.(tracks := t, done := s.done + Eighths(level), ticksLeft := s.ticksLeft - 1,
                position := Add(s.position, Sub(Traced(b, t), Traced(b, s.tracks))));
    if s.ticksLeft == 1 then r.(running := false, pieces := s.pieces[1..]) else r
  }

  lemma LeftSkip(ps: seq<Piece>, id: nat)
    requires |ps| > 0 && ps[0].id != id
    ensures Left(ps, id) == Left(ps[1..], id)
  {
  }

  lemma StepWork(s: State)
    requires BlocksOk(s) && OrderOk(s) && WorkOk(s) && s.running
    ensures BlocksOk(Step(s)) && WorkOk(Step(s))
  {
    hide Left, Traced, Ticked, Eighths, Line.Ok;
    var level, t := s.pieces[0].level, Step(s);
    var e := Eighths(level);
    assert s.ticksLeft * e == (s.ticksLeft - 1) * e + e;
    assert Waiting(t) == Waiting(s) && Ahead(s) == Ahead(t) + e;
    forall id | s.execId < id < |s.blocks| ensures Left(t.pieces, id) == Left(s.pieces, id) {
      LeftSkip(s.pieces, id);
    }
  }

  lemma StepOrder(s: State)
    requires OrderOk(s) && s.execId < |s.blocks| && s.running
    ensures OrderOk(Step(s))
  {
    hide Traced, Ticked, Eighths, Line.Displacement;
    var t := Step(s);
    assert t.blocks == s.blocks && t.execId == s.execId;
    if s.ticksLeft == 1 {
      assert t.pieces == s.pieces[1..];
      assert forall i | 0 <= i < |t.pieces| :: t.pieces[i] == s.pieces[i + 1];
    }
  }

  lemma StepTracks(s: State)
    requires BlocksOk(s) && OrderOk(s) && TracksOk(s) && s.running
    ensures BlocksOk(Step(s)) && TracksOk(Step(s))
  {
    hide Traced, OnTrack;
    var b := s.blocks[s.execId];
    TickStaysOnTrack(s.tracks.x, b.steps.x, b.n, s.done, s.pieces[0].level);
    TickStaysOnTrack(s.tracks.y, b.steps.y, b.n, s.done, s.pieces[0].level);
    TickStaysOnTrack(s.tracks.z, b.steps.z, b.n, s.done, s.pieces[0].level);
  }

  lemma StepPosition(s: State)
    requires BlocksOk(s) && OrderOk(s) && PositionOk(s) && s.running
    ensures BlocksOk(Step(s)) && PositionOk(Step(s))
  {
    hide Ticked, Traced, Total, OrderOk, Eighths;
  }

  lemma StepInv(s: State)
    requires Inv(s) && s.running
    ensures Inv(Step(s))
  {
    StepWork(s); StepOrder(s); StepTracks(s); StepPosition(s);
    hide WorkOk, OrderOk, TracksOk, PositionOk, BlocksOk, Step;
  }

  ghost predicate TickReady(s: State) {
    BlocksOk(s) && OrderOk(s) && |s.pieces| > 0
  }

  function Tick(s: State): State
    requires TickReady(s)
  {
    if s.running then Step(s) else
      var f := Fetch(s);
      assert f.ticksLeft > 0;
      Step(f)
  }

  lemma TickInv(s: State)
    requires Inv(s) && |s.pieces| > 0
    ensures Inv(Tick(s))
  {
    if s.running { StepInv(s); } else { FetchInv(s); StepInv(Fetch(s)); }
  }

  // ---- what makes five slots and a changing index enough ------------------------------------------

  /** Two blocks whose data are both still needed never share a slot of the block ring, and a
      freshly loaded one takes none of theirs. */
  lemma SlotsDistinct(s: State, i: nat, j: nat)
    requires OrderOk(s) && Oldest(s) <= i < j <= s.PrepId()
    ensures i % ST_BLOCKS != j % ST_BLOCKS
  {
  }

  lemma LoadSlotFree(s: State, b: Line, i: nat)
    requires Inv(s) && CanLoad(s, b) && Oldest(s) <= i <= s.PrepId()
    ensures i % ST_BLOCKS != (s.PrepId() + 1) % ST_BLOCKS
  {
    LoadOrder(s, b);
    hide *;
    SlotDiffers(i, s.PrepId() + 1);
  }

  lemma SlotDiffers(i: nat, j: nat)
    requires i < j < i + ST_BLOCKS
    ensures i % ST_BLOCKS != j % ST_BLOCKS
  {
  }

  /** Comparing slot indices, as the interrupt does, tells a new block from the traced one. */
  lemma IndexTellsBlock(s: State)
    requires OrderOk(s) && |s.pieces| > 0
    ensures s.pieces[0].id % ST_BLOCKS == s.execId % ST_BLOCKS <==> s.pieces[0].id == s.execId
  {
  }

  // ---- every interleaving ------------------------------------------------------------------------

  datatype Op = OpLoad(b: Line) | OpCommit(n: nat, level: nat) | OpTick

  predicate Enabled(s: State, op: Op) {
    match op
    case OpLoad(b) => CanLoad(s, b)
    case OpCommit(n, level) => CanCommit(s, n, level)
    case OpTick => |s.pieces| > 0
  }

  function Next(s: State, op: Op): State
    requires BlocksOk(s) && OrderOk(s) && Enabled(s, op)
  {
    match op
    case OpLoad(b) => Load(s, b)
    case OpCommit(n, level) => Commit(s, n, level)
    case OpTick => Tick(s)
  }

  lemma NextInv(s: State, op: Op)
    requires Inv(s) && Enabled(s, op)
    ensures Inv(Next(s, op))
  {
    match op
    case OpLoad(b) => LoadInv(s, b);
    case OpCommit(n, level) => CommitInv(s, n, level);
    case OpTick => TickInv(s);
  }

  /** The run goes on by what the segment generator does to the queue. */
  predicate Generates(before: seq<Op>, after: seq<Op>) {
    before <= after && forall i | |before| <= i < |after| :: !after[i].OpTick?
  }

  lemma GeneratesNothing(ops: seq<Op>)
    ensures Generates(ops, ops)
  {
  }

  lemma GeneratesOn(before: seq<Op>, after: seq<Op>, op: Op)
    requires Generates(before, after) && !op.OpTick?
    ensures Generates(before, after + [op])
  {
  }

  lemma GeneratesThen(a: seq<Op>, b: seq<Op>, c: seq<Op>)
    requires Generates(a, b) && Generates(b, c)
    ensures Generates(a, c)
  {
  }

  /** The operations can happen one after the other, starting from rest. */
  predicate Runs(start: Axes<int>, ops: seq<Op>)
    decreases |ops|, 0
  {
    |ops| == 0
    || (Runs(start, ops[..|ops| - 1]) && Enabled(After(start, ops[..|ops| - 1]), ops[|ops| - 1]))
  }

  /** The state they lead to; it satisfies the invariant whatever the interleaving. */
  function After(start: Axes<int>, ops: seq<Op>): (s: State)
    requires Runs(start, ops)
    ensures Inv(s) && s.start == start
    decreases |ops|, 1
  {
    if |ops| == 0 then
      InitInv(start);
      Init(start)
    else
      var s := After(start, ops[..|ops| - 1]);
      NextInv(s, ops[|ops| - 1]); NextBlocks(s, ops[|ops| - 1]);
      Next(s, ops[|ops| - 1])
  }

  function LoadedBy(op: Op): seq<Line> {
    match op case OpLoad(b) => [b] case _ => []
  }

  /** The blocks the main program handed over, in order. */
  function Loaded(ops: seq<Op>): seq<Line> {
    if ops == [] then [] else Loaded(ops[..|ops| - 1]) + LoadedBy(ops[|ops| - 1])
  }

  lemma RunsOn(start: Axes<int>, ops: seq<Op>, op: Op)
    requires Runs(start, ops) && Enabled(After(start, ops), op)
    ensures Runs(start, ops + [op]) && After(start, ops + [op]) == Next(After(start, ops), op)
  {
    hide Enabled, Next, Inv;
    assert (ops + [op])[..|ops + [op]| - 1] == ops;
  }

  /** The run ops has led to s. */
  ghost predicate Records(ops: seq<Op>, s: State) {
    Runs(s.start, ops) && After(s.start, ops) == s
  }

  lemma RecordsNothing(start: Axes<int>)
    ensures Records([], Init(start))
  {
  }

  lemma RecordsLoad(ops: seq<Op>, s: State, b: Line)
    requires Records(ops, s) && CanLoad(s, b)
    ensures Records(ops + [OpLoad(b)], Load(s, b))
  {
    hide Inv, Runs, After, CanLoad;
    RunsOn(s.start, ops, OpLoad(b));
  }

  lemma RecordsCommit(ops: seq<Op>, s: State, n: nat, level: nat)
    requires Records(ops, s) && CanCommit(s, n, level)
    ensures |s.blocks| > 0 && n <= s.remaining && Records(ops + [OpCommit(n, level)], Commit(s, n, level))
  {
    hide Runs, After;
    RunsOn(s.start, ops, OpCommit(n, level));
  }

  lemma RecordsTick(ops: seq<Op>, s: State)
    requires Records(ops, s) && |s.pieces| > 0
    ensures TickReady(s) && Records(ops + [OpTick], Tick(s))
  {
    hide Runs, After;
    RunsOn(s.start, ops, OpTick);
    NextBlocks(s, OpTick);
  }

  lemma NextBlocks(s: State, op: Op)
    requires Inv(s) && Enabled(s, op)
    ensures Next(s, op).blocks == s.blocks + LoadedBy(op) && Next(s, op).start == s.start
  {
    hide WorkOk, TracksOk, PositionOk;
  }

  lemma {:induction false} RunBlocks(start: Axes<int>, ops: seq<Op>)
    requires Runs(start, ops)
    ensures After(start, ops).blocks == [NO_LINE] + Loaded(ops)
  {
    hide BlocksOk, OrderOk, WorkOk, TracksOk, PositionOk, Enabled, Load, Commit, Tick;
    if |ops| > 0 {
      var before := ops[..|ops| - 1];
      RunBlocks(start, before);
      var s := After(start, before);
      NextBlocks(s, ops[|ops| - 1]);
      assert After(start, ops).blocks == s.blocks + LoadedBy(ops[|ops| - 1]) by { hide LoadedBy, Loaded; }
      assert [NO_LINE] + Loaded(before) + LoadedBy(ops[|ops| - 1])
          == [NO_LINE] + (Loaded(before) + LoadedBy(ops[|ops| - 1]));
      assert Loaded(ops) == Loaded(before) + LoadedBy(ops[|ops| - 1]);
    }
  }

  /** Base steps cut from block number id by the segments committed in a run. */
  function CutSteps(ops: seq<Op>, id: nat): nat {
    if ops == [] then 0 else
      var before, last := ops[..|ops| - 1], ops[|ops| - 1];
      CutSteps(before, id) + if last.OpCommit? && |Loaded(before)| == id then last.n else 0
  }

  /** Segment conservation: the segments of a block add up to its step events, whatever happens in
      between; only the newest block may still owe what remains of it. */
  lemma {:induction false} SegmentsAddUp(start: Axes<int>, ops: seq<Op>, id: nat)
    requires Runs(start, ops) && 1 <= id <= |Loaded(ops)|
    ensures CutSteps(ops, id) + (if id == |Loaded(ops)| then After(start, ops).remaining else 0)
            == Loaded(ops)[id - 1].n
  {
    hide Inv, BlocksOk, OrderOk;
    var before, last := ops[..|ops| - 1], ops[|ops| - 1];
    var s := After(start, before);
    NextRemaining(s, last);
    RunBlocks(start, before);
    match last
    case OpLoad(b) =>
      if id == |Loaded(ops)| { NotYetCut(before, id); } else { SegmentsAddUp(start, before, id); }
    case OpCommit(n, level) => SegmentsAddUp(start, before, id);
    case OpTick => SegmentsAddUp(start, before, id);
  }

  lemma {:induction false} NotYetCut(ops: seq<Op>, id: nat)
    requires id > |Loaded(ops)|
    ensures CutSteps(ops, id) == 0
  {
    if ops != [] { NotYetCut(ops[..|ops| - 1], id); }
  }

  lemma NextRemaining(s: State, op: Op)
    requires Inv(s) && Enabled(s, op)
    ensures Next(s, op).remaining
            == match op case OpLoad(b) => b.n case OpCommit(n, _) => s.remaining - n case OpTick => s.remaining
    ensures op.OpLoad? ==> s.remaining == 0
  {
    hide WorkOk, TracksOk, PositionOk;
  }

  // ---- how many interrupts a run takes ---------------------------------------------------------------

  function Length(p: Piece): nat {
    if p.level <= MAX_AMASS_LEVEL then Shl(p.n, p.level) else 0
  }

  function Lengths(ps: seq<Piece>): nat {
    if ps == [] then 0 else Length(ps[0]) + Lengths(ps[1..])
  }

  lemma {:induction false} LengthsAppend(ps: seq<Piece>, p: Piece)
    ensures Lengths(ps + [p]) == Lengths(ps) + Length(p)
  {
    hide Length;
    if ps != [] {
      assert (ps + [p])[1..] == ps[1..] + [p];
      LengthsAppend(ps[1..], p);
    } else {
      assert [p][1..] == [];
    }
  }

  /** Interrupts the queued segments still take. */
  function Owed(s: State): nat {
    Lengths(Waiting(s)) + if s.running then s.ticksLeft else 0
  }

  lemma OwedLoad(s: State, b: Line)
    ensures Owed(Load(s, b)) == Owed(s)
  {
  }

  lemma OwedCommit(s: State, n: nat, level: nat)
    requires CanCommit(s, n, level) && (s.running ==> |s.pieces| > 0)
    ensures Owed(Commit(s, n, level)) == Owed(s) + Shl(n, level) <= Owed(s) + 8 * n
  {
    var t, p := Commit(s, n, level), Piece(s.PrepId(), n, level);
    assert Waiting(t) == Waiting(s) + [p];
    LengthsAppend(Waiting(s), p);
  }

  lemma OwedTick(s: State)
    requires TickReady(s)
    ensures Owed(s) == Owed(Tick(s)) + 1
  {
    hide Ticked, Traced, Eighths, Start, Line.Displacement;
    if !s.running { assert Owed(Fetch(s)) == Owed(s); }
  }

  lemma NothingOwed(s: State)
    requires OrderOk(s)
    ensures Owed(s) == 0 <==> s.pieces == []
  {
  }

  function Ticks(ops: seq<Op>): nat {
    if ops == [] then 0 else Ticks(ops[..|ops| - 1]) + if ops[|ops| - 1].OpTick? then 1 else 0
  }

  /** Interrupts the committed segments are made for. */
  function Ordered(ops: seq<Op>): nat {
    if ops == [] then 0
    else
      var last := ops[|ops| - 1];
      Ordered(ops[..|ops| - 1])
      + if last.OpCommit? && last.level <= MAX_AMASS_LEVEL then Shl(last.n, last.level) else 0
  }

  function Steps(ls: seq<Line>): nat {
    if ls == [] then 0 else Steps(ls[..|ls| - 1]) + ls[|ls| - 1].n
  }

  /** Over any run each segment takes exactly the interrupts its smoothing level asks for: what is not
      traced yet is still owed, everything is traced exactly when all of them have come, and they are
      at most eight for each step event loaded. */
  lemma {:induction false} TicksAddUp(start: Axes<int>, ops: seq<Op>)
    requires Runs(start, ops)
    ensures Ticks(ops) + Owed(After(start, ops)) == Ordered(ops)
    ensures Ordered(ops) + 8 * After(start, ops).remaining <= 8 * Steps(Loaded(ops))
    ensures After(start, ops).pieces == [] <==> Ticks(ops) == Ordered(ops)
  {
    hide Inv, BlocksOk, OrderOk, Owed, Load, Commit, Tick, Enabled, Shl;
    if ops != [] {
      var before, last := ops[..|ops| - 1], ops[|ops| - 1];
      TicksAddUp(start, before);
      var s := After(start, before);
      OwedNext(s, last);
      NextRemaining(s, last);
      StepsLoaded(Loaded(before), last);
    } else {
      NothingDone(start);
    }
    InvOrder(After(start, ops));
    NothingOwed(After(start, ops));
  }

  lemma NothingDone(start: Axes<int>)
    ensures Owed(Init(start)) == 0
  {
  }

  lemma InvOrder(s: State)
    requires Inv(s)
    ensures BlocksOk(s) && OrderOk(s)
  {
  }

  lemma StepsLoaded(ls: seq<Line>, op: Op)
    ensures Steps(ls + LoadedBy(op)) == Steps(ls) + if op.OpLoad? then op.b.n else 0
  {
    if op.OpLoad? { assert (ls + [op.b])[..|ls|] == ls; } else { assert ls + [] == ls; }
  }

  lemma OwedNext(s: State, op: Op)
    requires Inv(s) && Enabled(s, op)
    ensures var t := Next(s, op);
            match op
            case OpLoad(b) => Owed(t) == Owed(s)
            case OpCommit(n, level) =>
              && level <= MAX_AMASS_LEVEL && Owed(t) == Owed(s) + Shl(n, level)
              && Shl(n, level) <= 8 * n
            case OpTick => Owed(s) == Owed(t) + 1
  {
    InvOrder(s);
    hide Owed, Tick, Commit, Load, WorkOk, TracksOk, PositionOk;
    match op
    case OpLoad(b) => OwedLoad(s, b);
    case OpCommit(n, level) => OwedCommit(s, n, level);
    case OpTick => OwedTick(s);
  }

  lemma DrainedState(s: State)
    requires Inv(s) && s.pieces == [] && s.remaining == 0
    ensures s.position == Add(s.start, Total(s.blocks, |s.blocks|))
  {
    BlockComplete(s);
    hide WorkOk, TracksOk, OrderOk, Traced, Line.Displacement;
  }

  /** Whenever nothing is left to do, the motors stand exactly where the loaded blocks, in order,
      lead from the start: for every interleaving, every segmentation and every smoothing level. */
  lemma DrainedPosition(start: Axes<int>, ops: seq<Op>)
    requires Runs(start, ops)
    requires After(start, ops).pieces == [] && After(start, ops).remaining == 0
    ensures After(start, ops).position == Add(start, Total([NO_LINE] + Loaded(ops), |Loaded(ops)| + 1))
  {
    hide *;
    RunBlocks(start, ops);
    DrainedAt(After(start, ops), Loaded(ops));
  }

  lemma DrainedAt(s: State, loaded: seq<Line>)
    requires Inv(s) && s.pieces == [] && s.remaining == 0 && s.blocks == [NO_LINE] + loaded
    ensures s.position == Add(s.start, Total([NO_LINE] + loaded, |loaded| + 1))
  {
    hide *;
    DrainedState(s);
    assert |s.blocks| == |loaded| + 1;
  }
}
