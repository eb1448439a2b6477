/** Planner, segment generator and stepper interrupt working together: where the motors end up. */
module CoreXY {
  import opened Machine
  import PlannerSpec
  import opened Planner
  import Bresenham
  import opened StepQueue
  import opened Stepper

  lemma {:induction false} TotalConcat(a: seq<Line>, b: seq<Line>)
    ensures Total(a + b, |a + b|) == Add(Total(a, |a|), Total(b, |b|))
    decreases |b|
  {
    if b == [] {
      assert a + b == a;
    } else {
      var c, m := b[..|b| - 1], b[|b| - 1];
      TotalConcat(a, c);
      TotalMore(a + c, m);
      TotalMore(c, m);
      assert a + b == (a + c) + [m] && b == c + [m];
      hide Total, Line.Displacement;
    }
  }

  lemma TotalMore(a: seq<Line>, m: Line)
    ensures Total(a + [m], |a + [m]|) == Add(Total(a, |a|), m.Displacement())
  {
    TotalPrefix(a, [m], |a|);
    hide Line.Displacement;
  }

  /** The moves in path, made from start, end at goal. */
  ghost predicate Leads(start: Axes<int>, path: seq<Line>, goal: Axes<int>) {
    Add(start, Total(path, |path|)) == goal
  }

  lemma LeadsFurther(start: Axes<int>, path: seq<Line>, goal: Axes<int>, d: Axes<int>)
    requires Leads(start, path, goal)
    ensures Leads(start, path + [Straight(d)], Add(goal, d))
  {
    var b := Straight(d);
    TotalConcat(path, [b]);
    TotalOne(b);
    hide Total, Straight, Line.Displacement;
  }

  lemma TotalOne(b: Line)
    ensures Total([b], |[b]|) == b.Displacement()
  {
    hide Line.Displacement;
    assert Total([b], 0) == Axes(0, 0, 0);
  }

  /** The planned moves not yet handed over, when the first one may be. */
  function Uncut(moves: seq<Line>, cutting: bool): seq<Line> {
    if cutting && moves != [] then moves[1..] else moves
  }

  ghost predicate AllOk(moves: seq<Line>) {
    forall j | 0 <= j < |moves| :: moves[j].Ok()
  }

  /** Interrupts enough for all moves not yet taken up, the steps not yet cut and the queued segments. */
  function Enough(moves: seq<Line>, q: State): nat {
    8 * (Steps(Uncut(moves, q.remaining > 0)) + q.remaining) + Owed(q)
  }

  lemma EnoughLoad(moves: seq<Line>, q: State)
    requires |moves| > 0 && moves[0].Ok() && q.remaining == 0
    ensures Enough(moves, Load(q, moves[0])) == Enough(moves, q)
  {
    StepsFirst(moves);
    OwedLoad(q, moves[0]);
    hide Owed, Steps;
  }

  lemma {:induction false} StepsFirst(moves: seq<Line>)
    requires |moves| > 0
    ensures Steps(moves) == moves[0].n + Steps(moves[1..])
  {
    if |moves| > 1 {
      StepsFirst(moves[..|moves| - 1]);
      assert moves[..|moves| - 1][1..] == moves[1..][..|moves| - 2];
    } else {
      assert moves[..0] == [] == moves[1..];
    }
  }

  lemma EnoughCommit(moves: seq<Line>, q: State, n: nat, level: nat, rest: seq<Line>)
    requires TickReady(q) || !q.running
    requires |moves| > 0 && CanCommit(q, n, level) && rest == if n == q.remaining then moves[1..] else moves
    ensures Enough(rest, Commit(q, n, level)) <= Enough(moves, q)
  {
    OwedCommit(q, n, level);
    hide Owed, Steps, Bresenham.Shl;
  }

  lemma EnoughTick(moves: seq<Line>, q: State)
    requires TickReady(q)
    ensures Enough(moves, q) == Enough(moves, Tick(q)) + 1
  {
    TickKeeps(q);
    OwedTick(q);
    hide Owed, Steps, Tick;
  }

  class Motion {
    const planner: PlannerState
    const stepper: StepperState
    /** Motor steps the planner position does not account for, fixed when it is synchronised. */
    ghost var lost: Axes<int>
    /** What has happened to the queue of segments since the reset. */
    ghost var history: seq<Op>

    /** Segment conservation: of every block taken up so far, the segments cut add up to its step events,
        but for what remains of the newest one. */
    lemma SegmentsOfBlock(id: nat)
      requires Valid() && 1 <= id <= |Loaded(history)|
      ensures CutSteps(history, id) + (if id == |Loaded(history)| then stepper.queue.remaining else 0)
           == Loaded(history)[id - 1].n
      ensures stepper.queue.blocks == [NO_LINE] + Loaded(history)
    {
      assert Records(history, stepper.queue);
      hide PlannerState.Held, StepperState.Valid, Inv, Runs, After;
      SegmentsAddUp(stepper.queue.start, history, id);
      RunBlocks(stepper.queue.start, history);
    }

    ghost function Owing(): nat
      requires planner.Indices()
      reads planner, planner.buf, stepper
    {
      Enough(planner.Moves(), stepper.queue)
    }

    /** The first planner block is being cut into segments just when some of its steps remain. */
    ghost predicate Together()
      requires planner.Indices()
      reads this, planner, planner.buf, stepper
    {
      && AllOk(planner.Moves())
      && (stepper.queue.remaining > 0 <==> planner.prepping || planner.recalculate)
      && !(planner.prepping && planner.recalculate)
      && (stepper.queue.remaining > 0 ==> planner.Count() > 0)
    }

    /** Everything handed over or still planned leads to the planner position. */
    ghost predicate Arrives()
      requires planner.Indices()
      reads this, planner, planner.buf, stepper
    {
      Leads(stepper.queue.start,
            stepper.queue.blocks + Uncut(planner.Moves(), stepper.queue.remaining > 0),
            Add(Motors(planner.position), lost))
    }

    ghost predicate Valid()
      reads this, planner, planner.buf, stepper, stepper.stBlocks, stepper.segments
    {
      planner.Held() && stepper.Valid() && Together() && Arrives() && Records(history, stepper.queue)
    }

    lemma Parts()
      requires Valid()
      ensures planner.Held() && stepper.Valid() && Together()
      ensures stepper.stepsRemaining == stepper.queue.remaining
    {
    }

    lemma HasBlock()
      requires Valid()
      ensures stepper.queue.remaining > 0 ==> |stepper.queue.blocks| > 1
      ensures TickReady(stepper.queue) || !stepper.queue.running
    {
      assert Inv(stepper.queue);
      hide Inv, PlannerState.Held, StepperState.Valid;
      InvOrder(stepper.queue);
      if stepper.queue.remaining > 0 { RemainingHasBlock(stepper.queue); }
    }

    /** Reset of both modules, the planner synchronised to the motors. */
    constructor (sysPosition: Axes<int>, fOverride: nat, rOverride: nat)
      ensures Valid() && planner.Valid() && lost == Sub(sysPosition, Motors(Machine.Machine(sysPosition)))
      ensures planner.Count() == 0 && !planner.prepping && !planner.recalculate
      ensures stepper.queue == Init(sysPosition)
      ensures fresh(planner) && fresh(planner.buf) && fresh(stepper) && fresh(stepper.stBlocks)
              && fresh(stepper.segments)
    {
      hide PlannerState.Valid, StepperState.Valid, PlannerState.Held, Records, Motors, Machine.Machine;
      planner := new PlannerState(fOverride, rOverride);
      stepper := new StepperState(sysPosition);
      lost := Sub(sysPosition, Motors(Machine.Machine(sysPosition)));
      history := [];
      new;
      planner.PlanSyncPosition(sysPosition);
      planner.ValidIsHeld();
      StartsThere(sysPosition);
      assert planner.Moves() == [];
      RecordsNothing(sysPosition);
      assert [NO_LINE] + Uncut([], false) == [NO_LINE];
    }

    /** mc_line: one more straight move; a system motion stays outside the queue. */
    method LineTo(target: Axes<int>, data: LineData) returns (queued: bool)
      requires Valid() && data.Valid() && (data.systemMotion || planner.nextHead != planner.tail)
      modifies planner`head, planner`nextHead, planner`planned, planner`prepping, planner`recalculate,
               planner`position, planner`previousNominalSpeed, planner.buf
      ensures Valid() && (old(planner.Valid()) ==> planner.Valid())
      ensures planner.position == if data.systemMotion then old(planner.position) else target
      ensures old(planner.Count()) > 0 ==>
                planner.buf[planner.tail]
                == old(planner.buf[planner.tail]).(entrySpeedSqr := planner.buf[planner.tail].entrySpeedSqr)
      ensures old(PlannerSpec.AllLong(planner.Queue())) ==> PlannerSpec.AllLong(planner.Queue())
      ensures queued <==> !data.systemMotion && Motors(target) != Motors(old(planner.position))
      ensures queued ==>
                && planner.Count() == old(planner.Count()) + 1
                && (old(planner.Count()) == 0 ==> planner.Queue()[0].entry == 0.0)
                && (old(planner.Count()) > 0 ==> planner.Queue()[0] == old(planner.Queue()[0]))
                && (planner.prepping ==>
                      && old(planner.prepping) && old(planner.Count()) > 1
                      && planner.Queue()[1] == old(planner.Queue()[1]))
      ensures !queued ==>
                && planner.Queue() == old(planner.Queue()) && planner.Count() == old(planner.Count())
                && planner.prepping == old(planner.prepping) && planner.recalculate == old(planner.recalculate)
    {
      hide PlannerState.Valid, StepperState.Valid, PlannerState.Held, Records, Motors, Machine.Machine, Straight,
           Leads, PlannerState.Moves, Enough;
      hide PlannerState.Queue, PlannerSpec.Replanned, PlannerSpec.WithPlan, PlannerSpec.AllLong;
      ghost var moves, from, w, p := planner.Moves(), planner.position, planner.Queue(), planner.PlannedOffset();
      ghost var nominal, previous := data.NominalSpeedUnder(planner.fOverride, planner.rOverride),
        planner.previousNominalSpeed;
      ghost var cutting, goal := stepper.queue.remaining > 0, Add(Motors(from), lost);
      MotorsLinear(target, from);
      MachineOfMotors(target); MachineOfMotors(from);
      planner.HeldInside();
      var ok := planner.PlanBufferLine(target, stepper.sysPosition, data);
      queued := ok && !data.systemMotion;
      ghost var d := Sub(Motors(target), Motors(from));
      if queued {
        LeadsFurther(stepper.queue.start, stepper.queue.blocks + Uncut(moves, cutting), goal, d);
        assert planner.Moves() == moves + [Straight(d)] && |moves| + 1 == planner.Count();
        assert stepper.queue.blocks + Uncut(moves + [Straight(d)], cutting)
            == stepper.queue.blocks + Uncut(moves, cutting) + [Straight(d)];
        assert Straight(d).Ok();
        assert Add(goal, d) == Add(Motors(target), lost);
        assert [] + [data.Node(true, nominal, previous)] == [data.Node(true, nominal, previous)];
        LineQueue(w, data.Node(w == [], nominal, previous), p, planner.Queue());
      }
    }

    /** st_prep_buffer takes up the first planner block: a new one is copied for the stepper, one
        released for re-planning is only taken back.  During a hold its speed is overridden. */
    method TakeBlock(speed: real, hold: bool)
      requires Valid() && |stepper.queue.pieces| < SEGMENT_BUFFER_SIZE - 1
      requires planner.Count() > 0 && !planner.prepping
      requires if hold then 0.0 <= Sqr(speed) <= planner.buf[planner.tail].entrySpeedSqr
               else planner.Valid() && Sqr(speed) == planner.buf[planner.tail].entrySpeedSqr
      modifies this`history, planner`prepping, planner`currentSpeed, planner`recalculate, planner.buf, stepper,
               stepper.stBlocks
      ensures Valid() && planner.prepping && (!hold ==> planner.Valid())
      ensures planner.Moves() == old(planner.Moves()) && planner.currentSpeed == speed
      ensures planner.Queue()
              == old(planner.Queue())[0 := old(planner.Queue()[0]).(entry := Sqr(speed))]
      ensures planner.buf[planner.tail]
              == old(planner.buf[planner.tail]).(entrySpeedSqr := planner.buf[planner.tail].entrySpeedSqr)
      ensures stepper.queue.pieces == old(stepper.queue.pieces)
      ensures history == if old(planner.recalculate) then old(history)
                         else old(history) + [OpLoad(old(planner.buf[planner.tail]).Move())]
      ensures stepper.queue.remaining
              == if old(planner.recalculate) then old(stepper.queue.remaining)
                 else old(planner.buf[planner.tail]).stepEventCount
      ensures Owing() == old(Owing()) && stepper.enabled == old(stepper.enabled)
      ensures planner.position == old(planner.position)
    {
      hide PlannerState.Valid, StepperState.Valid, PlannerState.Held, Records, Motors, Leads, PlannerState.Moves,
           PlannerState.Queue, Enough;
      ghost var moves, blocks := planner.Moves(), stepper.queue.blocks;
      planner.TailMove(); planner.TailNode();
      var b := planner.buf[planner.tail].Move();
      if !planner.recalculate {
        RecordsLoad(history, stepper.queue, b);
        history := history + [OpLoad(b)];
        EnoughLoad(moves, stepper.queue);
        stepper.LoadBlock(b);
        assert blocks + [b] + Uncut(moves, true) == blocks + Uncut(moves, false);
      }
      if hold {
        planner.StTakeHeldBlock(speed);
      } else {
        planner.StTakeTailBlock(speed);
        planner.ValidIsHeld();
      }
    }

    /** st_prep_buffer cuts one segment of n base steps off the block, leaving it millimeters long
        and the machine at the given speed; a block used up is discarded. */
    method CutSegment(n: nat, level: nat, speed: real, millimeters: real, hold: bool)
      requires Valid() && planner.prepping && CanCommit(stepper.queue, n, level)
      requires 0.0 <= millimeters && (millimeters == 0.0 <==> n == stepper.queue.remaining)
      requires var x := Seen(planner.buf[planner.tail].(millimeters := millimeters), true, speed);
               if hold then PlannerSpec.Slows(planner.Queue(), planner.Queue()[0 := x])
               else
                 && planner.Valid() && PlannerSpec.Progresses(planner.Queue(), planner.Queue()[0 := x])
                 && Sqr(speed) <= Sqr(planner.buf[planner.tail].NominalSpeedUnder(planner.fOverride, planner.rOverride))
      modifies this`history, planner, planner.buf, stepper, stepper.segments
      ensures Valid() && (!hold ==> planner.Valid()) && planner.position == old(planner.position)
      ensures history == old(history) + [OpCommit(n, level)]
      ensures stepper.queue == Commit(old(stepper.queue), n, level)
      ensures millimeters > 0.0 ==>
                var b := old(planner.buf[planner.tail]).(millimeters := millimeters);
                && planner.prepping && planner.currentSpeed == speed && planner.buf[planner.tail] == b
                && planner.Queue() == old(planner.Queue())[0 := Seen(b, true, speed)]
      ensures millimeters == 0.0 ==>
                && !planner.prepping && !planner.recalculate && planner.Queue() == old(planner.Queue())[1..]
      ensures Owing() <= old(Owing()) && stepper.enabled == old(stepper.enabled)
    {
      hide PlannerState.Valid, StepperState.Valid, PlannerState.Held, Records, Motors, Leads, PlannerState.Moves,
           PlannerState.Queue, Enough;
      hide Planner.Block.Reach, TickReady;
      ghost var moves := planner.Moves();
      HasBlock();
      if hold {
        planner.StHoldAdvance(speed, millimeters);
      } else {
        planner.StAdvance(speed, millimeters);
        planner.ValidIsHeld();
      }
      RecordsCommit(history, stepper.queue, n, level);
      EnoughCommit(moves, stepper.queue, n, level, if millimeters == 0.0 then moves[1..] else moves);
      history := history + [OpCommit(n, level)];
      stepper.CommitSegment(n, level);
      if millimeters == 0.0 {
        assert Uncut(moves[1..], false) == Uncut(moves, true);
        planner.PlanDiscardCurrentBlock();
        assert planner.Moves() == moves[1..];
      }
    }

    /** The speed the generator ends a hold with, no further step being cut. */
    method SlowTo(speed: real)
      requires Valid() && planner.prepping && Sqr(speed) == 0.0
      modifies planner`currentSpeed, planner.buf
      ensures Valid() && planner.currentSpeed == speed && planner.Count() == old(planner.Count())
      ensures planner.Queue() == old(planner.Queue())[0 := old(planner.Queue()[0]).(entry := 0.0)]
      ensures planner.buf[planner.tail] == old(planner.buf[planner.tail])
      ensures stepper.queue == old(stepper.queue) && Owing() == old(Owing())
    {
      hide PlannerState.Valid, StepperState.Valid, PlannerState.Held, Records, Motors, Leads, PlannerState.Moves,
           PlannerState.Queue, Enough;
      hide Planner.Block.Reach, PlannerSpec.Slows, Seen, Sqr;
      Parts();
      planner.TailNode();
      var b := planner.buf[planner.tail];
      assert b.(millimeters := b.millimeters) == b;
      planner.HeldQueue();
      AtRest(planner.Queue(), b, planner.prepping, planner.currentSpeed, speed);
      planner.StHoldAdvance(speed, b.millimeters);
    }

    /** A hold begins: the executing block is released for a new profile. */
    method Release()
      requires Valid()
      modifies planner`prepping, planner`recalculate, planner.buf
      ensures Valid() && !planner.prepping && (old(planner.Valid()) ==> planner.Valid())
      ensures planner.recalculate == (old(planner.recalculate) || old(planner.prepping))
      ensures planner.Queue() == old(planner.Queue()) && planner.Count() == old(planner.Count())
      ensures planner.Count() > 0 ==>
                planner.buf[planner.tail]
                == old(planner.buf[planner.tail]).(entrySpeedSqr := planner.buf[planner.tail].entrySpeedSqr)
    {
      hide PlannerState.Valid, StepperState.Valid, PlannerState.Held, Records, Motors, Leads, PlannerState.Moves,
           PlannerState.Queue, Enough;
      ghost var moves := planner.Moves();
      planner.StRelease();
    }

    /** plan_cycle_reinitialize after a hold. */
    method Reinitialize()
      requires Valid()
      modifies planner`planned, planner`prepping, planner`recalculate, planner.buf
      ensures Valid() && planner.Valid() && !planner.prepping
      ensures planner.recalculate == (old(planner.recalculate) || old(planner.prepping))
      ensures planner.Count() == old(planner.Count())
      ensures planner.Count() > 0 ==>
                planner.buf[planner.tail]
                == old(planner.buf[planner.tail]).(entrySpeedSqr := planner.buf[planner.tail].entrySpeedSqr)
      ensures planner.Queue() == PlannerSpec.WithPlan(old(planner.Queue()))
    {
      hide PlannerState.Valid, StepperState.Valid, PlannerState.Held, Records, Motors, Leads, PlannerState.Moves,
           PlannerState.Queue, Enough;
      ghost var moves := planner.Moves();
      planner.PlanCycleReinitialize();
      assert planner.Count() == |moves|;
      planner.ValidIsHeld();
    }

    /** The stepper interrupt is switched on. */
    method WakeUp()
      requires Valid()
      modifies stepper`enabled
      ensures Valid() && stepper.enabled && Owing() == old(Owing())
    {
      hide PlannerState.Held, Records, Leads, PlannerState.Moves, PlannerState.Queue, Enough, Inv;
      stepper.StWakeUp();
    }

    /** One stepper interrupt. */
    method Interrupt()
      requires Valid() && stepper.enabled
      modifies this`history, stepper
      ensures Valid() && stepper.queue.remaining == old(stepper.queue.remaining)
      ensures history == old(history) + if old(stepper.queue.pieces) != [] then [OpTick] else []
      ensures stepper.enabled <==> old(stepper.queue.pieces) != []
      ensures old(Owing()) == Owing() + if old(stepper.queue.pieces) != [] then 1 else 0
      ensures old(stepper.queue.pieces) == [] ==> stepper.queue == old(stepper.queue) && stepper.cycleStop
    {
      hide PlannerState.Valid, StepperState.Valid, PlannerState.Held, Records, Motors, Leads, PlannerState.Moves,
           PlannerState.Queue, Enough;
      hide Tick, TickReady;
      ghost var q := stepper.queue;
      if q.pieces != [] {
        RecordsTick(history, q);
        history := history + [OpTick];
      }
      stepper.Timer1CompA();
      if q.pieces != [] { TickKeeps(q); EnoughTick(planner.Moves(), q); }
    }

    /** Whenever nothing is queued any more, the motors stand at the CoreXY image of the planner
        position, but for the steps lost before the last synchronisation. */
    lemma DrainedAtTarget()
      requires Valid() && planner.Count() == 0 && stepper.queue.pieces == []
      ensures stepper.sysPosition == Add(Motors(planner.position), lost)
      ensures lost == Axes(0, 0, 0) ==> Machine.Machine(stepper.sysPosition) == planner.position
    {
      assert Inv(stepper.queue) && stepper.sysPosition == stepper.queue.position;
      hide Inv, PlannerState.Held, StepperState.Valid, Total, Records, Motors, Machine.Machine, Add, Sub;
      assert planner.Moves() == [] && stepper.queue.blocks + [] == stepper.queue.blocks;
      assert Together();
      DrainedState(stepper.queue);
      MachineOfMotors(planner.position);
      AddNothing(Motors(planner.position));
    }
  }

  lemma AddNothing(p: Axes<int>)
    ensures Add(p, Axes(0, 0, 0)) == p
  {
  }

  /** Seen at rest, the first block only differs in its entry speed, and slows the queue down. */
  lemma AtRest(w: seq<PlannerSpec.Node>, b: Block, executing: bool, was: real, speed: real)
    requires PlannerSpec.HeldOk(w) && w[0] == Seen(b, executing, was) && Sqr(speed) == 0.0
    ensures Seen(b, true, speed) == w[0].(entry := 0.0)
    ensures PlannerSpec.Slows(w, w[0 := Seen(b, true, speed)])
  {
    hide Sqr, Planner.Block.Reach;
  }

  lemma TickKeeps(s: State)
    requires TickReady(s)
    ensures Tick(s).blocks == s.blocks && Tick(s).start == s.start && Tick(s).remaining == s.remaining
  {
  }

  /** What queueing a block does to the queue, seen from the stepper. */
  lemma LineQueue(w: seq<PlannerSpec.Node>, b: PlannerSpec.Node, p: nat, u: seq<PlannerSpec.Node>)
    requires b.entry == 0.0 && b.reach > 0.0
    requires if w == [] then u == PlannerSpec.WithPlan([b]) else p < |w| && u == PlannerSpec.Replanned(w + [b], p)
    ensures |u| == |w| + 1
    ensures w == [] ==> u[0].entry == 0.0
    ensures PlannerSpec.AllLong(w) ==> PlannerSpec.AllLong(u)
  {
    assert forall i | 0 <= i < |w| :: (w + [b])[i] == w[i];
    if w == [] { assert PlannerSpec.Plan([b], 0) == 0.0; } else { PlannerSpec.ReplannedKeeps(w + [b], p); }
    hide PlannerSpec.Replanned;
  }

  lemma StartsThere(p: Axes<int>)
    ensures Leads(p, [NO_LINE], p)
    ensures Add(Motors(Machine.Machine(p)), Sub(p, Motors(Machine.Machine(p)))) == p
  {
    assert Total([NO_LINE], 1) == Add(Total([NO_LINE], 0), NO_LINE.Displacement());
  }
}
