/** How the homing cycle (limits.c) rewrites the motor positions of a CoreXY machine, where one axis
    is the half sum and the other the half difference of two motors. */
module Limits {
  import opened Machine

  const N_AXIS: nat := 3

  function Position(sys: seq<int>): Axes<int>
    requires |sys| == N_AXIS
  {
    Axes(sys[0], sys[1], sys[2])
  }

  function Choose(homed: bool, goal: int, read: int): int {
    if homed then goal else read
  }

  /** Axis positions read from the motors before and after: the homed axes stand where they were
      set, every other axis reads as before; with a belt axis homed the motors are then exactly the
      image of what is read, otherwise the belt motors are untouched. */
  predicate HomedTo(before: Axes<int>, after: Axes<int>, homed: Axes<bool>, goal: Axes<int>) {
    var r := Machine.Machine(before);
    && Machine.Machine(after)
       == Axes(Choose(homed.x, goal.x, r.x), Choose(homed.y, goal.y, r.y), Choose(homed.z, goal.z, r.z))
    && (homed.x || homed.y ==> after == Motors(Machine.Machine(after)))
    && (!homed.x && !homed.y ==> after.x == before.x && after.y == before.y)
  }

  /** One axis of the homing rewrite; position is the value the homed axis gets. */
  function SetAxis(p: Axes<int>, axis: nat, position: int): Axes<int> {
    var r := Machine.Machine(p);
    if axis == 0 then Axes(position + r.y, position - r.y, p.z)
    else if axis == 1 then Axes(r.x + position, r.x - position, p.z)
    else Axes(p.x, p.y, position)
  }

  /** Homing one axis sets it and leaves the others as they are read, whatever motor positions an
      interrupted approach has left. */
  lemma SetAxisReads(p: Axes<int>, axis: nat, position: int)
    requires axis < N_AXIS
    ensures var r := Machine.Machine(p);
            Machine.Machine(SetAxis(p, axis, position))
            == if axis == 0 then r.(x := position) else if axis == 1 then r.(y := position) else r.(z := position)
    ensures axis < 2 ==> SetAxis(p, axis, position) == Motors(Machine.Machine(SetAxis(p, axis, position)))
  {
  }

  /** Before each approach: the axes of this cycle count from zero. */
  method ZeroCycleAxes(sysPosition: array<int>, homed: Axes<bool>)
    requires sysPosition.Length == N_AXIS
    modifies sysPosition
    ensures HomedTo(old(Position(sysPosition[..])), Position(sysPosition[..]), homed, Axes(0, 0, 0))
  {
    var idx := 0;
    while idx < N_AXIS
      invariant idx <= N_AXIS
      invariant HomedTo(old(Position(sysPosition[..])), Position(sysPosition[..]), UpTo(homed, idx), Axes(0, 0, 0))
    {
      ghost var was := Position(sysPosition[..]);
      if IsSet(homed, idx) {
        SetAxisReads(was, idx, 0);
        if idx == 0 {
          var axisPosition := Half(sysPosition[0] - sysPosition[1]);
          sysPosition[0] := axisPosition;
          sysPosition[1] := -axisPosition;
        } else if idx == 1 {
          var axisPosition := Half(sysPosition[0] + sysPosition[1]);
          sysPosition[1] := axisPosition;
          sysPosition[0] := sysPosition[1];
        } else {
          sysPosition[2] := 0;
        }
        assert Position(sysPosition[..]) == SetAxis(was, idx, 0);
      }
      hide Machine.Machine, Motors, SetAxis;
      idx := idx + 1;
    }
  }

  predicate IsSet(mask: Axes<bool>, idx: nat) {
    if idx == 0 then mask.x else if idx == 1 then mask.y else mask.z
  }

  /** The axes of the mask below idx. */
  function UpTo(mask: Axes<bool>, idx: nat): Axes<bool> {
    Axes(mask.x && idx > 0, mask.y && idx > 1, mask.z && idx > 2)
  }

  function Pick(p: Axes<int>, idx: nat): int {
    if idx == 0 then p.x else if idx == 1 then p.y else p.z
  }

  /** After the cycle: the homed axes stand at their switches, less the pull-off. */
  method SetHomedAxes(sysPosition: array<int>, homed: Axes<bool>, goal: Axes<int>)
    requires sysPosition.Length == N_AXIS
    modifies sysPosition
    ensures HomedTo(old(Position(sysPosition[..])), Position(sysPosition[..]), homed, goal)
  {
    var idx := 0;
    while idx < N_AXIS
      invariant idx <= N_AXIS
      invariant HomedTo(old(Position(sysPosition[..])), Position(sysPosition[..]), UpTo(homed, idx), goal)
    {
      ghost var was := Position(sysPosition[..]);
      if IsSet(homed, idx) {
        var setAxisPosition := Pick(goal, idx);
        SetAxisReads(was, idx, setAxisPosition);
        if idx == 0 {
          var offAxisPosition := Half(sysPosition[0] - sysPosition[1]);
          sysPosition[0] := setAxisPosition + offAxisPosition;
          sysPosition[1] := setAxisPosition - offAxisPosition;
        } else if idx == 1 {
          var offAxisPosition := Half(sysPosition[0] + sysPosition[1]);
          sysPosition[0] := offAxisPosition + setAxisPosition;
          sysPosition[1] := offAxisPosition - setAxisPosition;
        } else {
          sysPosition[2] := setAxisPosition;
        }
        assert Position(sysPosition[..]) == SetAxis(was, idx, setAxisPosition);
      }
      hide Machine.Machine, Motors, SetAxis;
      idx := idx + 1;
    }
  }
}
