/** Step vectors and the CoreXY transform shared by the planner and the stepper. */
module Machine {

  datatype Axes<T> = Axes(x: T, y: T, z: T)

  /** Motor step positions of a machine position: the CoreXY belts drive motor A by x+y and
      motor B by x-y; the third motor drives z directly. */
  function Motors(p: Axes<int>): Axes<int> {
    Axes(p.x + p.y, p.x - p.y, p.z)
  }

  /** Along x both belt motors turn alike, along y against each other, and z is a motor's own; other moves add up
      from these. */
  lemma MotorsByAxis(p: Axes<int>, d: int)
    ensures Motors(Axes(0, 0, 0)) == Axes(0, 0, 0)
    ensures Motors(p.(x := p.x + d)) == Axes(Motors(p).x + d, Motors(p).y + d, Motors(p).z)
    ensures Motors(p.(y := p.y + d)) == Axes(Motors(p).x + d, Motors(p).y - d, Motors(p).z)
    ensures Motors(p.(z := p.z + d)) == Motors(p).(z := Motors(p).z + d)
  {
  }

  /** C integer halving: towards zero. */
  function Half(n: int): int {
    if n >= 0 then n / 2 else -((-n) / 2)
  }

  /** system_convert_corexy_to_x_axis_steps and its y counterpart. */
  function Machine(m: Axes<int>): Axes<int> {
    Axes(Half(m.x + m.y), Half(m.x - m.y), m.z)
  }

  /** Reading the machine position back from motors that were driven by one is exact. */
  lemma MachineOfMotors(p: Axes<int>)
    ensures Machine(Motors(p)) == p
  {
  }

  /** Reading motors and driving them back is exact just when a+b is even; a sum left odd by an
      interrupted move costs one of the two belt motors one step. */
  lemma MotorsOfMachine(m: Axes<int>)
    ensures Motors(Machine(m)) == m <==> (m.x + m.y) % 2 == 0
    ensures var lost := Sub(m, Motors(Machine(m)));
            -1 <= lost.x <= 1 && -1 <= lost.y <= 1 && lost.z == 0 && (lost.x == 0 || lost.y == 0)
  {
  }

  function Abs(n: int): nat {
    if n < 0 then -n else n
  }

  function Signed(n: int, negative: bool): int {
    if negative then -n else n
  }

  function Max(a: nat, b: nat): nat {
    if a < b then b else a
  }

  function Sub(a: Axes<int>, b: Axes<int>): Axes<int> {
    Axes(a.x - b.x, a.y - b.y, a.z - b.z)
  }

  function Add(a: Axes<int>, b: Axes<int>): Axes<int> {
    Axes(a.x + b.x, a.y + b.y, a.z + b.z)
  }

  lemma MotorsLinear(a: Axes<int>, b: Axes<int>)
    ensures Sub(Motors(a), Motors(b)) == Motors(Sub(a, b))
    ensures Add(Motors(b), Sub(Motors(a), Motors(b))) == Motors(a)
    ensures Motors(a) == Motors(b) <==> Motors(Sub(a, b)) == Axes(0, 0, 0)
  {
  }

  /** A straight motor move as the step tracer needs it: unsigned steps of each motor, the number n
      of step events, and directions. */
  datatype Line = Line(steps: Axes<nat>, n: nat, negative: Axes<bool>)
  {
    predicate Ok() {
      n > 0 && steps.x <= n && steps.y <= n && steps.z <= n
    }

    function Displacement(): Axes<int> {
      Axes(Signed(steps.x, negative.x), Signed(steps.y, negative.y), Signed(steps.z, negative.z))
    }
  }

  /** The move covering a displacement, paced by its longest axis. */
  function Straight(d: Axes<int>): (b: Line)
    ensures b.Displacement() == d
    ensures b.Ok() <==> d != Axes(0, 0, 0)
  {
    Line(Axes(Abs(d.x), Abs(d.y), Abs(d.z)), Max(Max(Abs(d.x), Abs(d.y)), Abs(d.z)), Axes(d.x < 0, d.y < 0, d.z < 0))
  }

  function Sqr(v: real): (s: real)
    ensures s >= 0.0
  {
    v * v
  }
}
