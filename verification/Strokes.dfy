/** The stroke compiler of the drawing application: timed pen points are collected (Stroke.java) and
    turned into moves bracketed by pen commands (Interpreter.java). */
module Strokes {

  const FEED_RATE_DEFAULT: real := 30000.0

  datatype Point = Point(penX: real, penY: real, millis: int, isHead: bool, isTail: bool)

  /** A pen position as it arrives. */
  datatype Input = Input(penX: real, penY: real, millis: int)

  datatype Calibration = Calibration(
    tabletWidth: real, tabletHeight: real, calibX: real, screenWidth: real, screenHeight: real,
    xInverted: bool, yInverted: bool)
  {
    predicate Valid() {
      screenWidth > 0.0 && screenHeight > 0.0
    }

    function X(penX: real): real
      requires Valid()
    {
      var x := tabletWidth * ((penX - calibX) / screenWidth);
      if xInverted then -x else x
    }

    function Y(penY: real): real
      requires Valid()
    {
      var y := tabletHeight * (penY / screenHeight);
      if yInverted then -y else y
    }
  }

  /** The commands reserved: a rapid approach, pen down, a drawing move at an inverse-time feed rate,
      pen up. */
  datatype Command = Travel(x: real, y: real) | PenDown | Draw(x: real, y: real, f: real) | PenUp

  // ---- collecting points -----------------------------------------------------------------------------

  /** One more point: the same time overwrites the last point, an earlier one is ignored. */
  function Added(ps: seq<Point>, p: Input, tail: bool): (r: seq<Point>)
    requires ps != []
    ensures r != []
  {
    var last := ps[|ps| - 1].millis;
    if p.millis == last then
      ps[..|ps| - 1] + [Point(p.penX, p.penY, if tail then p.millis + 1 else p.millis, false, tail)]
    else if p.millis > last then ps + [Point(p.penX, p.penY, p.millis, false, tail)]
    else ps
  }

  function Begun(p: Input): seq<Point> {
    [Point(p.penX, p.penY, p.millis, true, false)]
  }

  /** The points of a stroke after its head and further inputs, none of them the tail. */
  function Drawn(head: Input, ins: seq<Input>): (ps: seq<Point>)
    ensures ps != []
  {
    if ins == [] then Begun(head) else Added(Drawn(head, ins[..|ins| - 1]), ins[|ins| - 1], false)
  }

  function Complete(head: Input, ins: seq<Input>, tail: Input): (ps: seq<Point>)
    ensures ps != []
  {
    Added(Drawn(head, ins), tail, true)
  }

  /** Times rise strictly. */
  ghost predicate Rising(ps: seq<Point>) {
    forall i | 0 < i < |ps| :: ps[i - 1].millis < ps[i].millis
  }

  /** Only the first point can be a head and only the last a tail. */
  ghost predicate Shaped(ps: seq<Point>) {
    && (forall i | 0 < i < |ps| :: !ps[i].isHead)
    && (forall i | 0 <= i < |ps| - 1 :: !ps[i].isTail)
  }

  lemma AddedRising(ps: seq<Point>, p: Input, tail: bool)
    requires ps != [] && Rising(ps) && Shaped(ps) && !ps[|ps| - 1].isTail
    ensures Rising(Added(ps, p, tail)) && Shaped(Added(ps, p, tail))
    ensures Added(ps, p, tail)[|Added(ps, p, tail)| - 1].isTail ==> tail
  {
    var r := Added(ps, p, tail);
    assert forall i | 0 <= i < |ps| - 1 :: r[i] == ps[i];
  }

  /** Whatever the time stamps, the points of a stroke have strictly rising times, its last time is the
      latest seen, and it carries no tail before it is complete. */
  lemma {:induction false} DrawnRising(head: Input, ins: seq<Input>)
    ensures var ps := Drawn(head, ins);
            && Rising(ps) && Shaped(ps) && !ps[|ps| - 1].isTail
            && head.millis <= ps[|ps| - 1].millis
            && (forall i | 0 <= i < |ins| :: ins[i].millis <= ps[|ps| - 1].millis)
            && (ps[|ps| - 1].millis == head.millis || exists i | 0 <= i < |ins| :: ins[i].millis == ps[|ps| - 1].millis)
  {
    if ins != [] {
      var before, p := ins[..|ins| - 1], ins[|ins| - 1];
      DrawnRising(head, before);
      AddedRising(Drawn(head, before), p, false);
      LastAdded(Drawn(head, before), p);
      var ps := Drawn(head, before);
      if p.millis < ps[|ps| - 1].millis && ps[|ps| - 1].millis != head.millis {
        var i :| 0 <= i < |before| && before[i].millis == ps[|ps| - 1].millis;
        assert ins[i].millis == ps[|ps| - 1].millis;
      }
      assert ins[|ins| - 1] == p && forall i | 0 <= i < |before| :: ins[i] == before[i];
    }
  }

  lemma LastAdded(ps: seq<Point>, p: Input)
    requires ps != []
    ensures var r := Added(ps, p, false); var m := ps[|ps| - 1].millis;
            r[|r| - 1].millis == if p.millis > m then p.millis else m
  {
  }

  // ---- commands --------------------------------------------------------------------------------------

  /** Moves per minute: a move of d milliseconds takes 1/F minutes. */
  function Feed(a: Point, b: Point): real {
    var duration := b.millis - a.millis;
    if duration != 0 then 60000.0 / duration as real else FEED_RATE_DEFAULT
  }

  function Approach(c: Calibration, a: Point): seq<Command>
    requires c.Valid()
  {
    if a.isHead then [Travel(c.X(a.penX), c.Y(a.penY)), PenDown] else []
  }

  function Segment(c: Calibration, a: Point, b: Point): seq<Command>
    requires c.Valid()
  {
    Approach(c, a)
    + [Draw(c.X(b.penX), c.Y(b.penY), Feed(a, b))]
    + (if b.isTail then [PenUp] else [])
  }

  function Compile(c: Calibration, ps: seq<Point>): seq<Command>
    requires c.Valid()
  {
    if |ps| < 2 then [] else Segment(c, ps[0], ps[1]) + Compile(c, ps[1..])
  }

  // ---- where a stroke is drawn ---------------------------------------------------------------------

  /** The drawing area maps onto the tablet's, or its mirror image: its left edge to zero, its width to the
      width, and differences in proportion. */
  lemma Calibrated(c: Calibration, x: real, d: real, y: real, e: real)
    requires c.Valid()
    ensures c.X(c.calibX) == 0.0 && c.Y(0.0) == 0.0
    ensures c.X(c.calibX + c.screenWidth) == if c.xInverted then -c.tabletWidth else c.tabletWidth
    ensures c.Y(c.screenHeight) == if c.yInverted then -c.tabletHeight else c.tabletHeight
    ensures (c.X(x + d) - c.X(x)) * c.screenWidth == d * if c.xInverted then -c.tabletWidth else c.tabletWidth
    ensures (c.Y(y + e) - c.Y(y)) * c.screenHeight == e * if c.yInverted then -c.tabletHeight else c.tabletHeight
  {
    Scaled(c.tabletWidth, c.screenWidth, x - c.calibX, d);
    Scaled(c.tabletHeight, c.screenHeight, y, e);
    assert x + d - c.calibX == x - c.calibX + d;
    assert c.screenWidth / c.screenWidth == 1.0 && c.screenHeight / c.screenHeight == 1.0;
  }

  lemma Scaled(w: real, s: real, x: real, d: real)
    requires s > 0.0
    ensures (w * ((x + d) / s) - w * (x / s)) * s == d * w
  {
    var q, r := (x + d) / s, x / s;
    assert q * s == x + d && r * s == x;
    assert (w * q - w * r) * s == w * (q * s) - w * (r * s);
  }

  function Draws(cs: seq<Command>): seq<Command> {
    if cs == [] then [] else (if cs[0].Draw? then [cs[0]] else []) + Draws(cs[1..])
  }

  function Travels(cs: seq<Command>): seq<Command> {
    if cs == [] then [] else (if cs[0].Travel? then [cs[0]] else []) + Travels(cs[1..])
  }

  lemma {:induction false} DrawsJoin(a: seq<Command>, b: seq<Command>)
    ensures Draws(a + b) == Draws(a) + Draws(b)
  {
    if a == [] {
      assert a + b == b;
    } else {
      assert (a + b)[1..] == a[1..] + b && (a + b)[0] == a[0];
      var x := if a[0].Draw? then [a[0]] else [];
      assert Draws(a) == x + Draws(a[1..]) && Draws(a + b) == x + Draws(a[1..] + b);
      hide *;
      DrawsJoin(a[1..], b);
    }
  }

  lemma {:induction false} TravelsJoin(a: seq<Command>, b: seq<Command>)
    ensures Travels(a + b) == Travels(a) + Travels(b)
  {
    if a == [] {
      assert a + b == b;
    } else {
      assert (a + b)[1..] == a[1..] + b && (a + b)[0] == a[0];
      var x := if a[0].Travel? then [a[0]] else [];
      assert Travels(a) == x + Travels(a[1..]) && Travels(a + b) == x + Travels(a[1..] + b);
      hide *;
      TravelsJoin(a[1..], b);
    }
  }

  lemma SegmentDraws(c: Calibration, a: Point, b: Point)
    requires c.Valid()
    ensures Draws(Segment(c, a, b)) == [Draw(c.X(b.penX), c.Y(b.penY), Feed(a, b))]
    ensures Travels(Segment(c, a, b)) == if a.isHead then [Travel(c.X(a.penX), c.Y(a.penY))] else []
  {
    hide Feed, Calibration.X, Calibration.Y;
    var pre, draw := Approach(c, a), [Draw(c.X(b.penX), c.Y(b.penY), Feed(a, b))];
    var post := if b.isTail then [PenUp] else [];
    DrawsJoin(pre + draw, post);
    DrawsJoin(pre, draw);
    TravelsJoin(pre + draw, post);
    TravelsJoin(pre, draw);
    if a.isHead { assert pre[1..] == [PenDown] && pre[1..][1..] == []; }
    assert draw[1..] == [] && (post != [] ==> post[1..] == []);
  }

  /** A stroke is drawn through the images of its points, each move taking the time between them, after an
      approach to the image of the first one if it still carries the head mark. */
  lemma {:induction false} DrawnThrough(c: Calibration, ps: seq<Point>)
    requires c.Valid() && Shaped(ps)
    ensures |Draws(Compile(c, ps))| == if ps == [] then 0 else |ps| - 1
    ensures forall i | 0 <= i < |ps| - 1 ::
              Draws(Compile(c, ps))[i] == Draw(c.X(ps[i + 1].penX), c.Y(ps[i + 1].penY), Feed(ps[i], ps[i + 1]))
    ensures Travels(Compile(c, ps))
         == if |ps| > 1 && ps[0].isHead then [Travel(c.X(ps[0].penX), c.Y(ps[0].penY))] else []
    decreases |ps|
  {
    hide Feed, Calibration.X, Calibration.Y, Segment;
    if |ps| >= 2 {
      DrawnThrough(c, ps[1..]);
      SegmentDraws(c, ps[0], ps[1]);
      DrawsJoin(Segment(c, ps[0], ps[1]), Compile(c, ps[1..]));
      TravelsJoin(Segment(c, ps[0], ps[1]), Compile(c, ps[1..]));
    }
  }

  // ---- which inputs become points -------------------------------------------------------------------

  /** One of the inputs behind i, before j, is later. */
  ghost predicate Overtaken(all: seq<Input>, i: nat, j: nat)
    requires i < |all| && j <= |all|
  {
    exists m | i < m < j :: all[m].millis > all[i].millis
  }

  /** An input is kept if none before it is later, and none behind it has its time, except behind a later one. */
  ghost predicate Survives(all: seq<Input>, i: nat)
    requires i < |all|
  {
    && (forall j | 0 <= j < i :: all[j].millis <= all[i].millis)
    && (forall j | i < j < |all| && all[j].millis == all[i].millis :: Overtaken(all, i, j))
  }

  predicate Matches(p: Point, x: Input) {
    p.penX == x.penX && p.penY == x.penY && p.millis == x.millis
  }

  ghost predicate HasPoint(ps: seq<Point>, x: Input) {
    exists k :: 0 <= k < |ps| && Matches(ps[k], x)
  }

  ghost predicate HasInput(all: seq<Input>, p: Point) {
    exists i :: 0 <= i < |all| && Survives(all, i) && Matches(p, all[i])
  }

  /** The points are those of the kept inputs. */
  ghost predicate AreKept(all: seq<Input>, ps: seq<Point>) {
    && (forall i | 0 <= i < |all| && Survives(all, i) :: HasPoint(ps, all[i]))
    && (forall k | 0 <= k < |ps| :: HasInput(all, ps[k]))
  }

  /** Another input only matters to one of the same time with none later in between. */
  lemma Longer(all: seq<Input>, p: Input, i: nat)
    requires i < |all|
    ensures Survives(all + [p], i) <==>
              Survives(all, i) && (p.millis == all[i].millis ==> Overtaken(all, i, |all|))
  {
    var n, u := |all|, all + [p];
    forall j | i < j <= n ensures Overtaken(u, i, j) == Overtaken(all, i, j) { SameOvertaken(all, p, i, j); }
    hide Overtaken;
    assert forall j | 0 <= j < n :: u[j] == all[j];
    if Survives(all, i) && (p.millis == all[i].millis ==> Overtaken(all, i, n)) {
      assert forall j | i < j < |u| && u[j].millis == u[i].millis :: Overtaken(u, i, j);
    }
    if Survives(u, i) {
      assert p.millis == all[i].millis ==> Overtaken(u, i, n) by { assert u[n] == p; }
      assert forall j | 0 <= j < i :: all[j].millis == u[j].millis <= u[i].millis;
      forall j | i < j < n && all[j].millis == all[i].millis ensures Overtaken(all, i, j) {
        assert u[j].millis == u[i].millis;
      }
    }
  }

  lemma SameOvertaken(all: seq<Input>, p: Input, i: nat, j: nat)
    requires i < |all| && j <= |all|
    ensures Overtaken(all + [p], i, j) == Overtaken(all, i, j)
  {
    var u := all + [p];
    if m :| i < m < j && u[m].millis > u[i].millis { assert all[m].millis > all[i].millis; }
    if m :| i < m < j && all[m].millis > all[i].millis { assert u[m].millis > u[i].millis; }
  }

  /** The last one survives unless an earlier one is later. */
  lemma LastOne(all: seq<Input>, p: Input, latest: int)
    requires all != [] && (forall i | 0 <= i < |all| :: all[i].millis <= latest)
    requires exists i :: 0 <= i < |all| && all[i].millis == latest
    ensures Survives(all + [p], |all|) <==> p.millis >= latest
  {
    var n, u := |all|, all + [p];
    var l :| 0 <= l < n && all[l].millis == latest;
    assert u[l].millis == latest && u[n] == p;
    assert forall j | 0 <= j < n :: u[j].millis == all[j].millis;
  }

  /** One that stands and is earlier than the latest is overtaken. */
  lemma EarlierOvertaken(all: seq<Input>, i: nat, l: nat)
    requires i < |all| && l < |all| && Survives(all, i) && all[l].millis > all[i].millis
    ensures Overtaken(all, i, |all|)
  {
    assert i < l < |all| && all[l].millis > all[i].millis;
  }

  lemma NotOvertaken(all: seq<Input>, i: nat, latest: int)
    requires i < |all| && all[i].millis == latest && forall j | 0 <= j < |all| :: all[j].millis <= latest
    ensures !Overtaken(all, i, |all|)
  {
  }

  /** Which of the inputs survive one more. */
  lemma WhoSurvives(all: seq<Input>, p: Input, latest: int, i: nat)
    requires i < |all| && (forall j | 0 <= j < |all| :: all[j].millis <= latest)
    requires exists j :: 0 <= j < |all| && all[j].millis == latest
    ensures Survives(all + [p], i) <==> Survives(all, i) && !(p.millis == latest && all[i].millis == latest)
  {
    hide Survives, Overtaken;
    Longer(all, p, i);
    var l :| 0 <= l < |all| && all[l].millis == latest;
    if all[i].millis == latest { NotOvertaken(all, i, latest); }
    else if Survives(all, i) { EarlierOvertaken(all, i, l); }
  }

  lemma {:induction false} RisingFrom(ps: seq<Point>, i: nat, j: nat)
    requires Rising(ps) && i < j < |ps|
    ensures ps[i].millis < ps[j].millis
  {
    if i < j - 1 { RisingFrom(ps, i, j - 1); }
  }

  /** A point of the last time is the last point. */
  lemma LatestPoint(ps: seq<Point>, x: Input)
    requires ps != [] && Rising(ps) && HasPoint(ps, x)
    ensures x.millis <= ps[|ps| - 1].millis
    ensures x.millis < ps[|ps| - 1].millis ==> HasPoint(ps[..|ps| - 1], x)
  {
    var k :| 0 <= k < |ps| && Matches(ps[k], x);
    if k < |ps| - 1 {
      RisingFrom(ps, k, |ps| - 1);
      assert Matches(ps[..|ps| - 1][k], x);
    }
  }

  lemma MorePoints(ps: seq<Point>, q: Point, x: Input)
    ensures HasPoint(ps, x) ==> HasPoint(ps + [q], x)
    ensures Matches(q, x) ==> HasPoint(ps + [q], x)
  {
    var r := ps + [q];
    if k :| 0 <= k < |ps| && Matches(ps[k], x) { assert Matches(r[k], x); }
    if Matches(q, x) { assert Matches(r[|ps|], x); }
  }

  /** An input of a point still stands when another one comes. */
  lemma InputStays(all: seq<Input>, p: Input, latest: int, q: Point)
    requires HasInput(all, q) && (forall j | 0 <= j < |all| :: all[j].millis <= latest)
    requires exists j :: 0 <= j < |all| && all[j].millis == latest
    requires !(p.millis == latest && q.millis == latest)
    ensures HasInput(all + [p], q)
  {
    hide Survives;
    var i :| 0 <= i < |all| && Survives(all, i) && Matches(q, all[i]);
    WhoSurvives(all, p, latest, i);
    assert (all + [p])[i] == all[i];
    assert Survives(all + [p], i) && Matches(q, (all + [p])[i]);
  }

  lemma NewInput(all: seq<Input>, p: Input, latest: int, q: Point)
    requires all != [] && (forall i | 0 <= i < |all| :: all[i].millis <= latest)
    requires (exists i :: 0 <= i < |all| && all[i].millis == latest) && p.millis >= latest && Matches(q, p)
    ensures HasInput(all + [p], q)
  {
    LastOne(all, p, latest);
    hide Survives;
    var u := all + [p];
    assert u[|all|] == p && Survives(u, |all|) && Matches(q, u[|all|]);
  }

  ghost predicate LatestIs(all: seq<Input>, t: int) {
    (forall i | 0 <= i < |all| :: all[i].millis <= t) && exists i :: 0 <= i < |all| && all[i].millis == t
  }

  lemma OneMoreKept(all: seq<Input>, ps: seq<Point>, p: Input)
    requires all != [] && ps != [] && AreKept(all, ps) && Rising(ps) && LatestIs(all, ps[|ps| - 1].millis)
    ensures AreKept(all + [p], Added(ps, p, false))
  {
    hide Survives, HasPoint, HasInput, Rising;
    var latest, u, r := ps[|ps| - 1].millis, all + [p], Added(ps, p, false);
    forall i | 0 <= i < |u| && Survives(u, i) ensures HasPoint(r, u[i]) {
      if i < |all| {
        WhoSurvives(all, p, latest, i);
        assert u[i] == all[i];
        LatestPoint(ps, all[i]);
        PointStays(ps, p, all[i]);
      } else {
        LastOne(all, p, latest);
        NewPoint(ps, p);
      }
    }
    forall k | 0 <= k < |r| ensures HasInput(u, r[k]) {
      if k < |ps| && r[k] == ps[k] && !(p.millis == latest && k == |ps| - 1) {
        if p.millis == latest { RisingFrom(ps, k, |ps| - 1); }
        InputStays(all, p, latest, ps[k]);
      } else {
        NewInput(all, p, latest, r[k]);
      }
    }
  }

  lemma PointStays(ps: seq<Point>, p: Input, x: Input)
    requires ps != [] && HasPoint(ps, x) && x.millis <= ps[|ps| - 1].millis
    requires p.millis == ps[|ps| - 1].millis ==> HasPoint(ps[..|ps| - 1], x)
    ensures HasPoint(Added(ps, p, false), x)
  {
    hide HasPoint;
    var last := ps[|ps| - 1].millis;
    MorePoints(ps, Point(p.penX, p.penY, p.millis, false, false), x);
    MorePoints(ps[..|ps| - 1], Point(p.penX, p.penY, p.millis, false, false), x);
  }

  lemma NewPoint(ps: seq<Point>, p: Input)
    requires ps != [] && p.millis >= ps[|ps| - 1].millis
    ensures HasPoint(Added(ps, p, false), p)
  {
    hide HasPoint;
    var q := Point(p.penX, p.penY, p.millis, false, false);
    MorePoints(ps, q, p); MorePoints(ps[..|ps| - 1], q, p);
  }

  lemma LatestOf(head: Input, ins: seq<Input>)
    ensures LatestIs([head] + ins, Drawn(head, ins)[|Drawn(head, ins)| - 1].millis)
  {
    DrawnRising(head, ins);
    var all, last := [head] + ins, Drawn(head, ins)[|Drawn(head, ins)| - 1].millis;
    hide Drawn;
    if last == head.millis {
      assert all[0].millis == last;
    } else {
      var i :| 0 <= i < |ins| && ins[i].millis == last;
      assert all[i + 1].millis == last;
    }
    assert forall i | 0 < i < |all| :: all[i] == ins[i - 1];
  }

  /** Whatever the time stamps, the points of a stroke, at strictly rising times, are exactly the head and the
      inputs that are kept. */
  lemma {:induction false} PointsAreKept(head: Input, ins: seq<Input>)
    ensures AreKept([head] + ins, Drawn(head, ins))
  {
    if ins == [] {
      HeadIsKept(head);
      assert [head] + ins == [head];
    } else {
      hide AreKept, Drawn;
      PointsAreKept(head, ins[..|ins| - 1]);
      NextIsKept(head, ins[..|ins| - 1], ins[|ins| - 1]);
      assert ins[..|ins| - 1] + [ins[|ins| - 1]] == ins;
    }
  }

  lemma {:induction false} NextIsKept(head: Input, ins: seq<Input>, p: Input)
    requires AreKept([head] + ins, Drawn(head, ins))
    ensures AreKept([head] + (ins + [p]), Drawn(head, ins + [p]))
  {
    hide AreKept, LatestIs, Rising, Shaped, Added;
    assert Drawn(head, ins + [p]) == Added(Drawn(head, ins), p, false) by { assert (ins + [p])[..|ins|] == ins; }
    hide Drawn;
    assert [head] + (ins + [p]) == [head] + ins + [p];
    DrawnRising(head, ins);
    LatestOf(head, ins);
    OneMoreKept([head] + ins, Drawn(head, ins), p);
  }

  lemma HeadIsKept(head: Input)
    ensures AreKept([head], Begun(head))
  {
    assert Survives([head], 0) && Matches(Begun(head)[0], [head][0]);
    assert HasPoint(Begun(head), head) && HasInput([head], Begun(head)[0]);
  }

  /** The end of a stroke is its last point, a millisecond later if it came with the last time; one before the last
      time is dropped. */
  lemma EndIsKept(head: Input, ins: seq<Input>, tail: Input)
    ensures var ps, r := Drawn(head, ins), Complete(head, ins, tail);
            var last := ps[|ps| - 1].millis;
            && (tail.millis < last ==> r == ps)
            && (tail.millis >= last ==>
                  var end := r[|r| - 1];
                  && end.penX == tail.penX && end.penY == tail.penY && end.isTail && !end.isHead
                  && end.millis == (if tail.millis == last then tail.millis + 1 else tail.millis)
                  && r[..|r| - 1] == if tail.millis == last then ps[..|ps| - 1] else ps)
  {
  }

  /** Minutes the drawing moves take, times 60000: their time in milliseconds. */
  function Time(cs: seq<Command>): real {
    if cs == [] then 0.0
    else
      Time(cs[..|cs| - 1])
      + match cs[|cs| - 1]
        case Draw(_, _, f) => (if f != 0.0 then 60000.0 / f else 0.0)
        case _ => 0.0
  }

  lemma {:induction false} TimeAppend(a: seq<Command>, b: seq<Command>)
    ensures Time(a + b) == Time(a) + Time(b)
  {
    if b == [] {
      assert a + b == a;
    } else {
      TimeAppend(a, b[..|b| - 1]);
      assert (a + b)[..|a + b| - 1] == a + b[..|b| - 1];
    }
  }

  lemma SegmentTime(c: Calibration, a: Point, b: Point)
    requires c.Valid() && a.millis < b.millis
    ensures Feed(a, b) > 0.0 && Time(Segment(c, a, b)) == (b.millis - a.millis) as real
  {
    hide Feed, Calibration.X, Calibration.Y, Approach, Time;
    FeedTime(a, b);
    var draw := Draw(c.X(b.penX), c.Y(b.penY), Feed(a, b));
    var pre, post := Approach(c, a), if b.isTail then [PenUp] else [];
    assert Segment(c, a, b) == pre + [draw] + post;
    TimeAppend(pre + [draw], post);
    TimeAppend(pre, [draw]);
    DrawTime(draw);
    ApproachTime(c, a);
    PenTime(post);
  }

  lemma ApproachTime(c: Calibration, a: Point)
    requires c.Valid()
    ensures Time(Approach(c, a)) == 0.0
  {
    hide Calibration.X, Calibration.Y, Time;
    PenTime(Approach(c, a));
  }

  lemma FeedTime(a: Point, b: Point)
    requires a.millis < b.millis
    ensures Feed(a, b) > 0.0 && 60000.0 / Feed(a, b) == (b.millis - a.millis) as real
  {
    var d := (b.millis - a.millis) as real;
    assert 60000.0 / (60000.0 / d) == d;
  }

  lemma DrawTime(draw: Command)
    requires draw.Draw? && draw.f > 0.0
    ensures Time([draw]) == 60000.0 / draw.f
  {
    assert [draw][..0] == [];
  }

  lemma {:induction false} PenTime(cs: seq<Command>)
    requires forall i | 0 <= i < |cs| :: !cs[i].Draw?
    ensures Time(cs) == 0.0
  {
    if cs != [] {
      PenTime(cs[..|cs| - 1]);
    }
  }

  /** The feed rates of a compiled stroke are positive and reproduce its duration: the drawing moves
      together take exactly the time from its first point to its last. */
  lemma {:induction false} TimingConserved(c: Calibration, ps: seq<Point>)
    requires c.Valid() && ps != [] && Rising(ps)
    ensures Time(Compile(c, ps)) == (ps[|ps| - 1].millis - ps[0].millis) as real
    ensures forall i | 0 <= i < |Compile(c, ps)| :: Compile(c, ps)[i].Draw? ==> Compile(c, ps)[i].f > 0.0
  {
    if |ps| >= 2 {
      var rest := ps[1..];
      TimingConserved(c, rest);
      SegmentTime(c, ps[0], ps[1]);
      TimeAppend(Segment(c, ps[0], ps[1]), Compile(c, rest));
    }
  }

  // ---- the pen -----------------------------------------------------------------------------------

  /** Whether the pen is down after some commands. */
  predicate PenDownAfter(down: bool, cs: seq<Command>) {
    if cs == [] then down
    else match cs[|cs| - 1]
      case PenDown => true
      case PenUp => false
      case _ => PenDownAfter(down, cs[..|cs| - 1])
  }

  /** Approaches are made with the pen up. */
  ghost predicate TravelsUp(down: bool, cs: seq<Command>) {
    forall i | 0 <= i < |cs| :: cs[i].Travel? ==> !PenDownAfter(down, cs[..i])
  }

  /** Every drawing move is made with the pen in the given state. */
  ghost predicate DrawsWith(down: bool, cs: seq<Command>, state: bool) {
    forall i | 0 <= i < |cs| :: cs[i].Draw? ==> PenDownAfter(down, cs[..i]) == state
  }

  lemma {:induction false} PenAppend(down: bool, a: seq<Command>, b: seq<Command>)
    ensures PenDownAfter(down, a + b) == PenDownAfter(PenDownAfter(down, a), b)
  {
    if b == [] {
      assert a + b == a;
    } else {
      PenAppend(down, a, b[..|b| - 1]);
      assert (a + b)[..|a + b| - 1] == a + b[..|b| - 1];
    }
  }

  lemma JoinPen(down: bool, a: seq<Command>, b: seq<Command>)
    ensures TravelsUp(down, a + b) <==> TravelsUp(down, a) && TravelsUp(PenDownAfter(down, a), b)
    ensures forall state :: DrawsWith(down, a + b, state) <==>
                            DrawsWith(down, a, state) && DrawsWith(PenDownAfter(down, a), b, state)
  {
    var cs, mid := a + b, PenDownAfter(down, a);
    forall i | 0 <= i <= |cs|
      ensures PenDownAfter(down, cs[..i])
           == if i <= |a| then PenDownAfter(down, a[..i]) else PenDownAfter(mid, b[..i - |a|])
    {
      if i <= |a| {
        assert cs[..i] == a[..i];
      } else {
        assert cs[..i] == a + b[..i - |a|];
        PenAppend(down, a, b[..i - |a|]);
      }
    }
    hide PenDownAfter;
    assert a[..|a|] == a && b[..0] == [];
    forall i | 0 <= i < |b|
      ensures PenDownAfter(mid, b[..i]) == PenDownAfter(down, cs[..|a| + i]) && cs[|a| + i] == b[i]
    {
      if i == 0 { PenNothing(mid); }
    }
    assert forall i | 0 <= i < |a| :: cs[i] == a[i];
    assert forall i | |a| <= i < |cs| :: cs[i] == b[i - |a|];
  }

  lemma PenNothing(down: bool)
    ensures PenDownAfter(down, []) == down
  {
  }

  /** One segment: the pen goes down at the head, draws, and goes up at the tail. */
  lemma SegmentPen(c: Calibration, a: Point, b: Point, down: bool)
    requires c.Valid() && (a.isHead ==> !down)
    ensures var cs := Segment(c, a, b);
            && PenDownAfter(down, cs) == (!b.isTail && (a.isHead || down))
            && TravelsUp(down, cs) && DrawsWith(down, cs, a.isHead || down)
  {
    var draw := [Draw(c.X(b.penX), c.Y(b.penY), Feed(a, b))];
    var pre := if a.isHead then [Travel(c.X(a.penX), c.Y(a.penY)), PenDown] else [];
    var post := if b.isTail then [PenUp] else [];
    assert Segment(c, a, b) == pre + draw + post;
    assert draw[..0] == [] && pre[..0] == [] && post[..0] == [];
    if a.isHead { assert pre[..1] == [pre[0]] && [pre[0]][..0] == []; }
    PenAppend(down, pre, draw); PenAppend(down, pre + draw, post);
    JoinPen(down, pre, draw); JoinPen(down, pre + draw, post);
  }

  lemma {:induction false} CompilePen(c: Calibration, ps: seq<Point>, down: bool)
    requires c.Valid() && ps != [] && Shaped(ps) && (ps[0].isHead ==> !down) && (ps[0].isTail ==> |ps| == 1)
    ensures var cs := Compile(c, ps);
            && TravelsUp(down, cs) && DrawsWith(down, cs, ps[0].isHead || down)
            && PenDownAfter(down, cs) == if |ps| < 2 then down else (ps[0].isHead || down) && !ps[|ps| - 1].isTail
  {
    if |ps| >= 2 {
      var seg, rest, next := Segment(c, ps[0], ps[1]), ps[1..], ps[0].isHead || down;
      SegmentPen(c, ps[0], ps[1], down);
      CompilePen(c, rest, PenDownAfter(down, seg));
      PenAppend(down, seg, Compile(c, rest));
      JoinPen(down, seg, Compile(c, rest));
      if ps[1].isTail { assert |rest| == 1; }
    }
  }

  /** No point at the head's own time comes before a later one. */
  ghost predicate HeadKept(head: Input, ins: seq<Input>) {
    forall i | 0 <= i < |ins| && ins[i].millis == head.millis :: exists j | 0 <= j < i :: ins[j].millis > head.millis
  }

  /** The head mark survives exactly when no further point overwrites the head. */
  lemma {:induction false} HeadKeptIff(head: Input, ins: seq<Input>)
    ensures Drawn(head, ins)[0].isHead <==> HeadKept(head, ins)
    ensures |Drawn(head, ins)| == 1 <==> forall i | 0 <= i < |ins| :: ins[i].millis <= head.millis
    ensures |Drawn(head, ins)| == 1 ==> Drawn(head, ins)[0].millis == head.millis
  {
    if ins != [] {
      var before, p := ins[..|ins| - 1], ins[|ins| - 1];
      HeadKeptIff(head, before);
      DrawnRising(head, before);
      assert forall i | 0 <= i < |before| :: ins[i] == before[i];
      assert ins[|before|] == p;
      if |Drawn(head, before)| > 1 {
        var j :| 0 <= j < |before| && before[j].millis > head.millis;
        assert ins[j].millis > head.millis;
      }
      assert HeadKept(head, ins) <==> HeadKept(head, before) && (p.millis == head.millis ==> |Drawn(head, before)| > 1);
    }
  }

  /** The tail of a stroke is accepted exactly when it is not earlier than every point before it. */
  lemma TailAccepted(head: Input, ins: seq<Input>, tail: Input)
    ensures var ps := Complete(head, ins, tail);
            && Rising(ps) && Shaped(ps)
            && (ps[|ps| - 1].isTail <==>
                  tail.millis >= head.millis && forall i | 0 <= i < |ins| :: tail.millis >= ins[i].millis)
  {
    DrawnRising(head, ins);
    AddedRising(Drawn(head, ins), tail, true);
  }

  datatype Timed = Timed(head: Input, ins: seq<Input>, tail: Input)
  {
    /** The stroke ends no earlier than any of its points. */
    ghost predicate EndsLast() {
      tail.millis >= head.millis && forall i | 0 <= i < |ins| :: tail.millis >= ins[i].millis
    }

    /** It goes on after its head, which nothing overwrites, but its end comes too early to be accepted. */
    ghost predicate LeavesPenDown() {
      !EndsLast() && HeadKept(head, ins) && exists i | 0 <= i < |ins| :: ins[i].millis > head.millis
    }

    function Points(): (ps: seq<Point>)
      ensures ps != []
    {
      Complete(head, ins, tail)
    }
  }

  /** Approaches of a compiled stroke are made with the pen up, whatever the time stamps; it draws with
      the pen down throughout or, its head overwritten, not at all; and the pen stays down in the end
      exactly when the end comes before some point of a stroke that has gone on after its head. */
  lemma StrokePen(c: Calibration, s: Timed)
    requires c.Valid()
    ensures var cs := Compile(c, s.Points());
            && TravelsUp(false, cs) && DrawsWith(false, cs, HeadKept(s.head, s.ins))
            && (PenDownAfter(false, cs) <==> s.LeavesPenDown())
  {
    var ps, drawn := s.Points(), Drawn(s.head, s.ins);
    TailAccepted(s.head, s.ins, s.tail);
    HeadKeptIff(s.head, s.ins);
    CompilePen(c, ps, false);
    if |ps| > 1 {
      HeadOfComplete(s);
    } else {
      assert Compile(c, ps) == [];
    }
  }

  lemma HeadOfComplete(s: Timed)
    requires |s.Points()| > 1
    ensures s.Points()[0].isHead <==> HeadKept(s.head, s.ins)
    ensures !s.EndsLast() ==> s.Points() == Drawn(s.head, s.ins)
  {
    HeadKeptIff(s.head, s.ins);
    DrawnRising(s.head, s.ins);
  }

  /** A stroke whose end is stamped before its second point leaves the pen down. */
  lemma PenLeftDown(c: Calibration)
    requires c.Valid()
    ensures var s := Timed(Input(0.0, 0.0, 0), [Input(1.0, 1.0, 10)], Input(2.0, 2.0, 5));
            PenDownAfter(false, Compile(c, s.Points()))
  {
    var s := Timed(Input(0.0, 0.0, 0), [Input(1.0, 1.0, 10)], Input(2.0, 2.0, 5));
    assert s.ins[0].millis > s.head.millis;
    StrokePen(c, s);
  }

  /** A stroke whose second point has the time of its head is drawn with the pen up. */
  lemma PenStaysUp(c: Calibration)
    requires c.Valid()
    ensures var s := Timed(Input(0.0, 0.0, 0), [Input(1.0, 1.0, 0), Input(2.0, 2.0, 10)], Input(3.0, 3.0, 20));
            var cs := Compile(c, s.Points());
            !HeadKept(s.head, s.ins) && DrawsWith(false, cs, false) && cs != [] && cs[0].Draw?
  {
    var s := Timed(Input(0.0, 0.0, 0), [Input(1.0, 1.0, 0), Input(2.0, 2.0, 10)], Input(3.0, 3.0, 20));
    assert s.ins[0].millis == s.head.millis;
    StrokePen(c, s);
    TailAccepted(s.head, s.ins, s.tail);
    HeadKeptIff(s.head, s.ins);
    DrawnRising(s.head, s.ins);
    var ps := s.Points();
    assert |Drawn(s.head, s.ins)| > 1;
    assert !ps[0].isHead;
  }

  // ---- whole drawings ------------------------------------------------------------------------------

  function CompileAll(c: Calibration, ss: seq<Timed>): seq<Command>
    requires c.Valid()
  {
    if ss == [] then [] else CompileAll(c, ss[..|ss| - 1]) + Compile(c, ss[|ss| - 1].Points())
  }

  /** The pen is up after each of the strokes. */
  ghost predicate PenUpBetween(c: Calibration, ss: seq<Timed>)
    requires c.Valid()
  {
    forall n | 0 <= n <= |ss| :: !PenDownAfter(false, CompileAll(c, ss[..n]))
  }

  /** Pen safety of a whole drawing: starting with the pen up, it is up between all strokes exactly when
      none of them leaves it down, and then every approach is made with the pen up. */
  lemma {:induction false} DrawingPenSafe(c: Calibration, ss: seq<Timed>)
    requires c.Valid()
    ensures PenUpBetween(c, ss) <==> forall i | 0 <= i < |ss| :: !ss[i].LeavesPenDown()
    ensures PenUpBetween(c, ss) ==> TravelsUp(false, CompileAll(c, ss))
  {
    hide Timed.LeavesPenDown, PenUpBetween, CompileAll, Compile, TravelsUp, PenDownAfter, DrawsWith, Timed.Points;
    if ss == [] {
      NoStrokes(c);
    } else {
      var first, s := ss[..|ss| - 1], ss[|ss| - 1];
      var before := CompileAll(c, first);
      DrawingPenSafe(c, first);
      OneMoreStroke(c, ss);
      StrokePen(c, s);
      PenAppend(false, before, Compile(c, s.Points()));
      if PenUpBetween(c, first) {
        PenUpEnd(c, first);
        JoinPen(false, before, Compile(c, s.Points()));
      }
      assert forall i | 0 <= i < |first| :: ss[i] == first[i];
    }
  }

  lemma NoStrokes(c: Calibration)
    requires c.Valid()
    ensures PenUpBetween(c, []) && TravelsUp(false, CompileAll(c, []))
  {
  }

  lemma PenUpEnd(c: Calibration, ss: seq<Timed>)
    requires c.Valid() && PenUpBetween(c, ss)
    ensures !PenDownAfter(false, CompileAll(c, ss))
  {
    assert ss[..|ss|] == ss;
  }

  lemma OneMoreStroke(c: Calibration, ss: seq<Timed>)
    requires c.Valid() && ss != []
    ensures var first := ss[..|ss| - 1];
            && CompileAll(c, ss) == CompileAll(c, first) + Compile(c, ss[|ss| - 1].Points())
            && (PenUpBetween(c, ss) <==> PenUpBetween(c, first) && !PenDownAfter(false, CompileAll(c, ss)))
  {
    hide Compile, PenDownAfter, Timed.Points;
    var first := ss[..|ss| - 1];
    assert ss[..|ss|] == ss;
    assert forall n | 0 <= n <= |first| :: ss[..n] == first[..n];
  }

  // ---- the code ------------------------------------------------------------------------------------

  class Stroke {
    var points: seq<Point>
    var isCompleted: bool

    ghost predicate Valid()
      reads this
    {
      Rising(points) && Shaped(points) && (points != [] && points[|points| - 1].isTail ==> isCompleted)
    }

    constructor (head: Input)
      ensures points == Begun(head) && !isCompleted && Valid()
    {
      points := [Point(head.penX, head.penY, head.millis, true, false)];
      isCompleted := false;
    }

    /** addPoint */
    method AddPoint(p: Input, isTail: bool)
      requires Valid() && points != [] && !isCompleted
      modifies this
      ensures points == Added(old(points), p, isTail) && isCompleted == isTail && Valid()
    {
      AddedRising(points, p, isTail);
      var n := |points|;
      var lastMillis := points[n - 1].millis;
      if isTail {
        if p.millis - lastMillis == 0 {
          points := points[n - 1 := Point(p.penX, p.penY, p.millis + 1, false, true)];
        } else if p.millis - lastMillis > 0 {
          points := points + [Point(p.penX, p.penY, p.millis, false, true)];
        }
        isCompleted := true;
      } else {
        if p.millis - lastMillis == 0 {
          points := points[n - 1 := Point(p.penX, p.penY, p.millis, false, false)];
        } else if p.millis - lastMillis > 0 {
          points := points + [Point(p.penX, p.penY, p.millis, false, false)];
        }
      }
    }

    /** removeFirst */
    method RemoveFirst()
      requires points != []
      modifies this`points
      ensures points == old(points)[1..]
    {
      points := points[1..];
    }
  }

  class Interpreter {
    const calibration: Calibration
    /** The commands reserved with the serial line, and the points logged. */
    var reserved: seq<Command>
    var table: seq<Point>

    constructor (calibration: Calibration)
      ensures this.calibration == calibration && reserved == [] && table == []
    {
      this.calibration := calibration;
      reserved, table := [], [];
    }

    /** The commands for the move from one point to the next. */
    method Emit(a: Point, b: Point)
      requires calibration.Valid()
      modifies this`reserved
      ensures reserved == old(reserved) + Segment(calibration, a, b)
    {
      var bX, bY := calibration.X(b.penX), calibration.Y(b.penY);
      var f := FEED_RATE_DEFAULT;
      var duration := b.millis - a.millis;
      if duration != 0 { f := 60000.0 / duration as real; }
      if a.isHead {
        reserved := reserved + [Travel(calibration.X(a.penX), calibration.Y(a.penY))];
        reserved := reserved + [PenDown];
      }
      reserved := reserved + [Draw(bX, bY, f)];
      if b.isTail {
        reserved := reserved + [PenUp];
      }
    }

    /** interpret: consumes the stroke, reserving its commands and logging its points. */
    method Interpret(stroke: Stroke)
      requires calibration.Valid()
      modifies this, stroke
      ensures stroke.points == []
      ensures reserved == old(reserved) + Compile(calibration, old(stroke.points))
      ensures table == old(table) + old(stroke.points)
    {
      hide Segment;
      ghost var ps, r, t := stroke.points, reserved, table;
      ghost var k := 0;
      assert ps[0..] == ps && ps[..0] == [];
      while |stroke.points| >= 2
        invariant k <= |ps| && stroke.points == ps[k..]
        invariant reserved + Compile(calibration, ps[k..]) == r + Compile(calibration, ps)
        invariant table == t + ps[..k]
        decreases |ps| - k
      {
        var a, b := stroke.points[0], stroke.points[1];
        ghost var was := reserved;
        Emit(a, b);
        Consume(calibration, was, a, b, ps[k..]);
        table := table + [a];
        stroke.RemoveFirst();
        assert ps[k..][1..] == ps[k + 1..] && ps[..k + 1] == ps[..k] + [ps[k]];
        k := k + 1;
      }
      assert Compile(calibration, ps[k..]) == [] && reserved + [] == reserved;
      while |stroke.points| > 0
        invariant k <= |ps| && stroke.points == ps[k..] && table == t + ps[..k]
        invariant reserved == r + Compile(calibration, ps)
        decreases |ps| - k
      {
        table := table + [stroke.points[0]];
        stroke.RemoveFirst();
        assert ps[k..][1..] == ps[k + 1..] && ps[..k + 1] == ps[..k] + [ps[k]];
        k := k + 1;
      }
      assert ps[..k] == ps;
    }
  }

  lemma Consume(c: Calibration, was: seq<Command>, a: Point, b: Point, rest: seq<Point>)
    requires c.Valid() && |rest| >= 2 && a == rest[0] && b == rest[1]
    ensures was + Segment(c, a, b) + Compile(c, rest[1..]) == was + Compile(c, rest)
  {
    var x, y := Segment(c, a, b), Compile(c, rest[1..]);
    assert was + x + y == was + (x + y);
  }
}
