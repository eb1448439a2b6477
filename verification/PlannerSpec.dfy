/** The look-ahead speed plan as mathematics: what a plan over the queued blocks is, which plan
    the full two-pass recomputation yields, why no plan is faster, and which part of it no later
    block can change.  Module Planner proves the ring-buffer code against these functions. */
module PlannerSpec {

  /** What the optimiser reads of a block: planned squared entry speed, its upper bound, and the
      change of squared speed the block's acceleration allows over its length (2*a*mm). */
  datatype Node = Node(entry: real, max: real, reach: real)

  ghost predicate WellFormed(w: seq<Node>) {
    forall i | 0 <= i < |w| :: w[i].entry >= 0.0 && w[i].max >= 0.0 && w[i].reach >= 0.0
  }

  function Min(a: real, b: real): (r: real)
    ensures r <= a && r <= b && (r == a || r == b)
  {
    if a < b then a else b
  }

  /** Fastest entry into block i from which everything from i on can still brake to a stop. */
  function Rev(w: seq<Node>, i: nat): real
    requires i < |w|
    decreases |w| - i
  {
    if i == |w| - 1 then Min(w[i].max, w[i].reach) else Min(w[i].max, Rev(w, i + 1) + w[i].reach)
  }

  /** The from-scratch plan: the first entry speed is given, every later one is the reverse-pass
      value cut down to what acceleration over the preceding block can reach. */
  function Plan(w: seq<Node>, i: nat): real
    requires i < |w|
  {
    if i == 0 then w[0].entry else Min(Rev(w, i), Plan(w, i - 1) + w[i - 1].reach)
  }

  function WithPlan(w: seq<Node>): (r: seq<Node>)
    ensures |r| == |w|
  {
    seq(|w|, i requires 0 <= i < |w| => w[i].(entry := Plan(w, i)))
  }

  // ---- feasibility and optimality ------------------------------------------------------------

  /** v is a physically possible assignment of squared entry speeds to the blocks of w. */
  ghost predicate Feasible(w: seq<Node>, v: seq<real>) {
    && |v| == |w| > 0
    && v[0] == w[0].entry
    && (forall i | 1 <= i < |w| :: 0.0 <= v[i] <= w[i].max)
    && (forall i | 1 <= i < |w| :: v[i] <= v[i - 1] + w[i - 1].reach)
    && (forall i | 1 <= i < |w| :: v[i - 1] <= v[i] + w[i - 1].reach)
    && v[|w| - 1] <= w[|w| - 1].reach
  }

  /** The block being executed can still brake to what follows it. */
  predicate TailCanBrake(w: seq<Node>)
    requires |w| > 0
  {
    w[0].entry <= w[0].reach + if |w| > 1 then Rev(w, 1) else 0.0
  }

  function Speeds(w: seq<Node>): (v: seq<real>)
    ensures |v| == |w|
  {
    seq(|w|, i requires 0 <= i < |w| => Plan(w, i))
  }

  lemma {:induction false} RevBounds(w: seq<Node>, i: nat)
    requires WellFormed(w) && i < |w|
    ensures 0.0 <= Rev(w, i) <= w[i].max
    decreases |w| - i
  {
    if i < |w| - 1 { RevBounds(w, i + 1); }
  }

  lemma {:induction false} PlanNonNegative(w: seq<Node>, i: nat)
    requires WellFormed(w) && i < |w|
    ensures Plan(w, i) >= 0.0
  {
    if i > 0 { PlanNonNegative(w, i - 1); RevBounds(w, i); }
  }

  lemma {:induction false} FeasibleBelowRev(w: seq<Node>, v: seq<real>, i: nat)
    requires Feasible(w, v) && 1 <= i < |w|
    ensures v[i] <= Rev(w, i)
    decreases |w| - i
  {
    if i < |w| - 1 { FeasibleBelowRev(w, v, i + 1); }
  }

  /** Optimality: no feasible plan is faster than the computed one at any junction. */
  lemma {:induction false} PlanIsGreatest(w: seq<Node>, v: seq<real>, i: nat)
    requires Feasible(w, v) && i < |w|
    ensures v[i] <= Plan(w, i)
  {
    if i > 0 { PlanIsGreatest(w, v, i - 1); FeasibleBelowRev(w, v, i); }
  }

  lemma PlanBrakes(w: seq<Node>, i: nat)
    requires WellFormed(w) && 1 <= i < |w| && TailCanBrake(w)
    ensures Plan(w, i - 1) <= Plan(w, i) + w[i - 1].reach
  {
    if i > 1 { assert Plan(w, i - 1) <= Rev(w, i - 1) <= Rev(w, i) + w[i - 1].reach; }
  }

  lemma PlanFeasibleAt(w: seq<Node>, i: nat)
    requires WellFormed(w) && 1 <= i < |w| && TailCanBrake(w)
    ensures 0.0 <= Plan(w, i) <= w[i].max
    ensures Plan(w, i) <= Plan(w, i - 1) + w[i - 1].reach && Plan(w, i - 1) <= Plan(w, i) + w[i - 1].reach
  {
    RevBounds(w, i); PlanNonNegative(w, i); PlanBrakes(w, i);
  }

  lemma PlanFeasibleIfTailBrakes(w: seq<Node>)
    requires WellFormed(w) && |w| > 0 && TailCanBrake(w)
    ensures Feasible(w, Speeds(w))
  {
    var v := Speeds(w);
    forall i | 1 <= i < |w|
      ensures 0.0 <= v[i] <= w[i].max && v[i] <= v[i - 1] + w[i - 1].reach && v[i - 1] <= v[i] + w[i - 1].reach
    {
      PlanFeasibleAt(w, i);
    }
    assert v[|w| - 1] <= w[|w| - 1].reach by { if |w| > 1 { assert Plan(w, |w| - 1) <= Rev(w, |w| - 1); } }
  }

  lemma TailBrakesIfFeasible(w: seq<Node>, v: seq<real>)
    requires Feasible(w, v)
    ensures TailCanBrake(w)
  {
    if |w| > 1 { FeasibleBelowRev(w, v, 1); assert v[0] <= v[1] + w[0].reach; }
  }

  /** The computed plan is feasible exactly when the block being executed can still brake, which
      in turn is exactly when a feasible plan exists at all. */
  lemma PlanIsFeasible(w: seq<Node>)
    requires WellFormed(w) && |w| > 0
    ensures TailCanBrake(w) <==> Feasible(w, Speeds(w))
    ensures TailCanBrake(w) <==> exists v :: Feasible(w, v)
  {
    if TailCanBrake(w) { PlanFeasibleIfTailBrakes(w); }
    forall v | Feasible(w, v) ensures TailCanBrake(w) { TailBrakesIfFeasible(w, v); }
  }

  // ---- what later blocks cannot change ---------------------------------------------------------

  /** Block p is bracketed: it enters at its maximum, or is reached from the start or from such a
      block under full acceleration only.  These are the planner's stop-compute points. */
  predicate Pinned(w: seq<Node>, p: nat)
    requires p < |w|
  {
    p == 0 || Plan(w, p) == w[p].max || (Pinned(w, p - 1) && Plan(w, p) == Plan(w, p - 1) + w[p - 1].reach)
  }

  lemma FirstIsPinned(w: seq<Node>)
    requires |w| > 0
    ensures Pinned(w, 0) && Plan(w, 0) == w[0].entry
  {
  }

  lemma {:induction false} RevExtend(w: seq<Node>, x: seq<Node>, i: nat)
    requires WellFormed(w + x) && i < |w|
    ensures Rev(w, i) <= Rev(w + x, i)
    decreases |w| - i
  {
    if i < |w| - 1 { RevExtend(w, x, i + 1); } else if |x| > 0 { RevBounds(w + x, i + 1); }
  }

  lemma {:induction false} RevEqualBefore(w: seq<Node>, x: seq<Node>, p: nat, i: nat)
    requires i <= p < |w|
    requires Rev(w + x, p) == Rev(w, p)
    ensures Rev(w + x, i) == Rev(w, i)
    decreases p - i
  {
    if i < p { RevEqualBefore(w, x, p, i + 1); }
  }

  /** Frozen prefix: appending any blocks leaves the plan up to a pinned block as it is. */
  lemma {:induction false} FrozenPrefix(w: seq<Node>, x: seq<Node>, p: nat, i: nat)
    requires WellFormed(w + x) && WellFormed(w) && i <= p < |w| && Pinned(w, p)
    ensures Plan(w + x, i) == Plan(w, i)
    ensures i == p ==> Pinned(w + x, p)
    decreases p, i
  {
    if i == 0 {
    } else if i == p {
      FrozenAt(w, x, p);
    } else if Plan(w, p) == w[p].max {
      FrozenBelowMax(w, x, p, i);
    } else {
      FrozenPrefix(w, x, p - 1, i);
    }
  }

  lemma {:induction false} FrozenBelowMax(w: seq<Node>, x: seq<Node>, p: nat, i: nat)
    requires WellFormed(w + x) && WellFormed(w) && i <= p < |w| && 0 < p && Plan(w, p) == w[p].max
    ensures Plan(w + x, i) == Plan(w, i)
  {
    RevBounds(w, p); RevExtend(w, x, p); RevBounds(w + x, p);
    assert Rev(w + x, p) == Rev(w, p);
    if i > 0 { FrozenBelowMax(w, x, p, i - 1); RevEqualBefore(w, x, p, i); }
  }

  lemma {:induction false} FrozenAt(w: seq<Node>, x: seq<Node>, p: nat)
    requires WellFormed(w + x) && WellFormed(w) && 0 < p < |w| && Pinned(w, p)
    ensures Plan(w + x, p) == Plan(w, p) && Pinned(w + x, p)
    decreases p, 0
  {
    if Plan(w, p) == w[p].max {
      FrozenBelowMax(w, x, p, p);
    } else {
      FrozenPrefix(w, x, p - 1, p - 1);
      RevExtend(w, x, p);
    }
  }

  // ---- queue operations ------------------------------------------------------------------------

  lemma {:induction false} RevSuffix(w: seq<Node>, k: nat, i: nat)
    requires k + i < |w|
    ensures Rev(w[k..], i) == Rev(w, k + i)
    decreases |w| - i
  {
    if k + i < |w| - 1 { RevSuffix(w, k, i + 1); }
  }

  lemma {:induction false} RevIgnoresEntries(w: seq<Node>, u: seq<Node>, i: nat)
    requires |w| == |u| && i < |w|
    requires forall k | i <= k < |w| :: w[k].max == u[k].max && w[k].reach == u[k].reach
    ensures Rev(w, i) == Rev(u, i)
    decreases |w| - i
  {
    if i < |w| - 1 { RevIgnoresEntries(w, u, i + 1); }
  }

  /** u continues w from block k on: same blocks, entered at the speed planned for block k. */
  ghost predicate Continues(w: seq<Node>, k: nat, u: seq<Node>) {
    && k < |w| && |u| == |w| - k
    && (forall i | 0 <= i < |u| :: u[i].max == w[k + i].max && u[i].reach == w[k + i].reach)
    && u[0].entry == Plan(w, k)
  }

  /** Planning the remainder of a planned queue reproduces the plan: used when blocks are consumed
      from the front and when the recomputation starts at the planned pointer. */
  lemma {:induction false} PlanContinues(w: seq<Node>, k: nat, u: seq<Node>, i: nat)
    requires Continues(w, k, u) && i < |u|
    ensures Plan(u, i) == Plan(w, k + i)
  {
    if i > 0 {
      PlanContinues(w, k, u, i - 1);
      RevSuffix(w, k, i);
      RevIgnoresEntries(w[k..], u, i);
    }
  }

  lemma StartsThere(w: seq<Node>, k: nat, u: seq<Node>)
    requires Continues(w, k, u)
    ensures Plan(u, 0) == Plan(w, k)
  {
  }

  lemma {:induction false} PinnedContinues(w: seq<Node>, k: nat, u: seq<Node>, i: nat)
    requires Continues(w, k, u) && i < |u|
    ensures Pinned(u, i) && Pinned(w, k) ==> Pinned(w, k + i)
    ensures Pinned(w, k + i) ==> Pinned(u, i)
  {
    hide Plan;
    PlanContinues(w, k, u, i);
    if i > 0 { PlanContinues(w, k, u, i - 1); PinnedContinues(w, k, u, i - 1); } else { StartsThere(w, k, u); }
  }

  lemma {:induction false} TailCanBrakeContinues(w: seq<Node>, k: nat, u: seq<Node>)
    requires WellFormed(w) && Continues(w, k, u) && TailCanBrake(w)
    ensures TailCanBrake(u)
  {
    if |u| > 1 {
      RevSuffix(w, k, 1); RevIgnoresEntries(w[k..], u, 1);
      PlanBrakes(w, k + 1);
    } else if k > 0 {
      assert Plan(w, k) <= Rev(w, k);
    }
  }

  /** What the segment generator may do to the block it is executing: use up part of its length
      while staying within its acceleration, and stay able to meet the planned exit speed. */
  ghost predicate Progresses(w: seq<Node>, u: seq<Node>) {
    && |u| == |w| > 0 && u[1..] == w[1..] && u[0].max == w[0].max
    && 0.0 <= u[0].reach <= w[0].reach
    && 0.0 <= u[0].entry <= w[0].entry + (w[0].reach - u[0].reach)
    && var exit := if |w| > 1 then Plan(w, 1) else 0.0;
       u[0].entry <= exit + u[0].reach && exit <= u[0].entry + u[0].reach
  }

  lemma {:induction false} ProgressKeepsPlan(w: seq<Node>, u: seq<Node>, i: nat)
    requires Progresses(w, u) && 1 <= i < |w|
    ensures Plan(u, i) == Plan(w, i)
  {
    assert forall k | 1 <= k < |w| :: u[k] == u[1..][k - 1] == w[k];
    RevIgnoresEntries(w, u, i);
    if i > 1 { ProgressKeepsPlan(w, u, i - 1); }
  }

  lemma {:induction false} ProgressKeepsPinned(w: seq<Node>, u: seq<Node>, i: nat)
    requires Progresses(w, u) && i < |w| && Pinned(w, i)
    ensures Pinned(u, i)
  {
    if i > 0 {
      assert u[i] == u[1..][i - 1] == w[i];
      ProgressKeepsPlan(w, u, i);
      if Plan(w, i) != w[i].max {
        ProgressKeepsPinned(w, u, i - 1);
        if i > 1 { ProgressKeepsPlan(w, u, i - 1); assert u[i - 1] == u[1..][i - 2] == w[i - 1]; }
      }
    }
  }

  // ---- the incremental passes --------------------------------------------------------------------

  /** One step of the reverse pass as coded, given the speed out of the block. */
  function ReverseEntry(b: Node, exit: real): real {
    if b.entry == b.max then b.entry else Min(b.max, exit + b.reach)
  }

  /** The reverse pass as coded: a block whose stored entry speed already equals its maximum is
      left alone. */
  function RevSkip(w: seq<Node>, i: nat): real
    requires i < |w|
    decreases |w| - i
  {
    if i == |w| - 1 then Min(w[i].max, w[i].reach)
    else ReverseEntry(w[i], RevSkip(w, i + 1))
  }

  /** One step of the forward pass as coded: block b is left at the speed next, or at what full
      acceleration over b reaches when that is less. */
  function ForwardEntry(b: Node, next: real): real {
    if b.entry < next && b.entry + b.reach < next then b.entry + b.reach else next
  }

  /** The forward pass as coded, over what the reverse pass left. */
  function PlanSkip(w: seq<Node>, i: nat): real
    requires i < |w|
  {
    if i == 0 then w[0].entry
    else ForwardEntry(w[i - 1].(entry := PlanSkip(w, i - 1)), RevSkip(w, i))
  }

  /** Entering block i takes the full acceleration of the block before it. */
  predicate FullAcceleration(w: seq<Node>, i: nat)
    requires 0 < i < |w|
  {
    PlanSkip(w, i) < RevSkip(w, i)
  }

  /** Where the forward pass leaves the planned pointer, having looked at blocks up to i. */
  function Planned(w: seq<Node>, i: nat): (q: nat)
    requires i < |w|
    ensures q <= i
  {
    if i == 0 then 0
    else if FullAcceleration(w, i) || PlanSkip(w, i) == w[i].max then i
    else Planned(w, i - 1)
  }

  /** Every block the reverse pass skips could really be entered at its maximum. */
  ghost predicate SkipsSound(w: seq<Node>) {
    forall i | 1 <= i < |w| - 1 :: w[i].entry == w[i].max ==> w[i].max <= RevSkip(w, i + 1) + w[i].reach
  }

  /** The coded reverse pass finds the from-scratch values. */
  ghost predicate ReverseAgrees(w: seq<Node>) {
    forall i | 1 <= i < |w| :: RevSkip(w, i) == Rev(w, i)
  }

  /** Change of squared speed the blocks from i up to, not including, j allow. */
  function ReachOver(w: seq<Node>, i: nat, j: nat): real
    requires i <= j <= |w|
    decreases j - i
  {
    if i == j then 0.0 else w[i].reach + ReachOver(w, i + 1, j)
  }

  /** A squared speed x into block i can be braked to every later maximum and to a stop at the end. */
  ghost predicate CanBrake(w: seq<Node>, i: nat, x: real)
    requires i < |w|
  {
    && (forall j | i < j < |w| :: x <= w[j].max + ReachOver(w, i, j))
    && x <= ReachOver(w, i, |w|)
  }

  /** Every block stored at its maximum, but the last, can be entered at it. */
  ghost predicate SkipsFit(w: seq<Node>) {
    forall i | 1 <= i < |w| - 1 && w[i].entry == w[i].max :: CanBrake(w, i, w[i].max)
  }

  /** The from-scratch reverse pass is the greatest speed within the maximum that can be braked. */
  lemma {:induction false} RevIsGreatest(w: seq<Node>, i: nat, x: real)
    requires i < |w|
    ensures x <= Rev(w, i) <==> x <= w[i].max && CanBrake(w, i, x)
    decreases |w| - i
  {
    assert ReachOver(w, i, i + 1) == w[i].reach + ReachOver(w, i + 1, i + 1);
    if i < |w| - 1 {
      var y := x - w[i].reach;
      RevIsGreatest(w, i + 1, y);
      assert forall j | i < j <= |w| :: ReachOver(w, i, j) == w[i].reach + ReachOver(w, i + 1, j);
      if CanBrake(w, i, x) {
        assert y <= w[i + 1].max && CanBrake(w, i + 1, y);
      }
      if y <= w[i + 1].max && CanBrake(w, i + 1, y) {
        assert ReachOver(w, i + 1, i + 1) == 0.0;
        assert CanBrake(w, i, x);
      }
    }
  }

  /** The shortcut agrees with the from-scratch reverse pass exactly when every skipped block can be
      entered at its maximum. */
  lemma SkipIffSound(w: seq<Node>)
    requires WellFormed(w)
    ensures ReverseAgrees(w) <==> SkipsFit(w)
    ensures SkipsSound(w) <==> SkipsFit(w)
  {
    hide CanBrake;
    SkipIffMeets(w);
    if ReverseAgrees(w) {
      forall i | 1 <= i < |w| - 1 && w[i].entry == w[i].max ensures CanBrake(w, i, w[i].max) {
        assert RevSkip(w, i) == Rev(w, i);
        RevIsGreatest(w, i, w[i].max);
      }
    }
    if SkipsFit(w) {
      forall i | 1 <= i < |w| ensures RevSkip(w, i) == Rev(w, i) { SkipFitAt(w, i); }
    }
  }

  lemma {:induction false} SkipFitAt(w: seq<Node>, i: nat)
    requires SkipsFit(w) && 1 <= i < |w|
    ensures RevSkip(w, i) == Rev(w, i)
    decreases |w| - i
  {
    hide CanBrake;
    if i < |w| - 1 {
      SkipFitAt(w, i + 1);
      RevIsGreatest(w, i, w[i].max);
    }
  }

  /** The same in terms of what the pass has computed behind a skipped block. */
  lemma SkipIffMeets(w: seq<Node>)
    requires WellFormed(w)
    ensures ReverseAgrees(w) <==> SkipsSound(w)
  {
    if SkipsSound(w) {
      forall i | 1 <= i < |w| ensures RevSkip(w, i) == Rev(w, i) { SkipSoundAt(w, i); }
    }
    if ReverseAgrees(w) {
      forall i | 1 <= i < |w| - 1 && w[i].entry == w[i].max
        ensures w[i].max <= RevSkip(w, i + 1) + w[i].reach
      {
        assert RevSkip(w, i) == Rev(w, i) && RevSkip(w, i + 1) == Rev(w, i + 1);
        assert Rev(w, i) <= Rev(w, i + 1) + w[i].reach;
      }
    }
  }

  lemma {:induction false} SkipSoundAt(w: seq<Node>, i: nat)
    requires SkipsSound(w) && 1 <= i < |w|
    ensures RevSkip(w, i) == Rev(w, i)
    decreases |w| - i
  {
    if i < |w| - 1 { SkipSoundAt(w, i + 1); }
  }

  /** A queue in order, planned for three blocks. */
  const BEFORE_OVERRIDE: seq<Node> := [Node(0.0, 0.0, 100.0), Node(90.0, 90.0, 10.0), Node(90.0, 90.0, 100.0)]

  /** Lowering a maximum of a queue in order by an override can make a skip unsound: the second block
      keeps its maximum although the third can no longer take that speed over. */
  lemma OverrideBreaksSkip()
    ensures QueueOk(BEFORE_OVERRIDE, 2)
    ensures var w := BEFORE_OVERRIDE[2 := Node(90.0, 20.0, 100.0)];
            && WellFormed(w) && TailCanBrake(w) && !SkipsFit(w)
            && PlanSkip(w, 1) == 90.0 && Plan(w, 1) == 30.0
            && !Feasible(w, [PlanSkip(w, 0), PlanSkip(w, 1), PlanSkip(w, 2)])
  {
    var v := BEFORE_OVERRIDE;
    assert Rev(v, 2) == 90.0 && Rev(v, 1) == 90.0;
    assert Plan(v, 0) == 0.0 && Plan(v, 1) == 90.0 && Plan(v, 2) == 90.0;
    assert Pinned(v, 2);
    var w := v[2 := Node(90.0, 20.0, 100.0)];
    assert RevSkip(w, 2) == 20.0 && Rev(w, 2) == 20.0;
    assert RevSkip(w, 1) == 90.0 && Rev(w, 1) == 30.0;
    assert PlanSkip(w, 0) == 0.0 && PlanSkip(w, 1) == 90.0 && PlanSkip(w, 2) == 20.0;
    assert Plan(w, 1) == 30.0;
    SkipIffSound(w);
  }

  /** Entry speeds left by an earlier, slower plan never fool the shortcut. */
  lemma StaleIsSound(w: seq<Node>)
    requires WellFormed(w) && forall i | 1 <= i < |w| - 1 :: w[i].entry <= Rev(w, i)
    ensures SkipsSound(w)
  {
    forall i | 1 <= i < |w| - 1 && w[i].entry == w[i].max
      ensures w[i].max <= RevSkip(w, i + 1) + w[i].reach
    {
      StaleSoundFrom(w, i + 1);
    }
  }

  lemma {:induction false} StaleSoundFrom(w: seq<Node>, i: nat)
    requires WellFormed(w) && forall i | 1 <= i < |w| - 1 :: w[i].entry <= Rev(w, i)
    requires 1 <= i < |w|
    ensures RevSkip(w, i) == Rev(w, i)
    decreases |w| - i
  {
    RevBounds(w, i);
    if i < |w| - 1 { StaleSoundFrom(w, i + 1); }
  }

  /** Incremental equals full: with sound skips the coded passes compute the from-scratch plan. */
  lemma {:induction false} IncrementalIsFull(w: seq<Node>, i: nat)
    requires WellFormed(w) && SkipsSound(w) && i < |w|
    ensures PlanSkip(w, i) == Plan(w, i)
  {
    if i > 0 { IncrementalIsFull(w, i - 1); SkipSoundAt(w, i); }
  }

  /** The full-acceleration case only ever fires right behind the planned pointer, so moving the
      pointer there never jumps over a block that could still change. */
  lemma {:induction false} FullAccelerationAtPlanned(w: seq<Node>, i: nat)
    requires WellFormed(w) && SkipsSound(w) && 0 < i < |w| && FullAcceleration(w, i)
    ensures Planned(w, i - 1) == i - 1
  {
    if i > 1 {
      SkipSoundAt(w, i); SkipSoundAt(w, i - 1);
      assert Rev(w, i - 1) == Min(w[i - 1].max, Rev(w, i) + w[i - 1].reach);
    }
  }

  /** The planned pointer always stops at a block no later append can affect. */
  lemma {:induction false} PlannedIsPinned(w: seq<Node>, i: nat)
    requires WellFormed(w) && SkipsSound(w) && i < |w|
    ensures Pinned(w, Planned(w, i))
  {
    if i > 0 {
      PlannedIsPinned(w, i - 1);
      IncrementalIsFull(w, i); IncrementalIsFull(w, i - 1);
      if FullAcceleration(w, i) { FullAccelerationAtPlanned(w, i); }
    }
  }

  lemma {:induction false} SkipNonNegative(w: seq<Node>, i: nat)
    requires WellFormed(w) && i < |w|
    ensures 0.0 <= RevSkip(w, i) <= w[i].max && PlanSkip(w, i) >= 0.0
    decreases |w| - i, i
  {
    RevSkipBounds(w, i);
    PlanSkipNonNegative(w, i);
  }

  lemma {:induction false} RevSkipBounds(w: seq<Node>, i: nat)
    requires WellFormed(w) && i < |w|
    ensures 0.0 <= RevSkip(w, i) <= w[i].max
    decreases |w| - i
  {
    if i < |w| - 1 { RevSkipBounds(w, i + 1); }
  }

  lemma {:induction false} PlanSkipNonNegative(w: seq<Node>, i: nat)
    requires WellFormed(w) && i < |w|
    ensures PlanSkip(w, i) >= 0.0
  {
    if i > 0 { PlanSkipNonNegative(w, i - 1); RevSkipBounds(w, i); }
  }

  /** The queue after re-planning from block p on. */
  function Replanned(v: seq<Node>, p: nat): (r: seq<Node>)
    requires p <= |v|
    ensures |r| == |v|
  {
    seq(|v|, i requires 0 <= i < |v| => if i <= p then v[i] else v[i].(entry := PlanSkip(v[p..], i - p)))
  }

  lemma ReplannedIsPlan(u: seq<Node>, p: nat)
    requires p < |u|
    requires forall i | 0 <= i < |u| - p :: PlanSkip(u[p..], i) == Plan(u, p + i)
    requires forall i | 0 <= i <= p :: Plan(u, i) == u[i].entry
    ensures Replanned(u, p) == WithPlan(u)
    ensures forall i | 0 <= i <= p :: WithPlan(u)[i] == u[i]
  {
    hide Plan, PlanSkip;
    forall i | p < i < |u| ensures Replanned(u, p)[i] == WithPlan(u)[i] {
      assert PlanSkip(u[p..], i - p) == Plan(u, p + (i - p));
    }
  }

  // ---- the queue invariant and what keeps it -----------------------------------------------------

  /** The stored entry speeds are the from-scratch plan, the executing block can brake, and the
      planned pointer (p blocks in) stands on a pinned block. */
  ghost predicate QueueOk(w: seq<Node>, p: nat) {
    && p < |w| && WellFormed(w) && TailCanBrake(w) && Pinned(w, p)
    && forall i | 1 <= i < |w| :: w[i].entry == Plan(w, i)
  }

  /** Writing the plan into a queue leaves a queue whose plan is what it stores. */
  lemma WithPlanAt(w: seq<Node>, i: nat)
    requires i < |w| && WellFormed(w)
    ensures WithPlan(w)[i].entry == Plan(WithPlan(w), i) >= 0.0
  {
    hide Plan, Rev, Continues, TailCanBrake, WellFormed;
    WithPlanContinues(w);
    PlanNonNegative(w, i);
    PlanContinues(w, 0, WithPlan(w), i);
  }

  lemma WithPlanContinues(w: seq<Node>)
    requires |w| > 0 && WellFormed(w)
    ensures Continues(w, 0, WithPlan(w))
  {
    hide Rev;
  }

  lemma WithPlanOk(w: seq<Node>, p: nat)
    requires p < |w| && WellFormed(w) && TailCanBrake(w) && Pinned(w, p)
    ensures QueueOk(WithPlan(w), p)
  {
    var u := WithPlan(w);
    hide Plan, Rev, Pinned, TailCanBrake;
    WithPlanContinues(w);
    hide Continues;
    forall i | 0 <= i < |w| ensures u[i].entry == Plan(u, i) >= 0.0 {
      WithPlanAt(w, i);
    }
    PinnedContinues(w, 0, u, p);
    TailCanBrakeContinues(w, 0, u);
  }

  lemma QueueOkIsPlan(w: seq<Node>, p: nat)
    requires QueueOk(w, p)
    ensures WithPlan(w) == w
  {
    assert forall i | 0 <= i < |w| :: w[i].entry == Plan(w, i);
  }

  lemma AppendKeepsBrake(v: seq<Node>, b: Node)
    requires |v| > 0 && WellFormed(v) && WellFormed([b]) && TailCanBrake(v)
    ensures WellFormed(v + [b]) && TailCanBrake(v + [b])
  {
    var u := v + [b];
    assert forall i | 0 <= i < |v| :: u[i] == v[i];
    assert u[|v|] == [b][0];
    RevBounds(u, 1);
    if |v| > 1 { RevExtend(v, [b], 1); }
  }

  lemma AppendStale(v: seq<Node>, b: Node, p: nat, i: nat)
    requires QueueOk(v, p) && WellFormed([b]) && 1 <= i < |v| - p
    ensures (v + [b])[p..][i].entry <= Rev((v + [b])[p..], i)
  {
    hide Plan, Rev, Pinned, TailCanBrake;
    AppendKeepsBrake(v, b);
    assert (v + [b])[p..][i] == v[p + i];
    PlanBelowRev(v, p + i); RevExtend(v, [b], p + i); RevSuffix(v + [b], p, i);
  }

  /** The window from the planned pointer on is re-planned exactly as a from-scratch plan would. */
  lemma AppendWindow(v: seq<Node>, b: Node, p: nat)
    requires QueueOk(v, p) && WellFormed([b])
    ensures var w := (v + [b])[p..]; SkipsSound(w) && WellFormed(w) && Continues(v + [b], p, w)
  {
    var u := v + [b]; var w := u[p..];
    AppendKeepsBrake(v, b);
    FrozenPrefix(v, [b], p, p);
    assert w[0] == v[p] && v[p].entry == Plan(v, p);
    hide Plan, Rev, Pinned, TailCanBrake;
    assert forall i | 0 <= i < |w| :: w[i] == u[p + i];
    assert WellFormed(w);
    forall i | 1 <= i < |w| - 1 ensures w[i].entry <= Rev(w, i) { AppendStale(v, b, p, i); }
    StaleIsSound(w);
  }

  lemma PlanBelowRev(w: seq<Node>, i: nat)
    requires 1 <= i < |w|
    ensures Plan(w, i) <= Rev(w, i)
  {
  }

  lemma AppendSpeeds(v: seq<Node>, b: Node, p: nat, i: nat)
    requires QueueOk(v, p) && WellFormed([b]) && i < |v| + 1 - p
    ensures PlanSkip((v + [b])[p..], i) == Plan(v + [b], p + i)
  {
    hide Plan, Rev, Pinned, TailCanBrake, PlanSkip;
    var w := (v + [b])[p..];
    AppendWindow(v, b, p);
    IncrementalIsFull(w, i);
    PlanContinues(v + [b], p, w, i);
  }

  lemma AppendFrozen(v: seq<Node>, b: Node, p: nat, i: nat)
    requires QueueOk(v, p) && WellFormed([b]) && i <= p
    ensures Plan(v + [b], i) == v[i].entry
  {
    FirstIsPinned(v);
    hide Plan, Rev, Pinned;
    AppendKeepsBrake(v, b);
    FrozenPrefix(v, [b], p, i);
  }

  lemma AppendPinned(v: seq<Node>, b: Node, p: nat)
    requires QueueOk(v, p) && WellFormed([b])
    ensures var w := (v + [b])[p..]; QueueOk(WithPlan(v + [b]), p + Planned(w, |w| - 1))
  {
    hide Plan, Rev, Pinned, TailCanBrake, PlanSkip, Planned;
    var w := (v + [b])[p..];
    AppendWindow(v, b, p);
    AppendKeepsBrake(v, b);
    PlannedIsPinned(w, |w| - 1);
    FrozenPrefix(v, [b], p, p);
    PinnedContinues(v + [b], p, w, Planned(w, |w| - 1));
    WithPlanOk(v + [b], p + Planned(w, |w| - 1));
  }

  /** Queueing one block and re-planning from the pointer on gives the from-scratch plan of the
      longer queue, leaves everything up to the pointer alone, and moves the pointer soundly. */
  lemma AppendPlan(v: seq<Node>, b: Node, p: nat)
    requires QueueOk(v, p) && WellFormed([b])
    ensures var u := v + [b]; var w := u[p..];
            && (forall i | 0 <= i < |w| :: PlanSkip(w, i) == Plan(u, p + i))
            && (forall i | 0 <= i <= p :: Plan(u, i) == v[i].entry)
            && QueueOk(WithPlan(u), p + Planned(w, |w| - 1))
  {
    hide Plan, Rev, Pinned, TailCanBrake, PlanSkip, Planned, WellFormed;
    var u := v + [b]; var w := u[p..];
    forall i | 0 <= i <= p ensures Plan(u, i) == v[i].entry { AppendFrozen(v, b, p, i); }
    forall i | 0 <= i < |w| ensures PlanSkip(w, i) == Plan(u, p + i) { AppendSpeeds(v, b, p, i); }
    AppendPinned(v, b, p);
  }

  lemma AppendReplanned(v: seq<Node>, b: Node, p: nat)
    requires QueueOk(v, p) && WellFormed([b])
    ensures p < |v|
    ensures var u := v + [b];
            && Replanned(u, p) == WithPlan(u) && (forall i | 0 <= i <= p :: WithPlan(u)[i] == v[i])
            && QueueOk(WithPlan(u), p + Planned(u[p..], |u| - p - 1))
  {
    hide Plan, Rev, Pinned, TailCanBrake, PlanSkip, Planned, WellFormed;
    AppendPlan(v, b, p);
    ReplannedIsPlan(v + [b], p);
  }

  /** The first block of an empty buffer starts from rest, whatever the pointer was left on. */
  lemma FirstBlockPlan(w: seq<Node>)
    requires WellFormed(w) && |w| > 0 && w[|w| - 1].entry == w[|w| - 1].max == 0.0
    ensures PlanSkip(w, |w| - 1) == 0.0 && Planned(w, |w| - 1) == |w| - 1
  {
    if |w| > 1 { PlanSkipNonNegative(w, |w| - 2); }
  }

  // ---- feed holds --------------------------------------------------------------------------------

  /** What survives a feed hold: speeds may have fallen below the plan, but from every stored entry
      speed the machine can brake to the next one, and to a stop at the end. */
  ghost predicate HeldOk(w: seq<Node>) {
    && |w| > 0 && WellFormed(w)
    && (forall i | 1 <= i < |w| :: w[i].entry <= w[i].max)
    && (forall i | 1 <= i < |w| :: w[i - 1].entry <= w[i].entry + w[i - 1].reach)
    && w[|w| - 1].entry <= w[|w| - 1].reach
  }

  lemma QueueOkIsHeld(w: seq<Node>, p: nat)
    requires QueueOk(w, p)
    ensures HeldOk(w)
  {
    hide Plan, Rev, Pinned, TailCanBrake;
    QueueOkIsBest(w, p, []);
    assert forall i | 0 <= i < |w| :: Entries(w)[i] == w[i].entry;
  }

  lemma {:induction false} HeldBelowRev(w: seq<Node>, i: nat)
    requires HeldOk(w) && 1 <= i < |w|
    ensures w[i].entry <= Rev(w, i)
    decreases |w| - i
  {
    if i < |w| - 1 {
      HeldBelowRev(w, i + 1);
      assert w[i + 1 - 1].entry <= w[i + 1].entry + w[i + 1 - 1].reach;
    }
  }

  lemma HeldCanBrake(w: seq<Node>)
    requires HeldOk(w)
    ensures TailCanBrake(w)
  {
    if |w| > 1 { HeldBelowRev(w, 1); }
  }

  /** Resuming: re-planning from the tail gives the from-scratch plan for the speed the hold left,
      and a queue in order again. */
  lemma ResumePlan(w: seq<Node>)
    requires HeldOk(w)
    ensures Replanned(w, 0) == WithPlan(w)
    ensures QueueOk(WithPlan(w), Planned(w, |w| - 1))
  {
    hide Plan, Rev, Pinned, TailCanBrake, PlanSkip, Planned;
    assert w[0..] == w;
    HeldCanBrake(w);
    forall i | 1 <= i < |w| ensures w[i].entry <= Rev(w, i) { HeldBelowRev(w, i); }
    StaleIsSound(w);
    forall i | 1 <= i < |w| ensures PlanSkip(w, i) == Plan(w, i) { IncrementalIsFull(w, i); }
    PlanStart(w);
    PlannedIsPinned(w, |w| - 1);
    WithPlanOk(w, Planned(w, |w| - 1));
  }

  lemma PlanStart(w: seq<Node>)
    requires |w| > 0
    ensures Plan(w, 0) == w[0].entry
  {
  }

  /** During a hold the executing block only slows down, by at least what its acceleration can do. */
  ghost predicate Slows(w: seq<Node>, u: seq<Node>) {
    && |u| == |w| > 0 && u[1..] == w[1..] && u[0].max == w[0].max
    && 0.0 <= u[0].reach <= w[0].reach
    && (0.0 == u[0].entry || 0.0 <= u[0].entry <= w[0].entry - (w[0].reach - u[0].reach))
  }

  lemma SlowPlan(w: seq<Node>, u: seq<Node>)
    requires HeldOk(w) && Slows(w, u)
    ensures HeldOk(u)
  {
    assert forall k | 1 <= k < |w| :: u[k] == u[1..][k - 1] == w[k];
    if |w| > 1 { assert w[0].entry <= w[1].entry + w[1 - 1].reach; }
  }

  /** Leaving a block behind during a hold. */
  lemma DiscardHeld(w: seq<Node>)
    requires HeldOk(w) && |w| > 1
    ensures HeldOk(w[1..])
  {
    var u := w[1..];
    assert forall k | 0 <= k < |u| :: u[k] == w[1 + k];
    forall i | 1 <= i < |u| ensures u[i - 1].entry <= u[i].entry + u[i - 1].reach {
      assert w[i + 1 - 1].entry <= w[i + 1].entry + w[i + 1 - 1].reach;
    }
  }

  lemma HeldAppendStale(v: seq<Node>, b: Node, p: nat, i: nat)
    requires HeldOk(v) && p < |v| && WellFormed([b]) && 1 <= i < |v| - p
    ensures (v + [b])[p..][i].entry <= Rev((v + [b])[p..], i)
  {
    hide Rev;
    assert WellFormed(v + [b]) by { assert forall k | 0 <= k < |v| :: (v + [b])[k] == v[k]; assert [b][0] == b; }
    assert (v + [b])[p..][i] == v[p + i];
    HeldBelowRev(v, p + i); RevExtend(v, [b], p + i); RevSuffix(v + [b], p, i);
  }

  /** What the re-planning after an append during a hold works on. */
  lemma HeldWindow(v: seq<Node>, b: Node, p: nat)
    requires HeldOk(v) && p < |v| && WellFormed([b])
    ensures var w := (v + [b])[p..]; WellFormed(w) && TailCanBrake(w) && SkipsSound(w)
  {
    var u := v + [b]; var w := u[p..];
    assert WellFormed(w) by { assert forall i | 0 <= i < |w| :: w[i] == u[p + i]; assert [b][0] == b; }
    forall i | 1 <= i < |w| - 1 ensures w[i].entry <= Rev(w, i) { HeldAppendStale(v, b, p, i); }
    StaleIsSound(w);
    RevBounds(w, 1);
    if p < |v| - 1 {
      HeldAppendStale(v, b, p, 1);
      assert v[p + 1 - 1].entry <= v[p + 1].entry + v[p + 1 - 1].reach;
    }
  }

  /** Queueing a block during a hold keeps the queue able to stop, and does not touch it up to the
      planned pointer. */
  lemma AppendHeld(v: seq<Node>, b: Node, p: nat)
    requires HeldOk(v) && p < |v| && WellFormed([b])
    ensures HeldOk(Replanned(v + [b], p))
  {
    hide TailCanBrake, Rev, Plan, PlanSkip, SkipsSound, HeldOk, Speeds, Replanned, Feasible;
    var u := v + [b]; var w := u[p..];
    HeldWindow(v, b, p);
    PlanFeasibleIfTailBrakes(w);
    ReplannedKeeps(u, p);
    forall i | 0 <= i < |w| ensures HeldAt(u, p, i) { HeldSpeeds(v, b, p, i); }
    assert forall i | 0 <= i <= p :: u[i] == v[i];
    HeldJoin(v, u, p);
  }

  ghost predicate HeldAt(u: seq<Node>, p: nat, i: nat)
    requires p < |u| && i < |u| - p
  {
    var x := Replanned(u, p)[p + i];
    x.entry == Speeds(u[p..])[i] && x.max == u[p..][i].max && x.reach == u[p..][i].reach && x.entry >= 0.0
  }

  lemma HeldSpeeds(v: seq<Node>, b: Node, p: nat, i: nat)
    requires HeldOk(v) && p < |v| && WellFormed([b]) && i < |v| + 1 - p
    ensures HeldAt(v + [b], p, i)
  {
    var w := (v + [b])[p..];
    HeldWindow(v, b, p);
    hide TailCanBrake, Rev, Plan, PlanSkip, SkipsSound;
    PlanStart(w); IncrementalIsFull(w, i); PlanNonNegative(w, i);
  }

  lemma HeldJoin(v: seq<Node>, u: seq<Node>, p: nat)
    requires HeldOk(v) && p < |v| && |u| == |v| + 1 && WellFormed(u[p..])
    requires forall i | 0 <= i <= p :: Replanned(u, p)[i] == v[i]
    requires forall i | 0 <= i < |u| - p :: HeldAt(u, p, i)
    requires Feasible(u[p..], Speeds(u[p..]))
    ensures HeldOk(Replanned(u, p))
  {
    hide Speeds, Replanned;
    var w, r := u[p..], Replanned(u, p);
    var s := Speeds(w);
    forall i | 0 <= i < |r| ensures r[i].entry >= 0.0 && r[i].max >= 0.0 && r[i].reach >= 0.0 {
      if i > p { assert HeldAt(u, p, i - p); } else { assert r[i] == v[i]; }
    }
    forall i | 1 <= i < |r| ensures r[i].entry <= r[i].max && r[i - 1].entry <= r[i].entry + r[i - 1].reach {
      if i > p {
        var k := i - p;
        assert HeldAt(u, p, k) && HeldAt(u, p, k - 1);
        assert s[k - 1] <= s[k] + w[k - 1].reach;
      }
    }
    assert HeldAt(u, p, |w| - 1);
  }

  /** Re-planning changes entry speeds only, and none up to the pointer. */
  lemma ReplannedKeeps(u: seq<Node>, p: nat)
    requires p <= |u|
    ensures forall i | 0 <= i <= p && i < |u| :: Replanned(u, p)[i] == u[i]
    ensures forall i | 0 <= i < |u| :: Replanned(u, p)[i].reach == u[i].reach && Replanned(u, p)[i].max == u[i].max
  {
  }

  /** An append, with the queue planned or during a hold. */
  lemma AppendEither(v: seq<Node>, b: Node, p: nat)
    requires HeldOk(v) && p < |v| && WellFormed([b])
    ensures var u := v + [b]; var q := p + Planned(u[p..], |u| - p - 1);
            && HeldOk(Replanned(u, p)) && q < |u|
            && (forall i | 0 <= i <= p :: Replanned(u, p)[i] == v[i])
            && (QueueOk(v, p) ==> Replanned(u, p) == WithPlan(u) && QueueOk(WithPlan(u), q))
  {
    AppendHeld(v, b, p);
    ReplannedKeeps(v + [b], p);
    hide HeldOk, QueueOk, Planned, Replanned;
    if QueueOk(v, p) { AppendReplanned(v, b, p); }
  }

  /** Squared speed on entering block i, counted from the executing one, when braking at full
      acceleration from now on; index |w| stands for the end of the queue. */
  function HoldSpeed(w: seq<Node>, i: nat): real
    requires i <= |w|
  {
    if i == 0 then (if w == [] then 0.0 else w[0].entry)
    else var v := HoldSpeed(w, i - 1) - w[i - 1].reach; if v < 0.0 then 0.0 else v
  }

  /** A feed hold stops in time: from any feasible plan v and any speed within the executing block
      it enters every later block at or below the planned speed, and has stopped by the end. */
  lemma HoldStopsInTime(w: seq<Node>, v: seq<real>)
    requires WellFormed(w) && Feasible(w, v)
    ensures forall i | 0 <= i < |w| :: 0.0 <= HoldSpeed(w, i) <= v[i]
    ensures HoldSpeed(w, |w|) == 0.0
  {
    forall i | 0 <= i < |w| ensures 0.0 <= HoldSpeed(w, i) <= v[i] { HoldBelowPlan(w, v, i); }
  }

  lemma {:induction false} HoldBelowPlan(w: seq<Node>, v: seq<real>, i: nat)
    requires WellFormed(w) && Feasible(w, v) && i < |w|
    ensures 0.0 <= HoldSpeed(w, i) <= v[i]
  {
    if i > 0 {
      HoldBelowPlan(w, v, i - 1);
      assert v[i - 1] <= v[i] + w[i - 1].reach;
    }
  }

  function Entries(w: seq<Node>): (v: seq<real>)
    ensures |v| == |w|
  {
    seq(|w|, i requires 0 <= i < |w| => w[i].entry)
  }

  /** The exit speed planned for the executing block. */
  function ExitOf(w: seq<Node>): real {
    if |w| > 1 then w[1].entry else 0.0
  }

  /** The planned exit can be reached by braking exactly when the block can brake in time at all. */
  lemma ExitInReach(w: seq<Node>)
    requires WellFormed(w) && |w| > 0
    ensures w[0].entry <= ExitOf(WithPlan(w)) + w[0].reach <==> TailCanBrake(w)
    ensures 0.0 <= ExitOf(WithPlan(w)) <= w[0].entry + w[0].reach
  {
    hide Rev;
    if |w| > 1 {
      assert ExitOf(WithPlan(w)) == Plan(w, 1) == Min(Rev(w, 1), w[0].entry + w[0].reach);
      PlanNonNegative(w, 1);
    }
  }

  /** Planned at 510 and 504, to run at 1000 and then at 504. */
  const BEFORE_SLOWDOWN: seq<Node> := [Node(260100.0, 1000000.0, 20000.0), Node(254016.0, 254016.0, 300000.0)]

  /** Halving all speeds by an override can leave the executing block too little length to brake in, even
      where it can still come down to its new nominal speed. */
  lemma OverrideLeavesTooLittle()
    ensures QueueOk(BEFORE_SLOWDOWN, 1)
    ensures var w := [Node(260100.0, 250000.0, 20000.0), Node(254016.0, 63504.0, 300000.0)];
            WellFormed(w) && !TailCanBrake(w) && w[0].entry - w[0].reach < w[0].max
  {
    var v := BEFORE_SLOWDOWN;
    assert Rev(v, 1) == 254016.0;
    assert Plan(v, 0) == 260100.0 && Plan(v, 1) == 254016.0;
    assert Pinned(v, 1);
    var w := [Node(260100.0, 250000.0, 20000.0), Node(254016.0, 63504.0, 300000.0)];
    assert Rev(w, 1) == 63504.0;
  }

  lemma ExitReachable(w: seq<Node>, p: nat)
    requires QueueOk(w, p)
    ensures 0.0 <= ExitOf(w) && w[0].entry <= ExitOf(w) + w[0].reach && ExitOf(w) <= w[0].entry + w[0].reach
    ensures ExitOf(w) == if |w| > 1 then Plan(w, 1) else 0.0
  {
    hide Pinned, Rev, Plan;
    QueueOkIsBest(w, p, []);
    assert forall i | 0 <= i < |w| :: Entries(w)[i] == w[i].entry;
    if |w| > 1 { assert Entries(w)[1 - 1] == w[0].entry; }
  }

  /** Every block has a length and an acceleration. */
  ghost predicate AllLong(w: seq<Node>) {
    forall i | 0 <= i < |w| :: w[i].reach > 0.0
  }

  lemma FeasibleLength(w: seq<Node>, v: seq<real>)
    requires Feasible(w, v)
    ensures |v| == |w|
  {
  }

  /** The speeds stored in a queue in order form a feasible plan, the greatest one. */
  lemma QueueOkIsBest(w: seq<Node>, p: nat, v: seq<real>)
    requires QueueOk(w, p)
    ensures Feasible(w, Entries(w))
    ensures Feasible(w, v) ==> forall i | 0 <= i < |w| :: v[i] <= w[i].entry
  {
    hide Plan, Rev, Pinned, TailCanBrake, Feasible;
    PlanIsFeasible(w);
    PlanStart(w);
    assert Entries(w) == Speeds(w);
    if Feasible(w, v) {
      FeasibleLength(w, v);
      forall i | 0 <= i < |w| ensures v[i] <= w[i].entry { PlanIsGreatest(w, v, i); }
    }
  }

  lemma DiscardSpeeds(w: seq<Node>, p: nat, i: nat)
    requires QueueOk(w, p) && i + 1 < |w|
    ensures WellFormed(w[1..]) && Continues(w, 1, w[1..]) && w[1..][i].entry == Plan(w[1..], i)
  {
    hide Plan, Rev, Pinned, TailCanBrake;
    var u := w[1..];
    assert forall k | 0 <= k < |u| :: u[k] == w[1 + k];
    PlanContinues(w, 1, u, i);
  }

  /** Consuming the first block. */
  lemma DiscardPlan(w: seq<Node>, p: nat)
    requires QueueOk(w, p) && |w| > 1
    ensures QueueOk(w[1..], if p == 0 then 0 else p - 1)
  {
    hide Plan, Rev, Pinned, TailCanBrake;
    var u := w[1..];
    forall i | 0 <= i < |u| ensures u[i].entry == Plan(u, i) { DiscardSpeeds(w, p, i); }
    DiscardSpeeds(w, p, 0);
    TailCanBrakeContinues(w, 1, u);
    if p > 0 { PinnedContinues(w, 1, u, p - 1); }
    FirstIsPinned(u);
  }

  /** Executing part of the first block. */
  lemma ProgressPlan(w: seq<Node>, u: seq<Node>, p: nat)
    requires QueueOk(w, p) && Progresses(w, u)
    ensures QueueOk(u, p)
  {
    assert forall k | 1 <= k < |w| :: u[k] == u[1..][k - 1] == w[k];
    forall i | 1 <= i < |u| ensures u[i].entry == Plan(u, i) { ProgressKeepsPlan(w, u, i); }
    ProgressKeepsPinned(w, u, p);
    if |w| > 1 { RevIgnoresEntries(w, u, 1); assert Plan(w, 1) <= Rev(w, 1); }
  }

  // ---- whole streams of blocks -------------------------------------------------------------------

  datatype Buffer = Buffer(nodes: seq<Node>, planned: nat)

  /** One block queued and the window from the planned pointer re-planned. */
  function Push(q: Buffer, b: Node): Buffer
    requires q.planned <= |q.nodes|
  {
    var u := q.nodes + [b];
    Buffer(Replanned(u, q.planned), q.planned + Planned(u[q.planned..], |u| - 1 - q.planned))
  }

  function PushAll(q: Buffer, bs: seq<Node>): (r: Buffer)
    requires q.planned <= |q.nodes|
    ensures r.planned <= |r.nodes|
    decreases |bs|
  {
    if bs == [] then q else PushAll(Push(q, bs[0]), bs[1..])
  }

  lemma PushIsPlan(q: Buffer, b: Node)
    requires QueueOk(q.nodes, q.planned) && WellFormed([b])
    ensures var r := Push(q, b);
            && r.nodes == WithPlan(q.nodes + [b]) && QueueOk(r.nodes, r.planned) && q.planned <= r.planned
            && forall i | 0 <= i <= q.planned :: r.nodes[i] == q.nodes[i]
  {
    hide Plan, Rev, Pinned, TailCanBrake, PlanSkip, Planned;
    AppendReplanned(q.nodes, b, q.planned);
  }

  lemma WithPlanAgain(w: seq<Node>, x: seq<Node>)
    requires |w| > 0
    ensures WithPlan(WithPlan(w) + x) == WithPlan(w + x)
  {
    var u := WithPlan(w) + x;
    assert Continues(w + x, 0, u);
    hide Plan;
    forall i | 0 <= i < |u| ensures WithPlan(u)[i] == WithPlan(w + x)[i] { PlanContinues(w + x, 0, u, i); }
  }

  /** Over any stream of blocks the incremental passes end with the plan a from-scratch
      computation over the whole buffer gives, and nothing at or before the pointer ever moves. */
  lemma {:induction false} StreamIsPlan(q: Buffer, bs: seq<Node>)
    requires QueueOk(q.nodes, q.planned) && WellFormed(bs)
    ensures var r := PushAll(q, bs);
            && r.nodes == WithPlan(q.nodes + bs) && QueueOk(r.nodes, r.planned) && q.planned <= r.planned
            && forall i | 0 <= i <= q.planned :: r.nodes[i] == q.nodes[i]
    decreases |bs|
  {
    hide Plan, Rev, Pinned, TailCanBrake, PlanSkip, Planned, Push, WithPlan;
    if bs == [] {
      assert q.nodes + bs == q.nodes;
      QueueOkIsPlan(q.nodes, q.planned);
    } else {
      assert WellFormed([bs[0]]) && WellFormed(bs[1..]) by { assert [bs[0]] + bs[1..] == bs; }
      PushIsPlan(q, bs[0]);
      StreamIsPlan(Push(q, bs[0]), bs[1..]);
      WithPlanAgain(q.nodes + [bs[0]], bs[1..]);
      assert q.nodes + [bs[0]] + bs[1..] == q.nodes + bs;
    }
  }

  // ---- whole runs --------------------------------------------------------------------------------

  /** What can happen to the queue; first is the executing block afterwards. */
  datatype Event = Append(b: Node) | Discard | Progress(first: Node) | Hold | Slow(first: Node) | Resume

  /** The queue, with a hold in progress or not. */
  datatype Planning = Planning(q: Buffer, held: bool)

  const NOTHING_QUEUED: Planning := Planning(Buffer([], 0), false)

  /** The first block of an empty queue starts from rest.  The executing block makes progress as planned,
      or slows down in a hold. */
  ghost predicate Happens(s: Planning, e: Event) {
    var w := s.q.nodes;
    match e
    case Append(b) => WellFormed([b]) && (w == [] ==> b.entry == b.max == 0.0)
    case Discard => w != []
    case Progress(x) => !s.held && w != [] && Progresses(w, w[0 := x])
    case Hold => true
    case Slow(x) => s.held && w != [] && Slows(w, w[0 := x])
    case Resume => true
  }

  function Then(s: Planning, e: Event): (t: Planning)
    requires s.q.planned <= |s.q.nodes|
    ensures t.q.planned <= |t.q.nodes|
  {
    var w, p := s.q.nodes, s.q.planned;
    match e
    case Append(b) => s.(q := Push(s.q, b))
    case Discard => if w == [] then s else s.(q := Buffer(w[1..], if p == 0 then 0 else p - 1))
    case Progress(x) => if w == [] then s else s.(q := Buffer(w[0 := x], p))
    case Hold => s.(held := true)
    case Slow(x) => if w == [] then s else s.(q := Buffer(w[0 := x], p))
    case Resume => Planning(if w == [] then s.q else Buffer(Replanned(w, 0), Planned(w, |w| - 1)), false)
  }

  ghost predicate PlanningOk(s: Planning) {
    && s.q.planned <= |s.q.nodes|
    && (s.q.nodes != [] ==> if s.held then HeldOk(s.q.nodes) && s.q.planned < |s.q.nodes|
                            else QueueOk(s.q.nodes, s.q.planned))
  }

  lemma ThenOk(s: Planning, e: Event)
    requires PlanningOk(s) && Happens(s, e)
    ensures PlanningOk(Then(s, e))
  {
    hide Plan, Rev, Pinned, TailCanBrake, PlanSkip, Planned, QueueOk, HeldOk, Replanned, WithPlan, Slows, Progresses;
    var w, p := s.q.nodes, s.q.planned;
    if w == [] {
      if e.Append? { FirstOk(e.b); }
    } else {
      PlannedInside(w, p, s.held);
      if !s.held { QueueOkIsHeld(w, p); }
      match e
      case Append(b) => AppendEither(w, b, p);
      case Discard =>
        if |w| > 1 {
          if s.held { DiscardHeld(w); } else { DiscardPlan(w, p); }
        }
      case Progress(x) => ProgressPlan(w, w[0 := x], p);
      case Hold =>
      case Slow(x) => SlowPlan(w, w[0 := x]);
      case Resume => ResumePlan(w);
    }
  }

  /** A queue as holds leave it can stop in time. */
  lemma HeldStops(w: seq<Node>)
    requires HeldOk(w)
    ensures forall i | 0 <= i < |w| :: 0.0 <= HoldSpeed(w, i) <= w[i].entry
    ensures HoldSpeed(w, |w|) == 0.0
  {
    forall i | 0 <= i < |w| ensures 0.0 <= HoldSpeed(w, i) <= w[i].entry { HeldStopsAt(w, i); }
  }

  lemma {:induction false} HeldStopsAt(w: seq<Node>, i: nat)
    requires HeldOk(w) && i < |w|
    ensures 0.0 <= HoldSpeed(w, i) <= w[i].entry
  {
    if i > 0 {
      HeldStopsAt(w, i - 1);
      assert w[i - 1].entry <= w[i].entry + w[i - 1].reach;
    }
  }

  lemma PlannedInside(w: seq<Node>, p: nat, held: bool)
    requires !held ==> QueueOk(w, p)
    ensures !held ==> p < |w|
  {
  }

  lemma FirstOk(b: Node)
    requires WellFormed([b]) && b.entry == b.max == 0.0
    ensures Push(Buffer([], 0), b) == Buffer([b], 0)
    ensures QueueOk([b], 0) && HeldOk([b])
  {
    assert [] + [b] == [b] && [b][0..] == [b];
    assert Replanned([b], 0) == [b];
    QueueOkIsHeld([b], 0);
  }

  ghost predicate Happen(s: Planning, es: seq<Event>)
    decreases |es|
  {
    s.q.planned <= |s.q.nodes| && (es == [] || (Happens(s, es[0]) && Happen(Then(s, es[0]), es[1..])))
  }

  function Thereafter(s: Planning, es: seq<Event>): (t: Planning)
    requires s.q.planned <= |s.q.nodes|
    ensures t.q.planned <= |t.q.nodes|
    decreases |es|
  {
    if es == [] then s else Thereafter(Then(s, es[0]), es[1..])
  }

  lemma {:induction false} StaysOk(s: Planning, es: seq<Event>)
    requires PlanningOk(s) && Happen(s, es)
    ensures PlanningOk(Thereafter(s, es))
    decreases |es|
  {
    hide PlanningOk, Happens, Then;
    if es != [] {
      ThenOk(s, es[0]);
      StaysOk(Then(s, es[0]), es[1..]);
    }
  }

  /** Incremental equals full, over any run of appends, discards, progress, holds and resumes: whenever no
      hold is in progress the queue stores the plan a from-scratch computation gives, which is the greatest
      feasible one; and in a hold it can stop at any moment. */
  lemma AnyRunIsPlan(es: seq<Event>)
    requires Happen(NOTHING_QUEUED, es)
    ensures var s := Thereafter(NOTHING_QUEUED, es);
            var w := s.q.nodes;
            && (w != [] && !s.held ==>
                  && w == WithPlan(w) && Feasible(w, Entries(w))
                  && forall v, i | Feasible(w, v) && 0 <= i < |w| :: v[i] <= w[i].entry)
            && (w != [] ==> HoldSpeed(w, |w|) == 0.0 && forall i | 0 <= i < |w| :: 0.0 <= HoldSpeed(w, i) <= w[i].entry)
  {
    hide Plan, Rev, Pinned, TailCanBrake, PlanSkip, Planned, Happens, Then, WithPlan, HoldSpeed;
    StaysOk(NOTHING_QUEUED, es);
    var s := Thereafter(NOTHING_QUEUED, es);
    var w, p := s.q.nodes, s.q.planned;
    if w != [] {
      if !s.held {
        QueueOkIsPlan(w, p);
        QueueOkIsHeld(w, p);
        QueueOkIsBest(w, p, []);
        forall v, i | Feasible(w, v) && 0 <= i < |w| ensures v[i] <= w[i].entry {
          FeasibleLength(w, v);
          QueueOkIsBest(w, p, v);
        }
      }
      HeldStops(w);
    }
  }
}
