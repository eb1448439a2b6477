/** The work coordinate system of the g-code parser as a cache of EEPROM records: those parts of
    gc_execute_line and gc_init (gcode.c) and of settings.c that read or write coordinate data. */
module GCode {
  import opened Eeprom

  const N_AXIS: nat := 3

  /** A coordinate vector as it is stored: four bytes for each axis. */
  predicate IsVector(v: seq<byte>) {
    |v| == COORD_SIZE
  }

  const ZERO: seq<byte> := [0, 0, 0, 0, 0, 0, 0, 0, 0, 0, 0, 0]

  function At(c: seq<byte>, index: nat): (v: seq<byte>)
    requires |c| == SIZE && index <= SETTING_INDEX_G30
    ensures IsVector(v)
  {
    Data(c, Coord(index).Address(), COORD_SIZE)
  }

  predicate Good(c: seq<byte>, index: nat)
    requires |c| == SIZE && index <= SETTING_INDEX_G30
  {
    Verifies(c, Coord(index).Address(), COORD_SIZE)
  }

  function Store(c: seq<byte>, index: nat, v: seq<byte>): (w: seq<byte>)
    requires |c| == SIZE && index <= SETTING_INDEX_G30 && IsVector(v)
    ensures |w| == SIZE
  {
    Written(c, Coord(index).Address(), v)
  }

  /** settings_read_coord_data also resets a record that does not verify. */
  function Repaired(c: seq<byte>, index: nat): (w: seq<byte>)
    requires |c| == SIZE && index <= SETTING_INDEX_G30
    ensures |w| == SIZE
  {
    if Good(c, index) then c else Store(c, index, ZERO)
  }

  lemma StoreAt(c: seq<byte>, index: nat, v: seq<byte>, other: nat)
    requires |c| == SIZE && index <= SETTING_INDEX_G30 && other <= SETTING_INDEX_G30 && IsVector(v)
    ensures Good(Store(c, index, v), index) && At(Store(c, index, v), index) == v
    ensures other != index ==> At(Store(c, index, v), other) == At(c, other)
                               && Good(Store(c, index, v), other) == Good(c, other)
  {
    if other != index {
      StoreOne(c, Coord(index), v, Coord(other));
    } else {
      StoreOne(c, Coord(index), v, BuildInfo);
    }
  }

  // ---- a block -----------------------------------------------------------------------------------

  datatype NonModal =
    | NoAction
    | SetData(p: nat, l: nat, words: bool, r: bool)
    | GoHome(second: bool)
    | SetHome(second: bool)
    | OtherAction

  /** What a line asks for.  select: a G54 to G59.  axes and values: the axis words and the coordinate
      values computed from them.  early and late: an error found before or after the coordinate data
      have been looked at.  position: the parser position, for G28.1 and G30.1.  end: M2 or M30. */
  datatype Block = Block(
    select: nat, selects: bool, action: NonModal, axes: seq<bool>, values: seq<seq<byte>>, early: bool, late: bool,
    position: seq<byte>, end: bool)
  {
    predicate Valid() {
      && |axes| == N_AXIS && |values| == N_AXIS && IsVector(position) && select < N_COORDINATE_SYSTEM
      && forall i | 0 <= i < N_AXIS :: |values[i]| == 4
    }
  }

  datatype Status = OK | REJECTED | UNSUPPORTED_COORD_SYS | SETTING_READ_FAIL

  /** c: the memory; selected and cached: gc_state.modal.coord_select and gc_state.coord_system. */
  datatype State = State(c: seq<byte>, selected: nat, cached: seq<byte>, checkMode: bool)

  predicate StateOk(s: State) {
    |s.c| == SIZE && s.selected < N_COORDINATE_SYSTEM && IsVector(s.cached)
  }

  /** Coordinate data with the values of the axes named in the block. */
  function Merged(v: seq<byte>, axes: seq<bool>, values: seq<seq<byte>>, n: nat): (w: seq<byte>)
    requires IsVector(v) && n <= |axes| == |values| == N_AXIS && forall i | 0 <= i < N_AXIS :: |values[i]| == 4
    ensures |w| == 4 * n
  {
    if n == 0 then []
    else Merged(v, axes, values, n - 1) + if axes[n - 1] then values[n - 1] else v[4 * (n - 1)..4 * n]
  }

  predicate NoAxes(axes: seq<bool>) {
    forall i | 0 <= i < |axes| :: !axes[i]
  }

  /** Errors of G10 found before the record is read. */
  function DataError(b: Block): (e: Status)
    requires b.action.SetData?
  {
    var a := b.action;
    if NoAxes(b.axes) || !a.words then REJECTED
    else if a.p > N_COORDINATE_SYSTEM then UNSUPPORTED_COORD_SYS
    else if a.l != 20 && (a.l != 2 || a.r) then REJECTED
    else OK
  }

  function HomeIndex(second: bool): (i: nat)
    ensures i <= SETTING_INDEX_G30
  {
    if second then SETTING_INDEX_G30 else SETTING_INDEX_G28
  }

  /** The system a block makes active. */
  function Selection(s: State, b: Block): nat {
    if b.selects then b.select else s.selected
  }

  /** The record a G10 changes: P1 to P6 name systems from 1, P0 the active one. */
  function Target(s: State, b: Block): nat
    requires b.action.SetData?
  {
    if b.action.p > 0 then b.action.p - 1 else Selection(s, b)
  }

  // ---- what a line does ----------------------------------------------------------------------------

  /** Outcome of the error-checking part: the memory, where damaged records read have been reset, the
      coordinate system of the block, and the data of a G10, G28 or G30. */
  datatype Look = Look(c: seq<byte>, coord: seq<byte>, data: seq<byte>, status: Status)

  predicate LookOk(k: Look) {
    |k.c| == SIZE && IsVector(k.coord) && IsVector(k.data)
  }

  function Finally(b: Block, k: Look): Look {
    if k.status == OK && b.late then k.(status := REJECTED) else k
  }

  function LookAction(s: State, b: Block, coord: seq<byte>): (k: Look)
    requires StateOk(s) && b.Valid() && IsVector(coord) && Selection(s, b) < N_COORDINATE_SYSTEM
    ensures LookOk(k)
  {
    var k := Look(s.c, coord, ZERO, OK);
    match b.action
    case SetData(p, l, words, r) =>
      if DataError(b) != OK then k.(status := DataError(b))
      else
        var t := Target(s, b);
        if !Good(s.c, t) then k.(c := Repaired(s.c, t), status := SETTING_READ_FAIL)
        else Finally(b, k.(data := Merged(At(s.c, t), b.axes, b.values, N_AXIS)))
    case GoHome(second) =>
      var t := HomeIndex(second);
      if !Good(s.c, t) then k.(c := Repaired(s.c, t), status := SETTING_READ_FAIL)
      else Finally(b, k.(data := At(s.c, t)))
    case _ => Finally(b, k)
  }

  function LookUp(s: State, b: Block): (k: Look)
    requires StateOk(s) && b.Valid()
    ensures LookOk(k) && (k.status == OK ==> Selection(s, b) < N_COORDINATE_SYSTEM)
  {
    var k := Look(s.c, s.cached, ZERO, OK);
    if b.early then k.(status := REJECTED)
    else if b.selects && b.select > N_COORDINATE_SYSTEM then k.(status := UNSUPPORTED_COORD_SYS)
    else if b.selects && b.select != s.selected then
      if !Good(s.c, b.select) then k.(c := Repaired(s.c, b.select), status := SETTING_READ_FAIL)
      else LookAction(s, b, At(s.c, b.select))
    else LookAction(s, b, s.cached)
  }

  /** Coordinate system selection and the non-modal action. */
  function Apply(s: State, b: Block, k: Look): (t: State)
    requires StateOk(s) && b.Valid() && LookOk(k) && Selection(s, b) < N_COORDINATE_SYSTEM
    requires b.action.SetData? ==> Target(s, b) < N_COORDINATE_SYSTEM
    ensures StateOk(t)
  {
    var t := s.(c := k.c, selected := Selection(s, b),
                cached := if Selection(s, b) != s.selected then k.coord else s.cached);
    match b.action
    case SetData(p, l, words, r) =>
      t.(c := Store(t.c, Target(s, b), k.data), cached := if t.selected == Target(s, b) then k.data else t.cached)
    case SetHome(second) => t.(c := Store(t.c, HomeIndex(second), b.position))
    case _ => t
  }

  /** M2 and M30 return to G54; in check mode without reading its record. */
  function End(s: State, b: Block): (r: (State, Status))
    requires StateOk(s)
    ensures StateOk(r.0)
  {
    if !b.end then (s, OK)
    else if s.checkMode then (s.(selected := 0), OK)
    else if Good(s.c, 0) then (s.(selected := 0, cached := At(s.c, 0)), OK)
    else (s.(selected := 0, c := Repaired(s.c, 0), cached := ZERO), SETTING_READ_FAIL)
  }

  /** gc_execute_line */
  function Run(s: State, b: Block): (r: (State, Status))
    requires StateOk(s) && b.Valid()
    ensures StateOk(r.0)
  {
    var k := LookUp(s, b);
    if k.status != OK then (s.(c := k.c), k.status) else End(Applied(s, b), b)
  }

  lemma TargetInRange(s: State, b: Block)
    requires StateOk(s) && b.Valid() && LookUp(s, b).status == OK && b.action.SetData?
    ensures Target(s, b) < N_COORDINATE_SYSTEM
  {
  }

  /** The state an accepted line leads to, before any end of program. */
  function Applied(s: State, b: Block): (t: State)
    requires StateOk(s) && b.Valid() && LookUp(s, b).status == OK
    ensures StateOk(t)
  {
    if b.action.SetData? then TargetInRange(s, b); Apply(s, b, LookUp(s, b)) else Apply(s, b, LookUp(s, b))
  }

  // ---- the cache agrees with the store -----------------------------------------------------------------

  predicate AllGood(c: seq<byte>)
    requires |c| == SIZE
  {
    forall i | 0 <= i <= SETTING_INDEX_G30 :: Good(c, i)
  }

  /** The cached work offset is what a verified read of the selected record returns. */
  predicate Agrees(s: State)
    requires StateOk(s)
  {
    Good(s.c, s.selected) && s.cached == At(s.c, s.selected)
  }

  /** A rejected line changes nothing as long as no record is damaged. */
  lemma RejectedChangesNothing(s: State, b: Block)
    requires StateOk(s) && b.Valid() && AllGood(s.c) && LookUp(s, b).status != OK
    ensures Run(s, b).0 == s
  {
  }

  lemma StoreKeeps(c: seq<byte>, index: nat, v: seq<byte>)
    requires |c| == SIZE && index <= SETTING_INDEX_G30 && IsVector(v) && AllGood(c)
    ensures AllGood(Store(c, index, v)) && At(Store(c, index, v), index) == v
    ensures forall i | 0 <= i <= SETTING_INDEX_G30 && i != index :: At(Store(c, index, v), i) == At(c, i)
  {
    hide Good, At, Store;
    StoreAt(c, index, v, index);
    forall i | 0 <= i <= SETTING_INDEX_G30 && i != index
      ensures Good(Store(c, index, v), i) && At(Store(c, index, v), i) == At(c, i)
    {
      StoreAt(c, index, v, i);
    }
  }

  lemma AppliedAgrees(s: State, b: Block)
    requires StateOk(s) && b.Valid() && AllGood(s.c) && Agrees(s) && LookUp(s, b).status == OK
    ensures AllGood(Applied(s, b).c) && Agrees(Applied(s, b))
  {
    hide Good, At, Store, Merged, NoAxes;
    var k := LookUp(s, b);
    if b.action.SetData? {
      TargetInRange(s, b);
      StoreKeeps(s.c, Target(s, b), k.data);
    } else if b.action.SetHome? {
      StoreKeeps(s.c, HomeIndex(b.action.second), b.position);
    }
  }

  /** What an accepted line leaves in the record of system i. */
  function RecordAfter(s: State, b: Block, i: nat): seq<byte>
    requires StateOk(s) && b.Valid() && i < N_COORDINATE_SYSTEM
  {
    if b.action.SetData? && Target(s, b) == i then Merged(At(s.c, i), b.axes, b.values, N_AXIS) else At(s.c, i)
  }

  lemma AppliedRecord(s: State, b: Block, i: nat)
    requires StateOk(s) && b.Valid() && AllGood(s.c) && LookUp(s, b).status == OK && i < N_COORDINATE_SYSTEM
    ensures At(Applied(s, b).c, i) == RecordAfter(s, b, i)
    ensures Applied(s, b).selected == Selection(s, b)
  {
    hide Good, At, Store, Merged, NoAxes;
    var k := LookUp(s, b);
    if b.action.SetData? {
      TargetInRange(s, b);
      StoreKeeps(s.c, Target(s, b), k.data);
    } else if b.action.SetHome? {
      StoreKeeps(s.c, HomeIndex(b.action.second), b.position);
    }
  }

  /** With no record damaged, after every line, accepted or rejected, the cache agrees with the store,
      except exactly when a program end was skipped over in check mode while the record of the active
      system, as the line leaves it, differs from that of G54. */
  lemma CacheAgrees(s: State, b: Block)
    requires StateOk(s) && b.Valid() && AllGood(s.c) && Agrees(s)
    ensures AllGood(Run(s, b).0.c)
    ensures !Agrees(Run(s, b).0) <==>
              && LookUp(s, b).status == OK && b.end && s.checkMode
              && RecordAfter(s, b, Selection(s, b)) != RecordAfter(s, b, 0)
  {
    hide Good, At, Store, Merged, NoAxes, RecordAfter, Applied, LookUp;
    if LookUp(s, b).status != OK {
      RejectedChangesNothing(s, b);
    } else {
      AppliedAgrees(s, b);
      SameCheckMode(s, b);
      AppliedRecord(s, b, 0);
      AppliedRecord(s, b, Selection(s, b));
    }
  }

  lemma SameCheckMode(s: State, b: Block)
    requires StateOk(s) && b.Valid() && LookUp(s, b).status == OK
    ensures Applied(s, b).checkMode == s.checkMode
  {
    hide Good, At, Store, Merged, LookUp;
  }

  // ---- what a line stores --------------------------------------------------------------------------

  /** The four bytes of an axis in a coordinate vector. */
  function Axis(v: seq<byte>, i: nat): seq<byte>
    requires IsVector(v) && i < N_AXIS
  {
    v[4 * i..4 * i + 4]
  }

  lemma {:induction false} MergedAxes(v: seq<byte>, axes: seq<bool>, values: seq<seq<byte>>, n: nat, i: nat)
    requires IsVector(v) && i < n <= |axes| == |values| == N_AXIS && forall j | 0 <= j < N_AXIS :: |values[j]| == 4
    ensures Merged(v, axes, values, n)[4 * i..4 * i + 4] == if axes[i] then values[i] else Axis(v, i)
  {
    if i < n - 1 { MergedAxes(v, axes, values, n - 1, i); }
  }

  /** Which lines pass the checks. */
  lemma CheckedIff(s: State, b: Block)
    requires StateOk(s) && b.Valid()
    ensures LookUp(s, b).status == OK <==>
              && !b.early && !b.late
              && (b.selects && b.select != s.selected ==> Good(s.c, b.select))
              && (b.action.SetData? ==>
                    var a := b.action;
                    var t := if a.p > 0 then a.p - 1 else if b.selects then b.select else s.selected;
                    && (exists i :: 0 <= i < N_AXIS && b.axes[i]) && a.words
                    && (a.l == 20 || (a.l == 2 && !a.r)) && t < N_COORDINATE_SYSTEM && Good(s.c, t))
              && (b.action.GoHome? ==> Good(s.c, if b.action.second then SETTING_INDEX_G30 else SETTING_INDEX_G28))
  {
    hide Good, At, Store, Merged;
  }

  /** Why a line that is not accepted fails, and what it has changed by then: a record that cannot be read, and
      nothing else, is reset to zero. */
  lemma WhyRejected(s: State, b: Block)
    requires StateOk(s) && b.Valid() && LookUp(s, b).status != OK
    ensures var k, a := LookUp(s, b), b.action;
            var unread := b.selects && b.select != s.selected && !Good(s.c, b.select);
            var data := a.SetData? && a.words && exists i :: 0 <= i < N_AXIS && b.axes[i];
            var record :=
              if unread then b.select
              else if a.GoHome? then if a.second then SETTING_INDEX_G30 else SETTING_INDEX_G28
              else if a.SetData? && 0 < a.p <= N_COORDINATE_SYSTEM then a.p - 1
              else if b.selects then b.select else s.selected;
            && (k.status == UNSUPPORTED_COORD_SYS <==> !b.early && !unread && data && a.p > N_COORDINATE_SYSTEM)
            && (k.status == SETTING_READ_FAIL <==>
                  && !b.early && !Good(s.c, record)
                  && (unread || a.GoHome? || (data && a.p <= N_COORDINATE_SYSTEM && (a.l == 20 || (a.l == 2 && !a.r)))))
            && (k.status != SETTING_READ_FAIL ==> k.c == s.c)
            && (k.status == SETTING_READ_FAIL ==>
                  && Good(k.c, record) && At(k.c, record) == ZERO
                  && forall j | 0 <= j <= SETTING_INDEX_G30 && j != record ::
                       At(k.c, j) == At(s.c, j) && Good(k.c, j) == Good(s.c, j))
  {
    hide Good, At, Store, Merged;
    if LookUp(s, b).status == SETTING_READ_FAIL {
      forall i, j | 0 <= i <= SETTING_INDEX_G30 && 0 <= j <= SETTING_INDEX_G30
        ensures Good(Store(s.c, i, ZERO), i) && At(Store(s.c, i, ZERO), i) == ZERO
        ensures i != j ==> At(Store(s.c, i, ZERO), j) == At(s.c, j) && Good(Store(s.c, i, ZERO), j) == Good(s.c, j)
      {
        StoreAt(s.c, i, ZERO, j);
      }
    }
  }

  /** An accepted G10 gives each axis of its record the value of the line where the line names the axis,
      and leaves the others as they were stored; P1 to P6 name the systems, P0 the active one.  No other
      record changes, and the cache takes over the record if it is the active one. */
  lemma DataByAxis(s: State, b: Block)
    requires StateOk(s) && b.Valid() && LookUp(s, b).status == OK && b.action.SetData?
    ensures var active := if b.selects then b.select else s.selected;
            var t := if b.action.p > 0 then b.action.p - 1 else active;
            var u := Applied(s, b);
            && t < N_COORDINATE_SYSTEM && Good(u.c, t) && u.selected == active
            && (forall i | 0 <= i < N_AXIS ::
                  Axis(At(u.c, t), i) == if b.axes[i] then b.values[i] else Axis(At(s.c, t), i))
            && (forall j | 0 <= j <= SETTING_INDEX_G30 && j != t ::
                  At(u.c, j) == At(s.c, j) && Good(u.c, j) == Good(s.c, j))
            && u.cached == (if t == active then At(u.c, t)
                            else if active != s.selected then At(s.c, active) else s.cached)
  {
    hide Good, At, Store, Merged, NoAxes, LookUp;
    TargetInRange(s, b);
    DataOf(s, b);
    var t := Target(s, b);
    var v := Merged(At(s.c, t), b.axes, b.values, N_AXIS);
    StoreAt(s.c, t, v, t);
    forall j | 0 <= j <= SETTING_INDEX_G30 && j != t
      ensures At(Applied(s, b).c, j) == At(s.c, j) && Good(Applied(s, b).c, j) == Good(s.c, j)
    {
      StoreAt(s.c, t, v, j);
    }
    forall i | 0 <= i < N_AXIS ensures Axis(v, i) == if b.axes[i] then b.values[i] else Axis(At(s.c, t), i) {
      MergedAxes(At(s.c, t), b.axes, b.values, N_AXIS, i);
    }
  }

  lemma DataOf(s: State, b: Block)
    requires StateOk(s) && b.Valid() && LookUp(s, b).status == OK && b.action.SetData?
             && Target(s, b) < N_COORDINATE_SYSTEM
    ensures var k := LookUp(s, b);
            && k.c == s.c && k.data == Merged(At(s.c, Target(s, b)), b.axes, b.values, N_AXIS)
            && (b.selects && b.select != s.selected ==> k.coord == At(s.c, b.select))
  {
    hide Good, At, Store, Merged, NoAxes;
  }

  /** G28.1 and G30.1 store the position in the record of their own, G28 and G30 read it; nothing else
      stores anything, and the cache is that of the system selected. */
  lemma OtherActions(s: State, b: Block)
    requires StateOk(s) && b.Valid() && LookUp(s, b).status == OK && !b.action.SetData?
    ensures var active := if b.selects then b.select else s.selected;
            var u := Applied(s, b);
            && u.selected == active && u.cached == (if active != s.selected then At(s.c, active) else s.cached)
            && (b.action.GoHome? ==>
                  LookUp(s, b).data == At(s.c, if b.action.second then SETTING_INDEX_G30 else SETTING_INDEX_G28))
            && (forall j | 0 <= j <= SETTING_INDEX_G30 ::
                  if b.action.SetHome? && j == (if b.action.second then SETTING_INDEX_G30 else SETTING_INDEX_G28)
                  then Good(u.c, j) && At(u.c, j) == b.position
                  else Good(u.c, j) == Good(s.c, j) && At(u.c, j) == At(s.c, j))
  {
    hide Good, At, Store, Merged, NoAxes;
    if b.action.SetHome? {
      forall j | 0 <= j <= SETTING_INDEX_G30
        ensures At(Applied(s, b).c, j) == if j == HomeIndex(b.action.second) then b.position else At(s.c, j)
        ensures Good(Applied(s, b).c, j) == (j == HomeIndex(b.action.second) || Good(s.c, j))
      {
        StoreAt(s.c, HomeIndex(b.action.second), b.position, j);
      }
    }
  }

  predicate AllValid(bs: seq<Block>) {
    forall i | 0 <= i < |bs| :: bs[i].Valid()
  }

  function RunAll(s: State, bs: seq<Block>): (t: State)
    requires StateOk(s) && AllValid(bs)
    ensures StateOk(t)
    decreases |bs|
  {
    if bs == [] then s else RunAll(Run(s, bs[0]).0, bs[1..])
  }

  /** Outside check mode the cache agrees after any program, whichever lines it has rejected. */
  lemma {:induction false} ProgramAgrees(s: State, bs: seq<Block>)
    requires StateOk(s) && AllValid(bs) && AllGood(s.c) && Agrees(s) && !s.checkMode
    ensures Agrees(RunAll(s, bs)) && AllGood(RunAll(s, bs).c)
    decreases |bs|
  {
    hide Agrees, AllGood, Run, LookUp, Applied;
    if bs != [] {
      CacheAgrees(s, bs[0]);
      StaysOut(s, bs[0]);
      ProgramAgrees(Run(s, bs[0]).0, bs[1..]);
    }
  }

  lemma StaysOut(s: State, b: Block)
    requires StateOk(s) && b.Valid()
    ensures Run(s, b).0.checkMode == s.checkMode
  {
    hide Good, At, Store, Merged, LookUp;
  }

  /** When the active record has been damaged since it was read, a G10 aimed at it resets the record
      and is rejected, and the cache is left behind unless it was zero. */
  lemma DamagedRecord(s: State, b: Block)
    requires StateOk(s) && b.Valid() && !b.early && b.action.SetData? && DataError(b) == OK
    requires Selection(s, b) == Target(s, b) == s.selected && !Good(s.c, s.selected)
    ensures Run(s, b).1 == SETTING_READ_FAIL && At(Run(s, b).0.c, s.selected) == ZERO
    ensures Agrees(Run(s, b).0) <==> s.cached == ZERO
  {
    StoreAt(s.c, s.selected, ZERO, s.selected);
    hide Good, At, Store, Merged;
  }

  // ---- it happens ------------------------------------------------------------------------------------

  const BLANK: seq<byte> := seq(SIZE, _ => 0)

  /** G10 L2 P0 X0, and M2. */
  const SET_X: Block := Block(0, false, SetData(0, 2, true, false), [true, false, false],
                              [[0, 0, 0, 0], [0, 0, 0, 0], [0, 0, 0, 0]], false, false, ZERO, false)
  const PROGRAM_END: Block := Block(0, false, NoAction, [false, false, false],
                                    [[0, 0, 0, 0], [0, 0, 0, 0], [0, 0, 0, 0]], false, false, ZERO, true)

  lemma {:induction false} ZeroSum(s: seq<byte>)
    requires forall i | 0 <= i < |s| :: s[i] == 0
    ensures Checksum(s) == 0
  {
    if s != [] {
      hide Checksum, Fold;
      ZeroSum(s[..|s| - 1]);
      LastOne(s);
      FoldIsZero(0, 0);
    } else {
      ZeroChecksum(s);
    }
  }

  lemma BlankIsGood()
    ensures AllGood(BLANK) && forall i | 0 <= i <= SETTING_INDEX_G30 :: At(BLANK, i) == ZERO
  {
    hide Checksum;
    forall i | 0 <= i <= SETTING_INDEX_G30 ensures Good(BLANK, i) && At(BLANK, i) == ZERO {
      assert At(BLANK, i) == ZERO;
      ZeroSum(ZERO);
    }
  }

  /** With G55 active at X10, ending a program in check mode leaves its offset behind for G54. */
  lemma EndInCheckMode()
    ensures var s := State(Store(BLANK, 1, TEN_MM), 1, TEN_MM, true);
            AllGood(s.c) && Agrees(s) && !Agrees(Run(s, PROGRAM_END).0)
  {
    hide Good, At, Store, Merged, NoAxes;
    BlankIsGood();
    StoreKeeps(BLANK, 1, TEN_MM);
    CacheAgrees(State(Store(BLANK, 1, TEN_MM), 1, TEN_MM, true), PROGRAM_END);
  }

  /** With the last byte of the active record damaged, a G10 is rejected and leaves the cache behind. */
  lemma DataAfterDamage()
    ensures var c := Store(BLANK, 0, TEN_MM)[Coord(0).Address() + COORD_SIZE - 1 := 1];
            var s := State(c, 0, TEN_MM, false);
            !Good(c, 0) && Run(s, SET_X).1 == SETTING_READ_FAIL && !Agrees(Run(s, SET_X).0)
  {
    var a, w := Coord(0).Address(), Store(BLANK, 0, TEN_MM);
    var c := w[a + COORD_SIZE - 1 := 1];
    assert !Good(c, 0) by {
      hide Checksum;
      RoundTrip(BLANK, a, TEN_MM);
      WhatIsNoticed(TEN_MM, COORD_SIZE - 1, 1);
      assert c[a..a + COORD_SIZE] == w[a..a + COORD_SIZE][COORD_SIZE - 1 := 1];
    }
    hide Good, At, Store, Merged;
    assert SET_X.axes[0];
    DamagedRecord(State(c, 0, TEN_MM, false), SET_X);
  }

  // ---- the code ------------------------------------------------------------------------------------

  class Parser {
    const memory: Memory
    var coordSelect: nat
    var coordSystem: seq<byte>
    var checkMode: bool

    ghost predicate Valid()
      reads this
    {
      memory.cells.Length == SIZE && coordSelect < N_COORDINATE_SYSTEM && IsVector(coordSystem)
    }

    ghost function Now(): (s: State)
      requires Valid()
      reads this, memory.cells
      ensures StateOk(s)
    {
      State(memory.cells[..], coordSelect, coordSystem, checkMode)
    }

    /** gc_init, on an existing memory: G54 and its record, or zero if that is damaged. */
    constructor (memory: Memory)
      requires memory.cells.Length == SIZE
      modifies memory.cells
      ensures this.memory == memory && Valid() && !checkMode
      ensures coordSelect == 0 && Agrees(Now())
      ensures memory.cells[..] == Repaired(old(memory.cells[..]), 0)
    {
      this.memory := memory;
      coordSelect, coordSystem, checkMode := 0, ZERO, false;
      new;
      hide Good, At, Store;
      RepairedGood(memory.cells[..], 0);
      var coord, ok := ReadCoordData(0);
      coordSystem := coord;
    }

    /** settings_write_coord_data */
    method WriteCoordData(select: nat, coord: seq<byte>)
      requires Valid() && select <= SETTING_INDEX_G30 && IsVector(coord)
      modifies memory.cells
      ensures memory.cells[..] == Store(old(memory.cells[..]), select, coord)
    {
      memory.WriteRecord(select * (COORD_SIZE + 1) + EEPROM_ADDR_PARAMETERS, coord);
    }

    /** settings_read_coord_data: a record that does not verify is reset to zero. */
    method ReadCoordData(select: nat) returns (coord: seq<byte>, ok: bool)
      requires Valid() && select <= SETTING_INDEX_G30
      modifies memory.cells
      ensures memory.cells[..] == Repaired(old(memory.cells[..]), select) && IsVector(coord)
      ensures ok <==> Good(old(memory.cells[..]), select)
      ensures coord == if ok then At(old(memory.cells[..]), select) else ZERO
    {
      coord, ok := memory.ReadRecord(select * (COORD_SIZE + 1) + EEPROM_ADDR_PARAMETERS, COORD_SIZE);
      if !ok {
        coord := ZERO;
        WriteCoordData(select, coord);
      }
    }

    /** The data of a G10: what is stored, with the axes of the block replaced. */
    method MergeAxes(stored: seq<byte>, b: Block) returns (data: seq<byte>)
      requires IsVector(stored) && b.Valid()
      ensures data == Merged(stored, b.axes, b.values, N_AXIS)
    {
      data := [];
      var idx := 0;
      while idx < N_AXIS
        invariant idx <= N_AXIS && data == Merged(stored, b.axes, b.values, idx)
      {
        data := data + if b.axes[idx] then b.values[idx] else stored[4 * idx..4 * (idx + 1)];
        idx := idx + 1;
      }
    }

    /** Error checks on the non-modal action, reading the record it needs. */
    method CheckAction(b: Block, blockCoord: seq<byte>) returns (data: seq<byte>, target: nat, status: Status)
      requires Valid() && b.Valid() && IsVector(blockCoord)
      modifies memory.cells
      ensures Look(memory.cells[..], blockCoord, data, status) == LookAction(old(Now()), b, blockCoord)
      ensures b.action.SetData? && status == OK ==> target == Target(old(Now()), b) < N_COORDINATE_SYSTEM
    {
      hide Good, At, Store, Merged;
      data, target, status := ZERO, 0, OK;
      match b.action {
        case SetData(p, l, words, r) =>
          if (forall i | 0 <= i < N_AXIS :: !b.axes[i]) || !words { status := REJECTED; return; }
          if p > N_COORDINATE_SYSTEM { status := UNSUPPORTED_COORD_SYS; return; }
          if l != 20 {
            if l == 2 {
              if r { status := REJECTED; return; }
            } else {
              status := REJECTED; return;
            }
          }
          target := p;
          if target > 0 { target := target - 1; } else { target := if b.selects then b.select else coordSelect; }
          var stored, ok := ReadCoordData(target);
          if !ok { status := SETTING_READ_FAIL; return; }
          var merged := MergeAxes(stored, b);
          if b.late { status := REJECTED; }
          data := merged;
        case GoHome(second) =>
          var home, ok := ReadCoordData(HomeIndex(second));
          if !ok { status := SETTING_READ_FAIL; return; }
          data := home;
          if b.late { status := REJECTED; }
        case _ =>
          if b.late { status := REJECTED; }
      }
    }

    /** All error checks; nothing but damaged records has changed when they fail. */
    method Check(b: Block) returns (blockCoord: seq<byte>, data: seq<byte>, target: nat, status: Status)
      requires Valid() && b.Valid()
      modifies memory.cells
      ensures IsVector(blockCoord) && IsVector(data)
      ensures Look(memory.cells[..], blockCoord, data, status) == LookUp(old(Now()), b)
      ensures b.action.SetData? && status == OK ==> target == Target(old(Now()), b) < N_COORDINATE_SYSTEM
    {
      hide Good, At, Store, Merged, LookAction;
      blockCoord, data, target, status := coordSystem, ZERO, 0, OK;
      if b.early { status := REJECTED; return; }
      if b.selects {
        if b.select > N_COORDINATE_SYSTEM { status := UNSUPPORTED_COORD_SYS; return; }
        if coordSelect != b.select {
          var coord, ok := ReadCoordData(b.select);
          if !ok { status := SETTING_READ_FAIL; return; }
          blockCoord := coord;
        }
      }
      data, target, status := CheckAction(b, blockCoord);
    }

    /** Coordinate system selection and the non-modal action. */
    method Act(ghost s: State, b: Block, blockCoord: seq<byte>, data: seq<byte>, target: nat)
      requires Valid() && StateOk(s) && b.Valid() && LookUp(s, b) == Look(memory.cells[..], blockCoord, data, OK)
      requires Now() == s.(c := memory.cells[..])
      requires b.action.SetData? ==> target == Target(s, b) < N_COORDINATE_SYSTEM
      modifies this, memory.cells
      ensures Valid() && Now() == Applied(s, b)
    {
      hide Good, At, Store, Merged, LookUp;
      if b.selects && coordSelect != b.select {
        coordSelect := b.select;
        coordSystem := blockCoord;
      }
      match b.action {
        case SetData(p, l, words, r) =>
          WriteCoordData(target, data);
          if coordSelect == target { coordSystem := data; }
        case SetHome(second) =>
          WriteCoordData(HomeIndex(second), b.position);
        case _ =>
      }
    }

    /** gc_execute_line */
    method ExecuteLine(b: Block) returns (status: Status)
      requires Valid() && b.Valid()
      modifies this, memory.cells
      ensures Valid() && (Now(), status) == Run(old(Now()), b)
    {
      hide Good, At, Store, Merged, LookUp, Applied, Run;
      ghost var s := Now();
      var blockCoord, data, target;
      blockCoord, data, target, status := Check(b);
      if status != OK {
        RunRejected(s, b);
        return;
      }
      status := Perform(s, b, blockCoord, data, target);
      RunAccepted(s, b);
    }

    /** The execution of a block that has passed the checks. */
    method Perform(ghost s: State, b: Block, blockCoord: seq<byte>, data: seq<byte>, target: nat)
        returns (status: Status)
      requires Valid() && StateOk(s) && b.Valid() && LookUp(s, b) == Look(memory.cells[..], blockCoord, data, OK)
      requires Now() == s.(c := memory.cells[..])
      requires b.action.SetData? ==> target == Target(s, b) < N_COORDINATE_SYSTEM
      modifies this, memory.cells
      ensures Valid() && (Now(), status) == End(Applied(s, b), b)
    {
      hide Good, At, Store, Merged, LookUp, Applied;
      status := OK;
      Act(s, b, blockCoord, data, target);
      if b.end {
        coordSelect := 0;
        if !checkMode {
          var coord, ok := ReadCoordData(coordSelect);
          coordSystem := coord;
          if !ok { status := SETTING_READ_FAIL; }
        }
      }
    }
  }

  lemma RunAccepted(s: State, b: Block)
    requires StateOk(s) && b.Valid() && LookUp(s, b).status == OK
    ensures Run(s, b) == End(Applied(s, b), b)
  {
    hide LookUp, Applied;
  }

  lemma RunRejected(s: State, b: Block)
    requires StateOk(s) && b.Valid() && LookUp(s, b).status != OK
    ensures Run(s, b) == (s.(c := LookUp(s, b).c), LookUp(s, b).status)
  {
    hide LookUp;
  }

  lemma RepairedGood(c: seq<byte>, index: nat)
    requires |c| == SIZE && index <= SETTING_INDEX_G30
    ensures Good(Repaired(c, index), index)
    ensures At(Repaired(c, index), index) == if Good(c, index) then At(c, index) else ZERO
  {
    StoreAt(c, index, ZERO, index);
  }
}
