/** gc_execute_line (gcode.c) from the text of a line to the coordinate data: the block the word loop
    produces is what the checks and the execution of module GCode work on. */
module Lines {
  import opened Eeprom
  import Words
  import GCode

  const MM_PER_INCH: real := 25.40
  const N_AXIS: nat := GCode.N_AXIS

  /** What else a line depends on: position, G92 offset and tool length of the parser, how a number is
      stored in the memory, and whether the checks that do not read coordinate data fail, before or
      after those that do. */
  datatype Context = Context(
    position: seq<real>, offset: seq<real>, toolLength: real, stored: real -> seq<byte>, early: bool, late: bool)
  {
    ghost predicate Ok() {
      && |position| == N_AXIS && |offset| == N_AXIS
      && forall x :: |stored(x)| == 4
    }
  }

  // ---- the block -----------------------------------------------------------------------------------

  function Letter(axis: nat): char
    requires axis < N_AXIS
  {
    if axis == 0 then 'X' else if axis == 1 then 'Y' else 'Z'
  }

  /** The value of a letter, zero without the word. */
  function Value(b: Words.Block, letter: char): real {
    if letter in b.valueWords && letter in b.values then b.values[letter] else 0.0
  }

  function Setting(b: Words.Block, group: Words.Group): int {
    if group in b.modal then b.modal[group] else 0
  }

  function AxisWord(b: Words.Block, axis: nat): real
    requires axis < N_AXIS
  {
    Value(b, Letter(axis)) * if Setting(b, Words.Units) == 1 then MM_PER_INCH else 1.0
  }

  function L(b: Words.Block): nat {
    Words.Code(Value(b, 'L'))
  }

  /** The new value of an axis: with L20 that which makes the present position read as programmed. */
  function AxisData(b: Words.Block, k: Context, axis: nat): real
    requires k.Ok() && axis < N_AXIS
  {
    if L(b) == 20 then
      k.position[axis] - k.offset[axis] - AxisWord(b, axis) - if axis == 2 then k.toolLength else 0.0
    else AxisWord(b, axis)
  }

  /** The non-modal command of the line; G28.1 and G30.1 are numbered 38 and 40. */
  function Action(b: Words.Block): GCode.NonModal {
    if Words.NonModal !in b.commandWords then GCode.NoAction
    else
      var c := Setting(b, Words.NonModal);
      if c == 10 then
        GCode.SetData(Words.Code(Value(b, 'P')), L(b), 'P' in b.valueWords || 'L' in b.valueWords, 'R' in b.valueWords)
      else if c == 28 then GCode.GoHome(false)
      else if c == 30 then GCode.GoHome(true)
      else if c == 38 then GCode.SetHome(false)
      else if c == 40 then GCode.SetHome(true)
      else GCode.OtherAction
  }

  /** The program ends: a setting, which a failed end leaves behind for the next line. */
  predicate Ends(b: Words.Block) {
    Setting(b, Words.Stopping) == 2 || Setting(b, Words.Stopping) == 30
  }

  predicate Selects(b: Words.Block) {
    Words.Coordinates in b.commandWords
  }

  function Stored(k: Context, x: real): (v: seq<byte>)
    requires k.Ok()
    ensures |v| == 4
  {
    k.stored(x)
  }

  function BlockOf(b: Words.Block, k: Context): (x: GCode.Block)
    requires k.Ok() && (Selects(b) ==> 0 <= Setting(b, Words.Coordinates) < N_COORDINATE_SYSTEM)
    ensures x.Valid()
  {
    GCode.Block(
      if Selects(b) then Setting(b, Words.Coordinates) else 0, Selects(b), Action(b),
      seq(N_AXIS, i requires 0 <= i < N_AXIS => Letter(i) in b.valueWords),
      seq(N_AXIS, i requires 0 <= i < N_AXIS && k.Ok() => Stored(k, AxisData(b, k, i))),
      k.early, k.late,
      Stored(k, k.position[0]) + Stored(k, k.position[1]) + Stored(k, k.position[2]),
      Ends(b))
  }

  /** The word loop only selects systems there are, and leaves the modes of groups without a command. */
  ghost predicate ReadsWell(b: Words.Block, blank: Words.Block) {
    && (Selects(b) ==> Words.Coordinates in b.modal && 0 <= b.modal[Words.Coordinates] < N_COORDINATE_SYSTEM)
    && forall g :: g !in b.commandWords ==> Words.Same(b.modal, blank.modal, g)
  }

  lemma SelectsOne(w: Words.Word)
    requires Words.Sets(w, Words.Coordinates)
    ensures Words.Says(w).setting.Some? && 0 <= Words.Says(w).setting.value < N_COORDINATE_SYSTEM
  {
    hide Words.Code, Words.Mantissa;
  }

  lemma TakeReads(b: Words.Block, w: Words.Word, blank: Words.Block)
    requires ReadsWell(b, blank) && Words.Take(b, w).Ok?
    ensures ReadsWell(Words.Take(b, w).block, blank)
  {
    hide Words.Says, Words.Claim;
    if Words.Sets(w, Words.Coordinates) { SelectsOne(w); }
  }

  lemma {:induction false} TextReads(b: Words.Block, line: string, p: nat, blank: Words.Block)
    requires Words.Numbers.Terminated(line) && p < |line| && ReadsWell(b, blank) && Words.TakeText(b, line, p).Ok?
    ensures ReadsWell(Words.TakeText(b, line, p).block, blank)
    decreases |line| - p
  {
    hide Words.Take, Words.Numbers.Read;
    if line[p] != '\0' {
      var r := Words.Numbers.Read(line, p + 1);
      var w := Words.Word(line[p], r.value);
      TakeReads(b, w, blank);
      TextReads(Words.Take(b, w).block, line, r.next, blank);
    }
  }

  lemma LineReads(modal: map<Words.Group, int>, line: string)
    requires Words.Line(line) && Words.Parsed(modal, line).Ok?
    ensures ReadsWell(Words.Parsed(modal, line).block, Words.Fresh(modal, line[0] == '$'))
  {
    hide Words.TakeText;
    var jog := line[0] == '$';
    TextReads(Words.Fresh(modal, jog), line, if jog then 3 else 0, Words.Fresh(modal, jog));
  }

  // ---- what a line does ----------------------------------------------------------------------------

  /** The coordinate data and the modes of the parser. */
  datatype State = State(g: GCode.State, modal: map<Words.Group, int>)

  predicate StateOk(s: State) {
    && GCode.StateOk(s.g)
    && Words.Coordinates in s.modal && s.modal[Words.Coordinates] == s.g.selected
  }

  /** Rejected by the word loop; or by a check, or executed; or left to the jog command. */
  datatype Outcome = Unread(words: Words.Status) | Executed(status: GCode.Status) | Jog

  /** The modes an accepted line leaves: the end of a program resets some of them, and the program flow
      is reset unless reading the record of G54 has failed. */
  function ModesAfter(b: Words.Block, status: GCode.Status): map<Words.Group, int> {
    var m := b.modal - {Words.NonModal};
    var n := if Ends(b) then
               m[Words.Motion := 1][Words.Plane := 0][Words.Distance := 0][Words.FeedMode := 0][Words.Coordinates := 0]
                [Words.Spindle := 0][Words.Coolant := 0]
             else m;
    if status == GCode.OK then n - {Words.Stopping} else n
  }

  function Run(s: State, line: string, k: Context): (r: (State, Outcome))
    requires StateOk(s) && Words.Line(line) && k.Ok()
  {
    match Words.Parsed(s.modal, line)
    case Fail(status) => (s, Unread(status))
    case Ok(b) =>
      LineReads(s.modal, line);
      var x := BlockOf(b, k);
      var look := GCode.LookUp(s.g, x);
      if look.status != GCode.OK then (s.(g := s.g.(c := look.c)), Executed(look.status))
      else if line[0] == '$' then (s.(g := s.g.(c := look.c)), Jog)
      else
        var t := GCode.Run(s.g, x);
        (State(t.0, ModesAfter(b, t.1)), Executed(t.1))
  }

  /** What became of an ordinary line that was accepted, whatever came of an end of program. */
  predicate Accepted(s: State, line: string, k: Context)
    requires StateOk(s) && Words.Line(line) && k.Ok()
  {
    match Words.Parsed(s.modal, line)
    case Fail(_) => false
    case Ok(b) =>
      LineReads(s.modal, line);
      line[0] != '$' && GCode.LookUp(s.g, BlockOf(b, k)).status == GCode.OK
  }

  /** The block of a line that is read. */
  function Read(s: State, line: string, k: Context): (x: GCode.Block)
    requires StateOk(s) && Words.Line(line) && k.Ok() && Words.Parsed(s.modal, line).Ok?
    ensures x.Valid()
  {
    LineReads(s.modal, line);
    BlockOf(Words.Parsed(s.modal, line).block, k)
  }

  lemma RunAccepted(s: State, line: string, k: Context)
    requires StateOk(s) && Words.Line(line) && k.Ok() && Accepted(s, line, k)
    ensures Run(s, line, k).0.g == GCode.Run(s.g, Read(s, line, k)).0
    ensures Run(s, line, k).1 == Executed(GCode.Run(s.g, Read(s, line, k)).1)
    ensures Run(s, line, k).0.modal == ModesAfter(Words.Parsed(s.modal, line).block, GCode.Run(s.g, Read(s, line, k)).1)
  {
    hide GCode.Run, GCode.LookUp, BlockOf, ModesAfter, Words.Parsed;
  }

  lemma RunOther(s: State, line: string, k: Context)
    requires StateOk(s) && Words.Line(line) && k.Ok() && !Accepted(s, line, k)
    ensures Run(s, line, k).0.modal == s.modal
    ensures Run(s, line, k).0.g.(c := s.g.c) == s.g && |Run(s, line, k).0.g.c| == SIZE
    ensures GCode.AllGood(s.g.c) ==> Run(s, line, k).0 == s
  {
    hide GCode.Run, BlockOf, ModesAfter, Words.Parsed, GCode.Good, GCode.At, GCode.Store, GCode.Merged;
  }

  /** The selection the modes record is that of the cache. */
  lemma StaysOk(s: State, line: string, k: Context)
    requires StateOk(s) && Words.Line(line) && k.Ok()
    ensures StateOk(Run(s, line, k).0)
  {
    hide GCode.Run, GCode.LookUp, Words.Parsed, GCode.Repaired, GCode.Applied, Run;
    if Accepted(s, line, k) {
      RunAccepted(s, line, k);
      LineReads(s.modal, line);
      var x := Read(s, line, k);
      SelectedAfter(s.g, x);
    } else {
      RunOther(s, line, k);
    }
  }

  lemma SelectedAfter(g: GCode.State, x: GCode.Block)
    requires GCode.StateOk(g) && x.Valid() && GCode.LookUp(g, x).status == GCode.OK
    ensures GCode.Run(g, x).0.selected == if x.end then 0 else GCode.Selection(g, x)
    ensures GCode.Run(g, x).0.checkMode == g.checkMode
  {
    hide GCode.LookUp, GCode.Good, GCode.At, GCode.Store, GCode.Merged;
    if x.action.SetData? { GCode.TargetInRange(g, x); }
  }

  /** An M2 or M30. */
  predicate IsEnd(w: Words.Word) {
    w.letter == 'M' && (Words.Code(w.value) == 2 || Words.Code(w.value) == 30)
  }

  /** With no earlier end pending, an accepted line ends the program exactly when one of its words does. */
  lemma EndsIff(modal: map<Words.Group, int>, line: string, ws: seq<Words.TextWord>)
    requires Words.Line(line) && Words.Parsed(modal, line).Ok? && Words.Stopping !in modal
    requires Words.IsText(line, Words.Start(line), ws)
    ensures Ends(Words.Parsed(modal, line).block) <==> exists w :: w in Words.MeantBy(ws) && IsEnd(w)
  {
    hide Words.IsText, Words.TakeText, Words.TakeAll, Words.MeantBy, Words.Compatible, Words.Holds, IsEnd, Ends;
    var jog := line[0] == '$';
    var vs, b0 := Words.MeantBy(ws), Words.Fresh(modal, jog);
    Words.TextTaken(b0, line, Words.Start(line), ws);
    Words.AcceptedIff(modal, jog, vs);
    HeldEnds(Words.Parsed(modal, line).block, b0, multiset(vs));
  }

  lemma HeldEnds(b: Words.Block, b0: Words.Block, ws: multiset<Words.Word>)
    requires Words.Holds(b, b0, ws) && Words.Compatible(ws) && Words.Stopping !in b0.modal
    ensures Ends(b) <==> exists w :: w in ws && IsEnd(w)
  {
    hide Words.Says, IsEnd, Words.HoldsValues, Words.HoldsClaim, Words.Clash;
    if Ends(b) {
      assert Words.Stopping in b.commandWords;
      var w :| w in ws && Words.Sets(w, Words.Stopping);
      StopWord(w);
      assert IsEnd(w);
    }
    if w :| w in ws && IsEnd(w) {
      assert Words.Supported(w);
      EndWord(w);
    }
  }

  lemma StopWord(w: Words.Word)
    requires Words.Sets(w, Words.Stopping)
    ensures Words.Says(w).setting in {Words.None, Words.Some(2), Words.Some(3), Words.Some(30)}
    ensures IsEnd(w) <==> Words.Says(w).setting in {Words.Some(2), Words.Some(30)}
  {
    hide Words.Code, Words.Mantissa;
  }

  lemma EndWord(w: Words.Word)
    requires IsEnd(w) && Words.Supported(w)
    ensures Words.Sets(w, Words.Stopping) && Words.Says(w).setting in {Words.Some(2), Words.Some(30)}
  {
    hide Words.Code, Words.Mantissa, Words.GMeaning;
  }

  // ---- what the words of a line come to --------------------------------------------------------------

  /** The command Gn, or Gn.1 with m hundredths. */
  predicate IsG(w: Words.Word, n: nat, m: nat) {
    w.letter == 'G' && Words.Code(w.value) == n && Words.Mantissa(w.value) == m
  }

  predicate Has(ws: seq<Words.Word>, n: nat, m: nat) {
    exists w :: w in ws && IsG(w, n, m)
  }

  /** G54 to G59 by number from zero. */
  predicate IsSystem(w: Words.Word, i: int) {
    0 <= i < N_COORDINATE_SYSTEM && IsG(w, 54 + i, 0)
  }

  predicate Names(ws: seq<Words.Word>, letter: char) {
    exists w :: w in ws && w.letter == letter
  }

  /** G54 to G59 make system n active; without one it stays the one selected. */
  predicate Activates(s: State, ws: seq<Words.Word>, n: int) {
    if exists w :: w in ws && w.letter == 'G' && IsSystem(w, Words.Code(w.value) - 54) then
      exists w :: w in ws && IsSystem(w, n)
    else n == s.g.selected
  }

  /** The number of a G10's record: P less one, or with P0 or without P that of the active system. */
  predicate Aims(s: State, ws: seq<Words.Word>, n: int) {
    if exists w :: w in ws && w.letter == 'P' && Words.Code(w.value) > 0 then
      exists w :: w in ws && w.letter == 'P' && Words.Code(w.value) == n + 1
    else Activates(s, ws, n)
  }

  /** G20 on the line or before it without a G21 on the line. */
  predicate InInches(s: State, ws: seq<Words.Word>) {
    Has(ws, 20, 0) || (Words.Units in s.modal && s.modal[Words.Units] == Words.INCHES && !Has(ws, 21, 0))
  }

  /** The coordinate datum d of an axis for the value x programmed: L2 sets it; with L20 the work position,
      which is the machine position less this datum, the G92 offset and on Z the tool length, reads x. */
  predicate Programs(ws: seq<Words.Word>, k: Context, axis: nat, x: real, d: real)
    requires k.Ok() && axis < N_AXIS
  {
    exists w :: w in ws && w.letter == 'L' &&
      if Words.Code(w.value) == 20 then
        k.position[axis] - d - k.offset[axis] - (if axis == 2 then k.toolLength else 0.0) == x
      else Words.Code(w.value) == 2 && d == x
  }

  /** The block of an accepted line holds what its words say. */
  lemma HeldByLine(s: State, line: string, k: Context, ts: seq<Words.TextWord>)
    requires StateOk(s) && Words.Line(line) && k.Ok() && Accepted(s, line, k)
    requires Words.IsText(line, Words.Start(line), ts)
    ensures Words.Compatible(multiset(Words.MeantBy(ts)))
    ensures Words.Holds(Words.Parsed(s.modal, line).block, Words.Fresh(s.modal, false), multiset(Words.MeantBy(ts)))
  {
    hide Words.IsText, Words.TakeText, Words.TakeAll, Words.MeantBy, Words.Compatible, Words.Holds, GCode.LookUp,
         BlockOf;
    var b0 := Words.Fresh(s.modal, false);
    Words.TextTaken(b0, line, Words.Start(line), ts);
    Words.AcceptedIff(s.modal, false, Words.MeantBy(ts));
  }

  lemma ValueHeld(b: Words.Block, b0: Words.Block, ws: seq<Words.Word>, w: Words.Word)
    requires Words.HoldsValues(b, b0, multiset(ws)) && w in ws && w.letter in {'X', 'Y', 'Z', 'P', 'L', 'R'}
    requires Words.Supported(w)
    ensures w.letter in b.valueWords
    ensures Value(b, w.letter) == if w.letter == 'L' then Words.Code(w.value) as real else w.value
  {
    hide Words.Code, Words.Mantissa;
    assert w in multiset(ws);
    assert Words.Gives(w, w.letter);
  }

  lemma NoValueHeld(b: Words.Block, b0: Words.Block, ws: seq<Words.Word>, letter: char)
    requires Words.HoldsValues(b, b0, multiset(ws)) && !Names(ws, letter)
    ensures letter !in b.valueWords && Value(b, letter) == 0.0
  {
    hide Words.Says;
    assert forall w :: w in multiset(ws) ==> w in ws;
  }

  predicate SetsTo(w: Words.Word, g: Words.Group, v: int) {
    Words.Sets(w, g) && Words.Says(w).setting == Words.Some(v)
  }

  lemma UnitWord(w: Words.Word)
    requires Words.Supported(w)
    ensures Words.Sets(w, Words.Units) <==> IsG(w, 20, 0) || IsG(w, 21, 0)
    ensures IsG(w, 20, 0) ==> SetsTo(w, Words.Units, 1)
    ensures IsG(w, 21, 0) ==> SetsTo(w, Words.Units, 0)
  {
    hide Words.Code, Words.Mantissa;
  }

  lemma SystemWord(w: Words.Word)
    requires Words.Supported(w) && Words.Sets(w, Words.Coordinates)
    ensures w.letter == 'G' && IsSystem(w, Words.Code(w.value) - 54)
    ensures SetsTo(w, Words.Coordinates, Words.Code(w.value) - 54)
  {
    hide Words.Code, Words.Mantissa;
  }

  lemma WordOfSystem(w: Words.Word, i: int)
    requires Words.Supported(w) && IsSystem(w, i)
    ensures SetsTo(w, Words.Coordinates, i)
  {
    hide Words.Code, Words.Mantissa;
  }

  lemma ActionWord(w: Words.Word)
    requires Words.Supported(w)
    ensures IsG(w, 10, 0) <==> SetsTo(w, Words.NonModal, 10)
    ensures IsG(w, 28, 0) <==> SetsTo(w, Words.NonModal, 28)
    ensures IsG(w, 30, 0) <==> SetsTo(w, Words.NonModal, 30)
    ensures IsG(w, 28, 10) <==> SetsTo(w, Words.NonModal, 38)
    ensures IsG(w, 30, 10) <==> SetsTo(w, Words.NonModal, 40)
    ensures Words.Sets(w, Words.NonModal) ==> Words.Says(w).setting.Some?
  {
    hide Words.Code, Words.Mantissa;
  }

  /** The setting of a group is that of the word which sets it. */
  lemma SettingHeld(b: Words.Block, b0: Words.Block, ws: seq<Words.Word>, w: Words.Word, g: Words.Group, v: int)
    requires Words.HoldsCommands(b, b0, multiset(ws)) && w in ws && SetsTo(w, g, v)
    ensures g in b.commandWords && Setting(b, g) == v
  {
    hide Words.Says;
    assert w in multiset(ws);
  }

  lemma NoSettingHeld(b: Words.Block, b0: Words.Block, ws: seq<Words.Word>, g: Words.Group)
    requires Words.HoldsCommands(b, b0, multiset(ws)) && forall w :: w in ws ==> !Words.Sets(w, g)
    ensures g !in b.commandWords && Words.Same(b.modal, b0.modal, g)
  {
    hide Words.Says, Words.Sets;
    assert forall w :: w in multiset(ws) ==> w in ws;
  }

  lemma UnitsHeld(s: State, b: Words.Block, ws: seq<Words.Word>)
    requires Words.HoldsCommands(b, Words.Fresh(s.modal, false), multiset(ws))
    requires forall w :: w in ws ==> Words.Supported(w)
    ensures Setting(b, Words.Units) == 1 <==> InInches(s, ws)
  {
    hide Words.HoldsCommands, Words.Sets, SetsTo, Words.Supported, IsG;
    var b0 := Words.Fresh(s.modal, false);
    if w :| w in ws && IsG(w, 20, 0) {
      UnitWord(w);
      SettingHeld(b, b0, ws, w, Words.Units, 1);
    } else if w :| w in ws && IsG(w, 21, 0) {
      UnitWord(w);
      SettingHeld(b, b0, ws, w, Words.Units, 0);
    } else {
      forall w | w in ws ensures !Words.Sets(w, Words.Units) { UnitWord(w); }
      NoSettingHeld(b, b0, ws, Words.Units);
    }
  }

  lemma SelectionHeld(s: State, b: Words.Block, ws: seq<Words.Word>)
    requires StateOk(s) && Words.HoldsCommands(b, Words.Fresh(s.modal, false), multiset(ws))
    requires forall w :: w in ws ==> Words.Supported(w)
    ensures Selects(b) ==> 0 <= Setting(b, Words.Coordinates) < N_COORDINATE_SYSTEM
    ensures Activates(s, ws, if Selects(b) then Setting(b, Words.Coordinates) else s.g.selected)
  {
    hide Words.HoldsCommands, Words.Sets, Words.Supported, IsG, Words.Says;
    var b0 := Words.Fresh(s.modal, false);
    if w :| w in ws && Words.Sets(w, Words.Coordinates) {
      SystemWord(w);
      SettingHeld(b, b0, ws, w, Words.Coordinates, Words.Code(w.value) - 54);
    } else {
      NoSettingHeld(b, b0, ws, Words.Coordinates);
      forall w, i | w in ws && IsSystem(w, i) ensures SetsTo(w, Words.Coordinates, i) { WordOfSystem(w, i); }
    }
  }

  /** Which words ask for what is done with coordinate data. */
  lemma ActionHeld(b: Words.Block, b0: Words.Block, ws: seq<Words.Word>)
    requires Words.HoldsCommands(b, b0, multiset(ws)) && forall w :: w in ws ==> Words.Supported(w)
    ensures Action(b).SetData? <==> Has(ws, 10, 0)
    ensures Action(b) == GCode.GoHome(false) <==> Has(ws, 28, 0)
    ensures Action(b) == GCode.GoHome(true) <==> Has(ws, 30, 0)
    ensures Action(b) == GCode.SetHome(false) <==> Has(ws, 28, 10)
    ensures Action(b) == GCode.SetHome(true) <==> Has(ws, 30, 10)
  {
    hide Words.HoldsCommands, Words.Supported, IsG, Words.Says;
    forall w | w in ws { ActionWord(w); }
    forall w, v | w in ws && SetsTo(w, Words.NonModal, v)
      ensures Words.NonModal in b.commandWords && Setting(b, Words.NonModal) == v
    {
      SettingHeld(b, b0, ws, w, Words.NonModal, v);
    }
    if w :| w in ws && Words.Sets(w, Words.NonModal) {
      assert SetsTo(w, Words.NonModal, Words.Says(w).setting.value);
    } else {
      NoSettingHeld(b, b0, ws, Words.NonModal);
    }
  }

  lemma CodeOfCode(c: nat)
    requires c < 256
    ensures Words.Code(c as real) == c
  {
  }

  /** An axis word of a G10 with its L word. */
  lemma DataHeld(s: State, b: Words.Block, k: Context, ws: seq<Words.Word>, axis: nat, w: Words.Word)
    requires Words.HoldsCommands(b, Words.Fresh(s.modal, false), multiset(ws)) && k.Ok()
    requires Words.HoldsValues(b, Words.Fresh(s.modal, false), multiset(ws))
    requires (forall v :: v in ws ==> Words.Supported(v)) && L(b) in {2, 20}
    requires axis < N_AXIS && w in ws && w.letter == Letter(axis)
    ensures Programs(ws, k, axis, w.value * (if InInches(s, ws) then MM_PER_INCH else 1.0), AxisData(b, k, axis))
  {
    hide Words.HoldsCommands, Words.HoldsValues, Words.Supported, Words.Code, InInches, Setting, Value;
    var b0 := Words.Fresh(s.modal, false);
    UnitsHeld(s, b, ws);
    ValueHeld(b, b0, ws, w);
    CodeOfCode(0);
    if !Names(ws, 'L') { NoValueHeld(b, b0, ws, 'L'); }
    var l :| l in ws && l.letter == 'L';
    ValueHeld(b, b0, ws, l);
    CodeOfCode(Words.Code(l.value));
  }

  lemma AimHeld(s: State, b: Words.Block, ws: seq<Words.Word>)
    requires StateOk(s) && Words.HoldsCommands(b, Words.Fresh(s.modal, false), multiset(ws))
    requires Words.HoldsValues(b, Words.Fresh(s.modal, false), multiset(ws))
    requires forall v :: v in ws ==> Words.Supported(v)
    ensures var p := Words.Code(Value(b, 'P'));
            Aims(s, ws, if p > 0 then p - 1 else if Selects(b) then Setting(b, Words.Coordinates) else s.g.selected)
  {
    hide Words.HoldsCommands, Words.HoldsValues, Words.Supported, Words.Code, Activates, Setting, Value, Selects;
    var b0 := Words.Fresh(s.modal, false);
    SelectionHeld(s, b, ws);
    CodeOfCode(0);
    forall w | w in ws && w.letter == 'P' ensures Value(b, 'P') == w.value { ValueHeld(b, b0, ws, w); }
    if !Names(ws, 'P') { NoValueHeld(b, b0, ws, 'P'); }
  }

  /** What the end of a program does to the records: that of G54 is reset if it cannot be read. */
  lemma EndKeeps(g: GCode.State, x: GCode.Block, j: nat)
    requires GCode.StateOk(g) && x.Valid() && j <= SETTING_INDEX_G30 && GCode.Good(g.c, j)
    ensures GCode.Good(GCode.End(g, x).0.c, j) && GCode.At(GCode.End(g, x).0.c, j) == GCode.At(g.c, j)
  {
    GCode.StoreAt(g.c, 0, GCode.ZERO, j);
    hide GCode.Good, GCode.At, GCode.Store;
  }

  /** The record that a block's G10 is meant for. */
  function Aim(s: State, x: GCode.Block): nat
    requires x.action.SetData?
  {
    if x.action.p > 0 then x.action.p - 1 else if x.selects then x.select else s.g.selected
  }

  /** An axis of the block: named if a word names it, with what the L word programs from its value. */
  ghost predicate Given(s: State, ws: seq<Words.Word>, k: Context, axis: nat, named: bool, value: seq<byte>)
    requires k.Ok() && axis < N_AXIS
  {
    && named == Names(ws, Letter(axis))
    && (forall w :: w in ws && w.letter == Letter(axis) ==>
          exists d :: Programs(ws, k, axis, w.value * (if InInches(s, ws) then MM_PER_INCH else 1.0), d)
                      && value == Stored(k, d))
  }

  ghost predicate AllGiven(s: State, ws: seq<Words.Word>, k: Context, x: GCode.Block)
    requires k.Ok() && x.Valid()
  {
    forall axis | 0 <= axis < N_AXIS :: Given(s, ws, k, axis, x.axes[axis], x.values[axis])
  }

  lemma GivenByWords(s: State, b: Words.Block, k: Context, ws: seq<Words.Word>, axis: nat)
    requires k.Ok() && axis < N_AXIS && L(b) in {2, 20}
    requires Words.HoldsCommands(b, Words.Fresh(s.modal, false), multiset(ws))
    requires Words.HoldsValues(b, Words.Fresh(s.modal, false), multiset(ws))
    requires forall w :: w in ws ==> Words.Supported(w)
    ensures Given(s, ws, k, axis, Letter(axis) in b.valueWords, Stored(k, AxisData(b, k, axis)))
  {
    hide Words.Supported, Words.HoldsCommands, Words.HoldsValues, AxisData, Programs, InInches, Value, L;
    var b0 := Words.Fresh(s.modal, false);
    forall w | w in ws && w.letter == Letter(axis)
      ensures Letter(axis) in b.valueWords
      ensures Programs(ws, k, axis, w.value * (if InInches(s, ws) then MM_PER_INCH else 1.0), AxisData(b, k, axis))
    {
      ValueHeld(b, b0, ws, w);
      DataHeld(s, b, k, ws, axis, w);
    }
    if !Names(ws, Letter(axis)) { NoValueHeld(b, b0, ws, Letter(axis)); }
  }

  lemma GivenByBlock(s: State, b: Words.Block, k: Context, ws: seq<Words.Word>)
    requires StateOk(s) && k.Ok() && (Selects(b) ==> 0 <= Setting(b, Words.Coordinates) < N_COORDINATE_SYSTEM)
    requires Words.HoldsCommands(b, Words.Fresh(s.modal, false), multiset(ws))
    requires Words.HoldsValues(b, Words.Fresh(s.modal, false), multiset(ws))
    requires forall w :: w in ws ==> Words.Supported(w)
    requires L(b) in {2, 20} && Has(ws, 10, 0)
    ensures BlockOf(b, k).action.SetData? && Aims(s, ws, Aim(s, BlockOf(b, k))) && AllGiven(s, ws, k, BlockOf(b, k))
  {
    hide Words.Supported, Words.HoldsCommands, Words.HoldsValues, Words.Fresh;
    hide AxisData, Aims, Value, Has, L, Given, Setting, Selects, Words.Code;
    ActionHeld(b, Words.Fresh(s.modal, false), ws);
    AimHeld(s, b, ws);
    forall axis | 0 <= axis < N_AXIS
      ensures Given(s, ws, k, axis, Letter(axis) in b.valueWords, Stored(k, AxisData(b, k, axis)))
    {
      GivenByWords(s, b, k, ws, axis);
    }
  }

  lemma AllSupported(ws: seq<Words.Word>)
    requires Words.Compatible(multiset(ws))
    ensures forall w :: w in ws ==> Words.Supported(w)
  {
    assert forall w :: w in ws ==> w in multiset(ws);
  }

  /** What an accepted block with a G10 leaves in the memory, an end of program included. */
  lemma StoredByBlock(s: State, x: GCode.Block, i: nat)
    requires StateOk(s) && x.Valid() && GCode.LookUp(s.g, x).status == GCode.OK && x.action.SetData? && Aim(s, x) == i
    ensures var c, d := s.g.c, GCode.Run(s.g, x).0.c;
            && i < N_COORDINATE_SYSTEM && GCode.Good(d, i)
            && (forall axis | 0 <= axis < N_AXIS ::
                  GCode.Axis(GCode.At(d, i), axis)
                  == if x.axes[axis] then x.values[axis] else GCode.Axis(GCode.At(c, i), axis))
            && OthersKept(c, d, i)
  {
    hide GCode.Good, GCode.At, GCode.LookUp, GCode.Applied, GCode.End, GCode.Axis;
    GCode.DataByAxis(s.g, x);
    GCode.RunAccepted(s.g, x);
    var u := GCode.Applied(s.g, x);
    forall j | 0 <= j <= SETTING_INDEX_G30 && GCode.Good(u.c, j)
      ensures var d := GCode.End(u, x).0.c; GCode.Good(d, j) && GCode.At(d, j) == GCode.At(u.c, j)
    {
      EndKeeps(u, x, j);
    }
  }

  /** All records but one that can be read stay as they are. */
  ghost predicate OthersKept(c: seq<byte>, d: seq<byte>, n: nat)
    requires |c| == SIZE == |d|
  {
    forall j | 0 <= j <= SETTING_INDEX_G30 && j != n && GCode.Good(c, j) ::
      GCode.Good(d, j) && GCode.At(d, j) == GCode.At(c, j)
  }

  /** The block of an accepted line with a G10. */
  lemma DataBlock(s: State, line: string, k: Context, ts: seq<Words.TextWord>)
    requires StateOk(s) && Words.Line(line) && k.Ok() && Accepted(s, line, k)
    requires Words.IsText(line, Words.Start(line), ts) && Has(Words.MeantBy(ts), 10, 0)
    ensures var x := Read(s, line, k);
            && GCode.LookUp(s.g, x).status == GCode.OK && x.action.SetData?
            && Aims(s, Words.MeantBy(ts), Aim(s, x)) && AllGiven(s, Words.MeantBy(ts), k, x)
  {
    hide Words.IsText, Words.MeantBy, Words.HoldsCommands, Words.HoldsValues, Words.Compatible, Words.Fresh,
         Words.Parsed;
    hide Has, Words.Supported, GCode.LookUp, GCode.Good, Aims, AllGiven, L;
    var b, ws := Words.Parsed(s.modal, line).block, Words.MeantBy(ts);
    var x := Read(s, line, k);
    HeldByLine(s, line, k, ts);
    AllSupported(ws);
    ActionHeld(b, Words.Fresh(s.modal, false), ws);
    GCode.CheckedIff(s.g, x);
    LineReads(s.modal, line);
    GivenByBlock(s, b, k, ws);
  }

  /** An accepted line of text with a G10 sets the record its P word aims at, or that of the active system: each
      axis with a word gets what the L word programs from its value, in the units in force, the other axes keep
      what was stored.  The other records, as far as they can be read, stay as they are. */
  lemma DataOfLine(s: State, line: string, k: Context, ts: seq<Words.TextWord>) returns (n: nat)
    requires StateOk(s) && Words.Line(line) && k.Ok() && Accepted(s, line, k)
    requires Words.IsText(line, Words.Start(line), ts) && Has(Words.MeantBy(ts), 10, 0)
    ensures var ws, c, d := Words.MeantBy(ts), s.g.c, Run(s, line, k).0.g.c;
            && Aims(s, ws, n) && n < N_COORDINATE_SYSTEM && GCode.Good(d, n) && OthersKept(c, d, n)
            && forall axis | 0 <= axis < N_AXIS ::
                 var v := GCode.Axis(GCode.At(d, n), axis);
                 if Names(ws, Letter(axis)) then Given(s, ws, k, axis, true, v)
                 else v == GCode.Axis(GCode.At(c, n), axis)
  {
    DataBlock(s, line, k, ts);
    var ws, x := Words.MeantBy(ts), Read(s, line, k);
    RunAccepted(s, line, k);
    assert AllGiven(s, ws, k, x);
    assert forall axis | 0 <= axis < N_AXIS :: Given(s, ws, k, axis, x.axes[axis], x.values[axis]);
    assert forall axis | 0 <= axis < N_AXIS :: x.axes[axis] == Names(ws, Letter(axis));
    hide *;
    n := Aim(s, x);
    StoredByBlock(s, x, n);
  }

  /** An accepted line of text with a G28.1 or G30.1 stores the position where the line begins. */
  lemma HomeOfLine(s: State, line: string, k: Context, ts: seq<Words.TextWord>, second: bool)
    requires StateOk(s) && Words.Line(line) && k.Ok() && Accepted(s, line, k)
    requires Words.IsText(line, Words.Start(line), ts) && Has(Words.MeantBy(ts), if second then 30 else 28, 10)
    ensures var n := if second then SETTING_INDEX_G30 else SETTING_INDEX_G28;
            var c, d := s.g.c, Run(s, line, k).0.g.c;
            && GCode.Good(d, n) && OthersKept(c, d, n)
            && forall axis | 0 <= axis < N_AXIS :: GCode.Axis(GCode.At(d, n), axis) == Stored(k, k.position[axis])
  {
    hide Words.IsText, Words.MeantBy, Words.HoldsCommands, Words.HoldsValues, Words.Compatible, Words.Fresh,
         Words.Parsed;
    hide Has, Words.Supported, GCode.LookUp, GCode.Good, GCode.At, GCode.Applied, Run, GCode.End;
    var b, ws := Words.Parsed(s.modal, line).block, Words.MeantBy(ts);
    var x := Read(s, line, k);
    HeldByLine(s, line, k, ts);
    AllSupported(ws);
    ActionHeld(b, Words.Fresh(s.modal, false), ws);
    LineReads(s.modal, line);
    assert x.action == GCode.SetHome(second);
    GCode.OtherActions(s.g, x);
    RunAccepted(s, line, k);
    GCode.RunAccepted(s.g, x);
    var u := GCode.Applied(s.g, x);
    forall j | 0 <= j <= SETTING_INDEX_G30 && GCode.Good(u.c, j)
      ensures var d := GCode.End(u, x).0.c; GCode.Good(d, j) && GCode.At(d, j) == GCode.At(u.c, j)
    {
      EndKeeps(u, x, j);
    }
  }

  /** G1, G17, G90, G94, G54, M5 and M9. */
  const DEFAULTS: map<Words.Group, int> :=
    map[Words.Motion := 1, Words.Plane := Words.XY, Words.Distance := Words.ABSOLUTE,
        Words.FeedMode := Words.UNITS_PER_MIN, Words.Coordinates := 0, Words.Spindle := Words.OFF,
        Words.Coolant := Words.OFF]

  /** The modes after an accepted line of text: the end of a program resets seven groups; any other group has
      the setting of the word of its group on the line, or the one it had. */
  lemma ModesOfLine(s: State, line: string, k: Context, ts: seq<Words.TextWord>, g: Words.Group)
    requires StateOk(s) && Words.Line(line) && k.Ok() && Accepted(s, line, k)
    requires Words.IsText(line, Words.Start(line), ts) && g !in {Words.NonModal, Words.Stopping}
    ensures var ws, m := Words.MeantBy(ts), Run(s, line, k).0.modal;
            if Read(s, line, k).end && g in DEFAULTS then g in m && m[g] == DEFAULTS[g]
            else
              && (forall w :: w in ws && Words.Sets(w, g) && Words.Says(w).setting.Some? ==>
                    g in m && m[g] == Words.Says(w).setting.value)
              && ((forall w :: w in ws && Words.Sets(w, g) ==> Words.Says(w).setting.None?) ==>
                    Words.Same(m, s.modal, g))
  {
    hide Words.IsText, Words.MeantBy, Words.HoldsCommands, Words.Compatible, Words.Parsed, Words.Says, Words.Sets;
    hide GCode.LookUp, GCode.Run, BlockOf, Ends;
    var b, b0, ws := Words.Parsed(s.modal, line).block, Words.Fresh(s.modal, false), Words.MeantBy(ts);
    HeldByLine(s, line, k, ts);
    RunAccepted(s, line, k);
    EndOfBlock(s, line, k);
    SettingsHeld(b, b0, ws, g);
  }

  lemma EndOfBlock(s: State, line: string, k: Context)
    requires StateOk(s) && Words.Line(line) && k.Ok() && Words.Parsed(s.modal, line).Ok?
    ensures Read(s, line, k).end == Ends(Words.Parsed(s.modal, line).block)
  {
    hide Words.Parsed;
    LineReads(s.modal, line);
  }

  /** The modes a line is read with: those of the parser, but a jog has G1 and G94. */
  lemma ModesRead(modal: map<Words.Group, int>, line: string, ts: seq<Words.TextWord>, g: Words.Group)
    requires Words.Line(line) && Words.Parsed(modal, line).Ok? && Words.IsText(line, Words.Start(line), ts)
    ensures var ws, m := Words.MeantBy(ts), Words.Parsed(modal, line).block.modal;
            && (forall w :: w in ws && Words.Sets(w, g) && Words.Says(w).setting.Some? ==>
                  g in m && m[g] == Words.Says(w).setting.value)
            && ((forall w :: w in ws && Words.Sets(w, g) ==> Words.Says(w).setting.None?) ==>
                  if line[0] == '$' && g == Words.Motion then g in m && m[g] == 1
                  else if line[0] == '$' && g == Words.FeedMode then g in m && m[g] == Words.UNITS_PER_MIN
                  else Words.Same(m, modal, g))
  {
    hide Words.IsText, Words.TakeText, Words.TakeAll, Words.MeantBy, Words.Compatible, Words.Says, Words.Sets;
    var jog := line[0] == '$';
    var b0 := Words.Fresh(modal, jog);
    Words.TextTaken(b0, line, Words.Start(line), ts);
    Words.AcceptedIff(modal, jog, Words.MeantBy(ts));
    SettingsHeld(Words.Parsed(modal, line).block, b0, Words.MeantBy(ts), g);
  }

  lemma SettingsHeld(b: Words.Block, b0: Words.Block, ws: seq<Words.Word>, g: Words.Group)
    requires Words.HoldsCommands(b, b0, multiset(ws))
    ensures forall w :: w in ws && Words.Sets(w, g) && Words.Says(w).setting.Some? ==>
              g in b.modal && b.modal[g] == Words.Says(w).setting.value
    ensures (forall w :: w in ws && Words.Sets(w, g) ==> Words.Says(w).setting.None?) ==>
              Words.Same(b.modal, b0.modal, g)
  {
    hide Words.Says;
    assert forall w :: w in ws <==> w in multiset(ws);
    if g in b.commandWords {
      var w :| w in multiset(ws) && Words.Sets(w, g);
    }
  }

  /** No command of one line is left in the modes, and the program flow only where reading a record has failed. */
  lemma NoneLeft(s: State, line: string, k: Context)
    requires StateOk(s) && Words.Line(line) && k.Ok() && Accepted(s, line, k)
    ensures var t := Run(s, line, k);
            Words.NonModal !in t.0.modal && (t.1 == Executed(GCode.OK) ==> Words.Stopping !in t.0.modal)
  {
    hide Words.Parsed, GCode.LookUp, GCode.Run, BlockOf;
    RunAccepted(s, line, k);
  }

  // ---- whole programs ------------------------------------------------------------------------------

  /** After any line, ordinary or jog, accepted or not, the cached offset agrees with the record of the
      selected system, except exactly when an accepted line ends the program in check mode while the
      record of the system it selects, as the line leaves it, differs from that of G54. */
  lemma LineAgrees(s: State, line: string, k: Context)
    requires StateOk(s) && Words.Line(line) && k.Ok() && GCode.AllGood(s.g.c) && GCode.Agrees(s.g)
    ensures var t := Run(s, line, k).0;
            && StateOk(t) && GCode.AllGood(t.g.c)
            && (!GCode.Agrees(t.g) <==>
                  && Accepted(s, line, k) && s.g.checkMode
                  && var x := Read(s, line, k);
                     x.end && GCode.RecordAfter(s.g, x, GCode.Selection(s.g, x)) != GCode.RecordAfter(s.g, x, 0))
  {
    hide GCode.Run, GCode.LookUp, BlockOf, ModesAfter, Words.Parsed, GCode.AllGood, GCode.RecordAfter;
    StaysOk(s, line, k);
    if Accepted(s, line, k) {
      RunAccepted(s, line, k);
      var x := Read(s, line, k);
      GCode.CacheAgrees(s.g, x);
    } else {
      RunOther(s, line, k);
    }
  }

  /** A line of a program with what else it depends on. */
  datatype Input = Input(line: string, k: Context) {
    ghost predicate Ok() {
      Words.Line(line) && k.Ok()
    }
  }

  ghost predicate AllOk(inputs: seq<Input>) {
    forall i | 0 <= i < |inputs| :: inputs[i].Ok()
  }

  ghost function RunAll(s: State, inputs: seq<Input>): (t: State)
    requires StateOk(s) && AllOk(inputs)
    ensures StateOk(t)
    decreases |inputs|
  {
    if inputs == [] then s
    else
      StaysOk(s, inputs[0].line, inputs[0].k);
      RunAll(Run(s, inputs[0].line, inputs[0].k).0, inputs[1..])
  }

  /** Outside check mode the cache agrees after any text. */
  lemma {:induction false} ProgramAgrees(s: State, inputs: seq<Input>)
    requires StateOk(s) && AllOk(inputs) && GCode.AllGood(s.g.c) && GCode.Agrees(s.g) && !s.g.checkMode
    ensures var t := RunAll(s, inputs); GCode.AllGood(t.g.c) && GCode.Agrees(t.g)
    decreases |inputs|
  {
    hide Run, GCode.AllGood, GCode.Agrees, Accepted, Read;
    if inputs != [] {
      LineAgrees(s, inputs[0].line, inputs[0].k);
      SameCheckMode(s, inputs[0].line, inputs[0].k);
      ProgramAgrees(Run(s, inputs[0].line, inputs[0].k).0, inputs[1..]);
    }
  }

  lemma SameCheckMode(s: State, line: string, k: Context)
    requires StateOk(s) && Words.Line(line) && k.Ok()
    ensures Run(s, line, k).0.g.checkMode == s.g.checkMode
  {
    hide GCode.Run, GCode.LookUp, BlockOf, ModesAfter, Words.Parsed, Run;
    if Accepted(s, line, k) {
      RunAccepted(s, line, k);
      SelectedAfter(s.g, Read(s, line, k));
    } else {
      RunOther(s, line, k);
    }
  }

  // ---- an end of program that fails ------------------------------------------------------------------

  /** An end of program is still pending. */
  predicate Pending(s: State) {
    Words.Stopping in s.modal && (s.modal[Words.Stopping] == 2 || s.modal[Words.Stopping] == 30)
  }

  /** It is left pending exactly when the record of G54 cannot be read at the end of a program. */
  lemma LeftPending(s: State, line: string, k: Context)
    requires StateOk(s) && Words.Line(line) && k.Ok() && !Pending(s)
    ensures Pending(Run(s, line, k).0) <==>
              && Accepted(s, line, k) && !s.g.checkMode
              && var x := Read(s, line, k); x.end && !GCode.Good(GCode.Applied(s.g, x).c, 0)
  {
    hide GCode.LookUp, Words.Parsed, GCode.Good, GCode.Applied, Run;
    if Accepted(s, line, k) {
      RunAccepted(s, line, k);
      SelectedAfter(s.g, Read(s, line, k));
      EndStatus(s.g, Read(s, line, k));
    } else {
      RunOther(s, line, k);
    }
  }

  lemma EndStatus(g: GCode.State, x: GCode.Block)
    requires GCode.StateOk(g) && x.Valid() && GCode.LookUp(g, x).status == GCode.OK
    ensures GCode.Run(g, x).1 == GCode.OK <==> !x.end || g.checkMode || GCode.Good(GCode.Applied(g, x).c, 0)
  {
    GCode.SameCheckMode(g, x);
    hide GCode.LookUp, GCode.Good, GCode.At, GCode.Store, GCode.Applied;
  }

  /** The next accepted line without an M word of that group then ends the program once more, whatever
      system it selects. */
  lemma EndsAgain(s: State, line: string, k: Context)
    requires StateOk(s) && Words.Line(line) && k.Ok() && Pending(s) && Accepted(s, line, k)
    requires Words.Stopping !in Words.Parsed(s.modal, line).block.commandWords
    ensures Read(s, line, k).end && Run(s, line, k).0.g.selected == 0
  {
    hide GCode.Run, GCode.LookUp, Words.Parsed, Run;
    RunAccepted(s, line, k);
    LineReads(s.modal, line);
    SelectedAfter(s.g, Read(s, line, k));
  }

  const END_LINE: string := "M2\0"
  const SELECT_LINE: string := "G55\0"

  function Plain(letter: char, digits: string): Words.TextWord {
    Words.TextWord(letter, Words.Numbers.Numeral("", digits, false, ""))
  }

  lemma Short(s: string)
    requires Words.Numbers.AllDigits(s) && |s| <= 8
    ensures Words.Numbers.Kept(s) == Words.Numbers.Num(s)
  {
    hide Words.Numbers.Num;
    Words.Numbers.KeptAll(Words.Numbers.Num(s), 1);
    assert Words.Numbers.Pow10(0) == 1;
  }

  lemma PlainWord(letter: char, digits: string)
    requires 'A' <= letter <= 'Z' && Words.Numbers.AllDigits(digits) && 0 < |digits| <= 8
    ensures Plain(letter, digits).Ok() && Plain(letter, digits).Text() == [letter] + digits
    ensures Plain(letter, digits).Meant() == Words.Word(letter, Words.Numbers.Num(digits) as real)
  {
    hide Words.Numbers.Num, Words.Numbers.Kept, Words.Numbers.AllDigits;
    Short(digits);
    WholeNumeral(digits);
    hide Words.Numbers.Numeral.Ok, Words.Numbers.Numeral.Digits, Words.Numbers.Numeral.Text;
    assert Words.Numbers.Pow10(0) == 1;
  }

  lemma WholeNumeral(digits: string)
    requires Words.Numbers.AllDigits(digits)
    ensures var n := Words.Numbers.Numeral("", digits, false, "");
            n.Ok() && n.Digits() == digits && n.Text() == digits
  {
    assert digits + "" == digits && "" + digits == digits;
  }

  lemma EndIsRead(modal: map<Words.Group, int>)
    ensures Words.Line(END_LINE)
    ensures Words.Parsed(modal, END_LINE)
         == Words.Ok(Words.Block(modal[Words.Stopping := 2], map[], {Words.Stopping}, {}, Words.NoAxes))
  {
    assert END_LINE == ['M'] + "2" + ['\0'];
    hide *;
    Two();
    PlainWord('M', "2");
    OneWord(modal, END_LINE, Plain('M', "2"));
    TakeEnd(modal);
  }

  lemma Two()
    ensures Words.Numbers.AllDigits("2") && Words.Numbers.Num("2") == 2
  {
    assert "2"[..0] == "";
  }

  lemma TakeEnd(modal: map<Words.Group, int>)
    ensures Words.Take(Words.Fresh(modal, false), Words.Word('M', 2.0))
         == Words.Ok(Words.Block(modal[Words.Stopping := 2], map[], {Words.Stopping}, {}, Words.NoAxes))
  {
    assert Words.Code(2.0) == 2 && Words.Mantissa(2.0) == 0;
    hide Words.Code, Words.Mantissa, Words.GMeaning, Words.VMeaning;
  }

  lemma SelectIsRead(modal: map<Words.Group, int>)
    ensures Words.Line(SELECT_LINE)
    ensures Words.Parsed(modal, SELECT_LINE)
         == Words.Ok(Words.Block(modal[Words.Coordinates := 1], map[], {Words.Coordinates}, {}, Words.NoAxes))
  {
    assert SELECT_LINE == ['G'] + "55" + ['\0'];
    hide *;
    FiftyFive();
    PlainWord('G', "55");
    OneWord(modal, SELECT_LINE, Plain('G', "55"));
    TakeSelection(modal);
  }

  lemma FiftyFive()
    ensures Words.Numbers.AllDigits("55") && Words.Numbers.Num("55") == 55
  {
    assert "55"[..1] == "5" && "5"[..0] == "";
  }

  lemma TakeSelection(modal: map<Words.Group, int>)
    ensures Words.Take(Words.Fresh(modal, false), Words.Word('G', 55.0))
         == Words.Ok(Words.Block(modal[Words.Coordinates := 1], map[], {Words.Coordinates}, {}, Words.NoAxes))
  {
    assert Words.Code(55.0) == 55 && Words.Mantissa(55.0) == 0;
    hide Words.Code, Words.Mantissa, Words.MMeaning, Words.VMeaning;
  }

  /** A line of one word. */
  lemma OneWord(modal: map<Words.Group, int>, line: string, w: Words.TextWord)
    requires w.Ok() && line == w.Text() + ['\0']
    ensures Words.Line(line) && Words.Parsed(modal, line) == Words.Take(Words.Fresh(modal, false), w.Meant())
  {
    var b, t := Words.Fresh(modal, false), w.Text();
    assert Words.TextOf([w]) == t by { assert [w][1..] == [] && Words.TextOf([]) == "" && t + "" == t; }
    assert line[0..|t|] == t;
    assert Words.IsText(line, 0, [w]);
    hide Words.Take, Words.TakeText, Words.IsText, Words.TextWord.Meant, Words.TextOf, Words.TextWord.Ok;
    Words.TextTaken(b, line, 0, [w]);
    assert Words.MeantBy([w]) == [w.Meant()] && [w.Meant()][1..] == [];
  }

  /** With G55 active and the record of G54 damaged, M2 fails; the G55 after it ends the program again and
      leaves G54 active. */
  lemma EndRepeated(k: Context)
    requires k.Ok() && !k.early && !k.late
    ensures var c := GCode.BLANK[Coord(0).Address() + COORD_SIZE := 1];
            var s := State(GCode.State(c, 1, GCode.ZERO, false), map[Words.Coordinates := 1]);
            && StateOk(s) && !GCode.Good(c, 0) && GCode.Agrees(s.g)
            && Words.Line(END_LINE) && Words.Line(SELECT_LINE)
            && var t := Run(s, END_LINE, k);
               && t.1 == Executed(GCode.SETTING_READ_FAIL) && StateOk(t.0) && Pending(t.0)
               && var u := Run(t.0, SELECT_LINE, k);
                  u.1 == Executed(GCode.OK) && u.0.g.selected == 0
  {
    var c := GCode.BLANK[Coord(0).Address() + COORD_SIZE := 1];
    var s := State(GCode.State(c, 1, GCode.ZERO, false), map[Words.Coordinates := 1]);
    hide GCode.BLANK, GCode.Good, GCode.At, GCode.LookUp, GCode.Run, BlockOf, Run;
    DamagedBlank(c);
    EndFails(s, k);
    SelectionLost(Run(s, END_LINE, k).0, k);
  }

  lemma EndFails(s: State, k: Context)
    requires StateOk(s) && k.Ok() && !k.early && !k.late && !s.g.checkMode && !GCode.Good(s.g.c, 0)
             && GCode.Good(s.g.c, 1)
    ensures Words.Line(END_LINE)
    ensures var t := Run(s, END_LINE, k);
            && t.1 == Executed(GCode.SETTING_READ_FAIL) && StateOk(t.0) && Pending(t.0)
            && !t.0.g.checkMode && t.0.g.selected == 0 && GCode.Good(t.0.g.c, 0) && GCode.Good(t.0.g.c, 1)
  {
    hide GCode.Good, GCode.At, GCode.Store, GCode.LookUp, GCode.Run, Words.Parsed, Words.Fresh;
    EndIsRead(s.modal);
    StaysOk(s, END_LINE, k);
    PlainEnd(s.g, Read(s, END_LINE, k));
    assert Accepted(s, END_LINE, k);
    RunAccepted(s, END_LINE, k);
    hide Run;
  }

  lemma SelectionLost(s: State, k: Context)
    requires StateOk(s) && k.Ok() && !k.early && !k.late && !s.g.checkMode && s.g.selected == 0 && Pending(s)
    requires GCode.Good(s.g.c, 0) && GCode.Good(s.g.c, 1)
    ensures Words.Line(SELECT_LINE)
    ensures Run(s, SELECT_LINE, k).1 == Executed(GCode.OK) && Run(s, SELECT_LINE, k).0.g.selected == 0
  {
    hide GCode.Good, GCode.At, GCode.Store, GCode.LookUp, GCode.Run, Words.Parsed, Words.Fresh;
    SelectIsRead(s.modal);
    SelectsAfterEnd(s.g, Read(s, SELECT_LINE, k));
    assert Accepted(s, SELECT_LINE, k);
    RunAccepted(s, SELECT_LINE, k);
    hide Run;
  }

  /** An end of program that finds the record of G54 damaged. */
  lemma PlainEnd(g: GCode.State, x: GCode.Block)
    requires GCode.StateOk(g) && x.Valid() && !g.checkMode && !GCode.Good(g.c, 0)
    requires !x.early && !x.late && !x.selects && x.action == GCode.NoAction && x.end
    ensures GCode.LookUp(g, x).status == GCode.OK
    ensures GCode.Run(g, x)
         == (GCode.State(GCode.Store(g.c, 0, GCode.ZERO), 0, GCode.ZERO, false), GCode.SETTING_READ_FAIL)
    ensures GCode.Good(GCode.Store(g.c, 0, GCode.ZERO), 0)
    ensures GCode.Good(GCode.Store(g.c, 0, GCode.ZERO), 1) == GCode.Good(g.c, 1)
  {
    GCode.StoreAt(g.c, 0, GCode.ZERO, 0);
    GCode.StoreAt(g.c, 0, GCode.ZERO, 1);
    hide GCode.Good, GCode.At, GCode.Store;
  }

  lemma SelectsAfterEnd(g: GCode.State, x: GCode.Block)
    requires GCode.StateOk(g) && x.Valid() && !g.checkMode && GCode.Good(g.c, 0) && GCode.Good(g.c, 1)
    requires !x.early && !x.late && x.selects && x.select == 1 && g.selected == 0 && x.action == GCode.NoAction && x.end
    ensures GCode.LookUp(g, x).status == GCode.OK
    ensures GCode.Run(g, x).1 == GCode.OK && GCode.Run(g, x).0.selected == 0
  {
    hide GCode.Good, GCode.At, GCode.Store;
  }

  lemma DamagedBlank(c: seq<byte>)
    requires c == GCode.BLANK[Coord(0).Address() + COORD_SIZE := 1]
    ensures !GCode.Good(c, 0) && GCode.Good(c, 1) && GCode.At(c, 1) == GCode.ZERO
  {
    hide Checksum;
    GCode.BlankIsGood();
    var b := GCode.BLANK;
    assert GCode.Good(b, 0) && GCode.Good(b, 1);
    forall i | i == 0 || i == 1
      ensures Data(c, Coord(i).Address(), COORD_SIZE) == Data(b, Coord(i).Address(), COORD_SIZE)
    {
    }
    assert Data(b, Coord(1).Address(), COORD_SIZE) == GCode.ZERO;
  }

  // ---- the code ------------------------------------------------------------------------------------

  class LineParser {
    const words: Words.WordParser
    const parser: GCode.Parser
    /** gc_state.modal */
    var modal: map<Words.Group, int>

    ghost predicate Valid()
      reads this, parser
    {
      parser.Valid() && Words.Coordinates in modal && modal[Words.Coordinates] == parser.coordSelect
    }

    ghost function Now(): (s: State)
      requires Valid()
      reads this, parser, parser.memory.cells
      ensures StateOk(s)
    {
      State(parser.Now(), modal)
    }

    /** gc_init */
    constructor (memory: Memory)
      requires memory.cells.Length == SIZE
      modifies memory.cells
      ensures Valid() && fresh(words) && fresh(parser) && parser.memory == memory
      ensures GCode.Agrees(Now().g) && !Pending(Now()) && Now().g.selected == 0 && !Now().g.checkMode
    {
      hide GCode.Agrees;
      words := new Words.WordParser();
      parser := new GCode.Parser(memory);
      modal := map[Words.Coordinates := 0];
    }

    /** gc_execute_line */
    method ExecuteLine(line: string, k: Context) returns (outcome: Outcome)
      requires Valid() && Words.Line(line) && k.Ok()
      modifies this`modal, words, parser, parser.memory.cells
      ensures Valid() && (Now(), outcome) == Run(old(Now()), line, k)
    {
      hide GCode.Run, GCode.LookUp, GCode.Applied, GCode.End, Words.Parsed, BlockOf, ModesAfter;
      ghost var s := Now();
      StaysOk(s, line, k);
      var failed := words.ImportLine(modal, line);
      if failed.Some? { return Unread(failed.value); }
      LineReads(modal, line);
      var b := Words.Block(words.modal, words.values, words.commandWords, words.valueWords, words.axisCommand);
      var x := BlockOf(b, k);
      var coord, data, target, status := parser.Check(x);
      if status != GCode.OK { return Executed(status); }
      if line[0] == '$' { return Jog; }
      GCode.RunAccepted(s.g, x);
      status := parser.Perform(s.g, x, coord, data, target);
      outcome := Executed(status);
      modal := ModesAfter(b, status);
    }
  }
}
