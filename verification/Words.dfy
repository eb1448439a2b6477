/**
 * The word loop of gc_execute_line (gcode.c): a line of g-code words is read into the block that
 * the error checks and the execution then work on.  The loop keeps the rules of NIST RS274/NGC
 * version 3: at most one command of a modal group (section 3.4 and Table 4), no word twice, and
 * words in any order.
 */
module Words {
  import opened Numbers

  datatype Group =
    | NonModal | Motion | Plane | Distance | ArcDistance | FeedMode | Units | CutterComp | ToolLength
    | Coordinates | Control                                                        // G words
    | Stopping | Spindle | Coolant                                                 // M words

  /** Which kind of command lays claim to the axis words of the line. */
  datatype AxisCommand = NoAxes | NonModalAxes | MotionAxes | ToolLengthAxes

  datatype Status =
    | EXPECTED_COMMAND_LETTER | BAD_NUMBER_FORMAT | UNSUPPORTED_COMMAND | COMMAND_VALUE_NOT_INTEGER
    | AXIS_COMMAND_CONFLICT | MODAL_GROUP_VIOLATION | WORD_REPEATED | NEGATIVE_VALUE | MAX_VALUE_EXCEEDED

  datatype Option<T> = None | Some(value: T)

  datatype Word = Word(letter: char, value: real)

  // ----- The number of a command -----

  function Trunc(x: real): int {
    if x >= 0.0 then x.Floor else -((-x).Floor)
  }

  function Round(x: real): int {
    if x >= 0.0 then (x + 0.5).Floor else -((0.5 - x).Floor)
  }

  /** int_value and mantissa, kept in eight and in sixteen bits. */
  function Code(value: real): (c: nat)
    ensures c < 256
  {
    Trunc(value) % 256
  }

  function Mantissa(value: real): (m: nat)
    ensures m < 65536
  {
    Round(100.0 * (value - Code(value) as real)) % 65536
  }

  /** What cutting a number to a whole one towards zero takes off it. */
  function CutOff(x: real): real {
    if x >= 0.0 then x - Trunc(x) as real else Trunc(x) as real - x
  }

  /**
   * A number is taken for the whole command c exactly when, cut to a whole number towards zero, it is
   * c plus a multiple of 16384, the widths being what they are, and less than half a hundredth has
   * been cut off.
   */
  lemma CommandExact(value: real, c: nat)
    requires c < 256
    ensures Code(value) == c && Mantissa(value) == 0 <==>
            Trunc(value) % 16384 == c && CutOff(value) < 0.005
  {
    hide *;
    MantissaZero(value);
    CodeOf(value);
    SixteenBits(Trunc(value), c);
  }

  lemma CodeOf(value: real)
    ensures Code(value) == Trunc(value) % 256
  {
  }

  lemma MantissaZero(value: real)
    ensures Mantissa(value) == 0 <==> Trunc(value) / 256 % 64 == 0 && CutOff(value) < 0.005
  {
    hide Round;
    var n := Trunc(value);
    var q, f := n / 256, CutOff(value);
    var x := 100.0 * (value - Code(value) as real);
    assert n == 256 * q + Code(value);
    if value >= 0.0 {
      Hundredths(q, f, x);
      Aliases(q, (100.0 * f + 0.5).Floor);
    } else {
      NegativeHundredths(q, f, x);
      Aliases(-q, (100.0 * f + 0.5).Floor);
      NegativeWrap(25600 * -q + (100.0 * f + 0.5).Floor);
      NegativeSixtyFour(q);
    }
  }

  lemma NegativeSixtyFour(q: int)
    ensures -q % 64 == 0 <==> q % 64 == 0
  {
  }

  /** So G16385 and G-16383 are taken for G1. */
  lemma AliasedCommands()
    ensures Code(16385.0) == 1 && Mantissa(16385.0) == 0
    ensures Code(-16383.0) == 1 && Mantissa(-16383.0) == 0
  {
    CommandExact(16385.0, 1);
    CommandExact(-16383.0, 1);
  }

  lemma NegativeWrap(x: int)
    ensures -x % 65536 == 0 <==> x % 65536 == 0
  {
  }

  lemma Hundredths(q: nat, f: real, x: real)
    requires 0.0 <= f < 1.0 && x == (25600 * q) as real + 100.0 * f
    ensures Round(x) == 25600 * q + (100.0 * f + 0.5).Floor
    ensures var h := (100.0 * f + 0.5).Floor; 0 <= h <= 100 && (h == 0 <==> f < 0.005)
  {
    assert x + 0.5 == (25600 * q) as real + (100.0 * f + 0.5);
  }

  lemma NegativeHundredths(q: int, f: real, x: real)
    requires q <= 0 && 0.0 <= f < 1.0 && x == (25600 * q) as real - 100.0 * f < 0.0
    ensures Round(x) == -(25600 * -q + (100.0 * f + 0.5).Floor)
    ensures var h := (100.0 * f + 0.5).Floor; 0 <= h <= 100 && (h == 0 <==> f < 0.005)
  {
    assert 0.5 - x == (25600 * -q) as real + (100.0 * f + 0.5);
  }

  lemma SixteenBits(n: int, c: nat)
    requires c < 256
    ensures n % 16384 == c <==> n % 256 == c && n / 256 % 64 == 0
  {
    var k, r := n / 16384, n % 16384;
    var h, l := r / 256, r % 256;
    assert n == (64 * k + h) * 256 + l;
    QuotientIs(n, 256, 64 * k + h, l);
    QuotientIs(64 * k + h, 64, k, h);
  }

  lemma QuotientIs(x: int, y: nat, q: int, r: nat)
    requires r < y && x == q * y + r
    ensures x / y == q && x % y == r
  {
    var d := x / y - q;
    assert d * y == r - x % y;
    if d >= 1 { MulMonotone(1, d, y); }
  }

  lemma Aliases(q: nat, m: nat)
    requires m <= 100
    ensures (25600 * q + m) % 65536 == 0 <==> m == 0 && q % 64 == 0
  {
    var k := (25600 * q + m) / 65536;
    if (25600 * q + m) % 65536 == 0 {
      assert m == 1024 * (64 * k - 25 * q);
      assert m == 0 && 25 * q == 64 * k;
      assert 25 * (q % 64) == 64 * (k - 25 * (q / 64));
    }
    if m == 0 && q % 64 == 0 {
      assert 25600 * q == 65536 * (25 * (q / 64));
    }
  }

  // ----- What a word says -----

  /** A command with its group, its claim to the axis words and its setting; or the value of a letter. */
  datatype Meaning =
    | Command(group: Group, axes: AxisCommand, setting: Option<int>)
    | Value(v: real)
    | Invalid(status: Status)

  function Whole(m: nat, group: Group, axes: AxisCommand, setting: int): Meaning {
    if m > 0 then Invalid(COMMAND_VALUE_NOT_INTEGER) else Command(group, axes, Some(setting))
  }

  function GAxes(c: nat, m: nat): AxisCommand {
    if c in {10, 28, 30, 92} then (if m == 0 then NonModalAxes else NoAxes)
    else if c in {0, 1, 2, 3, 38} then MotionAxes
    else if c in {43, 49} then ToolLengthAxes
    else NoAxes
  }

  function GMeaning(c: nat, m: nat): Meaning {
    var axes := GAxes(c, m);
    if c in {28, 30, 92} then
      if m == 0 || m == 10 then Command(NonModal, axes, Some(c + m)) else Invalid(UNSUPPORTED_COMMAND)
    else if c in {4, 10, 53} then Whole(m, NonModal, axes, c)
    else if c == 38 then
      if m in {20, 30, 40, 50} then Command(Motion, axes, Some(c + m / 10 + 100)) else Invalid(UNSUPPORTED_COMMAND)
    else if c in {0, 1, 2, 3, 80} then Whole(m, Motion, axes, c)
    else if c in {17, 18, 19} then Whole(m, Plane, axes, c - 17)
    else if c == 90 || c == 91 then
      if m == 0 then Command(Distance, axes, Some(c - 90))
      else if m == 10 && c == 91 then Command(ArcDistance, axes, None)
      else Invalid(UNSUPPORTED_COMMAND)
    else if c == 93 || c == 94 then Whole(m, FeedMode, axes, 94 - c)
    else if c == 20 || c == 21 then Whole(m, Units, axes, 21 - c)
    else if c == 40 then (if m > 0 then Invalid(COMMAND_VALUE_NOT_INTEGER) else Command(CutterComp, axes, None))
    else if c == 49 then Command(ToolLength, axes, Some(0))
    else if c == 43 then (if m == 10 then Command(ToolLength, axes, Some(1)) else Invalid(UNSUPPORTED_COMMAND))
    else if 54 <= c <= 59 then Whole(m, Coordinates, axes, c - 54)
    else if c == 61 then (if m == 0 then Command(Control, axes, None) else Invalid(UNSUPPORTED_COMMAND))
    else Invalid(UNSUPPORTED_COMMAND)
  }

  function MMeaning(c: nat, m: nat): Meaning {
    if m > 0 then Invalid(COMMAND_VALUE_NOT_INTEGER)
    else if c == 0 then Command(Stopping, NoAxes, Some(3))
    else if c == 1 then Command(Stopping, NoAxes, None)
    else if c == 2 || c == 30 then Command(Stopping, NoAxes, Some(c))
    else if c == 3 then Command(Spindle, NoAxes, Some(16))
    else if c == 4 then Command(Spindle, NoAxes, Some(32))
    else if c == 5 then Command(Spindle, NoAxes, Some(0))
    else if c == 8 then Command(Coolant, NoAxes, Some(64))
    else if c == 9 then Command(Coolant, NoAxes, Some(0))
    else Invalid(UNSUPPORTED_COMMAND)
  }

  const MAX_TOOL_NUMBER := 255.0
  const VALUE_LETTERS: set<char> := {'F', 'I', 'J', 'K', 'L', 'N', 'P', 'R', 'S', 'T', 'X', 'Y', 'Z'}
  const NEVER_NEGATIVE: set<char> := {'F', 'N', 'P', 'S', 'T'}

  function VMeaning(w: Word): Meaning {
    if w.letter !in VALUE_LETTERS then Invalid(UNSUPPORTED_COMMAND)
    else if w.letter == 'T' && w.value > MAX_TOOL_NUMBER then Invalid(MAX_VALUE_EXCEEDED)
    else if w.letter == 'T' || w.letter == 'L' then Value(Code(w.value) as real)
    else if w.letter == 'N' then Value(Trunc(w.value) as real)
    else Value(w.value)
  }

  // What the settings stand for.
  const INCHES := 1
  const MILLIMETERS := 0
  const INCREMENTAL := 1
  const ABSOLUTE := 0
  const INVERSE_TIME := 1
  const UNITS_PER_MIN := 0
  const XY := 0
  const ZX := 1
  const YZ := 2
  const CLOCKWISE := 16
  const COUNTERCLOCKWISE := 32
  const FLOOD := 64
  const OFF := 0
  const PAUSED := 3

  /** The G words that are commands, a number and its hundredths: motions. */
  lemma MotionWords()
    ensures GMeaning(0, 0) == Command(Motion, MotionAxes, Some(0))
            && GMeaning(1, 0) == Command(Motion, MotionAxes, Some(1))
    ensures GMeaning(2, 0) == Command(Motion, MotionAxes, Some(2))
            && GMeaning(3, 0) == Command(Motion, MotionAxes, Some(3))
    ensures GMeaning(38, 20) == Command(Motion, MotionAxes, Some(140))
    ensures GMeaning(38, 30) == Command(Motion, MotionAxes, Some(141))
    ensures GMeaning(38, 40) == Command(Motion, MotionAxes, Some(142))
    ensures GMeaning(38, 50) == Command(Motion, MotionAxes, Some(143))
    ensures GMeaning(80, 0) == Command(Motion, NoAxes, Some(80))
  {
  }

  /** Actions of one line. */
  lemma NonModalWords()
    ensures GMeaning(4, 0) == Command(NonModal, NoAxes, Some(4))
            && GMeaning(53, 0) == Command(NonModal, NoAxes, Some(53))
    ensures GMeaning(10, 0) == Command(NonModal, NonModalAxes, Some(10))
    ensures GMeaning(28, 0) == Command(NonModal, NonModalAxes, Some(28))
    ensures GMeaning(28, 10) == Command(NonModal, NoAxes, Some(38))
    ensures GMeaning(30, 0) == Command(NonModal, NonModalAxes, Some(30))
    ensures GMeaning(30, 10) == Command(NonModal, NoAxes, Some(40))
    ensures GMeaning(92, 0) == Command(NonModal, NonModalAxes, Some(92))
    ensures GMeaning(92, 10) == Command(NonModal, NoAxes, Some(102))
  {
  }

  /** Modes. */
  lemma ModeWords()
    ensures GMeaning(17, 0) == Command(Plane, NoAxes, Some(XY)) && GMeaning(18, 0) == Command(Plane, NoAxes, Some(ZX))
    ensures GMeaning(19, 0) == Command(Plane, NoAxes, Some(YZ))
    ensures GMeaning(20, 0) == Command(Units, NoAxes, Some(INCHES))
    ensures GMeaning(21, 0) == Command(Units, NoAxes, Some(MILLIMETERS))
    ensures GMeaning(90, 0) == Command(Distance, NoAxes, Some(ABSOLUTE))
    ensures GMeaning(91, 0) == Command(Distance, NoAxes, Some(INCREMENTAL))
    ensures GMeaning(91, 10) == Command(ArcDistance, NoAxes, None)
    ensures GMeaning(93, 0) == Command(FeedMode, NoAxes, Some(INVERSE_TIME))
    ensures GMeaning(94, 0) == Command(FeedMode, NoAxes, Some(UNITS_PER_MIN))
  {
  }

  /** Compensation, path control and coordinate systems. */
  lemma SystemWords()
    ensures GMeaning(40, 0) == Command(CutterComp, NoAxes, None) && GMeaning(61, 0) == Command(Control, NoAxes, None)
    ensures GMeaning(43, 10) == Command(ToolLength, ToolLengthAxes, Some(1))
    ensures forall m :: GMeaning(49, m) == Command(ToolLength, ToolLengthAxes, Some(0))
    ensures GMeaning(54, 0) == Command(Coordinates, NoAxes, Some(0))
            && GMeaning(55, 0) == Command(Coordinates, NoAxes, Some(1))
    ensures GMeaning(56, 0) == Command(Coordinates, NoAxes, Some(2))
            && GMeaning(57, 0) == Command(Coordinates, NoAxes, Some(3))
    ensures GMeaning(58, 0) == Command(Coordinates, NoAxes, Some(4))
            && GMeaning(59, 0) == Command(Coordinates, NoAxes, Some(5))
  {
  }

  const WHOLE_COMMANDS: set<nat> :=
    {0, 1, 2, 3, 4, 10, 17, 18, 19, 20, 21, 28, 30, 40, 53, 54, 55, 56, 57, 58, 59, 61, 80, 90, 91, 92, 93, 94}

  /** There are no others; and a fraction where none belongs is told from an unknown number. */
  lemma NoOtherGWords(c: nat, m: nat)
    ensures GMeaning(c, m).Command? <==>
              || (m == 0 && c in WHOLE_COMMANDS)
              || (m == 10 && c in {28, 30, 43, 91, 92})
              || (c == 38 && m in {20, 30, 40, 50})
              || c == 49
    ensures GMeaning(c, m) == Invalid(COMMAND_VALUE_NOT_INTEGER) <==>
              m > 0 && c in WHOLE_COMMANDS - {28, 30, 61, 90, 91, 92}
    ensures !GMeaning(c, m).Value?
  {
  }

  /** The M words. */
  lemma MWords(c: nat, m: nat)
    ensures MMeaning(0, 0) == Command(Stopping, NoAxes, Some(PAUSED))
            && MMeaning(1, 0) == Command(Stopping, NoAxes, None)
    ensures MMeaning(2, 0) == Command(Stopping, NoAxes, Some(2))
            && MMeaning(30, 0) == Command(Stopping, NoAxes, Some(30))
    ensures MMeaning(3, 0) == Command(Spindle, NoAxes, Some(CLOCKWISE))
    ensures MMeaning(4, 0) == Command(Spindle, NoAxes, Some(COUNTERCLOCKWISE))
    ensures MMeaning(5, 0) == Command(Spindle, NoAxes, Some(OFF))
    ensures MMeaning(8, 0) == Command(Coolant, NoAxes, Some(FLOOD))
            && MMeaning(9, 0) == Command(Coolant, NoAxes, Some(OFF))
    ensures MMeaning(c, m).Command? <==> m == 0 && c in {0, 1, 2, 3, 4, 5, 8, 9, 30}
    ensures MMeaning(c, m) == Invalid(COMMAND_VALUE_NOT_INTEGER) <==> m > 0
  {
  }

  /** The value words: tool and L numbers keep eight bits of their whole part, a line number its whole part; some
      must not be negative. */
  lemma ValueWords(letter: char, value: real)
    ensures Supported(Word(letter, value)) && letter != 'G' && letter != 'M' <==>
              letter in "FIJKLNPRSTXYZ" && (letter in "FNPST" ==> value >= 0.0) && (letter == 'T' ==> value <= 255.0)
    ensures var v := VMeaning(Word(letter, value));
            && (v.Value? <==> letter in "FIJKLNPRSTXYZ" && (letter == 'T' ==> value <= 255.0))
            && (letter == 'T' && value > 255.0 ==> v == Invalid(MAX_VALUE_EXCEEDED))
            && (letter in "FIJKPRSXYZ" ==> v == Value(value))
            && (letter == 'N' ==> v == Value(Trunc(value) as real))
            && ((letter == 'L' || letter == 'T') && 0.0 <= value <= 255.0 ==> v == Value(value.Floor as real))
  {
    hide Mantissa;
  }

  function Says(w: Word): Meaning {
    if w.letter == 'G' then GMeaning(Code(w.value), Mantissa(w.value))
    else if w.letter == 'M' then MMeaning(Code(w.value), Mantissa(w.value))
    else VMeaning(w)
  }

  /** The claim to the axis words is looked at before anything else of the word. */
  function Claim(w: Word): AxisCommand {
    if w.letter == 'G' then GAxes(Code(w.value), Mantissa(w.value)) else NoAxes
  }

  // ----- The loop -----

  /** gc_block with the tracking variables: settings by modal group, values by letter. */
  datatype Block = Block(modal: map<Group, int>, values: map<char, real>, commandWords: set<Group>,
                         valueWords: set<char>, axisCommand: AxisCommand)

  datatype Result = Ok(block: Block) | Fail(status: Status)

  function Take(b: Block, w: Word): Result {
    if Claim(w) != NoAxes && b.axisCommand != NoAxes then Fail(AXIS_COMMAND_CONFLICT)
    else
      match Says(w)
      case Invalid(status) => Fail(status)
      case Command(group, axes, setting) =>
        if group in b.commandWords then Fail(MODAL_GROUP_VIOLATION)
        else Ok(b.(commandWords := b.commandWords + {group},
                   axisCommand := if axes != NoAxes then axes else b.axisCommand,
                   modal := if setting.Some? then b.modal[group := setting.value] else b.modal))
      case Value(v) =>
        if w.letter in b.valueWords then Fail(WORD_REPEATED)
        else if w.letter in NEVER_NEGATIVE && w.value < 0.0 then Fail(NEGATIVE_VALUE)
        else Ok(b.(valueWords := b.valueWords + {w.letter}, values := b.values[w.letter := v]))
  }

  function TakeAll(b: Block, ws: seq<Word>): Result
    decreases |ws|
  {
    if ws == [] then Ok(b)
    else match Take(b, ws[0]) case Fail(status) => Fail(status) case Ok(c) => TakeAll(c, ws[1..])
  }

  /** The loop on the text of a line, from position p on. */
  function TakeText(b: Block, line: string, p: nat): Result
    requires Terminated(line) && p < |line|
    decreases |line| - p
  {
    if line[p] == '\0' then Ok(b)
    else if !('A' <= line[p] <= 'Z') then Fail(EXPECTED_COMMAND_LETTER)
    else
      match Read(line, p + 1)
      case NoNumber => Fail(BAD_NUMBER_FORMAT)
      case Number(value, next) =>
        match Take(b, Word(line[p], value))
        case Fail(status) => Fail(status)
        case Ok(c) => TakeText(c, line, next)
  }

  /** The block before the first word: the modes of the parser; a jog has its own motion and feed mode. */
  function Fresh(modal: map<Group, int>, jog: bool): Block {
    Block(if jog then modal[Motion := 1][FeedMode := 0] else modal, map[], {}, {}, NoAxes)
  }

  predicate Line(line: string) {
    Terminated(line) && (line[0] == '$' ==> |line| > 3)
  }

  function Parsed(modal: map<Group, int>, line: string): Result
    requires Line(line)
  {
    var jog := line[0] == '$';
    TakeText(Fresh(modal, jog), line, if jog then 3 else 0)
  }

  class WordParser {
    var modal: map<Group, int>
    var values: map<char, real>
    var commandWords: set<Group>
    var valueWords: set<char>
    var axisCommand: AxisCommand

    ghost function Now(): Block
      reads this
    {
      Block(modal, values, commandWords, valueWords, axisCommand)
    }

    constructor ()
    {
      modal, values, commandWords, valueWords, axisCommand := map[], map[], {}, {}, NoAxes;
    }

    /** The switch on the letter of a word. */
    method Import(w: Word) returns (failed: Option<Status>)
      modifies this
      ensures match Take(old(Now()), w)
              case Ok(b) => failed == None && Now() == b
              case Fail(status) => failed == Some(status)
    {
      var intValue, mantissa := Code(w.value), Mantissa(w.value);
      if w.letter == 'G' {
        failed := ImportG(w, intValue, mantissa);
      } else if w.letter == 'M' {
        failed := ImportM(w, intValue, mantissa);
      } else {
        failed := ImportValue(w, intValue);
      }
    }

    /** The switch on the number of a G word: first what lays claim to the axis words. */
    method ImportG(ghost w: Word, intValue: nat, mantissa: nat) returns (failed: Option<Status>)
      requires w.letter == 'G' && intValue == Code(w.value) && mantissa == Mantissa(w.value)
      modifies this
      ensures match Take(old(Now()), w)
              case Ok(b) => failed == None && Now() == b
              case Fail(status) => failed == Some(status)
    {
      hide Code, Mantissa;
      ghost var b := Now();
      if intValue in {10, 28, 30, 92} && mantissa == 0 {
        if axisCommand != NoAxes { return Some(AXIS_COMMAND_CONFLICT); }
        axisCommand := NonModalAxes;
      }
      if intValue in {0, 1, 2, 3, 38} {
        if axisCommand != NoAxes { return Some(AXIS_COMMAND_CONFLICT); }
        axisCommand := MotionAxes;
      }
      if intValue in {43, 49} {
        if axisCommand != NoAxes { return Some(AXIS_COMMAND_CONFLICT); }
        axisCommand := ToolLengthAxes;
      }
      failed := SetG(w, intValue, mantissa, b);
    }

    /** Then the modal group and its setting. */
    method SetG(ghost w: Word, intValue: nat, mantissa: nat, ghost b: Block) returns (failed: Option<Status>)
      requires w.letter == 'G' && intValue == Code(w.value) && mantissa == Mantissa(w.value)
      requires Now() == b.(axisCommand := if Claim(w) != NoAxes then Claim(w) else b.axisCommand)
      requires Claim(w) != NoAxes ==> b.axisCommand == NoAxes
      modifies this
      ensures match Take(b, w)
              case Ok(c) => failed == None && Now() == c
              case Fail(status) => failed == Some(status)
    {
      hide Code, Mantissa, GMeaning, GAxes;
      var wordBit, rest;
      wordBit, rest, failed := SetMode(intValue, mantissa);
      if failed != None { return; }
      if rest > 0 { return Some(COMMAND_VALUE_NOT_INTEGER); }
      if wordBit in commandWords { return Some(MODAL_GROUP_VIOLATION); }
      commandWords := commandWords + {wordBit};
      return None;
    }

    /** The modal group of a G command, its setting, and what is left of the mantissa. */
    method SetMode(intValue: nat, mantissa: nat) returns (wordBit: Group, rest: nat, failed: Option<Status>)
      modifies this`modal
      ensures match GMeaning(intValue, mantissa)
              case Command(group, axes, setting) =>
                && failed == None && wordBit == group && rest == 0 && axes == GAxes(intValue, mantissa)
                && modal == if setting.Some? then old(modal)[group := setting.value] else old(modal)
              case Invalid(status) =>
                if failed == None then rest > 0 && status == COMMAND_VALUE_NOT_INTEGER else failed == Some(status)
              case Value(_) => false
    {
      hide GAxes;
      rest, failed, wordBit := mantissa, None, Control;
      if intValue in {4, 10, 28, 30, 53, 92} {
        wordBit := NonModal;
        modal := modal[NonModal := intValue];
        if intValue in {28, 30, 92} {
          if !(rest == 0 || rest == 10) { return wordBit, rest, Some(UNSUPPORTED_COMMAND); }
          modal := modal[NonModal := intValue + rest];
          rest := 0;
        }
      } else if intValue in {0, 1, 2, 3, 38, 80} {
        wordBit := Motion;
        modal := modal[Motion := intValue];
        if intValue == 38 {
          if rest !in {20, 30, 40, 50} { return wordBit, rest, Some(UNSUPPORTED_COMMAND); }
          modal := modal[Motion := intValue + rest / 10 + 100];
          rest := 0;
        }
      } else if intValue in {17, 18, 19} {
        wordBit := Plane;
        modal := modal[Plane := intValue - 17];
      } else if intValue in {90, 91} {
        if rest == 0 {
          wordBit := Distance;
          modal := modal[Distance := intValue - 90];
        } else {
          wordBit := ArcDistance;
          if rest != 10 || intValue == 90 { return wordBit, rest, Some(UNSUPPORTED_COMMAND); }
          rest := 0;
        }
      } else if intValue in {93, 94} {
        wordBit := FeedMode;
        modal := modal[FeedMode := 94 - intValue];
      } else if intValue in {20, 21} {
        wordBit := Units;
        modal := modal[Units := 21 - intValue];
      } else if intValue == 40 {
        wordBit := CutterComp;
      } else if intValue in {43, 49} {
        wordBit := ToolLength;
        if intValue == 49 {
          modal := modal[ToolLength := 0];
        } else if rest == 10 {
          modal := modal[ToolLength := 1];
        } else {
          return wordBit, rest, Some(UNSUPPORTED_COMMAND);
        }
        rest := 0;
      } else if intValue in {54, 55, 56, 57, 58, 59} {
        wordBit := Coordinates;
        modal := modal[Coordinates := intValue - 54];
      } else if intValue == 61 {
        wordBit := Control;
        if rest != 0 { return wordBit, rest, Some(UNSUPPORTED_COMMAND); }
      } else {
        return wordBit, rest, Some(UNSUPPORTED_COMMAND);
      }
    }

    /** The switch on the number of an M word. */
    method ImportM(ghost w: Word, intValue: nat, mantissa: nat) returns (failed: Option<Status>)
      requires w.letter == 'M' && intValue == Code(w.value) && mantissa == Mantissa(w.value)
      modifies this
      ensures match Take(old(Now()), w)
              case Ok(b) => failed == None && Now() == b
              case Fail(status) => failed == Some(status)
    {
      hide Code, Mantissa;
      if mantissa > 0 { return Some(COMMAND_VALUE_NOT_INTEGER); }
      var wordBit: Group;
      if intValue in {0, 1, 2, 30} {
        wordBit := Stopping;
        if intValue == 0 {
          modal := modal[Stopping := 3];
        } else if intValue != 1 {
          modal := modal[Stopping := intValue];
        }
      } else if intValue in {3, 4, 5} {
        wordBit := Spindle;
        modal := modal[Spindle := if intValue == 3 then 16 else if intValue == 4 then 32 else 0];
      } else if intValue in {8, 9} {
        wordBit := Coolant;
        modal := modal[Coolant := if intValue == 8 then 64 else 0];
      } else {
        return Some(UNSUPPORTED_COMMAND);
      }
      if wordBit in commandWords { return Some(MODAL_GROUP_VIOLATION); }
      commandWords := commandWords + {wordBit};
      return None;
    }

    /** All other letters assign values. */
    method ImportValue(w: Word, intValue: nat) returns (failed: Option<Status>)
      requires w.letter != 'G' && w.letter != 'M' && intValue == Code(w.value)
      modifies this
      ensures match Take(old(Now()), w)
              case Ok(b) => failed == None && Now() == b
              case Fail(status) => failed == Some(status)
    {
      hide Code, Trunc;
      if w.letter in {'F', 'I', 'J', 'K', 'P', 'R', 'S', 'X', 'Y', 'Z'} {
        values := values[w.letter := w.value];
      } else if w.letter == 'L' {
        values := values['L' := intValue as real];
      } else if w.letter == 'N' {
        values := values['N' := Trunc(w.value) as real];
      } else if w.letter == 'T' {
        if w.value > MAX_TOOL_NUMBER { return Some(MAX_VALUE_EXCEEDED); }
        values := values['T' := intValue as real];
      } else {
        return Some(UNSUPPORTED_COMMAND);
      }
      if w.letter in valueWords { return Some(WORD_REPEATED); }
      if w.letter in {'F', 'N', 'P', 'S', 'T'} && w.value < 0.0 { return Some(NEGATIVE_VALUE); }
      valueWords := valueWords + {w.letter};
      return None;
    }

    /** STEP 1 and STEP 2 of gc_execute_line. */
    method ImportLine(state: map<Group, int>, line: string) returns (failed: Option<Status>)
      requires Line(line)
      modifies this
      ensures match Parsed(state, line)
              case Ok(b) => failed == None && Now() == b
              case Fail(status) => failed == Some(status)
    {
      modal, values, commandWords, valueWords, axisCommand := state, map[], {}, {}, NoAxes;
      var charCounter := 0;
      if line[0] == '$' {
        modal := modal[Motion := 1];
        modal := modal[FeedMode := 0];
        charCounter := 3;
      }
      while line[charCounter] != '\0'
        invariant 0 <= charCounter < |line|
        invariant TakeText(Now(), line, charCounter) == Parsed(state, line)
        decreases |line| - charCounter
      {
        var letter := line[charCounter];
        if letter < 'A' || letter > 'Z' { return Some(EXPECTED_COMMAND_LETTER); }
        charCounter := charCounter + 1;
        var reading := ReadFloat(line, charCounter);
        if reading.NoNumber? { return Some(BAD_NUMBER_FORMAT); }
        charCounter := reading.next;
        failed := Import(Word(letter, reading.value));
        if failed != None { return; }
      }
      return None;
    }
  }

  // ----- Which lines are accepted -----

  predicate Supported(w: Word) {
    !Says(w).Invalid? && !(Says(w).Value? && w.letter in NEVER_NEGATIVE && w.value < 0.0)
  }

  /** Two words that must not be on one line. */
  predicate Clash(v: Word, w: Word) {
    || (Says(v).Command? && Says(w).Command?
        && (Says(v).group == Says(w).group || (Claim(v) != NoAxes && Claim(w) != NoAxes)))
    || (Says(v).Value? && Says(w).Value? && v.letter == w.letter)
  }

  ghost predicate Compatible(ws: multiset<Word>) {
    && (forall w :: w in ws ==> Supported(w) && ws[w] == 1)
    && (forall v, w :: v in ws && w in ws && v != w ==> !Clash(v, w))
  }

  /** The block b holds exactly what the words ws say, over the block b0. */
  ghost predicate Holds(b: Block, b0: Block, ws: multiset<Word>) {
    HoldsCommands(b, b0, ws) && HoldsValues(b, b0, ws) && HoldsClaim(b, b0, ws)
  }

  ghost predicate HoldsCommands(b: Block, b0: Block, ws: multiset<Word>) {
    && (forall w :: w in ws && Says(w).Command? ==> Says(w).group in b.commandWords)
    && (forall g :: g in b.commandWords ==> exists w :: w in ws && Sets(w, g))
    && (forall w, g :: w in ws && Sets(w, g) ==>
          if Says(w).setting.Some? then g in b.modal && b.modal[g] == Says(w).setting.value
          else Same(b.modal, b0.modal, g))
    && (forall g :: g !in b.commandWords ==> Same(b.modal, b0.modal, g))
  }

  ghost predicate HoldsValues(b: Block, b0: Block, ws: multiset<Word>) {
    && (forall w :: w in ws && Says(w).Value? ==> w.letter in b.valueWords)
    && (forall c :: c in b.valueWords ==> exists w :: w in ws && Gives(w, c))
    && (forall w, c :: w in ws && Gives(w, c) ==> c in b.values && b.values[c] == Says(w).v)
    && (forall c :: c !in b.valueWords ==> Same(b.values, b0.values, c))
  }

  ghost predicate HoldsClaim(b: Block, b0: Block, ws: multiset<Word>) {
    && (forall w :: w in ws && Claim(w) != NoAxes ==> b.axisCommand == Claim(w))
    && (b.axisCommand != b0.axisCommand ==> exists w :: w in ws && Claim(w) != NoAxes)
  }

  predicate Sets(w: Word, g: Group) {
    Says(w).Command? && Says(w).group == g
  }

  predicate Gives(w: Word, c: char) {
    Says(w).Value? && w.letter == c
  }

  ghost predicate Same<K, V>(m: map<K, V>, n: map<K, V>, k: K) {
    (k in m <==> k in n) && (k in m ==> m[k] == n[k])
  }

  lemma ClaimOfWord(w: Word)
    ensures Says(w).Command? ==> Says(w).axes == Claim(w)
    ensures Says(w).Value? ==> Claim(w) == NoAxes
  {
  }

  /** A further word is accepted exactly when it is compatible with those before it. */
  lemma TakeIff(b: Block, b0: Block, ws: multiset<Word>, w: Word)
    requires Compatible(ws) && Holds(b, b0, ws) && b0.axisCommand == NoAxes
    ensures Take(b, w).Ok? <==> Compatible(ws + multiset{w})
  {
    hide Says, Claim, Take, Holds, Compatible, Clash, Supported;
    if Take(b, w).Ok? {
      TakenIsCompatible(b, b0, ws, w);
    } else if Supported(w) {
      var v := Opponent(b, b0, ws, w);
      Excluded(ws, v, w);
    } else if Compatible(ws + multiset{w}) {
      NeedsSupport(ws + multiset{w}, w);
    }
  }

  lemma Excluded(ws: multiset<Word>, v: Word, w: Word)
    requires v in ws && Clash(v, w)
    ensures !Compatible(ws + multiset{w})
  {
    hide Clash, Supported;
    var all := ws + multiset{w};
    assert v in all && w in all;
    if v == w {
      assert all[w] >= 2;
    }
  }

  lemma NeedsSupport(ws: multiset<Word>, w: Word)
    requires Compatible(ws) && w in ws
    ensures Supported(w)
  {
    hide Clash, Supported;
  }

  lemma TakenIsCompatible(b: Block, b0: Block, ws: multiset<Word>, w: Word)
    requires Compatible(ws) && Holds(b, b0, ws) && b0.axisCommand == NoAxes && Take(b, w).Ok?
    ensures Compatible(ws + multiset{w})
  {
    hide Says, Claim;
    forall v | v in ws ensures !Clash(v, w) && !Clash(w, v) && v != w {
      NoClash(b, b0, ws, w, v);
    }
    assert Supported(w);
  }

  lemma NoClash(b: Block, b0: Block, ws: multiset<Word>, w: Word, v: Word)
    requires Holds(b, b0, ws) && b0.axisCommand == NoAxes && Take(b, w).Ok? && v in ws
    ensures !Clash(v, w) && !Clash(w, v) && v != w
  {
    hide Says, Claim;
    ClaimOfWord(w);
    ClaimOfWord(v);
    if Says(v).Command? {
      assert Sets(v, Says(v).group);
    } else if Says(v).Value? {
      assert Gives(v, v.letter);
    }
  }

  /** A word already there that forbids w. */
  lemma Opponent(b: Block, b0: Block, ws: multiset<Word>, w: Word) returns (v: Word)
    requires Compatible(ws) && Holds(b, b0, ws) && b0.axisCommand == NoAxes && Supported(w) && !Take(b, w).Ok?
    ensures v in ws && Clash(v, w)
  {
    hide Says, Claim;
    ClaimOfWord(w);
    if Claim(w) != NoAxes && b.axisCommand != NoAxes {
      v :| v in ws && Claim(v) != NoAxes;
      ClaimOfWord(v);
    } else if Says(w).Command? {
      v :| v in ws && Sets(v, Says(w).group);
    } else {
      v :| v in ws && Gives(v, w.letter);
    }
  }

  /** Taking a word adds what it says. */
  lemma TakeHolds(b: Block, b0: Block, ws: multiset<Word>, w: Word)
    requires Holds(b, b0, ws) && b0.axisCommand == NoAxes && Take(b, w).Ok?
    ensures Holds(Take(b, w).block, b0, ws + multiset{w})
  {
    hide Says, Claim;
    ClaimOfWord(w);
    TakeHoldsCommands(b, b0, ws, w);
    TakeHoldsValues(b, b0, ws, w);
    hide HoldsCommands, HoldsValues;
    assert w in ws + multiset{w};
  }

  lemma TakeHoldsCommands(b: Block, b0: Block, ws: multiset<Word>, w: Word)
    requires HoldsCommands(b, b0, ws) && Take(b, w).Ok?
    ensures HoldsCommands(Take(b, w).block, b0, ws + multiset{w})
  {
    hide Says, Claim;
    assert w in ws + multiset{w};
  }

  lemma TakeHoldsValues(b: Block, b0: Block, ws: multiset<Word>, w: Word)
    requires HoldsValues(b, b0, ws) && Take(b, w).Ok?
    ensures HoldsValues(Take(b, w).block, b0, ws + multiset{w})
  {
    hide Says, Claim;
    assert w in ws + multiset{w};
  }

  /** From any point of the loop on: accepted exactly when all words are compatible. */
  lemma {:induction false} TakeAllFrom(b: Block, b0: Block, seen: multiset<Word>, ws: seq<Word>)
    requires Compatible(seen) && Holds(b, b0, seen) && b0.axisCommand == NoAxes
    ensures TakeAll(b, ws).Ok? <==> Compatible(seen + multiset(ws))
    ensures TakeAll(b, ws).Ok? ==> Holds(TakeAll(b, ws).block, b0, seen + multiset(ws))
    decreases |ws|
  {
    hide Says, Claim, Take, Holds;
    if ws == [] {
      assert seen + multiset(ws) == seen;
    } else {
      var w := ws[0];
      assert ws == [w] + ws[1..];
      assert seen + multiset(ws) == seen + multiset{w} + multiset(ws[1..]);
      TakeIff(b, b0, seen, w);
      if Take(b, w).Ok? {
        TakeHolds(b, b0, seen, w);
        TakeAllFrom(Take(b, w).block, b0, seen + multiset{w}, ws[1..]);
      } else if Compatible(seen + multiset(ws)) {
        FewerWords(seen + multiset{w}, multiset(ws[1..]));
      }
    }
  }

  lemma FewerWords(ws: multiset<Word>, more: multiset<Word>)
    requires Compatible(ws + more)
    ensures Compatible(ws)
  {
    hide Says, Claim;
    forall w | w in ws ensures Supported(w) && ws[w] == 1 {
      assert w in ws + more;
    }
    forall v, w | v in ws && w in ws && v != w ensures !Clash(v, w) {
      assert v in ws + more && w in ws + more;
    }
  }

  /**
   * The word loop accepts a line exactly when every word is supported by itself and no two of them
   * exclude each other; the block then holds what each word says and is otherwise as it was.
   */
  lemma AcceptedIff(modal: map<Group, int>, jog: bool, ws: seq<Word>)
    ensures var r := TakeAll(Fresh(modal, jog), ws);
            && (r.Ok? <==> Compatible(multiset(ws)))
            && (r.Ok? ==> Holds(r.block, Fresh(modal, jog), multiset(ws)))
  {
    hide Says, Claim;
    var b := Fresh(modal, jog);
    assert multiset{} + multiset(ws) == multiset(ws);
    TakeAllFrom(b, b, multiset{}, ws);
  }

  lemma EqualMaps<K(!new), V>(m: map<K, V>, n: map<K, V>)
    requires forall k :: Same(m, n, k)
    ensures m == n
  {
    forall k ensures k in m <==> k in n {
      assert Same(m, n, k);
    }
    assert m.Keys == n.Keys;
    forall k | k in m ensures m[k] == n[k] {
      assert Same(m, n, k);
    }
  }

  /** There is only one block that holds what given words say. */
  lemma HeldBlock(b: Block, c: Block, b0: Block, ws: multiset<Word>)
    requires Holds(b, b0, ws) && Holds(c, b0, ws)
    ensures b == c
  {
    hide Says, Claim;
    assert b.commandWords == c.commandWords;
    assert b.valueWords == c.valueWords;
    forall g: Group ensures Same(b.modal, c.modal, g) {
      if g in b.commandWords {
        var w :| w in ws && Sets(w, g);
      }
    }
    EqualMaps(b.modal, c.modal);
    forall l: char ensures Same(b.values, c.values, l) {
      if l in b.valueWords {
        var w :| w in ws && Gives(w, l);
      }
    }
    EqualMaps(b.values, c.values);
  }

  /** The order of the words on a line does not matter: neither for whether it is accepted nor for the block. */
  lemma OrderDoesNotMatter(modal: map<Group, int>, jog: bool, ws: seq<Word>, vs: seq<Word>)
    requires multiset(ws) == multiset(vs)
    ensures var b := Fresh(modal, jog);
            && (TakeAll(b, ws).Ok? <==> TakeAll(b, vs).Ok?)
            && (TakeAll(b, ws).Ok? ==> TakeAll(b, ws) == TakeAll(b, vs))
  {
    hide Says, Claim, Holds, Take, Fresh;
    AcceptedIff(modal, jog, ws);
    AcceptedIff(modal, jog, vs);
    var b := Fresh(modal, jog);
    if TakeAll(b, ws).Ok? {
      HeldBlock(TakeAll(b, ws).block, TakeAll(b, vs).block, b, multiset(ws));
    }
  }

  // ----- From the text -----

  datatype TextWord = TextWord(letter: char, number: Numeral) {
    predicate Ok() {
      'A' <= letter <= 'Z' && number.Ok() && number.Digits() != ""
    }

    function Text(): string {
      [letter] + number.Text()
    }

    function Meant(): Word
      requires Ok()
    {
      Word(letter, number.Negated(Numbers.Kept(number.Digits()) as real / Pow10(|number.fraction|) as real))
    }
  }

  function TextOf(ws: seq<TextWord>): string {
    if ws == [] then "" else ws[0].Text() + TextOf(ws[1..])
  }

  function MeantBy(ws: seq<TextWord>): (r: seq<Word>)
    requires forall i | 0 <= i < |ws| :: ws[i].Ok()
    ensures |r| == |ws|
  {
    seq(|ws|, i requires 0 <= i < |ws| => ws[i].Meant())
  }

  /** What follows the last word: the terminating zero, whatever lies behind it. */
  predicate Ends(end: string) {
    Terminated(end) && end[0] == '\0'
  }

  /** Reading the text of words takes these words. */
  lemma {:induction false} TextIsWords(b: Block, before: string, ws: seq<TextWord>, end: string)
    requires (forall i | 0 <= i < |ws| :: ws[i].Ok()) && Ends(end)
    ensures var line := before + TextOf(ws) + end;
            Terminated(line) && |before| < |line| && TakeText(b, line, |before|) == TakeAll(b, MeantBy(ws))
    decreases |ws|
  {
    hide Take, Read, Numbers.Kept, Num, Pow10, Numeral.Text, TextWord.Text, Stops, TextOf;
    var line := before + TextOf(ws) + end;
    assert line[|line| - 1] == end[|end| - 1];
    if ws == [] {
      NoText();
      assert line[|before|] == end[0];
    } else {
      var w := ws[0];
      var rest := TextOf(ws[1..]) + end;
      SplitText(before, ws, end);
      RestStops(w, ws[1..], end);
      ReadsNumeral(before + [w.letter], w.number, rest);
      assert MeantBy(ws) == [w.Meant()] + MeantBy(ws[1..]);
      var r := Take(b, w.Meant());
      if r.Ok? {
        TextIsWords(r.block, before + w.Text(), ws[1..], end);
      }
    }
  }

  lemma NoText()
    ensures TextOf([]) == ""
  {
  }

  /** The line seen from its first word, and from behind that. */
  lemma SplitText(before: string, ws: seq<TextWord>, end: string)
    requires ws != []
    ensures var line := before + TextOf(ws) + end;
            var w, rest := ws[0], TextOf(ws[1..]) + end;
            && line == (before + [w.letter]) + w.number.Text() + rest
            && line == (before + w.Text()) + TextOf(ws[1..]) + end
            && line[|before|] == w.letter
            && before + w.Text() == before + [w.letter] + w.number.Text()
  {
    hide Numeral.Text;
    Regroup(before, ws[0].letter, ws[0].number.Text(), TextOf(ws[1..]), end);
  }

  lemma Regroup(before: string, letter: char, number: string, more: string, end: string)
    ensures var line := before + ([letter] + number + more) + end;
            && line == (before + [letter]) + number + (more + end)
            && line == (before + ([letter] + number)) + more + end
            && line[|before|] == letter && before + ([letter] + number) == before + [letter] + number
  {
    var line := before + ([letter] + number + more) + end;
    assert line == (before + [letter]) + number + (more + end);
    assert line == (before + ([letter] + number)) + more + end;
  }

  lemma RestStops(w: TextWord, more: seq<TextWord>, end: string)
    requires w.Ok() && (forall i | 0 <= i < |more| :: more[i].Ok()) && Ends(end)
    ensures Stops(w.number, TextOf(more) + end)
  {
    var rest := TextOf(more) + end;
    assert rest[|rest| - 1] == end[|end| - 1];
    if more != [] {
      assert rest[0] == more[0].letter;
    }
    assert w.number.Text() != "" by { assert |w.number.Digits()| > 0; }
  }

  // ----- To the text -----

  /** The first character from p on that is not a digit. */
  function DigitsEnd(line: string, p: nat): (q: nat)
    requires Terminated(line) && p < |line|
    ensures p <= q < |line| && !IsDigit(line[q]) && AllDigits(line[p..q])
    decreases |line| - p
  {
    if IsDigit(line[p]) then
      var q := DigitsEnd(line, p + 1);
      assert line[p..q] == [line[p]] + line[p + 1..q];
      q
    else p
  }

  /** Where a number has been read there stands a numeral, which nothing behind it continues. */
  lemma NumeralAt(line: string, at: nat) returns (numeral: Numeral, next: nat)
    requires Terminated(line) && at < |line|
    ensures numeral.Ok() && at <= next < |line| && line[at..next] == numeral.Text() && Stops(numeral, line[next..])
  {
    hide DigitsEnd, AllDigits, IsDigit, Numeral.Text;
    var start := if line[at] == '-' || line[at] == '+' then at + 1 else at;
    var q := DigitsEnd(line, start);
    var point := line[q] == '.';
    next := if point then DigitsEnd(line, q + 1) else q;
    numeral := Numeral(line[at..start], line[start..q], point, if point then line[q + 1..next] else "");
    assert numeral.sign == "" || numeral.sign == "-" || numeral.sign == "+";
    assert AllDigits(numeral.fraction) by { if !point { NoFraction(); } }
    TextThere(line, at, start, numeral, q, next);
    StopsThere(line, at, start, numeral, q, next);
  }

  lemma NoFraction()
    ensures AllDigits("")
  {
  }

  lemma TextThere(line: string, at: nat, start: nat, numeral: Numeral, q: nat, next: nat)
    requires at <= start <= q <= next < |line| && (line[q] == '.' <==> q < next)
    requires numeral == Numeral(line[at..start], line[start..q], line[q] == '.',
                                if line[q] == '.' then line[q + 1..next] else "")
    ensures numeral.Text() == line[at..next]
  {
    Pieces(line, at, start, q, next);
  }

  lemma StopsThere(line: string, at: nat, start: nat, numeral: Numeral, q: nat, next: nat)
    requires Terminated(line) && at <= start <= q <= next < |line| && !IsDigit(line[next])
    requires numeral.point == (line[q] == '.') && (!numeral.point ==> next == q)
    requires numeral.Text() == line[at..next] && (start == at <==> line[at] != '-' && line[at] != '+')
    ensures Stops(numeral, line[next..])
  {
    hide Numeral.Text;
  }

  lemma Pieces(line: string, at: nat, start: nat, q: nat, next: nat)
    requires at <= start <= q <= next < |line| && (q < next ==> line[q] == '.')
    ensures line[at..next] == line[at..start] + line[start..q] + (if q < next then "." + line[q + 1..next] else "")
  {
    if q < next {
      assert line[q..next] == "." + line[q + 1..next];
    }
  }

  lemma ReadAt(line: string, at: nat, numeral: Numeral, next: nat)
    requires Terminated(line) && at <= next < |line| && numeral.Ok()
    requires line[at..next] == numeral.Text() && Stops(numeral, line[next..]) && Read(line, at).Number?
    ensures numeral.Digits() != "" && Read(line, at).next == next
    ensures forall letter | 'A' <= letter <= 'Z' ::
              TextWord(letter, numeral).Ok() && TextWord(letter, numeral).Meant() == Word(letter, Read(line, at).value)
  {
    hide Read, Numbers.Kept, Num, Pow10, Numeral.Text, Stops;
    assert line[..at] + line[at..next] + line[next..] == line;
    ReadsNumeral(line[..at], numeral, line[next..]);
    assert |line[..at] + line[at..next]| == next;
  }

  /** The text of words stands in the line from p on, up to a terminating zero. */
  ghost predicate IsText(line: string, p: nat, ws: seq<TextWord>)
    ensures IsText(line, p, ws) ==> forall i | 0 <= i < |ws| :: ws[i].Ok()
  {
    && (forall i | 0 <= i < |ws| :: ws[i].Ok())
    && p + |TextOf(ws)| < |line| && line[p..p + |TextOf(ws)|] == TextOf(ws) && line[p + |TextOf(ws)|] == '\0'
  }

  /** A line that is accepted is the text of words. */
  lemma {:induction false} AcceptedText(b: Block, line: string, p: nat) returns (ws: seq<TextWord>)
    requires Terminated(line) && p < |line| && TakeText(b, line, p).Ok?
    ensures IsText(line, p, ws)
    decreases |line| - p
  {
    if line[p] == '\0' {
      ws := [];
    } else {
      hide Take, Read, Numeral.Text, Stops, TextWord.Meant, IsText;
      var numeral, next := NumeralAt(line, p + 1);
      ReadAt(line, p + 1, numeral, next);
      var w := TextWord(line[p], numeral);
      var more := AcceptedText(Take(b, w.Meant()).block, line, next);
      ws := [w] + more;
      WordBefore(line, p, next, w, more);
    }
  }

  lemma WordBefore(line: string, p: nat, next: nat, w: TextWord, more: seq<TextWord>)
    requires w.Ok() && IsText(line, next, more) && p < next < |line|
    requires line[p] == w.letter && line[p + 1..next] == w.number.Text()
    ensures IsText(line, p, [w] + more)
  {
    hide Numeral.Text, TextWord.Ok;
    var ws, t := [w] + more, TextOf(more);
    assert ws[1..] == more;
    assert TextOf(ws) == w.Text() + t;
    assert line[p..next] == [line[p]] + line[p + 1..next];
    assert line[p..next + |t|] == line[p..next] + line[next..next + |t|];
  }

  lemma TextTaken(b: Block, line: string, p: nat, ws: seq<TextWord>)
    requires Terminated(line) && p < |line| && IsText(line, p, ws)
    ensures TakeText(b, line, p) == TakeAll(b, MeantBy(ws))
  {
    hide TakeText, TakeAll, MeantBy, TextOf, TextWord.Ok;
    var n := p + |TextOf(ws)|;
    var end := line[n..];
    assert line == line[..p] + line[p..n] + end;
    assert end[|end| - 1] == line[|line| - 1];
    TextIsWords(b, line[..p], ws, end);
  }

  /** Where the words of a line start, behind the mark of a jog command. */
  function Start(line: string): nat
    requires |line| > 0
  {
    if line[0] == '$' then 3 else 0
  }

  /** A line is accepted exactly when it is the text of compatible words, in any order alike. */
  lemma LineAcceptedIff(modal: map<Group, int>, line: string)
    requires Line(line)
    ensures Parsed(modal, line).Ok? <==>
              exists ws :: IsText(line, Start(line), ws) && Compatible(multiset(MeantBy(ws)))
  {
    hide IsText, TakeText, TakeAll, MeantBy, Compatible, Fresh, Holds;
    var jog := line[0] == '$';
    if Parsed(modal, line).Ok? {
      var ws := AcceptedText(Fresh(modal, jog), line, Start(line));
      TextTaken(Fresh(modal, jog), line, Start(line), ws);
      AcceptedIff(modal, jog, MeantBy(ws));
    }
    if ws :| IsText(line, Start(line), ws) && Compatible(multiset(MeantBy(ws))) {
      TextTaken(Fresh(modal, jog), line, Start(line), ws);
      AcceptedIff(modal, jog, MeantBy(ws));
    }
  }

  /** Two lines with the same words in another order, ordinary or jog commands alike. */
  lemma LinesAlike(modal: map<Group, int>, line: string, ws: seq<TextWord>, other: string, vs: seq<TextWord>)
    requires Line(line) && Line(other) && Start(line) == Start(other)
    requires IsText(line, Start(line), ws) && IsText(other, Start(other), vs)
    requires multiset(MeantBy(ws)) == multiset(MeantBy(vs))
    ensures Parsed(modal, line).Ok? <==> Parsed(modal, other).Ok?
    ensures Parsed(modal, line).Ok? ==> Parsed(modal, line) == Parsed(modal, other)
  {
    hide IsText, TakeText, TakeAll, MeantBy, Compatible, Fresh, Holds;
    var jog := line[0] == '$';
    TextTaken(Fresh(modal, jog), line, Start(line), ws);
    TextTaken(Fresh(modal, jog), other, Start(other), vs);
    OrderDoesNotMatter(modal, jog, MeantBy(ws), MeantBy(vs));
  }
}
