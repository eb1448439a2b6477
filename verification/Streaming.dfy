/** Character-counting flow control between the drawing application (Grbl.java) and the firmware's
    128-byte receive ring (serial.c, protocol.c), as a distributed protocol: bytes in flight one way,
    responses in flight the other, every interleaving of the steps. */
module Streaming {

  const BFR_SIZE_MX: nat := 128
  const RX_BUFFER_SIZE: nat := 128
  const CR: char := '\r'
  const LF: char := '\n'
  const CMD_RESET: char := '\U{18}'

  /** Characters the receive interrupt takes out of the stream. */
  predicate Realtime(c: char) {
    c == '?' || c == '~' || c == '!' || c == CMD_RESET || c > '\U{7F}'
  }

  /** A line as the application reserves it: ended by its only line terminator, and no reset. */
  predicate WellFormed(l: string) {
    && |l| > 0 && l[|l| - 1] == CR
    && forall i | 0 <= i < |l| - 1 :: l[i] != CR && l[i] != LF && l[i] != CMD_RESET
  }

  predicate NoEnd(s: string) {
    forall i | 0 <= i < |s| :: s[i] != CR && s[i] != LF
  }

  function Concat(ls: seq<string>): string {
    if ls == [] then "" else ls[0] + Concat(ls[1..])
  }

  function SumLen(ls: seq<string>): nat {
    if ls == [] then 0 else |ls[0]| + SumLen(ls[1..])
  }

  lemma {:induction false} ConcatAppend(ls: seq<string>, l: string)
    ensures Concat(ls + [l]) == Concat(ls) + l && SumLen(ls + [l]) == SumLen(ls) + |l|
  {
    if ls == [] {
      assert Concat([l]) == l + Concat([]);
      assert [l][1..] == [];
    } else {
      ConcatAppend(ls[1..], l);
      assert (ls + [l])[1..] == ls[1..] + [l];
    }
  }

  lemma {:induction false} ConcatLength(ls: seq<string>)
    ensures |Concat(ls)| == SumLen(ls)
  {
    if ls != [] { ConcatLength(ls[1..]); }
  }

  lemma {:induction false} SumLenDrop(ls: seq<string>, k: nat)
    requires k <= |ls|
    ensures SumLen(ls[k..]) <= SumLen(ls)
  {
    if k > 0 {
      SumLenDrop(ls[1..], k - 1);
      assert ls[1..][k - 1..] == ls[k..];
    } else {
      assert ls[0..] == ls;
    }
  }

  function Kept(c: char): string {
    if Realtime(c) then "" else [c]
  }

  /** What of a byte stream reaches the ring. */
  function Strip(s: string): (r: string)
    ensures |r| <= |s|
  {
    if s == "" then "" else Kept(s[0]) + Strip(s[1..])
  }

  lemma Associative(a: string, b: string, c: string)
    ensures a + (b + c) == (a + b) + c
  {
  }

  lemma StripCons(c: char, s: string)
    ensures Strip([c] + s) == Kept(c) + Strip(s)
  {
    assert ([c] + s)[1..] == s;
  }

  lemma {:induction false} StripAppend(a: string, b: string)
    ensures Strip(a + b) == Strip(a) + Strip(b)
  {
    if a == "" {
      assert a + b == b;
    } else {
      hide Strip, Kept;
      var c, d := a[0], a[1..];
      StripAppend(d, b);
      StripCons(c, d);
      StripCons(c, d + b);
      assert a == [c] + d && a + b == [c] + (d + b);
      Associative(Kept(c), Strip(d), Strip(b));
    }
  }

  lemma {:induction false} StripNoEnd(s: string)
    requires NoEnd(s)
    ensures NoEnd(Strip(s))
  {
    if s != "" { StripNoEnd(s[1..]); }
  }

  /** Where the first line terminator stands. */
  function FirstEnd(s: string): (i: nat)
    ensures i <= |s|
  {
    if s == "" || s[0] == CR || s[0] == LF then 0 else 1 + FirstEnd(s[1..])
  }

  lemma {:induction false} FirstEndAt(a: string, x: string)
    requires NoEnd(a)
    ensures FirstEnd(a + [CR] + x) == |a|
  {
    var s := a + [CR] + x;
    if a == "" {
      assert s[0] == CR;
    } else {
      FirstEndAt(a[1..], x);
      assert s[0] == a[0] && s[1..] == a[1..] + [CR] + x;
    }
  }

  lemma SplitAtFirst(a: string, b: string, x: string, y: string)
    requires a + [CR] + x == b + [CR] + y && NoEnd(a) && NoEnd(b)
    ensures a == b && x == y
  {
    var s := a + [CR] + x;
    FirstEndAt(a, x);
    FirstEndAt(b, y);
    assert a == s[..|a|] == b && x == s[|a| + 1..] == y;
  }

  lemma EndSurvives(s: string)
    requires !NoEnd(Strip(s))
    ensures !NoEnd(s)
  {
    if NoEnd(s) { StripNoEnd(s); }
  }

  /** The stripped line up to its terminator. */
  lemma StripLine(l: string)
    requires WellFormed(l)
    ensures Strip(l) == Strip(l[..|l| - 1]) + [CR] && NoEnd(Strip(l[..|l| - 1]))
  {
    var a := l[..|l| - 1];
    StripNoEnd(a);
    StripAppend(a, [CR]);
    assert l == a + [CR] && [CR][1..] == "";
  }

  predicate AllWellFormed(ls: seq<string>) {
    forall i | 0 <= i < |ls| :: WellFormed(ls[i])
  }

  /** A stream without its first line. */
  function AfterLine(s: string): string {
    if FirstEnd(s) < |s| then s[FirstEnd(s) + 1..] else ""
  }

  lemma {:induction false} FirstEndPrefix(a: string, b: string)
    requires !NoEnd(a)
    ensures FirstEnd(a + b) == FirstEnd(a) < |a|
  {
    if a[0] != CR && a[0] != LF {
      assert (a + b)[1..] == a[1..] + b;
      FirstEndPrefix(a[1..], b);
    }
  }

  lemma FirstEndOfLine(l: string, more: string)
    requires WellFormed(l)
    ensures FirstEnd(l + more) == |l| - 1
  {
    FirstEndAt(l[..|l| - 1], more);
    assert l + more == l[..|l| - 1] + [CR] + more;
  }

  lemma Cancel(a: string, b: string, c: string, d: string)
    requires a + b == c + d && |a| <= |c|
    ensures c == a + c[|a|..] && b == c[|a|..] + d
  {
    assert a == (a + b)[..|a|] == (c + d)[..|a|] == c[..|a|];
    assert b == (a + b)[|a|..] == (c + d)[|a|..];
  }

  lemma ConcatFirst(u: seq<string>)
    ensures u != [] ==> Concat(u) == u[0] + Concat(u[1..])
    ensures u == [] ==> Concat(u) == ""
  {
  }

  /** When a terminator has arrived and been read, it ends the first line not yet answered. */
  lemma FirstLine(u: seq<string>, got: string, wire: string, cur: string, rest: string)
    requires AllWellFormed(u) && Concat(u) == got + wire
    requires Strip(got) == cur + [CR] + rest && NoEnd(cur)
    ensures u != [] && got == u[0] + AfterLine(got) && Strip(u[0]) == cur + [CR]
    ensures Concat(u[1..]) == AfterLine(got) + wire && rest == Strip(AfterLine(got))
  {
    hide WellFormed, Concat, Strip, FirstEnd;
    assert (cur + [CR] + rest)[|cur|] == CR;
    EndSurvives(got);
    FirstEndPrefix(got, wire);
    ConcatFirst(u);
    var l := u[0];
    FirstEndOfLine(l, Concat(u[1..]));
    Cancel(l, Concat(u[1..]), got, wire);
    var a, got2 := Strip(l[..|l| - 1]), got[|l|..];
    StripAppend(l, got2);
    StripLine(l);
    SplitAtFirst(cur, a, rest, Strip(got2));
  }

  // ---- the firmware's line reader ------------------------------------------------------------------

  const LINE_BUFFER_SIZE: nat := 80

  /** line[] up to char_counter, and line_flags. */
  datatype Reader = Reader(line: string, overflow: bool, parentheses: bool, semicolon: bool)

  const START: Reader := Reader("", false, false, false)

  function Upcase(c: char): char {
    if 'a' <= c <= 'z' then c - 'a' + 'A' else c
  }

  /** One character that is not a line terminator. */
  function Feed(r: Reader, c: char): Reader {
    if r.overflow || r.parentheses || r.semicolon then
      if c == ')' && r.parentheses then r.(parentheses := false) else r
    else if c <= ' ' || c == '/' then r
    else if c == '(' then r.(parentheses := true)
    else if c == ';' then r.(semicolon := true)
    else if |r.line| >= LINE_BUFFER_SIZE - 1 then r.(overflow := true)
    else r.(line := r.line + [Upcase(c)])
  }

  function Fed(s: string): (r: Reader)
    ensures |r.line| < LINE_BUFFER_SIZE
  {
    if s == "" then START else Feed(Fed(s[..|s| - 1]), s[|s| - 1])
  }

  /** What is executed, and answered by exactly one response, at a line terminator. */
  datatype Job = Overflow | Line(text: string)

  function Finish(r: Reader): Job {
    if r.overflow then Overflow else Line(r.line)
  }

  /** The job a reserved line stands for. */
  function JobOf(l: string): Job
    requires |l| > 0
  {
    Finish(Fed(Strip(l[..|l| - 1])))
  }

  function Visible(s: string): string {
    if s == "" then ""
    else Visible(s[..|s| - 1]) + var c := s[|s| - 1]; if c <= ' ' || c == '/' then "" else [Upcase(c)]
  }

  predicate NoComment(s: string) {
    forall i | 0 <= i < |s| :: s[i] != '(' && s[i] != ';'
  }

  /** Without comments a line is executed as its visible characters in upper case, all of them or,
      beyond 79, none. */
  lemma {:induction false} UncommentedLine(s: string)
    requires NoComment(s)
    ensures Finish(Fed(s)) == if |Visible(s)| < LINE_BUFFER_SIZE then Line(Visible(s)) else Overflow
    ensures !Fed(s).parentheses && !Fed(s).semicolon
  {
    if s != "" { UncommentedLine(s[..|s| - 1]); }
  }

  /** The line from a reader r on. */
  function Feeds(r: Reader, s: string): Reader
    decreases |s|
  {
    if s == "" then r else Feeds(Feed(r, s[0]), s[1..])
  }

  lemma {:induction false} FeedsLast(r: Reader, s: string, c: char)
    ensures Feeds(r, s + [c]) == Feed(Feeds(r, s), c)
    decreases |s|
  {
    hide Feed;
    if s != "" {
      assert (s + [c])[1..] == s[1..] + [c];
      FeedsLast(Feed(r, s[0]), s[1..], c);
    } else {
      assert [c][1..] == "";
    }
  }

  lemma {:induction false} FedIsFeeds(s: string)
    ensures Fed(s) == Feeds(START, s)
  {
    if s != "" {
      FedIsFeeds(s[..|s| - 1]);
      FeedsLast(START, s[..|s| - 1], s[|s| - 1]);
      assert s == s[..|s| - 1] + [s[|s| - 1]];
    }
  }

  // ---- what a line becomes ---------------------------------------------------------------------------

  /** The position of the first c, or the end. */
  function IndexOf(s: string, c: char): (i: nat)
    ensures i <= |s| && (i < |s| ==> s[i] == c) && forall j | 0 <= j < i :: s[j] != c
  {
    if s == "" || s[0] == c then 0 else 1 + IndexOf(s[1..], c)
  }

  /** The text without its comments: from a parenthesis to the next closing one, and from a semicolon to
      the end; neither starts inside the other. */
  function Uncommented(s: string): string
    decreases |s|
  {
    if s == "" || s[0] == ';' then ""
    else if s[0] == '(' then
      var end := IndexOf(s, ')');
      if end == |s| then "" else Uncommented(s[end + 1..])
    else [s[0]] + Uncommented(s[1..])
  }

  lemma {:induction false} VisibleFirst(c: char, s: string)
    ensures Visible([c] + s) == Visible([c]) + Visible(s)
  {
    if s != "" {
      assert ([c] + s)[..|s|] == [c] + s[..|s| - 1];
      VisibleFirst(c, s[..|s| - 1]);
    } else {
      assert [c] + s == [c];
    }
  }

  function Result(line: string): Job {
    if |line| < LINE_BUFFER_SIZE then Line(line) else Overflow
  }

  lemma {:induction false} Overflowing(r: Reader, s: string)
    requires r.overflow
    ensures Finish(Feeds(r, s)) == Overflow
    decreases |s|
  {
    if s != "" { Overflowing(Feed(r, s[0]), s[1..]); }
  }

  lemma {:induction false} InSemicolon(r: Reader, s: string)
    requires r.semicolon && !r.parentheses
    ensures Feeds(r, s) == r
    decreases |s|
  {
    if s != "" { InSemicolon(r, s[1..]); }
  }

  lemma {:induction false} InParentheses(line: string, s: string)
    ensures var end := IndexOf(s, ')');
            Feeds(Reader(line, false, true, false), s)
            == if end == |s| then Reader(line, false, true, false)
               else Feeds(Reader(line, false, false, false), s[end + 1..])
    decreases |s|
  {
    if s != "" && s[0] != ')' { InParentheses(line, s[1..]); }
  }

  lemma {:induction false} CommentedFrom(line: string, s: string)
    requires |line| < LINE_BUFFER_SIZE
    ensures Finish(Feeds(Reader(line, false, false, false), s)) == Result(line + Visible(Uncommented(s)))
    decreases |s|
  {
    if s == "" || s[0] == ';' {
      assert line + Visible("") == line;
      if s != "" { InSemicolon(Reader(line, false, false, true), s[1..]); }
    } else if s[0] == '(' {
      InParentheses(line, s[1..]);
      var end := IndexOf(s, ')');
      if end == |s| { assert line + Visible("") == line; } else { CommentedFrom(line, s[end + 1..]); }
    } else {
      TakenFrom(line, s);
    }
  }

  /** The next character is outside comments. */
  lemma {:induction false} TakenFrom(line: string, s: string)
    requires |line| < LINE_BUFFER_SIZE && s != "" && s[0] != ';' && s[0] != '('
    ensures Finish(Feeds(Reader(line, false, false, false), s)) == Result(line + Visible(Uncommented(s)))
    decreases |s|, 0
  {
    var c, rest := s[0], Uncommented(s[1..]);
    var r := Feed(Reader(line, false, false, false), c);
    VisibleFirst(c, rest);
    OneTaken(line, c);
    assert Uncommented(s) == [c] + rest;
    hide Visible, Feed, Uncommented;
    if r.overflow {
      Overflowing(r, s[1..]);
    } else {
      CommentedFrom(r.line, s[1..]);
      assert r.line + Visible(rest) == line + (Visible([c]) + Visible(rest));
    }
  }

  lemma OneTaken(line: string, c: char)
    requires |line| < LINE_BUFFER_SIZE && c != ';' && c != '('
    ensures var r := Feed(Reader(line, false, false, false), c);
            if r.overflow then |line + Visible([c])| == LINE_BUFFER_SIZE
            else r == Reader(line + Visible([c]), false, false, false) && |r.line| < LINE_BUFFER_SIZE
  {
    assert [c][..0] == "" && Visible("") == "" && line + "" == line;
  }

  /** Every line is executed as what is visible of it outside comments, all of it or, beyond 79
      characters, none. */
  lemma CommentedLine(s: string)
    ensures Finish(Fed(s)) == Result(Visible(Uncommented(s)))
  {
    FedIsFeeds(s);
    CommentedFrom("", s);
    assert "" + Visible(Uncommented(s)) == Visible(Uncommented(s));
  }

  /** What a reserved line says: the visible text outside comments of the characters that are neither its
      terminator nor realtime commands. */
  function TextOf(l: string): Job
    requires |l| > 0
  {
    Result(Visible(Uncommented(Strip(l[..|l| - 1]))))
  }

  lemma JobIsText(l: string)
    requires |l| > 0
    ensures JobOf(l) == TextOf(l)
  {
    CommentedLine(Strip(l[..|l| - 1]));
  }

  /** A comment in parentheses makes no difference to what stands around it. */
  lemma {:induction false} CommentDropped(a: string, b: string, c: string)
    requires NoComment(a) && IndexOf(b, ')') == |b|
    ensures Finish(Fed(a + "(" + b + ")" + c)) == Finish(Fed(a + c))
  {
    hide *;
    CommentedLine(a + "(" + b + ")" + c);
    CommentedLine(a + c);
    var t := "(" + b + ")" + c;
    assert a + "(" + b + ")" + c == a + t;
    CommentSkipped(b, c);
    BeforeComment(a, t);
    BeforeComment(a, c);
  }

  lemma CommentSkipped(b: string, c: string)
    requires IndexOf(b, ')') == |b|
    ensures Uncommented("(" + b + ")" + c) == Uncommented(c)
  {
    hide Visible, Feed;
    var t := "(" + b + ")" + c;
    assert t[|b| + 1] == ')' && forall j | 0 <= j < |b| + 1 :: t[j] != ')' by {
      assert forall j | 1 <= j < |b| + 1 :: t[j] == b[j - 1];
    }
    assert t[|b| + 2..] == c;
  }

  /** Nothing behind a semicolon does, outside parentheses. */
  lemma RestDropped(a: string, b: string)
    requires NoComment(a)
    ensures Finish(Fed(a + ";" + b)) == Finish(Fed(a))
  {
    CommentedLine(a + ";" + b);
    CommentedLine(a);
    assert a + ";" + b == a + (";" + b) && a + "" == a;
    BeforeComment(a, ";" + b);
    BeforeComment(a, "");
  }

  lemma {:induction false} BeforeComment(a: string, t: string)
    requires NoComment(a)
    ensures Uncommented(a + t) == a + Uncommented(t)
  {
    if a != "" {
      assert (a + t)[1..] == a[1..] + t;
      BeforeComment(a[1..], t);
    } else {
      assert a + t == t;
    }
  }

  const LOWER: string := "abcdefghijklmnopqrstuvwxyz"
  const UPPER: string := "ABCDEFGHIJKLMNOPQRSTUVWXYZ"

  /** Letters are taken in upper case, everything else as it is. */
  lemma UpcaseLetters(c: char)
    ensures forall i | 0 <= i < |LOWER| :: Upcase(LOWER[i]) == UPPER[i]
    ensures c !in LOWER ==> Upcase(c) == c
  {
    if 'a' <= c <= 'z' { assert LOWER[c as int - 'a' as int] == c; }
  }

  // ---- the protocol --------------------------------------------------------------------------------

  /** reserved, grblBfr, bfrSize: the application's lists and its character count; wire: bytes under
      way; ring: the receive ring, oldest first; reader: the line being read; acks: responses under
      way.  The rest is history: got, the bytes of unanswered lines that
      have arrived; cur, those of the line being read; all, every line ever
      reserved; jobs, the lines executed so far; dropped, characters lost to a full ring;
      crashed, a response read with no line waiting for one. */
  datatype State = State(
    reserved: seq<string>, grblBfr: seq<string>, bfrSize: int, wire: string, ring: string, reader: Reader,
    acks: seq<string>, got: string, cur: string, all: seq<string>, jobs: seq<Job>, dropped: nat, crashed: bool)

  const INIT: State := State([], [], 0, "", "", START, [], "", "", [], [], 0, false)

  predicate Contains(s: string, t: string) {
    t <= s || (s != "" && Contains(s[1..], t))
  }

  /** Messages the application takes as the answer to a line. */
  predicate IsAnswer(msg: string) {
    msg == "ok" || Contains(msg, "error:")
  }

  /** A text is contained wherever it stands, and only if it does. */
  lemma {:induction false} ContainsMiddle(a: string, t: string, b: string)
    ensures Contains(a + t + b, t)
    decreases |a|
  {
    if a == "" {
      assert a + t + b == t + b;
    } else {
      assert (a + t + b)[1..] == a[1..] + t + b;
      ContainsMiddle(a[1..], t, b);
    }
  }

  lemma {:induction false} ContainedAt(s: string, t: string) returns (a: string, b: string)
    requires Contains(s, t)
    ensures s == a + t + b
    decreases |s|
  {
    if t <= s {
      a, b := "", s[|t|..];
    } else {
      a, b := ContainedAt(s[1..], t);
      a := [s[0]] + a;
    }
  }

  /** Answers are "ok" and whatever has "error:" in it, */
  lemma Answers(a: string, b: string)
    ensures IsAnswer("ok") && IsAnswer(a + "error:" + b)
  {
    ContainsMiddle(a, "error:", b);
  }

  /** and nothing else. */
  lemma AnswerIs(msg: string) returns (a: string, b: string)
    requires IsAnswer(msg)
    ensures msg == "ok" || msg == a + "error:" + b
  {
    a, b := "", "";
    if msg != "ok" { a, b := ContainedAt(msg, "error:"); }
  }

  datatype Op = Reserve(l: string) | Send | Arrive | ReadByte(answer: string) | Answer

  predicate Fits(s: State) {
    && s.reserved != [] && s.bfrSize <= BFR_SIZE_MX
    && s.bfrSize + |s.reserved[0]| <= BFR_SIZE_MX
  }

  predicate Enabled(s: State, op: Op) {
    match op
    case Reserve(l) => WellFormed(l)
    case Send => Fits(s)
    case Arrive => s.wire != ""
    case ReadByte(answer) => s.ring != "" && IsAnswer(answer)
    case Answer => s.acks != []
  }

  /** One turn of the streaming loop. */
  function SendLine(s: State): State
    requires s.reserved != []
  {
    var l := s.reserved[0];
    s.(reserved := s.reserved[1..], grblBfr := s.grblBfr + [l], bfrSize := s.bfrSize + |l|, wire := s.wire + l)
  }

  /** The receive interrupt. */
  function ArriveByte(s: State): State
    requires s.wire != ""
  {
    var c, t := s.wire[0], s.(wire := s.wire[1..], got := s.got + [s.wire[0]]);
    if Realtime(c) then t
    else if |s.ring| >= RX_BUFFER_SIZE then t.(dropped := s.dropped + 1)
    else t.(ring := s.ring + [c])
  }

  /** The main loop takes a character; a terminator executes the line and sends one response. */
  function Read(s: State, answer: string): State
    requires s.ring != ""
  {
    var c, t := s.ring[0], s.(ring := s.ring[1..]);
    if c == CR || c == LF then
      t.(reader := START, got := AfterLine(s.got), cur := "", acks := s.acks + [answer],
         jobs := s.jobs + [Finish(s.reader)])
    else t.(reader := Feed(s.reader, c), cur := s.cur + [c])
  }

  /** The application reads a response. */
  function TakeAnswer(s: State): State
    requires s.acks != []
  {
    var t := s.(acks := s.acks[1..]);
    if s.grblBfr == [] then t.(crashed := true)
    else t.(bfrSize := s.bfrSize - |s.grblBfr[0]|, grblBfr := s.grblBfr[1..])
  }

  function Next(s: State, op: Op): State
    requires Enabled(s, op)
  {
    match op
    case Reserve(l) => s.(reserved := s.reserved + [l], all := s.all + [l])
    case Send => SendLine(s)
    case Arrive => ArriveByte(s)
    case ReadByte(answer) => Read(s, answer)
    case Answer => TakeAnswer(s)
  }

  // ---- the invariant -------------------------------------------------------------------------------

  /** The lines sent whose response has not left the firmware yet. */
  function Unanswered(s: State): seq<string> {
    if |s.acks| <= |s.grblBfr| then s.grblBfr[|s.acks|..] else []
  }

  ghost predicate HostOk(s: State) {
    && s.bfrSize == SumLen(s.grblBfr) <= BFR_SIZE_MX && |s.acks| <= |s.grblBfr|
    && AllWellFormed(s.grblBfr) && AllWellFormed(s.reserved)
    && !s.crashed && s.dropped == 0
  }

  /** The unanswered lines are, in this order, read, in the ring, on the wire. */
  ghost predicate WireOk(s: State) {
    && Concat(Unanswered(s)) == s.got + s.wire
    && Strip(s.got) == s.cur + s.ring
    && NoEnd(s.cur) && s.reader == Fed(s.cur)
  }

  /** Every line reserved was executed, or is unanswered, or still reserved; the responses under way
      belong to the lines executed last, which are the first ones the application waits for. */
  ghost predicate HistoryOk(s: State) {
    && AllWellFormed(s.all) && |s.jobs| <= |s.all| && |s.acks| <= |s.jobs| && |s.acks| <= |s.grblBfr|
    && (forall i | 0 <= i < |s.jobs| :: s.jobs[i] == JobOf(s.all[i]))
    && Unanswered(s) + s.reserved == s.all[|s.jobs|..]
    && s.grblBfr[..|s.acks|] == s.all[|s.jobs| - |s.acks|..|s.jobs|]
  }

  ghost predicate Inv(s: State) {
    HostOk(s) && WireOk(s) && HistoryOk(s)
  }

  lemma InitInv()
    ensures Inv(INIT)
  {
    hide Concat, Strip, Fed, NoEnd, JobOf, WellFormed;
    assert Concat([]) == "" && SumLen([]) == 0 && Strip("") == "" by { Empty(); }
    Empty();
  }

  lemma Empty()
    ensures Concat([]) == "" && SumLen([]) == 0 && Strip("") == "" && Fed("") == START && NoEnd("")
  {
  }

  lemma ReserveInv(s: State, l: string)
    requires Inv(s) && WellFormed(l)
    ensures Inv(Next(s, Reserve(l)))
  {
    hide WellFormed, WireOk, JobOf, SumLen;
    var t := Next(s, Reserve(l));
    assert Unanswered(t) + t.reserved == (Unanswered(s) + s.reserved) + [l];
    assert forall i | 0 <= i < |s.all| :: t.all[i] == s.all[i];
    assert WireOk(t) by { SameWire(s, t); }
  }

  /** WireOk depends on little. */
  lemma SameWire(s: State, t: State)
    requires WireOk(s) && Unanswered(t) == Unanswered(s) && t.got == s.got && t.wire == s.wire && t.cur == s.cur
    requires t.ring == s.ring && t.reader == s.reader
    ensures WireOk(t)
  {
  }

  lemma SendWire(s: State)
    requires HostOk(s) && WireOk(s) && s.reserved != []
    ensures WireOk(SendLine(s)) && Unanswered(SendLine(s)) == Unanswered(s) + [s.reserved[0]]
  {
    hide Concat, Strip, Fed, SumLen, NoEnd, WellFormed;
    var l, u := s.reserved[0], Unanswered(s);
    assert Unanswered(SendLine(s)) == u + [l];
    ConcatAppend(u, l);
    Associative(s.got, s.wire, l);
  }

  lemma SendInv(s: State)
    requires Inv(s) && Fits(s)
    ensures Inv(SendLine(s))
  {
    hide WellFormed, WireOk, JobOf, SumLen, Concat;
    SendWire(s);
    ConcatAppend(s.grblBfr, s.reserved[0]);
    var u, t := Unanswered(s), SendLine(s);
    assert u + s.reserved == (u + [s.reserved[0]]) + t.reserved;
  }

  /** A byte never arrives at a full ring. */
  lemma RoomForByte(s: State)
    requires HostOk(s) && WireOk(s)
    ensures |s.ring| + |s.wire| <= s.bfrSize <= BFR_SIZE_MX
    ensures s.wire != "" ==> |s.ring| < RX_BUFFER_SIZE
  {
    var u := Unanswered(s);
    ConcatLength(u);
    SumLenDrop(s.grblBfr, |s.acks|);
  }

  lemma ArriveWire(s: State)
    requires HostOk(s) && WireOk(s) && s.wire != ""
    ensures WireOk(ArriveByte(s)) && ArriveByte(s).dropped == s.dropped
  {
    RoomForByte(s);
    hide Concat, Strip, Fed, NoEnd, HostOk;
    var c := s.wire[0];
    assert s.wire == [c] + s.wire[1..];
    assert s.got + s.wire == s.got + [c] + s.wire[1..];
    StripAppend(s.got, [c]);
    StripOne(c);
    assert Unanswered(ArriveByte(s)) == Unanswered(s);
  }

  lemma ArriveInv(s: State)
    requires Inv(s) && s.wire != ""
    ensures Inv(ArriveByte(s))
  {
    hide WellFormed, WireOk, JobOf, SumLen, Realtime;
    ArriveWire(s);
    assert Unanswered(ArriveByte(s)) == Unanswered(s);
  }

  lemma StripOne(c: char)
    ensures Strip([c]) == Kept(c)
  {
    StripCons(c, "");
    assert [c] + "" == [c];
  }

  lemma FedMore(s: string, c: char)
    ensures Fed(s + [c]) == Feed(Fed(s), c)
  {
    assert (s + [c])[..|s|] == s;
  }

  lemma ReadMore(s: State, answer: string)
    requires Inv(s) && s.ring != "" && s.ring[0] != CR && s.ring[0] != LF
    ensures Inv(Read(s, answer))
  {
    hide WellFormed, Concat, Strip, Fed, Feed, JobOf, SumLen;
    var t, c := Read(s, answer), s.ring[0];
    FedMore(s.cur, c);
    assert t.cur + t.ring == s.cur + s.ring;
    assert Unanswered(t) == Unanswered(s);
  }

  lemma {:induction false} NoLineFeed(u: seq<string>)
    requires AllWellFormed(u)
    ensures LF !in Concat(u)
  {
    if u != [] { NoLineFeed(u[1..]); }
  }

  lemma {:induction false} StripNoLineFeed(s: string)
    requires LF !in s
    ensures LF !in Strip(s)
  {
    if s != "" { StripNoLineFeed(s[1..]); }
  }

  /** The terminator read ends the oldest unanswered line, which is the next one to execute. */
  lemma ReadEndWire(s: State, answer: string)
    requires HostOk(s) && WireOk(s) && s.ring != "" && (s.ring[0] == CR || s.ring[0] == LF)
    ensures Unanswered(s) != [] && Unanswered(Read(s, answer)) == Unanswered(s)[1..]
    ensures Strip(Unanswered(s)[0]) == s.cur + [CR] && s.reader == Fed(s.cur)
    ensures WireOk(Read(s, answer))
  {
    hide WellFormed, Concat, Strip, Fed, SumLen;
    var u := Unanswered(s);
    NoLineFeed(u);
    StripNoLineFeed(s.got);
    assert (s.cur + s.ring)[|s.cur|] == s.ring[0] && LF !in s.got;
    assert s.cur + s.ring == s.cur + [CR] + s.ring[1..];
    FirstLine(u, s.got, s.wire, s.cur, s.ring[1..]);
    Empty();
    assert "" + s.ring[1..] == s.ring[1..];
  }

  lemma EndedLine(l: string, cur: string)
    requires WellFormed(l) && Strip(l) == cur + [CR]
    ensures JobOf(l) == Finish(Fed(cur))
  {
    StripLine(l);
    assert cur == Strip(l)[..|cur|] == Strip(l[..|l| - 1]);
  }

  lemma ReadEndHistory(s: State, answer: string)
    requires HistoryOk(s) && s.ring != "" && (s.ring[0] == CR || s.ring[0] == LF) && Unanswered(s) != []
    requires Unanswered(Read(s, answer)) == Unanswered(s)[1..]
    requires WellFormed(Unanswered(s)[0]) && JobOf(Unanswered(s)[0]) == Finish(s.reader)
    ensures HistoryOk(Read(s, answer))
  {
    hide WellFormed, JobOf, AfterLine, Finish;
    var u, t, done := Unanswered(s), Read(s, answer), |s.jobs|;
    NextAnswered(u, s.reserved, s.all, done);
    Slide(s.all, done - |s.acks|, done);
    assert s.grblBfr[..|s.acks| + 1] == s.grblBfr[..|s.acks|] + [u[0]];
  }

  lemma Slide(all: seq<string>, i: nat, j: nat)
    requires i <= j < |all|
    ensures all[i..j + 1] == all[i..j] + [all[j]]
  {
  }

  lemma ReadEnd(s: State, answer: string)
    requires Inv(s) && s.ring != "" && (s.ring[0] == CR || s.ring[0] == LF)
    ensures Inv(Read(s, answer))
  {
    ReadEndWire(s, answer);
    EndedLine(Unanswered(s)[0], s.cur);
    ReadEndHistory(s, answer);
    ReadEndHost(s, answer);
    hide WireOk, HostOk, HistoryOk, Read, Unanswered;
  }

  lemma ReadEndHost(s: State, answer: string)
    requires HostOk(s) && s.ring != "" && (s.ring[0] == CR || s.ring[0] == LF) && Unanswered(s) != []
    ensures HostOk(Read(s, answer))
  {
    hide WellFormed, SumLen, AfterLine, Finish;
  }

  lemma NextAnswered(u: seq<string>, reserved: seq<string>, all: seq<string>, done: nat)
    requires done <= |all| && u + reserved == all[done..] && u != []
    ensures done < |all| && u[0] == all[done] && u[1..] + reserved == all[done + 1..]
  {
    assert u[0] == (u + reserved)[0];
    assert u[1..] + reserved == (u + reserved)[1..] == all[done..][1..];
  }

  lemma AnswerInv(s: State)
    requires Inv(s) && s.acks != []
    ensures Inv(TakeAnswer(s))
  {
    hide WellFormed, WireOk, JobOf;
    var t := TakeAnswer(s);
    assert Unanswered(t) == Unanswered(s);
    SameWire(s, t);
    assert t.grblBfr[..|t.acks|] == s.grblBfr[..|s.acks|][1..];
  }

  lemma NextInv(s: State, op: Op)
    requires Inv(s) && Enabled(s, op)
    ensures Inv(Next(s, op))
  {
    match op
    case Reserve(l) => ReserveInv(s, l);
    case Send => SendInv(s);
    case Arrive => ArriveInv(s);
    case ReadByte(answer) => if s.ring[0] == CR || s.ring[0] == LF { ReadEnd(s, answer); } else { ReadMore(s, answer); }
    case Answer => AnswerInv(s);
  }

  // ---- whole runs ----------------------------------------------------------------------------------

  /** The steps can be taken one after the other from s. */
  predicate Can(s: State, ops: seq<Op>)
    decreases |ops|
  {
    ops == [] || (Enabled(s, ops[0]) && Can(Next(s, ops[0]), ops[1..]))
  }

  function Exec(s: State, ops: seq<Op>): State
    requires Can(s, ops)
    decreases |ops|
  {
    if ops == [] then s else Exec(Next(s, ops[0]), ops[1..])
  }

  lemma {:induction false} ExecInv(s: State, ops: seq<Op>)
    requires Inv(s) && Can(s, ops)
    ensures Inv(Exec(s, ops))
    decreases |ops|
  {
    hide Inv, Next, Enabled;
    if ops != [] {
      NextInv(s, ops[0]);
      ExecInv(Next(s, ops[0]), ops[1..]);
    }
  }

  /** streaming(): lines are sent while the next one fits. */
  function Streamed(s: State): State
    decreases |s.reserved|
  {
    if Fits(s) then Streamed(SendLine(s)) else s
  }

  function Sends(n: nat): seq<Op> {
    if n == 0 then [] else [Send] + Sends(n - 1)
  }

  /** It amounts to Send steps, and stops only when none is possible. */
  lemma {:induction false} StreamedIsSends(s: State)
    ensures exists n: nat :: Can(s, Sends(n)) && Exec(s, Sends(n)) == Streamed(s)
    ensures !Fits(Streamed(s))
    decreases |s.reserved|
  {
    if Fits(s) {
      StreamedIsSends(SendLine(s));
      var n: nat :| Can(SendLine(s), Sends(n)) && Exec(SendLine(s), Sends(n)) == Streamed(SendLine(s));
      assert Sends(n + 1)[1..] == Sends(n);
      assert Can(s, Sends(n + 1)) && Exec(s, Sends(n + 1)) == Streamed(s);
    } else {
      assert Can(s, Sends(0)) && Exec(s, Sends(0)) == s;
    }
  }

  /** No byte is ever lost: at every moment of every run the application's count is the length of
      its unacknowledged lines, at most 128, and covers all bytes in the ring and on the wire. */
  lemma NothingDropped(ops: seq<Op>)
    requires Can(INIT, ops)
    ensures var s := Exec(INIT, ops);
            && s.dropped == 0 && s.bfrSize == SumLen(s.grblBfr) <= BFR_SIZE_MX
            && |s.ring| + |s.wire| <= s.bfrSize
  {
    InitInv();
    ExecInv(INIT, ops);
    hide Exec, Can;
    RoomForByte(Exec(INIT, ops));
  }

  /** A response always finds, at the head of the application's list, the line it answers: the
      oldest line executed whose response had not been read. */
  lemma AnswerFindsItsLine(ops: seq<Op>)
    requires Can(INIT, ops)
    ensures var s := Exec(INIT, ops);
            && !s.crashed
            && (s.acks != [] ==> s.grblBfr != [] && |s.acks| <= |s.jobs| <= |s.all|
                                 && s.grblBfr[0] == s.all[|s.jobs| - |s.acks|])
  {
    hide *;
    InitInv();
    ExecInv(INIT, ops);
    FirstAnswered(Exec(INIT, ops));
  }

  lemma FirstAnswered(s: State)
    requires Inv(s)
    ensures !s.crashed
    ensures s.acks != [] ==> s.grblBfr != [] && |s.acks| <= |s.jobs| <= |s.all|
                             && s.grblBfr[0] == s.all[|s.jobs| - |s.acks|]
  {
    hide WireOk, SumLen, Feed, Concat;
    if s.acks != [] { assert s.grblBfr[0] == s.grblBfr[..|s.acks|][0]; }
  }

  /** The firmware executes the reserved lines, each once and in order. */
  lemma ExecutedInOrder(ops: seq<Op>)
    requires Can(INIT, ops)
    ensures var s := Exec(INIT, ops);
            && |s.jobs| <= |s.all| && AllWellFormed(s.all)
            && forall i | 0 <= i < |s.jobs| :: s.jobs[i] == TextOf(s.all[i])
  {
    InitInv();
    ExecInv(INIT, ops);
    hide Exec, Can, WireOk, JobOf, TextOf;
    forall i | 0 <= i < |Exec(INIT, ops).jobs| ensures JobOf(Exec(INIT, ops).all[i]) == TextOf(Exec(INIT, ops).all[i]) {
      JobIsText(Exec(INIT, ops).all[i]);
    }
  }

  /** What is left to do: a reserved character counts four, one on the wire three, one in the ring
      two, a response one. */
  function Measure(s: State): nat {
    4 * SumLen(s.reserved) + 3 * |s.wire| + 2 * |s.ring| + |s.acks|
  }

  lemma StepProgresses(s: State, op: Op)
    requires Inv(s) && Enabled(s, op) && !op.Reserve?
    ensures Measure(Next(s, op)) < Measure(s)
  {
    hide WireOk, HistoryOk;
    if op.Send? { assert SumLen(s.reserved) == |s.reserved[0]| + SumLen(s.reserved[1..]); }
  }

  predicate NoReserve(ops: seq<Op>) {
    forall i | 0 <= i < |ops| :: !ops[i].Reserve?
  }

  /** Streaming cannot go on for ever: only so many steps are possible until more is reserved. */
  lemma {:induction false} RunsEnd(s: State, ops: seq<Op>)
    requires Inv(s) && Can(s, ops) && NoReserve(ops)
    ensures |ops| + Measure(Exec(s, ops)) <= Measure(s)
    decreases |ops|
  {
    hide Inv, Next, Enabled, Measure;
    if ops != [] {
      StepProgresses(s, ops[0]);
      NextInv(s, ops[0]);
      RunsEnd(Next(s, ops[0]), ops[1..]);
    }
  }

  /** Nothing can move. */
  predicate Stuck(s: State) {
    !Fits(s) && s.wire == "" && s.ring == "" && s.acks == []
  }

  lemma StuckIsStuck(s: State)
    ensures Stuck(s) <==> forall op: Op :: Enabled(s, op) ==> op.Reserve?
  {
    if !Stuck(s) {
      assert Enabled(s, Send) || Enabled(s, Arrive) || Enabled(s, ReadByte("ok")) || Enabled(s, Answer);
    }
  }

  /** Streaming stalls exactly when it has finished, or when the next line alone is longer than the
      receive buffer. */
  lemma StallsOnlyWhenDone(s: State)
    requires Inv(s)
    ensures Stuck(s) <==>
              && s.grblBfr == [] && s.bfrSize == 0 && s.wire == "" && s.ring == "" && s.acks == []
              && (s.reserved == [] || |s.reserved[0]| > BFR_SIZE_MX)
    ensures Stuck(s) <==> forall op: Op :: Enabled(s, op) ==> op.Reserve?
    ensures Stuck(s) && s.reserved == [] ==> |s.jobs| == |s.all|
  {
    StuckIsStuck(s);
    if Stuck(s) {
      var u := Unanswered(s);
      assert u == s.grblBfr && s.got + s.wire == s.got && s.cur + s.ring == s.cur;
      NothingWaits(u, s.got, s.cur);
    }
  }

  /** Lines that have arrived and been read entirely leave a terminator behind. */
  lemma NothingWaits(u: seq<string>, got: string, cur: string)
    requires AllWellFormed(u) && Concat(u) == got && Strip(got) == cur && NoEnd(cur)
    ensures u == []
  {
    if u != [] {
      var l := u[0];
      ConcatFirst(u);
      hide Concat, WellFormed, Strip;
      StripLine(l);
      StripAppend(l, Concat(u[1..]));
      var a := Strip(l[..|l| - 1]);
      TailIsEnd(a, Strip(Concat(u[1..])));
    }
  }

  lemma TailIsEnd(a: string, b: string)
    ensures !NoEnd(a + [CR] + b)
  {
    assert (a + [CR] + b)[|a|] == CR;
  }

  /** If no line is longer than the buffer, then whatever order things happen in, streaming ends, and
      it ends with every reserved line executed in order and answered. */
  lemma StreamingCompletes(s: State, ops: seq<Op>)
    requires Inv(s) && (forall i | 0 <= i < |s.all| :: |s.all[i]| <= BFR_SIZE_MX)
    requires Can(s, ops) && NoReserve(ops) && Stuck(Exec(s, ops))
    ensures var t := Exec(s, ops);
            && t.reserved == [] && t.grblBfr == [] && t.bfrSize == 0 && t.dropped == 0 && !t.crashed
            && t.all == s.all && |t.jobs| == |s.all| && forall i | 0 <= i < |s.all| :: t.jobs[i] == TextOf(s.all[i])
  {
    hide Exec, Can, Enabled, Next, JobOf, TextOf;
    ExecInv(s, ops);
    SameLines(s, ops);
    StuckIsComplete(Exec(s, ops));
    forall i | 0 <= i < |s.all| ensures JobOf(s.all[i]) == TextOf(s.all[i]) {
      assert |s.all[i]| > 0 by { AllEnded(s, i); }
      JobIsText(s.all[i]);
    }
  }

  lemma AllEnded(s: State, i: nat)
    requires HistoryOk(s) && i < |s.all|
    ensures |s.all[i]| > 0
  {
  }

  lemma StuckIsComplete(t: State)
    requires Inv(t) && (forall i | 0 <= i < |t.all| :: |t.all[i]| <= BFR_SIZE_MX) && Stuck(t)
    ensures t.reserved == [] && t.grblBfr == [] && t.bfrSize == 0 && t.dropped == 0 && !t.crashed
    ensures |t.jobs| == |t.all| && forall i | 0 <= i < |t.all| :: t.jobs[i] == JobOf(t.all[i])
  {
    StallsOnlyWhenDone(t);
    ReservedAreLines(t);
    hide WireOk, JobOf, WellFormed, SumLen;
  }

  lemma ReservedAreLines(t: State)
    requires HistoryOk(t)
    ensures forall i | 0 <= i < |t.reserved| :: t.reserved[i] in t.all
  {
    hide JobOf, WellFormed;
    forall i | 0 <= i < |t.reserved| ensures t.reserved[i] in t.all {
      var u, k := Unanswered(t), |t.jobs|;
      assert t.reserved[i] == (u + t.reserved)[|u| + i] == t.all[k..][|u| + i] == t.all[k + |u| + i];
    }
  }

  lemma {:induction false} SameLines(s: State, ops: seq<Op>)
    requires Can(s, ops) && NoReserve(ops)
    ensures Exec(s, ops).all == s.all
    decreases |ops|
  {
    if ops != [] {
      SameLine(s, ops[0]);
      hide Next, Enabled;
      SameLines(Next(s, ops[0]), ops[1..]);
    }
  }

  lemma SameLine(s: State, op: Op)
    requires Enabled(s, op) && !op.Reserve?
    ensures Next(s, op).all == s.all
  {
  }
}
