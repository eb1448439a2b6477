/** The program parts of the streaming protocol, each proved to make the steps of module Streaming:
    the application's lists (Grbl.java), the receive ring (serial.c) and the line reader of the main
    loop (protocol.c). */
module SerialLink {
  import opened Streaming

  const RX_RING_BUFFER: nat := RX_BUFFER_SIZE + 1

  datatype Option<T> = None | Some(value: T)

  class Grbl {
    var bfrSize: int
    var grblBfr: seq<string>
    var reservedMsg: seq<string>
    var receivedMsg: seq<string>
    /** Characters handed to the serial port and not yet transmitted. */
    var port: string

    /** The application's share of the protocol state. */
    ghost function Share(): State
      reads this
    {
      INIT.(reserved := reservedMsg, grblBfr := grblBfr, bfrSize := bfrSize, wire := port)
    }

    constructor ()
      ensures Share() == INIT && receivedMsg == []
    {
      bfrSize, grblBfr, reservedMsg, receivedMsg, port := 0, [], [], [], "";
    }

    /** init: forget everything on a new connection. */
    method Init()
      modifies this`reservedMsg, this`grblBfr, this`bfrSize
      ensures Share() == INIT.(wire := old(port))
    {
      reservedMsg := [];
      grblBfr := [];
      bfrSize := 0;
    }

    method Reserve(strBfr: string)
      modifies this`reservedMsg
      ensures reservedMsg == old(reservedMsg) + [strBfr]
    {
      reservedMsg := reservedMsg + [strBfr];
    }

    /** streaming: send lines as long as they fit the receive buffer. */
    method Streaming()
      modifies this`bfrSize, this`grblBfr, this`port, this`reservedMsg
      ensures Share() == Streamed(old(Share()))
    {
      while bfrSize <= BFR_SIZE_MX && |reservedMsg| > 0
        invariant Streamed(Share()) == Streamed(old(Share()))
        decreases |reservedMsg|
      {
        if bfrSize + |reservedMsg[0]| <= BFR_SIZE_MX {
          ghost var s := Share();
          bfrSize := bfrSize + |reservedMsg[0]|;
          grblBfr := grblBfr + [reservedMsg[0]];
          port := port + reservedMsg[0];
          reservedMsg := reservedMsg[1..];
          assert Share() == SendLine(s);
        } else {
          break;
        }
      }
    }

    /** read: an answer takes the oldest unacknowledged line off the count; with none waiting the
        list access fails.  Other messages are collected. */
    method Read(msg: string) returns (failed: bool)
      modifies this`bfrSize, this`grblBfr, this`receivedMsg
      ensures IsAnswer(msg) ==>
                var t := TakeAnswer(old(Share()).(acks := [msg]));
                failed == t.crashed && Share() == t.(crashed := false) && receivedMsg == []
      ensures !IsAnswer(msg) ==> !failed && Share() == old(Share()) && receivedMsg == old(receivedMsg) + [msg]
    {
      failed := false;
      if msg == "ok" || Contains(msg, "error:") {
        receivedMsg := [];
        if |grblBfr| == 0 { return true; }
        bfrSize := bfrSize - |grblBfr[0]|;
        grblBfr := grblBfr[1..];
      } else {
        receivedMsg := receivedMsg + [msg];
      }
    }
  }

  /** Ring slot k places after the tail. */
  function Slot(tail: nat, k: nat): (i: nat)
    requires tail < RX_RING_BUFFER && k < RX_RING_BUFFER
    ensures i < RX_RING_BUFFER
  {
    if tail + k < RX_RING_BUFFER then tail + k else tail + k - RX_RING_BUFFER
  }

  function InRing(b: string, tail: nat, n: nat): (s: string)
    requires |b| == RX_RING_BUFFER && tail < RX_RING_BUFFER && n <= RX_BUFFER_SIZE
    ensures |s| == n
  {
    seq(n, k requires 0 <= k < n => b[Slot(tail, k)])
  }

  const CMD_SAFETY_DOOR: char := '\U{84}'
  const CMD_JOG_CANCEL: char := '\U{85}'

  /** Feed and rapid overrides. */
  predicate MotionOverride(c: char) {
    '\U{90}' <= c <= '\U{97}'
  }

  /** Spindle and coolant overrides; mist coolant is compiled out. */
  predicate AccessoryOverride(c: char) {
    '\U{99}' <= c <= '\U{9E}' || c == '\U{A0}'
  }

  class RxBuffer {
    const buffer: array<char>
    var head: nat
    var tail: nat
    /** sys.state is STATE_JOG */
    var jogging: bool
    // Realtime flags raised by the interrupt; an override flag is named by its command.
    var statusReport: bool
    var cycleStart: bool
    var feedHold: bool
    var reset: bool
    var safetyDoor: bool
    var motionCancel: bool
    var motionOverrides: set<char>
    var accessoryOverrides: set<char>

    ghost predicate Valid()
      reads this
    {
      buffer.Length == RX_RING_BUFFER && head < RX_RING_BUFFER && tail < RX_RING_BUFFER
    }

    function Count(): (n: nat)
      requires Valid()
      reads this
      ensures n <= RX_BUFFER_SIZE
    {
      if head >= tail then head - tail else RX_RING_BUFFER - (tail - head)
    }

    ghost function Contents(): (s: string)
      requires Valid()
      reads this, buffer
      ensures |s| == Count()
    {
      InRing(buffer[..], tail, Count())
    }

    constructor ()
      ensures Valid() && Contents() == "" && fresh(buffer)
    {
      buffer := new char[RX_RING_BUFFER];
      head, tail := 0, 0;
      jogging := false;
      statusReport, cycleStart, feedHold, reset := false, false, false, false;
      safetyDoor, motionCancel, motionOverrides, accessoryOverrides := false, false, {}, {};
    }

    /** serial_get_rx_buffer_available */
    method Available() returns (n: nat)
      requires Valid()
      ensures n == RX_BUFFER_SIZE - |Contents()|
    {
      if head >= tail { return RX_BUFFER_SIZE - (head - tail); }
      return tail - head - 1;
    }

    /** The receive interrupt: realtime characters raise flags, the others enter the ring unless it
        is full.  A jog is only cancelled while jogging. */
    method Receive(data: char)
      requires Valid()
      modifies this`head, this`statusReport, this`cycleStart, this`feedHold, this`reset, this`safetyDoor,
               this`motionCancel, this`motionOverrides, this`accessoryOverrides, buffer
      ensures Valid()
      ensures Contents() == if Realtime(data) || |old(Contents())| >= RX_BUFFER_SIZE then old(Contents())
                            else old(Contents()) + [data]
      ensures statusReport == (old(statusReport) || data == '?') && cycleStart == (old(cycleStart) || data == '~')
      ensures feedHold == (old(feedHold) || data == '!') && reset == (old(reset) || data == CMD_RESET)
      ensures safetyDoor == (old(safetyDoor) || data == CMD_SAFETY_DOOR)
      ensures motionCancel == (old(motionCancel) || (data == CMD_JOG_CANCEL && jogging))
      ensures motionOverrides == old(motionOverrides) + if MotionOverride(data) then {data} else {}
      ensures accessoryOverrides == old(accessoryOverrides) + if AccessoryOverride(data) then {data} else {}
    {
      if data == CMD_RESET { reset := true; }
      else if data == '?' { statusReport := true; }
      else if data == '~' { cycleStart := true; }
      else if data == '!' { feedHold := true; }
      else if data > '\U{7F}' {
        if data == CMD_SAFETY_DOOR { safetyDoor := true; }
        else if data == CMD_JOG_CANCEL {
          if jogging { motionCancel := true; }
        }
        else if MotionOverride(data) { motionOverrides := motionOverrides + {data}; }
        else if AccessoryOverride(data) { accessoryOverrides := accessoryOverrides + {data}; }
      } else {
        var nextHead := head + 1;
        if nextHead == RX_RING_BUFFER { nextHead := 0; }
        if nextHead != tail {
          ghost var n, was := Count(), Contents();
          assert Slot(tail, n) == head;
          buffer[head] := data;
          head := nextHead;
          assert Contents() == was + [data];
        }
      }
      assert Realtime(data) ==> Contents() == old(Contents());
    }

    /** serial_read */
    method SerialRead() returns (data: Option<char>)
      requires Valid()
      modifies this`tail
      ensures Valid()
      ensures old(Contents()) == "" ==> data == None && Contents() == ""
      ensures old(Contents()) != "" ==> data == Some(old(Contents())[0]) && Contents() == old(Contents())[1..]
    {
      if head == tail { return None; }
      ghost var was, t := Contents(), tail;
      assert Slot(tail, 0) == tail;
      data := Some(buffer[tail]);
      tail := tail + 1;
      if tail == RX_RING_BUFFER { tail := 0; }
      assert forall k | 0 <= k < Count() :: Slot(tail, k) == Slot(t, k + 1);
      assert Contents() == was[1..];
    }
  }

  /** The reader's state, and the jobs executed, after a stretch of input. */
  function ReadAll(r: Reader, s: string): Reader {
    if s == "" then r
    else
      var c := s[|s| - 1];
      if c == CR || c == LF then START else Feed(ReadAll(r, s[..|s| - 1]), c)
  }

  function JobsIn(r: Reader, s: string): seq<Job> {
    if s == "" then []
    else
      var c, before := s[|s| - 1], s[..|s| - 1];
      JobsIn(r, before) + if c == CR || c == LF then [Finish(ReadAll(r, before))] else []
  }

  lemma ReadNext(r: Reader, s: string, k: nat)
    requires k < |s|
    ensures var x := ReadAll(r, s[..k]);
            if s[k] == CR || s[k] == LF
            then ReadAll(r, s[..k + 1]) == START && JobsIn(r, s[..k + 1]) == JobsIn(r, s[..k]) + [Finish(x)]
            else ReadAll(r, s[..k + 1]) == Feed(x, s[k]) && JobsIn(r, s[..k + 1]) == JobsIn(r, s[..k])
  {
    assert s[..k + 1][..k] == s[..k];
  }

  /** One job, hence one response, for each line terminator. */
  lemma {:induction false} OneJobPerTerminator(r: Reader, s: string)
    ensures |JobsIn(r, s)| == multiset(s)[CR] + multiset(s)[LF]
  {
    if s != "" {
      var before := s[..|s| - 1];
      OneJobPerTerminator(r, before);
      assert s == before + [s[|s| - 1]];
    }
  }

  class LineReader {
    const line: array<char>
    var charCounter: nat
    var overflow: bool
    var parentheses: bool
    var semicolon: bool

    ghost predicate Valid()
      reads this
    {
      line.Length == LINE_BUFFER_SIZE && charCounter < LINE_BUFFER_SIZE
    }

    ghost function Now(): Reader
      requires Valid()
      reads this, line
    {
      Reader(line[..charCounter], overflow, parentheses, semicolon)
    }

    constructor ()
      ensures Valid() && Now() == START && fresh(line)
    {
      line := new char[LINE_BUFFER_SIZE];
      charCounter, overflow, parentheses, semicolon := 0, false, false, false;
    }

    /** One character of the main loop; a line terminator yields the line to execute. */
    method Take(c: char) returns (job: Option<Job>)
      requires Valid()
      modifies this, line
      ensures Valid()
      ensures c == CR || c == LF ==> job == Some(Finish(old(Now()))) && Now() == START
      ensures c != CR && c != LF ==> job == None && Now() == Feed(old(Now()), c)
    {
      job := None;
      ghost var was := Now();
      if c == '\n' || c == '\r' {
        job := Some(if overflow then Overflow else Line(line[..charCounter]));
        overflow, parentheses, semicolon := false, false, false;
        charCounter := 0;
      } else if overflow || parentheses || semicolon {
        if c == ')' {
          if parentheses { parentheses := false; }
        }
      } else if c <= ' ' {
      } else if c == '/' {
      } else if c == '(' {
        parentheses := true;
      } else if c == ';' {
        semicolon := true;
      } else if charCounter >= LINE_BUFFER_SIZE - 1 {
        overflow := true;
      } else {
        line[charCounter] := if 'a' <= c <= 'z' then c - 'a' + 'A' else c;
        charCounter := charCounter + 1;
        assert line[..charCounter] == was.line + [Upcase(c)];
      }
    }

    /** The inner loop of protocol_main_loop: read until the ring is empty. */
    method ReadAvailable(rx: RxBuffer) returns (jobs: seq<Job>)
      requires Valid() && rx.Valid() && rx.buffer != line
      modifies this, line, rx
      ensures Valid() && rx.Valid() && rx.Contents() == ""
      ensures Now() == ReadAll(old(Now()), old(rx.Contents()))
      ensures jobs == JobsIn(old(Now()), old(rx.Contents()))
    {
      hide ReadAll, JobsIn, Feed, Finish, InRing;
      jobs := [];
      ghost var r, s, k := Now(), rx.Contents(), 0;
      Nothing(r);
      assert s[..0] == "";
      var c := rx.SerialRead();
      while c.Some?
        invariant Valid() && rx.Valid() && k <= |s|
        invariant c.Some? ==> k < |s| && c.value == s[k] && rx.Contents() == s[k + 1..]
        invariant c.None? ==> k == |s| && rx.Contents() == ""
        invariant Now() == ReadAll(r, s[..k]) && jobs == JobsIn(r, s[..k])
        decreases |s| - k, c.Some?
      {
        ReadNext(r, s, k);
        var job := Take(c.value);
        if job.Some? { jobs := jobs + [job.value]; }
        c := rx.SerialRead();
        k := k + 1;
      }
      assert s[..k] == s;
    }
  }

  lemma Nothing(r: Reader)
    ensures ReadAll(r, "") == r && JobsIn(r, "") == []
  {
  }

  // ---- responses on their way back -------------------------------------------------------------------

  function TrimLeft(s: string): string {
    if s != "" && s[0] <= ' ' then TrimLeft(s[1..]) else s
  }

  function TrimRight(s: string): string {
    if s != "" && s[|s| - 1] <= ' ' then TrimRight(s[..|s| - 1]) else s
  }

  function Trim(s: string): string {
    TrimRight(TrimLeft(s))
  }

  predicate Blank(s: string) {
    forall i | 0 <= i < |s| :: s[i] <= ' '
  }

  /** A text with nothing but blanks around it, if it begins and ends otherwise, is what is left. */
  lemma {:induction false} TrimLeaves(a: string, m: string, b: string)
    requires Blank(a) && Blank(b) && (m != "" ==> m[0] > ' ' && m[|m| - 1] > ' ')
    ensures Trim(a + m + b) == m
    decreases |a| + |b|
  {
    if a != "" {
      assert (a + m + b)[1..] == a[1..] + m + b;
      TrimLeaves(a[1..], m, b);
    } else if m == "" {
      assert a + m + b == b;
      if b != "" { TrimLeaves("", "", b[1..]); assert "" + "" + b[1..] == b[1..]; }
    } else {
      assert TrimLeft(a + m + b) == m + b by { assert a + m + b == m + b; }
      TrimEnd(m, b);
    }
  }

  lemma {:induction false} TrimEnd(m: string, b: string)
    requires Blank(b) && (m != "" ==> m[|m| - 1] > ' ')
    ensures TrimRight(m + b) == m
    decreases |b|
  {
    if b == "" {
      assert m + b == m;
    } else {
      assert (m + b)[..|m + b| - 1] == m + b[..|b| - 1];
      TrimEnd(m, b[..|b| - 1]);
    }
  }

  /** Characters since the last carriage return, and the messages delivered so far. */
  function Partial(s: string): string {
    if s == "" || s[|s| - 1] == CR then "" else Partial(s[..|s| - 1]) + [s[|s| - 1]]
  }

  function Messages(s: string): seq<string> {
    if s == "" then []
    else
      var before := s[..|s| - 1];
      var msg := Trim(Partial(before));
      Messages(before) + if s[|s| - 1] == CR && msg != "" then [msg] else []
  }

  /** How the firmware prints responses. */
  function Printed(ms: seq<string>): string {
    if ms == [] then "" else Printed(ms[..|ms| - 1]) + (ms[|ms| - 1] + [CR, LF])
  }

  /** A response begins and ends with a visible character and has no line terminator inside. */
  predicate Response(m: string) {
    m != "" && m[0] > ' ' && m[|m| - 1] > ' ' && NoEnd(m)
  }

  lemma {:induction false} PartialRun(s: string, t: string)
    requires NoEnd(t)
    ensures Partial(s + t) == Partial(s) + t && Messages(s + t) == Messages(s)
  {
    if t == "" {
      assert s + t == s;
    } else {
      var u, c := t[..|t| - 1], t[|t| - 1];
      PartialRun(s, u);
      assert (s + t)[..|s + t| - 1] == s + u && (s + t)[|s + t| - 1] == c;
      assert t == u + [c];
      assert Partial(s) + t == Partial(s) + u + [c];
    }
  }

  lemma TrimResponse(m: string)
    requires Response(m)
    ensures Trim(m) == m && Trim([LF] + m) == m
  {
    assert ([LF] + m)[1..] == m;
  }

  lemma Return(s: string)
    ensures Partial(s + [CR]) == ""
    ensures Messages(s + [CR]) == Messages(s) + if Trim(Partial(s)) != "" then [Trim(Partial(s))] else []
  {
    assert (s + [CR])[..|s|] == s;
  }

  lemma LineFeed(s: string)
    ensures Partial(s + [LF]) == Partial(s) + [LF] && Messages(s + [LF]) == Messages(s)
  {
    assert (s + [LF])[..|s|] == s;
  }

  lemma OneResponse(s: string, m: string)
    requires Response(m) && (Partial(s) == "" || Partial(s) == [LF])
    ensures Messages(s + m + [CR] + [LF]) == Messages(s) + [m]
    ensures Partial(s + m + [CR] + [LF]) == [LF]
  {
    hide Messages, Partial, Trim;
    PartialRun(s, m);
    TrimResponse(m);
    Return(s + m);
    LineFeed(s + m + [CR]);
    assert "" + m == m && "" + [LF] == [LF];
  }

  /** Though a response ends in a carriage return and a line feed, and only the former ends a
      message, the application receives exactly the responses printed, in order. */
  lemma {:induction false} ResponsesArriveWhole(ms: seq<string>)
    requires forall i | 0 <= i < |ms| :: Response(ms[i])
    ensures Messages(Printed(ms)) == ms
    ensures Partial(Printed(ms)) == if ms == [] then "" else [LF]
  {
    hide Messages, Partial, Printed, Response;
    NothingPrinted();
    if ms != [] {
      var before, m := ms[..|ms| - 1], ms[|ms| - 1];
      ResponsesArriveWhole(before);
      OneResponse(Printed(before), m);
      PrintedLast(ms);
      assert before + [m] == ms;
    }
  }

  lemma NothingPrinted()
    ensures Printed([]) == "" && Messages("") == [] && Partial("") == ""
  {
  }

  lemma PrintedLast(ms: seq<string>)
    requires ms != []
    ensures Printed(ms) == Printed(ms[..|ms| - 1]) + ms[|ms| - 1] + [CR] + [LF]
  {
    Terminators(Printed(ms[..|ms| - 1]), ms[|ms| - 1]);
  }

  lemma Terminators(a: string, b: string)
    ensures a + (b + [CR, LF]) == a + b + [CR] + [LF]
  {
    assert b + [CR, LF] == b + [CR] + [LF];
  }

  class SerialComm {
    var charToStrBfr: string
    var isConnected: bool
    const connectionChkTxt: string
    /** Everything received, and the messages passed on to the application while connected. */
    ghost var input: string
    ghost var delivered: seq<string>

    ghost predicate Valid()
      reads this
    {
      charToStrBfr == Partial(input)
    }

    constructor (connectionChkTxt: string)
      ensures Valid() && !isConnected && input == "" && delivered == []
    {
      this.connectionChkTxt := connectionChkTxt;
      charToStrBfr, isConnected, input, delivered := "", false, "", [];
    }

    /** read: a carriage return delivers the trimmed message, unless empty; before the connection
        only the greeting counts. */
    method Read(c: char) returns (msg: Option<string>, greeted: bool)
      requires Valid()
      modifies this
      ensures Valid() && input == old(input) + [c]
      ensures greeted <==> !old(isConnected) && c == CR && Trim(Partial(old(input))) == connectionChkTxt != ""
      ensures isConnected == (old(isConnected) || greeted)
      ensures old(isConnected) ==>
                Messages(input) == Messages(old(input)) + if msg.Some? then [msg.value] else []
      ensures !old(isConnected) ==> msg.None?
      ensures delivered == old(delivered) + if msg.Some? then [msg.value] else []
    {
      msg, greeted := None, false;
      assert (input + [c])[..|input|] == input;
      input := input + [c];
      if c != CR {
        charToStrBfr := charToStrBfr + [c];
      } else {
        var text := Trim(charToStrBfr);
        if |text| > 0 {
          if !isConnected {
            if text == connectionChkTxt {
              isConnected := true;
              greeted := true;
            }
          } else {
            msg := Some(text);
            delivered := delivered + [text];
          }
        }
        charToStrBfr := "";
      }
    }
  }
}
