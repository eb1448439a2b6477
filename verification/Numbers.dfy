/**
 * How numbers leave and enter the controller as text: printFloat of print.c and read_float of
 * nuts_bolts.c. Both work digit by digit on integers; the floating-point steps around them are
 * taken over `real`.
 */
module Numbers {

  // ----- Powers of ten and decimal digits -----

  function Pow10(n: nat): (p: nat)
    ensures p >= 1
  {
    if n == 0 then 1 else 10 * Pow10(n - 1)
  }

  predicate IsDigit(c: char) {
    '0' <= c <= '9'
  }

  predicate AllDigits(s: string) {
    forall i :: 0 <= i < |s| ==> IsDigit(s[i])
  }

  function DigitOf(c: char): (d: nat)
    requires IsDigit(c)
    ensures d <= 9
  {
    c as int - '0' as int
  }

  function CharOf(d: nat): (c: char)
    requires d <= 9
    ensures IsDigit(c) && DigitOf(c) == d
  {
    (d + '0' as int) as char
  }

  /** The number a digit string denotes. */
  function Num(s: string): nat
    requires AllDigits(s)
  {
    if s == [] then 0 else 10 * Num(s[..|s| - 1]) + DigitOf(s[|s| - 1])
  }

  /** The digits of `a`, padded on the left with zeros to at least `width` digits. */
  function Digits(a: nat, width: nat): (s: string)
    ensures AllDigits(s) && Num(s) == a && |s| >= width
    decreases a + width
  {
    if a == 0 && width == 0 then []
    else Digits(a / 10, if width == 0 then 0 else width - 1) + [CharOf(a % 10)]
  }

  // ----- printFloat -----

  function Magnitude(v: real): real {
    if v < 0.0 then -v else v
  }

  /** The number of units of the last printed place: `v` scaled up and rounded, ties away from zero. */
  function Units(v: real, decimals: nat): (a: nat)
    ensures -0.5 < a as real - Magnitude(v) * Pow10(decimals) as real <= 0.5
  {
    (Magnitude(v) * Pow10(decimals) as real + 0.5).Floor
  }

  /** The text printed for `v`. */
  function Printed(v: real, decimals: nat): string {
    var digits := Digits(Units(v, decimals), decimals + 1);
    var whole := |digits| - decimals;
    (if v < 0.0 then "-" else "") + digits[..whole] +
    (if decimals > 0 then "." else "") + digits[whole..]
  }

  method Scale(v: real, decimals: nat) returns (n: real)
    ensures n == v * Pow10(decimals) as real
  {
    n := v;
    var left: nat := decimals;
    while left >= 2
      invariant left <= decimals
      invariant n * Pow10(left) as real == v * Pow10(decimals) as real
    {
      assert Pow10(left) == 100 * Pow10(left - 2);
      n := n * 100.0;
      left := left - 2;
    }
    if left > 0 {
      assert Pow10(1) == 10 * Pow10(0);
      n := n * 10.0;
    }
  }

  /** What the digit buffer spells when it is sent out from its last entry down to its first. */
  function Backwards(s: string): (r: string)
    ensures |r| == |s|
    ensures forall i :: 0 <= i < |s| ==> r[i] == s[|s| - 1 - i]
  {
    if s == [] then [] else [s[|s| - 1]] + Backwards(s[..|s| - 1])
  }

  lemma BackwardsAppend(s: string, c: char, t: string)
    ensures Backwards(s + [c]) + t == [c] + Backwards(s) + t
  {
    assert (s + [c])[..|s|] == s;
  }

  lemma LastDigit(a: nat, w: nat)
    requires a > 0 || w > 0
    ensures Digits(a, w) == Digits(a / 10, if w == 0 then 0 else w - 1) + [CharOf(a % 10)]
  {
    hide Num;
  }

  /** Fills the buffer with the digits of `a`, last digit first, and returns how many there are. */
  method FillDigits(buf: array<char>, a: nat, decimals: nat) returns (i: nat)
    requires buf.Length == 13
    requires a < 0x8000_0000 && decimals <= 12
    modifies buf
    ensures i <= 13 && Backwards(buf[..i]) == Digits(a, decimals + 1)
  {
    hide Num;
    i := 0;
    var left: nat := a;
    while left > 0
      invariant i <= 10
      invariant left * Pow10(i) <= a
      invariant Digits(left, 0) + Backwards(buf[..i]) == Digits(a, 0)
      decreases left
    {
      RoomForDigit(left, i, a);
      ghost var done := buf[..i];
      buf[i] := CharOf(left % 10);
      assert buf[..i + 1] == done + [CharOf(left % 10)];
      BackwardsAppend(done, CharOf(left % 10), []);
      ShiftDigit(left, Backwards(done));
      i := i + 1;
      left := left / 10;
    }
    i := PadZeros(buf, i, a, decimals);
  }

  lemma RoomForDigit(left: nat, i: nat, a: nat)
    requires left > 0 && i <= 10 && left * Pow10(i) <= a < 0x8000_0000
    ensures i < 10 && (left / 10) * Pow10(i + 1) <= a
  {
    TenDigits();
    var p := Pow10(i);
    assert Pow10(i + 1) == 10 * p;
    hide Pow10;
    MulAtLeast(left, p);
    MulAssoc(left / 10, 10, p);
    MulMonotone(left / 10 * 10, left, p);
  }

  lemma TenDigits()
    ensures Pow10(10) == 10_000_000_000
  {
    assert Pow10(5) == 100_000;
  }

  lemma MulAtLeast(x: nat, y: nat)
    requires x >= 1
    ensures y <= x * y
  {
  }

  lemma MulMonotone(x: nat, y: nat, z: nat)
    requires x <= y
    ensures x * z <= y * z
  {
  }

  lemma ShiftDigit(left: nat, done: string)
    requires left > 0
    ensures Digits(left / 10, 0) + ([CharOf(left % 10)] + done) == Digits(left, 0) + done
  {
    hide Digits;
    LastDigit(left, 0);
  }

  lemma {:induction false} WidthOf(a: nat, w: nat)
    ensures |Digits(a, w)| == if w <= |Digits(a, 0)| then |Digits(a, 0)| else w
    ensures w <= |Digits(a, 0)| ==> Digits(a, w) == Digits(a, 0)
    decreases a + w
  {
    if a > 0 || w > 0 {
      hide Digits;
      LastDigit(a, w);
      WidthOf(a / 10, if w == 0 then 0 else w - 1);
      if a > 0 {
        LastDigit(a, 0);
      } else {
        NoDigits();
      }
    }
  }

  lemma NoDigits()
    ensures Digits(0, 0) == []
  {
  }

  lemma {:induction false} PadDigit(a: nat, w: nat)
    requires w >= |Digits(a, 0)|
    ensures Digits(a, w + 1) == ['0'] + Digits(a, w)
    decreases a + w
  {
    hide Digits;
    LastDigit(a, w + 1);
    NoDigits();
    if a > 0 {
      LastDigit(a, 0);
    }
    if a > 0 || w > 0 {
      LastDigit(a, w);
      PadDigit(a / 10, w - 1);
    } else {
      assert CharOf(0) == '0';
    }
  }

  /** The two zero-filling steps: up to the decimal point, then one zero before it. */
  method PadZeros(buf: array<char>, start: nat, a: nat, decimals: nat) returns (i: nat)
    requires buf.Length == 13 && start <= 10 && decimals <= 12
    requires Backwards(buf[..start]) == Digits(a, 0)
    modifies buf
    ensures i <= 13 && Backwards(buf[..i]) == Digits(a, decimals + 1)
  {
    hide Num, Digits, Backwards;
    i := start;
    WidthOf(a, i);
    while i < decimals
      invariant start <= i <= 12
      invariant i > decimals ==> i == start
      invariant Backwards(buf[..i]) == Digits(a, i)
    {
      i := PadOne(buf, i, a);
    }
    if i == decimals {
      i := PadOne(buf, i, a);
    } else {
      WidthOf(a, decimals + 1);
    }
  }

  method PadOne(buf: array<char>, i: nat, a: nat) returns (next: nat)
    requires i < buf.Length && |Digits(a, 0)| <= i
    requires Backwards(buf[..i]) == Digits(a, i)
    modifies buf
    ensures next == i + 1 && Backwards(buf[..next]) == Digits(a, next)
  {
    ghost var done := buf[..i];
    buf[i] := '0';
    next := i + 1;
    assert buf[..next] == done + ['0'];
    BackwardsAppend(done, '0', []);
    PadDigit(a, i);
  }

  /**
   * printFloat: the sign, then the buffer from its last digit to its first, with the point before
   * the last `decimals` of them. The source's long and its thirteen-character buffer hold the digits.
   */
  method PrintFloat(v: real, decimals: nat) returns (out: string)
    requires decimals <= 12
    requires Magnitude(v) * Pow10(decimals) as real + 0.5 < 0x8000_0000 as real
    ensures out == Printed(v, decimals)
  {
    hide Num, Digits, Units, Pow10, Emitted, Printed;
    out := "";
    var n := v;
    if n < 0.0 {
      out := "-";
      n := -n;
    }
    ghost var sign := out;
    n := Scale(n, decimals);
    var a := (n + 0.5).Floor;
    assert a == Units(v, decimals) by { UnitsIs(v, decimals); }
    var buf := new char[13];
    var i := FillDigits(buf, a, decimals);
    var number := Emit(buf, i, decimals);
    out := out + number;
    AllEmitted(v, decimals);
  }

  lemma AllEmitted(v: real, decimals: nat)
    ensures var digits := Digits(Units(v, decimals), decimals + 1);
            Printed(v, decimals) == (if v < 0.0 then "-" else "") + Emitted(digits, decimals, |digits|)
  {
    hide Num, Digits, Units;
    var digits := Digits(Units(v, decimals), decimals + 1);
    assert digits[..|digits|] + digits[|digits|..] == digits;
  }

  lemma UnitsIs(v: real, decimals: nat)
    ensures Units(v, decimals) == (Magnitude(v) * Pow10(decimals) as real + 0.5).Floor
  {
  }

  /** The printing loop. */
  method Emit(buf: array<char>, k: nat, decimals: nat) returns (out: string)
    requires decimals < k <= buf.Length
    ensures out == Emitted(Backwards(buf[..k]), decimals, k)
  {
    out := "";
    ghost var digits := Backwards(buf[..k]);
    var i := k;
    while i > 0
      invariant 0 <= i <= k
      invariant out == Emitted(digits, decimals, k - i)
    {
      assert digits[k - i] == buf[i - 1];
      EmitNext(digits, decimals, k - i);
      if i == decimals {
        out := out + ".";
      }
      out := out + [buf[i - 1]];
      i := i - 1;
    }
  }

  lemma EmitNext(digits: string, decimals: nat, sent: nat)
    requires decimals <= |digits| && sent < |digits|
    ensures Emitted(digits, decimals, sent + 1) == Emitted(digits, decimals, sent)
         + (if |digits| - sent == decimals then "." else "") + [digits[sent]]
  {
    var whole := |digits| - decimals;
    assert digits[..sent + 1] == digits[..sent] + [digits[sent]];
    if sent >= whole {
      assert digits[whole..sent + 1] == digits[whole..sent] + [digits[sent]];
    }
  }

  /** What has been sent after `sent` digits. */
  ghost function Emitted(digits: string, decimals: nat, sent: nat): string
    requires decimals <= |digits| && sent <= |digits|
  {
    var whole := |digits| - decimals;
    if sent <= whole then digits[..sent] else digits[..whole] + "." + digits[whole..sent]
  }

  // ----- read_float -----

  const MAX_INT_DIGITS := 8

  datatype Reading = NoNumber | Number(value: real, next: nat)

  /** The loop's variables: digits seen, the integer of the first eight, the exponent, the point. */
  datatype Scanned = Scanned(ndigit: nat, value: nat, exp: int, decimal: bool)

  /** A line of the interpreter: its text ends at the terminating zero. */
  predicate Terminated(line: string) {
    |line| > 0 && line[|line| - 1] == '\0'
  }

  function TakeDigit(s: Scanned, c: nat): Scanned {
    if s.ndigit < MAX_INT_DIGITS then
      Scanned(s.ndigit + 1, 10 * s.value + c, if s.decimal then s.exp - 1 else s.exp, s.decimal)
    else
      Scanned(s.ndigit + 1, s.value, if s.decimal then s.exp else s.exp + 1, s.decimal)
  }

  /** The loop from position `p` on, with the position of the character that stops it. */
  function Scan(line: string, p: nat, s: Scanned): (r: (Scanned, nat))
    requires Terminated(line) && p < |line|
    ensures p <= r.1 < |line| && (r.1 == p ==> r.0.ndigit == s.ndigit)
    decreases |line| - p
  {
    if IsDigit(line[p]) then Scan(line, p + 1, TakeDigit(s, DigitOf(line[p])))
    else if line[p] == '.' && !s.decimal then Scan(line, p + 1, s.(decimal := true))
    else (s, p)
  }

  /** The value scaled by a power of ten. */
  function Shifted(x: real, exp: int): real {
    if exp >= 0 then x * Pow10(exp) as real else x / Pow10(-exp) as real
  }

  function Read(line: string, at: nat): (reading: Reading)
    requires Terminated(line) && at < |line|
    ensures reading.Number? ==> at < reading.next < |line|
  {
    var negative := line[at] == '-';
    var start := if line[at] == '-' || line[at] == '+' then at + 1 else at;
    var (s, stop) := Scan(line, start, Scanned(0, 0, 0, false));
    if s.ndigit == 0 then NoNumber
    else
      var value := Shifted(s.value as real, s.exp);
      Number(if negative then -value else value, stop)
  }

  method ReadFloat(line: string, charCounter: nat) returns (reading: Reading)
    requires Terminated(line) && charCounter < |line|
    ensures reading == Read(line, charCounter)
  {
    var p := charCounter;
    var negative := false;
    if line[p] == '-' {
      negative := true;
      p := p + 1;
    } else if line[p] == '+' {
      p := p + 1;
    }
    var intval, exp, ndigit, decimal := 0, 0, 0, false;
    ghost var start := p;
    while IsDigit(line[p]) || (line[p] == '.' && !decimal)
      invariant start <= p < |line|
      invariant ndigit >= 0 && intval >= 0
      invariant Scan(line, p, Scanned(ndigit, intval, exp, decimal)) == Scan(line, start, Scanned(0, 0, 0, false))
      decreases |line| - p
    {
      if IsDigit(line[p]) {
        ndigit := ndigit + 1;
        if ndigit <= MAX_INT_DIGITS {
          if decimal {
            exp := exp - 1;
          }
          intval := 10 * intval + DigitOf(line[p]);
        } else if !decimal {
          exp := exp + 1;
        }
      } else {
        decimal := true;
      }
      p := p + 1;
    }
    if ndigit == 0 {
      return NoNumber;
    }
    var value := ApplyExponent(intval as real, exp);
    return Number(if negative then -value else value, p);
  }

  /** The scaling steps after the loop; a zero is left alone. */
  method ApplyExponent(x: real, e: int) returns (value: real)
    ensures value == Shifted(x, e)
  {
    value := x;
    if value != 0.0 {
      var exp := e;
      while exp <= -2
        invariant Shifted(value, exp) == Shifted(x, e)
      {
        assert Pow10(-exp) == 100 * Pow10(-exp - 2);
        HundredthOf(value, Pow10(-exp - 2) as real);
        value := value * 0.01;
        exp := exp + 2;
      }
      if exp < 0 {
        assert Pow10(1) == 10 * Pow10(0);
        value := value * 0.1;
      } else {
        while exp > 0
          invariant exp >= 0
          invariant Shifted(value, exp) == Shifted(x, e)
        {
          assert Pow10(exp) == 10 * Pow10(exp - 1);
          value := value * 10.0;
          exp := exp - 1;
        }
      }
    }
  }

  lemma HundredthOf(x: real, y: real)
    requires y > 0.0
    ensures x / (100.0 * y) == x * 0.01 / y
  {
    DivUnique(x, 100.0 * y, x * 0.01 / y);
  }

  lemma DivUnique(x: real, y: real, q: real)
    requires y > 0.0 && q * y == x
    ensures x / y == q
  {
  }

  // ----- What read_float reads -----

  /** A decimal numeral: optional sign, digits, optional point with more digits. */
  datatype Numeral = Numeral(sign: string, whole: string, point: bool, fraction: string) {
    predicate Ok() {
      && (sign == "" || sign == "-" || sign == "+")
      && AllDigits(whole) && AllDigits(fraction)
      && (point || fraction == "")
    }

    function Digits(): (d: string)
      requires Ok()
      ensures AllDigits(d)
    {
      whole + fraction
    }

    function Text(): string {
      sign + whole + (if point then "." else "") + fraction
    }

    function Negated(x: real): real {
      if sign == "-" then -x else x
    }
  }

  /** How many of `n` digits lie past the eighth. */
  function Dropped(n: nat): nat {
    if n <= MAX_INT_DIGITS then 0 else n - MAX_INT_DIGITS
  }

  /** The integer whose digits are `s`, with every digit past the eighth replaced by a zero. */
  function Kept(s: string): nat
    requires AllDigits(s)
  {
    var p: nat := Pow10(Dropped(|s|));
    var q: nat := Num(s) / p;
    q * p
  }

  /** The text after a numeral cannot continue it. */
  predicate Stops(numeral: Numeral, rest: string) {
    && Terminated(rest)
    && !IsDigit(rest[0])
    && (rest[0] == '.' ==> numeral.point)
    && (numeral.Text() == "" ==> rest[0] != '+' && rest[0] != '-')
  }

  /** The loop's variables after the digits `s`, of which `f` came after the point. */
  function Seen(s: string, f: nat, decimal: bool): Scanned
    requires AllDigits(s)
  {
    var e := Dropped(|s|);
    Scanned(|s|, Num(s) / Pow10(e), e - f, decimal)
  }

  lemma SeenNext(s: string, c: char, f: nat, decimal: bool)
    requires AllDigits(s) && IsDigit(c)
    ensures AllDigits(s + [c])
    ensures TakeDigit(Seen(s, f, decimal), DigitOf(c)) == Seen(s + [c], if decimal then f + 1 else f, decimal)
  {
    assert (s + [c])[..|s|] == s;
    if |s| >= MAX_INT_DIGITS {
      DropOne(Num(s), DigitOf(c), Dropped(|s|));
    }
  }

  lemma DropOne(n: nat, c: nat, e: nat)
    requires c <= 9
    ensures (10 * n + c) / Pow10(e + 1) == n / Pow10(e)
  {
    hide Pow10;
    var p := Pow10(e);
    assert Pow10(e + 1) == 10 * p by { NextPow(e); }
    TenTimes(n, c, p, n / p, n % p);
    DivIs(10 * n + c, 10 * p, n / p, 10 * (n % p) + c);
  }

  lemma NextPow(e: nat)
    ensures Pow10(e + 1) == 10 * Pow10(e)
  {
  }

  lemma TenTimes(n: nat, c: nat, p: nat, q: nat, r: nat)
    requires n == p * q + r
    ensures 10 * n + c == q * (10 * p) + (10 * r + c)
  {
  }

  lemma DivIs(x: nat, y: nat, q: nat, r: nat)
    requires y > 0 && r < y && x == q * y + r
    ensures x / y == q
  {
    if x / y < q {
      MulMonotone(x / y + 1, q, y);
    } else if x / y > q {
      MulMonotone(q + 1, x / y, y);
    }
  }

  /** The loop over a run of digits. */
  lemma {:induction false} ScanDigits(line: string, p: nat, before: string, s: string, f: nat, decimal: bool)
    requires Terminated(line) && AllDigits(before) && AllDigits(s)
    requires p + |s| < |line| && line[p..p + |s|] == s
    ensures Scan(line, p, Seen(before, f, decimal))
         == Scan(line, p + |s|, Seen(before + s, if decimal then f + |s| else f, decimal))
    decreases |s|
  {
    hide Seen, TakeDigit;
    if s == [] {
      assert before + s == before;
    } else {
      assert line[p] == s[0];
      SeenNext(before, s[0], f, decimal);
      var g := if decimal then f + 1 else f;
      ScanDigits(line, p + 1, before + [s[0]], s[1..], g, decimal);
      assert before + [s[0]] + s[1..] == before + s;
    }
  }

  /** What the loop has found when the numeral ends. */
  lemma ScanNumeral(line: string, at: nat, numeral: Numeral, rest: string)
    requires numeral.Ok() && Stops(numeral, rest)
    requires at <= |line| && line[at..] == numeral.whole + (if numeral.point then "." else "") + numeral.fraction + rest
    ensures Terminated(line) && at < |line|
    ensures Scan(line, at, Scanned(0, 0, 0, false))
         == (Seen(numeral.Digits(), |numeral.fraction|, numeral.point), |line| - |rest|)
  {
    hide Seen, Dropped, Num, Scan, TakeDigit, Pow10, AllDigits, Terminated;
    var whole, fraction := numeral.whole, numeral.fraction;
    var tail := line[at..];
    EndsLine(line, at, rest);
    SeenNothing();
    assert "" + whole == whole;
    assert line[at..at + |whole|] == tail[..|whole|] == whole;
    ScanDigits(line, at, "", whole, 0, false);
    assert line[at + |whole|..] == tail[|whole|..];
    if numeral.point {
      assert tail == whole + ("." + fraction + rest);
      ScanFraction(line, at + |whole|, whole, fraction, rest);
    } else {
      assert tail == whole + rest && numeral.Digits() == whole;
      ScanStop(line, at + |whole|, whole, 0, false, rest);
    }
  }

  lemma EndsLine(line: string, at: nat, rest: string)
    requires Terminated(rest)
    requires at <= |line| && |line| - at >= |rest| && line[|line| - |rest|..] == rest
    ensures Terminated(line) && |rest| > 0
  {
    assert line[|line| - 1] == rest[|rest| - 1];
  }

  lemma ScanFraction(line: string, p: nat, whole: string, fraction: string, rest: string)
    requires AllDigits(whole) && AllDigits(fraction)
    requires Terminated(line) && Terminated(rest) && !IsDigit(rest[0])
    requires p <= |line| && line[p..] == "." + fraction + rest
    ensures p < |line| && Scan(line, p, Seen(whole, 0, false))
         == (Seen(whole + fraction, |fraction|, true), |line| - |rest|)
  {
    hide Seen, Dropped, Num, Scan, TakeDigit;
    var tail := line[p..];
    assert line[p] == tail[0] == '.';
    ScanPoint(line, p, whole);
    assert line[p + 1..] == tail[1..] == fraction + rest;
    assert line[p + 1..p + 1 + |fraction|] == fraction;
    ScanDigits(line, p + 1, whole, fraction, 0, true);
    assert line[p + 1 + |fraction|..] == rest;
    ScanStop(line, p + 1 + |fraction|, whole + fraction, |fraction|, true, rest);
  }

  lemma ScanPoint(line: string, p: nat, whole: string)
    requires AllDigits(whole) && Terminated(line) && p + 1 < |line| && line[p] == '.'
    ensures Scan(line, p, Seen(whole, 0, false)) == Scan(line, p + 1, Seen(whole, 0, true))
  {
    SeenPoint(whole);
    SeenDecimal(whole, 0, false);
  }

  lemma ScanStop(line: string, p: nat, s: string, f: nat, decimal: bool, rest: string)
    requires AllDigits(s) && Terminated(line) && p <= |line| && line[p..] == rest != ""
    requires !IsDigit(rest[0]) && (rest[0] == '.' ==> decimal)
    ensures p == |line| - |rest| && Scan(line, p, Seen(s, f, decimal)) == (Seen(s, f, decimal), p)
  {
    assert line[p] == rest[0];
    SeenDecimal(s, f, decimal);
  }

  lemma SeenNothing()
    ensures AllDigits("") && Seen("", 0, false) == Scanned(0, 0, 0, false)
  {
  }

  lemma SeenDecimal(s: string, f: nat, decimal: bool)
    requires AllDigits(s)
    ensures Seen(s, f, decimal).decimal == decimal && Seen(s, f, decimal).ndigit == |s|
  {
  }

  lemma SeenPoint(s: string)
    requires AllDigits(s)
    ensures Seen(s, 0, false).(decimal := true) == Seen(s, 0, true)
  {
  }

  /** Scaling the kept digits by the exponent puts the point where the text has it. */
  lemma ShiftedSeen(s: string, f: nat)
    requires AllDigits(s)
    ensures var seen := Seen(s, f, false);
            Shifted(seen.value as real, seen.exp) == Kept(s) as real / Pow10(f) as real
  {
    hide *;
    SeenParts(s, f);
    ShiftedKept(Num(s) / Pow10(Dropped(|s|)), Dropped(|s|), f, Kept(s));
  }

  lemma ShiftedKept(q: nat, e: nat, f: nat, kept: nat)
    requires kept == q * Pow10(e)
    ensures Shifted(q as real, e - f) == kept as real / Pow10(f) as real
  {
    hide *;
    if e >= f {
      assert e == (e - f) + f;
      ShiftUp(q, e - f, f, kept);
    } else {
      assert f == e + (f - e) && e - f == 0 - (f - e);
      ShiftDown(q, e, f - e, kept);
    }
  }

  lemma SeenParts(s: string, f: nat)
    requires AllDigits(s)
    ensures var e := Dropped(|s|);
            && Seen(s, f, false).value == Num(s) / Pow10(e) && Seen(s, f, false).exp == e - f
            && Kept(s) == Num(s) / Pow10(e) * Pow10(e)
  {
  }

  lemma ShiftUp(q: nat, up: nat, f: nat, kept: nat)
    requires kept == q * Pow10(up + f)
    ensures Shifted(q as real, up) == kept as real / Pow10(f) as real
  {
    hide Pow10;
    PowSum(up, f);
    MulAssoc(q, Pow10(up), Pow10(f));
    DivUnique(kept as real, Pow10(f) as real, (q * Pow10(up)) as real);
  }

  lemma ShiftDown(q: nat, e: nat, down: nat, kept: nat)
    requires kept == q * Pow10(e) && down > 0
    ensures Shifted(q as real, 0 - down) == kept as real / Pow10(e + down) as real
  {
    hide Pow10;
    PowSum(down, e);
    var x := q as real / Pow10(down) as real;
    MulAssocReal(x, Pow10(down) as real, Pow10(e) as real);
    assert x * Pow10(down) as real == q as real;
    DivUnique(kept as real, Pow10(e + down) as real, x);
  }

  lemma MulAssoc(a: nat, b: nat, c: nat)
    ensures a * (b * c) == (a * b) * c
  {
  }

  lemma MulAssocReal(a: real, b: real, c: real)
    ensures a * (b * c) == (a * b) * c
  {
  }

  lemma {:induction false} PowSum(m: nat, n: nat)
    ensures Pow10(m + n) == Pow10(m) * Pow10(n) == Pow10(n) * Pow10(m)
  {
    if m > 0 {
      PowSum(m - 1, n);
      MulAssoc(10, Pow10(m - 1), Pow10(n));
    }
  }

  /**
   * read_float on any numeral, at any place in a line and before any character that cannot continue
   * it: the value is the numeral's with every digit past the eighth read as zero, and the cursor
   * ends just behind the numeral. Without a digit there is no number.
   */
  lemma ReadsNumeral(before: string, numeral: Numeral, rest: string)
    requires numeral.Ok() && Stops(numeral, rest)
    ensures var line := before + numeral.Text() + rest;
            Terminated(line) && |before| < |line| &&
            Read(line, |before|) ==
              if numeral.Digits() == "" then NoNumber
              else Number(numeral.Negated(Kept(numeral.Digits()) as real / Pow10(|numeral.fraction|) as real),
                          |before + numeral.Text()|)
  {
    hide Seen, Kept, Scan, Pow10, Num, Shifted;
    var line := before + numeral.Text() + rest;
    var tail := numeral.whole + (if numeral.point then "." else "") + numeral.fraction + rest;
    assert line[|line| - 1] == rest[|rest| - 1];
    assert line == before + numeral.sign + tail;
    var at := |before|;
    var start := at + |numeral.sign|;
    assert line[start..] == tail;
    assert numeral.sign != "" ==> line[at] == numeral.sign[0];
    assert numeral.sign == "" ==> line[at] == tail[0] && tail[0] != '-' && tail[0] != '+' by {
      if numeral.sign == "" {
        TailStart(numeral, rest);
      }
    }
    ScanNumeral(line, start, numeral, rest);
    SeenDecimal(numeral.Digits(), |numeral.fraction|, numeral.point);
    ShiftedSeen(numeral.Digits(), |numeral.fraction|);
    SeenValue(numeral.Digits(), |numeral.fraction|, numeral.point);
  }

  lemma SeenValue(s: string, f: nat, decimal: bool)
    requires AllDigits(s)
    ensures Seen(s, f, decimal) == Seen(s, f, false).(decimal := decimal)
  {
  }

  lemma TailStart(numeral: Numeral, rest: string)
    requires numeral.Ok() && Stops(numeral, rest) && numeral.sign == ""
    ensures var tail := numeral.whole + (if numeral.point then "." else "") + numeral.fraction + rest;
            tail[0] != '-' && tail[0] != '+'
  {
    if numeral.whole != "" {
      assert IsDigit(numeral.whole[0]);
    }
  }

  // ----- Printing, then reading -----

  /** `v` rounded to `decimals` places, ties away from zero. */
  function Rounded(v: real, decimals: nat): real {
    var r := Units(v, decimals) as real / Pow10(decimals) as real;
    if v < 0.0 then -r else r
  }

  function AsNumeral(v: real, decimals: nat): (numeral: Numeral)
    ensures numeral.Ok() && numeral.Text() == Printed(v, decimals)
    ensures |numeral.fraction| == decimals && numeral.Digits() == Digits(Units(v, decimals), decimals + 1)
    ensures numeral.point <==> decimals > 0
  {
    var digits := Digits(Units(v, decimals), decimals + 1);
    var whole := |digits| - decimals;
    assert digits[..whole] + digits[whole..] == digits;
    Numeral(if v < 0.0 then "-" else "", digits[..whole], decimals > 0, digits[whole..])
  }

  /**
   * Printing a value and reading the text back, for any number of decimals and any text around it:
   * the cursor ends just behind the number, and the value read is the printed one, `v` rounded with
   * ties away from zero, exactly when the printed digits past the eighth are all zeros. In
   * particular whenever at most eight digits are printed.
   */
  lemma RoundTrip(v: real, decimals: nat, before: string, rest: string)
    requires Terminated(rest) && !IsDigit(rest[0]) && (rest[0] == '.' ==> decimals > 0)
    ensures var line := before + Printed(v, decimals) + rest;
            var units := Units(v, decimals);
            var n := |Digits(units, decimals + 1)|;
            Terminated(line) && |before| < |line| &&
            var reading := Read(line, |before|);
            && reading.Number?
            && reading.next == |before + Printed(v, decimals)|
            && (reading.value == Rounded(v, decimals) <==> units % Pow10(Dropped(n)) == 0)
            && (n <= MAX_INT_DIGITS ==> reading.value == Rounded(v, decimals))
  {
    hide Digits, Printed, Units, Read, Num;
    var numeral := AsNumeral(v, decimals);
    assert numeral.Text() != "" by { assert |numeral.Digits()| > 0; }
    ReadsNumeral(before, numeral, rest);
    var units := Units(v, decimals);
    var kept := Kept(numeral.Digits());
    var p := Pow10(decimals) as real;
    SameQuotient(kept as real, units as real, p);
    KeptAll(units, Pow10(Dropped(|numeral.Digits()|)));
    SignOf(v, decimals, numeral);
  }

  lemma KeptAll(n: nat, p: nat)
    requires p > 0
    ensures n / p * p == n <==> n % p == 0
  {
    DivMod(n, p);
  }

  lemma DivMod(n: nat, p: nat)
    requires p > 0
    ensures n == n / p * p + n % p
  {
  }

  lemma SignOf(v: real, decimals: nat, numeral: Numeral)
    requires numeral == AsNumeral(v, decimals)
    ensures numeral.sign == "-" <==> v < 0.0
  {
  }

  lemma SameQuotient(x: real, y: real, p: real)
    requires p > 0.0
    ensures x / p == y / p <==> x == y
  {
    assert (x / p) * p == x && (y / p) * p == y;
  }
}
