/** EEPROM cells and checksummed records (eeprom.c), and where settings.c keeps its records. */
module Eeprom {

  type byte = bv8

  const SIZE: nat := 1024

  /** The byte a running checksum leaves for the next step: the code combines the two shifted halves
      with a logical or, so it is one or zero, not the rotated checksum. */
  function Carry(checksum: byte): byte {
    if checksum << 1 != 0 || checksum >> 7 != 0 then 1 else 0
  }

  function Fold(checksum: byte, b: byte): byte {
    Carry(checksum) + b
  }

  function Checksum(s: seq<byte>): byte {
    if s == [] then 0 else Fold(Checksum(s[..|s| - 1]), s[|s| - 1])
  }

  lemma CarryIsNonZero(c: byte)
    ensures Carry(c) == if c == 0 then 0 else 1
  {
  }

  /** Of a running checksum only matters whether it is zero: whether it is after one more byte. */
  predicate ZeroNext(zero: bool, b: byte) {
    if zero then b == 0 else b == 0xff
  }

  predicate ZeroAfter(s: seq<byte>) {
    if s == [] then true else ZeroNext(ZeroAfter(s[..|s| - 1]), s[|s| - 1])
  }

  lemma {:induction false} ZeroChecksum(s: seq<byte>)
    ensures Checksum(s) == 0 <==> ZeroAfter(s)
  {
    if s != [] {
      hide Checksum, Fold, Carry;
      ZeroChecksum(s[..|s| - 1]);
      LastOne(s);
      FoldIsZero(Checksum(s[..|s| - 1]), s[|s| - 1]);
    }
  }

  lemma LastOne(s: seq<byte>)
    requires s != []
    ensures Checksum(s) == Fold(Checksum(s[..|s| - 1]), s[|s| - 1])
  {
    hide Fold;
  }

  lemma FoldIsZero(c: byte, b: byte)
    ensures Fold(c, b) == 0 <==> ZeroNext(c == 0, b)
  {
    CarryIsNonZero(c);
  }

  /** A byte passes a difference on just when it is 0x00 or 0xff. */
  predicate PassesOn(b: byte) {
    b == 0 || b == 0xff
  }

  lemma {:induction false} DifferenceTravels(s: seq<byte>, i: nat, b: byte, n: nat)
    requires i < n <= |s|
    ensures var t := s[i := b];
            ZeroAfter(s[..n]) != ZeroAfter(t[..n]) <==>
              && ZeroNext(ZeroAfter(s[..i]), s[i]) != ZeroNext(ZeroAfter(s[..i]), b)
              && forall j | i < j < n :: PassesOn(s[j])
    decreases n
  {
    var t := s[i := b];
    assert s[..n][..n - 1] == s[..n - 1] && t[..n][..n - 1] == t[..n - 1];
    if n == i + 1 {
      assert t[..i] == s[..i];
    } else {
      DifferenceTravels(s, i, b, n - 1);
      assert t[n - 1] == s[n - 1];
    }
  }

  lemma NoSum(s: seq<byte>)
    ensures Checksum(s[..0]) == 0
  {
  }

  lemma NextSum(s: seq<byte>, i: nat)
    requires i < |s|
    ensures Checksum(s[..i + 1]) == Fold(Checksum(s[..i]), s[i])
  {
    assert s[..i + 1][..i] == s[..i];
    LastOne(s[..i + 1]);
  }

  /** A changed byte is noticed exactly when it is the last one, or when it changes whether the running
      sum is zero there and every byte between it and the last one is 0x00 or 0xff. */
  lemma WhatIsNoticed(s: seq<byte>, i: nat, b: byte)
    requires i < |s| && s[i] != b
    ensures Checksum(s[i := b]) != Checksum(s) <==>
              || i == |s| - 1
              || (&& ZeroNext(ZeroAfter(s[..i]), s[i]) != ZeroNext(ZeroAfter(s[..i]), b)
                  && forall j | i < j < |s| - 1 :: PassesOn(s[j]))
  {
    var t, n := s[i := b], |s| - 1;
    hide Checksum, Fold, ZeroAfter;
    LastOne(s); LastOne(t);
    ZeroChecksum(s[..n]); ZeroChecksum(t[..n]);
    if i == n {
      assert t[..n] == s[..n];
      OtherByte(Checksum(s[..n]), s[n], b);
    } else {
      DifferenceTravels(s, i, b, n);
      SameByte(Checksum(s[..n]), Checksum(t[..n]), s[n]);
    }
  }

  lemma OtherByte(c: byte, a: byte, b: byte)
    ensures Fold(c, a) == Fold(c, b) <==> a == b
  {
  }

  lemma SameByte(c: byte, d: byte, b: byte)
    ensures Fold(c, b) == Fold(d, b) <==> (c == 0 <==> d == 0)
  {
    CarryIsNonZero(c);
    CarryIsNonZero(d);
  }

  /** So most damage to a record goes unnoticed. */
  lemma DamageUnnoticed(s: seq<byte>, i: nat, b: byte)
    requires i + 2 < |s| && Checksum(s[..|s| - 2]) != 0 && Checksum(s[i := b][..|s| - 2]) != 0
    ensures Checksum(s[i := b]) == Checksum(s)
  {
    hide Fold, Checksum;
    var t := s[i := b];
    LastTwo(s);
    LastTwo(t);
    SameFold(Checksum(s[..|s| - 2]), Checksum(t[..|t| - 2]), s[|s| - 2]);
  }

  lemma SameFold(c: byte, d: byte, b: byte)
    requires c != 0 && d != 0
    ensures Fold(c, b) == Fold(d, b)
  {
    CarryIsNonZero(c);
    CarryIsNonZero(d);
  }

  lemma LastTwo(s: seq<byte>)
    requires |s| >= 2
    ensures Checksum(s) == Fold(Fold(Checksum(s[..|s| - 2]), s[|s| - 2]), s[|s| - 1])
  {
    hide Fold;
    assert s[..|s| - 1][..|s| - 2] == s[..|s| - 2];
  }

  // ---- records -------------------------------------------------------------------------------------

  /** The memory after a record has been written. */
  function Written(c: seq<byte>, destination: nat, data: seq<byte>): (w: seq<byte>)
    requires destination + |data| < |c|
    ensures |w| == |c|
  {
    c[..destination] + data + [Checksum(data)] + c[destination + |data| + 1..]
  }

  function Data(c: seq<byte>, source: nat, size: nat): seq<byte>
    requires source + size < |c|
  {
    c[source..source + size]
  }

  predicate Verifies(c: seq<byte>, source: nat, size: nat)
    requires source + size < |c|
  {
    Checksum(Data(c, source, size)) == c[source + size]
  }

  /** The memory with the first i bytes of a record written. */
  function Partly(c: seq<byte>, destination: nat, data: seq<byte>, i: nat): (w: seq<byte>)
    requires destination + |data| < |c| && i <= |data|
    ensures |w| == |c|
  {
    c[..destination] + data[..i] + c[destination + i..]
  }

  lemma NothingYet(c: seq<byte>, destination: nat, data: seq<byte>)
    requires destination + |data| < |c|
    ensures Partly(c, destination, data, 0) == c
  {
  }

  lemma NextCell(c: seq<byte>, destination: nat, data: seq<byte>, i: nat)
    requires destination + |data| < |c| && i < |data|
    ensures Partly(c, destination, data, i)[destination + i := data[i]] == Partly(c, destination, data, i + 1)
  {
    assert data[..i + 1] == data[..i] + [data[i]];
    assert c[destination + i..] == [c[destination + i]] + c[destination + i + 1..];
  }

  lemma LastCell(c: seq<byte>, destination: nat, data: seq<byte>)
    requires destination + |data| < |c|
    ensures Partly(c, destination, data, |data|)[destination + |data| := Checksum(data)]
            == Written(c, destination, data)
  {
    hide Checksum;
    assert data[..|data|] == data;
    assert c[destination + |data|..][1..] == c[destination + |data| + 1..];
    Replaced(c[..destination] + data, c[destination + |data|..], Checksum(data));
  }

  lemma Replaced(before: seq<byte>, after: seq<byte>, y: byte)
    requires after != []
    ensures (before + after)[|before| := y] == before + [y] + after[1..]
  {
  }

  /** What is written is read back and verifies. */
  lemma RoundTrip(c: seq<byte>, destination: nat, data: seq<byte>)
    requires destination + |data| < |c|
    ensures Verifies(Written(c, destination, data), destination, |data|)
    ensures Data(Written(c, destination, data), destination, |data|) == data
  {
    var w := Written(c, destination, data);
    assert w[destination..destination + |data|] == data;
  }

  /** A coordinate record as it is stored: X at 10.0, Y and Z at zero. */
  const TEN_MM: seq<byte> := [0, 0, 0x20, 0x41, 0, 0, 0, 0, 0, 0, 0, 0]

  /** It may turn into 12.0 in the memory and still verify. */
  lemma DamagedCoordinates(c: seq<byte>, destination: nat)
    requires destination + |TEN_MM| < |c|
    ensures var w := Written(c, destination, TEN_MM);
            var d := w[destination + 2 := 0x40];
            && Verifies(d, destination, |TEN_MM|)
            && Data(d, destination, |TEN_MM|) == TEN_MM[2 := 0x40] != TEN_MM
  {
    hide Checksum, ZeroAfter;
    var w := Written(c, destination, TEN_MM);
    var d := w[destination + 2 := 0x40];
    RoundTrip(c, destination, TEN_MM);
    assert Data(d, destination, |TEN_MM|) == TEN_MM[2 := 0x40];
    WhatIsNoticed(TEN_MM, 2, 0x40);
    assert !PassesOn(TEN_MM[3]);
  }

  /** Writing one record leaves every record elsewhere alone. */
  lemma Undisturbed(c: seq<byte>, destination: nat, data: seq<byte>, source: nat, size: nat)
    requires destination + |data| < |c| && source + size < |c|
    requires source + size < destination || destination + |data| < source
    ensures Data(Written(c, destination, data), source, size) == Data(c, source, size)
    ensures Verifies(Written(c, destination, data), source, size) == Verifies(c, source, size)
  {
    var w := Written(c, destination, data);
    assert forall i | source <= i <= source + size :: w[i] == c[i];
    assert w[source..source + size] == c[source..source + size];
  }

  class Memory {
    const cells: array<byte>

    constructor ()
      ensures cells.Length == SIZE && fresh(cells)
    {
      cells := new byte[SIZE];
    }

    /** eeprom_put_char: erase and write, erase only or write only, whichever is enough.  Erasing sets
        every bit; writing can only clear bits. */
    method PutChar(addr: nat, newValue: byte)
      requires addr < cells.Length
      modifies cells
      ensures cells[..] == old(cells[..])[addr := newValue]
    {
      var oldValue := cells[addr];
      var diffMask := oldValue ^ newValue;
      if diffMask & newValue != 0 {
        if newValue != 0xff {
          cells[addr] := 0xff;
          cells[addr] := cells[addr] & newValue;
          EraseAndWrite(newValue);
        } else {
          cells[addr] := 0xff;
        }
      } else {
        if diffMask != 0 {
          cells[addr] := cells[addr] & newValue;
          WriteOnly(oldValue, newValue);
        } else {
          NoDifference(oldValue, newValue);
        }
      }
      assert cells[addr] == newValue;
    }

    /** memcpy_to_eeprom_with_checksum */
    method WriteRecord(destination: nat, data: seq<byte>)
      requires destination + |data| < cells.Length
      modifies cells
      ensures cells[..] == Written(old(cells[..]), destination, data)
    {
      hide Checksum, Written, Partly;
      var checksum: byte := 0;
      var i := 0;
      ghost var c := cells[..];
      NoSum(data);
      NothingYet(c, destination, data);
      while i < |data|
        invariant i <= |data|
        invariant checksum == Checksum(data[..i])
        invariant cells[..] == Partly(c, destination, data, i)
      {
        checksum := if checksum << 1 != 0 || checksum >> 7 != 0 then 1 else 0;
        checksum := checksum + data[i];
        NextSum(data, i);
        NextCell(c, destination, data, i);
        PutChar(destination + i, data[i]);
        i := i + 1;
      }
      assert data[..i] == data;
      LastCell(c, destination, data);
      PutChar(destination + i, checksum);
    }

    /** memcpy_from_eeprom_with_checksum */
    method ReadRecord(source: nat, size: nat) returns (data: seq<byte>, ok: bool)
      requires source + size < cells.Length
      ensures data == Data(cells[..], source, size)
      ensures ok <==> Verifies(cells[..], source, size)
    {
      var checksum: byte := 0;
      data := [];
      var i := 0;
      while i < size
        invariant i <= size && data == cells[source..source + i] && checksum == Checksum(data)
      {
        checksum := if checksum << 1 != 0 || checksum >> 7 != 0 then 1 else 0;
        checksum := checksum + cells[source + i];
        ghost var was := data;
        data := data + [cells[source + i]];
        assert data[..|data| - 1] == was;
        i := i + 1;
      }
      ok := checksum == cells[source + size];
    }
  }

  lemma EraseAndWrite(new_: byte)
    ensures 0xff & new_ == new_
  {
  }

  lemma WriteOnly(was: byte, new_: byte)
    requires (was ^ new_) & new_ == 0
    ensures was & new_ == new_
  {
  }

  lemma NoDifference(was: byte, new_: byte)
    requires was ^ new_ == 0
    ensures was == new_
  {
  }

  // ---- where records lie -----------------------------------------------------------------------------

  const EEPROM_ADDR_GLOBAL: nat := 1
  const EEPROM_ADDR_PARAMETERS: nat := 512
  const EEPROM_ADDR_STARTUP_BLOCK: nat := 768
  const EEPROM_ADDR_BUILD_INFO: nat := 942
  const LINE_BUFFER_SIZE: nat := 80
  const COORD_SIZE: nat := 12
  const N_COORDINATE_SYSTEM: nat := 6
  const SETTING_INDEX_G28: nat := 6
  const SETTING_INDEX_G30: nat := 7

  /** settings_size: the size of the settings structure, which depends on the compiler's layout. */
  datatype Record = Global(settingsSize: nat) | Coord(index: nat) | StartupLine(n: nat) | BuildInfo
  {
    predicate Exists() {
      match this
      case Global(n) => n <= 509
      case Coord(i) => i <= SETTING_INDEX_G30
      case StartupLine(n) => n < 2
      case BuildInfo => true
    }

    function Address(): nat {
      match this
      case Global(_) => EEPROM_ADDR_GLOBAL
      case Coord(i) => i * (COORD_SIZE + 1) + EEPROM_ADDR_PARAMETERS
      case StartupLine(n) => n * (LINE_BUFFER_SIZE + 1) + EEPROM_ADDR_STARTUP_BLOCK
      case BuildInfo => EEPROM_ADDR_BUILD_INFO
    }

    function Size(): nat {
      match this
      case Global(n) => n
      case Coord(_) => COORD_SIZE
      case StartupLine(_) => LINE_BUFFER_SIZE
      case BuildInfo => LINE_BUFFER_SIZE
    }
  }

  /** All records, with their checksum bytes, lie in the memory and apart from each other and from the
      version byte at address 0. */
  lemma RecordsApart(a: Record, b: Record)
    requires a.Exists() && b.Exists() && a != b && !(a.Global? && b.Global?)
    ensures 0 < a.Address() && a.Address() + a.Size() < SIZE
    ensures a.Address() + a.Size() < b.Address() || b.Address() + b.Size() < a.Address()
  {
  }

  /** Storing any record leaves all others as they read. */
  lemma StoreOne(c: seq<byte>, a: Record, data: seq<byte>, b: Record)
    requires |c| == SIZE && a.Exists() && b.Exists() && a != b && !(a.Global? && b.Global?) && |data| == a.Size()
    ensures a.Address() + |data| < SIZE && b.Address() + b.Size() < SIZE
    ensures var w := Written(c, a.Address(), data);
            && Data(w, a.Address(), a.Size()) == data && Verifies(w, a.Address(), a.Size())
            && Data(w, b.Address(), b.Size()) == Data(c, b.Address(), b.Size())
            && Verifies(w, b.Address(), b.Size()) == Verifies(c, b.Address(), b.Size())
  {
    RecordsApart(a, b);
    RecordsApart(b, a);
    RoundTrip(c, a.Address(), data);
    Undisturbed(c, a.Address(), data, b.Address(), b.Size());
  }
}
