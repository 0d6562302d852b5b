/** The check value of every entry point: its CRC of the nine characters "123456789", as the
    comments of FastCRCsw.cpp give it. */
module CrcChecks {
  import opened Bits
  import opened ShiftRegister
  import opened FastCrc
  import opened CrcUpdates
  import opened CrcProperties
  import opened CrcResidues

  // ---------------------------------------------------------------- a register as a machine word

  function FourTurns(poly: bv32, c: bv32): bv32 { Turn(poly, Turn(poly, Turn(poly, Turn(poly, c)))) }

  /** The register after one more byte. */
  function Taken(poly: bv32, c: bv32, b: bv32): bv32 { FourTurns(poly, FourTurns(poly, Plus(c, b))) }

  lemma TakenIsTurns(poly: bv32, c: bv32, b: bv32)
    ensures Taken(poly, c, b) == Turns(poly, Plus(c, b), 8)
  {
    hide Turn, Plus;
    FourAre(poly, Plus(c, b));
    FourAre(poly, FourTurns(poly, Plus(c, b)));
    TurnsSum(poly, Plus(c, b), 4, 4);
    hide Turns, FourTurns;
  }

  lemma FourAre(poly: bv32, c: bv32)
    ensures FourTurns(poly, c) == Turns(poly, c, 4)
  {
    hide Turn;
    var d := Turn(poly, Turn(poly, c));
    assert Turns(poly, c, 4) == Turns(poly, d, 2);
  }

  function Machine(poly: bv32, c: bv32, bytes: seq<bv32>): bv32 {
    if bytes == [] then c else Taken(poly, Machine(poly, c, bytes[..|bytes| - 1]), bytes[|bytes| - 1])
  }

  function BitsOf(bytes: seq<bv32>): seq<bool> {
    if bytes == [] then [] else BitsOf(bytes[..|bytes| - 1]) + Low(bytes[|bytes| - 1], 8)
  }

  ghost predicate AreBytes(bytes: seq<bv32>) { forall i :: 0 <= i < |bytes| ==> Within(bytes[i], 8) }

  lemma WithinMore(c: bv32, w: nat)
    requires w >= 8 && Within(c, 8)
    ensures Within(c, w) && Low(c, w) == Low(c, 8) + Zero(w - 8)
  {
    hide Low, Halved;
    LowSplits(c, 8, w - 8);
    NothingLeft(w - 8);
  }

  lemma {:induction false} NothingLeft(w: nat)
    ensures Within(0, w) && Low(0, w) == Zero(w)
  {
    Halves(0, 0);
    hide Odd, Half;
    if w > 0 {
      NothingLeft(w - 1);
      assert Zero(w) == [false] + Zero(w - 1);
    }
  }

  lemma TakenIsSerial(poly: bv32, c: bv32, b: bv32, w: nat)
    requires w >= 8 && Within(poly, w) && Within(c, w) && Within(b, 8)
    ensures Low(Taken(poly, c, b), w) == Serial(Low(poly, w), Low(c, w), Low(b, 8)) && Within(Taken(poly, c, b), w)
  {
    hide Low, Within, Plus, Turns, Serial, Zeros, Taken;
    TakenIsTurns(poly, c, b);
    WithinMore(b, w);
    LowPlus(c, b, w);
    SerialAtOnce(Low(poly, w), Low(c, w), Low(b, 8));
    TurnsAreZeros(poly, Plus(c, b), w, 8);
    TurnsWithin(poly, Plus(c, b), w, 8);
  }

  lemma {:induction false} TurnsWithin(poly: bv32, c: bv32, w: nat, n: nat)
    requires 0 < w && Within(poly, w) && Within(c, w)
    ensures Within(Turns(poly, c, n), w)
    decreases n
  {
    hide Low, Turn, Within;
    if n > 0 {
      TurnIsStep(poly, c, w);
      TurnsWithin(poly, Turn(poly, c), w, n - 1);
    }
  }

  lemma {:induction false} MachineIsSerial(poly: bv32, c: bv32, bytes: seq<bv32>, w: nat)
    requires w >= 8 && Within(poly, w) && Within(c, w) && AreBytes(bytes)
    ensures Low(Machine(poly, c, bytes), w) == Serial(Low(poly, w), Low(c, w), BitsOf(bytes))
    ensures Within(Machine(poly, c, bytes), w)
  {
    hide Low, Within, Taken;
    if bytes == [] {
      return;
    }
    var init, b := bytes[..|bytes| - 1], bytes[|bytes| - 1];
    MachineIsSerial(poly, c, init, w);
    TakenIsSerial(poly, Machine(poly, c, init), b, w);
    SerialConcat(Low(poly, w), Low(c, w), BitsOf(init), Low(b, 8));
    hide Serial;
  }

  /** The states s are what the register goes through. */
  ghost predicate GoesThrough(poly: bv32, c: bv32, bytes: seq<bv32>, s: seq<bv32>) {
    && |s| == |bytes| && (s != [] ==> s[0] == Taken(poly, c, bytes[0]))
    && forall i :: 1 <= i < |s| ==> s[i] == Taken(poly, s[i - 1], bytes[i])
  }

  lemma {:induction false} MachineGoesThrough(poly: bv32, c: bv32, bytes: seq<bv32>, s: seq<bv32>)
    requires GoesThrough(poly, c, bytes, s)
    ensures Machine(poly, c, bytes) == if s == [] then c else s[|s| - 1]
  {
    hide Taken;
    if s != [] {
      var n := |s| - 1;
      assert forall i :: 0 <= i < n ==> s[..n][i] == s[i] && bytes[..n][i] == bytes[i];
      MachineGoesThrough(poly, c, bytes[..n], s[..n]);
    }
  }

  // ---------------------------------------------------------------- the nine characters

  const DIGITS: seq<bv32> := [0x31, 0x32, 0x33, 0x34, 0x35, 0x36, 0x37, 0x38, 0x39]

  /** The same with the bits of every byte reversed. */
  const MIRRORED: seq<bv32> := [0x8c, 0x4c, 0xcc, 0x2c, 0xac, 0x6c, 0xec, 0x1c, 0x9c]

  /** "123456789" */
  function Digits(): Bytes { seq(9, i requires 0 <= i < 9 => Low(DIGITS[i], 8)) }

  lemma {:induction false} MessageIs(order: Order, data: Bytes, bytes: seq<bv32>)
    requires |data| == |bytes| && forall i :: 0 <= i < |data| ==> Store(order, data[i]) == Low(bytes[i], 8)
    ensures Message(order, data) == BitsOf(bytes)
  {
    if data != [] {
      var n := |data| - 1;
      MessageIs(order, data[..n], bytes[..n]);
    }
  }

  lemma DigitIs(i: nat)
    requires i < 9
    ensures Mirrored(DIGITS[i], MIRRORED[i])
    ensures DIGITS[i] >> 8 == 0 && MIRRORED[i] >> 8 == 0
  {
  }

  lemma DigitsMessage()
    ensures Message(Reflected, Digits()) == BitsOf(DIGITS) && AreBytes(DIGITS)
    ensures Message(Plain, Digits()) == BitsOf(MIRRORED) && AreBytes(MIRRORED)
  {
    hide Low, Mirrored, Message, BitsOf, Halved;
    forall i: nat | i < 9
      ensures Flip(Low(DIGITS[i], 8)) == Low(MIRRORED[i], 8)
      ensures Within(DIGITS[i], 8) && Within(MIRRORED[i], 8)
    {
      DigitIs(i);
      MirrorByte(DIGITS[i], MIRRORED[i]);
      FlipByte(Low(DIGITS[i], 8));
      HalvedEight(DIGITS[i]);
      HalvedEight(MIRRORED[i]);
    }
    MessageIs(Reflected, Digits(), DIGITS);
    MessageIs(Plain, Digits(), MIRRORED);
  }

  // ---------------------------------------------------------------- what the registers go through

  lemma CcittFirst()
    ensures Taken(0x8408, 0xffff, 0x8c) == 0x41e3 && Taken(0x8408, 0x41e3, 0x4c) == 0x5dbc
            && Taken(0x8408, 0x5dbc, 0xcc) == 0x73da && Taken(0x8408, 0x73da, 0x2c) == 0x92ca
            && Taken(0x8408, 0x92ca, 0xac) == 0x6a2
  {
  }

  lemma CcittLast()
    ensures Taken(0x8408, 0x6a2, 0x6c) == 0x2f74 && Taken(0x8408, 0x2f74, 0xec) == 0x18ee
            && Taken(0x8408, 0x18ee, 0x1c) == 0xd485 && Taken(0x8408, 0xd485, 0x9c) == 0x8d94
  {
  }

  lemma CcittRuns()
    ensures Machine(0x8408, 0xffff, MIRRORED) == 0x8d94
  {
    hide Taken;
    CcittFirst();
    CcittLast();
    var s: seq<bv32> := [0x41e3, 0x5dbc, 0x73da, 0x92ca, 0x6a2]
                        + [0x2f74, 0x18ee, 0xd485, 0x8d94];
    MachineGoesThrough(0x8408, 0xffff, MIRRORED, s);
  }

  lemma XmodemFirst()
    ensures Taken(0x8408, 0, 0x8c) == 0x4e64 && Taken(0x8408, 0x4e64, 0x4c) == 0xad04
            && Taken(0x8408, 0xad04, 0xcc) == 0x4ae9 && Taken(0x8408, 0x4ae9, 0x2c) == 0x91eb
            && Taken(0x8408, 0x91eb, 0xac) == 0x362a
  {
  }

  lemma XmodemLast()
    ensures Taken(0x8408, 0x362a, 0x6c) == 0x2704 && Taken(0x8408, 0x2704, 0xec) == 0x6b61
            && Taken(0x8408, 0x6b61, 0x1c) == 0xa809 && Taken(0x8408, 0xa809, 0x9c) == 0xc38c
  {
  }

  lemma XmodemRuns()
    ensures Machine(0x8408, 0, MIRRORED) == 0xc38c
  {
    hide Taken;
    XmodemFirst();
    XmodemLast();
    var s: seq<bv32> := [0x4e64, 0xad04, 0x4ae9, 0x91eb, 0x362a]
                        + [0x2704, 0x6b61, 0xa809, 0xc38c];
    MachineGoesThrough(0x8408, 0, MIRRORED, s);
  }

  lemma KermitFirst()
    ensures Taken(0x8408, 0, 0x31) == 0x200a && Taken(0x8408, 0x200a, 0x32) == 0xbdeb
            && Taken(0x8408, 0xbdeb, 0x33) == 0x5a78 && Taken(0x8408, 0x5a78, 0x34) == 0x8832
            && Taken(0x8408, 0x8832, 0x35) == 0x7437
  {
  }

  lemma KermitLast()
    ensures Taken(0x8408, 0x7437, 0x36) == 0x11fd && Taken(0x8408, 0x11fd, 0x37) == 0x6947
            && Taken(0x8408, 0x6947, 0x38) == 0x8b19 && Taken(0x8408, 0x8b19, 0x39) == 0x2189
  {
  }

  lemma KermitRuns()
    ensures Machine(0x8408, 0, DIGITS) == 0x2189
  {
    hide Taken;
    KermitFirst();
    KermitLast();
    var s: seq<bv32> := [0x200a, 0xbdeb, 0x5a78, 0x8832, 0x7437]
                        + [0x11fd, 0x6947, 0x8b19, 0x2189];
    MachineGoesThrough(0x8408, 0, DIGITS, s);
  }

  lemma X25First()
    ensures Taken(0x8408, 0xffff, 0x31) == 0x2f8d && Taken(0x8408, 0x2f8d, 0x32) == 0x4d53
            && Taken(0x8408, 0x4d53, 0x33) == 0x634b && Taken(0x8408, 0x634b, 0x34) == 0x8b13
            && Taken(0x8408, 0x8b13, 0x35) == 0x44bf
  {
  }

  lemma X25Last()
    ensures Taken(0x8408, 0x44bf, 0x36) == 0x198d && Taken(0x8408, 0x198d, 0x37) == 0x1ac8
            && Taken(0x8408, 0x1ac8, 0x38) == 0xf795 && Taken(0x8408, 0xf795, 0x39) == 0x6f91
  {
  }

  lemma X25Runs()
    ensures Machine(0x8408, 0xffff, DIGITS) == 0x6f91
  {
    hide Taken;
    X25First();
    X25Last();
    var s: seq<bv32> := [0x2f8d, 0x4d53, 0x634b, 0x8b13, 0x44bf]
                        + [0x198d, 0x1ac8, 0xf795, 0x6f91];
    MachineGoesThrough(0x8408, 0xffff, DIGITS, s);
  }

  lemma ModbusFirst()
    ensures Taken(0xa001, 0xffff, 0x31) == 0x947e && Taken(0xa001, 0x947e, 0x32) == 0xf595
            && Taken(0xa001, 0xf595, 0x33) == 0x7a75 && Taken(0xa001, 0x7a75, 0x34) == 0x30ba
            && Taken(0xa001, 0x30ba, 0x35) == 0xa471
  {
  }

  lemma ModbusLast()
    ensures Taken(0xa001, 0xa471, 0x36) == 0x32e4 && Taken(0xa001, 0x32e4, 0x37) == 0x9d73
            && Taken(0xa001, 0x9d73, 0x38) == 0x37dd && Taken(0xa001, 0x37dd, 0x39) == 0x4b37
  {
  }

  lemma ModbusRuns()
    ensures Machine(0xa001, 0xffff, DIGITS) == 0x4b37
  {
    hide Taken;
    ModbusFirst();
    ModbusLast();
    var s: seq<bv32> := [0x947e, 0xf595, 0x7a75, 0x30ba, 0xa471]
                        + [0x32e4, 0x9d73, 0x37dd, 0x4b37];
    MachineGoesThrough(0xa001, 0xffff, DIGITS, s);
  }

  lemma Crc32First()
    ensures Taken(0xedb88320, 0xffffffff, 0x31) == 0x7c231048 && Taken(0xedb88320, 0x7c231048, 0x32) == 0xb0acbb32
            && Taken(0xedb88320, 0xb0acbb32, 0x33) == 0x77b79c2d && Taken(0xedb88320, 0x77b79c2d, 0x34) == 0x641c1f5c
            && Taken(0xedb88320, 0x641c1f5c, 0x35) == 0x340ac5e3
  {
  }

  lemma Crc32Last()
    ensures Taken(0xedb88320, 0x340ac5e3, 0x36) == 0xf68d2c9e && Taken(0xedb88320, 0xf68d2c9e, 0x37) == 0xaffc9660
            && Taken(0xedb88320, 0xaffc9660, 0x38) == 0x651f2550 && Taken(0xedb88320, 0x651f2550, 0x39) == 0x340bc6d9
  {
  }

  lemma Crc32Runs()
    ensures Machine(0xedb88320, 0xffffffff, DIGITS) == 0x340bc6d9
  {
    hide Taken;
    Crc32First();
    Crc32Last();
    var s: seq<bv32> := [0x7c231048, 0xb0acbb32, 0x77b79c2d, 0x641c1f5c, 0x340ac5e3]
                        + [0xf68d2c9e, 0xaffc9660, 0x651f2550, 0x340bc6d9];
    MachineGoesThrough(0xedb88320, 0xffffffff, DIGITS, s);
  }

  lemma CksumFirst()
    ensures Taken(0xedb88320, 0, 0x8c) == 0xe40ecf0b && Taken(0xedb88320, 0xe40ecf0b, 0x4c) == 0xe85cdafc
            && Taken(0xedb88320, 0xe85cdafc, 0xcc) == 0x26316c76 && Taken(0xedb88320, 0x26316c76, 0x2c) == 0x8b988986
            && Taken(0xedb88320, 0x8b988986, 0xac) == 0xdb30515f
  {
  }

  lemma CksumLast()
    ensures Taken(0xedb88320, 0xdb30515f, 0x6c) == 0xbf0b5147 && Taken(0xedb88320, 0xbf0b5147, 0xec) == 0x41bb7131
            && Taken(0xedb88320, 0x41bb7131, 0x1c) == 0x459ee704 && Taken(0xedb88320, 0x459ee704, 0x9c) == 0xfe918591
  {
  }

  lemma CksumRuns()
    ensures Machine(0xedb88320, 0, MIRRORED) == 0xfe918591
  {
    hide Taken;
    CksumFirst();
    CksumLast();
    var s: seq<bv32> := [0xe40ecf0b, 0xe85cdafc, 0x26316c76, 0x8b988986, 0xdb30515f]
                        + [0xbf0b5147, 0x41bb7131, 0x459ee704, 0xfe918591];
    MachineGoesThrough(0xedb88320, 0, MIRRORED, s);
  }

  lemma SmbusFirst()
    ensures Taken(0xe0, 0, 0x8c) == 0xe9 && Taken(0xe0, 0xe9, 0x4c) == 0x4e
            && Taken(0xe0, 0x4e, 0xcc) == 0x3 && Taken(0xe0, 0x3, 0x2c) == 0x43
            && Taken(0xe0, 0x43, 0xac) == 0xd3
  {
  }

  lemma SmbusLast()
    ensures Taken(0xe0, 0xd3, 0x6c) == 0xbf && Taken(0xe0, 0xbf, 0xec) == 0x1e
            && Taken(0xe0, 0x1e, 0x1c) == 0xe3 && Taken(0xe0, 0xe3, 0x9c) == 0x2f
  {
  }

  lemma SmbusRuns()
    ensures Machine(0xe0, 0, MIRRORED) == 0x2f
  {
    hide Taken;
    SmbusFirst();
    SmbusLast();
    var s: seq<bv32> := [0xe9, 0x4e, 0x3, 0x43, 0xd3]
                        + [0xbf, 0x1e, 0xe3, 0x2f];
    MachineGoesThrough(0xe0, 0, MIRRORED, s);
  }

  lemma MaximFirst()
    ensures Taken(0x8c, 0, 0x31) == 0xe0 && Taken(0x8c, 0xe0, 0x32) == 0xeb
            && Taken(0x8c, 0xeb, 0x33) == 0x95 && Taken(0x8c, 0x95, 0x34) == 0xf1
            && Taken(0x8c, 0xf1, 0x35) == 0xab
  {
  }

  lemma MaximLast()
    ensures Taken(0x8c, 0xab, 0x36) == 0xec && Taken(0x8c, 0xec, 0x37) == 0x77
            && Taken(0x8c, 0x77, 0x38) == 0x7 && Taken(0x8c, 0x7, 0x39) == 0xa1
  {
  }

  lemma MaximRuns()
    ensures Machine(0x8c, 0, DIGITS) == 0xa1
  {
    hide Taken;
    MaximFirst();
    MaximLast();
    var s: seq<bv32> := [0xe0, 0xeb, 0x95, 0xf1, 0xab]
                        + [0xec, 0x77, 0x7, 0xa1];
    MachineGoesThrough(0x8c, 0, DIGITS, s);
  }

  lemma Crc7First()
    ensures Taken(0x48, 0, 0x8c) == 0x22 && Taken(0x48, 0x22, 0x4c) == 0x4f
            && Taken(0x48, 0x4f, 0xcc) == 0x1a && Taken(0x48, 0x1a, 0x2c) == 0x2e
            && Taken(0x48, 0x2e, 0xac) == 0x5b
  {
  }

  lemma Crc7Last()
    ensures Taken(0x48, 0x5b, 0x6c) == 0x6f && Taken(0x48, 0x6f, 0xec) == 0x1a
            && Taken(0x48, 0x1a, 0x1c) == 0x35 && Taken(0x48, 0x35, 0x9c) == 0x57
  {
  }

  lemma Crc7Runs()
    ensures Machine(0x48, 0, MIRRORED) == 0x57
  {
    hide Taken;
    Crc7First();
    Crc7Last();
    var s: seq<bv32> := [0x22, 0x4f, 0x1a, 0x2e, 0x5b]
                        + [0x6f, 0x1a, 0x35, 0x57];
    MachineGoesThrough(0x48, 0, MIRRORED, s);
  }

  // ---------------------------------------------------------------- the check values

  /** The CRC of the nine characters, once polynomial, start and last state are machine words. */
  lemma Checked(a: Algorithm, w: nat, poly: bv32, init: bv32, bytes: seq<bv32>, m: bv32)
    requires w >= 8 && a.poly == Low(poly, w) && a.init == Low(init, w) && Within(poly, w) && Within(init, w)
    requires bytes == if a.order.Reflected? then DIGITS else MIRRORED
    requires Machine(poly, init, bytes) == m
    ensures Crc(a, Digits()) == Value(a, Low(m, w))
  {
    hide Low, Within, Machine, Serial, Message, Value, Taken, BitsOf;
    DigitsMessage();
    MachineIsSerial(poly, init, bytes, w);
  }

  lemma Complemented(m: bv32, ones: bv32, w: nat, v: bv32)
    requires Low(ones, w) == Ones(w) && Plus(m, ones) == v
    ensures Not(Low(m, w)) == Low(v, w)
  {
    hide Low, Within, Plus;
    LowPlus(m, ones, w);
    assert Xor(Low(m, w), Ones(w)) == Not(Low(m, w));
  }

  lemma Polynomials8()
    ensures Hex(0x07, 8) == Low(0xe0, 8) && Hex(0x31, 8) == Low(0x8c, 8)
    ensures Hex(0x09, 7) + [false] == Low(0x48, 8)
    ensures Within(0xe0, 8) && Within(0x8c, 8) && Within(0x48, 8) && Within(0, 8) && Low(0, 8) == Zero(8)
  {
    MirrorByte(0x07, 0xe0);
    MirrorByte(0x31, 0x8c);
    MirrorByte(0x12, 0x48);
    NothingLeft(8);
    HalvedEight(0xe0);
    HalvedEight(0x8c);
    HalvedEight(0x48);
    assert Low(0x12, 8) == [false] + Low(0x09, 7);
    hide Low;
    ReverseConcat([false], Low(0x09, 7));
    assert Reverse([false]) == [false];
    hide Reverse;
  }

  lemma Polynomials16()
    ensures Hex(0x1021, 16) == Low(0x8408, 16) && Hex(0x8005, 16) == Low(0xa001, 16)
    ensures Within(0x8408, 16) && Within(0xa001, 16)
    ensures Within(0, 16) && Low(0, 16) == Zero(16) && Within(0xffff, 16) && Low(0xffff, 16) == Ones(16)
  {
    hide Low, Reverse, Halved;
    Poly16();
    HalvedEight(0x8005);
    HalvedEight(0xa001);
    HalvedEight(0xa0);
    Mirror16(0x8005, 0x80, 0xa001, 0xa0);
    NothingLeft(16);
    Full16();
  }

  lemma Checks8()
    ensures Crc(Smbus(), Digits()) == Low(0xf4, 8)
    ensures Crc(Maxim(), Digits()) == Low(0xa1, 8)
  {
    hide Low, Machine, Crc, Within, Hex, Reverse;
    Polynomials8();
    SmbusRuns();
    MaximRuns();
    Checked(Smbus(), 8, 0xe0, 0, MIRRORED, 0x2f);
    MirrorByte(0x2f, 0xf4);
    Checked(Maxim(), 8, 0x8c, 0, DIGITS, 0xa1);
  }

  /** crc7 returns its seven bits in a byte. */
  lemma Check7()
    ensures Crc(Crc7(), Digits()) + [false] == Low(0x75, 8)
  {
    hide Low, Machine, Within, Serial, Message, Hex, Reverse;
    Polynomials8();
    Crc7Runs();
    DigitsMessage();
    var p := Crc7();
    MachineIsSerial(0x48, 0, MIRRORED, 8);
    var r := Serial(p.poly, p.init, Message(Plain, Digits()));
    SevenInEight(p.poly, p.init, Message(Plain, Digits()));
    assert p.init + [false] == Zero(8);
    Seven(r);
  }

  lemma Seven(r: Word)
    requires |r| == 7 && r + [false] == Low(0x57, 8)
    ensures Reverse(r) + [false] == Low(0x75, 8)
  {
    MirrorByte(0xae, 0x75);
    assert Low(0xae, 8) == [false] + Low(0x57, 7);
    assert Low(0x57, 8)[..7] == Low(0x57, 7);
    hide Low;
    ReverseConcat([false], r);
    assert Reverse([false]) == [false];
    hide Reverse;
  }

  lemma Mirrored16()
    ensures Reverse(Low(0x8d94, 16)) == Low(0x29b1, 16) && Reverse(Low(0xc38c, 16)) == Low(0x31c3, 16)
  {
    hide Low, Reverse, Halved;
    HalvedEight(0x8d94);
    HalvedEight(0x29b1);
    HalvedEight(0xc38c);
    HalvedEight(0x31c3);
    Mirror16(0x8d94, 0x8d, 0x29b1, 0x29);
    Mirror16(0xc38c, 0xc3, 0x31c3, 0x31);
  }

  lemma Checks16()
    ensures Crc(Ccitt(), Digits()) == Low(0x29b1, 16)
    ensures Crc(Xmodem(), Digits()) == Low(0x31c3, 16)
    ensures Crc(Kermit(), Digits()) == Low(0x2189, 16)
    ensures Crc(Modbus(), Digits()) == Low(0x4b37, 16)
  {
    hide Low, Machine, Crc, Within, Hex, Reverse;
    Polynomials16();
    CcittRuns();
    XmodemRuns();
    KermitRuns();
    ModbusRuns();
    Checked(Ccitt(), 16, 0x8408, 0xffff, MIRRORED, 0x8d94);
    Mirrored16();
    Checked(Xmodem(), 16, 0x8408, 0, MIRRORED, 0xc38c);
    Checked(Kermit(), 16, 0x8408, 0, DIGITS, 0x2189);
    Checked(Modbus(), 16, 0xa001, 0xffff, DIGITS, 0x4b37);
  }

  /** mcrf4xx as coded gives kermit's check value, and would give its own from its own start. */
  lemma ChecksX25()
    ensures Crc(X25(), Digits()) == Low(0x906e, 16)
    ensures Crc(Mcrf4xxDocumented(), Digits()) == Low(0x6f91, 16)
    ensures Crc(Mcrf4xx(), Digits()) == Low(0x2189, 16)
  {
    hide Low, Machine, Crc, Within, Hex, Reverse;
    Polynomials16();
    X25Runs();
    Checked(X25(), 16, 0x8408, 0xffff, DIGITS, 0x6f91);
    Complemented(0x6f91, 0xffff, 16, 0x906e);
    Checked(Mcrf4xxDocumented(), 16, 0x8408, 0xffff, DIGITS, 0x6f91);
    KermitRuns();
    Checked(Mcrf4xx(), 16, 0x8408, 0, DIGITS, 0x2189);
  }

  lemma CksumMirrored()
    ensures Reverse(Low(0xfe918591, 32)) == Low(0x89a1897f, 32)
  {
    hide Low, Reverse, Halved;
    HalvedEight(0xfe918591);
    HalvedEight(0xfe9185);
    HalvedEight(0xfe91);
    HalvedEight(0x89a1897f);
    HalvedEight(0x89a189);
    HalvedEight(0x89a1);
    Mirror32(0xfe918591, 0xfe9185, 0xfe91, 0xfe, 0x89a1897f, 0x89a189, 0x89a1, 0x89);
  }

  lemma Checks32()
    ensures Crc(Crc32(), Digits()) == Low(0xcbf43926, 32)
    ensures Crc(Cksum(), Digits()) == Low(0x765e7680, 32)
  {
    hide Low, Machine, Crc, Within, Hex, Reverse;
    Poly32();
    Full32();
    NothingLeft(32);
    Crc32Runs();
    CksumRuns();
    Checked(Crc32(), 32, 0xedb88320, 0xffffffff, DIGITS, 0x340bc6d9);
    Complemented(0x340bc6d9, 0xffffffff, 32, 0xcbf43926);
    Checked(Cksum(), 32, 0xedb88320, 0, MIRRORED, 0xfe918591);
    CksumMirrored();
    Complemented(0x89a1897f, 0xffffffff, 32, 0x765e7680);
  }
}
