/** The good final values that RFC 1662 prints for frames, computed on machine words. */
module CrcResidues {
  import opened Bits
  import opened ShiftRegister
  import opened FastCrc
  import opened CrcUpdates
  import opened CrcProperties

  // ---------------------------------------------------------------- registers as machine words

  function Plus(a: bv32, b: bv32): bv32 { a ^ b }

  function Halved(c: bv32, m: nat): bv32
    decreases m
  {
    if m == 0 then c else Halved(Half(c), m - 1)
  }

  /** No bit of the machine word lies beyond the first w. */
  predicate Within(c: bv32, w: nat) { Halved(c, w) == 0 }

  /** One step of a register shifted right, its polynomial reversed. */
  function Turn(poly: bv32, c: bv32): bv32 {
    if Odd(c) then Plus(Half(c), poly) else Half(c)
  }

  function Turns(poly: bv32, c: bv32, n: nat): bv32
    decreases n
  {
    if n == 0 then c else Turns(poly, Turn(poly, c), n - 1)
  }

  lemma Halves(a: bv32, b: bv32)
    ensures Half(Plus(a, b)) == Plus(Half(a), Half(b))
    ensures Odd(Plus(a, b)) <==> (Odd(a) != Odd(b))
    ensures Plus(0, 0) == Half(0) == 0 && !Odd(0)
  {
  }

  lemma {:induction false} LowPlus(a: bv32, b: bv32, w: nat)
    ensures Low(Plus(a, b), w) == Xor(Low(a, w), Low(b, w))
    ensures Within(a, w) && Within(b, w) ==> Within(Plus(a, b), w)
    decreases w
  {
    hide Odd, Half, Plus;
    Halves(a, b);
    if w > 0 {
      LowPlus(Half(a), Half(b), w - 1);
      XorConcat([Odd(a)], Low(Half(a), w - 1), [Odd(b)], Low(Half(b), w - 1));
    }
  }

  lemma {:induction false} LowHalf(c: bv32, w: nat)
    requires 0 < w && Within(c, w)
    ensures Low(Half(c), w) == Low(c, w)[1..] + [false]
    ensures Within(Half(c), w)
    decreases w
  {
    hide Odd, Half;
    Halves(0, 0);
    if w > 1 {
      LowHalf(Half(c), w - 1);
    } else {
      assert Within(Half(c), 0);
    }
  }

  lemma TurnIsStep(poly: bv32, c: bv32, w: nat)
    requires 0 < w && Within(poly, w) && Within(c, w)
    ensures Low(Turn(poly, c), w) == Step(Low(poly, w), Low(c, w))
    ensures Within(Turn(poly, c), w)
  {
    hide Odd, Half, Plus;
    LowHalf(c, w);
    LowPlus(Half(c), poly, w);
  }

  lemma {:induction false} TurnsAreZeros(poly: bv32, c: bv32, w: nat, n: nat)
    requires 0 < w && Within(poly, w) && Within(c, w)
    ensures Low(Turns(poly, c, n), w) == Zeros(Low(poly, w), Low(c, w), n)
    decreases n
  {
    hide Odd, Half, Plus, Turn;
    if n > 0 {
      TurnIsStep(poly, c, w);
      TurnsAreZeros(poly, Turn(poly, c), w, n - 1);
    }
  }

  lemma {:induction false} TurnsSum(poly: bv32, c: bv32, m: nat, n: nat)
    ensures Turns(poly, c, m + n) == Turns(poly, Turns(poly, c, m), n)
    decreases m
  {
    hide Odd, Half, Plus, Turn;
    if m > 0 {
      TurnsSum(poly, Turn(poly, c), m - 1, n);
    }
  }

  // ---------------------------------------------------------------- byte by byte

  lemma {:induction false} LowSplits(c: bv32, m: nat, w: nat)
    ensures Low(c, m + w) == Low(c, m) + Low(Halved(c, m), w)
    ensures Within(c, m + w) == Within(Halved(c, m), w)
    decreases m
  {
    hide Odd, Half;
    if m > 0 {
      LowSplits(Half(c), m - 1, w);
    }
  }

  lemma MirrorSplits(a: bv32, b: bv32, w: nat)
    requires Reverse(Low(a, 8)) == Low(Halved(b, w), 8)
    requires Reverse(Low(Halved(a, 8), w)) == Low(b, w)
    ensures Reverse(Low(a, 8 + w)) == Low(b, w + 8)
  {
    hide Low, Halved;
    LowSplits(a, 8, w);
    LowSplits(b, w, 8);
    ReverseConcat(Low(a, 8), Low(Halved(a, 8), w));
  }

  lemma {:induction false} LowAt(c: bv32, w: nat, i: nat)
    requires i < w
    ensures Low(c, w)[i] == Odd(Halved(c, i))
    decreases i
  {
    hide Odd, Half;
    if i > 0 {
      LowAt(Half(c), w - 1, i - 1);
    }
  }

  lemma Shifts(c: bv32)
    ensures Half(c) == c >> 1 && Half(c >> 1) == c >> 2 && Half(c >> 2) == c >> 3 && Half(c >> 3) == c >> 4
    ensures Half(c >> 4) == c >> 5 && Half(c >> 5) == c >> 6 && Half(c >> 6) == c >> 7 && Half(c >> 7) == c >> 8
  {
  }

  /** Eight halvings, one after the other. */
  lemma HalvedByte(c: bv32)
    ensures Halved(c, 1) == c >> 1 && Halved(c, 2) == c >> 2 && Halved(c, 3) == c >> 3 && Halved(c, 4) == c >> 4
    ensures Halved(c, 5) == c >> 5 && Halved(c, 6) == c >> 6 && Halved(c, 7) == c >> 7 && Halved(c, 8) == c >> 8
    ensures Halved(c, 0) == c
  {
    Shifts(c);
    hide Halved, Half;
    HalvedEach(c, 0);
    HalvedEach(c, 1);
    HalvedEach(c, 2);
    HalvedEach(c, 3);
    HalvedEach(c, 4);
    HalvedEach(c, 5);
    HalvedEach(c, 6);
    HalvedEach(c, 7);
  }

  lemma {:induction false} HalvedEach(c: bv32, m: nat)
    ensures Halved(c, m + 1) == Half(Halved(c, m)) && Halved(c, 0) == c
    decreases m
  {
    hide Half;
    if m > 0 {
      HalvedEach(Half(c), m - 1);
    }
  }

  /** The low bytes of the two words mirror each other. */
  predicate Mirrored(a: bv32, b: bv32) {
    && Odd(a) == Odd(b >> 7) && Odd(a >> 1) == Odd(b >> 6) && Odd(a >> 2) == Odd(b >> 5) && Odd(a >> 3) == Odd(b >> 4)
    && Odd(a >> 4) == Odd(b >> 3) && Odd(a >> 5) == Odd(b >> 2) && Odd(a >> 6) == Odd(b >> 1) && Odd(a >> 7) == Odd(b)
  }

  lemma MirroredEach(a: bv32, b: bv32, i: nat)
    requires Mirrored(a, b) && i < 8
    ensures Odd(Halved(a, 7 - i)) == Odd(Halved(b, i))
  {
    HalvedByte(a);
    HalvedByte(b);
    hide Odd, Halved;
  }

  lemma MirrorByte(a: bv32, b: bv32)
    requires Mirrored(a, b)
    ensures Reverse(Low(a, 8)) == Low(b, 8)
  {
    hide Low, Odd, Halved, Mirrored;
    forall i | 0 <= i < 8
      ensures Low(a, 8)[7 - i] == Low(b, 8)[i]
    {
      MirroredEach(a, b, i);
      LowAt(a, 8, 7 - i);
      LowAt(b, 8, i);
    }
  }

  /** A byte of ones. */
  lemma FullByte(c: bv32)
    requires c & 0xff == 0xff
    ensures Low(c, 8) == Ones(8)
  {
    hide Low, Halved;
    forall i | 0 <= i < 8
      ensures Low(c, 8)[i]
    {
      LowAt(c, 8, i);
      FullEach(c, i);
    }
  }

  lemma FullEach(c: bv32, i: nat)
    requires c & 0xff == 0xff && i < 8
    ensures Odd(Halved(c, i))
  {
    HalvedByte(c);
    FullBits(c);
    hide Odd, Halved;
  }

  lemma FullBits(c: bv32)
    requires c & 0xff == 0xff
    ensures Odd(c) && Odd(c >> 1) && Odd(c >> 2) && Odd(c >> 3)
    ensures Odd(c >> 4) && Odd(c >> 5) && Odd(c >> 6) && Odd(c >> 7)
  {
  }

  lemma HalvedEight(c: bv32)
    ensures Halved(c, 8) == c >> 8
  {
    HalvedByte(c);
    hide *;
  }

  lemma Mirror16(a: bv32, a1: bv32, b: bv32, b1: bv32)
    requires Halved(a, 8) == a1 && Halved(b, 8) == b1 && Mirrored(a, b1) && Mirrored(a1, b)
    ensures Reverse(Low(a, 16)) == Low(b, 16)
    ensures Within(a1, 8) ==> Within(a, 16)
    ensures Within(b1, 8) ==> Within(b, 16)
  {
    hide *;
    MirrorByte(a, b1);
    MirrorByte(a1, b);
    MirrorSplits(a, b, 8);
    LowSplits(a, 8, 8);
    LowSplits(b, 8, 8);
  }

  lemma Mirror32(a: bv32, a1: bv32, a2: bv32, a3: bv32, b: bv32, b1: bv32, b2: bv32, b3: bv32)
    requires Halved(a, 8) == a1 && Halved(a1, 8) == a2 && Halved(a2, 8) == a3
    requires Halved(b, 8) == b1 && Halved(b1, 8) == b2 && Halved(b2, 8) == b3
    requires Mirrored(a, b3) && Mirrored(a1, b2) && Mirrored(a2, b1) && Mirrored(a3, b)
    ensures Reverse(Low(a, 32)) == Low(b, 32)
    ensures Within(a3, 8) ==> Within(a, 32)
    ensures Within(b3, 8) ==> Within(b, 32)
  {
    hide *;
    HalvedSum(b, 8, 8);
    HalvedSum(b, 16, 8);
    Mirror16(a2, a3, b, b1);
    MirrorByte(a1, b2);
    MirrorByte(a, b3);
    MirrorSplits(a1, b, 16);
    MirrorSplits(a, b, 24);
    LowSplits(a, 8, 24);
    LowSplits(a1, 8, 16);
    LowSplits(a2, 8, 8);
    LowSplits(b, 24, 8);
  }

  lemma Poly16()
    ensures X25().poly == Low(0x8408, 16) && Within(0x8408, 16)
  {
    hide Low, Reverse, Halved;
    HalvedEight(0x1021);
    HalvedEight(0x8408);
    HalvedEight(0x84);
    Mirror16(0x1021, 0x10, 0x8408, 0x84);
  }

  lemma Poly32()
    ensures Crc32().poly == Low(0xedb88320, 32) && Within(0xedb88320, 32)
  {
    hide Low, Reverse, Halved;
    HalvedEight(0x04c11db7);
    HalvedEight(0x04c11d);
    HalvedEight(0x04c1);
    HalvedEight(0xedb88320);
    HalvedEight(0xedb883);
    HalvedEight(0xedb8);
    HalvedEight(0xed);
    Mirror32(0x04c11db7, 0x04c11d, 0x04c1, 0x04, 0xedb88320, 0xedb883, 0xedb8, 0xed);
  }

  lemma {:induction false} HalvedSum(c: bv32, m: nat, n: nat)
    ensures Halved(c, m + n) == Halved(Halved(c, m), n)
    decreases m
  {
    hide Half;
    if m > 0 {
      HalvedSum(Half(c), m - 1, n);
    }
  }

  // ---------------------------------------------------------------- the values of RFC 1662

  lemma OnesConcat(m: nat, n: nat)
    ensures Ones(m) + Ones(n) == Ones(m + n)
  {
  }

  lemma Full16()
    ensures Low(0xffff, 16) == Ones(16) && Within(0xffff, 16)
  {
    hide Low, Halved;
    HalvedByte(0xffff);
    HalvedByte(0xff);
    FullByte(0xffff);
    FullByte(0xff);
    LowSplits(0xffff, 8, 8);
    OnesConcat(8, 8);
  }

  lemma Full32()
    ensures Low(0xffffffff, 32) == Ones(32) && Within(0xffffffff, 32)
  {
    hide Low, Halved, Within;
    HalvedByte(0xffffffff);
    HalvedByte(0xffffff);
    FullByte(0xffffffff);
    FullByte(0xffffff);
    Full16();
    LowSplits(0xffffffff, 8, 24);
    LowSplits(0xffffff, 8, 16);
    OnesConcat(8, 16);
    OnesConcat(8, 24);
  }

  // the two registers after eight, sixteen, ... steps

  lemma Eight16From0()
    ensures Turns(0x8408, 0xffff, 8) == 0xf87
  {
  }

  lemma Eight16From8()
    ensures Turns(0x8408, 0xf87, 8) == 0xf0b8
  {
  }

  lemma Eight32From0()
    ensures Turns(0xedb88320, 0xffffffff, 8) == 0x2dfd1072
  {
  }

  lemma Eight32From8()
    ensures Turns(0xedb88320, 0x2dfd1072, 8) == 0xbe26ed00
  {
  }

  lemma Eight32From16()
    ensures Turns(0xedb88320, 0xbe26ed00, 8) == 0xbe26ed
  {
  }

  lemma Eight32From24()
    ensures Turns(0xedb88320, 0xbe26ed, 8) == 0xdebb20e3
  {
  }

  lemma Turns16()
    ensures Turns(0x8408, 0xffff, 16) == 0xf0b8
  {
    hide Turns;
    Eight16From0();
    Eight16From8();
    TurnsSum(0x8408, 0xffff, 8, 8);
  }

  lemma Turns32()
    ensures Turns(0xedb88320, 0xffffffff, 32) == 0xdebb20e3
  {
    hide Turns;
    Eight32From0();
    Eight32From8();
    Eight32From16();
    Eight32From24();
    TurnsSum(0xedb88320, 0xffffffff, 8, 8);
    TurnsSum(0xedb88320, 0xffffffff, 16, 8);
    TurnsSum(0xedb88320, 0xffffffff, 24, 8);
  }

  /** RFC 1662, appendix C.2, prints 0xf0b8 as the good final value of its 16-bit check, and
      appendix C.3 0xdebb20e3 for 32 bits. */
  lemma GoodFinalValues()
    ensures Residue(X25().poly) == Low(0xf0b8, 16)
    ensures Residue(Crc32().poly) == Low(0xdebb20e3, 32)
  {
    hide Low, Within, Turns, Zeros;
    Poly16();
    Full16();
    Turns16();
    TurnsAreZeros(0x8408, 0xffff, 16, 16);
    Poly32();
    Full32();
    Turns32();
    TurnsAreZeros(0xedb88320, 0xffffffff, 32, 32);
  }
}
