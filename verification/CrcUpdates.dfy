/** The update methods of FastCRCsw.cpp over the tables of FastCrc, against the catalogue
    parameters their comments give. */
module CrcUpdates {
  import opened Bits
  import opened ShiftRegister
  import opened FastCrc

  // ---------------------------------------------------------------- the algorithms

  /** Catalogue parameters; poly and init are listed in shift order, high bit first as the
      catalogue writes them. */
  datatype Algorithm = Algorithm(order: Order, poly: Word, init: Word, complement: bool)

  function Hex(n: bv32, w: nat): (r: Word)
    ensures |r| == w
  {
    Reverse(Low(n, w))
  }

  function Ccitt(): Algorithm { Algorithm(Plain, Hex(0x1021, 16), Ones(16), false) }

  function Xmodem(): Algorithm { Algorithm(Plain, Hex(0x1021, 16), Zero(16), false) }

  function Modbus(): Algorithm { Algorithm(Reflected, Hex(0x8005, 16), Ones(16), false) }

  function Kermit(): Algorithm { Algorithm(Reflected, Hex(0x1021, 16), Zero(16), false) }

  function X25(): Algorithm { Algorithm(Reflected, Hex(0x1021, 16), Ones(16), true) }

  function Crc32(): Algorithm { Algorithm(Reflected, Hex(0x04c11db7, 32), Ones(32), true) }

  function Cksum(): Algorithm { Algorithm(Plain, Hex(0x04c11db7, 32), Zero(32), true) }

  /** mcrf4xx with the seed the code sets; its comment documents init=0xffff instead. */
  function Mcrf4xx(): Algorithm { Algorithm(Reflected, Hex(0x1021, 16), Zero(16), false) }

  function Mcrf4xxDocumented(): Algorithm { Mcrf4xx().(init := Ones(16)) }

  ghost predicate Sliced(a: Algorithm) {
    |a.poly| == |a.init| && |a.poly| in {16, 32}
  }

  /** The number the standard reports for a register. */
  function Value(a: Algorithm, r: Word): Word {
    var v := if a.order.Reflected? then r else Reverse(r);
    if a.complement then Not(v) else v
  }

  /** The CRC of a message, as the standard defines it. */
  function Crc(a: Algorithm, data: Bytes): Word
    requires |a.poly| == |a.init| > 0
  {
    Value(a, Serial(a.poly, a.init, Message(a.order, data)))
  }

  // ---------------------------------------------------------------- the code's finishing steps

  function Rev16(v: Word): (r: Word)
    requires |v| == 16
    ensures |r| == 16
  {
    v[8..] + v[..8]
  }

  function Rev32(v: Word): (r: Word)
    requires |v| == 32
    ensures |r| == 32
  {
    var h := v[16..] + v[..16];
    h[8..16] + h[..8] + h[24..] + h[16..24]
  }

  function Finish(a: Algorithm, seed: Word): Word
    requires |seed| in {16, 32}
  {
    var v := if a.order.Reflected? then seed else if |seed| == 16 then Rev16(seed) else Rev32(seed);
    if a.complement then Not(v) else v
  }

  lemma ReverseConcat(a: Word, b: Word)
    ensures Reverse(a + b) == Reverse(b) + Reverse(a)
  {
  }

  lemma Rev16Reverses(a: Byte, b: Byte)
    ensures Rev16(Flip(a + b)) == Reverse(a + b)
  {
    FlipConcat(a, b);
    FlipByte(a);
    FlipByte(b);
    ReverseConcat(a, b);
    hide Flip, Reverse;
  }

  lemma Rev32Reverses(a: Byte, b: Byte, c: Byte, d: Byte)
    ensures Rev32(Flip(a + b + c + d)) == Reverse(a + b + c + d)
  {
    FlipConcat(a + b + c, d);
    FlipConcat(a + b, c);
    FlipConcat(a, b);
    FlipByte(a);
    FlipByte(b);
    FlipByte(c);
    FlipByte(d);
    ReverseConcat(a + b + c, d);
    ReverseConcat(a + b, c);
    ReverseConcat(a, b);
    Rev32Bytes(Reverse(a), Reverse(b), Reverse(c), Reverse(d));
    hide *;
    assert Reverse(d) + (Reverse(c) + (Reverse(b) + Reverse(a))) == Reverse(d) + Reverse(c) + Reverse(b) + Reverse(a);
  }

  lemma Rev32Bytes(a: Byte, b: Byte, c: Byte, d: Byte)
    ensures Rev32(a + b + c + d) == d + c + b + a
  {
    var v := a + b + c + d;
    var h := v[16..] + v[..16];
    assert h == c + d + a + b;
  }

  /** Un-swapping the bytes of the state gives the standard's number. */
  lemma FinishIsValue(a: Algorithm, seed: Word)
    requires |seed| in {16, 32}
    ensures Finish(a, seed) == Value(a, Store(a.order, seed))
  {
    if a.order.Plain? {
      FlipTwice(seed);
      var r := Flip(seed);
      if |seed| == 16 {
        Rev16Reverses(r[..8], r[8..]);
        assert r == r[..8] + r[8..];
      } else {
        Rev32Reverses(r[..8], r[8..16], r[16..24], r[24..]);
        assert r == r[..8] + r[8..16] + r[16..24] + r[24..];
      }
    }
  }

  // ---------------------------------------------------------------- 16 and 32 bits

  lemma FoldEmpty(t: Table, c: Word)
    requires Linear(t, |c|)
    ensures Fold(t, c, []) == c
  {
  }

  lemma FoldConcat(t: Table, c: Word, a: Bytes, b: Byte)
    requires Linear(t, |c|)
    ensures Fold(t, c, a + [b]) == Feed(t, Fold(t, c, a), b)
  {
    assert (a + [b])[..|a|] == a;
  }

  /** *(const uint32_t *)data, little-endian */
  function Load(b0: Word, b1: Word, b2: Word, b3: Word): Word { b0 + b1 + b2 + b3 }

  lemma FoldWord(t: Table, c: Word, a: Bytes, b0: Byte, b1: Byte, b2: Byte, b3: Byte)
    requires |c| in {16, 32} && Linear(t, |c|)
    ensures N4(t, Fold(t, c, a), Load(b0, b1, b2, b3)) == Fold(t, c, a + [b0, b1, b2, b3])
    ensures |c| == 32 ==> SmallN4(t, Fold(t, c, a), Load(b0, b1, b2, b3)) == Fold(t, c, a + [b0, b1, b2, b3])
  {
    var w, d := Load(b0, b1, b2, b3), Fold(t, c, a);
    assert w[..8] == b0 && w[8..16] == b1 && w[16..24] == b2 && w[24..32] == b3;
    SlicingByFour(t, d, w);
    if |c| == 32 {
      SmallTableAgrees(t, d, w);
    }
    FeedFirstIsFold(t, c, a, w, b0, b1, b2, b3);
  }

  lemma FeedFirstIsFold(t: Table, c: Word, a: Bytes, w: Word, b0: Byte, b1: Byte, b2: Byte, b3: Byte)
    requires |c| in {16, 32} && Linear(t, |c|) && |w| == 32
    requires w[..8] == b0 && w[8..16] == b1 && w[16..24] == b2 && w[24..32] == b3
    ensures FeedFirst(t, Fold(t, c, a), w, 4) == Fold(t, c, a + [b0, b1, b2, b3])
  {
    hide *;
    var d := Fold(t, c, a);
    FeedFirstNext(t, d, w, 0);
    FeedFirstNext(t, d, w, 1);
    FeedFirstNext(t, d, w, 2);
    FeedFirstNext(t, d, w, 3);
    FoldConcat(t, c, a, b0);
    FoldConcat(t, c, a + [b0], b1);
    FoldConcat(t, c, a + [b0] + [b1], b2);
    FoldConcat(t, c, a + [b0] + [b1] + [b2], b3);
    assert a + [b0, b1, b2, b3] == a + [b0] + [b1] + [b2] + [b3];
  }

  lemma FoldIsRegister(a: Algorithm, start: Word, data: Bytes)
    requires |start| == |a.poly| >= 8 && |start| % 8 == 0
    ensures Linear(TableOf(a.order, a.poly), |start|)
    ensures Store(a.order, Fold(TableOf(a.order, a.poly), start, data))
            == Serial(a.poly, Store(a.order, start), Message(a.order, data))
  {
    StoreTwice(a.order, start);
    FoldIsSerial(a.order, a.poly, Store(a.order, start), data);
    StoreTwice(a.order, Serial(a.poly, Store(a.order, start), Message(a.order, data)));
  }

  /** FastCRC16 and FastCRC32: one running seed, and per algorithm a pair of calls, one that
      starts over and one that carries on.  Memory is an array whose indices are addresses. */
  class Checksum {
    var seed: Word

    constructor (width: nat)
      ensures |seed| == width
    {
      seed := Zero(width);
    }

    /** The *_upd methods; big selects CRC_BIGTABLES, which 16-bit tables always have. */
    method Update(a: Algorithm, big: bool, mem: array<Byte>, addr: nat, len: nat) returns (crc: Word)
      requires Sliced(a) && |seed| == |a.poly| && addr + len <= mem.Length
      modifies this
      ensures |seed| == |a.poly|
      ensures Store(a.order, seed) == Serial(a.poly, Store(a.order, old(seed)), Message(a.order, mem[addr..addr + len]))
      ensures crc == Value(a, Store(a.order, seed))
    {
      hide Fold, Serial, Message, Value, Finish, Store, TableOf, Linear;
      var t, start := TableOf(a.order, a.poly), seed;
      TableIsLinear(a.order, a.poly);
      FoldEmpty(t, start);
      assert mem[addr..addr] == [];
      crc := seed;
      var data, left := addr, len;
      while data % 4 != 0 && left > 0
        invariant addr <= data && 0 <= left && data + left == addr + len && |crc| == |start|
        invariant crc == Fold(t, start, mem[addr..data])
        decreases left
      {
        crc := OneByte(t, start, mem, addr, data, crc);
        data, left := data + 1, left - 1;
      }
      while left >= 16
        invariant addr <= data && 0 <= left && data + left == addr + len && |crc| == |start|
        invariant crc == Fold(t, start, mem[addr..data])
        decreases left
      {
        left := left - 16;
        crc := SixteenBytes(t, big, start, mem, addr, data, crc);
        data := data + 16;
      }
      while left > 0
        invariant addr <= data && 0 <= left && data + left == addr + len && |crc| == |start|
        invariant crc == Fold(t, start, mem[addr..data])
        decreases left
      {
        crc := OneByte(t, start, mem, addr, data, crc);
        data, left := data + 1, left - 1;
      }
      FoldIsRegister(a, start, mem[addr..addr + len]);
      seed := crc;
      crc := Finish(a, crc);
      FinishIsValue(a, seed);
    }

    /** crc = (crc >> 8) ^ table[(crc & 0xff) ^ *data++] */
    static method OneByte(t: Table, ghost start: Word, mem: array<Byte>, ghost addr: nat, data: nat, crc: Word)
      returns (next: Word)
      requires addr <= data < mem.Length && |crc| == |start| && Linear(t, |start|)
      requires crc == Fold(t, start, mem[addr..data])
      ensures |next| == |crc| && next == Fold(t, start, mem[addr..data + 1])
    {
      FoldConcat(t, start, mem[addr..data], mem[data]);
      assert mem[addr..data + 1] == mem[addr..data] + [mem[data]];
      next := Feed(t, crc, mem[data]);
    }

    /** One 32-bit load of the fast path. */
    static method FourBytes(t: Table, big: bool, ghost start: Word, mem: array<Byte>, ghost addr: nat, data: nat,
                            crc: Word)
      returns (next: Word)
      requires addr <= data && data + 4 <= mem.Length
      requires |crc| == |start| && |start| in {16, 32} && Linear(t, |start|)
      requires crc == Fold(t, start, mem[addr..data])
      ensures |next| == |crc| && next == Fold(t, start, mem[addr..data + 4])
    {
      var b0, b1, b2, b3 := mem[data], mem[data + 1], mem[data + 2], mem[data + 3];
      FoldWord(t, start, mem[addr..data], b0, b1, b2, b3);
      assert mem[addr..data + 4] == mem[addr..data] + [b0, b1, b2, b3];
      var w := Load(b0, b1, b2, b3);
      hide N4, SmallN4, Fold;
      next := if |crc| == 16 || big then N4(t, crc, w) else SmallN4(t, crc, w);
    }

    /** The body of the fast loop. */
    static method SixteenBytes(t: Table, big: bool, ghost start: Word, mem: array<Byte>, ghost addr: nat, data: nat,
                               crc: Word)
      returns (next: Word)
      requires addr <= data && data + 16 <= mem.Length
      requires |crc| == |start| && |start| in {16, 32} && Linear(t, |start|)
      requires crc == Fold(t, start, mem[addr..data])
      ensures |next| == |crc| && next == Fold(t, start, mem[addr..data + 16])
    {
      hide *;
      next := FourBytes(t, big, start, mem, addr, data, crc);
      next := FourBytes(t, big, start, mem, addr, data + 4, next);
      next := FourBytes(t, big, start, mem, addr, data + 8, next);
      next := FourBytes(t, big, start, mem, addr, data + 12, next);
    }

    /** ccitt, mcrf4xx, modbus, kermit, xmodem, x25, crc32 and cksum: the standard's CRC. */
    method Compute(a: Algorithm, big: bool, mem: array<Byte>, addr: nat, len: nat) returns (crc: Word)
      requires Sliced(a) && addr + len <= mem.Length
      modifies this
      ensures |seed| == |a.poly|
      ensures Store(a.order, seed) == Serial(a.poly, a.init, Message(a.order, mem[addr..addr + len]))
      ensures crc == Crc(a, mem[addr..addr + len])
    {
      seed := Store(a.order, a.init);
      StoreTwice(a.order, a.init);
      crc := Update(a, big, mem, addr, len);
    }

    /** A message in parts, here and there in memory: one call that starts over and then one
        that carries on for each further part. */
    method ComputeParts(a: Algorithm, big: bool, mem: array<Byte>, parts: seq<Span>) returns (crc: Word)
      requires Sliced(a) && parts != [] && Inside(mem.Length, parts)
      modifies this
      ensures crc == Crc(a, Gathered(mem[..], parts))
    {
      hide Serial, Message, Value, Store, Gathered;
      ghost var bytes := mem[..];
      var p, n := parts[0], 1;
      crc := Compute(a, big, mem, p.addr, p.len);
      assert parts[..1] == [] + [p] && bytes[p.addr..p.addr + p.len] == mem[p.addr..p.addr + p.len];
      GatheredNext(bytes, [], p);
      GatheredNone(bytes);
      assert [] + mem[p.addr..p.addr + p.len] == mem[p.addr..p.addr + p.len];
      while n < |parts|
        invariant 1 <= n <= |parts| && |seed| == |a.poly|
        invariant crc == Crc(a, Gathered(bytes, parts[..n]))
        invariant Store(a.order, seed) == Serial(a.poly, a.init, Message(a.order, Gathered(bytes, parts[..n])))
      {
        p := parts[n];
        crc := Update(a, big, mem, p.addr, p.len);
        assert parts[..n + 1] == parts[..n] + [p];
        assert bytes[p.addr..p.addr + p.len] == mem[p.addr..p.addr + p.len];
        GatheredNext(bytes, parts[..n], p);
        RegisterCarries(a, a.init, Gathered(bytes, parts[..n]), bytes[p.addr..p.addr + p.len]);
        n := n + 1;
      }
      assert parts[..n] == parts;
    }
  }

  /** Where a part of a message lies. */
  datatype Span = Span(addr: nat, len: nat)

  ghost predicate Inside(size: nat, parts: seq<Span>) {
    forall i :: 0 <= i < |parts| ==> parts[i].addr + parts[i].len <= size
  }

  ghost function Gathered(mem: Bytes, parts: seq<Span>): Bytes
    requires Inside(|mem|, parts)
  {
    if parts == [] then []
    else
      var p := parts[|parts| - 1];
      Gathered(mem, parts[..|parts| - 1]) + mem[p.addr..p.addr + p.len]
  }

  lemma GatheredNone(mem: Bytes)
    ensures Gathered(mem, []) == []
  {
  }

  lemma GatheredNext(mem: Bytes, parts: seq<Span>, p: Span)
    requires Inside(|mem|, parts + [p])
    ensures Inside(|mem|, parts) && p.addr + p.len <= |mem|
    ensures Gathered(mem, parts + [p]) == Gathered(mem, parts) + mem[p.addr..p.addr + p.len]
  {
    assert (parts + [p])[|parts|] == p && (parts + [p])[..|parts|] == parts;
    forall i | 0 <= i < |parts|
      ensures parts[i].addr + parts[i].len <= |mem|
    {
      assert (parts + [p])[i] == parts[i];
    }
  }

  lemma MessageNext(order: Order, a: Bytes, b: Byte)
    ensures Message(order, []) == []
    ensures Message(order, a + [b]) == Message(order, a) + Store(order, b)
  {
    hide Store;
    assert (a + [b])[..|a|] == a;
  }

  lemma {:induction false} MessageConcat(order: Order, a: Bytes, b: Bytes)
    ensures Message(order, a + b) == Message(order, a) + Message(order, b)
    decreases |b|
  {
    hide *;
    MessageNext(order, [], Zero(8));
    if b == [] {
      assert a + b == a && Message(order, a) + [] == Message(order, a);
      return;
    }
    var init, last := b[..|b| - 1], b[|b| - 1];
    var x, y, z := Message(order, a), Message(order, init), Store(order, last);
    assert b == init + [last];
    assert a + b == (a + init) + [last];
    MessageConcat(order, a, init);
    MessageNext(order, init, last);
    MessageNext(order, a + init, last);
    assert x + (y + z) == (x + y) + z;
  }

  /** The register after some bytes and some more. */
  lemma RegisterCarries(a: Algorithm, r: Word, before: Bytes, more: Bytes)
    requires |a.poly| == |r| > 0
    ensures Serial(a.poly, r, Message(a.order, before + more))
            == Serial(a.poly, Serial(a.poly, r, Message(a.order, before)), Message(a.order, more))
  {
    MessageConcat(a.order, before, more);
    SerialConcat(a.poly, r, Message(a.order, before), Message(a.order, more));
  }

  // ---------------------------------------------------------------- 8 and 7 bits

  function Smbus(): Algorithm { Algorithm(Plain, Hex(0x07, 8), Zero(8), false) }

  function Maxim(): Algorithm { Algorithm(Reflected, Hex(0x31, 8), Zero(8), false) }

  /** The 7-bit CRC; its code keeps the register in the upper seven bits of a byte. */
  function Crc7(): Algorithm { Algorithm(Plain, Hex(0x09, 7), Zero(7), false) }

  function Widened(a: Algorithm): Algorithm { a.(poly := a.poly + [false], init := a.init + [false]) }

  lemma FeedByteRegister(t: Table, c: Byte, b: Byte)
    requires Linear(t, 8)
    ensures Feed(t, c, b) == t(Xor(c, b))
  {
    assert c[..8] == c && ShiftRight(c, 8) == Zero(8);
    XorZero(t(Xor(c, b)));
  }

  /** FastCRC8 and FastCRC7. */
  class Checksum8 {
    var seed: Byte

    constructor ()
    {
      seed := Zero(8);
    }

    method Update(a: Algorithm, data: seq<Byte>)
      requires |a.poly| == 8
      modifies this
      ensures Store(a.order, seed) == Serial(a.poly, Store(a.order, old(seed)), Message(a.order, data))
    {
      hide Fold, Serial, Message, Store, TableOf, Linear;
      var t, start := TableOf(a.order, a.poly), seed;
      TableIsLinear(a.order, a.poly);
      FoldEmpty(t, start);
      var crc := start;
      for i := 0 to |data|
        invariant crc == Fold(t, start, data[..i])
      {
        FeedByteRegister(t, crc, data[i]);
        assert data[..i + 1] == data[..i] + [data[i]];
        FoldConcat(t, start, data[..i], data[i]);
        crc := t(Xor(crc, data[i]));
      }
      assert data[..|data|] == data;
      FoldIsRegister(a, start, data);
      seed := crc;
    }

    /** smbus and maxim */
    method Compute(a: Algorithm, data: seq<Byte>) returns (crc: Word)
      requires |a.poly| == |a.init| == 8 && !a.complement
      modifies this
      ensures crc == Crc(a, data)
    {
      seed := Store(a.order, a.init);
      StoreTwice(a.order, a.init);
      Update(a, data);
      crc := seed;
      if a.order.Plain? {
        FlipTwice(seed);
        FlipByte(Flip(seed));
      }
    }

    /** crc7 */
    method Compute7(data: seq<Byte>) returns (crc: Word)
      modifies this
      ensures crc == Crc(Crc7(), data) + [false]
    {
      var a := Widened(Crc7());
      seed := Store(Plain, a.init);
      StoreTwice(Plain, a.init);
      Update(a, data);
      crc := ShiftRight(seed, 1);
      SevenInEight(Crc7().poly, Crc7().init, Message(Plain, data));
      var r := Serial(Crc7().poly, Crc7().init, Message(Plain, data));
      FlipTwice(seed);
      FlipByte(r + [false]);
      ReverseConcat(r, [false]);
      assert Reverse([false]) == [false];
    }
  }

  /** A register with one more, unused bit behind the polynomial runs like the register. */
  lemma {:induction false} SevenInEight(poly: Word, c: Word, bits: seq<bool>)
    requires |poly| == |c| > 0
    ensures Serial(poly + [false], c + [false], bits) == Serial(poly, c, bits) + [false]
    decreases |bits|
  {
    if bits != [] {
      var x := Xor(c, Pad([bits[0]], |c|));
      assert Xor(c + [false], Pad([bits[0]], |c| + 1)) == x + [false];
      assert Step(poly + [false], x + [false]) == Step(poly, x) + [false];
      SevenInEight(poly, Step(poly, x), bits[1..]);
    }
  }
}
