/** FastCRCsw.cpp: table-driven CRC updates with an aligned 16-bytes-at-a-time fast path,
    proved to compute the shift registers of their standards. */
module FastCrc {
  import opened Bits
  import opened ShiftRegister

  // ---------------------------------------------------------------- byte order and bit order

  /** Reflected: bytes enter low bit first (refin and refout true).  Plain: high bit first;
      the C state of such a CRC is the register with its bytes swapped. */
  datatype Order = Reflected | Plain

  function Reverse(c: Word): (r: Word)
    ensures |r| == |c| && forall i :: 0 <= i < |c| ==> r[i] == c[|c| - 1 - i]
  {
    seq(|c|, i requires 0 <= i < |c| => c[|c| - 1 - i])
  }

  /** Every byte of a word with its bits reversed. */
  function Flip(c: Word): (r: Word)
    requires |c| % 8 == 0
    ensures |r| == |c|
  {
    if c == [] then [] else Reverse(c[..8]) + Flip(c[8..])
  }

  /** How the C code holds a register or a byte: shift order to integer bits, and back. */
  function Store(order: Order, c: Word): (r: Word)
    requires |c| % 8 == 0
    ensures |r| == |c|
  {
    if order.Reflected? then c else Flip(c)
  }

  /** The message bits in the order the register takes them. */
  function Message(order: Order, data: Bytes): seq<bool> {
    if data == [] then [] else Message(order, data[..|data| - 1]) + Store(order, data[|data| - 1])
  }

  lemma {:induction false} FlipLinear(a: Word, b: Word)
    requires |a| == |b| && |a| % 8 == 0
    ensures Flip(Xor(a, b)) == Xor(Flip(a), Flip(b))
    decreases |a|
  {
    if a != [] {
      XorTake(a, b, 8);
      FlipLinear(a[8..], b[8..]);
      assert Reverse(Xor(a[..8], b[..8])) == Xor(Reverse(a[..8]), Reverse(b[..8]));
      XorConcat(Reverse(a[..8]), Flip(a[8..]), Reverse(b[..8]), Flip(b[8..]));
    }
  }

  lemma {:induction false} FlipTwice(c: Word)
    requires |c| % 8 == 0
    ensures Flip(Flip(c)) == c
    decreases |c|
  {
    if c != [] {
      FlipTwice(c[8..]);
      assert Flip(c)[..8] == Reverse(c[..8]) && Flip(c)[8..] == Flip(c[8..]);
      assert Reverse(Reverse(c[..8])) == c[..8];
      assert c == c[..8] + c[8..];
    }
  }

  lemma FlipNext(b: Byte, a: Word)
    requires |a| % 8 == 0
    ensures Flip([]) == [] && Flip(b + a) == Reverse(b) + Flip(a)
  {
    assert (b + a)[..8] == b && (b + a)[8..] == a;
    hide Reverse;
  }

  lemma {:induction false} FlipConcat(a: Word, b: Word)
    requires |a| % 8 == 0 && |b| % 8 == 0
    ensures Flip(a + b) == Flip(a) + Flip(b)
    decreases |a|
  {
    hide *;
    if a == [] {
      FlipNext(Zero(8), []);
      assert a + b == b && [] + Flip(b) == Flip(b);
      return;
    }
    var first, rest := a[..8], a[8..];
    FlipNext(first, rest);
    FlipNext(first, rest + b);
    FlipConcat(rest, b);
    assert a == first + rest;
    assert first + rest + b == first + (rest + b);
    assert Reverse(first) + Flip(rest) + Flip(b) == Reverse(first) + (Flip(rest) + Flip(b));
  }

  lemma FlipDrop(c: Word)
    requires |c| >= 8 && |c| % 8 == 0
    ensures Flip(c)[8..] == Flip(c[8..])
  {
  }

  lemma FlipZeroByte()
    ensures Flip(Zero(8)) == Zero(8)
  {
    FlipByte(Zero(8));
    assert Reverse(Zero(8)) == Zero(8);
  }

  lemma FlipByte(b: Byte)
    ensures Flip(b) == Reverse(b)
  {
    assert b[..8] == b && b[8..] == [];
  }

  lemma FlipAppendsZeros(c: Word)
    requires |c| >= 8 && |c| % 8 == 0
    ensures Flip(c[8..] + Zero(8)) == Flip(c[8..]) + Zero(8)
  {
    FlipZeroByte();
    FlipConcat(c[8..], Zero(8));
  }

  lemma FlipShift(c: Word)
    requires |c| >= 8 && |c| % 8 == 0
    ensures Flip(ShiftRight(c, 8)) == ShiftRight(Flip(c), 8)
  {
    hide Flip;
    FlipAppendsZeros(c);
    FlipDrop(c);
  }

  lemma FlipTake(c: Word)
    requires |c| >= 8 && |c| % 8 == 0
    ensures Flip(c)[..8] == Flip(c[..8])
  {
    FlipByte(c[..8]);
  }

  // ---------------------------------------------------------------- tables

  /** The first 256 entries of a table; entry n + 0x100 * k is Slice(.., k, n). */
  type Table = Byte -> Word

  /** The table of a polynomial given in shift order: eight register steps of its index. */
  function TableOf(order: Order, poly: Word): Table
    requires |poly| >= 8 && |poly| % 8 == 0
  {
    (n: Byte) => Store(order, Zeros(poly, Pad(Store(order, n), |poly|), 8))
  }

  /** crc = (crc >> 8) ^ table[crc & 0xff] */
  function TableStep(t: Table, c: Word): (r: Word)
    requires |c| >= 8 && |t(c[..8])| == |c|
    ensures |r| == |c|
  {
    Xor(ShiftRight(c, 8), t(c[..8]))
  }

  ghost predicate Linear(t: Table, w: nat) {
    && w >= 8
    && (forall n :: |t(n)| == w)
    && (forall a: Byte, b: Byte :: t(Xor(a, b)) == Xor(t(a), t(b)))
  }

  /** crc = (crc >> 8) ^ table[(crc & 0xff) ^ *data++] */
  function Feed(t: Table, c: Word, b: Byte): (r: Word)
    requires |c| >= 8 && |t(Xor(c[..8], b))| == |c|
    ensures |r| == |c|
  {
    Xor(ShiftRight(c, 8), t(Xor(c[..8], b)))
  }

  function Slice(t: Table, w: nat, k: nat, n: Byte): (r: Word)
    requires Linear(t, w)
    ensures |r| == w
  {
    if k == 0 then t(n) else TableStep(t, Slice(t, w, k - 1, n))
  }

  function Fold(t: Table, c: Word, data: Bytes): (r: Word)
    requires Linear(t, |c|)
    ensures |r| == |c|
  {
    if data == [] then c else Feed(t, Fold(t, c, data[..|data| - 1]), data[|data| - 1])
  }

  lemma TableStepLinear(t: Table, a: Word, b: Word)
    requires |a| == |b| && Linear(t, |a|)
    ensures TableStep(t, Xor(a, b)) == Xor(TableStep(t, a), TableStep(t, b))
  {
    XorTake(a, b, 8);
    ShiftRightLinear(a, b, 8);
    XorSwap(ShiftRight(a, 8), ShiftRight(b, 8), t(a[..8]), t(b[..8]));
  }

  /** A byte fed to a sum may be fed to either part; the other only steps. */
  lemma FeedLinear(t: Table, a: Word, b: Word, x: Byte)
    requires |a| == |b| && Linear(t, |a|)
    ensures Feed(t, Xor(a, b), x) == Xor(Feed(t, a, x), TableStep(t, b))
  {
    XorTake(a, b, 8);
    XorAssoc(a[..8], b[..8], x);
    XorComm(b[..8], x);
    XorAssoc(a[..8], x, b[..8]);
    ShiftRightLinear(a, b, 8);
    XorSwap(ShiftRight(a, 8), ShiftRight(b, 8), t(Xor(a[..8], x)), t(b[..8]));
  }

  // ---------------------------------------------------------------- four bytes at once

  /** The k-th byte of the 32-bit value (crc ^ data), whose upper half is data's alone when
      the crc has 16 bits. */
  function Part(c: Word, w: Word, k: nat): Byte
    requires |c| <= |w| == 32 && k < 4
  {
    (Xor(c, w[..|c|]) + w[|c|..])[8 * k..8 * k + 8]
  }

  /** The macros crc_n4 and crc_n4d: four look-ups for one little-endian 32-bit load. */
  function N4(t: Table, c: Word, w: Word): (r: Word)
    requires |c| <= |w| == 32 && Linear(t, |c|)
    ensures |r| == |c|
  {
    Xor(Xor(Xor(Slice(t, |c|, 3, Part(c, w, 0)), Slice(t, |c|, 2, Part(c, w, 1))),
            Slice(t, |c|, 1, Part(c, w, 2))), Slice(t, |c|, 0, Part(c, w, 3)))
  }

  /** The macro crcsm_n4d: the same load, four look-ups in the small table. */
  function SmallN4(t: Table, c: Word, w: Word): (r: Word)
    requires |c| == |w| == 32 && Linear(t, |c|)
    ensures |r| == |c|
  {
    TableStep(t, TableStep(t, TableStep(t, TableStep(t, Xor(c, w)))))
  }

  /** c >> 8 * k, also past the width. */
  function Tail(c: Word, k: nat): (r: Word)
    ensures |r| == |c|
  {
    if 8 * k <= |c| then ShiftRight(c, 8 * k) else Zero(|c|)
  }

  lemma PartIsTail(c: Word, w: Word, k: nat)
    requires |w| == 32 && |c| in {16, 32} && k < 4
    ensures Part(c, w, k) == Xor(Tail(c, k)[..8], w[8 * k..8 * k + 8])
    ensures ShiftRight(Tail(c, k), 8) == Tail(c, k + 1)
  {
    var p, q := Part(c, w, k), Xor(Tail(c, k)[..8], w[8 * k..8 * k + 8]);
    forall i | 0 <= i < 8
      ensures p[i] == q[i]
    {
      assert p[i] == (Xor(c, w[..|c|]) + w[|c|..])[8 * k + i];
    }
  }

  /** One byte of the word, fed to what is left of the crc when its turn comes. */
  lemma FeedTail(t: Table, c: Word, w: Word, k: nat)
    requires |w| == 32 && |c| in {16, 32} && Linear(t, |c|) && k < 4
    ensures Feed(t, Tail(c, k), w[8 * k..8 * k + 8]) == Xor(Tail(c, k + 1), Slice(t, |c|, 0, Part(c, w, k)))
  {
    PartIsTail(c, w, k);
  }

  /** The crc after the first k bytes of the word. */
  function FeedFirst(t: Table, c: Word, w: Word, k: nat): (r: Word)
    requires |w| == 32 && |c| in {16, 32} && Linear(t, |c|) && k <= 4
    ensures |r| == |c|
  {
    if k == 0 then c else Feed(t, FeedFirst(t, c, w, k - 1), w[8 * (k - 1)..8 * (k - 1) + 8])
  }

  /** What the first k + 1 bytes have added to the tail of the crc. */
  function Added(t: Table, c: Word, w: Word, k: nat): (r: Word)
    requires |w| == 32 && |c| in {16, 32} && Linear(t, |c|) && k < 4
    ensures |r| == |c|
  {
    if k == 0 then Slice(t, |c|, 0, Part(c, w, 0))
    else Xor(Slice(t, |c|, 0, Part(c, w, k)), TableStep(t, Added(t, c, w, k - 1)))
  }

  lemma {:induction false} FeedFirstSplits(t: Table, c: Word, w: Word, k: nat)
    requires |w| == 32 && |c| in {16, 32} && Linear(t, |c|) && k < 4
    ensures FeedFirst(t, c, w, k + 1) == Xor(Tail(c, k + 1), Added(t, c, w, k))
  {
    if k == 0 {
      FeedTail(t, c, w, 0);
      TailStart(c);
    } else {
      FeedFirstSplits(t, c, w, k - 1);
      FeedNext(t, c, w, k);
    }
    hide *;
    FeedFirstNext(t, c, w, k);
    AddedStart(t, c, w);
  }

  lemma FeedFirstNext(t: Table, c: Word, w: Word, k: nat)
    requires |w| == 32 && |c| in {16, 32} && Linear(t, |c|) && k < 4
    ensures FeedFirst(t, c, w, 0) == c
    ensures FeedFirst(t, c, w, k + 1) == Feed(t, FeedFirst(t, c, w, k), w[8 * k..8 * k + 8])
  {
    hide Feed;
  }

  lemma AddedStart(t: Table, c: Word, w: Word)
    requires |w| == 32 && |c| in {16, 32} && Linear(t, |c|)
    ensures Added(t, c, w, 0) == Slice(t, |c|, 0, Part(c, w, 0))
  {
  }

  lemma TailStart(c: Word)
    ensures Tail(c, 0) == c
  {
  }

  lemma FeedNext(t: Table, c: Word, w: Word, k: nat)
    requires |w| == 32 && |c| in {16, 32} && Linear(t, |c|) && 0 < k < 4
    ensures Feed(t, Xor(Tail(c, k), Added(t, c, w, k - 1)), w[8 * k..8 * k + 8])
            == Xor(Tail(c, k + 1), Added(t, c, w, k))
  {
    FeedTail(t, c, w, k);
    FeedLinear(t, Tail(c, k), Added(t, c, w, k - 1), w[8 * k..8 * k + 8]);
    hide Feed, Tail, Part, TableStep;
    XorAssoc(Tail(c, k + 1), Slice(t, |c|, 0, Part(c, w, k)), TableStep(t, Added(t, c, w, k - 1)));
  }

  lemma AddedIsSlices(t: Table, c: Word, w: Word)
    requires |w| == 32 && |c| in {16, 32} && Linear(t, |c|)
    ensures Added(t, c, w, 3) == N4(t, c, w)
  {
    var n := |c|;
    var a, b, d, e := Part(c, w, 0), Part(c, w, 1), Part(c, w, 2), Part(c, w, 3);
    hide TableStep, Part;
    assert Added(t, c, w, 1) == Xor(Slice(t, n, 0, b), Slice(t, n, 1, a));
    TableStepLinear(t, Slice(t, n, 0, b), Slice(t, n, 1, a));
    assert Added(t, c, w, 2) == Xor(Slice(t, n, 0, d), Xor(Slice(t, n, 1, b), Slice(t, n, 2, a)));
    TableStepLinear(t, Slice(t, n, 0, d), Xor(Slice(t, n, 1, b), Slice(t, n, 2, a)));
    TableStepLinear(t, Slice(t, n, 1, b), Slice(t, n, 2, a));
    XorReverse(Slice(t, n, 0, e), Slice(t, n, 1, d), Slice(t, n, 2, b), Slice(t, n, 3, a));
  }

  lemma XorReverse(a: Word, b: Word, c: Word, d: Word)
    requires |a| == |b| == |c| == |d|
    ensures Xor(a, Xor(b, Xor(c, d))) == Xor(Xor(Xor(d, c), b), a)
  {
    var l, r := Xor(a, Xor(b, Xor(c, d))), Xor(Xor(Xor(d, c), b), a);
    assert forall i :: 0 <= i < |a| ==> l[i] == r[i];
  }

  /** Four look-ups advance the crc by four bytes. */
  lemma SlicingByFour(t: Table, c: Word, w: Word)
    requires |w| == 32 && |c| in {16, 32} && Linear(t, |c|)
    ensures N4(t, c, w) == FeedFirst(t, c, w, 4)
  {
    FeedFirstSplits(t, c, w, 3);
    AddedIsSlices(t, c, w);
    XorZero(N4(t, c, w));
    assert Tail(c, 4) == Zero(|c|);
  }

  /** The small table's four look-ups compute the same as the large table's. */
  lemma SmallTableAgrees(t: Table, c: Word, w: Word)
    requires |c| == |w| == 32 && Linear(t, 32)
    ensures SmallN4(t, c, w) == FeedFirst(t, c, w, 4)
  {
    SlicingByFour(t, c, w);
    SlicingByFour(t, Xor(c, w), Zero(32));
    FeedZeros(t, Xor(c, w));
    hide Part, TableStep, FeedFirst, Slice;
    forall k: nat | k < 4
      ensures Part(c, w, k) == Part(Xor(c, w), Zero(32), k)
    {
      PartOfSum(c, w, k);
    }
  }

  lemma PartOfSum(c: Word, w: Word, k: nat)
    requires |c| == |w| == 32 && k < 4
    ensures Part(c, w, k) == Part(Xor(c, w), Zero(32), k)
  {
    assert w[..32] == w && w[32..] == [] && Zero(32)[..32] == Zero(32) && Zero(32)[32..] == [];
    XorZero(Xor(c, w));
  }

  lemma FeedZeros(t: Table, x: Word)
    requires |x| == 32 && Linear(t, 32)
    ensures FeedFirst(t, x, Zero(32), 4) == TableStep(t, TableStep(t, TableStep(t, TableStep(t, x))))
  {
    hide *;
    FeedFirstZero(t, x, 3);
    FeedFirstZero(t, x, 2);
    FeedFirstZero(t, x, 1);
    FeedFirstZero(t, x, 0);
    FeedFirstNext(t, x, Zero(32), 0);
  }

  lemma FeedFirstZero(t: Table, x: Word, k: nat)
    requires |x| == 32 && Linear(t, 32) && k < 4
    ensures FeedFirst(t, x, Zero(32), k + 1) == TableStep(t, FeedFirst(t, x, Zero(32), k))
  {
    assert Zero(32)[8 * k..8 * k + 8] == Zero(8);
    FeedZero(t, FeedFirst(t, x, Zero(32), k));
    hide TableStep, Feed;
  }

  lemma FeedZero(t: Table, c: Word)
    requires Linear(t, |c|)
    ensures Feed(t, c, Zero(8)) == TableStep(t, c)
  {
    XorZero(c[..8]);
  }

  // ---------------------------------------------------------------- tables compute the register

  lemma TableIsLinear(order: Order, poly: Word)
    requires |poly| >= 8 && |poly| % 8 == 0
    ensures Linear(TableOf(order, poly), |poly|)
  {
    forall a: Byte, b: Byte
      ensures TableOf(order, poly)(Xor(a, b)) == Xor(TableOf(order, poly)(a), TableOf(order, poly)(b))
    {
      EntryLinear(order, poly, a, b);
      hide Store, Zeros, Xor, Pad;
    }
    hide Store, Zeros, Xor, Pad;
  }

  lemma EntryLinear(order: Order, poly: Word, a: Byte, b: Byte)
    requires |poly| >= 8 && |poly| % 8 == 0
    ensures Store(order, Zeros(poly, Pad(Store(order, Xor(a, b)), |poly|), 8))
            == Xor(Store(order, Zeros(poly, Pad(Store(order, a), |poly|), 8)),
                   Store(order, Zeros(poly, Pad(Store(order, b), |poly|), 8)))
  {
    var w, x, y := |poly|, Store(order, a), Store(order, b);
    StoreLinear(order, a, b);
    PadLinear(x, y, w);
    hide Store, Zeros, Xor, Pad;
    ZerosLinear(poly, Pad(x, w), Pad(y, w), 8);
    StoreLinear(order, Zeros(poly, Pad(x, w), 8), Zeros(poly, Pad(y, w), 8));
  }

  lemma PadLinear(a: Word, b: Word, w: nat)
    requires |a| == |b| <= w
    ensures Pad(Xor(a, b), w) == Xor(Pad(a, w), Pad(b, w))
  {
    XorConcat(a, Zero(w - |a|), b, Zero(w - |a|));
    XorZero(Zero(w - |a|));
  }

  lemma StoreLinear(order: Order, a: Word, b: Word)
    requires |a| == |b| && |a| % 8 == 0
    ensures Store(order, Xor(a, b)) == Xor(Store(order, a), Store(order, b))
  {
    if order.Plain? {
      FlipLinear(a, b);
    }
  }

  lemma StoreTwice(order: Order, c: Word)
    requires |c| % 8 == 0
    ensures Store(order, Store(order, c)) == c
  {
    if order.Plain? {
      FlipTwice(c);
    }
  }

  lemma StoreShift(order: Order, c: Word)
    requires |c| >= 8 && |c| % 8 == 0
    ensures Store(order, ShiftRight(c, 8)) == ShiftRight(Store(order, c), 8)
    ensures Store(order, c)[..8] == Store(order, c[..8])
  {
    if order.Plain? {
      FlipShift(c);
      FlipTake(c);
    }
  }

  /** Eight register steps act on the low byte; the rest of the register moves up. */
  lemma ByteSplits(poly: Word, r: Word, x: Byte)
    requires |poly| == |r| >= 8
    ensures Serial(poly, r, x) == Xor(ShiftRight(r, 8), Zeros(poly, Pad(Xor(r[..8], x), |r|), 8))
  {
    SerialAtOnce(poly, r, x);
    var low, high := Pad(Xor(r[..8], x), |r|), Zero(8) + r[8..];
    LowAndHigh(r, x);
    ZerosLinear(poly, high, low, 8);
    ZerosShift(poly, high, 8);
    assert ShiftRight(high, 8) == ShiftRight(r, 8);
  }

  lemma LowAndHigh(r: Word, x: Byte)
    requires |r| >= 8
    ensures Xor(r, Pad(x, |r|)) == Xor(Zero(8) + r[8..], Pad(Xor(r[..8], x), |r|))
  {
    var l, h := Xor(r, Pad(x, |r|)), Xor(Zero(8) + r[8..], Pad(Xor(r[..8], x), |r|));
    forall i | 0 <= i < |r|
      ensures l[i] == h[i]
    {
    }
  }

  /** One table look-up takes in the eight bits of a byte. */
  lemma FeedIsSerial(order: Order, poly: Word, r: Word, b: Byte)
    requires |poly| == |r| >= 8 && |poly| % 8 == 0
    ensures Linear(TableOf(order, poly), |r|)
    ensures Store(order, Serial(poly, r, Store(order, b))) == Feed(TableOf(order, poly), Store(order, r), b)
  {
    TableIsLinear(order, poly);
    var x: Byte := Store(order, b);
    ByteSplits(poly, r, x);
    var z := Zeros(poly, Pad(Xor(r[..8], x), |r|), 8);
    StoreLinear(order, ShiftRight(r, 8), z);
    StoreShift(order, r);
    StoreLinear(order, r[..8], x);
    StoreTwice(order, b);
    StoreTwice(order, Xor(r[..8], x));
  }

  /** The table machine on any message is the bit-serial register. */
  lemma {:induction false} FoldIsSerial(order: Order, poly: Word, r: Word, data: Bytes)
    requires |poly| == |r| >= 8 && |poly| % 8 == 0
    ensures Linear(TableOf(order, poly), |r|)
    ensures Store(order, Serial(poly, r, Message(order, data))) == Fold(TableOf(order, poly), Store(order, r), data)
  {
    TableIsLinear(order, poly);
    if data != [] {
      var before, b := data[..|data| - 1], data[|data| - 1];
      FoldIsSerial(order, poly, r, before);
      SerialConcat(poly, r, Message(order, before), Store(order, b));
      FeedIsSerial(order, poly, Serial(poly, r, Message(order, before)), b);
    }
  }
}
