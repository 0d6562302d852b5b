/** CRCs as their standards define them: a shift register fed one message bit at a time, the
    polynomial added whenever a one is shifted out.  Bits are listed in shift order, the
    next one to leave first, which makes one definition serve both bit orders. */
module ShiftRegister {
  import opened Bits

  function Step(poly: Word, c: Word): (r: Word)
    requires |poly| == |c| > 0
    ensures |r| == |c|
  {
    if c[0] then Xor(c[1..] + [false], poly) else c[1..] + [false]
  }

  /** The register after taking in message bits one by one. */
  function Serial(poly: Word, c: Word, bits: seq<bool>): (r: Word)
    requires |poly| == |c| > 0
    ensures |r| == |c|
    decreases |bits|
  {
    if bits == [] then c else Serial(poly, Step(poly, Xor(c, Pad([bits[0]], |c|))), bits[1..])
  }

  /** The register after n zero bits. */
  function Zeros(poly: Word, c: Word, n: nat): (r: Word)
    requires |poly| == |c| > 0
    ensures |r| == |c|
    decreases n
  {
    if n == 0 then c else Zeros(poly, Step(poly, c), n - 1)
  }

  lemma StepLinear(poly: Word, a: Word, b: Word)
    requires |poly| == |a| == |b| > 0
    ensures Step(poly, Xor(a, b)) == Xor(Step(poly, a), Step(poly, b))
  {
    var l, r := Step(poly, Xor(a, b)), Xor(Step(poly, a), Step(poly, b));
    forall i | 0 <= i < |a|
      ensures l[i] == r[i]
    {
    }
  }

  lemma {:induction false} ZerosLinear(poly: Word, a: Word, b: Word, n: nat)
    requires |poly| == |a| == |b| > 0
    ensures Zeros(poly, Xor(a, b), n) == Xor(Zeros(poly, a, n), Zeros(poly, b, n))
    decreases n
  {
    if n > 0 {
      StepLinear(poly, a, b);
      ZerosLinear(poly, Step(poly, a), Step(poly, b), n - 1);
    }
  }

  /** Bits that are zero only move up. */
  lemma {:induction false} ZerosShift(poly: Word, c: Word, n: nat)
    requires |poly| == |c| > 0 && n <= |c|
    requires forall i :: 0 <= i < n ==> !c[i]
    ensures Zeros(poly, c, n) == ShiftRight(c, n)
    decreases n
  {
    if n > 0 {
      var d := c[1..] + [false];
      ZerosShift(poly, d, n - 1);
      assert d[n - 1..] + Zero(n - 1) == c[n..] + Zero(n);
    }
  }

  /** Taking in up to a register's width of bits is adding them all first. */
  lemma {:induction false} SerialAtOnce(poly: Word, c: Word, bits: seq<bool>)
    requires |poly| == |c| > 0 && |bits| <= |c|
    ensures Serial(poly, c, bits) == Zeros(poly, Xor(c, Pad(bits, |c|)), |bits|)
    decreases |bits|
  {
    if bits == [] {
      assert Xor(c, Pad(bits, |c|)) == c;
    } else {
      var first, rest := Pad([bits[0]], |c|), Pad([false] + bits[1..], |c|);
      assert Xor(first, rest) == Pad(bits, |c|);
      XorAssoc(c, first, rest);
      StepLinear(poly, Xor(c, first), rest);
      assert Step(poly, rest) == Pad(bits[1..], |c|);
      SerialAtOnce(poly, Step(poly, Xor(c, first)), bits[1..]);
    }
  }

  /** A message may be cut anywhere and its register carried over. */
  lemma {:induction false} SerialConcat(poly: Word, c: Word, a: seq<bool>, b: seq<bool>)
    requires |poly| == |c| > 0
    ensures Serial(poly, c, a + b) == Serial(poly, Serial(poly, c, a), b)
    decreases |a|
  {
    if a == [] {
      assert a + b == b;
    } else {
      assert (a + b)[1..] == a[1..] + b;
      SerialConcat(poly, Step(poly, Xor(c, Pad([a[0]], |c|))), a[1..], b);
    }
  }
}
