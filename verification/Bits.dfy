/** Machine words as lists of bits, least significant bit first: masking is taking a prefix,
    shifting right is dropping one, and a little-endian load is concatenation. */
module Bits {

  type Word = seq<bool>
  type Byte = b: Word | |b| == 8 witness seq(8, _ => false)
  type Bytes = seq<Byte>

  function Zero(n: nat): (r: Word)
    ensures |r| == n && forall i :: 0 <= i < n ==> !r[i]
  {
    seq(n, _ => false)
  }

  function Ones(n: nat): (r: Word)
    ensures |r| == n && forall i :: 0 <= i < n ==> r[i]
  {
    seq(n, _ => true)
  }

  function Xor(a: Word, b: Word): (r: Word)
    requires |a| == |b|
    ensures |r| == |a| && forall i :: 0 <= i < |r| ==> r[i] == (a[i] != b[i])
  {
    seq(|a|, i requires 0 <= i < |a| => a[i] != b[i])
  }

  function Not(a: Word): (r: Word)
    ensures |r| == |a| && forall i :: 0 <= i < |r| ==> r[i] == !a[i]
  {
    seq(|a|, i requires 0 <= i < |a| => !a[i])
  }

  /** c >> n on a word that keeps its width. */
  function ShiftRight(c: Word, n: nat): (r: Word)
    requires n <= |c|
    ensures |r| == |c|
  {
    c[n..] + Zero(n)
  }

  /** The first n bits of a word, widened with zeros. */
  function Pad(c: Word, n: nat): (r: Word)
    requires |c| <= n
    ensures |r| == n
  {
    c + Zero(n - |c|)
  }

  function Odd(c: bv32): bool { c & 1 == 1 }

  function Half(c: bv32): bv32 { c >> 1 }

  /** The w low bits of a machine word. */
  function Low(c: bv32, w: nat): (r: Word)
    ensures |r| == w
    decreases w
  {
    if w == 0 then [] else [Odd(c)] + Low(Half(c), w - 1)
  }

  lemma XorComm(a: Word, b: Word)
    requires |a| == |b|
    ensures Xor(a, b) == Xor(b, a)
  {
  }

  lemma XorAssoc(a: Word, b: Word, c: Word)
    requires |a| == |b| == |c|
    ensures Xor(Xor(a, b), c) == Xor(a, Xor(b, c))
  {
    assert forall i :: 0 <= i < |a| ==> Xor(Xor(a, b), c)[i] == Xor(a, Xor(b, c))[i];
  }

  lemma XorSwap(a: Word, b: Word, c: Word, d: Word)
    requires |a| == |b| == |c| == |d|
    ensures Xor(Xor(a, b), Xor(c, d)) == Xor(Xor(a, c), Xor(b, d))
  {
    assert forall i :: 0 <= i < |a| ==> Xor(Xor(a, b), Xor(c, d))[i] == Xor(Xor(a, c), Xor(b, d))[i];
  }

  lemma XorZero(a: Word)
    ensures Xor(a, Zero(|a|)) == a && Xor(Zero(|a|), a) == a
  {
  }

  lemma XorTake(a: Word, b: Word, n: nat)
    requires |a| == |b| && n <= |a|
    ensures Xor(a, b)[..n] == Xor(a[..n], b[..n]) && Xor(a, b)[n..] == Xor(a[n..], b[n..])
  {
  }

  lemma XorConcat(a: Word, x: Word, b: Word, y: Word)
    requires |a| == |b| && |x| == |y|
    ensures Xor(a + x, b + y) == Xor(a, b) + Xor(x, y)
  {
  }

  lemma ShiftRightLinear(a: Word, b: Word, n: nat)
    requires |a| == |b| && n <= |a|
    ensures ShiftRight(Xor(a, b), n) == Xor(ShiftRight(a, n), ShiftRight(b, n))
  {
  }
}
