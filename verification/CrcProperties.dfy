/** What the CRCs of CrcUpdates promise their users: frame checks leave a constant residue,
    registers lose nothing, and one entry point is not the CRC its comment names. */
module CrcProperties {
  import opened Bits
  import opened ShiftRegister
  import opened FastCrc
  import opened CrcUpdates

  /** A polynomial with a constant term: listed in shift order, its last bit is set. */
  ghost predicate Invertible(poly: Word) { poly != [] && poly[|poly| - 1] }

  lemma StepInjective(poly: Word, a: Word, b: Word)
    requires |poly| == |a| == |b| && Invertible(poly) && Step(poly, a) == Step(poly, b)
    ensures a == b
  {
    var n := |poly| - 1;
    assert Step(poly, a)[n] == a[0] && Step(poly, b)[n] == b[0];
    forall i | 0 < i < |a|
      ensures a[i] == b[i]
    {
      assert Step(poly, a)[i - 1] == Step(poly, b)[i - 1];
    }
  }

  lemma {:induction false} SerialInjective(poly: Word, a: Word, b: Word, bits: seq<bool>)
    requires |poly| == |a| == |b| && Invertible(poly) && Serial(poly, a, bits) == Serial(poly, b, bits)
    ensures a == b
    decreases |bits|
  {
    if bits != [] {
      var x := Pad([bits[0]], |a|);
      SerialInjective(poly, Step(poly, Xor(a, x)), Step(poly, Xor(b, x)), bits[1..]);
      StepInjective(poly, Xor(a, x), Xor(b, x));
      XorCancels(a, x);
      XorCancels(b, x);
    }
  }

  lemma XorCancels(a: Word, x: Word)
    requires |a| == |x|
    ensures Xor(Xor(a, x), x) == a
  {
  }

  lemma {:induction false} ZerosInjective(poly: Word, a: Word, b: Word, n: nat)
    requires |poly| == |a| == |b| && Invertible(poly) && Zeros(poly, a, n) == Zeros(poly, b, n)
    ensures a == b
    decreases n
  {
    if n > 0 {
      ZerosInjective(poly, Step(poly, a), Step(poly, b), n - 1);
      StepInjective(poly, a, b);
    }
  }

  /** The register every correctly closed frame ends in. */
  function Residue(poly: Word): Word
    requires poly != []
  {
    Zeros(poly, Ones(|poly|), |poly|)
  }

  /** A frame whose last bytes are check, in transmission order, ends in the residue exactly
      when check is the little-endian complement of the register before it, which is what
      x25 and crc32 return. */
  lemma FrameCheck(poly: Word, s: Word, check: Word)
    requires |poly| == |s| == |check| && Invertible(poly)
    ensures Serial(poly, s, check) == Residue(poly) <==> check == Not(s)
  {
    SerialAtOnce(poly, s, check);
    assert Pad(check, |s|) == check;
    if Serial(poly, s, check) == Residue(poly) {
      ZerosInjective(poly, Xor(s, check), Ones(|s|), |s|);
      assert forall i :: 0 <= i < |s| ==> Xor(s, check)[i] == Ones(|s|)[i];
    }
    if check == Not(s) {
      assert Xor(s, check) == Ones(|s|);
    }
  }

  /** RFC 1662, appendices C.2 and C.3: a receiver that runs the same register over message
      and check finds the residue exactly when the check is the message's own CRC. */
  lemma GoodFrame(a: Algorithm, data: Bytes, check: Bytes)
    requires Sliced(a) && a.order.Reflected? && a.complement && Invertible(a.poly)
    requires |Message(Reflected, check)| == |a.poly|
    ensures Serial(a.poly, a.init, Message(a.order, data + check)) == Residue(a.poly)
            <==> Message(Reflected, check) == Crc(a, data)
  {
    MessageConcat(a.order, data, check);
    SerialConcat(a.poly, a.init, Message(a.order, data), Message(a.order, check));
    FrameCheck(a.poly, Serial(a.poly, a.init, Message(a.order, data)), Message(a.order, check));
  }

  lemma HexInvertible(n: bv32, w: nat)
    requires w > 0 && Odd(n)
    ensures Invertible(Hex(n, w))
  {
    assert Hex(n, w)[w - 1] == Low(n, w)[0];
  }

  /** x25 and crc32 are such algorithms. */
  lemma FrameAlgorithms()
    ensures Sliced(X25()) && X25().order.Reflected? && X25().complement && Invertible(X25().poly)
    ensures Sliced(Crc32()) && Crc32().order.Reflected? && Crc32().complement && Invertible(Crc32().poly)
  {
    HexInvertible(0x1021, 16);
    HexInvertible(0x04c11db7, 32);
  }

  /** The ten entry points of 8, 16 and 32 bits are algorithms that the update methods take, and
      none of their registers ever runs two states into one. */
  lemma EntryPoints()
    ensures forall a :: a in {Ccitt(), Mcrf4xx(), Modbus(), Kermit(), Xmodem(), X25(), Crc32(), Cksum()}
              ==> Sliced(a) && Invertible(a.poly)
    ensures forall a :: a in {Smbus(), Maxim()}
              ==> |a.poly| == |a.init| == 8 && !a.complement && Invertible(a.poly)
  {
    HexInvertible(0x1021, 16);
    HexInvertible(0x8005, 16);
    HexInvertible(0x04c11db7, 32);
    HexInvertible(0x07, 8);
    HexInvertible(0x31, 8);
  }

  /** mcrf4xx starts from 0, not from the 0xffff its comment gives: on no message at all does
      it return the CRC it is named after, and on every message it returns kermit's. */
  lemma Mcrf4xxIsKermit(data: Bytes)
    ensures Crc(Mcrf4xx(), data) == Crc(Kermit(), data)
    ensures Crc(Mcrf4xx(), data) != Crc(Mcrf4xxDocumented(), data)
  {
    var a, d, m := Mcrf4xx(), Mcrf4xxDocumented(), Message(Reflected, data);
    HexInvertible(0x1021, 16);
    assert !a.init[0] && d.init[0];
    if Serial(a.poly, a.init, m) == Serial(a.poly, d.init, m) {
      SerialInjective(a.poly, a.init, d.init, m);
    }
  }
}
