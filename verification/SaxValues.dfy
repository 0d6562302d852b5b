/** Values of rapidjson's document.h as their flags and payload say: numbers with the flags
    that tell which types fit them, strings with where they are stored. */
module SaxValues {
  const TWO31 := 0x8000_0000
  const TWO32 := 0x1_0000_0000
  const TWO63 := 0x8000_0000_0000_0000
  const TWO64 := 0x1_0000_0000_0000_0000

  type Word = x: int | 0 <= x < TWO64 witness 0

  datatype Flags = Flags(int32: bool, uint32: bool, int64: bool, uint64: bool, double: bool)

  /** The eight bytes of data_.n, read as an unsigned number, and the flags. */
  datatype Number = Number(raw: Word, flags: Flags)

  /** An integer's two's complement in 64 bits. */
  function Bits(i: int): Word
    requires -TWO63 <= i < TWO64
  {
    if i < 0 then i + TWO64 else i
  }

  function AsInt64(w: Word): (i: int)
    ensures -TWO63 <= i < TWO63
  {
    if w < TWO63 then w else w - TWO64
  }

  /** data_.n.u.u on a little-endian machine: the low four bytes. */
  function AsUint(w: Word): (u: int)
    ensures 0 <= u < TWO32
  {
    w % TWO32
  }

  /** data_.n.i.i */
  function AsInt(w: Word): (i: int)
    ensures -TWO31 <= i < TWO31
  {
    if AsUint(w) < TWO31 then AsUint(w) else AsUint(w) - TWO32
  }

  // ---------------------------------------------------------------- the constructors

  function FromInt(i: int): Number
    requires -TWO31 <= i < TWO31
  {
    Number(Bits(i), Flags(true, i >= 0, true, i >= 0, false))
  }

  function FromUint(u: int): Number
    requires 0 <= u < TWO32
  {
    Number(u, Flags(u < TWO31, true, true, true, false))
  }

  function FromInt64(i: int): Number
    requires -TWO63 <= i < TWO63
  {
    Number(Bits(i), Flags(-TWO31 <= i < TWO31, 0 <= i < TWO32, true, i >= 0, false))
  }

  function FromUint64(u: Word): Number {
    Number(u, Flags(u < TWO31, u < TWO32, u < TWO63, true, false))
  }

  /** The eight bytes of a double are kept as they are. */
  function FromDouble(w: Word): Number {
    Number(w, Flags(false, false, false, false, true))
  }

  /** GenericValue(kNumberType): kNumberAnyFlag */
  function AnyNumber(): Number {
    Number(0, Flags(true, true, true, true, true))
  }

  /** Some numeric constructor makes this number. */
  ghost predicate Constructed(n: Number) {
    || (exists i :: -TWO31 <= i < TWO31 && n == FromInt(i))
    || (exists u :: 0 <= u < TWO32 && n == FromUint(u))
    || (exists i :: -TWO63 <= i < TWO63 && n == FromInt64(i))
    || (exists w: Word :: n == FromUint64(w))
    || (exists w: Word :: n == FromDouble(w))
  }

  // ---------------------------------------------------------------- strings and trees

  /** The longest string kept inside a value, with 48-bit pointers. */
  const SHORT := 13

  datatype Storage = Const | Copied | Inline

  datatype Text = Text(chars: string, storage: Storage)

  /** SetStringRaw, with and without an allocator. */
  function SetString(chars: string, copy: bool): Text {
    Text(chars, if !copy then Const else if |chars| <= SHORT then Inline else Copied)
  }

  /** kCopyFlag */
  predicate IsCopy(t: Text) { t.storage != Const }

  datatype Json =
    | Null
    | Bool(b: bool)
    | Num(n: Number)
    | Str(t: Text)
    | Arr(elements: seq<Json>)
    | Obj(members: seq<Member>)

  datatype Member = Member(name: Json, value: Json)
}
