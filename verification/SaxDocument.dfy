/** GenericValue::Accept, which turns a value into events, and the handler methods of
    GenericDocument, which turn events back into values on a stack. */
module SaxDocument {
  import opened Basics
  import opened SaxValues

  datatype Event =
    | NullEv
    | BoolEv(b: bool)
    | IntEv(i: int)
    | UintEv(u: int)
    | Int64Ev(i: int)
    | Uint64Ev(w: Word)
    | DoubleEv(w: Word)
    | StringEv(chars: string, copy: bool)
    | KeyEv(chars: string, copy: bool)
    | StartObject
    | EndObject(count: nat)
    | StartArray
    | EndArray(count: nat)

  // ---------------------------------------------------------------- Accept

  /** RAPIDJSON_ASSERT(m->name.IsString()), at every depth */
  predicate Named(v: Json)
    decreases v
  {
    match v
    case Arr(es) => AllNamed(es)
    case Obj(ms) => AllMembersNamed(ms)
    case _ => true
  }

  predicate AllNamed(es: seq<Json>)
    decreases es
  {
    es == [] || (AllNamed(es[..|es| - 1]) && Named(es[|es| - 1]))
  }

  predicate AllMembersNamed(ms: seq<Member>)
    decreases ms
  {
    ms == [] || (AllMembersNamed(ms[..|ms| - 1]) && MemberNamed(ms[|ms| - 1]))
  }

  predicate MemberNamed(m: Member)
    decreases m
  {
    m.name.Str? && Named(m.value)
  }

  /** The event of a number, the first type in the order of the tests. */
  function NumberEvent(n: Number): Event {
    if n.flags.double then DoubleEv(n.raw)
    else if n.flags.int32 then IntEv(AsInt(n.raw))
    else if n.flags.uint32 then UintEv(AsUint(n.raw))
    else if n.flags.int64 then Int64Ev(AsInt64(n.raw))
    else Uint64Ev(n.raw)
  }

  /** The events Accept sends to a handler. */
  function Events(v: Json): seq<Event>
    requires Named(v)
    decreases v
  {
    match v
    case Null => [NullEv]
    case Bool(b) => [BoolEv(b)]
    case Num(n) => [NumberEvent(n)]
    case Str(t) => [StringEv(t.chars, IsCopy(t))]
    case Arr(es) => [StartArray] + ElementEvents(es) + [EndArray(|es|)]
    case Obj(ms) => [StartObject] + MemberEvents(ms) + [EndObject(|ms|)]
  }

  function ElementEvents(es: seq<Json>): seq<Event>
    requires AllNamed(es)
    decreases es
  {
    if es == [] then [] else ElementEvents(es[..|es| - 1]) + Events(es[|es| - 1])
  }

  function MemberEvents(ms: seq<Member>): seq<Event>
    requires AllMembersNamed(ms)
    decreases ms
  {
    if ms == [] then [] else MemberEvents(ms[..|ms| - 1]) + OneMember(ms[|ms| - 1])
  }

  function OneMember(m: Member): seq<Event>
    requires MemberNamed(m)
    decreases m
  {
    [KeyEv(m.name.t.chars, IsCopy(m.name.t))] + Events(m.value)
  }

  // ---------------------------------------------------------------- the document's stack

  type Stack = seq<Json>

  /** Two values in turn, read as name and value: what Pop<Member> sees. */
  function Paired(s: seq<Json>): (r: seq<Member>)
    requires |s| % 2 == 0
    ensures |r| == |s| / 2
  {
    if s == [] then [] else Paired(s[..|s| - 2]) + [Member(s[|s| - 2], s[|s| - 1])]
  }

  /** The value an event pushes; the starts push an empty container. */
  function Pushed(e: Event): Option<Json>
    requires (e.IntEv? ==> -TWO31 <= e.i < TWO31) && (e.UintEv? ==> 0 <= e.u < TWO32)
             && (e.Int64Ev? ==> -TWO63 <= e.i < TWO63)
  {
    match e
    case NullEv => Some(Null)
    case BoolEv(b) => Some(Bool(b))
    case IntEv(i) => Some(Num(FromInt(i)))
    case UintEv(u) => Some(Num(FromUint(u)))
    case Int64Ev(i) => Some(Num(FromInt64(i)))
    case Uint64Ev(w) => Some(Num(FromUint64(w)))
    case DoubleEv(w) => Some(Num(FromDouble(w)))
    case StringEv(chars, copy) => Some(Str(SetString(chars, copy)))
    case KeyEv(chars, copy) => Some(Str(SetString(chars, copy)))
    case StartObject => Some(Obj([]))
    case StartArray => Some(Arr([]))
    case EndObject(_) => None
    case EndArray(_) => None
  }

  /** An integer event carries a value of its own type. */
  predicate InRange(e: Event) {
    (e.IntEv? ==> -TWO31 <= e.i < TWO31) && (e.UintEv? ==> 0 <= e.u < TWO32) && (e.Int64Ev? ==> -TWO63 <= e.i < TWO63)
  }

  /** Pop asserts that the stack holds enough, Top that something is left. */
  predicate Accepts(s: Stack, e: Event) {
    && InRange(e)
    && (e.EndObject? ==> 2 * e.count < |s|)
    && (e.EndArray? ==> e.count < |s|)
  }

  function Handle(s: Stack, e: Event): Stack
    requires Accepts(s, e)
  {
    match e
    case EndObject(n) =>
      var k := |s| - 2 * n;
      s[..k - 1] + [Obj(Paired(s[k..]))]
    case EndArray(n) =>
      var k := |s| - n;
      s[..k - 1] + [Arr(s[k..])]
    case _ => s + [Pushed(e).value]
  }

  datatype Fed = Failed | Stands(stack: Stack)

  /** The stack after the events, if no assertion fails. */
  function Feed(s: Stack, evs: seq<Event>): Fed {
    if evs == [] then Stands(s)
    else
      var before, e := Feed(s, evs[..|evs| - 1]), evs[|evs| - 1];
      if before.Failed? || !Accepts(before.stack, e) then Failed else Stands(Handle(before.stack, e))
  }

  // ---------------------------------------------------------------- what comes back

  /** The number that its event makes. */
  function RebuiltNumber(n: Number): Number { Pushed(NumberEvent(n)).value.n }

  /** A value with every leaf made anew. */
  function Rebuilt(v: Json): Json
    decreases v
  {
    match v
    case Num(n) => Num(RebuiltNumber(n))
    case Str(t) => Str(SetString(t.chars, IsCopy(t)))
    case Arr(es) => Arr(AllRebuilt(es))
    case Obj(ms) => Obj(MembersRebuilt(ms))
    case _ => v
  }

  function AllRebuilt(es: seq<Json>): (r: seq<Json>)
    ensures |r| == |es|
    decreases es
  {
    if es == [] then [] else AllRebuilt(es[..|es| - 1]) + [Rebuilt(es[|es| - 1])]
  }

  function MembersRebuilt(ms: seq<Member>): (r: seq<Member>)
    ensures |r| == |ms|
    decreases ms
  {
    if ms == [] then [] else MembersRebuilt(ms[..|ms| - 1]) + [MemberRebuilt(ms[|ms| - 1])]
  }

  function MemberRebuilt(m: Member): Member
    decreases m
  {
    Member(Rebuilt(m.name), Rebuilt(m.value))
  }
}
