/** The class GenericDocument as a handler, and Accept as the loops that drive it. */
module SaxHandler {
  import opened SaxValues
  import opened SaxDocument
  import opened SaxRoundTrip

  class GenericDocument {
    var stack: Stack
    var root: Json

    constructor ()
      ensures stack == [] && root == Null
    {
      stack, root := [], Null;
    }

    /** The handlers that push one value. */
    method Push(e: Event) returns (ok: bool)
      requires InRange(e) && !e.EndObject? && !e.EndArray?
      modifies `stack
      ensures ok && stack == Handle(old(stack), e)
    {
      ok := true;
      match e
      case NullEv => stack := stack + [Null];
      case BoolEv(b) => stack := stack + [Bool(b)];
      case IntEv(i) => stack := stack + [Num(FromInt(i))];
      case UintEv(u) => stack := stack + [Num(FromUint(u))];
      case Int64Ev(i) => stack := stack + [Num(FromInt64(i))];
      case Uint64Ev(w) => stack := stack + [Num(FromUint64(w))];
      case DoubleEv(w) => stack := stack + [Num(FromDouble(w))];
      case StringEv(chars, copy) => stack := stack + [Str(SetString(chars, copy))];
      case KeyEv(chars, copy) => stack := stack + [Str(SetString(chars, copy))];
      case StartObject => stack := stack + [Obj([])];
      case StartArray => stack := stack + [Arr([])];
    }

    method Pop(n: nat) returns (top: seq<Json>)
      requires n <= |stack|
      modifies `stack
      ensures stack + top == old(stack) && |top| == n
    {
      top := stack[|stack| - n..];
      stack := stack[..|stack| - n];
    }

    method EndObject(memberCount: nat) returns (ok: bool)
      requires 2 * memberCount < |stack|
      modifies `stack
      ensures ok && stack == Handle(old(stack), SaxDocument.EndObject(memberCount))
    {
      var members := Pop(2 * memberCount);
      assert old(stack)[|old(stack)| - 2 * memberCount..] == members;
      stack := stack[|stack| - 1 := Obj(Paired(members))];
      return true;
    }

    method EndArray(elementCount: nat) returns (ok: bool)
      requires elementCount < |stack|
      modifies `stack
      ensures ok && stack == Handle(old(stack), SaxDocument.EndArray(elementCount))
    {
      var elements := Pop(elementCount);
      assert old(stack)[|old(stack)| - elementCount..] == elements;
      stack := stack[|stack| - 1 := Arr(elements)];
      return true;
    }

    /** Populate with a value's Accept as the generator: a deep copy. */
    method Populate(v: Json)
      requires Named(v) && stack == []
      modifies this
      ensures stack == [] && root == Rebuilt(v) && (root == v <==> WellMade(v))
    {
      var ok := Accept(v, this);
      assert |stack| == 1;
      RebuiltIff(v);
      root := stack[0];
      stack := [];
    }
  }

  method Accept(v: Json, handler: GenericDocument) returns (ok: bool)
    requires Named(v)
    modifies handler`stack
    ensures ok && handler.stack == old(handler.stack) + [Rebuilt(v)]
    decreases v
  {
    hide Paired, Flat;
    match v
    case Null => ok := handler.Push(NullEv);
    case Bool(b) => ok := handler.Push(BoolEv(b));
    case Num(n) => ok := handler.Push(NumberEvent(n));
    case Str(t) => ok := handler.Push(StringEv(t.chars, IsCopy(t)));
    case Arr(es) => ok := AcceptArray(es, handler);
    case Obj(ms) => ok := AcceptObject(ms, handler);
  }

  method AcceptArray(es: seq<Json>, handler: GenericDocument) returns (ok: bool)
    requires AllNamed(es)
    modifies handler`stack
    ensures ok && handler.stack == old(handler.stack) + [Arr(AllRebuilt(es))]
    decreases es, 1
  {
    hide Rebuilt;
    ghost var s := handler.stack;
    ok := handler.Push(StartArray);
    for i := 0 to |es|
      invariant handler.stack == s + [Arr([])] + AllRebuilt(es[..i])
    {
      PrefixNamed(es, i);
      assert es[..i + 1][..i] == es[..i];
      ok := Accept(es[i], handler);
    }
    assert es[..|es|] == es;
    EndTakesElements(s, Arr([]), AllRebuilt(es));
    ok := handler.EndArray(|es|);
  }

  method AcceptObject(ms: seq<Member>, handler: GenericDocument) returns (ok: bool)
    requires AllMembersNamed(ms)
    modifies handler`stack
    ensures ok && handler.stack == old(handler.stack) + [Obj(MembersRebuilt(ms))]
    decreases ms, 1
  {
    ghost var s := handler.stack;
    ok := handler.Push(StartObject);
    for i := 0 to |ms|
      invariant handler.stack == s + [Obj([])] + Flat(MembersRebuilt(ms[..i]))
    {
      PrefixMembersNamed(ms, i);
      assert ms[..i + 1][..i] == ms[..i];
      FlatSnoc(MembersRebuilt(ms[..i]), MemberRebuilt(ms[i]));
      ok := AcceptMember(ms[i], handler);
    }
    assert ms[..|ms|] == ms;
    EndTakesMembers(s, Obj([]), MembersRebuilt(ms));
    ok := handler.EndObject(|ms|);
  }

  method AcceptMember(m: Member, handler: GenericDocument) returns (ok: bool)
    requires MemberNamed(m)
    modifies handler`stack
    ensures ok && handler.stack == old(handler.stack) + [MemberRebuilt(m).name, MemberRebuilt(m).value]
    decreases m, 1
  {
    ok := handler.Push(KeyEv(m.name.t.chars, IsCopy(m.name.t)));
    ok := Accept(m.value, handler);
  }

  lemma {:induction false} PrefixNamed(es: seq<Json>, i: nat)
    requires AllNamed(es) && i < |es|
    ensures Named(es[i])
    decreases |es|
  {
    if i < |es| - 1 {
      PrefixNamed(es[..|es| - 1], i);
    }
  }

  lemma {:induction false} PrefixMembersNamed(ms: seq<Member>, i: nat)
    requires AllMembersNamed(ms) && i < |ms|
    ensures MemberNamed(ms[i])
    decreases |ms|
  {
    if i < |ms| - 1 {
      PrefixMembersNamed(ms[..|ms| - 1], i);
    }
  }
}
