/** Accept and the document's handler undo each other. */
module SaxRoundTrip {
  import opened SaxValues
  import opened SaxDocument

  // ---------------------------------------------------------------- events into the stack

  lemma {:induction false} FeedConcat(s: Stack, a: seq<Event>, b: seq<Event>)
    ensures Feed(s, a + b) == var f := Feed(s, a); if f.Failed? then Failed else Feed(f.stack, b)
  {
    if b == [] {
      assert a + b == a;
    } else {
      assert (a + b)[..|a + b| - 1] == a + b[..|b| - 1];
      hide Handle, Accepts;
      FeedConcat(s, a, b[..|b| - 1]);
    }
  }

  lemma FeedOne(s: Stack, e: Event)
    requires Accepts(s, e)
    ensures Feed(s, [e]) == Stands(Handle(s, e))
  {
    assert Feed(s, [e][..0]) == Stands(s);
    hide Handle, Accepts;
  }

  /** Members laid out on the stack: name, value, name, value. */
  function Flat(ms: seq<Member>): (r: seq<Json>)
    ensures |r| == 2 * |ms|
  {
    if ms == [] then [] else Flat(ms[..|ms| - 1]) + [ms[|ms| - 1].name, ms[|ms| - 1].value]
  }

  lemma {:induction false} PairedFlat(ms: seq<Member>)
    ensures Paired(Flat(ms)) == ms
  {
    if ms != [] {
      var f := Flat(ms);
      PairedFlat(ms[..|ms| - 1]);
      assert f[..|f| - 2] == Flat(ms[..|ms| - 1]);
    }
  }

  lemma Tail(s: Stack, open: Json, children: seq<Json>)
    ensures var t := s + [open] + children;
            t[|t| - |children|..] == children && t[..|t| - |children| - 1] == s
  {
  }

  /** The end of a container takes exactly its children. */
  lemma EndTakesElements(s: Stack, open: Json, children: seq<Json>)
    ensures var t := s + [open] + children;
            Accepts(t, EndArray(|children|)) && Handle(t, EndArray(|children|)) == s + [Arr(children)]
  {
    Tail(s, open, children);
  }

  lemma EndTakesPairs(s: Stack, open: Json, children: seq<Json>, n: nat)
    requires |children| == 2 * n
    ensures var t := s + [open] + children;
            Accepts(t, EndObject(n)) && Handle(t, EndObject(n)) == s + [Obj(Paired(children))]
  {
    Tail(s, open, children);
    hide Paired;
  }

  lemma EndTakesMembers(s: Stack, open: Json, ms: seq<Member>)
    ensures var t := s + [open] + Flat(ms);
            Accepts(t, EndObject(|ms|)) && Handle(t, EndObject(|ms|)) == s + [Obj(ms)]
  {
    hide *;
    EndTakesPairs(s, open, Flat(ms), |ms|);
    PairedFlat(ms);
  }

  /** A container: its start, what its children push, its end. */
  lemma FeedContainer(s: Stack, start: Event, open: Json, inner: seq<Event>, children: seq<Json>, end: Event,
                      whole: Json)
    requires Accepts(s, start) && Handle(s, start) == s + [open]
    requires Feed(s + [open], inner) == Stands(s + [open] + children)
    requires Accepts(s + [open] + children, end) && Handle(s + [open] + children, end) == s + [whole]
    ensures Feed(s, [start] + inner + [end]) == Stands(s + [whole])
  {
    hide Feed, Handle, Accepts;
    FeedConcat(s, [start] + inner, [end]);
    FeedConcat(s, [start], inner);
    FeedOne(s, start);
    FeedOne(s + [open] + children, end);
  }

  lemma FeedArray(s: Stack, inner: seq<Event>, children: seq<Json>)
    requires Feed(s + [Arr([])], inner) == Stands(s + [Arr([])] + children)
    ensures Feed(s, [StartArray] + inner + [EndArray(|children|)]) == Stands(s + [Arr(children)])
  {
    assert Accepts(s, StartArray) && Handle(s, StartArray) == s + [Arr([])];
    hide *;
    EndTakesElements(s, Arr([]), children);
    FeedContainer(s, StartArray, Arr([]), inner, children, EndArray(|children|), Arr(children));
  }

  lemma FeedObject(s: Stack, inner: seq<Event>, ms: seq<Member>)
    requires Feed(s + [Obj([])], inner) == Stands(s + [Obj([])] + Flat(ms))
    ensures Feed(s, [StartObject] + inner + [EndObject(|ms|)]) == Stands(s + [Obj(ms)])
  {
    assert Accepts(s, StartObject) && Handle(s, StartObject) == s + [Obj([])];
    hide *;
    EndTakesMembers(s, Obj([]), ms);
    FeedContainer(s, StartObject, Obj([]), inner, Flat(ms), EndObject(|ms|), Obj(ms));
  }

  lemma FeedLeaf(s: Stack, v: Json)
    requires !v.Arr? && !v.Obj?
    ensures Feed(s, Events(v)) == Stands(s + [Rebuilt(v)])
  {
    hide Feed;
    FeedOne(s, Events(v)[0]);
  }

  /** From any stack, the events of a value push that value, made anew. */
  lemma {:induction false} FeedEvents(s: Stack, v: Json)
    requires Named(v)
    ensures Feed(s, Events(v)) == Stands(s + [Rebuilt(v)])
    decreases v
  {
    hide Feed, ElementEvents, AllRebuilt, MemberEvents, MembersRebuilt, Flat;
    match v
    case Arr(es) =>
      FeedElements(s + [Arr([])], es);
      FeedArray(s, ElementEvents(es), AllRebuilt(es));
    case Obj(ms) =>
      FeedMembers(s + [Obj([])], ms);
      FeedObject(s, MemberEvents(ms), MembersRebuilt(ms));
    case _ =>
      FeedLeaf(s, v);
  }

  lemma {:induction false} FeedElements(s: Stack, es: seq<Json>)
    requires AllNamed(es)
    ensures Feed(s, ElementEvents(es)) == Stands(s + AllRebuilt(es))
    decreases es
  {
    if es == [] {
      return;
    }
    var init, v := es[..|es| - 1], es[|es| - 1];
    FeedElements(s, init);
    FeedEvents(s + AllRebuilt(init), v);
    FeedConcat(s, ElementEvents(init), Events(v));
    assert ElementEvents(es) == ElementEvents(init) + Events(v);
    assert AllRebuilt(es) == AllRebuilt(init) + [Rebuilt(v)];
    hide *;
    assert s + AllRebuilt(init) + [Rebuilt(v)] == s + (AllRebuilt(init) + [Rebuilt(v)]);
  }

  lemma {:induction false} FeedMembers(s: Stack, ms: seq<Member>)
    requires AllMembersNamed(ms)
    ensures Feed(s, MemberEvents(ms)) == Stands(s + Flat(MembersRebuilt(ms)))
    decreases ms
  {
    if ms == [] {
      return;
    }
    var init, m := ms[..|ms| - 1], ms[|ms| - 1];
    FeedMembers(s, init);
    FeedMember(s + Flat(MembersRebuilt(init)), m);
    FeedConcat(s, MemberEvents(init), OneMember(m));
    FlatSnoc(MembersRebuilt(init), MemberRebuilt(m));
    assert MembersRebuilt(ms) == MembersRebuilt(init) + [MemberRebuilt(m)];
    hide Feed, OneMember, MemberRebuilt, Flat;
  }

  lemma FlatSnoc(ms: seq<Member>, m: Member)
    ensures Flat(ms + [m]) == Flat(ms) + [m.name, m.value]
  {
    assert (ms + [m])[..|ms|] == ms;
  }

  lemma {:induction false} FeedMember(s: Stack, m: Member)
    requires MemberNamed(m)
    ensures Feed(s, OneMember(m)) == Stands(s + [MemberRebuilt(m).name, MemberRebuilt(m).value])
    decreases m
  {
    var key := KeyEv(m.name.t.chars, IsCopy(m.name.t));
    FeedOne(s, key);
    FeedEvents(s + [Rebuilt(m.name)], m.value);
    FeedConcat(s, [key], Events(m.value));
    hide Feed, Events;
  }

  // ---------------------------------------------------------------- what survives

  /** A string is stored the way its length demands. */
  predicate WellStored(t: Text) {
    (t.storage.Copied? ==> |t.chars| > SHORT) && (t.storage.Inline? ==> |t.chars| <= SHORT)
  }

  /** Every number at a leaf is as a constructor makes it, every string stored as it should be. */
  ghost predicate WellMade(v: Json)
    decreases v
  {
    match v
    case Num(n) => Constructed(n)
    case Str(t) => WellStored(t)
    case Arr(es) => AllWellMade(es)
    case Obj(ms) => MembersWellMade(ms)
    case _ => true
  }

  ghost predicate AllWellMade(es: seq<Json>)
    decreases es
  {
    es == [] || (AllWellMade(es[..|es| - 1]) && WellMade(es[|es| - 1]))
  }

  ghost predicate MembersWellMade(ms: seq<Member>)
    decreases ms
  {
    ms == [] || (MembersWellMade(ms[..|ms| - 1]) && MemberWellMade(ms[|ms| - 1]))
  }

  ghost predicate MemberWellMade(m: Member)
    decreases m
  {
    WellMade(m.name) && WellMade(m.value)
  }

  /** Flags and all eight bytes of a number survive exactly when a constructor makes it. */
  lemma NumberSurvivesIff(n: Number)
    ensures RebuiltNumber(n) == n <==> Constructed(n)
  {
    var r := RebuiltNumber(n);
    RebuiltIsConstructed(n);
    if Constructed(n) {
      ConstructedSurvives(n);
    }
  }

  /** An integer is sent as the first of Int, Uint, Int64 and Uint64 that holds it, whichever
      constructor made it; a double as its eight bytes. */
  lemma ConstructorEvents(i: int, u: int, j: int, w: Word, d: Word)
    requires -TWO31 <= i < TWO31 && 0 <= u < TWO32 && -TWO63 <= j < TWO63
    ensures NumberEvent(FromInt(i)) == IntEv(i)
    ensures NumberEvent(FromUint(u)) == if u < 0x8000_0000 then IntEv(u) else UintEv(u)
    ensures NumberEvent(FromInt64(j))
            == if -0x8000_0000 <= j < 0x8000_0000 then IntEv(j)
               else if 0 <= j < 0x1_0000_0000 then UintEv(j)
               else Int64Ev(j)
    ensures NumberEvent(FromUint64(w))
            == if w < 0x8000_0000 then IntEv(w)
               else if w < 0x1_0000_0000 then UintEv(w)
               else if w < 0x8000_0000_0000_0000 then Int64Ev(w)
               else Uint64Ev(w)
    ensures NumberEvent(FromDouble(d)) == DoubleEv(d)
  {
    assert AsInt(Bits(i)) == i && AsUint(u) == u;
    assert AsInt64(Bits(j)) == j && (-TWO31 <= j < TWO31 ==> AsInt(Bits(j)) == j);
    assert 0 <= j < TWO32 ==> AsUint(Bits(j)) == j;
    assert w < TWO31 ==> AsInt(w) == w;
    assert w < TWO32 ==> AsUint(w) == w;
  }

  lemma RebuiltIsConstructed(n: Number)
    ensures Constructed(RebuiltNumber(n))
  {
  }

  lemma IntSurvives(i: int)
    requires -TWO31 <= i < TWO31
    ensures RebuiltNumber(FromInt(i)) == FromInt(i)
  {
    assert AsInt(Bits(i)) == i;
  }

  lemma UintSurvives(u: int)
    requires 0 <= u < TWO32
    ensures RebuiltNumber(FromUint(u)) == FromUint(u)
  {
    assert AsUint(u) == u;
  }

  lemma Int64Survives(i: int)
    requires -TWO63 <= i < TWO63
    ensures RebuiltNumber(FromInt64(i)) == FromInt64(i)
  {
    assert AsInt64(Bits(i)) == i;
    assert -TWO31 <= i < TWO31 ==> AsInt(Bits(i)) == i;
  }

  lemma Uint64Survives(w: Word)
    ensures RebuiltNumber(FromUint64(w)) == FromUint64(w)
  {
    assert w < TWO31 ==> AsInt(w) == w;
  }

  lemma ConstructedSurvives(n: Number)
    requires Constructed(n)
    ensures RebuiltNumber(n) == n
  {
    hide RebuiltNumber, FromInt, FromUint, FromInt64, FromUint64;
    if i :| -TWO31 <= i < TWO31 && n == FromInt(i) {
      IntSurvives(i);
    } else if u :| 0 <= u < TWO32 && n == FromUint(u) {
      UintSurvives(u);
    } else if i :| -TWO63 <= i < TWO63 && n == FromInt64(i) {
      Int64Survives(i);
    } else if w: Word :| n == FromUint64(w) {
      Uint64Survives(w);
    } else {
      var w: Word :| n == FromDouble(w);
      DoubleSurvives(w);
    }
  }

  lemma DoubleSurvives(w: Word)
    ensures RebuiltNumber(FromDouble(w)) == FromDouble(w)
  {
  }

  lemma {:induction false} RebuiltIff(v: Json)
    ensures Rebuilt(v) == v <==> WellMade(v)
    decreases v
  {
    match v
    case Num(n) => NumberSurvivesIff(n);
    case Arr(es) => AllRebuiltIff(es);
    case Obj(ms) => MembersRebuiltIff(ms);
    case _ =>
  }

  lemma SameSnoc<T>(a: seq<T>, x: T, b: seq<T>)
    requires b != [] && |a| == |b| - 1
    ensures a + [x] == b <==> a == b[..|b| - 1] && x == b[|b| - 1]
  {
    assert b == b[..|b| - 1] + [b[|b| - 1]];
    assert (a + [x])[..|a|] == a && (a + [x])[|a|] == x;
  }

  lemma {:induction false} AllRebuiltIff(es: seq<Json>)
    ensures AllRebuilt(es) == es <==> AllWellMade(es)
    decreases es
  {
    if es != [] {
      AllRebuiltIff(es[..|es| - 1]);
      RebuiltIff(es[|es| - 1]);
      SameSnoc(AllRebuilt(es[..|es| - 1]), Rebuilt(es[|es| - 1]), es);
      hide Rebuilt, WellMade;
    }
  }

  lemma {:induction false} MembersRebuiltIff(ms: seq<Member>)
    ensures MembersRebuilt(ms) == ms <==> MembersWellMade(ms)
    decreases ms
  {
    if ms != [] {
      MembersRebuiltIff(ms[..|ms| - 1]);
      MemberRebuiltIff(ms[|ms| - 1]);
      SameSnoc(MembersRebuilt(ms[..|ms| - 1]), MemberRebuilt(ms[|ms| - 1]), ms);
      hide MemberRebuilt, MemberWellMade;
    }
  }

  lemma {:induction false} MemberRebuiltIff(m: Member)
    ensures MemberRebuilt(m) == m <==> MemberWellMade(m)
    decreases m
  {
    RebuiltIff(m.name);
    RebuiltIff(m.value);
    hide Rebuilt, WellMade;
  }

  /** Feeding a value's events to a document on top of any stack leaves that stack and one more
      value: the same value, in shape, order, strings, number bits and flags, exactly when it is
      well made. */
  lemma SaxRoundTripIff(s: Stack, v: Json)
    requires Named(v)
    ensures Feed(s, Events(v)).Stands? && |Feed(s, Events(v)).stack| == |s| + 1
    ensures Feed(s, Events(v)) == Stands(s + [v]) <==> WellMade(v)
  {
    FeedEvents(s, v);
    RebuiltIff(v);
    hide Feed, Rebuilt, WellMade;
    assert (s + [Rebuilt(v)])[|s|] == Rebuilt(v) && (s + [v])[|s|] == v;
  }

  /** Different well-made values send different events. */
  lemma EventsDetermineTheValue(v: Json, w: Json)
    requires Named(v) && Named(w) && WellMade(v) && WellMade(w) && Events(v) == Events(w)
    ensures v == w
  {
    SaxRoundTripIff([], v);
    SaxRoundTripIff([], w);
    hide Feed, WellMade, Events;
    assert ([] + [v])[0] == v && ([] + [w])[0] == w;
  }

  /** The one number the library makes that changes: a default number comes back as a double. */
  lemma DefaultNumberBecomesDouble()
    ensures !Constructed(AnyNumber()) && RebuiltNumber(AnyNumber()) == FromDouble(0)
  {
  }
}
