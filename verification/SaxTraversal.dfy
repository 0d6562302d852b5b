/** GenericValue::Accept for any handler: the events of the value in order, up to and including
    the first one refused. */
module SaxTraversal {
  import opened SaxValues
  import opened SaxDocument

  /** Whether a handler that has seen some events takes one more. */
  type Will = (seq<Event>, Event) -> bool

  datatype Sending = Sending(seen: seq<Event>, ok: bool)

  /** What a handler has seen once it was sent these events until it refused one. */
  function Sent(w: Will, seen: seq<Event>, evs: seq<Event>): Sending
    decreases |evs|
  {
    if evs == [] then Sending(seen, true)
    else if !w(seen, evs[0]) then Sending(seen + [evs[0]], false)
    else Sent(w, seen + [evs[0]], evs[1..])
  }

  lemma {:induction false} SentConcat(w: Will, seen: seq<Event>, a: seq<Event>, b: seq<Event>)
    ensures Sent(w, seen, a + b) == var s := Sent(w, seen, a); if s.ok then Sent(w, s.seen, b) else s
    decreases |a|
  {
    if a == [] {
      assert a + b == b;
    } else {
      assert (a + b)[1..] == a[1..] + b;
      SentConcat(w, seen + [a[0]], a[1..], b);
    }
  }

  /** Exactly the events before the first refusal were taken; the refused one was seen last. */
  lemma {:induction false} SentUntilRefused(w: Will, seen: seq<Event>, evs: seq<Event>) returns (n: nat)
    ensures n <= |evs| && forall k :: 0 <= k < n ==> w(seen + evs[..k], evs[k])
    ensures Sent(w, seen, evs) == if n == |evs| then Sending(seen + evs, true) else Sending(seen + evs[..n + 1], false)
    ensures n < |evs| ==> !w(seen + evs[..n], evs[n])
    decreases |evs|
  {
    n := 0;
    if evs == [] {
      assert seen + evs == seen;
    } else if !w(seen, evs[0]) {
      assert seen + evs[..0] == seen;
    } else {
      var rest := evs[1..];
      var m := SentUntilRefused(w, seen + [evs[0]], rest);
      n := m + 1;
      assert seen + evs == seen + [evs[0]] + rest;
      assert n < |evs| ==> seen + evs[..n + 1] == seen + [evs[0]] + rest[..m + 1];
      assert seen + evs[..n] == seen + [evs[0]] + rest[..m];
      forall k | 0 <= k < n
        ensures w(seen + evs[..k], evs[k])
      {
        if k > 0 {
          assert seen + evs[..k] == seen + [evs[0]] + rest[..k - 1];
        } else {
          assert seen + evs[..0] == seen;
        }
      }
    }
  }

  class Handler {
    const will: Will
    var seen: seq<Event>

    constructor (will: Will)
      ensures this.will == will && seen == []
    {
      this.will := will;
      seen := [];
    }

    method Take(e: Event) returns (ok: bool)
      modifies `seen
      ensures Sending(seen, ok) == Sent(will, old(seen), [e])
    {
      ok := will(seen, e);
      seen := seen + [e];
    }
  }

  method Accept(v: Json, handler: Handler) returns (ok: bool)
    requires Named(v)
    modifies handler`seen
    ensures Sending(handler.seen, ok) == Sent(handler.will, old(handler.seen), Events(v))
    decreases v
  {
    match v
    case Null => ok := handler.Take(NullEv);
    case Bool(b) => ok := handler.Take(BoolEv(b));
    case Num(n) => ok := handler.Take(NumberEvent(n));
    case Str(t) => ok := handler.Take(StringEv(t.chars, IsCopy(t)));
    case Arr(es) => ok := AcceptArray(es, handler);
    case Obj(ms) => ok := AcceptObject(ms, handler);
  }

  method AcceptArray(es: seq<Json>, handler: Handler) returns (ok: bool)
    requires AllNamed(es)
    modifies handler`seen
    ensures Sending(handler.seen, ok) == Sent(handler.will, old(handler.seen), Events(Arr(es)))
    decreases es, 1
  {
    hide Sent, Events;
    ghost var w, s, end := handler.will, handler.seen, [EndArray(|es|)];
    ArrayEvents(es);
    ok := handler.Take(StartArray);
    if !ok {
      Refused(w, s, [StartArray], ElementEvents(es) + end, Events(Arr(es)));
      return;
    }
    for i := 0 to |es|
      invariant AllNamed(es[..i])
      invariant Sending(handler.seen, true) == Sent(w, s, [StartArray] + ElementEvents(es[..i]))
    {
      ghost var rest := ElementsFrom(es, i);
      ghost var before := [StartArray] + ElementEvents(es[..i]);
      ok := Accept(es[i], handler);
      SentConcat(w, s, before, Events(es[i]));
      assert [StartArray] + ElementEvents(es[..i + 1]) == before + Events(es[i]);
      if !ok {
        assert Events(Arr(es)) == before + Events(es[i]) + (rest + end);
        Refused(w, s, before + Events(es[i]), rest + end, Events(Arr(es)));
        return;
      }
    }
    assert es[..|es|] == es;
    ok := handler.Take(EndArray(|es|));
    SentConcat(w, s, [StartArray] + ElementEvents(es), end);
  }

  method AcceptObject(ms: seq<Member>, handler: Handler) returns (ok: bool)
    requires AllMembersNamed(ms)
    modifies handler`seen
    ensures Sending(handler.seen, ok) == Sent(handler.will, old(handler.seen), Events(Obj(ms)))
    decreases ms, 1
  {
    hide Sent, Events, OneMember;
    ghost var w, s, end := handler.will, handler.seen, [EndObject(|ms|)];
    ObjectEvents(ms);
    ok := handler.Take(StartObject);
    if !ok {
      Refused(w, s, [StartObject], MemberEvents(ms) + end, Events(Obj(ms)));
      return;
    }
    for i := 0 to |ms|
      invariant AllMembersNamed(ms[..i])
      invariant Sending(handler.seen, true) == Sent(w, s, [StartObject] + MemberEvents(ms[..i]))
    {
      ghost var rest := MembersFrom(ms, i);
      ghost var before := [StartObject] + MemberEvents(ms[..i]);
      ok := AcceptMember(ms[i], handler);
      SentConcat(w, s, before, OneMember(ms[i]));
      assert [StartObject] + MemberEvents(ms[..i + 1]) == before + OneMember(ms[i]);
      if !ok {
        assert Events(Obj(ms)) == before + OneMember(ms[i]) + (rest + end);
        Refused(w, s, before + OneMember(ms[i]), rest + end, Events(Obj(ms)));
        return;
      }
    }
    assert ms[..|ms|] == ms;
    ok := handler.Take(EndObject(|ms|));
    SentConcat(w, s, [StartObject] + MemberEvents(ms), end);
  }

  method AcceptMember(m: Member, handler: Handler) returns (ok: bool)
    requires MemberNamed(m)
    modifies handler`seen
    ensures Sending(handler.seen, ok) == Sent(handler.will, old(handler.seen), OneMember(m))
    decreases m, 1
  {
    hide Sent, Events;
    ghost var w, s := handler.will, handler.seen;
    var key := KeyEv(m.name.t.chars, IsCopy(m.name.t));
    ok := handler.Take(key);
    SentConcat(w, s, [key], Events(m.value));
    if !ok {
      return;
    }
    ok := Accept(m.value, handler);
  }

  lemma Refused(w: Will, seen: seq<Event>, first: seq<Event>, rest: seq<Event>, all: seq<Event>)
    requires all == first + rest && !Sent(w, seen, first).ok
    ensures Sent(w, seen, all) == Sent(w, seen, first)
  {
    SentConcat(w, seen, first, rest);
  }

  lemma ArrayEvents(es: seq<Json>)
    requires AllNamed(es)
    ensures Events(Arr(es)) == [StartArray] + ElementEvents(es) + [EndArray(|es|)]
    ensures Events(Arr(es)) == [StartArray] + (ElementEvents(es) + [EndArray(|es|)])
    ensures [StartArray] + ElementEvents([]) == [StartArray]
  {
    hide ElementEvents, AllNamed;
    NoEvents();
    Regroup([StartArray], ElementEvents(es), [EndArray(|es|)]);
    hide Events;
    assert [StartArray] + [] == [StartArray];
  }

  lemma ObjectEvents(ms: seq<Member>)
    requires AllMembersNamed(ms)
    ensures Events(Obj(ms)) == [StartObject] + MemberEvents(ms) + [EndObject(|ms|)]
    ensures Events(Obj(ms)) == [StartObject] + (MemberEvents(ms) + [EndObject(|ms|)])
    ensures [StartObject] + MemberEvents([]) == [StartObject]
  {
    hide MemberEvents, AllMembersNamed;
    NoEvents();
    Regroup([StartObject], MemberEvents(ms), [EndObject(|ms|)]);
    hide Events;
    assert [StartObject] + [] == [StartObject];
  }

  lemma NoEvents()
    ensures AllNamed([]) && ElementEvents([]) == [] && AllMembersNamed([]) && MemberEvents([]) == []
  {
  }

  lemma Regroup(a: seq<Event>, b: seq<Event>, c: seq<Event>)
    ensures a + (b + c) == a + b + c
  {
  }

  lemma ElementsNext(es: seq<Json>, v: Json)
    requires AllNamed(es + [v])
    ensures AllNamed(es) && Named(v) && ElementEvents(es + [v]) == ElementEvents(es) + Events(v)
  {
    assert (es + [v])[..|es|] == es;
    hide Events, Named;
  }

  lemma MembersNext(ms: seq<Member>, m: Member)
    requires AllMembersNamed(ms + [m])
    ensures AllMembersNamed(ms) && MemberNamed(m) && MemberEvents(ms + [m]) == MemberEvents(ms) + OneMember(m)
  {
    assert (ms + [m])[..|ms|] == ms;
    hide OneMember, MemberNamed;
  }

  /** The events of an element and of those behind it. */
  lemma {:induction false} ElementsFrom(es: seq<Json>, i: nat) returns (rest: seq<Event>)
    requires AllNamed(es) && i < |es|
    ensures AllNamed(es[..i]) && AllNamed(es[..i + 1]) && Named(es[i])
    ensures ElementEvents(es[..i + 1]) == ElementEvents(es[..i]) + Events(es[i])
    ensures ElementEvents(es) == ElementEvents(es[..i + 1]) + rest
    decreases |es|
  {
    hide *;
    var init, v := es[..|es| - 1], es[|es| - 1];
    assert es == init + [v];
    ElementsNext(init, v);
    if i == |es| - 1 {
      assert es[..i] == init && es[..i + 1] == es;
      rest := [];
    } else {
      var more := ElementsFrom(init, i);
      assert init[..i] == es[..i] && init[..i + 1] == es[..i + 1] && init[i] == es[i];
      rest := more + Events(v);
      Regroup(ElementEvents(es[..i + 1]), more, Events(v));
    }
  }

  lemma {:induction false} MembersFrom(ms: seq<Member>, i: nat) returns (rest: seq<Event>)
    requires AllMembersNamed(ms) && i < |ms|
    ensures AllMembersNamed(ms[..i]) && AllMembersNamed(ms[..i + 1]) && MemberNamed(ms[i])
    ensures MemberEvents(ms[..i + 1]) == MemberEvents(ms[..i]) + OneMember(ms[i])
    ensures MemberEvents(ms) == MemberEvents(ms[..i + 1]) + rest
    decreases |ms|
  {
    hide *;
    var init, m := ms[..|ms| - 1], ms[|ms| - 1];
    assert ms == init + [m];
    MembersNext(init, m);
    if i == |ms| - 1 {
      assert ms[..i] == init && ms[..i + 1] == ms;
      rest := [];
    } else {
      var more := MembersFrom(init, i);
      assert init[..i] == ms[..i] && init[..i + 1] == ms[..i + 1] && init[i] == ms[i];
      rest := more + OneMember(m);
      Regroup(MemberEvents(ms[..i + 1]), more, OneMember(m));
    }
  }
}
