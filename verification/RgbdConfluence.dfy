/** The pairs come out in the order of their colour images, so well spaced streams give one
    sequence of pairs, whatever the interleaving of their arrivals. */
module RgbdConfluence {
  import opened RgbdTypes
  import opened RgbdPairing
  import opened RgbdPairingRuns

  /** The paired colour images, then those waiting, in the order of their stamps. */
  ghost predicate InLine(t: Table, last: int) {
    Ordered(RgbOf(t.pairs) + t.rgb, last)
  }

  lemma PairInLine(t: Table, k: nat, last: int)
    requires t.rgb != [] && k < |t.depth| && InLine(t, last)
    ensures InLine(t.(rgb := t.rgb[1..], depth := Without(t.depth, k), pairs := t.pairs + [(t.rgb[0], t.depth[k])]),
                   last)
  {
    PairsAppend(t.pairs, t.rgb[0], t.depth[k]);
    assert RgbOf(t.pairs) + [t.rgb[0]] + t.rgb[1..] == RgbOf(t.pairs) + t.rgb;
    hide Ordered, RgbOf, Without;
  }

  lemma PopInLine(p: seq<Image>, q: seq<Image>, last: int)
    requires q != [] && Ordered(p + q, last)
    ensures Ordered(p + q[1..], last)
  {
    OrderedWithout(p + q, |p|, last);
    assert Without(p + q, |p|) == p + q[1..];
  }

  lemma TurnInLine(t: Table, slop: nat, last: int)
    requires t.rgb != [] && t.depth != [] && InLine(t, last)
    ensures InLine(Turn(t, slop), last)
  {
    PairInLine(t, Nearest(t.depth, t.rgb[0].stamp), last);
    PopInLine(RgbOf(t.pairs), t.rgb, last);
    hide Ordered, RgbOf, Nearest, Without;
  }

  lemma {:induction false} AssociateInLine(t: Table, slop: nat, last: int)
    requires InLine(t, last)
    ensures InLine(Associate(t, slop), last)
    decreases |t.rgb| + |t.depth|
  {
    if t.rgb != [] && t.depth != [] {
      TurnInLine(t, slop, last);
      hide InLine, Turn;
      AssociateInLine(Turn(t, slop), slop, last);
    }
  }

  lemma ColourInLine(t: Table, a: Image, last: int)
    requires InLine(t, last) && last < a.stamp
    ensures InLine(t.(rgb := t.rgb + [a]), a.stamp) && InLine(t.(rgb := (t.rgb + [a])[1..]), a.stamp)
  {
    OrderedAppend(RgbOf(t.pairs) + t.rgb, last, a);
    assert RgbOf(t.pairs) + t.rgb + [a] == RgbOf(t.pairs) + (t.rgb + [a]);
    hide Ordered, RgbOf;
    PopInLine(RgbOf(t.pairs), t.rgb + [a], a.stamp);
  }

  lemma {:induction false} RunInLine(evs: seq<Arrival>, slop: nat, buffer: nat)
    requires Streams(evs)
    ensures InLine(After(evs, slop, buffer).table, Last(Colours(evs)))
  {
    if evs != [] {
      var before, e := evs[..|evs| - 1], evs[|evs| - 1];
      var t := After(before, slop, buffer).table;
      StreamsShorter(before, e, evs);
      RunInLine(before, slop, buffer);
      hide After, Streams, Associate;
      ReceiveInLine(After(before, slop, buffer), e, slop, buffer, Last(Colours(before)));
      assert After(evs, slop, buffer) == Receive(After(before, slop, buffer), e, slop, buffer) by {
        AfterSnoc(evs, slop, buffer);
      }
    }
  }

  lemma AfterSnoc(evs: seq<Arrival>, slop: nat, buffer: nat)
    requires evs != []
    ensures After(evs, slop, buffer) == Receive(After(evs[..|evs| - 1], slop, buffer), evs[|evs| - 1], slop, buffer)
  {
  }

  lemma StreamsShorter(before: seq<Arrival>, e: Arrival, evs: seq<Arrival>)
    requires evs != [] && before == evs[..|evs| - 1] && e == evs[|evs| - 1] && Streams(evs)
    ensures Streams(before)
    ensures if e.Colour? then Last(Colours(before)) < e.image.stamp == Last(Colours(evs))
            else Last(Colours(before)) == Last(Colours(evs))
  {
    hide Stream;
    if e.Colour? {
      StreamGrows(Colours(before), e.image);
    } else {
      StreamGrows(Ranges(before), e.image);
    }
  }

  lemma ReceiveInLine(d: Desk, e: Arrival, slop: nat, buffer: nat, last: int)
    requires InLine(d.table, last) && (e.Colour? ==> last < e.image.stamp)
    ensures InLine(Receive(d, e, slop, buffer).table, if e.Colour? then e.image.stamp else last)
  {
    var t := d.table;
    match e
    case Colour(a) =>
      var q := t.rgb + [a];
      ColourInLine(t, a, last);
      AssociateInLine(t.(rgb := if |q| > buffer then q[1..] else q), slop, a.stamp);
      hide Ordered, Associate, RgbOf;
    case Range(a) =>
      var q := t.depth + [a];
      hide Ordered, Associate, RgbOf;
      AssociateInLine(t.(depth := if |q| > buffer then q[1..] else q), slop, last);
  }

  /** Colour stamps of the pairs strictly increase. */
  ghost predicate ByColour(p: Pairs) {
    forall i, j :: 0 <= i < j < |p| ==> p[i].0.stamp < p[j].0.stamp
  }

  lemma LineIsByColour(t: Table, last: int)
    requires InLine(t, last)
    ensures ByColour(t.pairs)
  {
    var s := Stamps(RgbOf(t.pairs) + t.rgb);
    forall i, j | 0 <= i < j < |t.pairs|
      ensures t.pairs[i].0.stamp < t.pairs[j].0.stamp
    {
      assert s[i] < s[j];
    }
  }

  lemma LastInOther(p: Pairs, q: Pairs)
    requires ByColour(p) && ByColour(q) && p != [] && forall x :: x in p <==> x in q
    ensures q != [] && p[|p| - 1] == q[|q| - 1]
  {
    var a := p[|p| - 1];
    assert a in q;
    var i :| 0 <= i < |q| && q[i] == a;
    var b := q[|q| - 1];
    assert b in p;
    var j :| 0 <= j < |p| && p[j] == b;
  }

  lemma MembersOfInit(p: Pairs)
    requires ByColour(p) && p != []
    ensures ByColour(p[..|p| - 1])
    ensures forall x :: x in p[..|p| - 1] <==> x in p && x.0.stamp < p[|p| - 1].0.stamp
  {
    forall x | x in p && x.0.stamp < p[|p| - 1].0.stamp
      ensures x in p[..|p| - 1]
    {
      var i :| 0 <= i < |p| && p[i] == x;
      assert p[..|p| - 1][i] == x;
    }
  }

  /** Two orderly sequences with the same members are the same. */
  lemma {:induction false} SameMembers(p: Pairs, q: Pairs)
    requires ByColour(p) && ByColour(q) && forall x :: x in p <==> x in q
    ensures p == q
  {
    if q != [] {
      assert q[0] in q;
    }
    if p != [] {
      LastInOther(p, q);
      MembersOfInit(p);
      MembersOfInit(q);
      SameMembers(p[..|p| - 1], q[..|q| - 1]);
      assert p == p[..|p| - 1] + [p[|p| - 1]] && q == q[..|q| - 1] + [q[|q| - 1]];
    }
  }

  ghost predicate Roomy(evs: seq<Arrival>, slop: nat, buffer: nat) {
    After(evs, slop, buffer).rgbLost == [] && After(evs, slop, buffer).depthLost == []
  }

  /** Any two interleavings of the same well spaced streams that overflow no buffer make the
      same pairs in the same order. */
  lemma PairingIsConfluent(evs: seq<Arrival>, other: seq<Arrival>, slop: nat, buffer: nat)
    requires Colours(evs) == Colours(other) && Ranges(evs) == Ranges(other)
    requires Streams(evs) && Spaced(Colours(evs), slop) && Spaced(Ranges(evs), slop)
    requires Roomy(evs, slop, buffer) && Roomy(other, slop, buffer)
    ensures After(evs, slop, buffer).table.pairs == After(other, slop, buffer).table.pairs
  {
    var p, q := After(evs, slop, buffer).table.pairs, After(other, slop, buffer).table.pairs;
    SpacedIsExact(evs, slop, buffer);
    SpacedIsExact(other, slop, buffer);
    RunInLine(evs, slop, buffer);
    RunInLine(other, slop, buffer);
    hide InLine, After, Spaced, Streams, Within, ByColour, Colours, Ranges;
    LineIsByColour(After(evs, slop, buffer).table, Last(Colours(evs)));
    LineIsByColour(After(other, slop, buffer).table, Last(Colours(other)));
    forall x
      ensures x in p <==> x in q
    {
      assert x == (x.0, x.1);
    }
    SameMembers(p, q);
  }
}
