/** Pairing over whole runs: nothing is lost or paired twice, nothing given up had a partner
    left, and well spaced streams give the same pairs in every interleaving. */
module RgbdPairingRuns {
  import opened RgbdTypes
  import opened RgbdPairing

  // ---------------------------------------------------------------- every image in one place

  function RgbHeld(t: Table): multiset<Image> {
    multiset(RgbOf(t.pairs)) + multiset(t.rgbDropped) + multiset(t.rgb)
  }

  function DepthHeld(t: Table): multiset<Image> {
    multiset(DepthOf(t.pairs)) + multiset(t.depthDropped) + multiset(t.depth)
  }

  lemma Append(s: seq<Image>, x: Image)
    ensures multiset(s + [x]) == multiset(s) + multiset{x}
  {
  }

  lemma Pop(s: seq<Image>)
    requires s != []
    ensures multiset(s) == multiset(s[1..]) + multiset{s[0]}
  {
    assert s == [s[0]] + s[1..];
  }

  lemma PairsAppend(p: Pairs, a: Image, b: Image)
    ensures RgbOf(p + [(a, b)]) == RgbOf(p) + [a] && DepthOf(p + [(a, b)]) == DepthOf(p) + [b]
  {
  }

  lemma PairHolds(t: Table, k: nat)
    requires t.rgb != [] && k < |t.depth|
    ensures var r := t.(rgb := t.rgb[1..], depth := Without(t.depth, k), pairs := t.pairs + [(t.rgb[0], t.depth[k])]);
            RgbHeld(r) == RgbHeld(t) && DepthHeld(r) == DepthHeld(t)
  {
    hide RgbOf, DepthOf, Without;
    PairsAppend(t.pairs, t.rgb[0], t.depth[k]);
    WithoutMembers(t.depth, k);
    Pop(t.rgb);
    Append(RgbOf(t.pairs), t.rgb[0]);
    Append(DepthOf(t.pairs), t.depth[k]);
  }

  lemma DropHolds(t: Table)
    requires t.rgb != [] && t.depth != []
    ensures RgbHeld(t.(rgb := t.rgb[1..], rgbDropped := t.rgbDropped + [t.rgb[0]])) == RgbHeld(t)
    ensures DepthHeld(t.(depth := t.depth[1..], depthDropped := t.depthDropped + [t.depth[0]])) == DepthHeld(t)
  {
    hide RgbOf, DepthOf;
    Pop(t.rgb);
    Pop(t.depth);
    Append(t.rgbDropped, t.rgb[0]);
    Append(t.depthDropped, t.depth[0]);
  }

  lemma SameHolds(t: Table, r: Table)
    ensures t.pairs == r.pairs && t.rgbDropped == r.rgbDropped && t.rgb == r.rgb ==> RgbHeld(t) == RgbHeld(r)
    ensures t.pairs == r.pairs && t.depthDropped == r.depthDropped && t.depth == r.depth
            ==> DepthHeld(t) == DepthHeld(r)
  {
  }

  lemma TurnHolds(t: Table, slop: nat)
    requires t.rgb != [] && t.depth != []
    ensures RgbHeld(Turn(t, slop)) == RgbHeld(t) && DepthHeld(Turn(t, slop)) == DepthHeld(t)
  {
    hide RgbHeld, DepthHeld, Nearest, Without;
    PairHolds(t, Nearest(t.depth, t.rgb[0].stamp));
    DropHolds(t);
    SameHolds(t, Turn(t, slop));
  }

  lemma {:induction false} AssociateHolds(t: Table, slop: nat)
    ensures RgbHeld(Associate(t, slop)) == RgbHeld(t) && DepthHeld(Associate(t, slop)) == DepthHeld(t)
    decreases |t.rgb| + |t.depth|
  {
    if t.rgb != [] && t.depth != [] {
      TurnHolds(t, slop);
      hide RgbHeld, DepthHeld, Turn;
      AssociateHolds(Turn(t, slop), slop);
    }
  }

  /** Stamps are positive and increase, as the engine demands of both streams. */
  ghost predicate Streams(evs: seq<Arrival>) {
    Stream(Colours(evs)) && Stream(Ranges(evs))
  }

  ghost predicate Stream(x: seq<Image>) {
    Increasing(Stamps(x)) && forall a :: a in x ==> a.stamp > 0
  }

  function Last(x: seq<Image>): int { if x == [] then 0 else x[|x| - 1].stamp }

  lemma StreamGrows(x: seq<Image>, a: Image)
    requires Stream(x + [a])
    ensures Stream(x) && Last(x) < a.stamp
  {
    assert Stamps(x + [a])[..|x|] == Stamps(x);
    assert a in x + [a];
    if x != [] {
      assert Stamps(x + [a])[|x| - 1] < Stamps(x + [a])[|x|];
    }
    forall b | b in x
      ensures b.stamp > 0
    {
      assert b in x + [a];
    }
  }

  // ---------------------------------------------------------------- arrivals

  ghost predicate DeskHolds(d: Desk, x: seq<Image>, y: seq<Image>) {
    multiset(x) == RgbHeld(d.table) + multiset(d.rgbLost) && multiset(y) == DepthHeld(d.table) + multiset(d.depthLost)
  }

  ghost predicate DeskSound(d: Desk, x: seq<Image>, y: seq<Image>, slop: nat) {
    DeskHolds(d, x, y) && Sound(d.table, Last(x), Last(y), slop)
  }

  lemma OrderedAppend(q: seq<Image>, last: int, a: Image)
    requires Ordered(q, last) && last < a.stamp
    ensures Ordered(q + [a], a.stamp) && Ordered((q + [a])[1..], a.stamp)
  {
    forall i, j | 0 <= i < j < |q + [a]|
      ensures Stamps(q + [a])[i] < Stamps(q + [a])[j]
    {
      assert q[i] in q;
      if j < |q| {
        assert Stamps(q)[i] < Stamps(q)[j];
      }
    }
    OrderedTail(q + [a], a.stamp);
  }

  /** A newer stamp keeps everything dropped out of reach. */
  lemma PastGrows(dropped: seq<Image>, queue: seq<Image>, last: int, slop: nat, a: Image)
    requires Past(dropped, queue, last, slop) && last < a.stamp
    ensures Past(dropped, queue + [a], a.stamp, slop) && Past(dropped, (queue + [a])[1..], a.stamp, slop)
  {
    assert forall y :: y in (queue + [a])[1..] ==> y in queue + [a];
  }

  lemma ColourSound(t: Table, lastRgb: int, lastDepth: int, slop: nat, a: Image)
    requires Sound(t, lastRgb, lastDepth, slop) && lastRgb < a.stamp
    ensures Sound(t.(rgb := t.rgb + [a]), a.stamp, lastDepth, slop)
    ensures Sound(t.(rgb := (t.rgb + [a])[1..]), a.stamp, lastDepth, slop)
  {
    OrderedAppend(t.rgb, lastRgb, a);
    PastGrows(t.depthDropped, t.rgb, lastRgb, slop, a);
    hide Ordered, Past, Apart, Close;
  }

  lemma RangeSound(t: Table, lastRgb: int, lastDepth: int, slop: nat, a: Image)
    requires Sound(t, lastRgb, lastDepth, slop) && lastDepth < a.stamp
    ensures Sound(t.(depth := t.depth + [a]), lastRgb, a.stamp, slop)
    ensures Sound(t.(depth := (t.depth + [a])[1..]), lastRgb, a.stamp, slop)
  {
    OrderedAppend(t.depth, lastDepth, a);
    PastGrows(t.rgbDropped, t.depth, lastDepth, slop, a);
    hide Ordered, Past, Apart, Close;
  }

  lemma ColourHolds(d: Desk, a: Image, slop: nat, buffer: nat, x: seq<Image>, y: seq<Image>)
    requires DeskHolds(d, x, y)
    ensures DeskHolds(Receive(d, Colour(a), slop, buffer), x + [a], y)
  {
    var t, q := d.table, d.table.rgb + [a];
    var t' := t.(rgb := if |q| > buffer then q[1..] else q);
    AssociateHolds(t', slop);
    Append(t.rgb, a);
    Append(x, a);
    Pop(q);
    Append(d.rgbLost, q[0]);
    hide Associate, RgbOf, DepthOf;
  }

  lemma RangeHolds(d: Desk, a: Image, slop: nat, buffer: nat, x: seq<Image>, y: seq<Image>)
    requires DeskHolds(d, x, y)
    ensures DeskHolds(Receive(d, Range(a), slop, buffer), x, y + [a])
  {
    var t, q := d.table, d.table.depth + [a];
    var t' := t.(depth := if |q| > buffer then q[1..] else q);
    AssociateHolds(t', slop);
    Append(t.depth, a);
    Append(y, a);
    Pop(q);
    Append(d.depthLost, q[0]);
    hide Associate, RgbOf, DepthOf;
  }

  lemma ReceiveSound(d: Desk, e: Arrival, x: seq<Image>, y: seq<Image>, slop: nat, buffer: nat)
    requires DeskSound(d, x, y, slop)
    requires if e.Colour? then Last(x) < e.image.stamp else Last(y) < e.image.stamp
    ensures DeskSound(Receive(d, e, slop, buffer), if e.Colour? then x + [e.image] else x,
                      if e.Range? then y + [e.image] else y, slop)
  {
    hide DeskHolds, Sound, Associate;
    match e
    case Colour(a) =>
      ColourHolds(d, a, slop, buffer, x, y);
      var q := d.table.rgb + [a];
      ColourSound(d.table, Last(x), Last(y), slop, a);
      AssociateKeeps(d.table.(rgb := if |q| > buffer then q[1..] else q), a.stamp, Last(y), slop);
    case Range(a) =>
      RangeHolds(d, a, slop, buffer, x, y);
      var q := d.table.depth + [a];
      RangeSound(d.table, Last(x), Last(y), slop, a);
      AssociateKeeps(d.table.(depth := if |q| > buffer then q[1..] else q), Last(x), a.stamp, slop);
  }

  lemma {:induction false} RunSound(evs: seq<Arrival>, slop: nat, buffer: nat)
    requires Streams(evs)
    ensures DeskSound(After(evs, slop, buffer), Colours(evs), Ranges(evs), slop)
  {
    if evs != [] {
      var before, e := evs[..|evs| - 1], evs[|evs| - 1];
      if e.Colour? {
        StreamGrows(Colours(before), e.image);
      } else {
        StreamGrows(Ranges(before), e.image);
      }
      RunSound(before, slop, buffer);
      hide DeskSound, Receive;
      ReceiveSound(After(before, slop, buffer), e, Colours(before), Ranges(before), slop, buffer);
    }
  }

  // ---------------------------------------------------------------- completeness

  predicate HasRgb(p: Pairs, a: Image) { exists q :: q in p && q.0 == a }

  predicate HasDepth(p: Pairs, b: Image) { exists q :: q in p && q.1 == b }

  predicate Within(a: Image, b: Image, slop: nat) { Distance(a.stamp, b.stamp) <= slop }

  /** An image the pairing gave up left no partner unused: it had been paired, or had been lost
      to a full buffer. */
  ghost predicate NoPartner(d: Desk, a: Image, b: Image) {
    && (a in d.table.rgbDropped ==> HasDepth(d.table.pairs, b) || b in d.depthLost)
    && (b in d.table.depthDropped ==> HasRgb(d.table.pairs, a) || a in d.rgbLost)
  }

  ghost predicate NoPartnerLeft(d: Desk, x: seq<Image>, y: seq<Image>, slop: nat) {
    forall a, b :: a in x && b in y && Within(a, b, slop) ==> NoPartner(d, a, b)
  }

  lemma InRgbOf(p: Pairs, a: Image)
    ensures a in RgbOf(p) <==> HasRgb(p, a)
  {
    if a in RgbOf(p) {
      var i :| 0 <= i < |p| && RgbOf(p)[i] == a;
      assert p[i] in p;
    }
    if HasRgb(p, a) {
      var q :| q in p && q.0 == a;
      var i :| 0 <= i < |p| && p[i] == q;
      assert RgbOf(p)[i] == a;
    }
  }

  lemma InDepthOf(p: Pairs, b: Image)
    ensures b in DepthOf(p) <==> HasDepth(p, b)
  {
    if b in DepthOf(p) {
      var i :| 0 <= i < |p| && DepthOf(p)[i] == b;
      assert p[i] in p;
    }
    if HasDepth(p, b) {
      var q :| q in p && q.1 == b;
      var i :| 0 <= i < |p| && p[i] == q;
      assert DepthOf(p)[i] == b;
    }
  }

  lemma RgbIn(d: Desk, x: seq<Image>, y: seq<Image>, a: Image)
    requires DeskHolds(d, x, y)
    ensures a in x <==> HasRgb(d.table.pairs, a) || a in d.table.rgbDropped || a in d.table.rgb || a in d.rgbLost
  {
    hide HasRgb, RgbOf, DepthOf;
    InRgbOf(d.table.pairs, a);
    assert a in x <==> a in multiset(x);
  }

  lemma DepthIn(d: Desk, x: seq<Image>, y: seq<Image>, b: Image)
    requires DeskHolds(d, x, y)
    ensures b in y <==>
              || HasDepth(d.table.pairs, b) || b in d.table.depthDropped
              || b in d.table.depth || b in d.depthLost
  {
    hide HasDepth, RgbOf, DepthOf;
    InDepthOf(d.table.pairs, b);
    assert b in y <==> b in multiset(y);
  }

  lemma Complete(d: Desk, x: seq<Image>, y: seq<Image>, a: Image, b: Image, slop: nat)
    requires DeskSound(d, x, y, slop) && a in x && b in y && Within(a, b, slop)
    ensures NoPartner(d, a, b)
  {
    RgbIn(d, x, y, a);
    DepthIn(d, x, y, b);
    hide HasRgb, HasDepth, DeskHolds, Ordered, Close;
  }

  /** At every moment of every run. */
  lemma PairingIsComplete(evs: seq<Arrival>, slop: nat, buffer: nat)
    requires Streams(evs)
    ensures var d := After(evs, slop, buffer);
            DeskHolds(d, Colours(evs), Ranges(evs)) && NoPartnerLeft(d, Colours(evs), Ranges(evs), slop)
  {
    var d, x, y := After(evs, slop, buffer), Colours(evs), Ranges(evs);
    RunSound(evs, slop, buffer);
    assert DeskHolds(d, x, y);
    hide DeskSound, NoPartner, Within, DeskHolds;
    forall a, b | a in x && b in y && Within(a, b, slop)
      ensures NoPartner(d, a, b)
    {
      Complete(d, x, y, a, b, slop);
    }
  }

  // ---------------------------------------------------------------- confluence

  ghost predicate Spaced(x: seq<Image>, slop: nat) {
    forall i, j :: 0 <= i < j < |x| ==> x[i].stamp + 2 * slop < x[j].stamp
  }

  lemma OnlyPartner(y: seq<Image>, b: Image, b': Image, t: int, slop: nat)
    requires Spaced(y, slop) && b in y && b' in y
    requires Distance(t, b.stamp) <= slop && Distance(t, b'.stamp) <= slop
    ensures b == b'
  {
    var i :| 0 <= i < |y| && y[i] == b;
    var j :| 0 <= j < |y| && y[j] == b';
  }

  ghost predicate ExactlyTheClose(p: Pairs, x: seq<Image>, y: seq<Image>, slop: nat) {
    forall a, b :: (a, b) in p <==> a in x && b in y && Within(a, b, slop)
  }

  lemma {:induction false} OneQueueEmpty(evs: seq<Arrival>, slop: nat, buffer: nat)
    ensures var t := After(evs, slop, buffer).table;
            t.rgb == [] || t.depth == []
  {
    hide Turn;
  }

  lemma RgbPartner(d: Desk, x: seq<Image>, y: seq<Image>, a: Image, b: Image, slop: nat)
    requires DeskHolds(d, x, y) && Close(d.table.pairs, slop) && Spaced(y, slop)
    requires HasRgb(d.table.pairs, a) && b in y && Within(a, b, slop)
    ensures (a, b) in d.table.pairs
  {
    var q :| q in d.table.pairs && q.0 == a;
    assert HasDepth(d.table.pairs, q.1);
    DepthIn(d, x, y, q.1);
    OnlyPartner(y, q.1, b, a.stamp, slop);
  }

  lemma DepthPartner(d: Desk, x: seq<Image>, y: seq<Image>, a: Image, b: Image, slop: nat)
    requires DeskHolds(d, x, y) && Close(d.table.pairs, slop) && Spaced(x, slop)
    requires HasDepth(d.table.pairs, b) && a in x && Within(a, b, slop)
    ensures (a, b) in d.table.pairs
  {
    var q :| q in d.table.pairs && q.1 == b;
    assert HasRgb(d.table.pairs, q.0);
    RgbIn(d, x, y, q.0);
    OnlyPartner(x, q.0, a, b.stamp, slop);
  }

  lemma CloseIsPaired(d: Desk, x: seq<Image>, y: seq<Image>, a: Image, b: Image, slop: nat)
    requires DeskHolds(d, x, y) && NoPartner(d, a, b) && Close(d.table.pairs, slop)
    requires d.rgbLost == [] && d.depthLost == [] && (d.table.rgb == [] || d.table.depth == [])
    requires Spaced(x, slop) && Spaced(y, slop)
    requires a in x && b in y && Within(a, b, slop)
    ensures (a, b) in d.table.pairs
  {
    RgbIn(d, x, y, a);
    DepthIn(d, x, y, b);
    hide DeskHolds, Spaced, HasRgb, HasDepth, Within, Close;
    if HasRgb(d.table.pairs, a) {
      RgbPartner(d, x, y, a, b, slop);
    } else {
      DepthPartner(d, x, y, a, b, slop);
    }
  }

  lemma PairIsClose(d: Desk, x: seq<Image>, y: seq<Image>, a: Image, b: Image, slop: nat)
    requires DeskHolds(d, x, y) && Close(d.table.pairs, slop) && (a, b) in d.table.pairs
    ensures a in x && b in y && Within(a, b, slop)
  {
    assert (a, b).0 == a && (a, b).1 == b;
    assert HasRgb(d.table.pairs, a) && HasDepth(d.table.pairs, b);
    RgbIn(d, x, y, a);
    DepthIn(d, x, y, b);
  }

  /** Spaced streams and roomy buffers: exactly the images within reach are paired. */
  lemma SpacedIsExact(evs: seq<Arrival>, slop: nat, buffer: nat)
    requires Streams(evs) && Spaced(Colours(evs), slop) && Spaced(Ranges(evs), slop)
    requires After(evs, slop, buffer).rgbLost == [] && After(evs, slop, buffer).depthLost == []
    ensures ExactlyTheClose(After(evs, slop, buffer).table.pairs, Colours(evs), Ranges(evs), slop)
  {
    var d, x, y := After(evs, slop, buffer), Colours(evs), Ranges(evs);
    PairingIsComplete(evs, slop, buffer);
    RunSound(evs, slop, buffer);
    OneQueueEmpty(evs, slop, buffer);
    hide DeskHolds, NoPartner, Spaced, Ordered, Past, Apart, After, Streams, Within, Close;
    forall a, b | a in x && b in y && Within(a, b, slop)
      ensures (a, b) in d.table.pairs
    {
      CloseIsPaired(d, x, y, a, b, slop);
    }
    forall a, b | (a, b) in d.table.pairs
      ensures a in x && b in y && Within(a, b, slop)
    {
      PairIsClose(d, x, y, a, b, slop);
    }
  }
}
