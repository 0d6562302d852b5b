/** The pairing half of Engine._pair in rgbd_capture/core.py: one queue of colour images, one
    of depth images, both in order of their stamps. */
module RgbdPairing {
  import opened RgbdTypes

  type Pairs = seq<(Image, Image)>

  /** The first of the nearest images to t. */
  function Nearest(b: seq<Image>, t: int): (k: nat)
    requires b != []
    ensures k < |b|
    ensures forall i :: 0 <= i < |b| ==> Distance(b[k].stamp, t) <= Distance(b[i].stamp, t)
    ensures forall i :: 0 <= i < k ==> Distance(b[k].stamp, t) < Distance(b[i].stamp, t)
  {
    if |b| == 1 then 0
    else
      var n := |b| - 1;
      var k := Nearest(b[..n], t);
      if Distance(b[n].stamp, t) < Distance(b[k].stamp, t) then n else k
  }

  function Without(b: seq<Image>, k: nat): (r: seq<Image>)
    requires k < |b|
    ensures |r| == |b| - 1
  {
    b[..k] + b[k + 1..]
  }

  /** The queues, every pair made so far, and every image given up. */
  datatype Table = Table(rgb: seq<Image>, depth: seq<Image>, pairs: Pairs, rgbDropped: seq<Image>,
                         depthDropped: seq<Image>)

  /** One turn of the loop. */
  function Turn(t: Table, slop: nat): (r: Table)
    requires t.rgb != [] && t.depth != []
    ensures |r.rgb| + |r.depth| < |t.rgb| + |t.depth|
  {
    var now := t.rgb[0].stamp;
    var k := Nearest(t.depth, now);
    if Distance(t.depth[k].stamp, now) <= slop then
      t.(rgb := t.rgb[1..], depth := Without(t.depth, k), pairs := t.pairs + [(t.rgb[0], t.depth[k])])
    else if t.depth[0].stamp < now - slop then
      t.(depth := t.depth[1..], depthDropped := t.depthDropped + [t.depth[0]])
    else
      t.(rgb := t.rgb[1..], rgbDropped := t.rgbDropped + [t.rgb[0]])
  }

  function Associate(t: Table, slop: nat): (r: Table)
    ensures r.rgb == [] || r.depth == []
    decreases |t.rgb| + |t.depth|
  {
    if t.rgb == [] || t.depth == [] then t else Associate(Turn(t, slop), slop)
  }

  // ---------------------------------------------------------------- streams of arrivals

  datatype Arrival = Colour(image: Image) | Range(image: Image)

  /** An image is appended; a full buffer loses its oldest. */
  datatype Desk = Desk(table: Table, rgbLost: seq<Image>, depthLost: seq<Image>)

  function Receive(d: Desk, e: Arrival, slop: nat, buffer: nat): Desk {
    match e
    case Colour(x) =>
      var q := d.table.rgb + [x];
      if |q| > buffer then Desk(Associate(d.table.(rgb := q[1..]), slop), d.rgbLost + [q[0]], d.depthLost)
      else d.(table := Associate(d.table.(rgb := q), slop))
    case Range(x) =>
      var q := d.table.depth + [x];
      if |q| > buffer then Desk(Associate(d.table.(depth := q[1..]), slop), d.rgbLost, d.depthLost + [q[0]])
      else d.(table := Associate(d.table.(depth := q), slop))
  }

  function After(evs: seq<Arrival>, slop: nat, buffer: nat): Desk {
    if evs == [] then Desk(Table([], [], [], [], []), [], [])
    else Receive(After(evs[..|evs| - 1], slop, buffer), evs[|evs| - 1], slop, buffer)
  }

  function Colours(evs: seq<Arrival>): seq<Image> {
    if evs == [] then []
    else
      var e, before := evs[|evs| - 1], Colours(evs[..|evs| - 1]);
      if e.Colour? then before + [e.image] else before
  }

  function Ranges(evs: seq<Arrival>): seq<Image> {
    if evs == [] then []
    else
      var e, before := evs[|evs| - 1], Ranges(evs[..|evs| - 1]);
      if e.Range? then before + [e.image] else before
  }

  function RgbOf(p: Pairs): (r: seq<Image>)
    ensures |r| == |p|
  {
    seq(|p|, i requires 0 <= i < |p| => p[i].0)
  }

  function DepthOf(p: Pairs): (r: seq<Image>)
    ensures |r| == |p|
  {
    seq(|p|, i requires 0 <= i < |p| => p[i].1)
  }

  // ---------------------------------------------------------------- what every turn keeps

  ghost predicate Ordered(q: seq<Image>, last: int) {
    Increasing(Stamps(q)) && forall x :: x in q ==> x.stamp <= last
  }

  /** Nothing waiting or still to come on the other side can reach what was dropped. */
  ghost predicate Past(dropped: seq<Image>, queue: seq<Image>, last: int, slop: nat) {
    && (forall x :: x in dropped ==> x.stamp + slop < last)
    && (forall x, y :: x in dropped && y in queue ==> x.stamp + slop < y.stamp)
  }

  ghost predicate Apart(a: seq<Image>, b: seq<Image>, slop: nat) {
    forall x, y :: x in a && y in b ==> Distance(x.stamp, y.stamp) > slop
  }

  ghost predicate Close(p: Pairs, slop: nat) {
    forall q :: q in p ==> Distance(q.0.stamp, q.1.stamp) <= slop
  }

  /** lastRgb and lastDepth are the latest stamps received. */
  ghost predicate Sound(t: Table, lastRgb: int, lastDepth: int, slop: nat) {
    && Ordered(t.rgb, lastRgb) && Ordered(t.depth, lastDepth)
    && Past(t.rgbDropped, t.depth, lastDepth, slop) && Past(t.depthDropped, t.rgb, lastRgb, slop)
    && Apart(t.rgbDropped, t.depthDropped, slop) && Close(t.pairs, slop)
  }

  lemma OrderedTail(q: seq<Image>, last: int)
    requires q != [] && Ordered(q, last)
    ensures Ordered(q[1..], last) && (forall x :: x in q ==> q[0].stamp <= x.stamp)
  {
    assert Stamps(q[1..]) == Stamps(q)[1..];
    forall x | x in q
      ensures q[0].stamp <= x.stamp
    {
      var i :| 0 <= i < |q| && q[i] == x;
      assert Stamps(q)[0] <= Stamps(q)[i];
    }
  }

  lemma OrderedWithout(q: seq<Image>, k: nat, last: int)
    requires k < |q| && Ordered(q, last)
    ensures Ordered(Without(q, k), last)
  {
    var r := Without(q, k);
    forall i, j | 0 <= i < j < |r|
      ensures Stamps(r)[i] < Stamps(r)[j]
    {
      var i', j' := if i < k then i else i + 1, if j < k then j else j + 1;
      assert Stamps(q)[i'] < Stamps(q)[j'];
    }
  }

  lemma WithoutMembers(q: seq<Image>, k: nat)
    requires k < |q|
    ensures multiset(q) == multiset(Without(q, k)) + multiset{q[k]}
    ensures forall x :: x in Without(q, k) ==> x in q
  {
    assert q == q[..k] + [q[k]] + q[k + 1..];
  }

  lemma PairKeeps(t: Table, k: nat, lastRgb: int, lastDepth: int, slop: nat)
    requires t.rgb != [] && k < |t.depth| && Sound(t, lastRgb, lastDepth, slop)
    requires Distance(t.depth[k].stamp, t.rgb[0].stamp) <= slop
    ensures Sound(t.(rgb := t.rgb[1..], depth := Without(t.depth, k), pairs := t.pairs + [(t.rgb[0], t.depth[k])]),
                  lastRgb, lastDepth, slop)
  {
    OrderedTail(t.rgb, lastRgb);
    OrderedWithout(t.depth, k, lastDepth);
    WithoutMembers(t.depth, k);
    hide Ordered, Without;
  }

  lemma DropDepthKeeps(t: Table, lastRgb: int, lastDepth: int, slop: nat)
    requires t.rgb != [] && t.depth != [] && Sound(t, lastRgb, lastDepth, slop)
    requires t.depth[0].stamp + slop < t.rgb[0].stamp
    ensures Sound(t.(depth := t.depth[1..], depthDropped := t.depthDropped + [t.depth[0]]), lastRgb, lastDepth, slop)
  {
    assert t.rgb[0] in t.rgb && t.rgb[0].stamp <= lastRgb;
    OrderedTail(t.rgb, lastRgb);
    OrderedTail(t.depth, lastDepth);
    hide Ordered;
  }

  lemma DropRgbKeeps(t: Table, lastRgb: int, lastDepth: int, slop: nat)
    requires t.rgb != [] && t.depth != [] && Sound(t, lastRgb, lastDepth, slop)
    requires t.rgb[0].stamp + slop < t.depth[0].stamp
    ensures Sound(t.(rgb := t.rgb[1..], rgbDropped := t.rgbDropped + [t.rgb[0]]), lastRgb, lastDepth, slop)
  {
    assert t.depth[0] in t.depth && t.depth[0].stamp <= lastDepth;
    OrderedTail(t.rgb, lastRgb);
    OrderedTail(t.depth, lastDepth);
    hide Ordered;
  }

  lemma TurnKeeps(t: Table, lastRgb: int, lastDepth: int, slop: nat)
    requires t.rgb != [] && t.depth != [] && Sound(t, lastRgb, lastDepth, slop)
    ensures Sound(Turn(t, slop), lastRgb, lastDepth, slop)
  {
    var now := t.rgb[0].stamp;
    var k := Nearest(t.depth, now);
    assert Distance(t.depth[k].stamp, now) <= Distance(t.depth[0].stamp, now);
    hide Sound, Nearest, Without;
    if Distance(t.depth[k].stamp, now) <= slop {
      PairKeeps(t, k, lastRgb, lastDepth, slop);
    } else if t.depth[0].stamp < now - slop {
      DropDepthKeeps(t, lastRgb, lastDepth, slop);
    } else {
      DropRgbKeeps(t, lastRgb, lastDepth, slop);
    }
  }

  lemma {:induction false} AssociateKeeps(t: Table, lastRgb: int, lastDepth: int, slop: nat)
    requires Sound(t, lastRgb, lastDepth, slop)
    ensures Sound(Associate(t, slop), lastRgb, lastDepth, slop)
    decreases |t.rgb| + |t.depth|
  {
    if t.rgb != [] && t.depth != [] {
      TurnKeeps(t, lastRgb, lastDepth, slop);
      AssociateKeeps(Turn(t, slop), lastRgb, lastDepth, slop);
    }
  }
}
