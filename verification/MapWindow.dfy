/** The sliding local-map box of laserMapping_bundle.cpp (lasermap_fov_segment), over exact
    reals.  Two questions about it are answered exactly: for which box sizes the sensor can
    never come closer than half a detection range to a face, and for which sizes a
    stationary sensor lets the box come to rest. */
module MapWindow {
  import opened Basics

  const MOV_THRESHOLD: real := 1.5

  type Vec = v: seq<real> | |v| == 3 witness [0.0, 0.0, 0.0]

  datatype Box = Box(lo: Vec, hi: Vec)

  function Moved(v: Vec, i: nat, x: real): (r: Vec)
    requires i < 3
  {
    v[i := x]
  }

  /** Distance the box slides along an axis whose face came too close. */
  function Stride(cubeLen: real, range: real): real {
    Max((cubeLen - 2.0 * MOV_THRESHOLD * range) * 0.5 * 0.9, range * (MOV_THRESHOLD - 1.0))
  }

  lemma StrideBounds(cubeLen: real, range: real)
    requires range > 0.0
    ensures 0.5 * range <= Stride(cubeLen, range)
    ensures cubeLen >= 0.5 * range ==> Stride(cubeLen, range) <= cubeLen
    ensures cubeLen <= 3.5 * range ==> Stride(cubeLen, range) == 0.5 * range
    ensures cubeLen >= 3.5 * range ==> Stride(cubeLen, range) <= cubeLen - 3.0 * range
  {
  }

  /** Signed slide of one axis: towards the sensor's side, the lower face tested first. */
  function Slide(lo: real, hi: real, p: real, cubeLen: real, range: real): real {
    if Abs(p - lo) <= MOV_THRESHOLD * range then -Stride(cubeLen, range)
    else if Abs(p - hi) <= MOV_THRESHOLD * range then Stride(cubeLen, range)
    else 0.0
  }

  predicate Near(lo: real, hi: real, p: real, range: real) {
    Abs(p - lo) <= MOV_THRESHOLD * range || Abs(p - hi) <= MOV_THRESHOLD * range
  }

  predicate NeedsMove(b: Box, p: Vec, range: real) {
    exists i :: 0 <= i < 3 && Near(b.lo[i], b.hi[i], p[i], range)
  }

  function Centred(p: Vec, cubeLen: real): Box {
    Box(seq(3, i requires 0 <= i < 3 => p[i] - cubeLen / 2.0), seq(3, i requires 0 <= i < 3 => p[i] + cubeLen / 2.0))
  }

  /** The box after one call with the sensor at p. */
  function Next(b: Box, p: Vec, cubeLen: real, range: real): Box {
    Box(seq(3, i requires 0 <= i < 3 => b.lo[i] + Slide(b.lo[i], b.hi[i], p[i], cubeLen, range)),
        seq(3, i requires 0 <= i < 3 => b.hi[i] + Slide(b.lo[i], b.hi[i], p[i], cubeLen, range)))
  }

  /** The slab handed to the map for deletion when axis i slides. */
  function Slab(b: Box, i: nat, p: Vec, cubeLen: real, range: real): Box
    requires i < 3
  {
    if Abs(p[i] - b.lo[i]) <= MOV_THRESHOLD * range
    then b.(lo := Moved(b.lo, i, b.hi[i] - Stride(cubeLen, range)))
    else b.(hi := Moved(b.hi, i, b.lo[i] + Stride(cubeLen, range)))
  }

  /** The slabs of the first n axes, in the order the call pushes them. */
  function Slabs(b: Box, n: nat, p: Vec, cubeLen: real, range: real): seq<Box>
    requires n <= 3
  {
    if n == 0 then []
    else if Near(b.lo[n - 1], b.hi[n - 1], p[n - 1], range)
    then Slabs(b, n - 1, p, cubeLen, range) + [Slab(b, n - 1, p, cubeLen, range)]
    else Slabs(b, n - 1, p, cubeLen, range)
  }

  /** The global map-window state and the call that maintains it. */
  class LocalMap {
    const cubeLen: real
    const range: real
    var initialized: bool
    var box: Box
    var needRemove: seq<Box>

    constructor (cubeLen: real, range: real)
      ensures this.cubeLen == cubeLen && this.range == range && !initialized && needRemove == []
    {
      this.cubeLen, this.range := cubeLen, range;
      initialized, needRemove := false, [];
      box := Box([0.0, 0.0, 0.0], [0.0, 0.0, 0.0]);
    }

    method FovSegment(pos: Vec)
      modifies this
      ensures initialized
      ensures box == if old(initialized) then Next(old(box), pos, cubeLen, range) else Centred(pos, cubeLen)
      ensures needRemove == if old(initialized) then Slabs(old(box), 3, pos, cubeLen, range) else []
    {
      needRemove := [];
      if !initialized {
        box := Centred(pos, cubeLen);
        initialized := true;
        return;
      }
      var needMove := false;
      for i := 0 to 3
        invariant needMove <==> exists j :: 0 <= j < i && Near(box.lo[j], box.hi[j], pos[j], range)
        invariant box == old(box) && needRemove == [] && initialized
      {
        if Abs(pos[i] - box.lo[i]) <= MOV_THRESHOLD * range || Abs(pos[i] - box.hi[i]) <= MOV_THRESHOLD * range {
          needMove := true;
          assert Near(box.lo[i], box.hi[i], pos[i], range);
        }
      }
      if !needMove {
        NoMove(box, pos, cubeLen, range);
        return;
      }
      box, needRemove := SlideAxes(box, pos);
    }

    /** The loop over the axes once some face is too close. */
    method SlideAxes(b: Box, pos: Vec) returns (moved: Box, slabs: seq<Box>)
      ensures moved == Next(b, pos, cubeLen, range)
      ensures slabs == Slabs(b, 3, pos, cubeLen, range)
    {
      hide Stride, Abs, Max, Next;
      var stride := Stride(cubeLen, range);
      moved, slabs := b, [];
      for i := 0 to 3
        invariant slabs == Slabs(b, i, pos, cubeLen, range)
        invariant moved == Partly(b, i, pos, cubeLen, range)
      {
        if Abs(pos[i] - b.lo[i]) <= MOV_THRESHOLD * range {
          moved := Box(Moved(moved.lo, i, moved.lo[i] - stride), Moved(moved.hi, i, moved.hi[i] - stride));
          slabs := slabs + [Box(Moved(b.lo, i, b.hi[i] - stride), b.hi)];
        } else if Abs(pos[i] - b.hi[i]) <= MOV_THRESHOLD * range {
          moved := Box(Moved(moved.lo, i, moved.lo[i] + stride), Moved(moved.hi, i, moved.hi[i] + stride));
          slabs := slabs + [Box(b.lo, Moved(b.hi, i, b.lo[i] + stride))];
        }
      }
      AllAxes(b, pos, cubeLen, range);
    }
  }

  /** The box once the first n axes have been seen to. */
  function Partly(b: Box, n: nat, p: Vec, cubeLen: real, range: real): (r: Box)
    requires n <= 3
    ensures forall j :: n <= j < 3 ==> r.lo[j] == b.lo[j] && r.hi[j] == b.hi[j]
  {
    if n == 0 then b
    else
      var r, i := Partly(b, n - 1, p, cubeLen, range), n - 1;
      if !Near(b.lo[i], b.hi[i], p[i], range) then r
      else
        var d := Slide(b.lo[i], b.hi[i], p[i], cubeLen, range);
        Box(Moved(r.lo, i, r.lo[i] + d), Moved(r.hi, i, r.hi[i] + d))
  }

  lemma AllAxes(b: Box, p: Vec, cubeLen: real, range: real)
    ensures Partly(b, 3, p, cubeLen, range) == Next(b, p, cubeLen, range)
  {
    hide Stride, Abs, Max;
    var r0, r1, r2 := Partly(b, 0, p, cubeLen, range), Partly(b, 1, p, cubeLen, range), Partly(b, 2, p, cubeLen, range);
    var r, n := Partly(b, 3, p, cubeLen, range), Next(b, p, cubeLen, range);
    assert r.lo == n.lo && r.hi == n.hi;
  }

  lemma NoMove(b: Box, p: Vec, cubeLen: real, range: real)
    requires !NeedsMove(b, p, range)
    ensures Next(b, p, cubeLen, range) == b && Slabs(b, 3, p, cubeLen, range) == []
  {
    assert forall i :: 0 <= i < 3 ==> !Near(b.lo[i], b.hi[i], p[i], range);
    var n := Next(b, p, cubeLen, range);
    assert n.lo == b.lo && n.hi == b.hi;
    assert Slabs(b, 1, p, cubeLen, range) == [];
    assert Slabs(b, 2, p, cubeLen, range) == [];
  }

  // ---------------------------------------------------------------- runs of calls

  /** The box after the calls made at the positions of path; the first call centres it. */
  function Run(path: seq<Vec>, cubeLen: real, range: real): Box
    requires path != []
    decreases |path|
  {
    if |path| == 1 then Centred(path[0], cubeLen)
    else Next(Run(path[..|path| - 1], cubeLen, range), path[|path| - 1], cubeLen, range)
  }

  /** Between calls the sensor moves at most half a detection range along each axis. */
  ghost predicate Gentle(path: seq<Vec>, range: real) {
    forall j, k :: 0 <= j < k < |path| && k == j + 1 ==> Nearby(path[j], path[k], range)
  }

  ghost predicate Nearby(p: Vec, q: Vec, range: real) {
    forall i :: 0 <= i < 3 ==> Abs(q[i] - p[i]) <= 0.5 * range
  }

  ghost predicate Sized(b: Box, cubeLen: real) {
    forall i :: 0 <= i < 3 ==> b.hi[i] - b.lo[i] == cubeLen
  }

  ghost predicate Margin(b: Box, p: Vec, margin: real) {
    forall i :: 0 <= i < 3 ==> b.lo[i] + margin <= p[i] <= b.hi[i] - margin
  }

  /** One axis of one call: the sensor moves from p to q and the box follows. */
  lemma AxisHolds(lo: real, hi: real, p: real, q: real, cubeLen: real, range: real)
    requires range > 0.0 && cubeLen >= 2.5 * range && hi - lo == cubeLen
    requires lo + 0.5 * range <= p <= hi - 0.5 * range && Abs(q - p) <= 0.5 * range
    ensures lo <= q <= hi
    ensures var s := Slide(lo, hi, q, cubeLen, range);
            lo + s + 0.5 * range <= q <= hi + s - 0.5 * range
  {
    StrideBounds(cubeLen, range);
    hide Stride;
  }

  lemma BoxHolds(b: Box, p: Vec, q: Vec, cubeLen: real, range: real)
    requires range > 0.0 && cubeLen >= 2.5 * range && Sized(b, cubeLen)
    requires Margin(b, p, 0.5 * range) && Nearby(p, q, range)
    ensures Margin(b, q, 0.0) && Margin(Next(b, q, cubeLen, range), q, 0.5 * range)
    ensures Sized(Next(b, q, cubeLen, range), cubeLen)
  {
    hide Slide, Abs;
    forall i | 0 <= i < 3
      ensures b.lo[i] <= q[i] <= b.hi[i]
      ensures var s := Slide(b.lo[i], b.hi[i], q[i], cubeLen, range);
              b.lo[i] + s + 0.5 * range <= q[i] <= b.hi[i] + s - 0.5 * range
    {
      AxisHolds(b.lo[i], b.hi[i], p[i], q[i], cubeLen, range);
    }
  }

  lemma FirstHolds(p: Vec, cubeLen: real, range: real)
    requires range > 0.0 && cubeLen >= 2.5 * range
    ensures Sized(Centred(p, cubeLen), cubeLen) && Margin(Centred(p, cubeLen), p, 0.5 * range)
  {
  }

  lemma GentlePrefix(path: seq<Vec>, p: Vec, range: real)
    requires path != [] && Gentle(path + [p], range)
    ensures Gentle(path, range) && Nearby(path[|path| - 1], p, range)
  {
    var longer := path + [p];
    assert Nearby(longer[|path| - 1], longer[|path|], range);
    forall j, k | 0 <= j < k < |path| && k == j + 1
      ensures Nearby(path[j], path[k], range)
    {
      assert Nearby(longer[j], longer[k], range);
    }
  }

  /** A box of at least 2.5 ranges never loses the sensor, and never changes size. */
  lemma {:induction false} WindowHoldsSensor(path: seq<Vec>, cubeLen: real, range: real)
    requires path != [] && range > 0.0 && cubeLen >= 2.5 * range && Gentle(path, range)
    ensures Sized(Run(path, cubeLen, range), cubeLen)
    ensures Margin(Run(path, cubeLen, range), path[|path| - 1], 0.5 * range)
    ensures |path| > 1 ==> Margin(Run(path[..|path| - 1], cubeLen, range), path[|path| - 1], 0.0)
    decreases |path|
  {
    hide Sized, Margin, Gentle, Nearby, Next, Centred;
    if |path| == 1 {
      FirstHolds(path[0], cubeLen, range);
    } else {
      var before, p := path[..|path| - 1], path[|path| - 1];
      assert path == before + [p];
      GentlePrefix(before, p, range);
      WindowHoldsSensor(before, cubeLen, range);
      BoxHolds(Run(before, cubeLen, range), before[|before| - 1], p, cubeLen, range);
    }
  }

  /** In a smaller box a gentle path of at most two calls brings it too close. */
  lemma SmallWindowLosesSensor(cubeLen: real, range: real) returns (path: seq<Vec>)
    requires range > 0.0 && cubeLen < 2.5 * range
    ensures path != [] && Gentle(path, range)
    ensures !Margin(Run(path, cubeLen, range), path[|path| - 1], 0.5 * range)
  {
    var origin: Vec := [0.0, 0.0, 0.0];
    if cubeLen < range {
      path := [origin];
      var b := Run(path, cubeLen, range);
      assert !(b.lo[0] + 0.5 * range <= origin[0]);
    } else {
      var x := if cubeLen < 2.0 * range then 0.0 else 1.5 * range - cubeLen / 2.0;
      var there: Vec := [x, 0.0, 0.0];
      path := [origin, there];
      var b := Centred(origin, cubeLen);
      assert path[..1] == [origin];
      assert Run(path, cubeLen, range) == Next(b, there, cubeLen, range);
      assert !(there[0] <= Next(b, there, cubeLen, range).hi[0] - 0.5 * range);
    }
  }

  /** On every gentle run the sensor stays half a range away from every face. */
  ghost predicate AlwaysHolds(cubeLen: real, range: real) {
    forall path: seq<Vec> :: path != [] && Gentle(path, range)
      ==> Margin(Run(path, cubeLen, range), path[|path| - 1], 0.5 * range)
  }

  /** The margin is kept exactly when the box is at least 2.5 ranges wide. */
  lemma WindowHoldsSensorIff(cubeLen: real, range: real)
    requires range > 0.0
    ensures cubeLen >= 2.5 * range <==> AlwaysHolds(cubeLen, range)
  {
    if cubeLen >= 2.5 * range {
      forall path: seq<Vec> | path != [] && Gentle(path, range)
        ensures Margin(Run(path, cubeLen, range), path[|path| - 1], 0.5 * range)
      {
        WindowHoldsSensor(path, cubeLen, range);
      }
    } else {
      var path := SmallWindowLosesSensor(cubeLen, range);
      hide Run, Margin, Gentle;
    }
  }

  // ---------------------------------------------------------------- how far it slides

  function Middle(b: Box, i: nat): real
    requires i < 3
  {
    (b.lo[i] + b.hi[i]) / 2.0
  }

  /** A sensor that has just come within 1.5 ranges of a face is brought to a tenth of its
      distance from the middle of the box; in a box too small for that, the box moves by half a
      range.  A sensor closer to the face moves the box no farther. */
  ghost predicate Recentres(b: Box, i: nat, p: Vec, cubeLen: real, range: real)
    requires i < 3
  {
    var next := Next(b, p, cubeLen, range);
    if 9.0 * (cubeLen - 3.0 * range) >= 10.0 * range
    then 10.0 * (p[i] - Middle(next, i)) == p[i] - Middle(b, i)
    else Abs(Middle(next, i) - Middle(b, i)) == 0.5 * range
  }

  lemma SlideRecentres(b: Box, i: nat, p: Vec, q: Vec, cubeLen: real, range: real)
    requires i < 3 && range > 0.0 && cubeLen > 3.0 * range && Sized(b, cubeLen)
    ensures p[i] == b.lo[i] + 1.5 * range ==> Recentres(b, i, p, cubeLen, range)
    ensures p[i] == b.hi[i] - 1.5 * range ==> Recentres(b, i, p, cubeLen, range)
    ensures var sp, sq := Middle(Next(b, p, cubeLen, range), i), Middle(Next(b, q, cubeLen, range), i);
            && (p[i] == b.lo[i] + 1.5 * range && b.lo[i] <= q[i] <= p[i] ==> sp == sq < Middle(b, i))
            && (p[i] == b.hi[i] - 1.5 * range && p[i] <= q[i] <= b.hi[i] ==> Middle(b, i) < sp == sq)
  {
    assert b.hi[i] - b.lo[i] == cubeLen;
  }

  // ---------------------------------------------------------------- stationary sensor

  /** The box after n calls with the sensor standing at p. */
  function Rest(b: Box, p: Vec, n: nat, cubeLen: real, range: real): Box {
    if n == 0 then b else Next(Rest(b, p, n - 1, cubeLen, range), p, cubeLen, range)
  }

  /** How many of n calls with the sensor standing at p move the box. */
  function MovingCalls(b: Box, p: Vec, n: nat, cubeLen: real, range: real): nat {
    if n == 0 then 0
    else MovingCalls(b, p, n - 1, cubeLen, range)
         + if NeedsMove(Rest(b, p, n - 1, cubeLen, range), p, range) then 1 else 0
  }

  /** An axis n calls later is at rest, or still one of the at most four steps away from it. */
  ghost predicate Approaching(lo: real, hi: real, p: real, n: nat, range: real) {
    || (lo + 1.5 * range < p < hi - 1.5 * range)
    || (n < 4 && lo + 0.5 * range * n as real <= p <= lo + 1.5 * range)
    || (n < 4 && hi - 1.5 * range <= p <= hi - 0.5 * range * n as real && lo + 1.5 * range < p)
  }

  lemma AxisApproaches(lo: real, hi: real, p: real, n: nat, cubeLen: real, range: real)
    requires range > 0.0 && cubeLen > 3.5 * range && hi - lo == cubeLen
    requires Approaching(lo, hi, p, n, range)
    ensures var s := Slide(lo, hi, p, cubeLen, range);
            Approaching(lo + s, hi + s, p, n + 1, range)
  {
    var stride := Stride(cubeLen, range);
    assert stride >= 0.5 * range && stride < cubeLen - 3.0 * range;
    var grown := 0.5 * range * (n + 1) as real;
    assert grown == 0.5 * range * n as real + 0.5 * range;
    if n >= 3 && !(lo + 1.5 * range < p < hi - 1.5 * range) {
      assert n == 3;
    }
  }

  lemma {:induction false} RestApproaches(b: Box, p: Vec, n: nat, cubeLen: real, range: real)
    requires range > 0.0 && cubeLen > 3.5 * range && Sized(b, cubeLen) && Margin(b, p, 0.0)
    ensures var r := Rest(b, p, n, cubeLen, range);
            Sized(r, cubeLen) && forall i :: 0 <= i < 3 ==> Approaching(r.lo[i], r.hi[i], p[i], n, range)
  {
    if n > 0 {
      RestApproaches(b, p, n - 1, cubeLen, range);
      var r := Rest(b, p, n - 1, cubeLen, range);
      forall i | 0 <= i < 3
        ensures var s := Slide(r.lo[i], r.hi[i], p[i], cubeLen, range);
                Approaching(r.lo[i] + s, r.hi[i] + s, p[i], n, range)
      {
        AxisApproaches(r.lo[i], r.hi[i], p[i], n - 1, cubeLen, range);
      }
    }
  }

  lemma {:induction false} SettlesWithinFour(b: Box, p: Vec, n: nat, cubeLen: real, range: real)
    requires range > 0.0 && cubeLen > 3.5 * range && Sized(b, cubeLen) && Margin(b, p, 0.0)
    ensures MovingCalls(b, p, n, cubeLen, range) <= if n < 4 then n else 4
  {
    if n > 0 {
      SettlesWithinFour(b, p, n - 1, cubeLen, range);
      if n > 4 {
        RestApproaches(b, p, n - 1, cubeLen, range);
        var r := Rest(b, p, n - 1, cubeLen, range);
        assert forall i :: 0 <= i < 3 ==> !Near(r.lo[i], r.hi[i], p[i], range);
      }
    }
  }

  /** The box that slides back and forth for ever when it is not wider than 3.5 ranges. */
  function Restless(cubeLen: real, range: real, flipped: bool): Box {
    var lo := if flipped then -2.0 * range else -1.5 * range;
    Box([lo, lo, lo], [lo + cubeLen, lo + cubeLen, lo + cubeLen])
  }

  lemma {:induction false} NeverSettles(n: nat, cubeLen: real, range: real) returns (flipped: bool)
    requires range > 0.0 && 2.5 * range <= cubeLen <= 3.5 * range
    ensures Rest(Restless(cubeLen, range, false), [0.0, 0.0, 0.0], n, cubeLen, range)
            == Restless(cubeLen, range, flipped)
    ensures MovingCalls(Restless(cubeLen, range, false), [0.0, 0.0, 0.0], n, cubeLen, range) == n
  {
    hide Restless, Next, NeedsMove;
    flipped := false;
    if n > 0 {
      var before := NeverSettles(n - 1, cubeLen, range);
      RestlessFlips(before, cubeLen, range);
      flipped := !before;
    }
  }

  lemma RestlessFlips(flipped: bool, cubeLen: real, range: real)
    requires range > 0.0 && 2.5 * range <= cubeLen <= 3.5 * range
    ensures Next(Restless(cubeLen, range, flipped), [0.0, 0.0, 0.0], cubeLen, range)
            == Restless(cubeLen, range, !flipped)
    ensures NeedsMove(Restless(cubeLen, range, flipped), [0.0, 0.0, 0.0], range)
  {
    var r, want := Restless(cubeLen, range, flipped), Restless(cubeLen, range, !flipped);
    var next := Next(r, [0.0, 0.0, 0.0], cubeLen, range);
    RestlessAxis(flipped, cubeLen, range);
    hide Slide, Near, Abs;
    assert Near(r.lo[0], r.hi[0], 0.0, range);
    assert next.lo == want.lo;
    assert next.hi == want.hi;
  }

  lemma RestlessAxis(flipped: bool, cubeLen: real, range: real)
    requires range > 0.0 && 2.5 * range <= cubeLen <= 3.5 * range
    ensures var lo := if flipped then -2.0 * range else -1.5 * range;
            && Near(lo, lo + cubeLen, 0.0, range)
            && Slide(lo, lo + cubeLen, 0.0, cubeLen, range) == if flipped then 0.5 * range else -0.5 * range
  {
    StrideBounds(cubeLen, range);
    hide Stride;
  }

  /** The restless box is the one the first call makes a quarter of a range or less away from
      where the sensor then comes to stand. */
  lemma RestlessReached(cubeLen: real, range: real) returns (first: Vec)
    requires range > 0.0 && 2.5 * range <= cubeLen <= 3.5 * range
    ensures Run([first], cubeLen, range) == Restless(cubeLen, range, false)
    ensures Gentle([first] + [[0.0, 0.0, 0.0]], range)
  {
    var x := cubeLen / 2.0 - 1.5 * range;
    first := [x, x, x];
    var b, want := Centred(first, cubeLen), Restless(cubeLen, range, false);
    assert b.lo == want.lo;
    assert b.hi == want.hi;
    assert Nearby(first, [0.0, 0.0, 0.0], range);
  }

  /** Wherever a gentle path has led, if the sensor then stands still at p, a gentle step
      away, at most four more calls move the box. */
  ghost predicate AlwaysSettles(cubeLen: real, range: real) {
    forall path: seq<Vec>, p: Vec, n: nat :: path != [] && Gentle(path + [p], range)
      ==> MovingCalls(Run(path, cubeLen, range), p, n, cubeLen, range) <= 4
  }

  /** For a box wide enough to hold the sensor: it settles exactly when it is wider than 3.5
      ranges.  At 3.5 ranges itself the claim fails: with the sensor 1.5 ranges from the
      lower face every call moves the box. */
  lemma SettlesIff(cubeLen: real, range: real)
    requires range > 0.0 && cubeLen >= 2.5 * range
    ensures cubeLen > 3.5 * range <==> AlwaysSettles(cubeLen, range)
  {
    hide MovingCalls, Run, Sized, Margin, Restless, Gentle;
    if cubeLen > 3.5 * range {
      forall path: seq<Vec>, p: Vec, n: nat | path != [] && Gentle(path + [p], range)
        ensures MovingCalls(Run(path, cubeLen, range), p, n, cubeLen, range) <= 4
      {
        GentlePrefix(path, p, range);
        WindowHoldsSensor(path, cubeLen, range);
        assert (path + [p])[..|path|] == path;
        WindowHoldsSensor(path + [p], cubeLen, range);
        SettlesWithinFour(Run(path, cubeLen, range), p, n, cubeLen, range);
      }
    } else {
      var flipped := NeverSettles(5, cubeLen, range);
      var first := RestlessReached(cubeLen, range);
    }
  }

  // ---------------------------------------------------------------- deletion

  ghost predicate Contains(b: Box, q: Vec) {
    forall i :: 0 <= i < 3 ==> b.lo[i] <= q[i] <= b.hi[i]
  }

  ghost predicate Interior(b: Box, q: Vec) {
    forall i :: 0 <= i < 3 ==> b.lo[i] < q[i] < b.hi[i]
  }

  lemma {:induction false} SlabMember(b: Box, n: nat, p: Vec, cubeLen: real, range: real, i: nat)
    requires i < n <= 3 && Near(b.lo[i], b.hi[i], p[i], range)
    ensures Slab(b, i, p, cubeLen, range) in Slabs(b, n, p, cubeLen, range)
  {
    if i < n - 1 {
      SlabMember(b, n - 1, p, cubeLen, range, i);
    }
  }

  lemma {:induction false} SlabOrigin(b: Box, n: nat, p: Vec, cubeLen: real, range: real, s: Box) returns (i: nat)
    requires n <= 3 && s in Slabs(b, n, p, cubeLen, range)
    ensures i < n && Near(b.lo[i], b.hi[i], p[i], range) && s == Slab(b, i, p, cubeLen, range)
  {
    if s in Slabs(b, n - 1, p, cubeLen, range) {
      i := SlabOrigin(b, n - 1, p, cubeLen, range, s);
    } else {
      i := n - 1;
    }
  }

  lemma SlabCovers(b: Box, p: Vec, q: Vec, i: nat, cubeLen: real, range: real)
    requires i < 3 && range > 0.0 && Contains(b, q)
    requires var s := Slide(b.lo[i], b.hi[i], p[i], cubeLen, range);
             !(b.lo[i] + s <= q[i] <= b.hi[i] + s)
    ensures Near(b.lo[i], b.hi[i], p[i], range) && Contains(Slab(b, i, p, cubeLen, range), q)
  {
    StrideBounds(cubeLen, range);
    hide Abs, Stride;
  }

  lemma SlabInside(b: Box, p: Vec, q: Vec, i: nat, cubeLen: real, range: real)
    requires i < 3 && range > 0.0 && cubeLen >= 0.5 * range && Sized(b, cubeLen)
    requires Near(b.lo[i], b.hi[i], p[i], range) && Contains(Slab(b, i, p, cubeLen, range), q)
    ensures Contains(b, q)
    ensures var s := Slide(b.lo[i], b.hi[i], p[i], cubeLen, range);
            !(b.lo[i] + s < q[i] < b.hi[i] + s)
  {
    StrideBounds(cubeLen, range);
    hide Abs, Stride;
    var s := Slab(b, i, p, cubeLen, range);
    assert s.lo[i] <= q[i] <= s.hi[i];
    forall j | 0 <= j < 3
      ensures b.lo[j] <= q[j] <= b.hi[j]
    {
      assert s.lo[j] <= q[j] <= s.hi[j];
    }
  }

  /** What is deleted is exactly what the move leaves behind: a point of the old box lies in
      a deleted slab whenever the new box does not contain it, and no deleted slab reaches
      the new box's interior or outside the old box. */
  lemma DeletionIsExact(b: Box, p: Vec, q: Vec, cubeLen: real, range: real)
    requires range > 0.0 && cubeLen >= 0.5 * range && Sized(b, cubeLen)
    ensures Contains(b, q) && !Contains(Next(b, p, cubeLen, range), q)
            ==> exists s :: s in Slabs(b, 3, p, cubeLen, range) && Contains(s, q)
    ensures (exists s :: s in Slabs(b, 3, p, cubeLen, range) && Contains(s, q))
            ==> Contains(b, q) && !Interior(Next(b, p, cubeLen, range), q)
  {
    hide Slide, Near, Slab, Slabs;
    var next := Next(b, p, cubeLen, range);
    if Contains(b, q) && !Contains(next, q) {
      var i :| 0 <= i < 3 && !(next.lo[i] <= q[i] <= next.hi[i]);
      SlabCovers(b, p, q, i, cubeLen, range);
      SlabMember(b, 3, p, cubeLen, range, i);
    }
    if s :| s in Slabs(b, 3, p, cubeLen, range) && Contains(s, q) {
      var i := SlabOrigin(b, 3, p, cubeLen, range, s);
      SlabInside(b, p, q, i, cubeLen, range);
      assert !(next.lo[i] < q[i] < next.hi[i]);
    }
  }
}
