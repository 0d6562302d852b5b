/** The backward walk of ImuProcess::UndistortPclMultiLiDAR in IMU_Processing.hpp: one pointer
    moves down the IMU poses, one down the points, sorted by time. */
module Undistortion {
  import opened Synchroniser

  datatype Input = Input(acc: Vec3, gyro: Vec3)

  /** What the filter has been told since it was made. */
  datatype FilterStep = Set(mean: Input) | Predict(dt: real, noise: Input, input: Input)

  type Filter = seq<FilterStep>

  /** An entry of IMUpose: the filter at a time counted from the bundle's start. */
  datatype Pose = Pose(offset: real, filter: Filter)

  /** A point at one place, moved from the motion between two poses to the bundle's end. */
  type Compensation = (Pose, Pose, Filter, real, Vec3) -> Vec3

  ghost predicate ByTime(cloud: Cloud) {
    forall i, j :: 0 <= i < j < |cloud| ==> cloud[i].curvature <= cloud[j].curvature
  }

  predicate After(p: Point, pose: Pose) {
    p.curvature / 1000.0 > pose.offset
  }

  /** The latest of the first n poses that lies strictly before the point; -1 if none does. */
  function LatestBefore(poses: seq<Pose>, n: nat, p: Point): (h: int)
    requires n <= |poses|
    ensures -1 <= h < n && (h >= 0 ==> After(p, poses[h]))
    ensures forall k :: h < k < n ==> !After(p, poses[k])
  {
    if n == 0 then -1 else if After(p, poses[n - 1]) then n - 1 else LatestBefore(poses, n - 1, p)
  }

  function Moved(f: Compensation, poses: seq<Pose>, h: nat, end: Filter, p: Point): (r: Point)
    requires h + 1 < |poses|
    ensures r.curvature == p.curvature
  {
    p.(pos := f(poses[h], poses[h + 1], end, p.curvature / 1000.0 - poses[h].offset, p.pos))
  }

  /** One search per point: what each point but the first becomes. */
  function Searched(f: Compensation, poses: seq<Pose>, end: Filter, p: Point): (r: Point)
    requires poses != []
    ensures r.curvature == p.curvature
  {
    var h := LatestBefore(poses, |poses| - 1, p);
    if h < 0 then p else Moved(f, poses, h, end, p)
  }

  /** The first point is moved again at every head before it, the latest first. */
  function Again(f: Compensation, poses: seq<Pose>, n: nat, end: Filter, p: Point): (r: Point)
    requires n < |poses|
    ensures r.curvature == p.curvature
  {
    if n == 0 then p
    else Again(f, poses, n - 1, end, if After(p, poses[n - 1]) then Moved(f, poses, n - 1, end, p) else p)
  }

  function Undistorted(f: Compensation, cloud: Cloud, poses: seq<Pose>, end: Filter): (r: Cloud)
    requires poses != []
    ensures |r| == |cloud|
  {
    seq(|cloud|, i requires 0 <= i < |cloud| =>
      if i == 0 then Again(f, poses, |poses| - 1, end, cloud[0]) else Searched(f, poses, end, cloud[i]))
  }

  /** A point and what compensation makes of it, said without the search: it is moved once, from
      the latest head strictly before it to the pose after that; without such a head it stays. */
  ghost predicate Compensated(f: Compensation, poses: seq<Pose>, end: Filter, p: Point, q: Point) {
    var t := p.curvature / 1000.0;
    q.curvature == p.curvature
    && if forall k :: 0 <= k < |poses| - 1 ==> t <= poses[k].offset then q.pos == p.pos
       else exists h :: 0 <= h < |poses| - 1 && LatestHead(poses, t, h)
                        && q.pos == f(poses[h], poses[h + 1], end, t - poses[h].offset, p.pos)
  }

  ghost predicate LatestHead(poses: seq<Pose>, t: real, h: nat)
    requires h < |poses| - 1
  {
    poses[h].offset < t && forall k :: h < k < |poses| - 1 ==> t <= poses[k].offset
  }

  lemma SearchedIsCompensated(f: Compensation, poses: seq<Pose>, end: Filter, p: Point)
    requires poses != []
    ensures Compensated(f, poses, end, p, Searched(f, poses, end, p))
  {
    var h := LatestBefore(poses, |poses| - 1, p);
    if h >= 0 {
      assert LatestHead(poses, p.curvature / 1000.0, h);
    }
  }

  /** How many of the first n poses lie before the point. */
  function HeadsBefore(poses: seq<Pose>, n: nat, p: Point): nat
    requires n <= |poses|
  {
    if n == 0 then 0 else HeadsBefore(poses, n - 1, p) + if After(p, poses[n - 1]) then 1 else 0
  }

  lemma {:induction false} NoHead(f: Compensation, poses: seq<Pose>, n: nat, end: Filter, p: Point)
    requires n < |poses| && HeadsBefore(poses, n, p) == 0
    ensures Again(f, poses, n, end, p) == p && LatestBefore(poses, n, p) == -1
  {
    if n > 0 {
      NoHead(f, poses, n - 1, end, p);
    }
  }

  lemma {:induction false} SameTime(poses: seq<Pose>, n: nat, p: Point, q: Point)
    requires n <= |poses| && p.curvature == q.curvature
    ensures HeadsBefore(poses, n, p) == HeadsBefore(poses, n, q)
  {
    if n > 0 {
      SameTime(poses, n - 1, p, q);
    }
  }

  lemma {:induction false} OneHead(f: Compensation, poses: seq<Pose>, n: nat, end: Filter, p: Point)
    requires n < |poses| && HeadsBefore(poses, n, p) == 1
    ensures var h := LatestBefore(poses, n, p);
            h >= 0 && Again(f, poses, n, end, p) == Moved(f, poses, h, end, p)
  {
    if After(p, poses[n - 1]) {
      var q := Moved(f, poses, n - 1, end, p);
      SameTime(poses, n - 1, p, q);
      NoHead(f, poses, n - 1, end, q);
    } else {
      OneHead(f, poses, n - 1, end, p);
    }
  }

  lemma {:induction false} CountHeads(f: Compensation, poses: seq<Pose>, n: nat, end: Filter, p: Point)
    requires n < |poses|
    requires forall h, t, e, d, v :: f(h, t, e, d, v).x == v.x + 1.0
    ensures Again(f, poses, n, end, p).pos.x == p.pos.x + HeadsBefore(poses, n, p) as real
  {
    if n > 0 {
      var q := if After(p, poses[n - 1]) then Moved(f, poses, n - 1, end, p) else p;
      SameTime(poses, n - 1, p, q);
      CountHeads(f, poses, n - 1, end, q);
    }
  }

  ghost predicate TreatedAlike(poses: seq<Pose>, end: Filter, p: Point)
    requires poses != []
  {
    forall f: Compensation :: Again(f, poses, |poses| - 1, end, p) == Searched(f, poses, end, p)
  }

  /** The first point is treated like every other exactly when at most one head lies before it. */
  lemma FirstPointIff(poses: seq<Pose>, end: Filter, p: Point)
    requires poses != []
    ensures TreatedAlike(poses, end, p) <==> HeadsBefore(poses, |poses| - 1, p) <= 1
  {
    var n := |poses| - 1;
    if HeadsBefore(poses, n, p) <= 1 {
      forall f: Compensation
        ensures Again(f, poses, n, end, p) == Searched(f, poses, end, p)
      {
        if HeadsBefore(poses, n, p) == 0 {
          NoHead(f, poses, n, end, p);
        } else {
          OneHead(f, poses, n, end, p);
        }
      }
    } else {
      var step: Compensation := (h: Pose, t: Pose, e: Filter, d: real, v: Vec3) => Vec3(v.x + 1.0, v.y, v.z);
      CountHeads(step, poses, n, end, p);
      assert Again(step, poses, n, end, p) != Searched(step, poses, end, p);
    }
  }

  /** The whole cloud: every point is compensated once, but the first if several heads precede it. */
  lemma CloudIsCompensated(f: Compensation, cloud: Cloud, poses: seq<Pose>, end: Filter)
    requires poses != []
    ensures var r := Undistorted(f, cloud, poses, end);
            && |r| == |cloud|
            && (forall i :: 1 <= i < |cloud| ==> Compensated(f, poses, end, cloud[i], r[i]))
            && (cloud != [] && HeadsBefore(poses, |poses| - 1, cloud[0]) <= 1 ==>
                  Compensated(f, poses, end, cloud[0], r[0]))
  {
    hide Compensated, Searched;
    forall i | 0 <= i < |cloud|
      ensures Compensated(f, poses, end, cloud[i], Searched(f, poses, end, cloud[i]))
    {
      SearchedIsCompensated(f, poses, end, cloud[i]);
    }
    if cloud != [] && HeadsBefore(poses, |poses| - 1, cloud[0]) <= 1 {
      FirstPointIff(poses, end, cloud[0]);
    }
  }

  /** Points 1..it wait untouched for a head below n; those above it are finished. */
  ghost predicate Walked(f: Compensation, was: Cloud, now: Cloud, poses: seq<Pose>, end: Filter, n: nat, it: nat)
    requires n < |poses|
  {
    && |now| == |was| && it < |was|
    && (forall i :: it < i < |was| ==> now[i] == Searched(f, poses, end, was[i]))
    && (forall i :: 1 <= i <= it ==>
          && now[i] == was[i]
          && LatestBefore(poses, |poses| - 1, was[i]) == LatestBefore(poses, n, was[i]))
    && Again(f, poses, n, end, now[0]) == Again(f, poses, |poses| - 1, end, was[0])
    && now[0].curvature == was[0].curvature
  }

  /** The two nested loops over one cloud. */
  method Undistort(f: Compensation, a: array<Point>, poses: seq<Pose>, end: Filter)
    requires a.Length > 0 && poses != [] && ByTime(a[..])
    modifies a
    ensures a[..] == Undistorted(f, old(a[..]), poses, end)
  {
    ghost var was := a[..];
    var it := a.Length - 1;
    var kp := |poses| - 1;
    while kp != 0
      invariant 0 <= kp < |poses| && 0 <= it < a.Length
      invariant Walked(f, was, a[..], poses, end, kp, it)
    {
      it := WalkHead(f, a, poses, end, kp, it, was);
      kp := kp - 1;
    }
    assert a[..] == Undistorted(f, was, poses, end);
  }

  /** The inner loop: the points after head kp - 1 that are still to be moved. */
  method WalkHead(f: Compensation, a: array<Point>, poses: seq<Pose>, end: Filter, kp: nat, start: nat,
                  ghost was: Cloud)
    returns (it: nat)
    requires 0 < kp < |poses| && start < a.Length && ByTime(was)
    requires Walked(f, was, a[..], poses, end, kp, start)
    modifies a
    ensures it < a.Length && Walked(f, was, a[..], poses, end, kp - 1, it)
  {
    it := start;
    while After(a[it], poses[kp - 1])
      invariant 0 <= it <= start < a.Length
      invariant Walked(f, was, a[..], poses, end, kp, it)
      decreases it
    {
      a[it] := Moved(f, poses, kp - 1, end, a[it]);
      if it == 0 {
        break;
      }
      it := it - 1;
    }
  }
}
