/** The first point of a cloud in whole bundles: how often it is compensated, and a run in
    which that is twice. */
module FirstPoint {
  import opened Basics
  import opened Synchroniser
  import opened SyncRuns
  import opened Undistortion
  import opened ImuProcess
  import opened FilterTime

  /** The stamps of the first n samples that are not skipped. */
  function Used(imu: seq<Imu>, n: nat, lastEnd: real): (r: seq<real>)
    requires n <= |imu|
  {
    if n == 0 then []
    else Used(imu, n - 1, lastEnd) + if imu[n - 1].stamp < lastEnd then [] else [imu[n - 1].stamp]
  }

  /** When the heads of a bundle stand: its start and the samples used, the last one excepted. */
  function HeadTimes(b: Bundle, lastEnd: real): (r: seq<real>) {
    var used := Used(b.imu, |b.imu|, lastEnd);
    ([b.Start()] + used)[..|used|]
  }

  /** How many of the first n times are earlier than t. */
  function Earlier(times: seq<real>, n: nat, t: real): nat
    requires n <= |times|
  {
    if n == 0 then 0 else Earlier(times, n - 1, t) + if times[n - 1] < t then 1 else 0
  }

  lemma {:induction false} PoseTimes(u: Setup, s: ImuState, imu: seq<Imu>, n: nat, begin: real, kf: Filter)
    requires n <= |imu|
    ensures var poses, used := Forward(u, s, [s.lastImu] + imu, n, begin, kf).poses, Used(imu, n, s.lastEnd);
            |poses| == 1 + |used| && forall k :: 0 <= k < |poses| ==> poses[k].offset == ([begin] + used)[k] - begin
  {
    if n > 0 {
      PoseTimes(u, s, imu, n - 1, begin, kf);
      assert ([s.lastImu] + imu)[n] == imu[n - 1];
      hide InputOf, StepTime;
    }
  }

  lemma {:induction false} HeadsAreEarlier(poses: seq<Pose>, times: seq<real>, n: nat, begin: real, p: Point)
    requires n <= |poses| && n <= |times|
    requires forall k :: 0 <= k < n ==> poses[k].offset == times[k] - begin
    ensures HeadsBefore(poses, n, p) == Earlier(times, n, begin + p.curvature / 1000.0)
  {
    if n > 0 {
      HeadsAreEarlier(poses, times, n - 1, begin, p);
    }
  }

  /** In a bundle: the first point is treated like all others exactly when at most one of the
      bundle's start and its used samples, the last one excepted, is earlier than it. */
  lemma FirstPointInBundle(u: Setup, s: ImuState, kf: Filter, b: Bundle, p: Point)
    ensures var poses, heads := Propagated(u, s, kf, b).poses, HeadTimes(b, s.lastEnd);
            var earlier := Earlier(heads, |heads|, b.Start() + p.curvature / 1000.0);
            && HeadsBefore(poses, |poses| - 1, p) == earlier
            && (TreatedAlike(poses, Propagated(u, s, kf, b).kf, p) <==> earlier <= 1)
  {
    var v, heads := [s.lastImu] + b.imu, HeadTimes(b, s.lastEnd);
    var poses := Forward(u, s, v, |v| - 1, b.Start(), kf).poses;
    PoseTimes(u, s, b.imu, |b.imu|, b.Start(), kf);
    HeadsAreEarlier(poses, heads, |heads|, b.Start(), p);
    FirstPointIff(poses, Propagated(u, s, kf, b).kf, p);
    hide TreatedAlike, Forward;
  }

  // ---------------------------------------------------------------- a run in which it is moved twice

  function At(ms: real): Point { Point(Vec3(0.0, 0.0, 0.0), ms) }

  function Copies<T>(x: T, k: nat): (r: seq<T>)
    ensures |r| == k && forall i :: 0 <= i < k ==> r[i] == x
  {
    if k == 0 then [] else Copies(x, k - 1) + [x]
  }

  /** An empty scan of each lidar and ten samples before it end the initialisation. */
  function Opening(): seq<Event> {
    [Scan1(Scan(1.0, []))] + [Scan2(Scan(1.0, []))] + Copies(ImuMsg(Still(0.5)), 10) + [ImuMsg(Still(1.5))] + [Poll]
  }

  /** Then two scans whose points follow some time after their start; the sample at 1.5 is
      left over from before it. */
  function Second(): seq<Event> {
    Opening() + [Scan1(Scan(3.0, [At(100.0), At(200.0)]))] + [Scan2(Scan(3.0, [At(150.0)]))]
    + [ImuMsg(Still(3.15))] + [ImuMsg(Still(3.5))]
  }

  lemma NodeNext(c: Config, u: Setup, garbage: real, evs: seq<Event>, e: Event)
    ensures NodeAfter(c, u, garbage, evs + [e]) == Turn(c, u, NodeAfter(c, u, garbage, evs), e)
  {
    hide Turn;
    assert (evs + [e])[..|evs|] == evs;
  }

  function Queued(n: Node, imu: seq<Imu>, lastImu: real): (r: Node)
    requires n.run.s.Parallel()
    ensures r.run.s.Parallel() && r.imu == n.imu
  {
    n.(run := n.run.(s := n.run.s.(imu := imu, lastImu := lastImu)))
  }

  lemma SampleQueues(c: Config, u: Setup, n: Node, m: Imu)
    requires n.run.s.Parallel() && n.imu.iterNum > 0 && n.run.s.seenScan && n.run.s.lastImu <= m.stamp
    ensures Turn(c, u, n, ImuMsg(m)) == Queued(n, n.run.s.imu + [m], m.stamp)
  {
    hide Sync, Deliver;
  }

  lemma {:induction false} SamplesQueue(c: Config, u: Setup, garbage: real, evs: seq<Event>, m: Imu, k: nat)
    requires var s := NodeAfter(c, u, garbage, evs).run.s;
             s.seenScan && s.lastImu <= m.stamp && s.imu == []
    ensures var n := NodeAfter(c, u, garbage, evs);
            NodeAfter(c, u, garbage, evs + Copies(ImuMsg(m), k))
            == Queued(n, Copies(m, k), if k == 0 then n.run.s.lastImu else m.stamp)
    decreases k
  {
    hide NodeAfter, Turn;
    var n := NodeAfter(c, u, garbage, evs);
    if k == 0 {
      assert evs + Copies(ImuMsg(m), k) == evs;
    } else {
      var longer := evs + Copies(ImuMsg(m), k - 1);
      SamplesQueue(c, u, garbage, evs, m, k - 1);
      assert evs + Copies(ImuMsg(m), k) == longer + [ImuMsg(m)];
      NodeNext(c, u, garbage, longer, ImuMsg(m));
      SampleQueues(c, u, NodeAfter(c, u, garbage, longer), m);
    }
  }

  /** One scan of either lidar waits, both with the same stamp. */
  ghost predicate OnePair(s: SyncState, t: real, x: Cloud, y: Cloud) {
    && !s.pushed && s.seenScan && s.s1.times == [t] && s.s2.times == [t] && s.s1.clouds == [x] && s.s2.clouds == [y]
    && s.s1.lastStamp == t && s.s2.lastStamp == t && s.s1.meanScan == 0.0 && s.s2.meanScan == 0.0
  }

  lemma RebasedByNothing(cloud: Cloud)
    ensures Rebased(cloud, 0.0) == cloud
  {
  }

  /** Such a pair is latched and, once the IMU has come, emitted. */
  lemma PairIsEmitted(c: Config, s: SyncState, t: real, x: Cloud, y: Cloud, n: nat)
    requires OnePair(s, t, x, y) && c.skew >= 0.0 && s.imu != []
    requires var e1 := Ended(0.0, s.s1.scanNum, x, t).end;
             var e2 := Ended(0.0, s.s2.scanNum, Transformed(c.lidar2ToLidar1, y), t).end;
             e1 <= s.lastImu && e2 <= s.lastImu && Take(s.imu, s.imu[0].stamp, e1, e2) == n
    ensures s.Parallel()
    ensures var o := Sync(c, s);
            var b, e1 := o.state.meas, Ended(0.0, s.s1.scanNum, x, t);
            var e2 := Ended(0.0, s.s2.scanNum, Transformed(c.lidar2ToLidar1, y), t);
            && o.ready && b.lidar == x && b.lidar2 == Transformed(c.lidar2ToLidar1, y) && b.begin1 == b.begin2 == t
            && b.end1 == e1.end && b.end2 == e2.end && b.imu == s.imu[..n] && o.state.imu == s.imu[n..]
            && o.state.s1 == Stream([], [], t, e1.mean, e1.num, e1.end)
            && o.state.s2 == Stream([], [], t, e2.mean, e2.num, e2.end)
            && !o.state.pushed && o.state.seenScan && o.state.lastImu == s.lastImu
  {
    hide Take, Ended;
    RebasedByNothing(x);
    RebasedByNothing(Transformed(c.lidar2ToLidar1, y));
    PrepareUnfolds(c, s);
    assert Drops([t], [t], c.skew) == (0, 0);
    hide Rebased, Drops, Transformed;
    assert Dropped(s.s1, 0) == s.s1 && Dropped(s.s2, 0) == s.s2;
    var l := Latch(c, s);
    hide Prepare;
  }

  lemma {:induction false} TakeCopies(m: Imu, k: nat, x: Imu, end: real)
    requires m.stamp < end < x.stamp
    ensures Take(Copies(m, k) + [x], m.stamp, end, end) == k
    decreases k
  {
    if k > 0 {
      TakeCopies(m, k - 1, x, end);
      assert (Copies(m, k) + [x])[1..] == Copies(m, k - 1) + [x];
    }
  }

  /** Where the opening leads, its two empty scans used up. */
  ghost predicate Opened(n: Node, garbage: real) {
    && Idle(n.run.s, 1.0) && n.run.s.s1.scanNum == n.run.s.s2.scanNum == 0
    && n.run.s.imu == [Still(1.5)] && n.run.s.lastImu == 1.5 && n.run.s.seenScan
    && !n.imu.needInit && n.imu.lastEnd == garbage
  }

  lemma ScanTurns(c: Config, u: Setup, n: Node, x: Scan)
    requires n.run.s.Parallel() && n.imu.iterNum > 0
    ensures var s := n.run.s;
            var s1, s2 := PushScan(s.s1, x.stamp, x.cloud), PushScan(s.s2, x.stamp, x.cloud);
            && Turn(c, u, n, Scan1(x)) == n.(run := n.run.(s := s.(s1 := s1, seenScan := true)))
            && Turn(c, u, n, Scan2(x)) == n.(run := n.run.(s := s.(s2 := s2, seenScan := true)))
  {
    hide Sync, Deliver;
  }

  lemma PollTurns(c: Config, u: Setup, n: Node)
    requires n.run.s.Parallel() && n.imu.iterNum > 0 && Sync(c, n.run.s).ready
    ensures var b, r := Sync(c, n.run.s).state.meas, Turn(c, u, n, Poll);
            r.run.bundles == n.run.bundles + [b] && r.run.s == Sync(c, n.run.s).state
            && r == Deliver(u, n.(run := r.run), b)
  {
    hide Sync, Deliver;
  }

  /** Nothing waits, and neither mean is known yet. */
  ghost predicate Idle(s: SyncState, t: real) {
    && !s.pushed && s.s1.times == s.s2.times == [] && s.s1.clouds == s.s2.clouds == []
    && s.s1.lastStamp <= t && s.s2.lastStamp <= t && s.s1.meanScan == s.s2.meanScan == 0.0
  }

  lemma ScansQueue(c: Config, u: Setup, garbage: real, evs: seq<Event>, t: real, x: Cloud, y: Cloud)
    requires Idle(NodeAfter(c, u, garbage, evs).run.s, t)
    ensures var n, r := NodeAfter(c, u, garbage, evs),
                        NodeAfter(c, u, garbage, evs + [Scan1(Scan(t, x))] + [Scan2(Scan(t, y))]);
            && OnePair(r.run.s, t, x, y) && r == n.(run := n.run.(s := r.run.s))
            && r.run.s.imu == n.run.s.imu && r.run.s.lastImu == n.run.s.lastImu
            && r.run.s.s1.scanNum == n.run.s.s1.scanNum && r.run.s.s2.scanNum == n.run.s.s2.scanNum
  {
    var n, e1, e2 := NodeAfter(c, u, garbage, evs), Scan1(Scan(t, x)), Scan2(Scan(t, y));
    NodeNext(c, u, garbage, evs, e1);
    NodeNext(c, u, garbage, evs + [e1], e2);
    hide Turn, NodeAfter;
    ScanTurns(c, u, n, Scan(t, x));
    ScanTurns(c, u, NodeAfter(c, u, garbage, evs + [e1]), Scan(t, y));
  }

  lemma BeforeFirstPoll(c: Config, u: Setup, garbage: real)
    ensures var evs := [Scan1(Scan(1.0, []))] + [Scan2(Scan(1.0, []))];
            var n := NodeAfter(c, u, garbage, evs + Copies(ImuMsg(Still(0.5)), 10) + [ImuMsg(Still(1.5))]);
            && OnePair(n.run.s, 1.0, [], []) && n.run.s.imu == Copies(Still(0.5), 10) + [Still(1.5)]
            && n.run.s.lastImu == 1.5 && n.run.s.s1.scanNum == n.run.s.s2.scanNum == 0 && n.imu == Fresh(u, garbage)
  {
    hide Turn, Fresh;
    var e1, e2, m := Scan1(Scan(1.0, [])), Scan2(Scan(1.0, [])), Still(0.5);
    var evs := [e1] + [e2];
    assert [] + [e1] + [e2] == evs;
    assert Idle(NodeAfter(c, u, garbage, []).run.s, 1.0);
    ScansQueue(c, u, garbage, [], 1.0, [], []);
    var n := NodeAfter(c, u, garbage, evs);
    assert n.run.s.imu == [] && n.run.s.lastImu == -1.0 && n.imu == Fresh(u, garbage);
    hide NodeAfter;
    SamplesQueue(c, u, garbage, evs, m, 10);
    var more := evs + Copies(ImuMsg(m), 10);
    NodeNext(c, u, garbage, more, ImuMsg(Still(1.5)));
    SampleQueues(c, u, NodeAfter(c, u, garbage, more), Still(1.5));
  }

  lemma OpeningEnds(c: Config, u: Setup, garbage: real)
    requires c.skew >= 0.0
    ensures Opened(NodeAfter(c, u, garbage, Opening()), garbage)
  {
    var evs := [Scan1(Scan(1.0, []))] + [Scan2(Scan(1.0, []))] + Copies(ImuMsg(Still(0.5)), 10) + [ImuMsg(Still(1.5))];
    BeforeFirstPoll(c, u, garbage);
    NodeNext(c, u, garbage, evs, Poll);
    hide NodeAfter, Turn;
    var n := NodeAfter(c, u, garbage, evs);
    TakeCopies(Still(0.5), 10, Still(1.5), 1.0);
    hide Take;
    PairIsEmitted(c, n.run.s, 1.0, [], [], 10);
    PollTurns(c, u, n);
    hide Sync, OnePair;
    var o := Sync(c, n.run.s);
    assert o.state.imu == [Still(1.5)] && |o.state.meas.imu| == 10;
    hide Means, Covs;
  }

  lemma BeforeSecondPoll(c: Config, u: Setup, garbage: real)
    requires c.skew >= 0.0
    ensures var n := NodeAfter(c, u, garbage, Second());
            && OnePair(n.run.s, 3.0, [At(100.0), At(200.0)], [At(150.0)])
            && n.run.s.imu == [Still(1.5), Still(3.15), Still(3.5)] && n.run.s.lastImu == 3.5
            && n.run.s.s1.scanNum == n.run.s.s2.scanNum == 0 && !n.imu.needInit && n.imu.lastEnd == garbage
  {
    OpeningEnds(c, u, garbage);
    hide Turn, NodeAfter, Opening;
    var x, y := [At(100.0), At(200.0)], [At(150.0)];
    ScansQueue(c, u, garbage, Opening(), 3.0, x, y);
    var evs := Opening() + [Scan1(Scan(3.0, x))] + [Scan2(Scan(3.0, y))];
    NodeNext(c, u, garbage, evs, ImuMsg(Still(3.15)));
    SampleQueues(c, u, NodeAfter(c, u, garbage, evs), Still(3.15));
    NodeNext(c, u, garbage, evs + [ImuMsg(Still(3.15))], ImuMsg(Still(3.5)));
    SampleQueues(c, u, NodeAfter(c, u, garbage, evs + [ImuMsg(Still(3.15))]), Still(3.5));
  }

  /** The point with which the sorted first cloud begins is compensated from the second pose,
      and what comes of that again from the first; so it is handed on. */
  ghost predicate MovedTwice(u: Setup, s: ImuState, kf: Filter, b: Bundle, out: Cloud) {
    var p, c := Propagated(u, s, kf, b), u.sorted(b.lidar);
    && c != [] && out != [] && |p.poses| == 3
    && HeadsBefore(p.poses, 2, c[0]) == 2 && !TreatedAlike(p.poses, p.kf, c[0])
    && out[0] == Moved(u.moved, p.poses, 0, p.kf, Moved(u.moved, p.poses, 1, p.kf, c[0]))
  }

  lemma TwoHeads(u: Setup, s: ImuState, kf: Filter, b: Bundle)
    requires b.imu == [Still(1.5), Still(3.15)] && b.begin1 == b.begin2 == 3.0 && s.lastEnd <= 1.5
    ensures var p := Propagated(u, s, kf, b);
            |p.poses| == 3 && HeadsBefore(p.poses, 2, At(100.0)) == 2 && !TreatedAlike(p.poses, p.kf, At(100.0))
  {
    assert Used(b.imu, 1, s.lastEnd) == [1.5];
    assert Used(b.imu, 2, s.lastEnd) == [1.5, 3.15];
    assert HeadTimes(b, s.lastEnd) == [3.0, 1.5];
    assert Earlier([3.0, 1.5], 1, 3.1) == 1;
    assert Earlier([3.0, 1.5], 2, 3.1) == 2;
    PoseTimes(u, s, b.imu, 2, b.Start(), kf);
    assert |Propagated(u, s, kf, b).poses| == 3;
    hide Propagated, TreatedAlike, HeadsBefore;
    FirstPointInBundle(u, s, kf, b, At(100.0));
  }

  /** Sorting leaves two points of different times in the order they have. */
  lemma SortedStays(f: Cloud -> Cloud, p: Point, q: Point)
    requires Sorts(f) && p.curvature < q.curvature
    ensures f([p, q]) == [p, q]
  {
    var c, r := [p, q], f([p, q]);
    assert ByTime(r) && |r| == 2 && multiset(r) == multiset(c);
    assert r == [r[0], r[1]] && r[0] in multiset(r) && r[1] in multiset(r);
    assert p in multiset(r) && q in multiset(r);
    assert r[0] in c && r[1] in c;
  }

  lemma MovedAgain(f: Compensation, poses: seq<Pose>, end: Filter, p: Point)
    requires |poses| == 3 && HeadsBefore(poses, 2, p) == 2
    ensures Again(f, poses, 2, end, p) == Moved(f, poses, 0, end, Moved(f, poses, 1, end, p))
  {
    var q := Moved(f, poses, 1, end, p);
    assert HeadsBefore(poses, 2, p) == HeadsBefore(poses, 1, p) + if Undistortion.After(p, poses[1]) then 1 else 0;
    assert HeadsBefore(poses, 1, p) == if Undistortion.After(p, poses[0]) then 1 else 0;
    assert Again(f, poses, 2, end, p) == Again(f, poses, 1, end, q);
    assert Again(f, poses, 1, end, q) == Moved(f, poses, 0, end, q);
  }

  /** What is handed on begins with the sorted first cloud's first point, moved. */
  lemma HandedOn(u: Setup, n: Node, b: Bundle)
    requires n.imu.iterNum > 0 && !n.imu.needInit && b.imu != [] && b.lidar2 != [] && b.lidar != []
    requires u.sorted(b.lidar) != []
    ensures var p, r := Propagated(u, n.imu, n.kf, b), Deliver(u, n, b);
            r.out != [] && r.out[0] == Again(u.moved, p.poses, |p.poses| - 1, p.kf, u.sorted(b.lidar)[0])
  {
    hide Propagated, Elapsed, Again;
  }

  lemma MovedTwiceInBundle(u: Setup, n: Node, b: Bundle)
    requires n.imu.iterNum > 0 && !n.imu.needInit && n.imu.lastEnd <= 1.5 && Sorts(u.sorted)
    requires b.imu == [Still(1.5), Still(3.15)] && b.begin1 == b.begin2 == 3.0
    requires b.lidar == [At(100.0), At(200.0)] && b.lidar2 != []
    ensures MovedTwice(u, n.imu, n.kf, b, Deliver(u, n, b).out)
  {
    TwoHeads(u, n.imu, n.kf, b);
    SortedStays(u.sorted, At(100.0), At(200.0));
    HandedOn(u, n, b);
    hide Sorts, Deliver, Propagated, TreatedAlike, Again, HeadsBefore, Moved;
    var p := Propagated(u, n.imu, n.kf, b);
    MovedAgain(u.moved, p.poses, p.kf, At(100.0));
  }

  lemma MarkAdded(u: Setup, n: Node, b: Bundle)
    requires n.imu.iterNum > 0 && !n.imu.needInit && b.imu != []
    ensures |Deliver(u, n, b).marks| == |n.marks| + 1
  {
    hide Propagated, Undistorted, Elapsed;
  }

  lemma SecondBundle(c: Config, s: SyncState)
    requires OnePair(s, 3.0, [At(100.0), At(200.0)], [At(150.0)]) && c.skew >= 0.0
    requires s.imu == [Still(1.5), Still(3.15), Still(3.5)] && s.lastImu == 3.5 && s.s1.scanNum == s.s2.scanNum == 0
    ensures s.Parallel() && Sync(c, s).ready
    ensures var b := Sync(c, s).state.meas;
            && b.imu == [Still(1.5), Still(3.15)] && b.begin1 == b.begin2 == 3.0
            && b.lidar == [At(100.0), At(200.0)] && b.lidar2 != []
  {
    SecondCut(s.imu);
    hide Take;
    PairIsEmitted(c, s, 3.0, [At(100.0), At(200.0)], [At(150.0)], 2);
    hide Sync;
    assert s.imu[..2] == [Still(1.5), Still(3.15)];
  }

  /** This run's second bundle is propagated, and in the cloud handed on the first point has
      been moved twice.  The end time that memory held at the start only has to be some time in
      the past. */
  lemma FirstPointMovedTwice(c: Config, u: Setup, garbage: real) returns (b: Bundle)
    requires c.skew >= 0.0 && garbage <= 1.5 && Sorts(u.sorted)
    ensures var n, r := NodeAfter(c, u, garbage, Second()), NodeAfter(c, u, garbage, Second() + [Poll]);
            && r.run.bundles == n.run.bundles + [b] && |r.marks| == |n.marks| + 1
            && MovedTwice(u, n.imu, n.kf, b, r.out)
  {
    var n := NodeAfter(c, u, garbage, Second());
    BeforeSecondPoll(c, u, garbage);
    NodeNext(c, u, garbage, Second(), Poll);
    hide NodeAfter, Turn, Second, Deliver, MovedTwice, Sync, Sorts;
    SecondBundle(c, n.run.s);
    hide OnePair;
    PollTurns(c, u, n);
    b := Sync(c, n.run.s).state.meas;
    var m := n.(run := NodeAfter(c, u, garbage, Second() + [Poll]).run);
    MovedTwiceInBundle(u, m, b);
    MarkAdded(u, m, b);
  }

  lemma SecondCut(imu: seq<Imu>)
    requires imu == [Still(1.5), Still(3.15), Still(3.5)]
    ensures Take(imu, 1.5, 3.2, 3.0) == 2
  {
    assert imu[1..] == [Still(3.15), Still(3.5)] && imu[1..][1..] == [Still(3.5)];
    assert Take([Still(3.5)], 3.15, 3.2, 3.0) == 0;
    assert Take([Still(3.15), Still(3.5)], 1.5, 3.2, 3.0) == 1;
  }
}
