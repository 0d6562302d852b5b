/** Whole runs of the synchroniser: callbacks and polls in any order. */
module SyncRuns {
  import opened Basics
  import opened OfflineMatch
  import opened Synchroniser

  datatype Event = Scan1(scan: Scan) | Scan2(scan: Scan) | ImuMsg(imu: Imu) | Poll

  /** The state after a run with what it emitted: the bundles, for each the positions of its
      two scans in their streams, and how many scans of each stream are used up. */
  datatype Run = Run(s: SyncState, bundles: seq<Bundle>, pairs: Pairs, n1: nat, n2: nat)

  function Step(c: Config, r: Run, e: Event): (r': Run)
    requires r.s.Parallel()
    ensures r'.s.Parallel()
  {
    match e
    case Scan1(x) => r.(s := r.s.(s1 := PushScan(r.s.s1, x.stamp, x.cloud), seenScan := true))
    case Scan2(x) => r.(s := r.s.(s2 := PushScan(r.s.s2, x.stamp, x.cloud), seenScan := true))
    case ImuMsg(m) => r.(s := PushImu(r.s, m))
    case Poll =>
      var o := Sync(c, r.s);
      var m1, m2 := r.n1 + o.drops.0, r.n2 + o.drops.1;
      if o.ready then Run(o.state, r.bundles + [o.state.meas], r.pairs + [(m1, m2)], m1 + 1, m2 + 1)
      else Run(o.state, r.bundles, r.pairs, m1, m2)
  }

  lemma PollUnfolds(c: Config, r: Run)
    requires r.s.Parallel()
    ensures var o, t := Sync(c, r.s), Step(c, r, Poll);
            t.s == o.state && t.bundles == if o.ready then r.bundles + [o.state.meas] else r.bundles
  {
    hide Sync;
  }

  function After(c: Config, evs: seq<Event>): (r: Run)
    ensures r.s.Parallel()
  {
    if evs == [] then Run(Initial(), [], [], 0, 0)
    else Step(c, After(c, evs[..|evs| - 1]), evs[|evs| - 1])
  }

  /** The scans a stream has delivered. */
  function Scans(evs: seq<Event>, first: bool): seq<Scan> {
    if evs == [] then []
    else
      var e, before := evs[|evs| - 1], Scans(evs[..|evs| - 1], first);
      if (first && e.Scan1?) || (!first && e.Scan2?) then before + [e.scan] else before
  }

  function Stamps(a: seq<Scan>): (r: seq<real>)
    ensures |r| == |a| && forall i :: 0 <= i < |a| ==> r[i] == a[i].stamp
  {
    seq(|a|, i requires 0 <= i < |a| => a[i].stamp)
  }

  /** A sample of a sensor at rest. */
  function Still(stamp: real): Imu { Imu(stamp, Vec3(0.0, 0.0, 0.0), Vec3(0.0, 0.0, 0.0)) }

  /** No clock of a lidar ever runs backwards. */
  ghost predicate ReversalFree(evs: seq<Event>) {
    Sorted(Stamps(Scans(evs, true))) && Sorted(Stamps(Scans(evs, false)))
  }

  // ---------------------------------------------------------------- what a run keeps

  /** The queue holds exactly the scans not used up; the front may already be rebased. */
  ghost predicate StreamTracks(s: Stream, a: seq<Scan>, n: nat, pushed: bool) {
    && n <= |a| && |s.times| == |s.clouds| == |a| - n
    && (forall k :: 0 <= k < |s.times| ==> s.times[k] == a[n + k].stamp)
    && (forall k :: (if pushed then 1 else 0) <= k < |s.clouds| ==> s.clouds[k] == a[n + k].cloud)
    && (a != [] ==> s.lastStamp == a[|a| - 1].stamp)
  }

  /** A bundle made of two scans: every point keeps its place and its time of measurement;
      the points of the second lidar are moved to the first one's frame, once. */
  ghost predicate MadeOf(c: Config, b: Bundle, x: Scan, y: Scan) {
    && b.begin1 == x.stamp && b.begin2 == y.stamp && |b.lidar| == |x.cloud| && |b.lidar2| == |y.cloud|
    && (forall p :: 0 <= p < |x.cloud| ==>
          && b.lidar[p].pos == x.cloud[p].pos
          && b.Start() + b.lidar[p].curvature / 1000.0 == x.stamp + x.cloud[p].curvature / 1000.0)
    && (forall p :: 0 <= p < |y.cloud| ==>
          && b.lidar2[p].pos == c.lidar2ToLidar1(y.cloud[p].pos)
          && b.Start() + b.lidar2[p].curvature / 1000.0 == y.stamp + y.cloud[p].curvature / 1000.0)
  }

  ghost predicate Latched(c: Config, s: SyncState, x: Scan, y: Scan) {
    && Abs(x.stamp - y.stamp) <= c.skew && MadeOf(c, s.meas, x, y)
    && s.meas.end1 == s.s1.endTime && s.meas.end2 == s.s2.endTime
  }

  ghost predicate StateTracks(c: Config, s: SyncState, a: seq<Scan>, n1: nat, b: seq<Scan>, n2: nat) {
    && StreamTracks(s.s1, a, n1, s.pushed) && StreamTracks(s.s2, b, n2, s.pushed)
    && (s.pushed ==> n1 < |a| && n2 < |b| && Latched(c, s, a[n1], b[n2]))
  }

  ghost predicate Tracks(c: Config, r: Run, a: seq<Scan>, b: seq<Scan>) {
    && StateTracks(c, r.s, a, r.n1, b, r.n2)
    && |r.bundles| == |r.pairs|
    && (forall k :: 0 <= k < |r.pairs| ==>
          r.pairs[k].0 < r.n1 && r.pairs[k].1 < r.n2 && MadeOf(c, r.bundles[k], a[r.pairs[k].0], b[r.pairs[k].1]))
  }

  lemma PushTracks(s: Stream, a: seq<Scan>, n: nat, pushed: bool, x: Scan)
    requires StreamTracks(s, a, n, pushed) && Sorted(Stamps(a + [x]))
    ensures StreamTracks(PushScan(s, x.stamp, x.cloud), a + [x], n, pushed)
  {
    if a != [] {
      assert Stamps(a + [x])[|a| - 1] <= Stamps(a + [x])[|a|];
    }
  }

  /** The dropping loop ends at two heads in reach, or with an empty queue. */
  lemma {:induction false} DropsReachAPair(t1: seq<real>, t2: seq<real>, skew: real)
    ensures var d := Drops(t1, t2, skew);
            d.0 < |t1| && d.1 < |t2| ==> Abs(t1[d.0] - t2[d.1]) <= skew
    decreases |t1| + |t2|
  {
    if t1 != [] && t2 != [] && Abs(t1[0] - t2[0]) > skew {
      if t1[0] < t2[0] {
        DropsReachAPair(t1[1..], t2, skew);
      } else {
        DropsReachAPair(t1, t2[1..], skew);
      }
    }
  }

  lemma DropKeepsTrack(s: Stream, a: seq<Scan>, n: nat, d: nat)
    requires StreamTracks(s, a, n, false) && d <= |s.times|
    ensures StreamTracks(Dropped(s, d), a, n + d, false)
  {
  }

  lemma PopKeepsTrack(s: Stream, a: seq<Scan>, n: nat)
    requires StreamTracks(s, a, n, true) && s.times != []
    ensures StreamTracks(Dropped(s, 1), a, n + 1, false)
  {
  }

  lemma LatchTracks(c: Config, s: SyncState, x: Scan, y: Scan)
    requires s.Parallel() && s.s1.times != [] && s.s2.times != []
    requires s.s1.times[0] == x.stamp && s.s1.clouds[0] == x.cloud
    requires s.s2.times[0] == y.stamp && s.s2.clouds[0] == y.cloud
    requires Abs(x.stamp - y.stamp) <= c.skew
    ensures Latched(c, Latch(c, s), x, y)
  {
  }

  lemma LatchKeepsTrack(c: Config, s: SyncState, a: seq<Scan>, n1: nat, b: seq<Scan>, n2: nat)
    requires s.Parallel() && s.s1.times != [] && s.s2.times != []
    requires StreamTracks(s.s1, a, n1, false) && StreamTracks(s.s2, b, n2, false)
    ensures StreamTracks(Latch(c, s).s1, a, n1, true) && StreamTracks(Latch(c, s).s2, b, n2, true)
  {
  }

  lemma PrepareTracks(c: Config, s: SyncState, a: seq<Scan>, n1: nat, b: seq<Scan>, n2: nat)
    requires s.Parallel() && StateTracks(c, s, a, n1, b, n2)
    ensures var p := Prepare(c, s);
            && StateTracks(c, p.state, a, n1 + p.drops.0, b, n2 + p.drops.1)
            && (p.ready ==> p.state.pushed)
  {
    if s.pushed {
      PrepareLatched(c, s);
    } else {
      PrepareUnlatched(c, s, a, n1, b, n2);
    }
  }

  lemma PrepareLatched(c: Config, s: SyncState)
    requires s.Parallel() && s.pushed
    ensures Prepare(c, s).state == s && Prepare(c, s).drops == (0, 0)
  {
    assert Dropped(s.s1, 0) == s.s1 && Dropped(s.s2, 0) == s.s2;
  }

  lemma PrepareUnlatched(c: Config, s: SyncState, a: seq<Scan>, n1: nat, b: seq<Scan>, n2: nat)
    requires s.Parallel() && !s.pushed && StreamTracks(s.s1, a, n1, false) && StreamTracks(s.s2, b, n2, false)
    ensures var p := Prepare(c, s);
            && StateTracks(c, p.state, a, n1 + p.drops.0, b, n2 + p.drops.1)
            && (p.ready ==> p.state.pushed)
  {
    hide Drops, Prepare, Latch, Dropped, StreamTracks, StateTracks;
    var d := Drops(s.s1.times, s.s2.times, c.skew);
    DropsTrack(s, a, n1, b, n2, c.skew);
    PrepareUnfolds(c, s);
    var x := s.(s1 := Dropped(s.s1, d.0), s2 := Dropped(s.s2, d.1));
    if x.s1.times != [] && x.s2.times != [] {
      NewLatchTracks(c, x, a, n1 + d.0, b, n2 + d.1);
    } else {
      UnlatchedTracks(c, x, a, n1 + d.0, b, n2 + d.1);
    }
  }

  lemma PrepareUnfolds(c: Config, s: SyncState)
    requires s.Parallel() && !s.pushed
    ensures var d := Drops(s.s1.times, s.s2.times, c.skew);
            var x := s.(s1 := Dropped(s.s1, d.0), s2 := Dropped(s.s2, d.1));
            && x.Parallel()
            && Prepare(c, s) == if x.s1.times == [] || x.s2.times == [] then SyncResult(x, false, d)
                                else SyncResult(Latch(c, x), true, d)
  {
    hide Drops, Latch;
  }

  lemma UnlatchedTracks(c: Config, s: SyncState, a: seq<Scan>, n1: nat, b: seq<Scan>, n2: nat)
    requires !s.pushed && StreamTracks(s.s1, a, n1, false) && StreamTracks(s.s2, b, n2, false)
    ensures StateTracks(c, s, a, n1, b, n2)
  {
    hide StreamTracks;
  }

  lemma DropsTrack(s: SyncState, a: seq<Scan>, n1: nat, b: seq<Scan>, n2: nat, skew: real)
    requires s.Parallel() && StreamTracks(s.s1, a, n1, false) && StreamTracks(s.s2, b, n2, false)
    ensures var d := Drops(s.s1.times, s.s2.times, skew);
            var x, y := Dropped(s.s1, d.0), Dropped(s.s2, d.1);
            && StreamTracks(x, a, n1 + d.0, false) && StreamTracks(y, b, n2 + d.1, false)
            && |x.clouds| == |x.times| && |y.clouds| == |y.times|
            && (x.times != [] && y.times != [] ==> Abs(x.times[0] - y.times[0]) <= skew)
  {
    var d := Drops(s.s1.times, s.s2.times, skew);
    DropKeepsTrack(s.s1, a, n1, d.0);
    DropKeepsTrack(s.s2, b, n2, d.1);
    DropsReachAPair(s.s1.times, s.s2.times, skew);
    hide Drops, StreamTracks;
  }

  lemma NewLatchTracks(c: Config, s: SyncState, a: seq<Scan>, n1: nat, b: seq<Scan>, n2: nat)
    requires s.Parallel() && s.s1.times != [] && s.s2.times != [] && Abs(s.s1.times[0] - s.s2.times[0]) <= c.skew
    requires StreamTracks(s.s1, a, n1, false) && StreamTracks(s.s2, b, n2, false)
    ensures StateTracks(c, Latch(c, s), a, n1, b, n2) && Latch(c, s).pushed
  {
    LatchKeepsTrack(c, s, a, n1, b, n2);
    LatchTracks(c, s, a[n1], b[n2]);
    hide Latched;
  }

  lemma EmitTracks(c: Config, s: SyncState, a: seq<Scan>, n1: nat, b: seq<Scan>, n2: nat)
    requires s.Parallel() && StateTracks(c, s, a, n1, b, n2) && s.pushed && s.imu != []
    ensures StateTracks(c, Emit(s), a, n1 + 1, b, n2 + 1) && MadeOf(c, Emit(s).meas, a[n1], b[n2])
  {
    hide MadeOf, Take;
    PopKeepsTrack(s.s1, a, n1);
    PopKeepsTrack(s.s2, b, n2);
    SameBundle(c, s, Emit(s).meas.imu, a[n1], b[n2]);
  }

  lemma PollTracks(c: Config, r: Run, a: seq<Scan>, b: seq<Scan>)
    requires r.s.Parallel() && Tracks(c, r, a, b)
    ensures Tracks(c, Step(c, r, Poll), a, b)
  {
    hide Prepare, Emit, StateTracks, MadeOf;
    var p := Prepare(c, r.s);
    PrepareTracks(c, r.s, a, r.n1, b, r.n2);
    if p.ready && p.state.imu != [] {
      EmitTracks(c, p.state, a, r.n1 + p.drops.0, b, r.n2 + p.drops.1);
    }
  }

  lemma SameBundle(c: Config, s: SyncState, imu: seq<Imu>, x: Scan, y: Scan)
    requires Latched(c, s, x, y)
    ensures MadeOf(c, s.meas.(imu := imu), x, y)
  {
  }

  /** Every reachable state on reversal-free input. */
  lemma {:induction false} RunTracks(c: Config, evs: seq<Event>)
    requires ReversalFree(evs)
    ensures Tracks(c, After(c, evs), Scans(evs, true), Scans(evs, false))
  {
    if evs != [] {
      var before, e := evs[..|evs| - 1], evs[|evs| - 1];
      PrefixReversalFree(evs);
      RunTracks(c, before);
      var r, a, b := After(c, before), Scans(before, true), Scans(before, false);
      StepTracks(c, r, e, a, b, Scans(evs, true), Scans(evs, false));
    }
  }

  lemma StepTracks(c: Config, r: Run, e: Event, a: seq<Scan>, b: seq<Scan>, a': seq<Scan>, b': seq<Scan>)
    requires r.s.Parallel() && Tracks(c, r, a, b) && Sorted(Stamps(a')) && Sorted(Stamps(b'))
    requires a' == (if e.Scan1? then a + [e.scan] else a) && b' == (if e.Scan2? then b + [e.scan] else b)
    ensures Tracks(c, Step(c, r, e), a', b')
  {
    hide MadeOf, Latched, PushScan, Sync;
    match e
    case Scan1(x) =>
      PushTracks(r.s.s1, a, r.n1, r.s.pushed, x);
      PushKeepsLatched(c, r.s, r.s.(s1 := PushScan(r.s.s1, x.stamp, x.cloud), seenScan := true));
    case Scan2(x) =>
      PushTracks(r.s.s2, b, r.n2, r.s.pushed, x);
      PushKeepsLatched(c, r.s, r.s.(s2 := PushScan(r.s.s2, x.stamp, x.cloud), seenScan := true));
    case ImuMsg(m) =>
      PushKeepsLatched(c, r.s, PushImu(r.s, m));
    case Poll =>
      PollTracks(c, r, a, b);
  }

  lemma PushKeepsLatched(c: Config, s: SyncState, s': SyncState)
    requires s'.meas == s.meas && s'.s1.endTime == s.s1.endTime && s'.s2.endTime == s.s2.endTime
    ensures forall x, y :: Latched(c, s, x, y) ==> Latched(c, s', x, y)
  {
  }

  lemma PrefixReversalFree(evs: seq<Event>)
    requires evs != [] && ReversalFree(evs)
    ensures ReversalFree(evs[..|evs| - 1])
  {
    var before := evs[..|evs| - 1];
    PrefixSorted(Stamps(Scans(before, true)), Stamps(Scans(evs, true)));
    PrefixSorted(Stamps(Scans(before, false)), Stamps(Scans(evs, false)));
  }

  lemma PrefixSorted(s: seq<real>, t: seq<real>)
    requires Sorted(t) && |s| <= |t| && forall i :: 0 <= i < |s| ==> s[i] == t[i]
    ensures Sorted(s)
  {
  }
}
