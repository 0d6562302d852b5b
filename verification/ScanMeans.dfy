/** The mean scan times of sync_packages: in every run the averages of the scans counted. */
module ScanMeans {
  import opened Basics
  import opened Synchroniser
  import opened SyncRuns
  import opened Undistortion

  function Duration(cloud: Cloud): real {
    if cloud == [] then 0.0 else cloud[|cloud| - 1].curvature / 1000.0
  }

  function Sum(a: seq<real>): real {
    if a == [] then 0.0 else Sum(a[..|a| - 1]) + a[|a| - 1]
  }

  /** A scan of at least two points and half the mean duration is counted. */
  predicate Counts(mean: real, cloud: Cloud) {
    |cloud| > 1 && Duration(cloud) >= 0.5 * mean
  }

  /** The two clouds that a poll latches, as the callbacks queued them. */
  function NewPair(c: Config, s: SyncState): Option<(Cloud, Cloud)>
    requires s.Parallel()
  {
    var d := Drops(s.s1.times, s.s2.times, c.skew);
    if s.pushed || s.imu == [] || d.0 == |s.s1.clouds| || d.1 == |s.s2.clouds| then None
    else Some((s.s1.clouds[d.0], s.s2.clouds[d.1]))
  }

  function WithScan(spans: seq<real>, mean: real, cloud: Cloud): seq<real> {
    if Counts(mean, cloud) then spans + [Duration(cloud)] else spans
  }

  /** The durations a run has counted for one lidar: of each latched scan, if it counts. */
  function Counted(c: Config, evs: seq<Event>, first: bool): seq<real> {
    if evs == [] then []
    else
      var before, s := Counted(c, evs[..|evs| - 1], first), SyncRuns.After(c, evs[..|evs| - 1]).s;
      var pair := if evs[|evs| - 1].Poll? then NewPair(c, s) else None;
      if pair.None? then before
      else if first then WithScan(before, s.s1.meanScan, pair.value.0)
      else WithScan(before, s.s2.meanScan, pair.value.1)
  }

  /** The mean before the first span is 0. */
  ghost predicate IsMean(s: Stream, spans: seq<real>) {
    && s.scanNum == |spans| && s.meanScan * |spans| as real == Sum(spans)
    && (spans == [] ==> s.meanScan == 0.0)
  }

  lemma SumSnoc(a: seq<real>, x: real)
    ensures Sum(a + [x]) == Sum(a) + x
  {
    assert (a + [x])[..|a|] == a;
  }

  /** One scan's end: a counted scan ends with its last point, in order of time its latest, and
      enters the mean; any other ends one mean after its start. */
  lemma ScanEnds(mean: real, num: nat, cloud: Cloud, begin: real)
    ensures var e := Ended(mean, num, cloud, begin);
            if Counts(mean, cloud)
            then e.num == num + 1 && e.mean * e.num as real == mean * num as real + Duration(cloud)
                 && e.end == begin + cloud[|cloud| - 1].curvature / 1000.0
                 && (ByTime(cloud) ==> forall i :: 0 <= i < |cloud| ==> begin + cloud[i].curvature / 1000.0 <= e.end)
            else e.num == num && e.mean == mean && e.end == begin + mean
  {
    var e := Ended(mean, num, cloud, begin);
    if e.num != num {
      Nudge(mean, Duration(cloud), (num + 1) as real);
    }
  }

  /** What a latched scan does to the mean of its lidar. */
  ghost predicate Tallied(s: Stream, t: Stream, cloud: Cloud) {
    if Counts(s.meanScan, cloud)
    then t.scanNum == s.scanNum + 1 && t.meanScan * t.scanNum as real
      == s.meanScan * s.scanNum as real + Duration(cloud)
    else Untouched(s, t)
  }

  ghost predicate Untouched(s: Stream, t: Stream) {
    t.scanNum == s.scanNum && t.meanScan == s.meanScan
  }

  lemma LatchTallies(c: Config, s: SyncState)
    requires s.Parallel() && s.s1.times != [] && s.s2.times != []
    ensures var t := Latch(c, s);
            Tallied(s.s1, t.s1, s.s1.clouds[0]) && Tallied(s.s2, t.s2, s.s2.clouds[0])
  {
    var x, y := s.s1.clouds[0], Transformed(c.lidar2ToLidar1, s.s2.clouds[0]);
    ScanEnds(s.s1.meanScan, s.s1.scanNum, x, s.s1.times[0]);
    ScanEnds(s.s2.meanScan, s.s2.scanNum, y, s.s2.times[0]);
    assert Duration(y) == Duration(s.s2.clouds[0]) && |y| == |s.s2.clouds[0]|;
    hide Ended, Transformed, Rebased, Duration;
  }

  lemma EmitLeavesMeans(l: SyncState)
    requires l.Parallel() && l.s1.times != [] && l.s2.times != [] && l.imu != []
    ensures Untouched(l.s1, Emit(l).s1) && Untouched(l.s2, Emit(l).s2)
  {
    hide Take;
  }

  lemma PrepareTallies(c: Config, s: SyncState)
    requires s.Parallel() && s.imu != []
    ensures var t := Prepare(c, s).state;
            match NewPair(c, s)
            case None => Untouched(s.s1, t.s1) && Untouched(s.s2, t.s2)
            case Some(p) => Tallied(s.s1, t.s1, p.0) && Tallied(s.s2, t.s2, p.1)
  {
    hide Drops, Latch, Counts;
    if s.pushed {
      PrepareLatched(c, s);
    } else {
      PrepareUnfolds(c, s);
      var d := Drops(s.s1.times, s.s2.times, c.skew);
      var x := s.(s1 := Dropped(s.s1, d.0), s2 := Dropped(s.s2, d.1));
      hide Prepare;
      if NewPair(c, s).Some? {
        LatchTallies(c, x);
      }
    }
  }

  /** A poll does nothing, or prepares, or prepares and emits. */
  lemma SyncCases(c: Config, s: SyncState)
    requires s.Parallel()
    ensures var t, p := Sync(c, s).state, Prepare(c, s);
            if s.s1.clouds == [] || s.s2.clouds == [] || s.imu == [] then t == s
            else t == p.state || (p.ready && p.state.imu != [] && t == Emit(p.state))
  {
    hide Prepare, Emit;
  }

  lemma NoPair(c: Config, s: SyncState)
    requires s.Parallel() && (s.s1.clouds == [] || s.s2.clouds == [] || s.imu == [])
    ensures NewPair(c, s).None?
  {
    hide Drops;
  }

  lemma SameTallied(s: Stream, t: Stream, u: Stream, cloud: Cloud)
    requires Untouched(t, u)
    ensures Tallied(s, t, cloud) ==> Tallied(s, u, cloud)
    ensures Untouched(s, t) ==> Untouched(s, u)
  {
    hide Counts, Duration;
  }

  /** What one poll does to the means. */
  lemma PollTallies(c: Config, s: SyncState)
    requires s.Parallel()
    ensures var t := Sync(c, s).state;
            match NewPair(c, s)
            case None => Untouched(s.s1, t.s1) && Untouched(s.s2, t.s2)
            case Some(p) => Tallied(s.s1, t.s1, p.0) && Tallied(s.s2, t.s2, p.1)
  {
    SyncCases(c, s);
    hide Sync, Prepare, Emit, Tallied, NewPair;
    if s.s1.clouds == [] || s.s2.clouds == [] || s.imu == [] {
      NoPair(c, s);
      return;
    }
    PrepareTallies(c, s);
    var p, t := Prepare(c, s).state, Sync(c, s).state;
    if t != p {
      EmitLeavesMeans(p);
      hide Untouched;
      var pair := if NewPair(c, s).Some? then NewPair(c, s).value else ([], []);
      SameTallied(s.s1, p.s1, t.s1, pair.0);
      SameTallied(s.s2, p.s2, t.s2, pair.1);
    }
  }

  lemma TalliedKeeps(s: Stream, t: Stream, cloud: Cloud, spans: seq<real>)
    requires IsMean(s, spans) && Tallied(s, t, cloud)
    ensures IsMean(t, WithScan(spans, s.meanScan, cloud))
  {
    SumSnoc(spans, Duration(cloud));
    hide Sum, Duration, Counts;
  }

  lemma CallbackLeavesMeans(c: Config, r: Run, e: Event)
    requires r.s.Parallel() && !e.Poll?
    ensures Untouched(r.s.s1, Step(c, r, e).s.s1) && Untouched(r.s.s2, Step(c, r, e).s.s2)
  {
    hide Sync;
  }

  /** In every run, whatever the clocks do: the mean scan time of each lidar is the average of
      the durations counted for it. */
  lemma {:induction false} MeansAreAverages(c: Config, evs: seq<Event>)
    ensures IsMean(SyncRuns.After(c, evs).s.s1, Counted(c, evs, true))
    ensures IsMean(SyncRuns.After(c, evs).s.s2, Counted(c, evs, false))
  {
    if evs == [] {
      return;
    }
    hide Sync, Step, NewPair, WithScan, Tallied, IsMean;
    var before, e := evs[..|evs| - 1], evs[|evs| - 1];
    MeansAreAverages(c, before);
    var r := SyncRuns.After(c, before);
    var x, y := Counted(c, before, true), Counted(c, before, false);
    if !e.Poll? {
      CallbackLeavesMeans(c, r, e);
      MeanStays(r.s.s1, SyncRuns.After(c, evs).s.s1, x);
      MeanStays(r.s.s2, SyncRuns.After(c, evs).s.s2, y);
    } else {
      PollUnfolds(c, r);
      PollTallies(c, r.s);
      PollKeepsMeans(c, r.s, Sync(c, r.s).state, x, y);
    }
  }

  lemma MeanStays(s: Stream, t: Stream, spans: seq<real>)
    requires IsMean(s, spans) && Untouched(s, t)
    ensures IsMean(t, spans)
  {
  }

  lemma PollKeepsMeans(c: Config, s: SyncState, t: SyncState, x: seq<real>, y: seq<real>)
    requires s.Parallel() && IsMean(s.s1, x) && IsMean(s.s2, y)
    requires match NewPair(c, s)
             case None => Untouched(s.s1, t.s1) && Untouched(s.s2, t.s2)
             case Some(p) => Tallied(s.s1, t.s1, p.0) && Tallied(s.s2, t.s2, p.1)
    ensures match NewPair(c, s)
            case None => IsMean(t.s1, x) && IsMean(t.s2, y)
            case Some(p) =>
              && IsMean(t.s1, WithScan(x, s.s1.meanScan, p.0))
              && IsMean(t.s2, WithScan(y, s.s2.meanScan, p.1))
  {
    hide NewPair, WithScan, Tallied, IsMean, Untouched;
    match NewPair(c, s)
    case None =>
      MeanStays(s.s1, t.s1, x);
      MeanStays(s.s2, t.s2, y);
    case Some(p) =>
      TalliedKeeps(s.s1, t.s1, p.0, x);
      TalliedKeeps(s.s2, t.s2, p.1, y);
  }
}
