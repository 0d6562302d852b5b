/** When a bundle ends and when it is emitted, in every run and from the scans as they came. */
module BundleEnds {
  import opened Basics
  import opened Synchroniser
  import opened SyncRuns
  import opened ScanMeans
  import opened LatchRuns

  // ---------------------------------------------------------------- ends

  /** The average of the durations counted so far; 0 before the first. */
  function Average(spans: seq<real>): real {
    if spans == [] then 0.0 else Sum(spans) / |spans| as real
  }

  /** A scan ends with its last point, or one mean after its start if it is too short to count. */
  function EndOf(mean: real, x: Scan): real {
    var n := |x.cloud|;
    if n > 1 && x.cloud[n - 1].curvature / 1000.0 >= 0.5 * mean then x.stamp + x.cloud[n - 1].curvature / 1000.0
    else x.stamp + mean
  }

  /** The end of a scan that is latched by the poll at this position. */
  function EndAt(c: Config, evs: seq<Event>, since: nat, x: Scan, first: bool): real
    requires since <= |evs|
  {
    EndOf(Average(Counted(c, evs[..since], first)), x)
  }

  lemma MeanIsAverage(s: Stream, spans: seq<real>)
    requires IsMean(s, spans)
    ensures s.meanScan == Average(spans)
  {
  }

  lemma EndedIsEndOf(mean: real, num: nat, x: Scan)
    ensures Ended(mean, num, x.cloud, x.stamp).end == EndOf(mean, x)
  {
  }

  /** Transforming a cloud leaves its end alone. */
  lemma EndTransformed(mean: real, f: Vec3 -> Vec3, x: Scan)
    ensures EndOf(mean, x.(cloud := Transformed(f, x.cloud))) == EndOf(mean, x)
  {
  }

  lemma LatchEnds(c: Config, s: SyncState)
    requires s.Parallel() && s.s1.times != [] && s.s2.times != []
    ensures var t := Latch(c, s);
            && t.s1.endTime == t.meas.end1 == EndOf(s.s1.meanScan, Scan(s.s1.times[0], s.s1.clouds[0]))
            && t.s2.endTime == t.meas.end2 == EndOf(s.s2.meanScan, Scan(s.s2.times[0], s.s2.clouds[0]))
  {
    var x, y := Scan(s.s1.times[0], s.s1.clouds[0]), Scan(s.s2.times[0], s.s2.clouds[0]);
    EndedIsEndOf(s.s1.meanScan, s.s1.scanNum, x);
    EndedIsEndOf(s.s2.meanScan, s.s2.scanNum, y.(cloud := Transformed(c.lidar2ToLidar1, y.cloud)));
    EndTransformed(s.s2.meanScan, c.lidar2ToLidar1, y);
    hide Ended, EndOf, Transformed, Rebased;
  }

  // ---------------------------------------------------------------- when a poll emits

  /** The pair that a poll would latch, with its stamps. */
  function FreshPair(c: Config, s: SyncState): Option<(Scan, Scan)>
    requires s.Parallel()
  {
    var d := Drops(s.s1.times, s.s2.times, c.skew);
    if d.0 == |s.s1.clouds| || d.1 == |s.s2.clouds| then None
    else Some((Scan(s.s1.times[d.0], s.s1.clouds[d.0]), Scan(s.s2.times[d.1], s.s2.clouds[d.1])))
  }

  lemma EmitsLatched(c: Config, s: SyncState)
    requires s.Parallel() && s.pushed && s.s1.clouds != [] && s.s2.clouds != []
    ensures Sync(c, s).ready <==> s.imu != [] && s.s1.endTime <= s.lastImu && s.s2.endTime <= s.lastImu
  {
    PrepareLatched(c, s);
    hide Emit, Drops;
  }

  lemma EmitsFresh(c: Config, s: SyncState)
    requires s.Parallel() && !s.pushed
    ensures Sync(c, s).ready <==>
              && s.imu != [] && FreshPair(c, s).Some?
              && EndOf(s.s1.meanScan, FreshPair(c, s).value.0) <= s.lastImu
              && EndOf(s.s2.meanScan, FreshPair(c, s).value.1) <= s.lastImu
  {
    PrepareUnfolds(c, s);
    var d := Drops(s.s1.times, s.s2.times, c.skew);
    var x := s.(s1 := Dropped(s.s1, d.0), s2 := Dropped(s.s2, d.1));
    if x.s1.times != [] && x.s2.times != [] {
      LatchEnds(c, x);
      LatchKeepsClock(c, x);
    }
    hide Prepare, Emit, Drops, Latch, EndOf;
  }

  lemma LatchKeepsClock(c: Config, s: SyncState)
    requires s.Parallel() && s.s1.times != [] && s.s2.times != []
    ensures Latch(c, s).lastImu == s.lastImu
  {
    hide Ended, Transformed, Rebased;
  }

  // ---------------------------------------------------------------- every run

  /** A latched pair ends as its two scans say, with the means there were when it was latched. */
  ghost predicate EndsKept(c: Config, evs: seq<Event>, s: SyncState, g: Tags) {
    s.pushed ==>
      && g.polls.since <= |evs| && Scanned(evs, g.l1.latch, g.l2.latch)
      && s.s1.endTime == s.meas.end1 == EndAt(c, evs, g.polls.since, evs[g.l1.latch].scan, true)
      && s.s2.endTime == s.meas.end2 == EndAt(c, evs, g.polls.since, evs[g.l2.latch].scan, false)
  }

  ghost predicate Scanned(evs: seq<Event>, i: nat, j: nat) {
    i < |evs| && j < |evs| && IsScan(evs[i], true) && IsScan(evs[j], false)
  }

  /** A bundle ends so. */
  ghost predicate EndsWith(c: Config, evs: seq<Event>, b: Bundle, since: nat, i: nat, j: nat) {
    && since <= |evs| && Scanned(evs, i, j)
    && b.end1 == EndAt(c, evs, since, evs[i].scan, true) && b.end2 == EndAt(c, evs, since, evs[j].scan, false)
  }

  ghost predicate AllEnd(c: Config, evs: seq<Event>, bundles: seq<Bundle>, g: Tags) {
    && |bundles| == |g.polls.sinces| == |g.l1.latched| == |g.l2.latched|
    && forall k :: 0 <= k < |bundles| ==>
         EndsWith(c, evs, bundles[k], g.polls.sinces[k], g.l1.latched[k], g.l2.latched[k])
  }

  lemma EndAtStays(c: Config, evs: seq<Event>, e: Event, since: nat, x: Scan, first: bool)
    requires since <= |evs|
    ensures EndAt(c, evs + [e], since, x, first) == EndAt(c, evs, since, x, first)
  {
    hide EndOf, Average, Counted;
    assert (evs + [e])[..since] == evs[..since];
  }

  lemma EndsKeptStays(c: Config, evs: seq<Event>, e: Event, s: SyncState, g: Tags)
    requires EndsKept(c, evs, s, g)
    ensures EndsKept(c, evs + [e], s, g)
  {
    hide EndAt;
    if s.pushed {
      EndAtStays(c, evs, e, g.polls.since, evs[g.l1.latch].scan, true);
      EndAtStays(c, evs, e, g.polls.since, evs[g.l2.latch].scan, false);
    }
  }

  lemma AllEndStays(c: Config, evs: seq<Event>, e: Event, bundles: seq<Bundle>, g: Tags)
    requires AllEnd(c, evs, bundles, g)
    ensures AllEnd(c, evs + [e], bundles, g)
  {
    hide EndAt;
    forall k | 0 <= k < |bundles|
      ensures EndsWith(c, evs + [e], bundles[k], g.polls.sinces[k], g.l1.latched[k], g.l2.latched[k])
    {
      EndAtStays(c, evs, e, g.polls.sinces[k], evs[g.l1.latched[k]].scan, true);
      EndAtStays(c, evs, e, g.polls.sinces[k], evs[g.l2.latched[k]].scan, false);
    }
  }

  lemma CallbackEnds(c: Config, r: Run, g: Tags, e: Event, pos: nat)
    requires r.s.Parallel() && !e.Poll?
    ensures var s, t, h := r.s, Step(c, r, e).s, TagStep(c, r.s, g, e, pos);
            && t.pushed == s.pushed && t.meas == s.meas && t.s1.endTime == s.s1.endTime && t.s2.endTime == s.s2.endTime
            && h.polls == g.polls && h.l1.latch == g.l1.latch && h.l2.latch == g.l2.latch
            && h.l1.latched == g.l1.latched && h.l2.latched == g.l2.latched
            && Step(c, r, e).bundles == r.bundles
  {
    hide Sync, Prepared;
  }

  lemma SameEnds(c: Config, evs: seq<Event>, s: SyncState, t: SyncState, g: Tags, h: Tags, bundles: seq<Bundle>)
    requires EndsKept(c, evs, s, g) && AllEnd(c, evs, bundles, g)
    requires t.pushed == s.pushed && t.meas == s.meas && t.s1.endTime == s.s1.endTime && t.s2.endTime == s.s2.endTime
    requires h.polls == g.polls && h.l1.latch == g.l1.latch && h.l2.latch == g.l2.latch
    requires h.l1.latched == g.l1.latched && h.l2.latched == g.l2.latched
    ensures EndsKept(c, evs, t, h) && AllEnd(c, evs, bundles, h)
  {
    hide EndAt, IsScan, EndsWith;
  }

  /** Latching ends the two scans at the fronts with the means of now. */
  lemma LatchKeepsEnds(c: Config, evs: seq<Event>, s: SyncState, g: Tags)
    requires s.Parallel() && s.s1.times != [] && s.s2.times != [] && evs != []
    requires LaneTracks(s.s1, g.l1, evs, true, false, g.polls) && LaneTracks(s.s2, g.l2, evs, false, false, g.polls)
    requires s.s1.meanScan == Average(Counted(c, evs[..|evs| - 1], true))
    requires s.s2.meanScan == Average(Counted(c, evs[..|evs| - 1], false))
    ensures EndsKept(c, evs, Latch(c, s), Tags(Latching(g.l1), Latching(g.l2), g.polls.(since := |evs| - 1)))
  {
    FrontScan(s.s1, g.l1, evs, true, g.polls);
    FrontScan(s.s2, g.l2, evs, false, g.polls);
    LatchEnds(c, s);
    hide Latch, LaneTracks, EndOf, Average, Counted, IsScan;
  }

  lemma PrepareEnds(c: Config, evs: seq<Event>, s: SyncState, g: Tags)
    requires AtPoll(evs) && StateTags(c, s, g, evs) && EndsKept(c, evs, s, g)
    requires s.s1.meanScan == Average(Counted(c, evs[..|evs| - 1], true))
    requires s.s2.meanScan == Average(Counted(c, evs[..|evs| - 1], false))
    ensures EndsKept(c, evs, Prepare(c, s).state, Prepared(c, s, g, |evs| - 1))
  {
    if s.pushed {
      PrepareLatched(c, s);
      hide Prepare, EndsKept, StateTags;
      assert Shortened(g.l1, 0) == g.l1 && Shortened(g.l2, 0) == g.l2;
    } else {
      PrepareUnfolds(c, s);
      var d := Drops(s.s1.times, s.s2.times, c.skew);
      var x := s.(s1 := Dropped(s.s1, d.0), s2 := Dropped(s.s2, d.1));
      var h := g.(l1 := Shortened(g.l1, d.0), l2 := Shortened(g.l2, d.1));
      LaneDrops(s.s1, g.l1, evs, true, g.polls, d.0);
      LaneDrops(s.s2, g.l2, evs, false, g.polls, d.1);
      if x.s1.times != [] && x.s2.times != [] {
        LatchKeepsEnds(c, evs, x, h);
        hide Drops, Prepare, Latch, LaneTracks, Shortened, Latching, EndsKept, Average, Counted;
      } else {
        hide Drops, Prepare, Latch, LaneTracks, Shortened, Latching, Average, Counted;
      }
    }
  }

  lemma EmitEnds(c: Config, evs: seq<Event>, s: SyncState, g: Tags, bundles: seq<Bundle>, pos: nat)
    requires StateTags(c, s, g, evs) && s.pushed && s.imu != [] && s.s1.times != [] && s.s2.times != []
    requires EndsKept(c, evs, s, g) && AllEnd(c, evs, bundles, g)
    ensures !Emit(s).pushed && AllEnd(c, evs, bundles + [Emit(s).meas], Emitted(g, pos))
  {
    LatchInside(s, g, evs);
    assert g.l1.queue != [] && g.l2.queue != [];
    assert Emit(s).meas.end1 == s.meas.end1 && Emit(s).meas.end2 == s.meas.end2 by {
      hide Take;
    }
    hide EndAt, LaneTracks, Emit, Latched;
    assert EndsWith(c, evs, Emit(s).meas, g.polls.since, g.l1.latch, g.l2.latch);
    hide EndsWith;
  }

  lemma PollEnds(c: Config, evs: seq<Event>, r: Run, g: Tags)
    requires RunTags(c, r, g, evs) && EndsKept(c, evs, r.s, g) && AllEnd(c, evs, r.bundles, g)
    requires r.s.s1.meanScan == Average(Counted(c, evs, true)) && r.s.s2.meanScan == Average(Counted(c, evs, false))
    ensures var t, h, more := Step(c, r, Poll), TagStep(c, r.s, g, Poll, |evs|), evs + [Poll];
            EndsKept(c, more, t.s, h) && AllEnd(c, more, t.bundles, h)
  {
    var s, more := r.s, evs + [Poll];
    PollUnfolds(c, r);
    EndsKeptStays(c, evs, Poll, s, g);
    AllEndStays(c, evs, Poll, r.bundles, g);
    PollStays(c, s, g, evs);
    assert more[..|evs|] == evs;
    hide Step, EndsKept, AllEnd, StateTags, Bundled, Prepared, Average, Counted;
    if s.s1.clouds == [] || s.s2.clouds == [] || s.imu == [] {
      return;
    }
    PrepareEnds(c, more, s, g);
    PrepareTags(c, s, g, more);
    var p, h := Prepare(c, s), Prepared(c, s, g, |evs|);
    PreparedKeeps(c, s, g, more, r.bundles);
    hide Prepare, Emit, Emitted;
    if Sync(c, s).ready {
      EmitEnds(c, more, p.state, h, r.bundles, |evs|);
      NothingLatched(c, more, Sync(c, s).state, TagStep(c, s, g, Poll, |evs|));
    }
  }

  lemma NothingLatched(c: Config, evs: seq<Event>, s: SyncState, g: Tags)
    requires !s.pushed
    ensures EndsKept(c, evs, s, g)
  {
  }

  lemma PreparedKeeps(c: Config, s: SyncState, g: Tags, evs: seq<Event>, bundles: seq<Bundle>)
    requires s.Parallel() && evs != [] && AllEnd(c, evs, bundles, g)
    ensures AllEnd(c, evs, bundles, Prepared(c, s, g, |evs| - 1))
  {
    hide Prepare, EndsWith;
  }

  ghost predicate RunEnds(c: Config, evs: seq<Event>, r: Run, g: Tags) {
    EndsKept(c, evs, r.s, g) && AllEnd(c, evs, r.bundles, g)
  }

  lemma StepEnds(c: Config, evs: seq<Event>, e: Event, r: Run, g: Tags)
    requires RunTags(c, r, g, evs) && RunEnds(c, evs, r, g)
    requires r.s.s1.meanScan == Average(Counted(c, evs, true)) && r.s.s2.meanScan == Average(Counted(c, evs, false))
    ensures RunEnds(c, evs + [e], Step(c, r, e), TagStep(c, r.s, g, e, |evs|))
  {
    hide RunTags, EndsKept, AllEnd, Step, TagStep, Average, Counted;
    if e.Poll? {
      PollEnds(c, evs, r, g);
    } else {
      EndsKeptStays(c, evs, e, r.s, g);
      AllEndStays(c, evs, e, r.bundles, g);
      TagsParallel(c, r, g, evs);
      CallbackEnds(c, r, g, e, |evs|);
      SameEnds(c, evs + [e], r.s, Step(c, r, e).s, g, TagStep(c, r.s, g, e, |evs|), r.bundles);
    }
  }

  lemma TagsParallel(c: Config, r: Run, g: Tags, evs: seq<Event>)
    requires RunTags(c, r, g, evs)
    ensures r.s.Parallel()
  {
  }

  lemma {:induction false} RunEnd(c: Config, evs: seq<Event>)
    ensures RunEnds(c, evs, SyncRuns.After(c, evs), Tagged(c, evs))
  {
    hide *;
    if evs == [] {
      StartEnds(c);
      return;
    }
    var before, e := evs[..|evs| - 1], evs[|evs| - 1];
    RunEnd(c, before);
    RunIsTagged(c, before);
    MeansAreAverages(c, before);
    MeanIsAverage(SyncRuns.After(c, before).s.s1, Counted(c, before, true));
    MeanIsAverage(SyncRuns.After(c, before).s.s2, Counted(c, before, false));
    TagsNext(c, evs);
    assert before + [e] == evs;
    StepEnds(c, before, e, SyncRuns.After(c, before), Tagged(c, before));
  }

  lemma StartEnds(c: Config)
    ensures RunEnds(c, [], SyncRuns.After(c, []), Tagged(c, []))
  {
    hide EndAt, Counted;
  }

  /** In every run, whatever the clocks do: each bundle is made of two scans, and each of its
      ends is the end of that scan, with the average of the durations counted before the pair
      was latched. */
  lemma BundlesEndWithTheirScans(c: Config, evs: seq<Event>, k: nat)
    requires k < |SyncRuns.After(c, evs).bundles|
    ensures var g, b := Tagged(c, evs), SyncRuns.After(c, evs).bundles[k];
            && k < |g.polls.sinces| == |g.l1.latched| == |g.l2.latched|
            && FromScans(c, b, evs, g.l1.latched[k], g.l2.latched[k])
            && EndsWith(c, evs, b, g.polls.sinces[k], g.l1.latched[k], g.l2.latched[k])
  {
    RunEnd(c, evs);
    PoppedIsLatchedIff(c, evs, k);
    hide SyncRuns.After, Tagged, EndsWith, FromScans, LatchedOver, EmittedAt, KeepsItsScan;
  }

  /** After any run, a poll emits exactly when samples are queued and the last IMU stamp has
      reached both ends: those of the latched pair or, without one, those of the pair it latches. */
  lemma PollEmitsIff(c: Config, evs: seq<Event>)
    ensures var r, t := SyncRuns.After(c, evs), SyncRuns.After(c, evs + [Poll]);
            var s, pair := r.s, FreshPair(c, r.s);
            |t.bundles| == |r.bundles| + 1 <==>
              && s.imu != []
              && if s.pushed then s.meas.end1 <= s.lastImu && s.meas.end2 <= s.lastImu
                 else pair.Some?
                      && EndOf(Average(Counted(c, evs, true)), pair.value.0) <= s.lastImu
                      && EndOf(Average(Counted(c, evs, false)), pair.value.1) <= s.lastImu
  {
    var r := SyncRuns.After(c, evs);
    RunEnd(c, evs);
    RunIsTagged(c, evs);
    AfterNext(c, evs, Poll);
    PollUnfolds(c, r);
    MeansAreAverages(c, evs);
    MeanIsAverage(r.s.s1, Counted(c, evs, true));
    MeanIsAverage(r.s.s2, Counted(c, evs, false));
    LatchedWaits(c, r, Tagged(c, evs), evs);
    hide SyncRuns.After, Step, Sync, Tagged, RunTags, RunEnds, FreshPair, EndOf, Average, Counted;
    if r.s.pushed {
      EmitsLatched(c, r.s);
    } else {
      EmitsFresh(c, r.s);
    }
  }

  lemma LatchedWaits(c: Config, r: Run, g: Tags, evs: seq<Event>)
    requires RunTags(c, r, g, evs) && RunEnds(c, evs, r, g)
    ensures r.s.pushed ==>
              && r.s.s1.clouds != [] && r.s.s2.clouds != []
              && r.s.s1.endTime == r.s.meas.end1 && r.s.s2.endTime == r.s.meas.end2
  {
    hide EndAt, Latched, Bundled, History, Ahead, AllEnd, RanBack, IsScan;
  }
}
