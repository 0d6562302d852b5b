/** Where the IMU samples go: none is lost, doubled or put out of order. */
module ImuRuns {
  import opened Synchroniser
  import opened SyncRuns
  import opened OfflineMatch
  import opened FilterTime

  /** The samples that are not ignored, that is, those that come after the first scan. */
  function Accepted(evs: seq<Event>): seq<Imu> {
    if evs == [] then []
    else
      var e, before := evs[|evs| - 1], evs[..|evs| - 1];
      if e.ImuMsg? && Scans(before, true) + Scans(before, false) != [] then Accepted(before) + [e.imu]
      else Accepted(before)
  }

  /** The samples of the bundles, one bundle after the other. */
  function Delivered(bundles: seq<Bundle>): seq<Imu> {
    if bundles == [] then [] else Delivered(bundles[..|bundles| - 1]) + bundles[|bundles| - 1].imu
  }

  /** Every accepted sample is delivered or queued, in order, and the clock stands at the last. */
  ghost predicate Conserved(r: Run, samples: seq<Imu>) {
    && Delivered(r.bundles) + r.s.imu == samples
    && (samples != [] ==> r.s.lastImu == samples[|samples| - 1].stamp)
  }

  lemma {:induction false} StampsOfAccepted(evs: seq<Event>)
    ensures |ImuStamps(evs)| == |Accepted(evs)|
    ensures forall k :: 0 <= k < |Accepted(evs)| ==> ImuStamps(evs)[k] == Accepted(evs)[k].stamp
  {
    if evs != [] {
      StampsOfAccepted(evs[..|evs| - 1]);
      hide Scans;
    }
  }

  lemma DeliveredNext(bundles: seq<Bundle>, b: Bundle)
    ensures Delivered(bundles + [b]) == Delivered(bundles) + b.imu
  {
    assert (bundles + [b])[..|bundles|] == bundles;
  }

  /** One poll only cuts the queue. */
  lemma SyncSplits(c: Config, s: SyncState)
    requires s.Parallel()
    ensures var o := Sync(c, s);
            && o.state.lastImu == s.lastImu
            && if o.ready then o.state.meas.imu + o.state.imu == s.imu else o.state.imu == s.imu
  {
    var p := Prepare(c, s);
    assert p.state.lastImu == s.lastImu by {
      hide Drops, Ended, Transformed, Rebased;
    }
    hide Prepare, Take, Dropped;
  }

  lemma Regroup(a: seq<Imu>, b: seq<Imu>, c: seq<Imu>, d: seq<Imu>)
    requires b + c == d
    ensures a + b + c == a + d
  {
  }

  lemma PollConserves(c: Config, r: Run, samples: seq<Imu>)
    requires r.s.Parallel() && Conserved(r, samples)
    ensures Conserved(Step(c, r, Poll), samples)
  {
    var o := Sync(c, r.s);
    SyncSplits(c, r.s);
    PollUnfolds(c, r);
    hide Sync, Step, Delivered;
    if o.ready {
      DeliveredNext(r.bundles, o.state.meas);
      Regroup(Delivered(r.bundles), o.state.meas.imu, o.state.imu, r.s.imu);
    }
  }

  lemma SampleConserves(c: Config, r: Run, m: Imu, samples: seq<Imu>)
    requires r.s.Parallel() && Conserved(r, samples) && r.s.seenScan
    requires samples != [] ==> samples[|samples| - 1].stamp <= m.stamp
    ensures Conserved(Step(c, r, ImuMsg(m)), samples + [m])
  {
    hide Sync, Delivered;
    if samples == [] {
      assert r.s.imu == [] && Delivered(r.bundles) == [];
    } else {
      assert Delivered(r.bundles) + (r.s.imu + [m]) == Delivered(r.bundles) + r.s.imu + [m];
    }
  }

  lemma OtherConserves(c: Config, r: Run, e: Event, samples: seq<Imu>)
    requires r.s.Parallel() && Conserved(r, samples) && (e.Scan1? || e.Scan2? || (e.ImuMsg? && !r.s.seenScan))
    ensures Conserved(Step(c, r, e), samples)
  {
    hide Sync, Delivered;
  }

  /** In every run with IMU stamps in order, whatever the lidar clocks do: the samples of all
      bundles and then those of the queue are exactly the samples accepted, in order. */
  lemma {:induction false} SamplesAreConserved(c: Config, evs: seq<Event>)
    requires Sorted(ImuStamps(evs))
    ensures Conserved(SyncRuns.After(c, evs), Accepted(evs))
  {
    if evs == [] {
      return;
    }
    var before, e := evs[..|evs| - 1], evs[|evs| - 1];
    PrefixSorted(ImuStamps(before), ImuStamps(evs));
    SamplesAreConserved(c, before);
    SeenScan(c, before);
    StampsOfAccepted(before);
    LastInOrder(evs);
    hide Conserved, Step, Sync, Scans, ImuStamps;
    var r := SyncRuns.After(c, before);
    if e.Poll? {
      PollConserves(c, r, Accepted(before));
    } else if e.ImuMsg? && r.s.seenScan {
      SampleConserves(c, r, e.imu, Accepted(before));
    } else {
      OtherConserves(c, r, e, Accepted(before));
    }
  }

  lemma LastInOrder(evs: seq<Event>)
    requires evs != [] && Sorted(ImuStamps(evs))
    ensures var before, e := Accepted(evs[..|evs| - 1]), evs[|evs| - 1];
            before != [] && e.ImuMsg? ==>
              Scans(evs[..|evs| - 1], true) + Scans(evs[..|evs| - 1], false) != [] ==>
                before[|before| - 1].stamp <= e.imu.stamp
  {
    StampsOfAccepted(evs);
    StampsOfAccepted(evs[..|evs| - 1]);
    hide Scans;
    var n := |Accepted(evs)|;
    assert n > 1 ==> ImuStamps(evs)[n - 2] <= ImuStamps(evs)[n - 1];
  }

  lemma SuffixOrdered(imu: seq<Imu>, rest: seq<Imu>, taken: seq<Imu>, t: real)
    requires taken + rest == imu && Ordered(imu) && AllTo(imu, t)
    ensures Ordered(rest) && AllTo(rest, t)
  {
    assert forall k :: 0 <= k < |rest| ==> rest[k] == imu[|taken| + k];
  }

  /** In every run, even if the IMU clock runs backwards: the queue is in order of time, and
      nothing in it is later than the last sample accepted. */
  lemma {:induction false} QueueIsInOrder(c: Config, evs: seq<Event>)
    ensures Waiting(SyncRuns.After(c, evs).s)
  {
    if evs == [] {
      return;
    }
    var before, e := evs[..|evs| - 1], evs[|evs| - 1];
    QueueIsInOrder(c, before);
    var r := SyncRuns.After(c, before);
    StepInOrder(c, r, e);
    hide Waiting, Step;
  }

  lemma StepInOrder(c: Config, r: Run, e: Event)
    requires r.s.Parallel() && Waiting(r.s)
    ensures Waiting(Step(c, r, e).s)
  {
    if e.Poll? {
      PollUnfolds(c, r);
      SyncSplits(c, r.s);
      hide Step, Sync;
      var o := Sync(c, r.s);
      if o.ready {
        SuffixOrdered(r.s.imu, o.state.imu, o.state.meas.imu, r.s.lastImu);
      }
    } else {
      hide Sync;
    }
  }
}
