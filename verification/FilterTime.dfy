/** The main loop, synchroniser and IMU processing together: what the synchroniser keeps is
    what makes the filter's time steps tile time. */
module FilterTime {
  import opened Basics
  import opened OfflineMatch
  import opened Synchroniser
  import opened SyncRuns
  import opened Undistortion
  import opened ImuProcess

  // ---------------------------------------------------------------- the node

  /** After each bundle that was propagated: its end and the time the filter has been moved. */
  datatype Mark = Mark(end: real, elapsed: real)

  datatype Node = Node(run: Run, imu: ImuState, kf: Filter, out: Cloud, samples: seq<Imu>, marks: seq<Mark>)

  /** The sum of the filter's time steps. */
  function Elapsed(f: Filter): real {
    if f == [] then 0.0
    else
      var e := f[|f| - 1];
      Elapsed(f[..|f| - 1]) + if e.Predict? then e.dt else 0.0
  }

  ghost predicate OnlyForward(f: Filter) {
    forall k :: 0 <= k < |f| && f[k].Predict? ==> f[k].dt >= 0.0
  }

  /** One turn of the loop for a bundle. */
  function Deliver(u: Setup, n: Node, b: Bundle): (r: Node)
    requires n.imu.iterNum > 0
    ensures r.imu.iterNum > 0 && r.run == n.run
  {
    var p := Process(u, n.imu, n.kf, b, n.out);
    n.(imu := p.state, kf := p.kf, out := p.out,
       samples := if n.imu.needInit then n.samples + b.imu else n.samples,
       marks := if n.imu.needInit || b.imu == [] then n.marks else n.marks + [Mark(b.End(), Elapsed(p.kf))])
  }

  function Turn(c: Config, u: Setup, n: Node, e: Event): (r: Node)
    requires n.run.s.Parallel() && n.imu.iterNum > 0
    ensures r.run.s.Parallel() && r.imu.iterNum > 0
  {
    var run := Step(c, n.run, e);
    var m := n.(run := run);
    if e.Poll? && |run.bundles| > |n.run.bundles| then Deliver(u, m, run.bundles[|run.bundles| - 1]) else m
  }

  function NodeAfter(c: Config, u: Setup, garbage: real, evs: seq<Event>): (n: Node)
    ensures n.run.s.Parallel() && n.imu.iterNum > 0
  {
    if evs == [] then Node(SyncRuns.After(c, []), Fresh(u, garbage), [], [], [], [])
    else Turn(c, u, NodeAfter(c, u, garbage, evs[..|evs| - 1]), evs[|evs| - 1])
  }

  /** The stamps of the IMU messages that are not ignored, that is, after the first scan. */
  function ImuStamps(evs: seq<Event>): seq<real> {
    if evs == [] then []
    else
      var e, before := evs[|evs| - 1], evs[..|evs| - 1];
      if e.ImuMsg? && Scans(before, true) + Scans(before, false) != [] then ImuStamps(before) + [e.imu.stamp]
      else ImuStamps(before)
  }

  // ---------------------------------------------------------------- cutting the IMU stream

  ghost predicate Ordered(imu: seq<Imu>) {
    forall i, j :: 0 <= i < j < |imu| ==> imu[i].stamp <= imu[j].stamp
  }

  ghost predicate AllFrom(imu: seq<Imu>, t: real) {
    forall i :: 0 <= i < |imu| ==> imu[i].stamp >= t
  }

  ghost predicate AllTo(imu: seq<Imu>, t: real) {
    forall i :: 0 <= i < |imu| ==> imu[i].stamp <= t
  }

  /** A sample goes to the bundle in front of those already in order behind it. */
  lemma SplitAfterFirst(imu: seq<Imu>, m: nat, end: real)
    requires m < |imu| && imu[0].stamp <= end
    requires AllTo(imu[1..][..m], end) && AllFrom(imu[1..][m..], end)
    ensures AllTo(imu[..1 + m], end) && AllFrom(imu[1 + m..], end)
  {
    assert imu[1..][m..] == imu[1 + m..];
    assert imu[..1 + m] == [imu[0]] + imu[1..][..m];
  }

  lemma RestOrdered(imu: seq<Imu>)
    requires imu != [] && Ordered(imu)
    ensures Ordered(imu[1..]) && AllFrom(imu[1..], imu[0].stamp)
  {
    assert forall i :: 0 <= i < |imu[1..]| ==> imu[1..][i] == imu[i + 1];
  }

  lemma NoneTaken(imu: seq<Imu>, prev: real, end1: real, end2: real)
    requires Ordered(imu) && AllFrom(imu, prev) && Take(imu, prev, end1, end2) == 0
    ensures AllFrom(imu, Max(end1, end2))
  {
  }

  /** The cut puts every sample up to the bundle's end in the bundle and leaves every later one. */
  lemma {:induction false} TakeSplits(imu: seq<Imu>, prev: real, end1: real, end2: real)
    requires Ordered(imu) && AllFrom(imu, prev)
    ensures var n, end := Take(imu, prev, end1, end2), Max(end1, end2);
            AllTo(imu[..n], end) && AllFrom(imu[n..], end) && (n > 0 ==> prev < end)
    decreases |imu|
  {
    hide Ordered, AllTo, AllFrom;
    var n := Take(imu, prev, end1, end2);
    if n == 0 {
      NoneTaken(imu, prev, end1, end2);
      assert imu[0..] == imu;
      NothingTo(Max(end1, end2));
    } else {
      RestOrdered(imu);
      TakeSplits(imu[1..], imu[0].stamp, end1, end2);
      SplitAfterFirst(imu, n - 1, Max(end1, end2));
    }
  }

  lemma NothingTo(t: real)
    ensures AllTo([], t)
  {
  }

  /** While a pair is latched, the bundle carries the end times the code compares with. */
  ghost predicate EndsAgree(s: SyncState) {
    s.pushed ==> s.meas.end1 == s.s1.endTime && s.meas.end2 == s.s2.endTime
  }

  /** The queue is in order, nothing in it is later than the last message, or earlier than t. */
  ghost predicate Waiting(s: SyncState) {
    Ordered(s.imu) && AllTo(s.imu, s.lastImu)
  }

  ghost predicate Beyond(s: SyncState, t: real) {
    AllFrom(s.imu, t) && t <= s.lastImu
  }

  /** What a bundle brings: samples in order, up to its end, the first strictly before it. */
  ghost predicate Framed(b: Bundle) {
    && Ordered(b.imu) && AllTo(b.imu, b.End())
    && (b.imu != [] ==> b.imu[0].stamp < b.End())
  }

  lemma EmitCuts(l: SyncState)
    requires l.Parallel() && l.s1.times != [] && l.s2.times != [] && l.imu != []
    requires Waiting(l) && l.meas.end1 == l.s1.endTime && l.meas.end2 == l.s2.endTime
    requires l.lastImu >= l.s1.endTime && l.lastImu >= l.s2.endTime
    ensures var r := Emit(l);
            && Framed(r.meas) && Waiting(r) && Beyond(r, r.meas.End()) && r.lastImu == l.lastImu
            && (forall t :: AllFrom(l.imu, t) ==> AllFrom(r.meas.imu, t) && AllFrom(r.imu, t))
  {
    TakeSplits(l.imu, l.imu[0].stamp, l.s1.endTime, l.s2.endTime);
    hide Take;
  }

  lemma PrepareKeepsImu(c: Config, s: SyncState)
    requires s.Parallel() && EndsAgree(s)
    ensures var p := Prepare(c, s);
            && EndsAgree(p.state) && p.state.lastImu == s.lastImu && (p.ready ==> p.state.pushed)
  {
    hide Drops, Ended, Transformed, Rebased;
  }

  /** What one call does to the IMU side. */
  lemma SyncCuts(c: Config, s: SyncState)
    requires s.Parallel() && EndsAgree(s) && Waiting(s)
    ensures var o := Sync(c, s);
            && EndsAgree(o.state) && Waiting(o.state) && o.state.lastImu == s.lastImu
            && (if o.ready then s.imu != [] else o.state.imu == s.imu)
            && (o.ready ==> Framed(o.state.meas) && Beyond(o.state, o.state.meas.End()))
            && (o.ready ==> forall t :: AllFrom(s.imu, t) ==> AllFrom(o.state.meas.imu, t) && AllFrom(o.state.imu, t))
  {
    PrepareKeepsImu(c, s);
    hide Prepare;
    var p := Prepare(c, s);
    if s.imu != [] && p.ready && p.state.lastImu >= p.state.s1.endTime && p.state.lastImu >= p.state.s2.endTime {
      EmitCuts(p.state);
    }
    hide AllFrom, AllTo, Ordered, Take;
  }

  // ---------------------------------------------------------------- the filter's steps

  /** Propagation over samples that start at or after the last end. */
  lemma {:induction false} ForwardTiles(u: Setup, s: ImuState, v: seq<Imu>, n: nat, begin: real, kf: Filter)
    requires n < |v| && Ordered(v) && OnlyForward(kf)
    ensures OnlyForward(Forward(u, s, v, n, begin, kf).kf)
    ensures |v| > 1 && v[0].stamp <= s.lastEnd <= v[1].stamp ==>
              Elapsed(Forward(u, s, v, n, begin, kf).kf) == Elapsed(kf) + if n == 0 then 0.0 else v[n].stamp - s.lastEnd
  {
    if n > 0 {
      ForwardTiles(u, s, v, n - 1, begin, kf);
      var p := Forward(u, s, v, n - 1, begin, kf);
      if v[n].stamp >= s.lastEnd {
        var step := Predict(StepTime(v[n - 1].stamp, v[n].stamp, s.lastEnd), s.cov, InputOf(u, s.mean, v[n - 1], v[n]));
        assert Forward(u, s, v, n, begin, kf).kf == p.kf + [step];
        AddStep(p.kf, step);
      }
    }
  }

  lemma AddStep(kf: Filter, step: FilterStep)
    requires step.Predict?
    ensures Elapsed(kf + [step]) == Elapsed(kf) + step.dt
    ensures OnlyForward(kf) && step.dt >= 0.0 ==> OnlyForward(kf + [step])
  {
    assert (kf + [step])[..|kf|] == kf;
  }

  lemma Joined(last: Imu, imu: seq<Imu>)
    requires imu != [] && Ordered(imu) && AllFrom(imu, last.stamp)
    ensures var v := [last] + imu;
            Ordered(v) && v[1] == imu[0] && v[|v| - 1] == imu[|imu| - 1]
  {
    var v := [last] + imu;
    assert forall k :: 0 < k < |v| ==> v[k] == imu[k - 1];
  }

  /** One propagated bundle moves the filter from the last end to the bundle's end. */
  lemma PropagatedTiles(u: Setup, s: ImuState, kf: Filter, b: Bundle)
    requires b.imu != [] && Framed(b) && AllFrom(b.imu, s.lastImu.stamp) && OnlyForward(kf)
    ensures OnlyForward(Propagated(u, s, kf, b).kf)
    ensures s.lastImu.stamp <= s.lastEnd && AllFrom(b.imu, s.lastEnd) ==>
              s.lastEnd < b.End() && Elapsed(Propagated(u, s, kf, b).kf) == Elapsed(kf) + b.End() - s.lastEnd
  {
    var v := [s.lastImu] + b.imu;
    Joined(s.lastImu, b.imu);
    assert b.imu[|b.imu| - 1].stamp <= b.End();
    hide Ordered, AllTo, Forward;
    ForwardTiles(u, s, v, |v| - 1, b.Start(), kf);
    var p := Forward(u, s, v, |v| - 1, b.Start(), kf);
    AddStep(p.kf, Predict(Abs(b.End() - v[|v| - 1].stamp), p.noise, p.input));
  }

  /** Every pose but the first stands where its filter does: from the last end, the filter has
      been moved to the bundle's start plus the pose's offset. */
  ghost predicate OnTime(poses: seq<Pose>, kf: Filter, begin: real, lastEnd: real) {
    forall k :: 1 <= k < |poses| ==> Elapsed(poses[k].filter) - Elapsed(kf) == begin + poses[k].offset - lastEnd
  }

  lemma {:induction false} PosesOnTime(u: Setup, s: ImuState, v: seq<Imu>, n: nat, begin: real, kf: Filter)
    requires n < |v| && Ordered(v) && |v| > 1 && v[0].stamp <= s.lastEnd <= v[1].stamp && OnlyForward(kf)
    ensures OnTime(Forward(u, s, v, n, begin, kf).poses, kf, begin, s.lastEnd)
    ensures |Forward(u, s, v, n, begin, kf).poses| == n + 1
  {
    if n > 0 {
      PosesOnTime(u, s, v, n - 1, begin, kf);
      ForwardTiles(u, s, v, n, begin, kf);
      assert v[n].stamp >= s.lastEnd;
      hide Elapsed, Ordered, OnlyForward;
    }
  }

  /** The poses the points are moved from: one per sample and one at the start, on time. */
  lemma PropagatedOnTime(u: Setup, s: ImuState, kf: Filter, b: Bundle)
    requires b.imu != [] && Framed(b) && s.lastImu.stamp <= s.lastEnd && AllFrom(b.imu, s.lastEnd) && OnlyForward(kf)
    ensures var p := Propagated(u, s, kf, b);
            |p.poses| == |b.imu| + 1 && OnTime(p.poses, kf, b.Start(), s.lastEnd)
  {
    var v := [s.lastImu] + b.imu;
    assert AllFrom(b.imu, s.lastImu.stamp);
    Joined(s.lastImu, b.imu);
    hide Ordered, OnTime, Forward, OnlyForward;
    PosesOnTime(u, s, v, |v| - 1, b.Start(), kf);
  }

  // ---------------------------------------------------------------- whole runs

  /** From any bundle to any later one the filter is moved by exactly the time between their ends. */
  ghost predicate Tiled(marks: seq<Mark>) {
    forall j, k :: 0 <= j < k < |marks| ==>
      marks[j].end < marks[k].end && marks[k].elapsed - marks[j].elapsed == marks[k].end - marks[j].end
  }

  lemma TiledSnoc(marks: seq<Mark>, m: Mark)
    requires Tiled(marks)
    requires marks != [] ==> var l := marks[|marks| - 1]; l.end < m.end && m.elapsed - l.elapsed == m.end - l.end
    ensures Tiled(marks + [m])
  {
  }

  ghost predicate Received(s: SyncState, stamps: seq<real>) {
    && Waiting(s) && EndsAgree(s)
    && (if stamps == [] then s.imu == [] else s.lastImu == stamps[|stamps| - 1])
  }

  /** Where the IMU processing stands, next to what is still queued. */
  ghost predicate Caught(s: SyncState, i: ImuState) {
    && (!i.firstFrame ==> Beyond(s, i.lastImu.stamp))
    && (!i.needInit ==> !i.firstFrame)
  }

  ghost predicate Marked(s: SyncState, i: ImuState, kf: Filter, marks: seq<Mark>) {
    && OnlyForward(kf) && Tiled(marks)
    && (marks != [] ==>
          && !i.needInit && i.lastImu.stamp <= i.lastEnd && Beyond(s, i.lastEnd)
          && marks[|marks| - 1] == Mark(i.lastEnd, Elapsed(kf)))
  }

  ghost predicate Kept(n: Node, stamps: seq<real>) {
    && Received(n.run.s, stamps) && Caught(n.run.s, n.imu) && Marked(n.run.s, n.imu, n.kf, n.marks)
    && (stamps == [] ==> n.imu.firstFrame && n.marks == [])
  }

  lemma AppendSample(s: SyncState, m: Imu)
    requires s.seenScan && Waiting(s) && (s.imu == [] || s.lastImu <= m.stamp)
    ensures var r := PushImu(s, m);
            Waiting(r) && forall t :: Beyond(s, t) && s.lastImu <= m.stamp ==> Beyond(r, t)
  {
  }

  lemma ImuKeeps(c: Config, n: Node, m: Imu, stamps: seq<real>)
    requires n.run.s.Parallel() && Kept(n, stamps) && Sorted(stamps + [m.stamp]) && n.run.s.seenScan
    ensures Kept(n.(run := Step(c, n.run, ImuMsg(m))), stamps + [m.stamp])
  {
    assert stamps != [] ==> (stamps + [m.stamp])[|stamps| - 1] <= (stamps + [m.stamp])[|stamps|];
    AppendSample(n.run.s, m);
    hide Waiting, Beyond, OnlyForward, Tiled;
  }

  lemma OtherKeeps(n: Node, r: Run, stamps: seq<real>)
    requires Kept(n, stamps) && r.s.imu == n.run.s.imu && r.s.lastImu == n.run.s.lastImu && EndsAgree(r.s)
    ensures Kept(n.(run := r), stamps)
  {
    hide OnlyForward, Tiled, EndsAgree, AllFrom, AllTo, Ordered;
  }

  lemma InitialisedKeeps(u: Setup, s0: SyncState, s: SyncState, n: Node, b: Bundle)
    requires n.imu.iterNum > 0 && b.imu != [] && n.imu.needInit
    requires Marked(s0, n.imu, n.kf, n.marks) && AllTo(b.imu, b.End()) && Beyond(s, b.End())
    ensures var r := Deliver(u, n, b);
            Caught(s, r.imu) && Marked(s, r.imu, r.kf, r.marks)
  {
    assert b.imu[|b.imu| - 1].stamp <= b.End();
    hide AllTo, Means, Tiled, Elapsed;
  }

  lemma PropagatedKeeps(u: Setup, s0: SyncState, s: SyncState, n: Node, b: Bundle)
    requires n.imu.iterNum > 0 && b.imu != [] && !n.imu.needInit && Framed(b) && Beyond(s, b.End())
    requires Marked(s0, n.imu, n.kf, n.marks) && !n.imu.firstFrame
    requires AllFrom(b.imu, n.imu.lastImu.stamp) && (n.marks != [] ==> AllFrom(b.imu, n.imu.lastEnd))
    ensures var r := Deliver(u, n, b);
            Caught(s, r.imu) && Marked(s, r.imu, r.kf, r.marks)
  {
    PropagatedTiles(u, n.imu, n.kf, b);
    assert b.imu[|b.imu| - 1].stamp <= b.End();
    var kf := Propagated(u, n.imu, n.kf, b).kf;
    TiledSnoc(n.marks, Mark(b.End(), Elapsed(kf)));
    hide AllTo, AllFrom, Ordered, Tiled, Elapsed, Propagated, Undistorted, OnlyForward;
  }

  /** s0 is the queue before the cut, s the queue after it. */
  ghost predicate CutFrom(s0: SyncState, s: SyncState, b: Bundle) {
    && Framed(b) && Beyond(s, b.End()) && s.lastImu == s0.lastImu
    && (forall t :: AllFrom(s0.imu, t) ==> AllFrom(b.imu, t) && AllFrom(s.imu, t))
  }

  lemma DeliverKeeps(u: Setup, s0: SyncState, s: SyncState, n: Node, b: Bundle)
    requires n.imu.iterNum > 0 && Caught(s0, n.imu) && Marked(s0, n.imu, n.kf, n.marks) && CutFrom(s0, s, b)
    ensures var r := Deliver(u, n, b);
            Caught(s, r.imu) && Marked(s, r.imu, r.kf, r.marks)
  {
    if b.imu == [] {
      hide AllFrom, AllTo, Ordered, Tiled, OnlyForward, Elapsed;
    } else if n.imu.needInit {
      InitialisedKeeps(u, s0, s, n, b);
    } else {
      BeyondLast(s0, s, n, b);
      hide Ordered, AllTo, AllFrom, Marked;
      PropagatedKeeps(u, s0, s, n, b);
    }
  }

  lemma BeyondLast(s0: SyncState, s: SyncState, n: Node, b: Bundle)
    requires Caught(s0, n.imu) && Marked(s0, n.imu, n.kf, n.marks) && !n.imu.needInit && CutFrom(s0, s, b)
    ensures AllFrom(b.imu, n.imu.lastImu.stamp)
    ensures n.marks != [] ==> AllFrom(b.imu, n.imu.lastEnd)
  {
    hide AllFrom;
  }

  lemma PollKeeps(c: Config, u: Setup, n: Node, stamps: seq<real>)
    requires n.run.s.Parallel() && n.imu.iterNum > 0 && Kept(n, stamps)
    ensures Kept(Turn(c, u, n, Poll), stamps)
  {
    var o := Sync(c, n.run.s);
    SyncCuts(c, n.run.s);
    hide Waiting, Sync, Caught, Marked, Deliver, Beyond, Framed, AllFrom, EndsAgree;
    if o.ready {
      DeliverKeeps(u, n.run.s, o.state, n.(run := Step(c, n.run, Poll)), o.state.meas);
    } else {
      OtherKeeps(n, Step(c, n.run, Poll), stamps);
    }
  }

  lemma {:induction false} SeenScan(c: Config, evs: seq<Event>)
    ensures SyncRuns.After(c, evs).s.seenScan <==> Scans(evs, true) + Scans(evs, false) != []
  {
    if evs != [] {
      var before, e := evs[..|evs| - 1], evs[|evs| - 1];
      SeenScan(c, before);
      SyncKeepsSeen(c, SyncRuns.After(c, before).s);
      hide Sync, PushScan;
    }
  }

  lemma SyncKeepsSeen(c: Config, s: SyncState)
    requires s.Parallel()
    ensures Sync(c, s).state.seenScan == s.seenScan
  {
    hide Drops, Take, Ended;
  }

  lemma {:induction false} RunOfNode(c: Config, u: Setup, garbage: real, evs: seq<Event>)
    ensures NodeAfter(c, u, garbage, evs).run == SyncRuns.After(c, evs)
  {
    if evs != [] {
      RunOfNode(c, u, garbage, evs[..|evs| - 1]);
      hide Step, Deliver;
    }
  }

  lemma {:induction false} NodeKeeps(c: Config, u: Setup, garbage: real, evs: seq<Event>)
    requires Sorted(ImuStamps(evs))
    ensures Kept(NodeAfter(c, u, garbage, evs), ImuStamps(evs))
  {
    if evs != [] {
      var before, e := evs[..|evs| - 1], evs[|evs| - 1];
      var n := NodeAfter(c, u, garbage, before);
      PrefixSorted(ImuStamps(before), ImuStamps(evs));
      NodeKeeps(c, u, garbage, before);
      RunOfNode(c, u, garbage, before);
      SeenScan(c, before);
      hide Kept, Scans, Step, Deliver;
      TurnKeeps(c, u, n, e, ImuStamps(before), ImuStamps(evs));
    }
  }

  lemma TurnKeeps(c: Config, u: Setup, n: Node, e: Event, stamps: seq<real>, stamps': seq<real>)
    requires n.run.s.Parallel() && n.imu.iterNum > 0 && Kept(n, stamps) && Sorted(stamps')
    requires stamps' == if e.ImuMsg? && n.run.s.seenScan then stamps + [e.imu.stamp] else stamps
    ensures Kept(Turn(c, u, n, e), stamps')
  {
    hide Kept, Sync, PushScan;
    match e
    case Scan1(_) => PushKeeps(n, Step(c, n.run, e), stamps);
    case Scan2(_) => PushKeeps(n, Step(c, n.run, e), stamps);
    case ImuMsg(m) =>
      if n.run.s.seenScan {
        ImuKeeps(c, n, m, stamps);
      } else {
        PushKeeps(n, Step(c, n.run, e), stamps);
      }
    case Poll => PollKeeps(c, u, n, stamps);
  }

  lemma PushKeeps(n: Node, r: Run, stamps: seq<real>)
    requires Kept(n, stamps) && r.s.imu == n.run.s.imu && r.s.lastImu == n.run.s.lastImu
    requires r.s.meas == n.run.s.meas && r.s.pushed == n.run.s.pushed
    requires r.s.s1.endTime == n.run.s.s1.endTime && r.s.s2.endTime == n.run.s.s2.endTime
    ensures Kept(n.(run := r), stamps)
  {
    hide Waiting, Caught, Marked, OnlyForward, Tiled;
    OtherKeeps(n, r, stamps);
  }

  /** Whatever the lidars do, as long as the IMU clock does not run backwards: the filter never
      steps backwards, and between any two propagated bundles it is moved by exactly the time
      from one bundle's end to the other's, ends strictly increasing. */
  lemma FilterTimeTiles(c: Config, u: Setup, garbage: real, evs: seq<Event>)
    requires Sorted(ImuStamps(evs))
    ensures var n := NodeAfter(c, u, garbage, evs);
            && OnlyForward(n.kf) && Tiled(n.marks)
            && (n.marks != [] ==> n.marks[|n.marks| - 1] == Mark(n.imu.lastEnd, Elapsed(n.kf)))
  {
    NodeKeeps(c, u, garbage, evs);
  }
}
