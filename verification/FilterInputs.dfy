/** What the filter is told: every step of a propagated bundle, in order, from the samples as
    they were delivered. */
module FilterInputs {
  import opened Basics
  import opened OfflineMatch
  import opened Synchroniser
  import opened SyncRuns
  import opened Undistortion
  import opened ImuProcess
  import opened FilterTime
  import opened InitialMeans
  import opened ImuRuns

  // ---------------------------------------------------------------- one bundle

  ghost predicate Middle(m: Vec3, a: Vec3, b: Vec3) {
    2.0 * m.x == a.x + b.x && 2.0 * m.y == a.y + b.y && 2.0 * m.z == a.z + b.z
  }

  /** The input between two samples: the middle of their angular velocities, and the middle of
      their accelerations scaled by the mean one. */
  ghost predicate Between(u: Setup, mean: Input, input: Input, head: Imu, tail: Imu) {
    Middle(input.gyro, head.gyro, tail.gyro)
    && exists a :: Middle(a, head.acc, tail.acc) && input.acc == u.scaled(a, mean.acc)
  }

  /** One step over the time from head to tail that lies after the last end. */
  ghost predicate StepBetween(u: Setup, s: ImuState, step: FilterStep, head: Imu, tail: Imu) {
    && step.Predict? && step.noise == s.cov && Between(u, s.mean, step.input, head, tail)
    && step.dt == tail.stamp - if head.stamp < s.lastEnd then s.lastEnd else head.stamp
  }

  /** Which of the first n samples after the first of v are used: those not before the last end. */
  function UsedAt(v: seq<Imu>, n: nat, lastEnd: real): (r: seq<nat>)
    requires n < |v|
    ensures forall j :: 0 <= j < |r| ==> 1 <= r[j] <= n
  {
    if n == 0 then []
    else UsedAt(v, n - 1, lastEnd) + if v[n].stamp < lastEnd then [] else [n]
  }

  /** The last input, or the default one where there was none. */
  ghost predicate Repeats(input: Input, none: bool, unset: Input, kf: Filter) {
    if none then input == unset else kf != [] && kf[|kf| - 1].Predict? && input == kf[|kf| - 1].input
  }

  /** The steps for the used samples, one each and in order, and the pose after each. */
  ghost predicate Steps(u: Setup, s: ImuState, v: seq<Imu>, n: nat, begin: real, kf: Filter, p: Propagation)
    requires n < |v|
  {
    var used := UsedAt(v, n, s.lastEnd);
    && |p.kf| == |kf| + |used| && p.kf[..|kf|] == kf
    && (forall j :: 0 <= j < |used| ==> StepBetween(u, s, p.kf[|kf| + j], v[used[j] - 1], v[used[j]]))
    && Repeats(p.input, used == [], u.unset, p.kf)
    && p.noise == (if used == [] then s.noise else s.cov)
    && |p.poses| == |used| + 1 && p.poses[0] == Pose(0.0, kf)
    && (forall j :: 0 <= j < |used| ==> p.poses[j + 1] == Pose(v[used[j]].stamp - begin, p.kf[..|kf| + j + 1]))
  }

  lemma InputIsBetween(u: Setup, mean: Input, head: Imu, tail: Imu)
    ensures Between(u, mean, InputOf(u, mean, head, tail), head, tail)
  {
    assert Middle(Half(head.acc, tail.acc), head.acc, tail.acc);
  }

  lemma StepsSnoc(u: Setup, s: ImuState, v: seq<Imu>, n: nat, begin: real, kf: Filter, p: Propagation, step: FilterStep)
    requires 0 < n < |v| && Steps(u, s, v, n - 1, begin, kf, p) && v[n].stamp >= s.lastEnd
    requires StepBetween(u, s, step, v[n - 1], v[n])
    ensures var kf' := p.kf + [step];
            Steps(u, s, v, n, begin, kf,
                  Propagation(kf', p.poses + [Pose(v[n].stamp - begin, kf')], step.input, s.cov))
  {
    assert step.Predict?;
    hide StepBetween;
    var kf', used := p.kf + [step], UsedAt(v, n - 1, s.lastEnd);
    assert kf'[..|kf'|] == kf';
  }

  lemma {:induction false} ForwardSteps(u: Setup, s: ImuState, v: seq<Imu>, n: nat, begin: real, kf: Filter)
    requires n < |v|
    ensures Steps(u, s, v, n, begin, kf, Forward(u, s, v, n, begin, kf))
  {
    if n == 0 {
      assert kf[..|kf|] == kf;
      return;
    }
    ForwardSteps(u, s, v, n - 1, begin, kf);
    InputIsBetween(u, s.mean, v[n - 1], v[n]);
    hide Between, InputOf;
    var p := Forward(u, s, v, n - 1, begin, kf);
    if v[n].stamp >= s.lastEnd {
      var step := Predict(StepTime(v[n - 1].stamp, v[n].stamp, s.lastEnd), s.cov, InputOf(u, s.mean, v[n - 1], v[n]));
      StepsSnoc(u, s, v, n, begin, kf, p, step);
    } else {
      hide StepBetween;
    }
  }

  /** The steps of a bundle, and one more to its end that repeats the last input and noise. */
  ghost predicate BundleSteps(u: Setup, s: ImuState, b: Bundle, kf: Filter, now: Filter) {
    var v := [s.lastImu] + b.imu;
    var used := UsedAt(v, |v| - 1, s.lastEnd);
    && |now| == |kf| + |used| + 1 && now[..|kf|] == kf
    && (forall j :: 0 <= j < |used| ==> StepBetween(u, s, now[|kf| + j], v[used[j] - 1], v[used[j]]))
    && var last := now[|now| - 1];
    && last.Predict? && last.dt == Abs(b.End() - v[|v| - 1].stamp)
    && Repeats(last.input, used == [], u.unset, now[..|now| - 1])
    && last.noise == (if used == [] then s.noise else s.cov)
  }

  lemma PropagatedSteps(u: Setup, s: ImuState, kf: Filter, b: Bundle)
    ensures BundleSteps(u, s, b, kf, Propagated(u, s, kf, b).kf)
  {
    var v := [s.lastImu] + b.imu;
    ForwardSteps(u, s, v, |v| - 1, b.Start(), kf);
    hide StepBetween, Forward;
    var p := Forward(u, s, v, |v| - 1, b.Start(), kf);
    var now := Propagated(u, s, kf, b).kf;
    assert now[..|kf|] == p.kf[..|kf|] && now[..|now| - 1] == p.kf;
  }

  // ---------------------------------------------------------------- one turn of the node

  /** The cloud handed on: as it was unless both scans have points, and then every point of the
      two sorted clouds, compensated to the end of the bundle. */
  ghost predicate HandsOn(u: Setup, b: Bundle, poses: seq<Pose>, end: Filter, was: Cloud, now: Cloud) {
    if b.lidar == [] || b.lidar2 == [] then now == was
    else
      var x, y := u.sorted(b.lidar), u.sorted(b.lidar2);
      && |now| == |x| + |y|
      && AllCompensated(u.moved, poses, end, x, now[..|x|]) && AllCompensated(u.moved, poses, end, y, now[|x|..])
  }

  ghost predicate AllCompensated(f: Compensation, poses: seq<Pose>, end: Filter, was: Cloud, now: Cloud) {
    && poses != [] && |now| == |was|
    && (forall i :: 1 <= i < |was| ==> Compensated(f, poses, end, was[i], now[i]))
    && (was != [] && HeadsBefore(poses, |poses| - 1, was[0]) <= 1 ==> Compensated(f, poses, end, was[0], now[0]))
  }

  lemma CloudHandedOn(u: Setup, s: ImuState, kf: Filter, b: Bundle, out: Cloud)
    requires s.iterNum > 0 && b.imu != [] && !s.needInit
    ensures var p, r := Propagated(u, s, kf, b), Process(u, s, kf, b, out);
            r.kf == p.kf && HandsOn(u, b, p.poses, p.kf, out, r.out)
  {
    var p := Propagated(u, s, kf, b);
    CloudIsCompensated(u.moved, u.sorted(b.lidar), p.poses, p.kf);
    CloudIsCompensated(u.moved, u.sorted(b.lidar2), p.poses, p.kf);
    hide Propagated, Undistorted, Compensated, HeadsBefore;
  }

  /** The last sample kept is the last one delivered. */
  ghost predicate LastKept(i: ImuState, samples: seq<Imu>) {
    && (samples == [] ==> i.needInit)
    && (samples != [] ==> i.lastImu == samples[|samples| - 1])
  }

  ghost predicate IsLast(m: Imu, samples: seq<Imu>) {
    samples != [] && m == samples[|samples| - 1]
  }

  lemma DeliverKeepsLast(u: Setup, n: Node, b: Bundle, samples: seq<Imu>)
    requires n.imu.iterNum > 0 && LastKept(n.imu, samples)
    ensures LastKept(Deliver(u, n, b).imu, samples + b.imu)
  {
    hide Means, Covs, Propagated, Undistorted, Elapsed;
    if b.imu == [] {
      assert samples + b.imu == samples;
    }
  }

  lemma {:induction false} LastIsKept(c: Config, u: Setup, garbage: real, evs: seq<Event>)
    ensures var n := NodeAfter(c, u, garbage, evs);
            LastKept(n.imu, Delivered(n.run.bundles))
  {
    if evs != [] {
      LastIsKept(c, u, garbage, evs[..|evs| - 1]);
      hide NodeAfter, LastKept;
      TurnUnfolds(c, u, garbage, evs);
      TurnKeepsLast(c, u, NodeAfter(c, u, garbage, evs[..|evs| - 1]), evs[|evs| - 1]);
    }
  }

  lemma TurnUnfolds(c: Config, u: Setup, garbage: real, evs: seq<Event>)
    requires evs != []
    ensures NodeAfter(c, u, garbage, evs) == Turn(c, u, NodeAfter(c, u, garbage, evs[..|evs| - 1]), evs[|evs| - 1])
  {
    hide Turn;
  }

  lemma TurnKeepsLast(c: Config, u: Setup, n: Node, e: Event)
    requires n.run.s.Parallel() && n.imu.iterNum > 0 && LastKept(n.imu, Delivered(n.run.bundles))
    ensures var r := Turn(c, u, n, e);
            LastKept(r.imu, Delivered(r.run.bundles))
  {
    hide LastKept, Delivered, Deliver, Sync;
    var run := Step(c, n.run, e);
    if e.Poll? {
      PollUnfolds(c, n.run);
      var o := Sync(c, n.run.s);
      if o.ready {
        DeliveredNext(n.run.bundles, o.state.meas);
        DeliverKeepsLast(u, n.(run := run), o.state.meas, Delivered(n.run.bundles));
      }
    }
  }

  /** After any run: what the poll that delivers a bundle to an initialised filter does to it.
      The samples used are those of the bundle, the last one delivered before it going first;
      every used interval gives one step with their middle and the configured noise, the last
      step repeats, and the points are compensated with the poses after those steps. */
  lemma DeliveryIsExact(c: Config, u: Setup, garbage: real, evs: seq<Event>)
    ensures var n, r := NodeAfter(c, u, garbage, evs), NodeAfter(c, u, garbage, evs + [Poll]);
            |r.run.bundles| > |n.run.bundles| && !n.imu.needInit && r.run.bundles[|n.run.bundles|].imu != [] ==>
              var b := r.run.bundles[|n.run.bundles|];
              var v := [n.imu.lastImu] + b.imu;
              && r.run.bundles == n.run.bundles + [b]
              && IsLast(n.imu.lastImu, Delivered(n.run.bundles))
              && n.imu.cov == u.configured
              && BundleSteps(u, n.imu, b, n.kf, r.kf)
              && exists p :: Steps(u, n.imu, v, |v| - 1, b.Start(), n.kf, p)
                             && HandsOn(u, b, p.poses, r.kf, n.out, r.out)
  {
    var n, r := NodeAfter(c, u, garbage, evs), NodeAfter(c, u, garbage, evs + [Poll]);
    LastIsKept(c, u, garbage, evs);
    NoiseIsConfigured(c, u, garbage, evs);
    assert (evs + [Poll])[..|evs|] == evs;
    TurnUnfolds(c, u, garbage, evs + [Poll]);
    PollUnfolds(c, n.run);
    hide NodeAfter, Step, Sync, Delivered, Noised;
    var o := Sync(c, n.run.s);
    if o.ready && !n.imu.needInit && o.state.meas.imu != [] {
      var b := o.state.meas;
      var v := [n.imu.lastImu] + b.imu;
      PropagatedSteps(u, n.imu, n.kf, b);
      CloudHandedOn(u, n.imu, n.kf, b, n.out);
      ForwardSteps(u, n.imu, v, |v| - 1, b.Start(), n.kf);
      SamePoses(u, n.imu, n.kf, b);
      hide Propagated, Forward, BundleSteps, Steps, HandsOn, Process;
      assert Steps(u, n.imu, v, |v| - 1, b.Start(), n.kf, Forward(u, n.imu, v, |v| - 1, b.Start(), n.kf));
    }
  }

  lemma SamePoses(u: Setup, s: ImuState, kf: Filter, b: Bundle)
    ensures var v := [s.lastImu] + b.imu;
            Propagated(u, s, kf, b).poses == Forward(u, s, v, |v| - 1, b.Start(), kf).poses
  {
    hide Forward;
  }
}
