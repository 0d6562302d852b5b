/** The running means of ImuProcess::IMU_init are the averages of all samples so far, over
    however many bundles the initialisation takes. */
module InitialMeans {
  import opened Basics
  import opened Synchroniser
  import opened SyncRuns
  import opened Undistortion
  import opened ImuProcess
  import opened FilterTime

  function Plus(a: Vec3, b: Vec3): Vec3 { Vec3(a.x + b.x, a.y + b.y, a.z + b.z) }

  function Total(imu: seq<Imu>): Input {
    if imu == [] then Input(Vec3(0.0, 0.0, 0.0), Vec3(0.0, 0.0, 0.0))
    else
      var t, m := Total(imu[..|imu| - 1]), imu[|imu| - 1];
      Input(Plus(t.acc, m.acc), Plus(t.gyro, m.gyro))
  }

  ghost predicate Averages(mean: Vec3, n: nat, total: Vec3) {
    mean.x * n as real == total.x && mean.y * n as real == total.y && mean.z * n as real == total.z
  }

  ghost predicate IsAverage(mean: Input, imu: seq<Imu>) {
    Averages(mean.acc, |imu|, Total(imu).acc) && Averages(mean.gyro, |imu|, Total(imu).gyro)
  }

  lemma TowardsAverages(m: Vec3, x: Vec3, n: nat, total: Vec3)
    requires n > 0 && Averages(m, n - 1, total)
    ensures Averages(Towards(m, x, n), n, Plus(total, x))
  {
    var r := n as real;
    assert (n - 1) as real == r - 1.0;
    Nudge(m.x, x.x, r);
    Nudge(m.y, x.y, r);
    Nudge(m.z, x.z, r);
  }

  lemma {:induction false} MeansAverage(mean: Input, before: seq<Imu>, imu: seq<Imu>, k: nat)
    requires k <= |imu| && IsAverage(mean, before)
    ensures IsAverage(Means(mean, |before| + 1, imu, k), before + imu[..k])
  {
    if k == 0 {
      assert before + imu[..0] == before;
    } else {
      MeansAverage(mean, before, imu, k - 1);
      var all, m := before + imu[..k], Means(mean, |before| + 1, imu, k - 1);
      assert all[..|all| - 1] == before + imu[..k - 1];
      hide Averages, Towards;
      TowardsAverages(m.acc, imu[k - 1].acc, |all|, Total(before + imu[..k - 1]).acc);
      TowardsAverages(m.gyro, imu[k - 1].gyro, |all|, Total(before + imu[..k - 1]).gyro);
    }
  }

  /** The first means do not matter: the first sample is counted once. */
  lemma FirstSample(mean: Input)
    ensures IsAverage(mean, [])
  {
  }

  ghost predicate MeansKept(i: ImuState, samples: seq<Imu>) {
    && (i.firstFrame <==> samples == [])
    && (!i.firstFrame ==> i.iterNum == |samples| + 1 && IsAverage(i.mean, samples))
    && (i.needInit <==> |samples| < 10)
  }

  lemma DeliverKeepsMeans(u: Setup, n: Node, b: Bundle)
    requires n.imu.iterNum > 0 && MeansKept(n.imu, n.samples)
    ensures var r := Deliver(u, n, b);
            MeansKept(r.imu, r.samples)
  {
    hide IsAverage, Undistorted, Propagated, Elapsed;
    if b.imu == [] {
      assert n.samples + b.imu == n.samples;
    } else if n.imu.needInit {
      var t := Started(n.imu, b.imu);
      FirstSample(t.mean);
      MeansAverage(t.mean, n.samples, b.imu, |b.imu|);
      assert b.imu[..|b.imu|] == b.imu;
    }
  }

  /** Initialisation ends with the bundle that brings the tenth sample, and until then and
      from then on the means are the averages of all samples delivered before its end. */
  lemma {:induction false} InitialisationAverages(c: Config, u: Setup, garbage: real, evs: seq<Event>)
    ensures var n := NodeAfter(c, u, garbage, evs);
            MeansKept(n.imu, n.samples)
  {
    if evs != [] {
      var before := evs[..|evs| - 1];
      InitialisationAverages(c, u, garbage, before);
      hide Step, Deliver, MeansKept;
      TurnKeepsMeans(c, u, NodeAfter(c, u, garbage, before), evs[|evs| - 1]);
    }
  }

  lemma TurnKeepsMeans(c: Config, u: Setup, n: Node, e: Event)
    requires n.run.s.Parallel() && n.imu.iterNum > 0 && MeansKept(n.imu, n.samples)
    ensures var r := Turn(c, u, n, e);
            MeansKept(r.imu, r.samples)
  {
    var run := Step(c, n.run, e);
    hide Step, Deliver, MeansKept;
    if e.Poll? && |run.bundles| > |n.run.bundles| {
      DeliverKeepsMeans(u, n.(run := run), run.bundles[|run.bundles| - 1]);
    }
  }

  // ---------------------------------------------------------------- covariances

  function MeanOf(t: Vec3, n: nat): Vec3
    requires n > 0
  {
    Vec3(t.x / n as real, t.y / n as real, t.z / n as real)
  }

  function Square(x: Vec3, m: Vec3, n: nat): Vec3
    requires n > 0
  {
    var w := (n - 1) as real / n as real;
    Vec3(w * (x.x - m.x) * (x.x - m.x), w * (x.y - m.y) * (x.y - m.y), w * (x.z - m.z) * (x.z - m.z))
  }

  /** Over the samples, the squares of their distances from the mean so far, the n-th times
      (n - 1) / n. */
  function Squares(imu: seq<Imu>): Input {
    if imu == [] then Input(Vec3(0.0, 0.0, 0.0), Vec3(0.0, 0.0, 0.0))
    else
      var s, t, n, m := Squares(imu[..|imu| - 1]), Total(imu), |imu|, imu[|imu| - 1];
      Input(Plus(s.acc, Square(m.acc, MeanOf(t.acc, n), n)), Plus(s.gyro, Square(m.gyro, MeanOf(t.gyro, n), n)))
  }

  ghost predicate IsSpread(cov: Input, imu: seq<Imu>) {
    Averages(cov.acc, |imu|, Squares(imu).acc) && Averages(cov.gyro, |imu|, Squares(imu).gyro)
  }

  lemma SpreadSum(c: real, d: real, n: real, total: real)
    requires n > 0.0 && c * (n - 1.0) == total
    ensures Spread1(c, d, n) * n == total + (n - 1.0) / n * d * d
  {
    var a, b := c * (n - 1.0) / n, d * d * (n - 1.0) / (n * n);
    assert a * n == total;
    var w := (n - 1.0) / n;
    assert w * n == n - 1.0;
    assert b * (n * n) == d * d * (n - 1.0);
    assert b * n * n == d * d * w * n;
    assert b * n == d * d * w;
    assert (a + b) * n == a * n + b * n;
  }

  lemma MeanIsOf(m: Vec3, n: nat, total: Vec3)
    requires n > 0 && Averages(m, n, total)
    ensures m == MeanOf(total, n)
  {
  }

  lemma SpreadAverages(c: Vec3, m: Vec3, x: Vec3, n: nat, total: Vec3)
    requires n > 0 && Averages(c, n - 1, total)
    ensures Averages(Spread(c, m, x, n), n, Plus(total, Square(x, m, n)))
  {
    var r := n as real;
    assert (n - 1) as real == r - 1.0;
    hide Spread1;
    SpreadSum(c.x, x.x - m.x, r, total.x);
    SpreadSum(c.y, x.y - m.y, r, total.y);
    SpreadSum(c.z, x.z - m.z, r, total.z);
  }

  lemma {:induction false} CovsSpread(mean: Input, cov: Input, before: seq<Imu>, imu: seq<Imu>, k: nat)
    requires k <= |imu| && IsAverage(mean, before) && IsSpread(cov, before)
    ensures IsSpread(Covs(mean, cov, |before| + 1, imu, k), before + imu[..k])
  {
    if k == 0 {
      assert before + imu[..0] == before;
      return;
    }
    CovsSpread(mean, cov, before, imu, k - 1);
    MeansAverage(mean, before, imu, k);
    var n, x, all := |before| + 1, imu[k - 1], before + imu[..k];
    var m, c := Means(mean, n, imu, k), Covs(mean, cov, n, imu, k - 1);
    assert all[..|all| - 1] == before + imu[..k - 1] && all[|all| - 1] == x && |all| == n + k - 1;
    MeanIsOf(m.acc, |all|, Total(all).acc);
    MeanIsOf(m.gyro, |all|, Total(all).gyro);
    var s := Squares(before + imu[..k - 1]);
    SpreadAverages(c.acc, m.acc, x.acc, |all|, s.acc);
    SpreadAverages(c.gyro, m.gyro, x.gyro, |all|, s.gyro);
    hide Averages, Spread, Square, MeanOf, Plus, Total, Means;
  }

  ghost predicate CovsKept(i: ImuState, samples: seq<Imu>) {
    i.needInit ==> IsSpread(i.cov, samples)
  }

  lemma DeliverKeepsCovs(u: Setup, n: Node, b: Bundle)
    requires n.imu.iterNum > 0 && MeansKept(n.imu, n.samples) && CovsKept(n.imu, n.samples)
    ensures var r := Deliver(u, n, b);
            CovsKept(r.imu, r.samples)
  {
    hide IsAverage, IsSpread, Undistorted, Propagated, Elapsed, Means, Covs;
    if b.imu == [] {
      assert n.samples + b.imu == n.samples;
    } else if n.imu.needInit {
      var t := Started(n.imu, b.imu);
      FirstSample(t.mean);
      CovsSpread(t.mean, t.cov, n.samples, b.imu, |b.imu|);
      assert b.imu[..|b.imu|] == b.imu;
    }
  }

  /** Until initialisation ends, the covariance is in every run the average of those squares. */
  lemma {:induction false} CovariancesAreGathered(c: Config, u: Setup, garbage: real, evs: seq<Event>)
    ensures var n := NodeAfter(c, u, garbage, evs);
            CovsKept(n.imu, n.samples)
  {
    if evs == [] {
      return;
    }
    hide Step, Deliver, MeansKept, CovsKept;
    var before, e := evs[..|evs| - 1], evs[|evs| - 1];
    CovariancesAreGathered(c, u, garbage, before);
    InitialisationAverages(c, u, garbage, before);
    TurnKeepsCovs(c, u, NodeAfter(c, u, garbage, before), e);
  }

  lemma TurnKeepsCovs(c: Config, u: Setup, n: Node, e: Event)
    requires n.run.s.Parallel() && n.imu.iterNum > 0 && MeansKept(n.imu, n.samples) && CovsKept(n.imu, n.samples)
    ensures var r := Turn(c, u, n, e);
            CovsKept(r.imu, r.samples)
  {
    var run := Step(c, n.run, e);
    hide Step, Deliver, MeansKept, CovsKept;
    if e.Poll? && |run.bundles| > |n.run.bundles| {
      DeliverKeepsCovs(u, n.(run := run), run.bundles[|run.bundles| - 1]);
    }
  }

  // ---------------------------------------------------------------- the noise of the filter steps

  /** Every step so far has the library's noise or, from some step on, the configured one. */
  ghost predicate Noised(u: Setup, noise: Input, kf: Filter) {
    && (noise == u.libraryNoise || noise == u.configured)
    && (forall k :: 0 <= k < |kf| && kf[k].Predict? ==> kf[k].noise == u.libraryNoise || kf[k].noise == u.configured)
    && (forall k :: 0 <= k < |kf| && kf[k].Predict? && kf[k].noise == u.configured ==> noise == u.configured)
    && (forall j, k :: 0 <= j < k < |kf| && kf[j].Predict? && kf[k].Predict? && kf[j].noise == u.configured
          ==> kf[k].noise == u.configured)
  }

  lemma NoisedSnoc(u: Setup, noise: Input, kf: Filter, step: FilterStep)
    requires Noised(u, noise, kf)
    requires step.Predict? ==> step.noise == noise || step.noise == u.configured
    ensures Noised(u, if step.Predict? then step.noise else noise, kf + [step])
  {
  }

  lemma {:induction false} ForwardNoised(u: Setup, s: ImuState, v: seq<Imu>, n: nat, begin: real, kf: Filter)
    requires n < |v| && s.cov == u.configured && Noised(u, s.noise, kf)
    ensures var p := Forward(u, s, v, n, begin, kf);
            Noised(u, p.noise, p.kf)
  {
    hide Noised;
    if n > 0 {
      ForwardNoised(u, s, v, n - 1, begin, kf);
      var p, input := Forward(u, s, v, n - 1, begin, kf), InputOf(u, s.mean, v[n - 1], v[n]);
      NoisedSnoc(u, p.noise, p.kf, Predict(StepTime(v[n - 1].stamp, v[n].stamp, s.lastEnd), s.cov, input));
    }
  }

  ghost predicate NoiseKept(u: Setup, i: ImuState, kf: Filter) {
    Noised(u, i.noise, kf) && (!i.needInit ==> i.cov == u.configured)
  }

  lemma DeliverKeepsNoise(u: Setup, n: Node, b: Bundle)
    requires n.imu.iterNum > 0 && NoiseKept(u, n.imu, n.kf)
    ensures var r := Deliver(u, n, b);
            NoiseKept(u, r.imu, r.kf)
  {
    hide Noised, Undistorted, Forward, Elapsed;
    if b.imu == [] {
    } else if n.imu.needInit {
      NoisedSnoc(u, n.imu.noise, n.kf, Set(Initialised(u, n.imu, b.imu).mean));
    } else {
      var v := [n.imu.lastImu] + b.imu;
      ForwardNoised(u, n.imu, v, |v| - 1, b.Start(), n.kf);
      var p := Forward(u, n.imu, v, |v| - 1, b.Start(), n.kf);
      NoisedSnoc(u, p.noise, p.kf, Predict(Abs(b.End() - v[|v| - 1].stamp), p.noise, p.input));
    }
  }

  /** In every run: the covariances gathered while initialising never reach a filter step; a
      step has the configured noise or, before the first of those, the library's own. */
  lemma {:induction false} NoiseIsConfigured(c: Config, u: Setup, garbage: real, evs: seq<Event>)
    ensures var n := NodeAfter(c, u, garbage, evs);
            NoiseKept(u, n.imu, n.kf)
  {
    if evs != [] {
      var before, e := evs[..|evs| - 1], evs[|evs| - 1];
      NoiseIsConfigured(c, u, garbage, before);
      hide Step, Deliver, NoiseKept;
      TurnKeepsNoise(c, u, NodeAfter(c, u, garbage, before), e);
    }
  }

  lemma TurnKeepsNoise(c: Config, u: Setup, n: Node, e: Event)
    requires n.run.s.Parallel() && n.imu.iterNum > 0 && NoiseKept(u, n.imu, n.kf)
    ensures var r := Turn(c, u, n, e);
            NoiseKept(u, r.imu, r.kf)
  {
    var run := Step(c, n.run, e);
    hide Step, Deliver, NoiseKept;
    if e.Poll? && |run.bundles| > |n.run.bundles| {
      DeliverKeepsNoise(u, n.(run := run), run.bundles[|run.bundles| - 1]);
    }
  }
}
