/** ImuProcess::Process for two lidars in IMU_Processing.hpp: the running means of the first
    samples, then for every bundle forward propagation and backward undistortion.  The filter
    is known by the steps it is given, so what is proved is proved of every filter. */
module ImuProcess {
  import opened Basics
  import opened OfflineMatch
  import opened Synchroniser
  import opened Undistortion

  const MAX_INI_COUNT := 10

  /** What stays uninterpreted: scaling an acceleration to gravity, the library's sort, the
      compensation of a point, a default-constructed filter input, the filter library's noise
      matrix, and the configured covariances. */
  datatype Setup = Setup(scaled: (Vec3, Vec3) -> Vec3, sorted: Cloud -> Cloud, moved: Compensation, unset: Input,
                         libraryNoise: Input, configured: Input)

  /** noise is what the matrix Q holds for the two sensors. */
  datatype ImuState = ImuState(needInit: bool, firstFrame: bool, iterNum: nat, lastImu: Imu, lastEnd: real,
                               mean: Input, cov: Input, noise: Input)

  // ---------------------------------------------------------------- forward propagation

  function Half(a: Vec3, b: Vec3): Vec3 { Vec3(0.5 * (a.x + b.x), 0.5 * (a.y + b.y), 0.5 * (a.z + b.z)) }

  function InputOf(u: Setup, mean: Input, head: Imu, tail: Imu): Input {
    Input(u.scaled(Half(head.acc, tail.acc), mean.acc), Half(head.gyro, tail.gyro))
  }

  /** The part of the time from head to tail that lies after lastEnd. */
  function StepTime(head: real, tail: real, lastEnd: real): real {
    if head < lastEnd then tail - lastEnd else tail - head
  }

  datatype Propagation = Propagation(kf: Filter, poses: seq<Pose>, input: Input, noise: Input)

  /** After the first n of the intervals between the samples v. */
  function Forward(u: Setup, s: ImuState, v: seq<Imu>, n: nat, begin: real, kf: Filter): (p: Propagation)
    requires n < |v|
    ensures p.poses != []
  {
    if n == 0 then Propagation(kf, [Pose(0.0, kf)], u.unset, s.noise)
    else
      var p := Forward(u, s, v, n - 1, begin, kf);
      if v[n].stamp < s.lastEnd then p
      else
        var input := InputOf(u, s.mean, v[n - 1], v[n]);
        var kf' := p.kf + [Predict(StepTime(v[n - 1].stamp, v[n].stamp, s.lastEnd), s.cov, input)];
        Propagation(kf', p.poses + [Pose(v[n].stamp - begin, kf')], input, s.cov)
  }

  /** Forward propagation up to the bundle's end. */
  function Propagated(u: Setup, s: ImuState, kf: Filter, b: Bundle): (p: Propagation)
    ensures p.poses != []
  {
    var v := [s.lastImu] + b.imu;
    var p := Forward(u, s, v, |v| - 1, b.Start(), kf);
    p.(kf := p.kf + [Predict(Abs(b.End() - v[|v| - 1].stamp), p.noise, p.input)])
  }

  // ---------------------------------------------------------------- initialisation

  function Towards(m: Vec3, x: Vec3, n: nat): Vec3
    requires n > 0
  {
    Vec3(m.x + (x.x - m.x) / n as real, m.y + (x.y - m.y) / n as real, m.z + (x.z - m.z) / n as real)
  }

  /** The running means after the first k samples, the next one being the n-th of all. */
  function Means(mean: Input, n: nat, imu: seq<Imu>, k: nat): Input
    requires n > 0 && k <= |imu|
  {
    if k == 0 then mean
    else
      var m := Means(mean, n, imu, k - 1);
      Input(Towards(m.acc, imu[k - 1].acc, n + k - 1), Towards(m.gyro, imu[k - 1].gyro, n + k - 1))
  }

  /** A covariance after one more sample, the n-th, with the mean m that already counts it. */
  function Spread(c: Vec3, m: Vec3, x: Vec3, n: nat): Vec3
    requires n > 0
  {
    Vec3(Spread1(c.x, x.x - m.x, n as real), Spread1(c.y, x.y - m.y, n as real), Spread1(c.z, x.z - m.z, n as real))
  }

  function Spread1(c: real, d: real, n: real): real
    requires n > 0.0
  {
    c * (n - 1.0) / n + d * d * (n - 1.0) / (n * n)
  }

  /** The running covariances after the first k samples. */
  function Covs(mean: Input, cov: Input, n: nat, imu: seq<Imu>, k: nat): Input
    requires n > 0 && k <= |imu|
  {
    if k == 0 then cov
    else
      var m, c := Means(mean, n, imu, k), Covs(mean, cov, n, imu, k - 1);
      Input(Spread(c.acc, m.acc, imu[k - 1].acc, n + k - 1), Spread(c.gyro, m.gyro, imu[k - 1].gyro, n + k - 1))
  }

  function Started(s: ImuState, imu: seq<Imu>): (r: ImuState)
    requires imu != []
  {
    if !s.firstFrame then s
    else s.(needInit := true, firstFrame := false, iterNum := 1, mean := Input(imu[0].acc, imu[0].gyro))
  }

  /** IMU_init */
  function Gathered(s: ImuState, imu: seq<Imu>): (r: ImuState)
    requires imu != [] && s.iterNum > 0
    ensures r.iterNum > 0
  {
    var t := Started(s, imu);
    t.(mean := Means(t.mean, t.iterNum, imu, |imu|), cov := Covs(t.mean, t.cov, t.iterNum, imu, |imu|),
       iterNum := t.iterNum + |imu|, lastImu := imu[|imu| - 1])
  }

  /** A bundle of initialisation; with the last one the configured covariances replace the
      gathered ones. */
  function Initialised(u: Setup, s: ImuState, imu: seq<Imu>): (r: ImuState)
    requires imu != [] && s.iterNum > 0
    ensures r.iterNum > 0
  {
    var t := Gathered(s, imu);
    if t.iterNum <= MAX_INI_COUNT then t.(needInit := true) else t.(needInit := false, cov := u.configured)
  }

  // ---------------------------------------------------------------- one bundle

  /** The state, the filter, and the cloud handed on; the cloud is only written when both
      scans have points. */
  datatype Processed = Processed(state: ImuState, kf: Filter, out: Cloud)

  function Process(u: Setup, s: ImuState, kf: Filter, b: Bundle, out: Cloud): Processed
    requires s.iterNum > 0
  {
    if b.imu == [] then Processed(s, kf, out)
    else if s.needInit then
      var t := Initialised(u, s, b.imu);
      Processed(t, kf + [Set(t.mean)], out)
    else
      var p := Propagated(u, s, kf, b);
      Processed(s.(lastImu := b.imu[|b.imu| - 1], lastEnd := b.End(), noise := p.noise), p.kf,
                if b.lidar == [] || b.lidar2 == [] then out
                else Undistorted(u.moved, u.sorted(b.lidar), p.poses, p.kf)
                     + Undistorted(u.moved, u.sorted(b.lidar2), p.poses, p.kf))
  }

  /** The library's sort puts a cloud in order of time and loses no point. */
  ghost predicate Sorts(f: Cloud -> Cloud) {
    forall c :: ByTime(f(c)) && |f(c)| == |c| && multiset(f(c)) == multiset(c)
  }

  /** A node starts in this state, whatever its uninitialised end time is. */
  function Fresh(u: Setup, garbage: real): (r: ImuState)
    ensures r.needInit && r.firstFrame && r.iterNum == 1
  {
    var zero, tenth := Vec3(0.0, 0.0, 0.0), Vec3(0.1, 0.1, 0.1);
    ImuState(true, true, 1, Imu(0.0, zero, zero), garbage, Input(Vec3(0.0, 0.0, -1.0), zero), Input(tenth, tenth),
             u.libraryNoise)
  }

  class ImuProcessor {
    const u: Setup
    var needInit: bool
    var firstFrame: bool
    var iterNum: nat
    var lastImu: Imu
    var lastEnd: real
    var mean: Input
    var cov: Input
    var noise: Input

    function View(): ImuState
      reads this
    {
      ImuState(needInit, firstFrame, iterNum, lastImu, lastEnd, mean, cov, noise)
    }

    constructor (u: Setup, garbage: real)
      ensures this.u == u && View() == Fresh(u, garbage)
    {
      this.u := u;
      var zero := Vec3(0.0, 0.0, 0.0);
      needInit, firstFrame, iterNum := true, true, 1;
      lastImu, lastEnd, mean := Imu(0.0, zero, zero), garbage, Input(Vec3(0.0, 0.0, -1.0), zero);
      cov, noise := Input(Vec3(0.1, 0.1, 0.1), Vec3(0.1, 0.1, 0.1)), u.libraryNoise;
    }

    method ImuInit(imu: seq<Imu>)
      requires imu != [] && iterNum > 0
      modifies this
      ensures View() == Gathered(old(View()), imu)
    {
      hide Spread, Towards;
      if firstFrame {
        needInit, firstFrame, iterNum := true, false, 1;
        mean := Input(imu[0].acc, imu[0].gyro);
      }
      ghost var t := View();
      for k := 0 to |imu|
        invariant View() == t.(mean := Means(t.mean, t.iterNum, imu, k), cov := Covs(t.mean, t.cov, t.iterNum, imu, k),
                               iterNum := t.iterNum + k)
      {
        mean := Input(Towards(mean.acc, imu[k].acc, iterNum), Towards(mean.gyro, imu[k].gyro, iterNum));
        cov := Input(Spread(cov.acc, mean.acc, imu[k].acc, iterNum), Spread(cov.gyro, mean.gyro, imu[k].gyro, iterNum));
        iterNum := iterNum + 1;
      }
      lastImu := imu[|imu| - 1];
    }

    method ForwardPropagation(v: seq<Imu>, begin: real, kf: Filter) returns (p: Propagation)
      requires v != []
      ensures p == Forward(u, View(), v, |v| - 1, begin, kf)
    {
      p := Propagation(kf, [Pose(0.0, kf)], u.unset, noise);
      for k := 0 to |v| - 1
        invariant p == Forward(u, View(), v, k, begin, kf)
      {
        var head, tail := v[k], v[k + 1];
        if tail.stamp < lastEnd {
          continue;
        }
        var dt := tail.stamp - head.stamp;
        if head.stamp < lastEnd {
          dt := tail.stamp - lastEnd;
        }
        var input := InputOf(u, mean, head, tail);
        var kf' := p.kf + [Predict(dt, cov, input)];
        p := Propagation(kf', p.poses + [Pose(tail.stamp - begin, kf')], input, cov);
      }
    }

    method UndistortCloud(cloud: Cloud, poses: seq<Pose>, end: Filter) returns (r: Cloud)
      requires cloud != [] && poses != [] && ByTime(cloud)
      ensures r == Undistorted(u.moved, cloud, poses, end)
    {
      var a := new Point[|cloud|](i requires 0 <= i < |cloud| => cloud[i]);
      assert a[..] == cloud;
      Undistort(u.moved, a, poses, end);
      r := a[..];
    }

    method UndistortPclMultiLidar(b: Bundle, kf: Filter, out: Cloud) returns (kf': Filter, out': Cloud)
      requires Sorts(u.sorted) && b.imu != [] && iterNum > 0 && !needInit
      modifies this
      ensures Processed(View(), kf', out') == Process(u, old(View()), kf, b, out)
    {
      hide Forward, Undistorted;
      var v := [lastImu] + b.imu;
      var p := ForwardPropagation(v, b.Start(), kf);
      var note := if b.End() > v[|v| - 1].stamp then 1.0 else -1.0;
      var dt := note * (b.End() - v[|v| - 1].stamp);
      kf' := p.kf + [Predict(dt, p.noise, p.input)];
      assert kf' == Propagated(u, View(), kf, b).kf;
      lastImu := b.imu[|b.imu| - 1];
      lastEnd, noise := b.End(), p.noise;
      if b.lidar == [] || b.lidar2 == [] {
        return kf', out;
      }
      var out1 := UndistortCloud(u.sorted(b.lidar), p.poses, kf');
      var out2 := UndistortCloud(u.sorted(b.lidar2), p.poses, kf');
      out' := out1 + out2;
    }

    method Handle(b: Bundle, kf: Filter, out: Cloud) returns (kf': Filter, out': Cloud)
      requires Sorts(u.sorted) && iterNum > 0
      modifies this
      ensures Processed(View(), kf', out') == Process(u, old(View()), kf, b, out)
    {
      if b.imu == [] {
        return kf, out;
      }
      if needInit {
        ImuInit(b.imu);
        needInit := true;
        if iterNum > MAX_INI_COUNT {
          needInit := false;
          cov := u.configured;
        }
        return kf + [Set(mean)], out;
      }
      kf', out' := UndistortPclMultiLidar(b, kf, out);
    }
  }
}
