/** The dual-lidar branch of sync_packages in laserMapping_bundle.cpp with its callbacks, on
    exact times.  SyncState is the value of the globals; Sync, PushScan and PushImu are what
    one call does to it; class Globals holds the globals and is proved against them. */
module Synchroniser {
  import opened Basics
  import opened OfflineMatch

  datatype Vec3 = Vec3(x: real, y: real, z: real)

  /** curvature is the point's time offset in milliseconds */
  datatype Point = Point(pos: Vec3, curvature: real)

  type Cloud = seq<Point>

  datatype Scan = Scan(stamp: real, cloud: Cloud)

  datatype Imu = Imu(stamp: real, acc: Vec3, gyro: Vec3)

  /** MeasureGroup */
  datatype Bundle = Bundle(lidar: Cloud, begin1: real, end1: real, lidar2: Cloud, begin2: real, end2: real,
                           imu: seq<Imu>)
  {
    function Start(): real { if begin1 < begin2 then begin1 else begin2 }

    function End(): real { if end1 > end2 then end1 else end2 }
  }

  datatype Config = Config(skew: real, lidar2ToLidar1: Vec3 -> Vec3)

  /** What the code keeps per lidar. */
  datatype Stream = Stream(clouds: seq<Cloud>, times: seq<real>, lastStamp: real, meanScan: real, scanNum: nat,
                           endTime: real)

  datatype SyncState = SyncState(s1: Stream, s2: Stream, imu: seq<Imu>, lastImu: real, seenScan: bool, pushed: bool,
                                 meas: Bundle)
  {
    predicate Parallel() {
      |s1.clouds| == |s1.times| && |s2.clouds| == |s2.times|
    }
  }

  // ---------------------------------------------------------------- callbacks

  function PushScan(s: Stream, stamp: real, cloud: Cloud): (r: Stream)
    ensures |s.clouds| == |s.times| ==> |r.clouds| == |r.times|
    ensures r.endTime == s.endTime
  {
    var kept := if stamp < s.lastStamp then s.(clouds := [], times := []) else s;
    kept.(clouds := kept.clouds + [cloud], times := kept.times + [stamp], lastStamp := stamp)
  }

  function PushImu(s: SyncState, m: Imu): SyncState {
    if !s.seenScan then s
    else s.(imu := (if m.stamp < s.lastImu then [] else s.imu) + [m], lastImu := m.stamp)
  }

  // ---------------------------------------------------------------- one call of sync_packages

  /** How many scans of each queue the dropping loop discards. */
  function Drops(t1: seq<real>, t2: seq<real>, skew: real): (d: (nat, nat))
    ensures d.0 <= |t1| && d.1 <= |t2|
  {
    if t1 == [] || t2 == [] || Abs(t1[0] - t2[0]) <= skew then (0, 0)
    else if t1[0] < t2[0] then var d := Drops(t1[1..], t2, skew); (d.0 + 1, d.1)
    else var d := Drops(t1, t2[1..], skew); (d.0, d.1 + 1)
  }

  function Dropped(s: Stream, n: nat): Stream
    requires n <= |s.clouds| && n <= |s.times|
  {
    s.(clouds := s.clouds[n..], times := s.times[n..])
  }

  datatype Span = Span(end: real, mean: real, num: nat)

  /** A scan's end time, and the running mean of scan durations after it. */
  function Ended(mean: real, num: nat, cloud: Cloud, begin: real): Span {
    if |cloud| <= 1 || cloud[|cloud| - 1].curvature / 1000.0 < 0.5 * mean then Span(begin + mean, mean, num)
    else
      var span := cloud[|cloud| - 1].curvature / 1000.0;
      Span(begin + span, mean + (span - mean) / (num + 1) as real, num + 1)
  }

  function Transformed(f: Vec3 -> Vec3, cloud: Cloud): (r: Cloud)
    ensures |r| == |cloud|
  {
    seq(|cloud|, i requires 0 <= i < |cloud| => cloud[i].(pos := f(cloud[i].pos)))
  }

  /** Offsets that counted from a scan's own start, counted from an earlier start instead. */
  function Rebased(cloud: Cloud, ms: real): (r: Cloud)
    ensures |r| == |cloud|
  {
    seq(|cloud|, i requires 0 <= i < |cloud| => cloud[i].(curvature := cloud[i].curvature + ms))
  }

  function Latch(c: Config, s: SyncState): (r: SyncState)
    requires s.Parallel() && s.s1.times != [] && s.s2.times != []
    ensures r.Parallel() && r.s1.times == s.s1.times && r.s2.times == s.s2.times && r.imu == s.imu
  {
    var b1, b2 := s.s1.times[0], s.s2.times[0];
    var cloud2 := Transformed(c.lidar2ToLidar1, s.s2.clouds[0]);
    var e1 := Ended(s.s1.meanScan, s.s1.scanNum, s.s1.clouds[0], b1);
    var e2 := Ended(s.s2.meanScan, s.s2.scanNum, cloud2, b2);
    var start := if b2 < b1 then b2 else b1;
    var c1, c2 := Rebased(s.s1.clouds[0], 1000.0 * (b1 - start)), Rebased(cloud2, 1000.0 * (b2 - start));
    s.(s1 := s.s1.(clouds := [c1] + s.s1.clouds[1..], endTime := e1.end, meanScan := e1.mean, scanNum := e1.num),
       s2 := s.s2.(clouds := [c2] + s.s2.clouds[1..], endTime := e2.end, meanScan := e2.mean, scanNum := e2.num),
       pushed := true,
       meas := Bundle(c1, b1, e1.end, c2, b2, e2.end, s.meas.imu))
  }

  /** How many samples the cutting loop takes, its imu_time variable starting at prev. */
  function Take(imu: seq<Imu>, prev: real, end1: real, end2: real): (n: nat)
    ensures n <= |imu|
  {
    if imu == [] || !(prev < end1 || prev < end2) || (imu[0].stamp > end1 && imu[0].stamp > end2) then 0
    else 1 + Take(imu[1..], imu[0].stamp, end1, end2)
  }

  datatype SyncResult = SyncResult(state: SyncState, ready: bool, drops: (nat, nat))

  /** Dropping and latching; ready when there is a latched pair. */
  function Prepare(c: Config, s: SyncState): (r: SyncResult)
    requires s.Parallel()
    ensures r.state.Parallel() && (r.ready ==> r.state.s1.times != [] && r.state.s2.times != [])
    ensures r.state.imu == s.imu
  {
    var d := if s.pushed then (0, 0) else Drops(s.s1.times, s.s2.times, c.skew);
    var a := s.(s1 := Dropped(s.s1, d.0), s2 := Dropped(s.s2, d.1));
    if a.s1.clouds == [] || a.s2.clouds == [] then SyncResult(a, false, d)
    else SyncResult(if s.pushed then a else Latch(c, a), true, d)
  }

  /** Cutting the IMU stream and consuming the latched scans; meas is the bundle. */
  function Emit(l: SyncState): (r: SyncState)
    requires l.Parallel() && l.s1.times != [] && l.s2.times != [] && l.imu != []
    ensures r.Parallel()
  {
    var n := Take(l.imu, l.imu[0].stamp, l.s1.endTime, l.s2.endTime);
    l.(imu := l.imu[n..], meas := l.meas.(imu := l.imu[..n]), pushed := false, s1 := Dropped(l.s1, 1),
       s2 := Dropped(l.s2, 1))
  }

  /** sync_packages */
  function Sync(c: Config, s: SyncState): (r: SyncResult)
    requires s.Parallel()
    ensures r.state.Parallel()
  {
    if s.s1.clouds == [] || s.s2.clouds == [] || s.imu == [] then SyncResult(s, false, (0, 0))
    else
      var p := Prepare(c, s);
      if !p.ready || p.state.lastImu < p.state.s1.endTime || p.state.lastImu < p.state.s2.endTime
      then p.(ready := false)
      else SyncResult(Emit(p.state), true, p.drops)
  }

  // ---------------------------------------------------------------- the globals

  /** The globals of the node; the variables kept once per lidar are grouped in a Stream. */
  class Globals {
    var lidar1: Stream
    var lidar2: Stream
    var imuBuffer: seq<Imu>
    var lastTimestampImu: real
    var firstLidarScanCheck: bool
    var lidarPushed: bool
    var meas: Bundle

    function View(): SyncState
      reads this
    {
      SyncState(lidar1, lidar2, imuBuffer, lastTimestampImu, firstLidarScanCheck, lidarPushed, meas)
    }

    constructor ()
      ensures View() == Initial()
    {
      var s := Stream([], [], 0.0, 0.0, 0, 0.0);
      lidar1, lidar2 := s, s;
      imuBuffer, lastTimestampImu, firstLidarScanCheck, lidarPushed := [], -1.0, false, false;
      meas := Bundle([], 0.0, 0.0, [], 0.0, 0.0, []);
    }

    /** standard_pcl_cbk and livox_pcl_cbk */
    method LidarCallback(stamp: real, cloud: Cloud)
      modifies this
      ensures View() == old(View()).(s1 := PushScan(old(lidar1), stamp, cloud), seenScan := true)
    {
      if stamp < lidar1.lastStamp {
        lidar1 := lidar1.(clouds := [], times := []);
      }
      lidar1 := lidar1.(clouds := lidar1.clouds + [cloud]);
      lidar1 := lidar1.(times := lidar1.times + [stamp]);
      lidar1 := lidar1.(lastStamp := stamp);
      firstLidarScanCheck := true;
    }

    /** standard_pcl_cbk2 and livox_pcl_cbk2 */
    method LidarCallback2(stamp: real, cloud: Cloud)
      modifies this
      ensures View() == old(View()).(s2 := PushScan(old(lidar2), stamp, cloud), seenScan := true)
    {
      if stamp < lidar2.lastStamp {
        lidar2 := lidar2.(clouds := [], times := []);
      }
      lidar2 := lidar2.(clouds := lidar2.clouds + [cloud]);
      lidar2 := lidar2.(times := lidar2.times + [stamp]);
      lidar2 := lidar2.(lastStamp := stamp);
      firstLidarScanCheck := true;
    }

    method ImuCallback(m: Imu)
      modifies this
      ensures View() == PushImu(old(View()), m)
    {
      if !firstLidarScanCheck {
        return;
      }
      if m.stamp < lastTimestampImu {
        imuBuffer := [];
      }
      lastTimestampImu := m.stamp;
      imuBuffer := imuBuffer + [m];
    }

    method SyncPackages(c: Config) returns (ready: bool)
      requires View().Parallel()
      modifies this
      ensures View() == Sync(c, old(View())).state && ready == Sync(c, old(View())).ready
    {
      hide Drops, Latch, Take;
      if lidar1.clouds == [] || lidar2.clouds == [] || imuBuffer == [] {
        return false;
      }
      if !lidarPushed {
        DropUnpaired(c);
        if lidar1.clouds == [] || lidar2.clouds == [] {
          return false;
        }
        LatchFronts(c);
      }
      if lastTimestampImu < lidar1.endTime || lastTimestampImu < lidar2.endTime {
        return false;
      }
      CutImu();
      lidar1, lidar2 := Dropped(lidar1, 1), Dropped(lidar2, 1);
      lidarPushed := false;
      return true;
    }

    method DropUnpaired(c: Config)
      requires View().Parallel()
      modifies `lidar1, `lidar2
      ensures var d := Drops(old(lidar1).times, old(lidar2).times, c.skew);
              lidar1 == Dropped(old(lidar1), d.0) && lidar2 == Dropped(old(lidar2), d.1)
    {
      ghost var n1, n2 := 0, 0;
      while lidar1.times != [] && lidar2.times != [] && Abs(lidar1.times[0] - lidar2.times[0]) > c.skew
        invariant n1 <= |old(lidar1).times| && n2 <= |old(lidar2).times|
        invariant lidar1 == Dropped(old(lidar1), n1) && lidar2 == Dropped(old(lidar2), n2)
        invariant var d := Drops(lidar1.times, lidar2.times, c.skew);
                  (n1 + d.0, n2 + d.1) == Drops(old(lidar1).times, old(lidar2).times, c.skew)
        decreases |lidar1.times| + |lidar2.times|
      {
        if lidar1.times[0] < lidar2.times[0] {
          lidar1 := Dropped(lidar1, 1);
          n1 := n1 + 1;
        } else {
          lidar2 := Dropped(lidar2, 1);
          n2 := n2 + 1;
        }
      }
    }

    method LatchFronts(c: Config)
      requires View().Parallel() && lidar1.times != [] && lidar2.times != []
      modifies `lidar1, `lidar2, `lidarPushed, `meas
      ensures View() == Latch(c, old(View()))
    {
      hide Ended, Transformed, Rebased;
      var cloud, begin1, begin2 := lidar1.clouds[0], lidar1.times[0], lidar2.times[0];
      lidar1 := EndScan(lidar1, cloud, begin1);
      var cloud2 := Transformed(c.lidar2ToLidar1, lidar2.clouds[0]);
      lidar2 := EndScan(lidar2, cloud2, begin2);
      var start := if begin2 < begin1 then begin2 else begin1;
      meas := Bundle(Rebased(cloud, 1000.0 * (begin1 - start)), begin1, lidar1.endTime,
                     Rebased(cloud2, 1000.0 * (begin2 - start)), begin2, lidar2.endTime, meas.imu);
      // The measure group shares its clouds with the queue fronts.
      lidar1 := lidar1.(clouds := [meas.lidar] + lidar1.clouds[1..]);
      lidar2 := lidar2.(clouds := [meas.lidar2] + lidar2.clouds[1..]);
      lidarPushed := true;
    }

    static method EndScan(s: Stream, cloud: Cloud, begin: real) returns (r: Stream)
      ensures var e := Ended(s.meanScan, s.scanNum, cloud, begin);
              r == s.(endTime := e.end, meanScan := e.mean, scanNum := e.num)
    {
      r := s;
      if |cloud| <= 1 {
        r := r.(endTime := begin + s.meanScan);
      } else if cloud[|cloud| - 1].curvature / 1000.0 < 0.5 * s.meanScan {
        r := r.(endTime := begin + s.meanScan);
      } else {
        var span := cloud[|cloud| - 1].curvature / 1000.0;
        r := r.(scanNum := s.scanNum + 1);
        r := r.(endTime := begin + span);
        r := r.(meanScan := s.meanScan + (span - s.meanScan) / r.scanNum as real);
      }
    }

    method CutImu()
      requires imuBuffer != []
      modifies `imuBuffer, `meas
      ensures var n := Take(old(imuBuffer), old(imuBuffer)[0].stamp, lidar1.endTime, lidar2.endTime);
              imuBuffer == old(imuBuffer)[n..] && meas == old(meas).(imu := old(imuBuffer)[..n])
    {
      var imuTime := imuBuffer[0].stamp;
      meas := meas.(imu := []);
      ghost var n := 0;
      while imuBuffer != [] && (imuTime < lidar1.endTime || imuTime < lidar2.endTime)
        invariant n <= |old(imuBuffer)|
        invariant imuBuffer == old(imuBuffer)[n..] && meas == old(meas).(imu := old(imuBuffer)[..n])
        invariant n + Take(imuBuffer, imuTime, lidar1.endTime, lidar2.endTime)
                  == Take(old(imuBuffer), old(imuBuffer)[0].stamp, lidar1.endTime, lidar2.endTime)
        decreases |imuBuffer|
      {
        imuTime := imuBuffer[0].stamp;
        if imuTime > lidar1.endTime && imuTime > lidar2.endTime {
          break;
        }
        meas := meas.(imu := meas.imu + [imuBuffer[0]]);
        imuBuffer := imuBuffer[1..];
        n := n + 1;
      }
    }
  }

  function Initial(): SyncState {
    var s := Stream([], [], 0.0, 0.0, 0, 0.0);
    SyncState(s, s, [], -1.0, false, false, Bundle([], 0.0, 0.0, [], 0.0, 0.0, []))
  }
}
