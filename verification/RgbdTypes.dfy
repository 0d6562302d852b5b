/** Messages and settings of rgbd_capture: stamps in nanoseconds, floating point as exact reals,
    payloads as uninterpreted integers. */
module RgbdTypes {
  import opened Basics

  /** header.seq, header.stamp and header.frame_id, then what the pixels are. */
  datatype Image = Image(id: nat, stamp: int, frame: string, encoding: string, pixels: seq<int>)

  /** A CameraInfo. */
  datatype Info = Info(id: nat, stamp: int, frame: string, model: seq<real>)

  datatype Pose = Pose(position: seq<real>, orientation: seq<real>)

  datatype Odometry = Odometry(id: nat, stamp: int, frame: string, child: string, pose: Pose)

  datatype Transform = Transform(id: nat, stamp: int, frame: string, child: string, pose: Pose)

  /** A rigid motion as the code's 4x4 array. */
  datatype Matrix = Matrix(entries: seq<real>)

  /** np.allclose(a, b, atol=atol) with numpy's own relative tolerance. */
  predicate AllClose(a: Matrix, b: Matrix, atol: real) {
    |a.entries| == |b.entries|
    && forall i :: 0 <= i < |a.entries| ==> Abs(a.entries[i] - b.entries[i]) <= atol + 0.00001 * Abs(b.entries[i])
  }

  datatype Config = Config(
    rate: real, rgbdSlop: real, maxOdomGap: real, wait: real, cameraTimeOffset: real, depthScale: real,
    world: string, body: string, optical: string, imageBuffer: nat)
  {
    /** Config.validate */
    predicate Valid() {
      && 0.0 < rate <= 10.0 && 0.0 < rgbdSlop < 0.05 && 0.0 < maxOdomGap <= 1.0 && wait > 0.0 && depthScale > 0.0
      && imageBuffer >= 2 && world != "" && body != "" && optical != ""
    }

    function Slop(): (r: nat)
      requires Valid()
      ensures r as real <= rgbdSlop * 1000000000.0
    {
      (rgbdSlop * 1000000000.0).Floor
    }

    /** int(1e9 / rate) */
    function Period(): (r: nat)
      requires Valid()
      ensures r > 0
    {
      PeriodPositive(rate);
      (1000000000.0 / rate).Floor
    }

    /** int((wait + 2) * 1e9) */
    function Memory(): nat
      requires Valid()
    {
      ((wait + 2.0) * 1000000000.0).Floor
    }

    /** The pose query time of an image: t + round(camera_time_offset * 1e9). */
    function Target(t: int): int {
      t + Round(cameraTimeOffset * 1000000000.0)
    }
  }

  lemma PeriodPositive(rate: real)
    requires 0.0 < rate <= 10.0
    ensures 1000000000.0 / rate >= 1.0
  {
  }

  /** Python's round: ties go to the even integer. */
  function Round(x: real): int {
    var low, rest := x.Floor, x - x.Floor as real;
    if rest < 0.5 || (rest == 0.5 && low % 2 == 0) then low else low + 1
  }

  function Seconds(ns: int): real { ns as real / 1000000000.0 }

  function Distance(x: int, y: int): nat { if x < y then y - x else x - y }

  ghost predicate Increasing(s: seq<int>) {
    forall i, j :: 0 <= i < j < |s| ==> s[i] < s[j]
  }

  function Stamps(a: seq<Image>): (r: seq<int>)
    ensures |r| == |a| && forall i :: 0 <= i < |a| ==> r[i] == a[i].stamp
  {
    seq(|a|, i requires 0 <= i < |a| => a[i].stamp)
  }
}
