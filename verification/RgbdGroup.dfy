/** Making one output frame from a pair of images: Engine._make_group in rgbd_capture/core.py.
    Matrices, SLERP, the tf2 library and the pixel checks stay uninterpreted. */
module RgbdGroup {
  import opened Basics
  import opened RgbdTypes
  import OdometryWindow

  datatype Geometry = Geometry(
    matrix: Pose -> Option<Matrix>,
    pose: Matrix -> Pose,
    blend: (Matrix, Matrix, real) -> Matrix,
    compose: (Matrix, Matrix) -> Matrix,
    rigid: Matrix -> bool,
    lookup: (map<string, Transform>, string, string) -> Option<Transform>,
    quality: (Image, Image, Info, Info, string) -> Option<real>)
  {
    /** pose_matrix gives rigid motions or fails; rigid motions compose, interpolate, and
        nearly survive the way to a pose message and back; tf2 names the frames it was asked for. */
    ghost predicate Lawful() {
      && (forall p :: matrix(p).Some? ==> rigid(matrix(p).value))
      && (forall a, b, t :: rigid(a) && rigid(b) ==> rigid(blend(a, b, t)))
      && (forall a, b :: rigid(a) && rigid(b) ==> rigid(compose(a, b)))
      && (forall m :: rigid(m) ==> matrix(pose(m)).Some? && AllClose(matrix(pose(m)).value, m, 0.000001))
      && (forall s, to, from :: lookup(s, to, from).Some? ==>
            lookup(s, to, from).value.frame == to && lookup(s, to, from).value.child == from)
    }

    /** validate_rgbd, which reads neither header.seq nor header.stamp. */
    function Quality(rgb: Image, dep: Image, ci: Info, di: Info, optical: string): Option<real> {
      quality(rgb.(id := 0, stamp := 0), dep.(id := 0, stamp := 0), ci.(id := 0, stamp := 0),
              di.(id := 0, stamp := 0), optical)
    }
  }

  datatype StampedPose = StampedPose(id: nat, stamp: int, frame: string, pose: Pose)

  /** The annotation of a frame. */
  datatype Meta = Meta(
    frameIndex: nat, rgbStamp: int, depthStamp: int, rgbSeq: nat, depthSeq: nat, delta: int, query: int,
    before: int, after: int, alpha: real, rgbInfoStamp: int, depthInfoStamp: int,
    encoding: string, scale: real, valid: real, cameraFrame: string, worldFrame: string)

  datatype Frame = Frame(rgb: Image, depth: Image, rgbInfo: Info, depthInfo: Info, pose: StampedPose, ext: Transform,
                         meta: Meta)

  datatype Reason = NoBracketingOdometry | OdometryGap | MissingCameraInfo | MissingStaticExtrinsics | InvalidRgbd

  /** Late: LookupError, tried again later.  Bad: ValueError.  Changed: RuntimeError. */
  datatype Outcome = Late(reason: Reason) | Bad | Changed | Made(frame: Frame, extrinsic: Matrix)

  function Times(odoms: seq<Odometry>): (r: seq<int>)
    ensures |r| == |odoms| && forall i :: 0 <= i < |odoms| ==> r[i] == odoms[i].stamp
  {
    seq(|odoms|, i requires 0 <= i < |odoms| => odoms[i].stamp)
  }

  /** interpolate: the fraction of the way from a to b. */
  function Alpha(a: int, b: int, target: int): real
    requires a < b
  {
    (target - a) as real / (b - a) as real
  }

  function Interpolated(g: Geometry, a: Odometry, b: Odometry, target: int): Option<(Matrix, real)> {
    if b.stamp <= a.stamp || !(a.stamp <= target <= b.stamp) then None
    else
      var ma, mb := g.matrix(a.pose), g.matrix(b.pose);
      if ma.None? || mb.None? then None
      else Some((g.blend(ma.value, mb.value, Alpha(a.stamp, b.stamp, target)), Alpha(a.stamp, b.stamp, target)))
  }

  /** _info: the latest calibration up to a bound, the first of equals. */
  function BestInfo(infos: seq<Info>, bound: int): (r: Option<Info>)
    ensures r.Some? <==> exists x :: x in infos && x.stamp <= bound
    ensures r.Some? ==> r.value in infos && r.value.stamp <= bound
                        && forall x :: x in infos && x.stamp <= bound ==> x.stamp <= r.value.stamp
  {
    if infos == [] then None
    else
      var best, x := BestInfo(infos[..|infos| - 1], bound), infos[|infos| - 1];
      if x.stamp <= bound && (best.None? || best.value.stamp < x.stamp) then Some(x) else best
  }

  function DepthScale(cfg: Config, encoding: string): real {
    if encoding == "16UC1" then cfg.depthScale else 1.0
  }

  datatype Sources = Sources(odoms: seq<Odometry>, rgbInfos: seq<Info>, depthInfos: seq<Info>,
                             tf: map<string, Transform>, accepted: Option<Matrix>)

  function MakeGroup(g: Geometry, cfg: Config, s: Sources, index: nat, rgb: Image, dep: Image): Outcome
    requires cfg.Valid()
  {
    var ns, target := rgb.stamp, cfg.Target(rgb.stamp);
    var times := Times(s.odoms);
    var j := OdometryWindow.Bracket(times, target);
    if j.None? then Late(NoBracketingOdometry)
    else
      var a, b := s.odoms[j.value - 1], s.odoms[j.value];
      if Seconds(b.stamp - a.stamp) > cfg.maxOdomGap then Late(OdometryGap)
      else
        var ci, di := BestInfo(s.rgbInfos, ns + cfg.Slop()), BestInfo(s.depthInfos, dep.stamp + cfg.Slop());
        if ci.None? || di.None? then Late(MissingCameraInfo)
        else
          var valid := g.Quality(rgb, dep, ci.value, di.value, cfg.optical);
          if valid.None? || valid.value == 0.0 then Bad
          else Located(g, cfg, s, index, rgb, dep, a, b, ci.value, di.value, valid.value)
  }

  /** The half of _make_group that needs the extrinsics. */
  function Located(g: Geometry, cfg: Config, s: Sources, index: nat, rgb: Image, dep: Image,
                   a: Odometry, b: Odometry, ci: Info, di: Info, valid: real): Outcome
  {
    var ext := g.lookup(s.tf, cfg.body, cfg.optical);
    if ext.None? then Late(MissingStaticExtrinsics)
    else
      var m := g.matrix(ext.value.pose);
      if m.None? then Bad
      else if s.accepted.Some? && !AllClose(m.value, s.accepted.value, 0.00000001) then Changed
      else
        var body := Interpolated(g, a, b, cfg.Target(rgb.stamp));
        if body.None? then Bad
        else
          var camera := g.compose(body.value.0, m.value);
          var meta := Meta(index, rgb.stamp, dep.stamp, rgb.id, dep.id, dep.stamp - rgb.stamp, cfg.Target(rgb.stamp),
                           a.stamp, b.stamp, body.value.1, ci.stamp, di.stamp,
                           dep.encoding, DepthScale(cfg, dep.encoding), valid, cfg.optical, cfg.world);
          Made(Frame(rgb.(id := index), dep.(id := index), ci.(id := index, stamp := rgb.stamp),
                     di.(id := index, stamp := dep.stamp),
                     StampedPose(index, rgb.stamp, cfg.world, g.pose(camera)),
                     ext.value.(id := index, stamp := rgb.stamp), meta), m.value)
  }
}
