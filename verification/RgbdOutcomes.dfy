/** What becomes of a pair of images: every outcome of _make_group exactly, and all that is in the
    frame it makes. */
module RgbdOutcomes {
  import opened Basics
  import opened RgbdTypes
  import opened RgbdGroup
  import opened RgbdMeaning
  import OdometryWindow

  // ---------------------------------------------------------------- what the pair meets

  /** The samples j - 1 and j hold the query time, the later one closely or at the very start. */
  ghost predicate Bracketed(odoms: seq<Odometry>, query: int, j: nat) {
    && 1 <= j < |odoms| && odoms[j - 1].stamp <= query <= odoms[j].stamp
    && (odoms[j - 1].stamp == query ==> j == 1)
  }

  lemma BracketedOnce(odoms: seq<Odometry>, query: int, i: nat, j: nat)
    requires Increasing(Times(odoms)) && Bracketed(odoms, query, i) && Bracketed(odoms, query, j)
    ensures i == j
  {
    var t := Times(odoms);
    assert forall p, q :: 0 <= p < q < |t| ==> t[p] < t[q];
    assert !(i < j) && !(j < i);
  }

  lemma BracketIff(odoms: seq<Odometry>, query: int, j: nat)
    requires Increasing(Times(odoms))
    ensures OdometryWindow.Bracket(Times(odoms), query) == Some(j) <==> Bracketed(odoms, query, j)
  {
    var t := Times(odoms);
    var r := OdometryWindow.Bracket(t, query);
    OdometryWindow.BracketHolds(t, query);
    if r.Some? {
      BracketAtStart(odoms, query);
      if Bracketed(odoms, query, j) {
        BracketedOnce(odoms, query, r.value, j);
      }
    } else {
      assert 1 <= j < |t| ==> t[0] <= t[j - 1] && t[j] <= t[|t| - 1];
    }
    hide OdometryWindow.Bracket;
  }

  lemma BracketAtStart(odoms: seq<Odometry>, query: int)
    requires Increasing(Times(odoms)) && OdometryWindow.Bracket(Times(odoms), query).Some?
    ensures Bracketed(odoms, query, OdometryWindow.Bracket(Times(odoms), query).value)
  {
    var t := Times(odoms);
    OdometryWindow.BisectSplits(t, query);
    OdometryWindow.BracketHolds(t, query);
    hide OdometryWindow.BisectLeft;
  }

  ghost predicate TooFar(cfg: Config, a: Odometry, b: Odometry) {
    (b.stamp - a.stamp) as real > cfg.maxOdomGap * BILLION
  }

  ghost predicate InReach(cfg: Config, x: Info, t: int) { (x.stamp - t) as real <= cfg.rgbdSlop * BILLION }

  /** The latest calibration in reach, the first of equals. */
  ghost predicate Latest(cfg: Config, infos: seq<Info>, t: int, i: nat) {
    && i < |infos| && InReach(cfg, infos[i], t)
    && forall k :: 0 <= k < |infos| && k != i && InReach(cfg, infos[k], t) ==>
         infos[k].stamp < infos[i].stamp || (infos[k].stamp == infos[i].stamp && i < k)
  }

  ghost predicate NoneInReach(cfg: Config, infos: seq<Info>, t: int) {
    forall k :: 0 <= k < |infos| ==> !InReach(cfg, infos[k], t)
  }

  lemma BoundIff(cfg: Config, x: int, t: int)
    requires cfg.Valid()
    ensures x <= t + cfg.Slop() <==> (x - t) as real <= cfg.rgbdSlop * BILLION
  {
  }

  lemma LatestSnoc(cfg: Config, infos: seq<Info>, t: int, x: Info, i: nat)
    requires Latest(cfg, infos, t, i)
    ensures var r := infos + [x];
            if InReach(cfg, x, t) && infos[i].stamp < x.stamp then Latest(cfg, r, t, |infos|) else Latest(cfg, r, t, i)
  {
    hide InReach;
    var r := infos + [x];
    assert r[|infos|] == x && forall k :: 0 <= k < |infos| ==> r[k] == infos[k];
  }

  lemma FirstSnoc(cfg: Config, infos: seq<Info>, t: int, x: Info)
    requires NoneInReach(cfg, infos, t)
    ensures var r := infos + [x];
            if InReach(cfg, x, t) then Latest(cfg, r, t, |infos|) else NoneInReach(cfg, r, t)
  {
    hide InReach;
    var r := infos + [x];
    assert r[|infos|] == x && forall k :: 0 <= k < |infos| ==> r[k] == infos[k];
  }

  /** The result of the search, and where it was found. */
  ghost predicate IsBest(cfg: Config, infos: seq<Info>, t: int, r: Option<Info>, i: nat) {
    if r.Some? then Latest(cfg, infos, t, i) && infos[i] == r.value else NoneInReach(cfg, infos, t)
  }

  lemma BestSnoc(cfg: Config, infos: seq<Info>, t: int, x: Info, best: Option<Info>, before: nat) returns (i: nat)
    requires IsBest(cfg, infos, t, best, before)
    ensures IsBest(cfg, infos + [x], t,
                   if InReach(cfg, x, t) && (best.None? || best.value.stamp < x.stamp) then Some(x) else best, i)
  {
    assert (infos + [x])[|infos|] == x;
    i := if InReach(cfg, x, t) && (best.None? || best.value.stamp < x.stamp) then |infos| else before;
    if best.Some? {
      assert before < |infos| && (infos + [x])[before] == infos[before];
      LatestSnoc(cfg, infos, t, x, before);
    } else {
      FirstSnoc(cfg, infos, t, x);
    }
    hide InReach, Latest, NoneInReach;
  }

  lemma ReachIff(cfg: Config, x: Info, t: int)
    requires cfg.Valid()
    ensures x.stamp <= t + cfg.Slop() <==> InReach(cfg, x, t)
  {
    BoundIff(cfg, x.stamp, t);
    hide Config.Slop, Config.Valid;
  }

  lemma {:induction false} BestIsLatest(cfg: Config, infos: seq<Info>, t: int) returns (i: nat)
    requires cfg.Valid()
    ensures IsBest(cfg, infos, t, BestInfo(infos, t + cfg.Slop()), i)
  {
    if infos == [] {
      i := 0;
      return;
    }
    hide *;
    var n := |infos| - 1;
    var before := BestIsLatest(cfg, infos[..n], t);
    assert infos[..n] + [infos[n]] == infos;
    ReachIff(cfg, infos[n], t);
    BestUnfold(infos, t + cfg.Slop());
    i := BestSnoc(cfg, infos[..n], t, infos[n], BestInfo(infos[..n], t + cfg.Slop()), before);
  }

  lemma BestUnfold(infos: seq<Info>, bound: int)
    requires infos != []
    ensures var best, x := BestInfo(infos[..|infos| - 1], bound), infos[|infos| - 1];
            BestInfo(infos, bound)
              == if x.stamp <= bound && (best.None? || best.value.stamp < x.stamp) then Some(x) else best
  {
  }

  lemma LatestOnce(cfg: Config, infos: seq<Info>, t: int, i: nat, j: nat)
    requires Latest(cfg, infos, t, i) && Latest(cfg, infos, t, j)
    ensures i == j
  {
  }

  /** The later sample, and the calibrations of the two images. */
  datatype Inputs = Inputs(odom: nat, rgb: nat, depth: nat)

  ghost predicate Met(cfg: Config, s: Sources, rgb: Image, dep: Image, query: int, i: Inputs) {
    && Bracketed(s.odoms, query, i.odom) && !TooFar(cfg, s.odoms[i.odom - 1], s.odoms[i.odom])
    && Latest(cfg, s.rgbInfos, rgb.stamp, i.rgb) && Latest(cfg, s.depthInfos, dep.stamp, i.depth)
  }

  /** Colour and depth agree with each other and the calibrations, and some depth is valid. */
  ghost predicate Seen(g: Geometry, cfg: Config, s: Sources, rgb: Image, dep: Image, i: Inputs)
    requires i.rgb < |s.rgbInfos| && i.depth < |s.depthInfos|
  {
    exists valid :: Share(g, cfg, rgb, dep, s.rgbInfos[i.rgb], s.depthInfos[i.depth], valid) && valid != 0.0
  }

  ghost predicate Posed(g: Geometry, odoms: seq<Odometry>) {
    forall k :: 0 <= k < |odoms| ==> g.matrix(odoms[k].pose).Some?
  }

  // ---------------------------------------------------------------- the frame

  /** Where a frame comes from. */
  datatype Origin = Origin(rgb: Image, depth: Image, query: int, a: Odometry, b: Odometry, body: Matrix,
                           ci: Info, di: Info, ext: Transform, m: Matrix)

  ghost predicate Annotated(cfg: Config, k: nat, o: Origin, meta: Meta) {
    && meta.frameIndex == k && meta.rgbStamp == o.rgb.stamp && meta.depthStamp == o.depth.stamp
    && meta.rgbSeq == o.rgb.id && meta.depthSeq == o.depth.id && meta.delta == o.depth.stamp - o.rgb.stamp
    && meta.query == o.query && meta.before == o.a.stamp && meta.after == o.b.stamp
    && meta.rgbInfoStamp == o.ci.stamp && meta.depthInfoStamp == o.di.stamp
    && meta.encoding == o.depth.encoding && Scaled(cfg, o.depth.encoding, meta.scale)
    && meta.cameraFrame == cfg.optical && meta.worldFrame == cfg.world
  }

  /** Numbered copies of what came in; the camera's pose is the body's, as far between the two
      samples as the annotation says, times the extrinsic. */
  ghost predicate FrameOf(g: Geometry, cfg: Config, k: nat, o: Origin, f: Frame) {
    && f.rgb == o.rgb.(id := k) && f.depth == o.depth.(id := k)
    && f.rgbInfo == o.ci.(id := k, stamp := o.rgb.stamp) && f.depthInfo == o.di.(id := k, stamp := o.depth.stamp)
    && f.ext == o.ext.(id := k, stamp := o.rgb.stamp) && g.matrix(o.ext.pose) == Some(o.m)
    && Rounds(cfg.cameraTimeOffset * BILLION, o.query - o.rgb.stamp)
    && Between(g, o.a, o.b, o.query, f.meta.alpha, o.body) && !TooFar(cfg, o.a, o.b)
    && f.pose == StampedPose(k, o.rgb.stamp, cfg.world, g.pose(g.compose(o.body, o.m)))
    && Annotated(cfg, k, o, f.meta)
    && Share(g, cfg, o.rgb, o.depth, o.ci, o.di, f.meta.valid) && f.meta.valid != 0.0
  }

  /** What the engine holds gives this origin. */
  ghost predicate FromSources(g: Geometry, cfg: Config, s: Sources, rgb: Image, dep: Image, i: Inputs, o: Origin) {
    && Met(cfg, s, rgb, dep, o.query, i) && o.rgb == rgb && o.depth == dep
    && o.a == s.odoms[i.odom - 1] && o.b == s.odoms[i.odom]
    && o.ci == s.rgbInfos[i.rgb] && o.di == s.depthInfos[i.depth]
    && g.lookup(s.tf, cfg.body, cfg.optical) == Some(o.ext)
  }

  /** The checks of the pixels, and then the extrinsics. */
  function SecondHalf(g: Geometry, cfg: Config, s: Sources, index: nat, rgb: Image, dep: Image, i: Inputs): Outcome
    requires 1 <= i.odom < |s.odoms| && i.rgb < |s.rgbInfos| && i.depth < |s.depthInfos|
  {
    var valid := g.Quality(rgb, dep, s.rgbInfos[i.rgb], s.depthInfos[i.depth], cfg.optical);
    if valid.None? || valid.value == 0.0 then Bad
    else Located(g, cfg, s, index, rgb, dep, s.odoms[i.odom - 1], s.odoms[i.odom], s.rgbInfos[i.rgb],
                 s.depthInfos[i.depth], valid.value)
  }

  lemma NoBracket(g: Geometry, cfg: Config, s: Sources, index: nat, rgb: Image, dep: Image)
    requires cfg.Valid() && OdometryWindow.Bracket(Times(s.odoms), cfg.Target(rgb.stamp)).None?
    ensures MakeGroup(g, cfg, s, index, rgb, dep) == Late(NoBracketingOdometry)
  {
    hide Located, Geometry.Quality, OdometryWindow.Bracket, BestInfo, Config.Target, Config.Slop;
  }

  lemma GapFound(g: Geometry, cfg: Config, s: Sources, index: nat, rgb: Image, dep: Image, j: nat)
    requires cfg.Valid() && OdometryWindow.Bracket(Times(s.odoms), cfg.Target(rgb.stamp)) == Some(j)
             && TooFar(cfg, s.odoms[j - 1], s.odoms[j])
    ensures MakeGroup(g, cfg, s, index, rgb, dep) == Late(OdometryGap)
  {
    hide Located, Geometry.Quality, OdometryWindow.Bracket, BestInfo, Config.Target, Config.Slop, Config.Valid;
  }

  lemma InfoMissing(g: Geometry, cfg: Config, s: Sources, index: nat, rgb: Image, dep: Image, j: nat)
    requires cfg.Valid() && OdometryWindow.Bracket(Times(s.odoms), cfg.Target(rgb.stamp)) == Some(j)
             && !TooFar(cfg, s.odoms[j - 1], s.odoms[j])
    requires BestInfo(s.rgbInfos, rgb.stamp + cfg.Slop()).None? || BestInfo(s.depthInfos, dep.stamp + cfg.Slop()).None?
    ensures MakeGroup(g, cfg, s, index, rgb, dep) == Late(MissingCameraInfo)
  {
    hide Located, Geometry.Quality, OdometryWindow.Bracket, BestInfo, Config.Target, Config.Slop, Config.Valid;
  }

  lemma InputsMet(g: Geometry, cfg: Config, s: Sources, index: nat, rgb: Image, dep: Image, i: Inputs)
    requires cfg.Valid() && OdometryWindow.Bracket(Times(s.odoms), cfg.Target(rgb.stamp)) == Some(i.odom)
             && !TooFar(cfg, s.odoms[i.odom - 1], s.odoms[i.odom]) && i.rgb < |s.rgbInfos| && i.depth < |s.depthInfos|
    requires BestInfo(s.rgbInfos, rgb.stamp + cfg.Slop()) == Some(s.rgbInfos[i.rgb])
             && BestInfo(s.depthInfos, dep.stamp + cfg.Slop()) == Some(s.depthInfos[i.depth])
    ensures MakeGroup(g, cfg, s, index, rgb, dep) == SecondHalf(g, cfg, s, index, rgb, dep, i)
  {
    hide Located, Geometry.Quality, OdometryWindow.Bracket, BestInfo, Config.Target, Config.Slop, Config.Valid;
  }

  /** The first half: a bracket, close enough, and calibrations; the rest is for the second. */
  ghost predicate Begins(cfg: Config, s: Sources, rgb: Image, dep: Image, query: int, r: Outcome, i: Inputs,
                         rest: bool)
  {
    if forall j: nat :: !Bracketed(s.odoms, query, j) then r == Late(NoBracketingOdometry)
    else if !Bracketed(s.odoms, query, i.odom) then false
    else if TooFar(cfg, s.odoms[i.odom - 1], s.odoms[i.odom]) then r == Late(OdometryGap)
    else if NoneInReach(cfg, s.rgbInfos, rgb.stamp) || NoneInReach(cfg, s.depthInfos, dep.stamp)
      then r == Late(MissingCameraInfo)
    else Met(cfg, s, rgb, dep, query, i) && rest
  }

  lemma FirstHalf(g: Geometry, cfg: Config, s: Sources, index: nat, rgb: Image, dep: Image, query: int)
    returns (i: Inputs)
    requires cfg.Valid() && Increasing(Times(s.odoms)) && Rounds(cfg.cameraTimeOffset * BILLION, query - rgb.stamp)
    ensures var r := MakeGroup(g, cfg, s, index, rgb, dep);
            Begins(cfg, s, rgb, dep, query, r, i,
                   Met(cfg, s, rgb, dep, query, i) && r == SecondHalf(g, cfg, s, index, rgb, dep, i))
  {
    TargetIff(cfg, rgb.stamp, query);
    hide MakeGroup, SecondHalf, OdometryWindow.Bracket, BestInfo, Config.Target, Config.Slop, Config.Valid, Rounds,
         Bracketed, TooFar, Latest, NoneInReach;
    forall j: nat
      ensures OdometryWindow.Bracket(Times(s.odoms), query) == Some(j) <==> Bracketed(s.odoms, query, j)
    {
      BracketIff(s.odoms, query, j);
    }
    var r := OdometryWindow.Bracket(Times(s.odoms), query);
    var p := BestIsLatest(cfg, s.rgbInfos, rgb.stamp);
    var q := BestIsLatest(cfg, s.depthInfos, dep.stamp);
    LatestExists(cfg, s.rgbInfos, rgb.stamp);
    LatestExists(cfg, s.depthInfos, dep.stamp);
    i := Inputs(if r.Some? then r.value else 0, p, q);
    if r.None? {
      NoBracket(g, cfg, s, index, rgb, dep);
    } else if TooFar(cfg, s.odoms[i.odom - 1], s.odoms[i.odom]) {
      GapFound(g, cfg, s, index, rgb, dep, i.odom);
    } else if NoneInReach(cfg, s.rgbInfos, rgb.stamp) || NoneInReach(cfg, s.depthInfos, dep.stamp) {
      InfoMissing(g, cfg, s, index, rgb, dep, i.odom);
    } else {
      InputsMet(g, cfg, s, index, rgb, dep, i);
    }
  }

  lemma LatestExists(cfg: Config, infos: seq<Info>, t: int)
    ensures forall i: nat :: Latest(cfg, infos, t, i) ==> i < |infos| && !NoneInReach(cfg, infos, t)
  {
  }

  lemma SeenIff(g: Geometry, cfg: Config, s: Sources, rgb: Image, dep: Image, i: Inputs)
    requires i.rgb < |s.rgbInfos| && i.depth < |s.depthInfos|
    ensures var valid := g.Quality(rgb, dep, s.rgbInfos[i.rgb], s.depthInfos[i.depth], cfg.optical);
            && (Seen(g, cfg, s, rgb, dep, i) <==> valid.Some? && valid.value != 0.0)
            && (valid.Some? ==> Share(g, cfg, rgb, dep, s.rgbInfos[i.rgb], s.depthInfos[i.depth], valid.value))
  {
    forall v
      ensures g.Quality(rgb, dep, s.rgbInfos[i.rgb], s.depthInfos[i.depth], cfg.optical) == Some(v)
              <==> Share(g, cfg, rgb, dep, s.rgbInfos[i.rgb], s.depthInfos[i.depth], v)
    {
      QualityIff(g, cfg, rgb, dep, s.rgbInfos[i.rgb], s.depthInfos[i.depth], v);
    }
    hide Geometry.Quality, Share;
  }

  /** The extrinsic is not near the one the session's frames have. */
  ghost predicate Moved(s: Sources, m: Matrix) { s.accepted.Some? && !Near(m, s.accepted.value, 0.00000001) }

  lemma SamplesInterpolate(g: Geometry, s: Sources, query: int, j: nat) returns (body: Matrix, alpha: real)
    requires Increasing(Times(s.odoms)) && Posed(g, s.odoms) && Bracketed(s.odoms, query, j)
    ensures Interpolated(g, s.odoms[j - 1], s.odoms[j], query) == Some((body, alpha))
            && Between(g, s.odoms[j - 1], s.odoms[j], query, alpha, body)
  {
    assert Times(s.odoms)[j - 1] < Times(s.odoms)[j];
    var r := Interpolated(g, s.odoms[j - 1], s.odoms[j], query);
    body, alpha := r.value.0, r.value.1;
    InterpolatedIff(g, s.odoms[j - 1], s.odoms[j], query, alpha, body);
  }

  /** A frame was made, all of it from what the engine holds. */
  ghost predicate Makes(g: Geometry, cfg: Config, s: Sources, index: nat, rgb: Image, dep: Image, i: Inputs,
                        r: Outcome, o: Origin)
  {
    r.Made? && r.extrinsic == o.m && FromSources(g, cfg, s, rgb, dep, i, o) && FrameOf(g, cfg, index, o, r.frame)
  }

  /** The second half: the pixels, the extrinsic, and then the frame. */
  ghost predicate Ends(g: Geometry, cfg: Config, s: Sources, index: nat, rgb: Image, dep: Image, r: Outcome, i: Inputs)
    requires i.rgb < |s.rgbInfos| && i.depth < |s.depthInfos|
  {
    var ext := g.lookup(s.tf, cfg.body, cfg.optical);
    if !Seen(g, cfg, s, rgb, dep, i) then r == Bad
    else if ext.None? then r == Late(MissingStaticExtrinsics)
    else if g.matrix(ext.value.pose).None? then r == Bad
    else if Moved(s, g.matrix(ext.value.pose).value) then r == Changed
    else exists o: Origin :: Makes(g, cfg, s, index, rgb, dep, i, r, o)
  }

  lemma LocatedMakes(g: Geometry, cfg: Config, s: Sources, index: nat, o: Origin, valid: real, alpha: real)
    requires cfg.Valid() && Rounds(cfg.cameraTimeOffset * BILLION, o.query - o.rgb.stamp) && !TooFar(cfg, o.a, o.b)
    requires g.lookup(s.tf, cfg.body, cfg.optical) == Some(o.ext) && g.matrix(o.ext.pose) == Some(o.m)
    requires !(s.accepted.Some? && !AllClose(o.m, s.accepted.value, 0.00000001))
    requires Interpolated(g, o.a, o.b, o.query) == Some((o.body, alpha))
             && Between(g, o.a, o.b, o.query, alpha, o.body)
    requires Share(g, cfg, o.rgb, o.depth, o.ci, o.di, valid) && valid != 0.0
    ensures var r := Located(g, cfg, s, index, o.rgb, o.depth, o.a, o.b, o.ci, o.di, valid);
            r.Made? && r.extrinsic == o.m && FrameOf(g, cfg, index, o, r.frame)
  {
    TargetIff(cfg, o.rgb.stamp, o.query);
    hide Share, Between, Interpolated, Rounds, Config.Target, Config.Valid, TooFar, AllClose;
  }

  lemma LocatedFails(g: Geometry, cfg: Config, s: Sources, index: nat, rgb: Image, dep: Image, a: Odometry, b: Odometry,
                     ci: Info, di: Info, valid: real)
    ensures var r := Located(g, cfg, s, index, rgb, dep, a, b, ci, di, valid);
            var ext := g.lookup(s.tf, cfg.body, cfg.optical);
            && (ext.None? ==> r == Late(MissingStaticExtrinsics))
            && (ext.Some? && g.matrix(ext.value.pose).None? ==> r == Bad)
            && (ext.Some? && g.matrix(ext.value.pose).Some? && Moved(s, g.matrix(ext.value.pose).value)
                ==> r == Changed)
  {
    var ext := g.lookup(s.tf, cfg.body, cfg.optical);
    if ext.Some? && g.matrix(ext.value.pose).Some? && s.accepted.Some? {
      NearIff(g.matrix(ext.value.pose).value, s.accepted.value, 0.00000001);
    }
    hide Interpolated, Near, AllClose, Config.Target;
  }

  lemma SeenLocated(g: Geometry, cfg: Config, s: Sources, index: nat, rgb: Image, dep: Image, i: Inputs)
    returns (valid: real)
    requires 1 <= i.odom < |s.odoms| && i.rgb < |s.rgbInfos| && i.depth < |s.depthInfos|
    ensures var r := SecondHalf(g, cfg, s, index, rgb, dep, i);
            if !Seen(g, cfg, s, rgb, dep, i) then r == Bad
            else
              && Share(g, cfg, rgb, dep, s.rgbInfos[i.rgb], s.depthInfos[i.depth], valid) && valid != 0.0
              && r == Located(g, cfg, s, index, rgb, dep, s.odoms[i.odom - 1], s.odoms[i.odom], s.rgbInfos[i.rgb],
                              s.depthInfos[i.depth], valid)
  {
    SeenIff(g, cfg, s, rgb, dep, i);
    hide Located, Geometry.Quality, Share, Seen;
    var q := g.Quality(rgb, dep, s.rgbInfos[i.rgb], s.depthInfos[i.depth], cfg.optical);
    valid := if q.Some? then q.value else 0.0;
  }

  lemma SecondMakes(g: Geometry, cfg: Config, s: Sources, index: nat, rgb: Image, dep: Image, query: int, i: Inputs,
                    valid: real)
    requires cfg.Valid() && Increasing(Times(s.odoms)) && Posed(g, s.odoms)
             && Rounds(cfg.cameraTimeOffset * BILLION, query - rgb.stamp) && Met(cfg, s, rgb, dep, query, i)
    requires var ext := g.lookup(s.tf, cfg.body, cfg.optical);
             ext.Some? && g.matrix(ext.value.pose).Some? && !Moved(s, g.matrix(ext.value.pose).value)
    requires Share(g, cfg, rgb, dep, s.rgbInfos[i.rgb], s.depthInfos[i.depth], valid) && valid != 0.0
    ensures var a, b := s.odoms[i.odom - 1], s.odoms[i.odom];
            var r := Located(g, cfg, s, index, rgb, dep, a, b, s.rgbInfos[i.rgb], s.depthInfos[i.depth], valid);
            exists o: Origin :: Makes(g, cfg, s, index, rgb, dep, i, r, o)
  {
    var body, alpha := SamplesInterpolate(g, s, query, i.odom);
    var ext := g.lookup(s.tf, cfg.body, cfg.optical).value;
    var m := g.matrix(ext.pose).value;
    var o := Origin(rgb, dep, query, s.odoms[i.odom - 1], s.odoms[i.odom], body, s.rgbInfos[i.rgb],
                    s.depthInfos[i.depth], ext, m);
    if s.accepted.Some? {
      NearIff(m, s.accepted.value, 0.00000001);
    }
    hide Share, Between, Interpolated, Rounds, Config.Valid, Increasing, Posed, Bracketed, Latest, TooFar, Near,
         AllClose, Located, FrameOf;
    LocatedMakes(g, cfg, s, index, o, valid, alpha);
    var r := Located(g, cfg, s, index, rgb, dep, o.a, o.b, o.ci, o.di, valid);
    assert Makes(g, cfg, s, index, rgb, dep, i, r, o);
  }

  lemma SecondDecided(g: Geometry, cfg: Config, s: Sources, index: nat, rgb: Image, dep: Image, query: int, i: Inputs)
    requires cfg.Valid() && Increasing(Times(s.odoms)) && Posed(g, s.odoms)
             && Rounds(cfg.cameraTimeOffset * BILLION, query - rgb.stamp) && Met(cfg, s, rgb, dep, query, i)
    ensures Ends(g, cfg, s, index, rgb, dep, SecondHalf(g, cfg, s, index, rgb, dep, i), i)
  {
    var valid := SeenLocated(g, cfg, s, index, rgb, dep, i);
    var ext, a, b := g.lookup(s.tf, cfg.body, cfg.optical), s.odoms[i.odom - 1], s.odoms[i.odom];
    hide SecondHalf, Share, Seen, Rounds, Config.Valid, Increasing, Posed, Bracketed, Latest, TooFar, Located, Moved,
         Makes;
    if Seen(g, cfg, s, rgb, dep, i) {
      LocatedFails(g, cfg, s, index, rgb, dep, a, b, s.rgbInfos[i.rgb], s.depthInfos[i.depth], valid);
      if ext.Some? && g.matrix(ext.value.pose).Some? && !Moved(s, g.matrix(ext.value.pose).value) {
        SecondMakes(g, cfg, s, index, rgb, dep, query, i, valid);
      }
    }
  }

  /** What a pair of images becomes: all cases, each by what the engine holds. */
  ghost predicate Decided(g: Geometry, cfg: Config, s: Sources, index: nat, rgb: Image, dep: Image, query: int,
                          r: Outcome, i: Inputs)
  {
    Begins(cfg, s, rgb, dep, query, r, i,
           Met(cfg, s, rgb, dep, query, i) && Ends(g, cfg, s, index, rgb, dep, r, i))
  }

  lemma PairDecided(g: Geometry, cfg: Config, s: Sources, index: nat, rgb: Image, dep: Image, query: int)
    returns (i: Inputs)
    requires cfg.Valid() && Increasing(Times(s.odoms)) && Posed(g, s.odoms)
             && Rounds(cfg.cameraTimeOffset * BILLION, query - rgb.stamp)
    ensures Decided(g, cfg, s, index, rgb, dep, query, MakeGroup(g, cfg, s, index, rgb, dep), i)
  {
    i := FirstHalf(g, cfg, s, index, rgb, dep, query);
    hide MakeGroup, SecondHalf, Bracketed, TooFar, NoneInReach, Rounds, Config.Valid, Increasing, Posed, Latest, Ends;
    if Met(cfg, s, rgb, dep, query, i) {
      SecondDecided(g, cfg, s, index, rgb, dep, query, i);
    }
  }

  /** Every frame made has an origin. */
  lemma MadeFrom(g: Geometry, cfg: Config, s: Sources, index: nat, rgb: Image, dep: Image)
    returns (i: Inputs, o: Origin)
    requires cfg.Valid() && Increasing(Times(s.odoms)) && Posed(g, s.odoms)
             && MakeGroup(g, cfg, s, index, rgb, dep).Made?
    ensures Makes(g, cfg, s, index, rgb, dep, i, MakeGroup(g, cfg, s, index, rgb, dep), o)
  {
    var query := cfg.Target(rgb.stamp);
    TargetIff(cfg, rgb.stamp, query);
    hide MakeGroup, Config.Target, Config.Valid, Rounds, Increasing, Posed;
    i := PairDecided(g, cfg, s, index, rgb, dep, query);
    hide Seen, Moved, Bracketed, NoneInReach, Latest, TooFar, Makes;
    o :| Makes(g, cfg, s, index, rgb, dep, i, MakeGroup(g, cfg, s, index, rgb, dep), o);
  }
}
