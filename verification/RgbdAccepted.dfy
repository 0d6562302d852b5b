/** What a bag must satisfy for check_bag to accept it, and that this is enough. */
module RgbdAccepted {
  import opened Basics
  import opened RgbdTypes
  import opened RgbdGroup
  import opened RgbdEngine
  import opened RgbdValidator
  import opened RgbdParse
  import opened RgbdReading
  import opened RgbdMeaning

  // ---------------------------------------------------------------- one frame

  /** The frame, its annotation and its six messages bear the number k. */
  ghost predicate Numbered(k: nat, f: Frame) {
    && f.meta.frameIndex == k && f.rgb.id == k && f.depth.id == k && f.rgbInfo.id == k && f.depthInfo.id == k
    && f.pose.id == k && f.ext.id == k
  }

  /** Colour image, its calibration, pose and extrinsic of one time; depth and its calibration of
      another, no farther off than configured; and the annotation says so. */
  ghost predicate Synchronous(cfg: Config, time: int, f: Frame) {
    && f.rgb.stamp == time && f.rgbInfo.stamp == time && f.pose.stamp == time && f.ext.stamp == time
    && f.depthInfo.stamp == f.depth.stamp
    && f.meta.rgbStamp == time && f.meta.depthStamp == f.depth.stamp && f.meta.delta == f.depth.stamp - time
    && -cfg.rgbdSlop * BILLION <= (f.depth.stamp - time) as real <= cfg.rgbdSlop * BILLION
    && Rounds(cfg.cameraTimeOffset * BILLION, f.meta.query - time)
  }

  ghost predicate Named(cfg: Config, f: Frame) {
    f.pose.frame == cfg.world && f.ext.frame == cfg.body && f.ext.child == cfg.optical
  }

  ghost predicate Measured(g: Geometry, cfg: Config, f: Frame, valid: real) {
    && Share(g, cfg, f.rgb, f.depth, f.rgbInfo, f.depthInfo, valid) && valid != 0.0
    && -0.000001 <= valid - f.meta.valid <= 0.000001
    && f.meta.encoding == f.depth.encoding && Scaled(cfg, f.depth.encoding, f.meta.scale)
  }

  /** The two samples, the fraction and the pose of the body between them, and what the poses of
      extrinsic and camera are. */
  datatype Fix = Fix(a: Odometry, b: Odometry, alpha: real, body: Matrix, ext: Matrix, camera: Matrix, valid: real)

  /** Two recorded samples of the annotated stamps hold the query between them; every entry of the
      camera's pose is near that of the interpolated body pose times the extrinsic, which is near
      the recorded one. */
  ghost predicate Reproduced(g: Geometry, cfg: Config, h: seq<Odometry>, expected: Matrix, f: Frame, p: Fix) {
    && p.a in h && p.b in h && p.a.stamp == f.meta.before && p.b.stamp == f.meta.after
    && (p.b.stamp - p.a.stamp) as real <= cfg.maxOdomGap * BILLION
    && Between(g, p.a, p.b, f.meta.query, p.alpha, p.body)
    && -0.000000001 <= p.alpha - f.meta.alpha <= 0.000000001
    && g.matrix(f.ext.pose) == Some(p.ext) && Near(p.ext, expected, 0.0000001)
    && g.matrix(f.pose.pose) == Some(p.camera) && Near(p.camera, g.compose(p.body, p.ext), 0.000001)
  }

  ghost predicate Good(g: Geometry, cfg: Config, h: seq<Odometry>, expected: Matrix, k: nat, time: int, f: Frame,
                       p: Fix) {
    && Numbered(k, f) && Synchronous(cfg, time, f) && Named(cfg, f) && Measured(g, cfg, f, p.valid)
    && Reproduced(g, cfg, h, expected, f, p)
  }

  ghost predicate GoodFrame(g: Geometry, cfg: Config, h: seq<Odometry>, expected: Matrix, k: nat, time: int, f: Frame)
  {
    exists p: Fix :: Good(g, cfg, h, expected, k, time, f, p)
  }

  lemma MeasuredIff(g: Geometry, cfg: Config, f: Frame)
    ensures CheckQuality(g, cfg, f) && f.meta.scale == DepthScale(cfg, f.depth.encoding)
            && f.meta.encoding == f.depth.encoding
            <==> exists valid :: Measured(g, cfg, f, valid)
  {
    var q := g.Quality(f.rgb, f.depth, f.rgbInfo, f.depthInfo, cfg.optical);
    forall valid
      ensures Share(g, cfg, f.rgb, f.depth, f.rgbInfo, f.depthInfo, valid) <==> q == Some(valid)
    {
      QualityIff(g, cfg, f.rgb, f.depth, f.rgbInfo, f.depthInfo, valid);
    }
    hide Geometry.Quality, Share;
    if CheckQuality(g, cfg, f) && f.meta.scale == DepthScale(cfg, f.depth.encoding)
       && f.meta.encoding == f.depth.encoding {
      assert Measured(g, cfg, f, q.value);
    }
  }

  lemma SynchronousIff(cfg: Config, time: int, f: Frame)
    ensures Synchronous(cfg, time, f) <==>
      && time == f.rgb.stamp == f.pose.stamp == f.meta.rgbStamp && f.ext.stamp == time
      && f.depth.stamp == f.meta.depthStamp && f.rgbInfo.stamp == f.rgb.stamp && f.depthInfo.stamp == f.depth.stamp
      && f.meta.delta == f.meta.depthStamp - time && f.meta.query == cfg.Target(time)
      && Seconds(Distance(f.meta.depthStamp, time)) <= cfg.rgbdSlop
  {
    TargetIff(cfg, time, f.meta.query);
    hide Rounds, Config.Target;
  }

  /** The checks on the poses, in terms of the table the validator built. */
  lemma ReproducedIff(g: Geometry, cfg: Config, h: seq<Odometry>, t: map<int, Odometry>, expected: Matrix, f: Frame)
    requires TableOf(h, t)
    ensures CheckPose(g, cfg, t, f) && ExtAgrees(g, expected, f)
            <==> exists p: Fix :: Reproduced(g, cfg, h, expected, f, p)
  {
    if CheckPose(g, cfg, t, f) && ExtAgrees(g, expected, f) {
      CheckedReproduced(g, cfg, h, t, expected, f);
    }
    if p: Fix :| Reproduced(g, cfg, h, expected, f, p) {
      ReproducedChecked(g, cfg, h, t, expected, f, p);
    }
  }

  lemma TableMember(h: seq<Odometry>, t: map<int, Odometry>, x: int)
    requires TableOf(h, t) && x in t
    ensures t[x] in h && t[x].stamp == x
  {
    var k :| 0 <= k < |h| && h[k].stamp == x;
    assert h[k] in h;
  }

  lemma CheckedReproduced(g: Geometry, cfg: Config, h: seq<Odometry>, t: map<int, Odometry>, expected: Matrix, f: Frame)
    requires TableOf(h, t) && CheckPose(g, cfg, t, f) && ExtAgrees(g, expected, f)
    ensures exists p: Fix :: Reproduced(g, cfg, h, expected, f, p)
  {
    TableMember(h, t, f.meta.before);
    TableMember(h, t, f.meta.after);
    var a, b := t[f.meta.before], t[f.meta.after];
    hide TableOf, Interpolated, AllClose;
    var body := Interpolated(g, a, b, f.meta.query).value;
    InterpolatedIff(g, a, b, f.meta.query, body.1, body.0);
    var ext, camera := g.matrix(f.ext.pose).value, g.matrix(f.pose.pose).value;
    NearIff(ext, expected, 0.0000001);
    NearIff(camera, g.compose(body.0, ext), 0.000001);
    hide Between, Near;
    assert Reproduced(g, cfg, h, expected, f, Fix(a, b, body.1, body.0, ext, camera, 0.0));
  }

  lemma ReproducedChecked(g: Geometry, cfg: Config, h: seq<Odometry>, t: map<int, Odometry>, expected: Matrix,
                          f: Frame, p: Fix)
    requires TableOf(h, t) && Reproduced(g, cfg, h, expected, f, p)
    ensures CheckPose(g, cfg, t, f) && ExtAgrees(g, expected, f)
  {
    assert p.a.stamp in t && t[p.a.stamp] == p.a;
    assert p.b.stamp in t && t[p.b.stamp] == p.b;
    InterpolatedIff(g, p.a, p.b, f.meta.query, p.alpha, p.body);
    NearIff(p.ext, expected, 0.0000001);
    NearIff(p.camera, g.compose(p.body, p.ext), 0.000001);
    hide TableOf, Interpolated, AllClose, Between, Near;
  }

  /** The checks on one frame are these, and nothing else. */
  lemma GoodFrameIff(g: Geometry, cfg: Config, h: seq<Odometry>, t: map<int, Odometry>, expected: Matrix, k: nat,
                     previous: int, time: int, f: Frame)
    requires TableOf(h, t)
    ensures CheckFrame(g, cfg, t, k, previous, time, f) && ExtAgrees(g, expected, f)
            <==> previous < time && GoodFrame(g, cfg, h, expected, k, time, f)
  {
    SynchronousIff(cfg, time, f);
    MeasuredIff(g, cfg, f);
    ReproducedIff(g, cfg, h, t, expected, f);
    hide TableOf, Synchronous, CheckQuality, CheckPose, ExtAgrees, Config.Target, Seconds, DepthScale;
    GoodIsJoint(g, cfg, h, expected, k, time, f);
    hide GoodFrame, Measured, Reproduced;
  }

  lemma GoodIsJoint(g: Geometry, cfg: Config, h: seq<Odometry>, expected: Matrix, k: nat, time: int, f: Frame)
    ensures GoodFrame(g, cfg, h, expected, k, time, f) <==>
      && Numbered(k, f) && Synchronous(cfg, time, f) && Named(cfg, f)
      && (exists valid :: Measured(g, cfg, f, valid)) && (exists p: Fix :: Reproduced(g, cfg, h, expected, f, p))
  {
    hide Numbered, Synchronous, Named, Measured, Between, Near;
    if Numbered(k, f) && Synchronous(cfg, time, f) && Named(cfg, f)
       && (exists valid :: Measured(g, cfg, f, valid)) && (exists p: Fix :: Reproduced(g, cfg, h, expected, f, p)) {
      var valid :| Measured(g, cfg, f, valid);
      var p: Fix :| Reproduced(g, cfg, h, expected, f, p);
      assert Good(g, cfg, h, expected, k, time, f, p.(valid := valid));
    }
    if p: Fix :| Good(g, cfg, h, expected, k, time, f, p) {
      assert Measured(g, cfg, f, p.valid);
    }
  }

  // ---------------------------------------------------------------- all frames

  /** Numbers from 0, stamps from 0 on and increasing, and every frame good. */
  ghost predicate GoodFrames(g: Geometry, cfg: Config, h: seq<Odometry>, expected: Matrix, frames: seq<(int, Frame)>) {
    && (forall i, j :: 0 <= i < j < |frames| ==> frames[i].0 < frames[j].0)
    && (forall k :: 0 <= k < |frames| ==>
          0 <= frames[k].0 && GoodFrame(g, cfg, h, expected, k, frames[k].0, frames[k].1))
  }

  lemma GoodFramesSnoc(g: Geometry, cfg: Config, h: seq<Odometry>, expected: Matrix, frames: seq<(int, Frame)>,
                       x: (int, Frame))
    ensures GoodFrames(g, cfg, h, expected, frames + [x]) <==>
      && GoodFrames(g, cfg, h, expected, frames)
      && (if frames == [] then -1 else frames[|frames| - 1].0) < x.0
      && GoodFrame(g, cfg, h, expected, |frames|, x.0, x.1)
  {
    hide GoodFrame;
    var r, n := frames + [x], |frames|;
    assert r[n] == x && forall k :: 0 <= k < n ==> r[k] == frames[k];
    if GoodFrames(g, cfg, h, expected, r) {
      forall k | 0 <= k < n
        ensures 0 <= frames[k].0 && GoodFrame(g, cfg, h, expected, k, frames[k].0, frames[k].1)
      {
        assert r[k] == frames[k];
      }
      assert n > 0 ==> r[n - 1].0 < r[n].0;
    }
  }

  lemma {:induction false} GoodFramesIff(g: Geometry, cfg: Config, h: seq<Odometry>, t: map<int, Odometry>,
                                         expected: Matrix, frames: seq<(int, Frame)>)
    requires TableOf(h, t)
    ensures CheckFrames(g, cfg, t, frames) && AllAgree(g, expected, frames)
            <==> GoodFrames(g, cfg, h, expected, frames)
  {
    hide *;
    if frames == [] {
      NoneGood(g, cfg, h, t, expected);
      return;
    }
    var n := |frames| - 1;
    var init, x := frames[..n], frames[n];
    GoodFramesIff(g, cfg, h, t, expected, init);
    assert init + [x] == frames && (n > 0 ==> init[n - 1] == frames[n - 1]);
    GoodFramesSnoc(g, cfg, h, expected, init, x);
    GoodFrameIff(g, cfg, h, t, expected, n, if n == 0 then -1 else init[n - 1].0, x.0, x.1);
    AgreeSnoc(g, expected, init, x);
    FramesUnfold(g, cfg, t, frames);
  }

  lemma NoneGood(g: Geometry, cfg: Config, h: seq<Odometry>, t: map<int, Odometry>, expected: Matrix)
    ensures CheckFrames(g, cfg, t, []) && AllAgree(g, expected, []) && GoodFrames(g, cfg, h, expected, [])
  {
  }

  lemma AgreeSnoc(g: Geometry, expected: Matrix, frames: seq<(int, Frame)>, x: (int, Frame))
    ensures AllAgree(g, expected, frames + [x]) <==> AllAgree(g, expected, frames) && ExtAgrees(g, expected, x.1)
  {
    hide ExtAgrees;
    var r := frames + [x];
    assert r[|frames|] == x && forall k :: 0 <= k < |frames| ==> r[k] == frames[k];
    if AllAgree(g, expected, r) {
      forall k | 0 <= k < |frames|
        ensures ExtAgrees(g, expected, frames[k].1)
      {
        assert ExtAgrees(g, expected, r[k].1);
      }
    }
  }

  // ---------------------------------------------------------------- the bag

  /** Config.validate */
  ghost predicate Configured(cfg: Config) {
    && 0.0 < cfg.rate <= 10.0 && 0.0 < cfg.rgbdSlop < 0.05 && 0.0 < cfg.maxOdomGap <= 1.0
    && 0.0 < cfg.wait && 0.0 < cfg.depthScale && 2 <= cfg.imageBuffer
    && cfg.world != "" && cfg.body != "" && cfg.optical != ""
  }

  /** What is found in an accepted bag: where session and report are, the odometry, the static
      transforms as they end, the extrinsic they give, and the frames. */
  datatype Contents = Contents(session: nat, report: nat, odoms: seq<Odometry>, tf: map<string, Transform>,
                               ext: Transform, expected: Matrix, frames: seq<(int, Frame)>)

  /** One session of schema 1 with a valid configuration. */
  ghost predicate Opened(bag: seq<Record>, i: nat) {
    OnlyOne(bag, IsSession, i) && bag[i].item.schema == 1 && Configured(bag[i].item.cfg)
  }

  /** One report, of as many frames and no error; raw topics, if recorded, are counted right. */
  ghost predicate ReportedOf(bag: seq<Record>, i: nat, raw: bool, n: nat) {
    && OnlyOne(bag, IsReport, i) && bag[i].item.frames == n && !bag[i].item.error
    && (bag[i].item.status == "RECORDED" || bag[i].item.status == "PASS")
    && (raw ==> bag[i].item.raws != map[]
                && forall t :: t in bag[i].item.raws ==> |OfTopic(bag, t)| == bag[i].item.raws[t])
  }

  /** A world-to-body edge was recorded, and each one is a pose. */
  ghost predicate EdgeSeen(g: Geometry, cfg: Config, bag: seq<Record>) {
    && (exists x :: x in bag && IsDynamic(x.item) && HasEdge(cfg, x.item.msg.transforms))
    && (forall x :: x in bag && IsDynamic(x.item) ==>
          forall t :: t in x.item.msg.transforms && t.frame == cfg.world && t.child == cfg.body
            ==> g.matrix(t.pose).Some?)
  }

  ghost predicate HasEdge(cfg: Config, ts: seq<Transform>) {
    exists t :: t in ts && t.frame == cfg.world && t.child == cfg.body
  }

  /** The static transforms recorded end with an extrinsic. */
  ghost predicate Mounted(g: Geometry, cfg: Config, bag: seq<Record>, c: Contents) {
    && (exists x :: x in bag && IsStatic(x.item))
    && LastSent(Sent(Read(bag, IsStatic)), c.tf)
    && g.lookup(c.tf, cfg.body, cfg.optical) == Some(c.ext) && g.matrix(c.ext.pose) == Some(c.expected)
  }

  /** What the messages of the bag hold, under the configuration of the session. */
  ghost predicate Held(g: Geometry, cfg: Config, bag: seq<Record>, n: nat, c: Contents) {
    && Odometries(Read(bag, IsOdom), c.odoms) && GoodOdometry(g, cfg, c.odoms)
    && EdgeSeen(g, cfg, bag) && Mounted(g, cfg, bag, c)
    && Grouped(Read(bag, IsGroup), c.frames) && |c.frames| == n > 0
    && GoodFrames(g, cfg, c.odoms, c.expected, c.frames)
  }

  ghost predicate Acceptable(g: Geometry, bag: seq<Record>, n: nat, c: Contents) {
    && Opened(bag, c.session) && ReportedOf(bag, c.report, bag[c.session].item.raw, n)
    && Held(g, bag[c.session].item.cfg, bag, n, c)
  }

  lemma OdometriesUnique(r: seq<Record>, h: seq<Odometry>)
    requires (forall x :: x in r ==> IsOdom(x.item)) && Odometries(r, h)
    ensures h == OdomsIn(r)
  {
    OdomsAre(r);
    var o := OdomsIn(r);
    hide OdomsIn;
    assert forall k :: 0 <= k < |r| ==> r[k].item.msg.odom == h[k] && r[k].item.msg.odom == o[k];
  }

  lemma EdgeSeenIff(g: Geometry, cfg: Config, bag: seq<Record>)
    ensures EdgesValid(g, cfg, DynamicsIn(Read(bag, IsDynamic))) <==> EdgeSeen(g, cfg, bag)
  {
    var r := Read(bag, IsDynamic);
    ReadIsStable(bag, IsDynamic);
    forall m
      ensures m in DynamicsIn(r) <==> exists x :: x in bag && IsDynamic(x.item) && x.item.msg.transforms == m
    {
      DynamicsMembers(r, m);
    }
    hide DynamicsIn, Read, Timed, At;
    EdgesIff(g, cfg, bag, DynamicsIn(r));
    hide EdgesValid, EdgeSeen;
  }

  lemma EdgesIff(g: Geometry, cfg: Config, bag: seq<Record>, msgs: seq<seq<Transform>>)
    requires forall m :: m in msgs <==> exists x :: x in bag && IsDynamic(x.item) && x.item.msg.transforms == m
    ensures EdgesValid(g, cfg, msgs) <==> EdgeSeen(g, cfg, bag)
  {
    assert forall x :: x in bag && IsDynamic(x.item) ==> x.item.msg.transforms in msgs;
    if EdgesValid(g, cfg, msgs) {
      var m :| m in msgs && exists t :: t in m && IsEdge(cfg, t);
      assert HasEdge(cfg, m);
    }
    if EdgeSeen(g, cfg, bag) {
      var x :| x in bag && IsDynamic(x.item) && HasEdge(cfg, x.item.msg.transforms);
      assert x.item.msg.transforms in msgs;
    }
  }

  lemma MountedIff(g: Geometry, cfg: Config, bag: seq<Record>, c: Contents)
    ensures StaticsIn(Read(bag, IsStatic)) != [] && c.tf == Replayed(StaticsIn(Read(bag, IsStatic)))
            && g.lookup(c.tf, cfg.body, cfg.optical) == Some(c.ext)
            && RecordedExtrinsic(g, cfg, StaticsIn(Read(bag, IsStatic))) == Some(c.expected)
            <==> Mounted(g, cfg, bag, c)
  {
    var r := Read(bag, IsStatic);
    ReadIsStable(bag, IsStatic);
    StaticsMembers(r);
    ReplayedIsLast(r);
    var tf := Replayed(StaticsIn(r));
    hide LastSent, Replayed, StaticsIn, Sent, Read, Timed, At;
    if Mounted(g, cfg, bag, c) {
      LastSentUnique(Sent(r), c.tf, tf);
    }
  }

  lemma OneFound(bag: seq<Record>, p: Item -> bool, x: Record) returns (i: nat)
    requires Read(bag, p) == [x]
    ensures OnlyOne(bag, p, i) && bag[i] == x
  {
    OneRead(bag, p, x);
    hide Read;
    i :| OnlyOne(bag, p, i) && bag[i] == x;
  }

  lemma OneIsRead(bag: seq<Record>, p: Item -> bool, i: nat)
    requires OnlyOne(bag, p, i)
    ensures Read(bag, p) == [bag[i]]
  {
    OneRead(bag, p, bag[i]);
    hide Read;
  }

  lemma CountedIff(bag: seq<Record>, raws: map<string, nat>)
    ensures RawsCounted(bag, raws) <==> raws != map[] && forall t :: t in raws ==> |OfTopic(bag, t)| == raws[t]
  {
    forall t
      ensures MessageCount(bag, t) == |OfTopic(bag, t)|
    {
      CountIsSize(bag, t);
    }
    hide MessageCount, OfTopic;
  }

  lemma ContentsFound(g: Geometry, cfg: Config, bag: seq<Record>, reported: nat, n: nat) returns (c: Contents)
    requires CheckContents(g, cfg, reported, OdomsIn(Read(bag, IsOdom)), StaticsIn(Read(bag, IsStatic)),
                           DynamicsIn(Read(bag, IsDynamic)), FrameGroups(Read(bag, IsGroup))) == Some(n)
    ensures reported == n && Held(g, cfg, bag, n, c)
  {
    var h, statics := OdomsIn(Read(bag, IsOdom)), StaticsIn(Read(bag, IsStatic));
    var frames := FrameGroups(Read(bag, IsGroup)).value;
    OdomTableIff(g, cfg, h);
    var t := OdomTable(g, cfg, h).value;
    var tf := Replayed(statics);
    hide Read, OdomTable, OdomsIn, StaticsIn, DynamicsIn, FrameGroups, CheckFrames, AllAgree, EdgesValid, Replayed,
         GoodOdometry, TableOf;
    var ext := g.lookup(tf, cfg.body, cfg.optical).value;
    c := Contents(0, 0, h, tf, ext, g.matrix(ext.pose).value, frames);
    MountedIff(g, cfg, bag, c);
    EdgeSeenIff(g, cfg, bag);
    ReadOdoms(bag);
    ReadGroups(bag);
    FrameGroupsIff(Read(bag, IsGroup), frames);
    GoodFramesIff(g, cfg, h, t, c.expected, frames);
    hide Mounted, EdgeSeen, Grouped, GoodFrames, Odometries, RecordedExtrinsic;
  }

  lemma ReadOdoms(bag: seq<Record>)
    ensures (forall x :: x in Read(bag, IsOdom) ==> IsOdom(x.item))
            && Odometries(Read(bag, IsOdom), OdomsIn(Read(bag, IsOdom)))
  {
    ReadIsStable(bag, IsOdom);
    hide Read, OdomsIn;
    OdomsAre(Read(bag, IsOdom));
  }

  lemma ReadGroups(bag: seq<Record>)
    ensures forall x :: x in Read(bag, IsGroup) ==> IsGroup(x.item)
  {
    ReadIsStable(bag, IsGroup);
  }

  lemma HeldChecked(g: Geometry, cfg: Config, bag: seq<Record>, n: nat, c: Contents)
    requires Held(g, cfg, bag, n, c)
    ensures CheckContents(g, cfg, n, OdomsIn(Read(bag, IsOdom)), StaticsIn(Read(bag, IsStatic)),
                          DynamicsIn(Read(bag, IsDynamic)), FrameGroups(Read(bag, IsGroup))) == Some(n)
  {
    var h := c.odoms;
    ReadOdoms(bag);
    OdometriesUnique(Read(bag, IsOdom), h);
    OdomTableIff(g, cfg, h);
    MountedIff(g, cfg, bag, c);
    EdgeSeenIff(g, cfg, bag);
    ReadGroups(bag);
    FrameGroupsIff(Read(bag, IsGroup), c.frames);
    hide Read, OdomTable, OdomsIn, StaticsIn, FrameGroups, CheckFrames, AllAgree, Replayed, TableOf, Mounted, EdgeSeen,
         Grouped, GoodFrames, Odometries, RecordedExtrinsic, GoodOdometry, DynamicsIn;
    var t := OdomTable(g, cfg, h).value;
    GoodFramesIff(g, cfg, h, t, c.expected, c.frames);
    EdgeNeedsMessages(g, cfg, DynamicsIn(Read(bag, IsDynamic)));
    hide EdgesValid;
  }

  lemma EdgeNeedsMessages(g: Geometry, cfg: Config, msgs: seq<seq<Transform>>)
    ensures EdgesValid(g, cfg, msgs) ==> msgs != []
  {
  }

  lemma ConfiguredIff(cfg: Config)
    ensures cfg.Valid() <==> Configured(cfg)
  {
  }

  lemma BagChecked(g: Geometry, bag: seq<Record>, n: nat)
    requires CheckBag(g, bag) == Some(n)
    ensures var sessions, reports := Read(bag, IsSession), Read(bag, IsReport);
            && SessionReadable(sessions) && ReportClean(reports)
            && (sessions[0].item.raw ==> RawsCounted(bag, reports[0].item.raws))
            && CheckContents(g, sessions[0].item.cfg, reports[0].item.frames, OdomsIn(Read(bag, IsOdom)),
                             StaticsIn(Read(bag, IsStatic)), DynamicsIn(Read(bag, IsDynamic)),
                             FrameGroups(Read(bag, IsGroup))) == Some(n)
  {
    hide Read, OdomsIn, StaticsIn, DynamicsIn, FrameGroups, CheckContents, Config.Valid, RawsCounted;
  }

  lemma SessionFound(bag: seq<Record>) returns (i: nat)
    requires SessionReadable(Read(bag, IsSession))
    ensures Opened(bag, i) && bag[i] == Read(bag, IsSession)[0]
  {
    var r := Read(bag, IsSession);
    assert r == [r[0]];
    ConfiguredIff(r[0].item.cfg);
    hide Read, Config.Valid, Configured;
    i := OneFound(bag, IsSession, r[0]);
  }

  lemma ReportFound(bag: seq<Record>, raw: bool) returns (i: nat)
    requires ReportClean(Read(bag, IsReport)) && (raw ==> RawsCounted(bag, Read(bag, IsReport)[0].item.raws))
    ensures i < |bag| && bag[i] == Read(bag, IsReport)[0] && bag[i].item.Report?
            && ReportedOf(bag, i, raw, bag[i].item.frames)
  {
    var r := Read(bag, IsReport);
    assert r == [r[0]];
    CountedIff(bag, r[0].item.raws);
    hide Read, RawsCounted, OfTopic;
    i := OneFound(bag, IsReport, r[0]);
  }

  lemma AcceptedFound(g: Geometry, bag: seq<Record>, n: nat) returns (c: Contents)
    requires CheckBag(g, bag) == Some(n)
    ensures Acceptable(g, bag, n, c)
  {
    BagChecked(g, bag, n);
    hide CheckBag, Read, OdomsIn, StaticsIn, DynamicsIn, FrameGroups, CheckContents, RawsCounted, Opened, ReportedOf,
         Held;
    var i := SessionFound(bag);
    assert Opened(bag, i) ==> i < |bag| && bag[i].item.Session?;
    var j := ReportFound(bag, bag[i].item.raw);
    var found := ContentsFound(g, bag[i].item.cfg, bag, bag[j].item.frames, n);
    c := found.(session := i, report := j);
    HeldAnywhere(g, bag[i].item.cfg, bag, n, found, i, j);
  }

  lemma HeldAnywhere(g: Geometry, cfg: Config, bag: seq<Record>, n: nat, c: Contents, i: nat, j: nat)
    requires Held(g, cfg, bag, n, c)
    ensures Held(g, cfg, bag, n, c.(session := i, report := j))
  {
    hide Read, EdgeSeen, Odometries, GoodOdometry, Grouped, GoodFrames, LastSent, Sent;
  }

  lemma AcceptableChecked(g: Geometry, bag: seq<Record>, n: nat, c: Contents)
    requires Acceptable(g, bag, n, c)
    ensures CheckBag(g, bag) == Some(n)
  {
    var x, y := bag[c.session], bag[c.report];
    OneIsRead(bag, IsSession, c.session);
    OneIsRead(bag, IsReport, c.report);
    ConfiguredIff(x.item.cfg);
    CountedIff(bag, y.item.raws);
    hide Read, OdomsIn, StaticsIn, DynamicsIn, FrameGroups, CheckContents, Config.Valid, RawsCounted, Configured,
         OfTopic, Held, CheckBag;
    HeldChecked(g, x.item.cfg, bag, n, c);
    CheckUnfolds(g, bag, x, y);
  }

  /** The validator accepts a bag, of n frames, exactly when it is acceptable. */
  lemma AcceptedIff(g: Geometry, bag: seq<Record>, n: nat)
    ensures CheckBag(g, bag) == Some(n) <==> exists c: Contents :: Acceptable(g, bag, n, c)
  {
    hide CheckBag, Acceptable;
    if CheckBag(g, bag) == Some(n) {
      var c := AcceptedFound(g, bag, n);
    }
    if c: Contents :| Acceptable(g, bag, n, c) {
      AcceptableChecked(g, bag, n, c);
    }
  }
}
