/** What a session writes, the validator accepts: exactly when the bag also holds what the
    engine does not demand. */
module RgbdAgreement {
  import opened Basics
  import opened RgbdTypes
  import opened RgbdGroup
  import opened RgbdEngine
  import opened RgbdRuns
  import opened RgbdValidator
  import opened RgbdRecording
  import opened RgbdReading
  import OdometryWindow

  // ---------------------------------------------------------------- one frame

  lemma LocatedFields(g: Geometry, cfg: Config, s: Sources, index: nat, rgb: Image, dep: Image,
                      a: Odometry, b: Odometry, ci: Info, di: Info, valid: real, t: map<int, Odometry>, previous: int)
    requires g.Lawful() && cfg.Valid() && Distance(rgb.stamp, dep.stamp) <= cfg.Slop() && previous < rgb.stamp
    requires g.Quality(rgb, dep, ci, di, cfg.optical) == Some(valid) && valid != 0.0
    ensures var o := Located(g, cfg, s, index, rgb, dep, a, b, ci, di, valid);
            o.Made? && CheckPose(g, cfg, t, o.frame) ==> CheckFrame(g, cfg, t, index, previous, rgb.stamp, o.frame)
  {
    SlopSeconds(cfg, Distance(dep.stamp, rgb.stamp));
    LookupFrames(g, s.tf, cfg.body, cfg.optical);
    hide Geometry.Lawful, Interpolated, CheckPose, Config.Target, AllClose;
  }

  lemma LookupFrames(g: Geometry, tf: map<string, Transform>, to: string, from: string)
    requires g.Lawful()
    ensures g.lookup(tf, to, from).Some?
            ==> g.lookup(tf, to, from).value.frame == to && g.lookup(tf, to, from).value.child == from
  {
  }

  lemma SlopSeconds(cfg: Config, d: nat)
    requires cfg.Valid() && d <= cfg.Slop()
    ensures Seconds(d) <= cfg.rgbdSlop
  {
  }

  /** A frame that was made passed the first half of _make_group. */
  lemma MadeLocated(g: Geometry, cfg: Config, s: Sources, index: nat, rgb: Image, dep: Image)
    returns (a: Odometry, b: Odometry, ci: Info, di: Info, valid: real)
    requires cfg.Valid() && MakeGroup(g, cfg, s, index, rgb, dep).Made?
    ensures a in s.odoms && b in s.odoms && Seconds(b.stamp - a.stamp) <= cfg.maxOdomGap
    ensures g.Quality(rgb, dep, ci, di, cfg.optical) == Some(valid) && valid != 0.0
    ensures MakeGroup(g, cfg, s, index, rgb, dep) == Located(g, cfg, s, index, rgb, dep, a, b, ci, di, valid)
  {
    hide Located, Geometry.Quality, OdometryWindow.Bracket, BestInfo, Config.Target, Config.Slop;
    var j := OdometryWindow.Bracket(Times(s.odoms), cfg.Target(rgb.stamp)).value;
    a, b := s.odoms[j - 1], s.odoms[j];
    ci := BestInfo(s.rgbInfos, rgb.stamp + cfg.Slop()).value;
    di := BestInfo(s.depthInfos, dep.stamp + cfg.Slop()).value;
    valid := g.Quality(rgb, dep, ci, di, cfg.optical).value;
  }

  lemma MadeIsAccepted(g: Geometry, cfg: Config, s: Sources, index: nat, rgb: Image, dep: Image,
                       t: map<int, Odometry>, previous: int)
    requires g.Lawful() && cfg.Valid() && Distance(rgb.stamp, dep.stamp) <= cfg.Slop() && previous < rgb.stamp
    requires forall x :: x in s.odoms ==> x.stamp in t && t[x.stamp] == x
    ensures var o := MakeGroup(g, cfg, s, index, rgb, dep);
            o.Made? ==> CheckFrame(g, cfg, t, index, previous, rgb.stamp, o.frame)
  {
    hide Geometry.Lawful, CheckFrame, CheckPose, Located, MakeGroup, Geometry.Quality;
    if MakeGroup(g, cfg, s, index, rgb, dep).Made? {
      var a, b, ci, di, valid := MadeLocated(g, cfg, s, index, rgb, dep);
      MadePose(g, cfg, s, index, rgb, dep, a, b, ci, di, valid, t);
      LocatedFields(g, cfg, s, index, rgb, dep, a, b, ci, di, valid, t, previous);
    }
  }

  // ---------------------------------------------------------------- the state

  ghost predicate FramesAccepted(g: Geometry, cfg: Config, s: EngineState, h: seq<Odometry>) {
    OdomTable(g, cfg, h).Some? && CheckFrames(g, cfg, OdomTable(g, cfg, h).value, Groups(s.frames))
  }

  ghost predicate Recorded(g: Geometry, cfg: Config, s: EngineState) {
    && Select(s.log, IsGroup) == AllWritten(s.frames)
    && OdomKept(g, cfg, s.odoms, s.last.odom, OdomsIn(s.log))
    && StaticsKept(s.statics, StaticsIn(s.log))
    && FramesAccepted(g, cfg, s, OdomsIn(s.log)) && Steady(g, s)
  }

  /** The extrinsic of a frame made now: the accepted one up to the engine's tolerance. */
  ghost predicate FollowsOn(g: Geometry, s: EngineState, f: Frame, m: Matrix) {
    && g.matrix(f.ext.pose) == Some(m)
    && (s.statics.accepted.Some? ==> AllClose(m, s.statics.accepted.value, 0.00000001))
  }

  /** From frame to frame the extrinsic is the same up to that tolerance; the last is accepted. */
  ghost predicate Steady(g: Geometry, s: EngineState) {
    && (forall k :: 0 <= k < |s.frames| ==> g.matrix(s.frames[k].ext.pose).Some?)
    && (forall k :: 1 <= k < |s.frames| ==> CloseExt(g, s.frames[k], s.frames[k - 1]))
    && s.statics.accepted == if s.frames == [] then None else g.matrix(s.frames[|s.frames| - 1].ext.pose)
  }

  ghost predicate CloseExt(g: Geometry, f: Frame, before: Frame) {
    var m, n := g.matrix(f.ext.pose), g.matrix(before.ext.pose);
    m.Some? && n.Some? && AllClose(m.value, n.value, 0.00000001)
  }

  lemma SuffixTabled(g: Geometry, cfg: Config, odoms: seq<Odometry>, last: Stream, h: seq<Odometry>)
    requires OdomKept(g, cfg, odoms, last, h)
    ensures var t := OdomTable(g, cfg, h).value;
            forall x :: x in odoms ==> x.stamp in t && t[x.stamp] == x
  {
    TableHolds(g, cfg, h);
    hide OdomTable;
  }

  /** The last frame's stamp, or -1, as the validator starts. */
  function Previous(frames: seq<Frame>): int {
    if frames == [] then -1 else frames[|frames| - 1].rgb.stamp
  }

  lemma PreviousBefore(cfg: Config, s: EngineState)
    requires cfg.Valid() && Orderly(cfg, s) && s.images.pending != []
    ensures Previous(s.frames) < s.images.pending[0].rgb.stamp
    ensures Distance(s.images.pending[0].rgb.stamp, s.images.pending[0].depth.stamp) <= cfg.Slop()
  {
    var l, n := Line(s), |s.frames|;
    assert l[n] == s.images.pending[0].rgb.stamp;
    assert l[n] in l;
    if n > 0 {
      assert l[n - 1] == s.frames[n - 1].rgb.stamp;
    }
    assert s.images.pending[0] in s.images.pending;
  }

  lemma FrontAccepted(g: Geometry, cfg: Config, s: EngineState)
    requires g.Lawful() && cfg.Valid() && Sound(cfg, s) && Recorded(g, cfg, s) && s.images.pending != []
    ensures var o, t := FrontOutcome(g, cfg, s), OdomTable(g, cfg, OdomsIn(s.log)).value;
            o.Made? ==>
              && CheckFrame(g, cfg, t, |s.frames|, Previous(s.frames), o.frame.rgb.stamp, o.frame)
              && FollowsOn(g, s, o.frame, o.extrinsic)
  {
    PreviousBefore(cfg, s);
    SuffixTabled(g, cfg, s.odoms, s.last.odom, OdomsIn(s.log));
    MadeStamp(g, cfg, s);
    MadeKeepsExtrinsic(g, cfg, s);
    var p := s.images.pending[0];
    assert s.stats.frames == |s.frames|;
    hide Sound, Recorded, CheckFrame, OdomTable, OdomsIn, MakeGroup, Geometry.Lawful, Config.Slop, OdomKept,
         FrontOutcome;
    MadeIsAccepted(g, cfg, SourcesOf(s), s.stats.frames, p.rgb, p.depth, OdomTable(g, cfg, OdomsIn(s.log)).value,
                   Previous(s.frames));
    FrontIs(g, cfg, s);
  }

  lemma FrontIs(g: Geometry, cfg: Config, s: EngineState)
    requires cfg.Valid() && s.images.pending != []
    ensures FrontOutcome(g, cfg, s) == MakeGroup(g, cfg, SourcesOf(s), s.stats.frames, s.images.pending[0].rgb,
                                                 s.images.pending[0].depth)
  {
  }

  lemma MadeKeepsExtrinsic(g: Geometry, cfg: Config, s: EngineState)
    requires cfg.Valid() && s.images.pending != []
    ensures var o := FrontOutcome(g, cfg, s);
            o.Made? ==> FollowsOn(g, s, o.frame, o.extrinsic)
  {
    hide Interpolated, OdometryWindow.Bracket, BestInfo, AllClose;
  }

  lemma GroupsSnoc(frames: seq<Frame>, f: Frame)
    ensures Groups(frames + [f]) == Groups(frames) + [(f.rgb.stamp, f)]
  {
  }

  lemma GroupsLast(frames: seq<Frame>)
    ensures Previous(frames) == if Groups(frames) == [] then -1 else Groups(frames)[|frames| - 1].0
  {
  }

  lemma CheckFramesSnoc(g: Geometry, cfg: Config, t: map<int, Odometry>, groups: seq<(int, Frame)>, x: (int, Frame))
    requires CheckFrames(g, cfg, t, groups)
    requires CheckFrame(g, cfg, t, |groups|, if groups == [] then -1 else groups[|groups| - 1].0, x.0, x.1)
    ensures CheckFrames(g, cfg, t, groups + [x])
  {
    hide *;
    var r, n := groups + [x], |groups|;
    assert r[..n] == groups && r[n] == x && (n > 0 ==> r[n - 1] == groups[n - 1]);
    FramesUnfold(g, cfg, t, r);
  }

  lemma CheckSnoc(g: Geometry, cfg: Config, t: map<int, Odometry>, frames: seq<Frame>, f: Frame)
    requires frames != [] ==> CheckFrames(g, cfg, t, Groups(frames))
    requires CheckFrame(g, cfg, t, |frames|, Previous(frames), f.rgb.stamp, f)
    ensures CheckFrames(g, cfg, t, Groups(frames + [f]))
  {
    hide CheckFrame, CheckFrames, Groups, Previous;
    GroupsSnoc(frames, f);
    GroupsLast(frames);
    NoFrames(g, cfg, t);
    CheckFramesSnoc(g, cfg, t, Groups(frames), (f.rgb.stamp, f));
  }

  // ---------------------------------------------------------------- the log grows

  lemma {:induction false} PartsAppended(log: seq<Record>, w: seq<Record>)
    requires forall x :: x in w ==> IsGroup(x.item)
    ensures Select(log + w, IsGroup) == Select(log, IsGroup) + w
    ensures OdomsIn(log + w) == OdomsIn(log) && StaticsIn(log + w) == StaticsIn(log)
            && DynamicsIn(log + w) == DynamicsIn(log)
  {
    if w == [] {
      assert log + w == log;
    } else {
      var v, x := w[..|w| - 1], w[|w| - 1];
      assert x in w;
      PartsAppended(log, v);
      assert (log + w)[..|log + w| - 1] == log + v;
    }
  }

  lemma RawAppended(log: seq<Record>, t: int, m: Message)
    ensures var r := log + [Record(t, Raw(m))];
            && Select(r, IsGroup) == Select(log, IsGroup)
            && OdomsIn(r) == (if m.OdomMsg? then OdomsIn(log) + [m.odom] else OdomsIn(log))
            && StaticsIn(r) == (if m.StaticMsg? then StaticsIn(log) + [m.transforms] else StaticsIn(log))
  {
    assert (log + [Record(t, Raw(m))])[..|log|] == log;
  }

  lemma WrittenParts(f: Frame)
    ensures forall x :: x in Written(f) ==> IsGroup(x.item)
  {
    forall i | 0 <= i < 7
      ensures IsGroup(Written(f)[i].item)
    {
      assert Written(f)[i].item == Parts(f)[i];
    }
  }

  lemma AllWrittenSnoc(frames: seq<Frame>, f: Frame)
    ensures AllWritten(frames + [f]) == AllWritten(frames) + Written(f)
  {
    assert (frames + [f])[..|frames|] == frames;
    hide Written;
  }

  lemma EmittedSteady(g: Geometry, s: EngineState, f: Frame, m: Matrix, wall: real)
    requires Steady(g, s) && FollowsOn(g, s, f, m) && s.images.pending != []
    ensures Steady(g, Emitted(s, f, m, wall))
  {
    hide AllClose, Written;
  }

  lemma SteadyStays(g: Geometry, s: EngineState, r: EngineState)
    requires Steady(g, s) && r.frames == s.frames && r.statics.accepted == s.statics.accepted
    ensures Steady(g, r)
  {
    hide CloseExt;
  }

  lemma EmittedRecorded(g: Geometry, cfg: Config, s: EngineState, f: Frame, m: Matrix, wall: real)
    requires cfg.Valid() && Recorded(g, cfg, s) && s.images.pending != []
    requires CheckFrame(g, cfg, OdomTable(g, cfg, OdomsIn(s.log)).value, |s.frames|, Previous(s.frames), f.rgb.stamp, f)
    requires FollowsOn(g, s, f, m)
    ensures Recorded(g, cfg, Emitted(s, f, m, wall))
  {
    WrittenParts(f);
    PartsAppended(s.log, Written(f));
    AllWrittenSnoc(s.frames, f);
    CheckSnoc(g, cfg, OdomTable(g, cfg, OdomsIn(s.log)).value, s.frames, f);
    SameStatics(s.statics, m, StaticsIn(s.log));
    EmittedSteady(g, s, f, m, wall);
    hide Steady, FollowsOn, CheckFrame, CheckFrames, Written, AllWritten, OdomsIn, StaticsIn, Select, OdomTable,
         StaticsKept, Groups;
  }

  lemma SameStatics(s: Statics, m: Matrix, msgs: seq<seq<Transform>>)
    requires StaticsKept(s, msgs)
    ensures StaticsKept(s.(accepted := Some(m)), msgs)
  {
  }

  lemma DroppedRecorded(g: Geometry, cfg: Config, s: EngineState, reason: Reason)
    requires cfg.Valid() && Recorded(g, cfg, s) && s.images.pending != []
    ensures Recorded(g, cfg, Dropped(s, reason))
  {
    SteadyStays(g, s, Dropped(s, reason));
    hide Steady, CheckFrames, OdomTable, OdomsIn, StaticsIn, Select, AllWritten, OdomKept, StaticsKept;
  }

  lemma {:induction false} DrainRecorded(g: Geometry, cfg: Config, s: EngineState, wall: real, final: bool)
    requires g.Lawful() && cfg.Valid() && Sound(cfg, s) && Recorded(g, cfg, s)
    ensures var r := Drain(g, cfg, s, wall, final);
            r.Some? ==> Recorded(g, cfg, r.value)
    decreases |s.images.pending|
  {
    hide Geometry.Lawful, Ledger, Orderly, Recorded, FrontOutcome, Dropped, Emitted, CheckFrame, OdomTable;
    if s.images.pending != [] {
      match FrontOutcome(g, cfg, s)
      case Late(reason) =>
        DroppedLedger(s, reason);
        DroppedOrderly(cfg, s, reason);
        DroppedRecorded(g, cfg, s, reason);
        DrainRecorded(g, cfg, Dropped(s, reason), wall, final);
      case Bad =>
        DroppedLedger(s, InvalidRgbd);
        DroppedOrderly(cfg, s, InvalidRgbd);
        DroppedRecorded(g, cfg, s, InvalidRgbd);
        DrainRecorded(g, cfg, Dropped(s, InvalidRgbd), wall, final);
      case Changed =>
      case Made(f, m) =>
        MadeStamp(g, cfg, s);
        FrontAccepted(g, cfg, s);
        EmittedLedger(s, f, m, wall);
        EmittedOrderly(cfg, s, f, m, wall);
        EmittedRecorded(g, cfg, s, f, m, wall);
        DrainRecorded(g, cfg, Emitted(s, f, m, wall), wall, final);
    }
  }

  // ---------------------------------------------------------------- one message

  lemma SameRecorded(g: Geometry, cfg: Config, s: EngineState, r: EngineState)
    requires Recorded(g, cfg, s) && r.log == s.log && r.frames == s.frames && r.odoms == s.odoms
             && r.statics == s.statics
    requires r.last.odom == s.last.odom
    ensures Recorded(g, cfg, r)
  {
    SteadyStays(g, s, r);
    hide Steady, CheckFrames, OdomTable, OdomsIn, StaticsIn, Select, AllWritten, OdomKept, StaticsKept;
  }

  lemma {:induction false} PairAllKeeps(cfg: Config, s: EngineState, wall: real)
    requires cfg.Valid()
    ensures var r := PairAll(cfg, s, wall);
            r.log == s.log && r.frames == s.frames && r.odoms == s.odoms && r.statics == s.statics && r.last == s.last
    decreases |s.images.rgb| + |s.images.depth|
  {
    if s.images.rgb != [] && s.images.depth != [] {
      PairTurnKeeps(cfg, s, wall);
      PairAllKeeps(cfg, PairTurn(cfg, s, wall), wall);
      hide PairTurn;
    }
  }

  lemma PairTurnKeeps(cfg: Config, s: EngineState, wall: real)
    requires cfg.Valid() && s.images.rgb != [] && s.images.depth != []
    ensures var r := PairTurn(cfg, s, wall);
            r.log == s.log && r.frames == s.frames && r.odoms == s.odoms && r.statics == s.statics && r.last == s.last
  {
  }

  /** Messages that are only passed on. */
  lemma WroteRecorded(g: Geometry, cfg: Config, s: EngineState, t: int, m: Message)
    requires Recorded(g, cfg, s) && !m.OdomMsg? && !m.StaticMsg?
    ensures Recorded(g, cfg, Wrote(s, t, m))
  {
    RawAppended(s.log, t, m);
    SteadyStays(g, s, Wrote(s, t, m));
    hide Steady, CheckFrames, OdomTable, OdomsIn, StaticsIn, Select, AllWritten, OdomKept, StaticsKept;
  }

  lemma StaticRecorded(g: Geometry, cfg: Config, s: EngineState, t: int, ts: seq<Transform>)
    requires Recorded(g, cfg, s) && Learned(g, s.statics, ts).Some?
    ensures var r := Learned(g, s.statics, ts).value;
            Recorded(g, cfg, Wrote(s.(statics := r), t, StaticMsg(r.known)))
  {
    StaticsAppended(g, s.statics, ts, StaticsIn(s.log));
    var r := Learned(g, s.statics, ts).value;
    RawAppended(s.log, t, StaticMsg(r.known));
    SteadyStays(g, s, Wrote(s.(statics := r), t, StaticMsg(r.known)));
    hide Steady, CheckFrames, OdomTable, OdomsIn, StaticsIn, Select, AllWritten, OdomKept, StaticsKept, Learned;
  }

  lemma OdomRecorded(g: Geometry, cfg: Config, s: EngineState, x: Odometry, arrival: int)
    requires cfg.Valid() && Recorded(g, cfg, s)
    requires var a := Stamped(s.last.odom, x.stamp, x.id);
             a.New? && TakeOdom(g, cfg, s, x, a.stream, a.missed, arrival).Some?
    ensures var a := Stamped(s.last.odom, x.stamp, x.id);
            Recorded(g, cfg, TakeOdom(g, cfg, s, x, a.stream, a.missed, arrival).value)
  {
    var a := Stamped(s.last.odom, x.stamp, x.id);
    OdomAppended(g, cfg, s, OdomsIn(s.log), x, a.missed, arrival);
    RawAppended(s.log, arrival, OdomMsg(x));
    SteadyStays(g, s, TakeOdom(g, cfg, s, x, a.stream, a.missed, arrival).value);
    hide Steady, Aged, Age, CheckFrames, OdomsIn, StaticsIn, Select, AllWritten, StaticsKept, OdomTable,
         OdometryWindow.Drops, Missing;
    TableGrows(g, cfg, OdomsIn(s.log), x);
    MoreOdometry(g, cfg, OdomTable(g, cfg, OdomsIn(s.log)).value, OdomTable(g, cfg, OdomsIn(s.log) + [x]).value,
                 Groups(s.frames));
  }

  lemma TableGrows(g: Geometry, cfg: Config, h: seq<Odometry>, x: Odometry)
    requires OdomTable(g, cfg, h + [x]).Some?
    ensures OdomTable(g, cfg, h).Some? && Extends(OdomTable(g, cfg, h).value, OdomTable(g, cfg, h + [x]).value)
  {
    assert (h + [x])[..|h|] == h;
    TableHolds(g, cfg, h);
    if h != [] {
      assert (h + [x])[|h| - 1] == h[|h| - 1];
    }
  }
}
