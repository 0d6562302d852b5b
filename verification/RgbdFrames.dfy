/** Every frame of every session is true: its images came in, its pose lies between two samples
    recorded before it, and its calibrations and extrinsic are the latest ones recorded. */
module RgbdFrames {
  import opened Basics
  import opened RgbdTypes
  import opened RgbdGroup
  import opened RgbdEngine
  import opened RgbdRuns
  import opened RgbdValidator
  import opened RgbdRecording
  import opened RgbdAgreement
  import opened RgbdSession
  import opened RgbdReading
  import opened RgbdMeaning
  import opened RgbdOutcomes
  import RgbdPairing
  import RateLimiter
  import OdometryWindow

  // ---------------------------------------------------------------- what is said of a frame

  function RgbInfosIn(r: seq<Record>): seq<Info> {
    if r == [] then []
    else
      var before, i := RgbInfosIn(r[..|r| - 1]), r[|r| - 1].item;
      if i.Raw? && i.msg.RgbInfoMsg? then before + [i.msg.info] else before
  }

  function DepthInfosIn(r: seq<Record>): seq<Info> {
    if r == [] then []
    else
      var before, i := DepthInfosIn(r[..|r| - 1]), r[|r| - 1].item;
      if i.Raw? && i.msg.DepthInfoMsg? then before + [i.msg.info] else before
  }

  /** The last 240. */
  function Recent(s: seq<Info>): seq<Info> { if |s| <= 240 then s else s[|s| - 240..] }

  ghost predicate Came(calls: seq<Call>, m: Message) {
    exists c :: c in calls && c.Message? && c.msg == m
  }

  ghost predicate Consecutive(h: seq<Odometry>, a: Odometry, b: Odometry) {
    exists i :: 1 <= i < |h| && h[i - 1] == a && h[i] == b
  }

  ghost predicate LatestOf(cfg: Config, infos: seq<Info>, t: int, x: Info) {
    exists i: nat :: Latest(cfg, infos, t, i) && infos[i] == x
  }

  ghost predicate ExtrinsicOf(g: Geometry, cfg: Config, ts: seq<Transform>, ext: Transform) {
    exists tf: map<string, Transform> :: LastSent(ts, tf) && g.lookup(tf, cfg.body, cfg.optical) == Some(ext)
  }

  /** Two neighbouring samples, the latest calibrations in reach, and the extrinsic, all of what
      was recorded so far. */
  ghost predicate FromPast(g: Geometry, cfg: Config, past: seq<Record>, o: Origin) {
    && Consecutive(OdomsIn(past), o.a, o.b)
    && LatestOf(cfg, Recent(RgbInfosIn(past)), o.rgb.stamp, o.ci)
    && LatestOf(cfg, Recent(DepthInfosIn(past)), o.depth.stamp, o.di)
    && ExtrinsicOf(g, cfg, Sent(past), o.ext)
  }

  /** The seven messages of a frame, from n on, all at the time of the colour image. */
  ghost predicate WrittenAt(log: seq<Record>, n: nat, f: Frame) {
    && n + 7 <= |log|
    && log[n] == Record(f.rgb.stamp, RgbPart(f.rgb)) && log[n + 1] == Record(f.rgb.stamp, DepthPart(f.depth))
    && log[n + 2] == Record(f.rgb.stamp, RgbInfoPart(f.rgbInfo))
    && log[n + 3] == Record(f.rgb.stamp, DepthInfoPart(f.depthInfo))
    && log[n + 4] == Record(f.rgb.stamp, PosePart(f.pose)) && log[n + 5] == Record(f.rgb.stamp, ExtPart(f.ext))
    && log[n + 6] == Record(f.rgb.stamp, MetaPart(f.meta))
  }

  /** The images of the frame came in, no farther apart than configured. */
  ghost predicate Paired(cfg: Config, calls: seq<Call>, rgb: Image, dep: Image) {
    && Came(calls, RgbMsg(rgb)) && Came(calls, DepthMsg(dep))
    && -cfg.rgbdSlop * BILLION <= (dep.stamp - rgb.stamp) as real <= cfg.rgbdSlop * BILLION
  }

  ghost predicate TrueAt(g: Geometry, cfg: Config, calls: seq<Call>, log: seq<Record>, k: nat, f: Frame, n: nat,
                         o: Origin)
  {
    WrittenAt(log, n, f) && FrameOf(g, cfg, k, o, f) && Paired(cfg, calls, o.rgb, o.depth)
    && FromPast(g, cfg, log[..n], o)
  }

  ghost predicate TrueFrame(g: Geometry, cfg: Config, calls: seq<Call>, log: seq<Record>, k: nat, f: Frame) {
    exists n: nat, o: Origin :: TrueAt(g, cfg, calls, log, k, f, n, o)
  }

  ghost predicate TrueFrames(g: Geometry, cfg: Config, calls: seq<Call>, log: seq<Record>, frames: seq<Frame>) {
    forall k :: 0 <= k < |frames| ==> TrueFrame(g, cfg, calls, log, k, frames[k])
  }

  // ---------------------------------------------------------------- what stays true

  lemma CameStays(calls: seq<Call>, more: seq<Call>, m: Message)
    requires Came(calls, m)
    ensures Came(calls + more, m)
  {
    var c :| c in calls && c.Message? && c.msg == m;
    assert c in calls + more;
  }

  lemma WrittenStays(log: seq<Record>, w: seq<Record>, n: nat, f: Frame)
    requires WrittenAt(log, n, f)
    ensures WrittenAt(log + w, n, f) && (log + w)[..n] == log[..n]
  {
  }

  lemma PairedStays(cfg: Config, calls: seq<Call>, more: seq<Call>, rgb: Image, dep: Image)
    requires Paired(cfg, calls, rgb, dep)
    ensures Paired(cfg, calls + more, rgb, dep)
  {
    CameStays(calls, more, RgbMsg(rgb));
    CameStays(calls, more, DepthMsg(dep));
    hide Came;
  }

  lemma TrueStays(g: Geometry, cfg: Config, calls: seq<Call>, more: seq<Call>, log: seq<Record>, w: seq<Record>,
                  k: nat, f: Frame)
    requires TrueFrame(g, cfg, calls, log, k, f)
    ensures TrueFrame(g, cfg, calls + more, log + w, k, f)
  {
    var n: nat, o: Origin :| TrueAt(g, cfg, calls, log, k, f, n, o);
    WrittenStays(log, w, n, f);
    assert n <= |log|;
    hide FrameOf, FromPast, Paired, WrittenAt;
    PairedStays(cfg, calls, more, o.rgb, o.depth);
    assert TrueAt(g, cfg, calls + more, log + w, k, f, n, o);
  }

  lemma AllStay(g: Geometry, cfg: Config, calls: seq<Call>, more: seq<Call>, log: seq<Record>, w: seq<Record>,
                frames: seq<Frame>)
    requires TrueFrames(g, cfg, calls, log, frames)
    ensures TrueFrames(g, cfg, calls + more, log + w, frames)
  {
    hide TrueFrame;
    forall k | 0 <= k < |frames|
      ensures TrueFrame(g, cfg, calls + more, log + w, k, frames[k])
    {
      TrueStays(g, cfg, calls, more, log, w, k, frames[k]);
    }
  }

  // ---------------------------------------------------------------- what backs a frame

  ghost predicate ImagesCame(calls: seq<Call>, i: Images) {
    && (forall x :: x in i.rgb ==> Came(calls, RgbMsg(x)))
    && (forall x :: x in i.depth ==> Came(calls, DepthMsg(x)))
    && (forall p :: p in i.pending ==> Came(calls, RgbMsg(p.rgb)) && Came(calls, DepthMsg(p.depth)))
  }

  /** What the engine holds is what the log says. */
  ghost predicate Backed(g: Geometry, cfg: Config, s: EngineState) {
    && OdomKept(g, cfg, s.odoms, s.last.odom, OdomsIn(s.log)) && StaticsKept(s.statics, StaticsIn(s.log))
    && s.infos.rgb == Recent(RgbInfosIn(s.log)) && s.infos.depth == Recent(DepthInfosIn(s.log))
    && s.stats.frames == |s.frames|
  }

  lemma OdomsGood(g: Geometry, cfg: Config, odoms: seq<Odometry>, last: Stream, h: seq<Odometry>)
    requires OdomKept(g, cfg, odoms, last, h)
    ensures Increasing(Times(odoms)) && Posed(g, odoms)
    ensures forall j :: 1 <= j < |odoms| ==> Consecutive(h, odoms[j - 1], odoms[j])
  {
    TableHolds(g, cfg, h);
    var n := |h| - |odoms|;
    assert odoms == h[n..];
    assert Increasing(Times(h)) && Posed(g, h);
    hide OdomKept, Tabled, OdomTable;
    TailGood(g, h, n);
  }

  lemma TailGood(g: Geometry, h: seq<Odometry>, n: nat)
    requires n <= |h| && Increasing(Times(h)) && Posed(g, h)
    ensures var o := h[n..];
            Increasing(Times(o)) && Posed(g, o) && forall j :: 1 <= j < |o| ==> Consecutive(h, o[j - 1], o[j])
  {
    var o := h[n..];
    forall j | 1 <= j < |o|
      ensures Consecutive(h, o[j - 1], o[j])
    {
      assert h[n + j - 1] == o[j - 1] && h[n + j] == o[j];
    }
    assert forall k :: 0 <= k < |o| ==> Times(o)[k] == Times(h)[n + k];
  }

  /** What the engine holds for a pair is in its past. */
  lemma SourcesArePast(g: Geometry, cfg: Config, s: EngineState, i: Inputs, o: Origin)
    requires Backed(g, cfg, s) && FromSources(g, cfg, SourcesOf(s), o.rgb, o.depth, i, o)
    ensures FromPast(g, cfg, s.log, o)
  {
    OdomsGood(g, cfg, s.odoms, s.last.odom, OdomsIn(s.log));
    ReplayedIsLast(s.log);
    hide OdomKept, OdomsIn, StaticsIn, RgbInfosIn, DepthInfosIn, Recent, Sent, LastSent, Bracketed, TooFar, Latest,
         Listed, Replayed, Consecutive;
    assert LatestOf(cfg, s.infos.rgb, o.rgb.stamp, o.ci);
    assert LatestOf(cfg, s.infos.depth, o.depth.stamp, o.di);
    assert ExtrinsicOf(g, cfg, Sent(s.log), o.ext);
    hide LatestOf, ExtrinsicOf;
  }

  lemma MadeOrigin(g: Geometry, cfg: Config, s: EngineState) returns (i: Inputs, o: Origin)
    requires cfg.Valid() && Backed(g, cfg, s) && s.images.pending != [] && FrontOutcome(g, cfg, s).Made?
    ensures var p, f := s.images.pending[0], FrontOutcome(g, cfg, s).frame;
            && o.rgb == p.rgb && o.depth == p.depth && FromSources(g, cfg, SourcesOf(s), p.rgb, p.depth, i, o)
            && FrameOf(g, cfg, |s.frames|, o, f)
  {
    var p := s.images.pending[0];
    OdomsGood(g, cfg, s.odoms, s.last.odom, OdomsIn(s.log));
    hide OdomKept, StaticsKept, OdomsIn, StaticsIn, RgbInfosIn, DepthInfosIn, Recent, MakeGroup, Config.Valid,
         Increasing, Posed, Met, FrameOf, Consecutive;
    i, o := MadeFrom(g, cfg, SourcesOf(s), s.stats.frames, p.rgb, p.depth);
  }

  lemma FrontPaired(cfg: Config, calls: seq<Call>, images: Images)
    requires cfg.Valid() && ImagesCame(calls, images) && Close(cfg, images.pending) && images.pending != []
    ensures Paired(cfg, calls, images.pending[0].rgb, images.pending[0].depth)
  {
    var p := images.pending[0];
    assert p in images.pending;
    SlopIff(cfg, Distance(p.rgb.stamp, p.depth.stamp));
    hide Came, Config.Slop;
  }

  /** The next frame is true. */
  lemma MadeIsTrue(g: Geometry, cfg: Config, calls: seq<Call>, s: EngineState)
    requires cfg.Valid() && Backed(g, cfg, s) && ImagesCame(calls, s.images) && Close(cfg, s.images.pending)
    requires s.images.pending != [] && FrontOutcome(g, cfg, s).Made?
    ensures var f := FrontOutcome(g, cfg, s).frame;
            TrueFrame(g, cfg, calls, s.log + Written(f), |s.frames|, f)
  {
    hide FrontOutcome, FrameOf, FromPast, Paired, Config.Valid, Backed, ImagesCame, Close, FromSources,
         WrittenAt, Written;
    var i, o := MadeOrigin(g, cfg, s);
    var f := FrontOutcome(g, cfg, s).frame;
    FrontPaired(cfg, calls, s.images);
    SourcesArePast(g, cfg, s, i, o);
    WrittenHere(s.log, f);
    assert (s.log + Written(f))[..|s.log|] == s.log;
    assert TrueAt(g, cfg, calls, s.log + Written(f), |s.frames|, f, |s.log|, o);
  }

  lemma WrittenHere(log: seq<Record>, f: Frame)
    ensures WrittenAt(log + Written(f), |log|, f)
  {
    var w, q := Written(f), Parts(f);
    assert q[0] == RgbPart(f.rgb) && q[1] == DepthPart(f.depth) && q[2] == RgbInfoPart(f.rgbInfo)
           && q[3] == DepthInfoPart(f.depthInfo) && q[4] == PosePart(f.pose) && q[5] == ExtPart(f.ext)
           && q[6] == MetaPart(f.meta);
    assert forall i :: 0 <= i < 7 ==> (log + w)[|log| + i] == w[i] && w[i] == Record(f.rgb.stamp, q[i]);
    hide Written, Parts;
  }

  // ---------------------------------------------------------------- a drain

  lemma {:induction false} InfosOfParts(log: seq<Record>, w: seq<Record>)
    requires forall x :: x in w ==> IsGroup(x.item)
    ensures RgbInfosIn(log + w) == RgbInfosIn(log) && DepthInfosIn(log + w) == DepthInfosIn(log)
  {
    if w == [] {
      assert log + w == log;
    } else {
      var v, x := w[..|w| - 1], w[|w| - 1];
      assert x in w;
      InfosOfParts(log, v);
      assert (log + w)[..|log + w| - 1] == log + v;
    }
  }

  lemma InfosOfRaw(log: seq<Record>, t: int, m: Message)
    ensures var r := log + [Record(t, Raw(m))];
            && RgbInfosIn(r) == (if m.RgbInfoMsg? then RgbInfosIn(log) + [m.info] else RgbInfosIn(log))
            && DepthInfosIn(r) == (if m.DepthInfoMsg? then DepthInfosIn(log) + [m.info] else DepthInfosIn(log))
  {
    assert (log + [Record(t, Raw(m))])[..|log|] == log;
  }

  lemma EmittedBacked(g: Geometry, cfg: Config, s: EngineState, f: Frame, m: Matrix, wall: real)
    requires Backed(g, cfg, s) && s.images.pending != []
    ensures Backed(g, cfg, Emitted(s, f, m, wall))
  {
    WrittenParts(f);
    PartsAppended(s.log, Written(f));
    InfosOfParts(s.log, Written(f));
    SameStatics(s.statics, m, StaticsIn(s.log));
    hide OdomKept, StaticsKept, OdomsIn, StaticsIn, RgbInfosIn, DepthInfosIn, Recent, Written;
  }

  lemma DroppedBacked(g: Geometry, cfg: Config, s: EngineState, reason: Reason)
    requires Backed(g, cfg, s) && s.images.pending != []
    ensures Backed(g, cfg, Dropped(s, reason))
  {
    hide OdomKept, StaticsKept, OdomsIn, StaticsIn, RgbInfosIn, DepthInfosIn, Recent;
  }

  lemma PoppedCame(cfg: Config, calls: seq<Call>, i: Images)
    requires cfg.Valid() && ImagesCame(calls, i) && Close(cfg, i.pending) && i.pending != []
    ensures var r := i.(pending := i.pending[1..]);
            ImagesCame(calls, r) && Close(cfg, r.pending)
  {
    hide Came;
    assert forall p :: p in i.pending[1..] ==> p in i.pending;
  }

  ghost predicate Truthful(g: Geometry, cfg: Config, calls: seq<Call>, s: EngineState) {
    Backed(g, cfg, s) && ImagesCame(calls, s.images) && TrueFrames(g, cfg, calls, s.log, s.frames)
  }

  lemma EmittedTruthful(g: Geometry, cfg: Config, calls: seq<Call>, s: EngineState, f: Frame, m: Matrix, wall: real)
    requires cfg.Valid() && Truthful(g, cfg, calls, s) && Close(cfg, s.images.pending) && s.images.pending != []
    requires FrontOutcome(g, cfg, s) == Made(f, m)
    ensures var r := Emitted(s, f, m, wall);
            Truthful(g, cfg, calls, r) && Close(cfg, r.images.pending)
  {
    hide FrontOutcome, Backed, ImagesCame, Close, TrueFrame, Config.Valid, Written;
    MadeIsTrue(g, cfg, calls, s);
    EmittedBacked(g, cfg, s, f, m, wall);
    PoppedCame(cfg, calls, s.images);
    AllStay(g, cfg, calls, [], s.log, Written(f), s.frames);
    assert calls + [] == calls;
    hide Noted;
  }

  lemma DroppedTruthful(g: Geometry, cfg: Config, calls: seq<Call>, s: EngineState, reason: Reason)
    requires cfg.Valid() && Truthful(g, cfg, calls, s) && Close(cfg, s.images.pending) && s.images.pending != []
    ensures var r := Dropped(s, reason);
            Truthful(g, cfg, calls, r) && Close(cfg, r.images.pending)
  {
    hide Backed, ImagesCame, Close, TrueFrames, Config.Valid;
    DroppedBacked(g, cfg, s, reason);
    PoppedCame(cfg, calls, s.images);
  }

  lemma {:induction false} DrainTruthful(g: Geometry, cfg: Config, calls: seq<Call>, s: EngineState, wall: real,
                                         final: bool)
    requires cfg.Valid() && Truthful(g, cfg, calls, s) && Close(cfg, s.images.pending)
    ensures var r := Drain(g, cfg, s, wall, final);
            r.Some? ==> Truthful(g, cfg, calls, r.value)
    decreases |s.images.pending|
  {
    hide Truthful, Close, FrontOutcome, Dropped, Emitted;
    if s.images.pending != [] {
      match FrontOutcome(g, cfg, s)
      case Late(reason) =>
        DroppedTruthful(g, cfg, calls, s, reason);
        DrainTruthful(g, cfg, calls, Dropped(s, reason), wall, final);
      case Bad =>
        DroppedTruthful(g, cfg, calls, s, InvalidRgbd);
        DrainTruthful(g, cfg, calls, Dropped(s, InvalidRgbd), wall, final);
      case Changed =>
      case Made(f, m) =>
        EmittedTruthful(g, cfg, calls, s, f, m, wall);
        DrainTruthful(g, cfg, calls, Emitted(s, f, m, wall), wall, final);
    }
  }

  // ---------------------------------------------------------------- one message

  lemma PairTurnCame(cfg: Config, calls: seq<Call>, s: EngineState, wall: real)
    requires cfg.Valid() && ImagesCame(calls, s.images) && s.images.rgb != [] && s.images.depth != []
    ensures ImagesCame(calls, PairTurn(cfg, s, wall).images)
  {
    hide Came, RgbdPairing.Nearest, RateLimiter.NextDue;
    var a, b := s.images.rgb, s.images.depth;
    assert forall x :: x in a[1..] ==> x in a;
    assert forall x :: x in b[1..] ==> x in b;
    assert a[0] in a;
  }

  lemma {:induction false} PairAllCame(cfg: Config, calls: seq<Call>, s: EngineState, wall: real)
    requires cfg.Valid() && ImagesCame(calls, s.images)
    ensures ImagesCame(calls, PairAll(cfg, s, wall).images) && PairAll(cfg, s, wall).infos == s.infos
            && PairAll(cfg, s, wall).stats.frames == s.stats.frames
    decreases |s.images.rgb| + |s.images.depth|
  {
    hide ImagesCame;
    if s.images.rgb != [] && s.images.depth != [] {
      PairTurnCame(cfg, calls, s, wall);
      PairTurnInfos(cfg, s, wall);
      hide PairTurn;
      PairAllCame(cfg, calls, PairTurn(cfg, s, wall), wall);
    }
  }

  lemma PairTurnInfos(cfg: Config, s: EngineState, wall: real)
    requires cfg.Valid() && s.images.rgb != [] && s.images.depth != []
    ensures PairTurn(cfg, s, wall).infos == s.infos && PairTurn(cfg, s, wall).stats.frames == s.stats.frames
  {
  }

  lemma MoreCame(calls: seq<Call>, c: Call, i: Images)
    requires ImagesCame(calls, i)
    ensures ImagesCame(calls + [c], i)
  {
    hide Came;
    forall m | Came(calls, m)
      ensures Came(calls + [c], m)
    {
      CameStays(calls, [c], m);
    }
  }

  /** A new image is queued. */
  lemma QueuedCame(cfg: Config, calls: seq<Call>, s: EngineState, m: Message, l: Stream, missed: nat, arrival: int,
                   wall: real)
    requires ImagesCame(calls, s.images) && (m.RgbMsg? || m.DepthMsg?)
    ensures ImagesCame(calls + [Call.Message(m, arrival, wall)],
                       (if m.RgbMsg? then RgbQueued(cfg, s, m.image, l, missed)
                        else DepthQueued(cfg, s, m.image, l, missed)).images)
  {
    var c := Call.Message(m, arrival, wall);
    MoreCame(calls, c, s.images);
    assert c in calls + [c];
    assert Came(calls + [c], m);
    hide Came;
    assert forall q: seq<Image>, x, y :: y in q + [x] ==> y in q || y == x;
  }

  lemma SameBacked(g: Geometry, cfg: Config, s: EngineState, r: EngineState)
    requires Backed(g, cfg, s) && r.log == s.log && r.odoms == s.odoms && r.statics == s.statics && r.infos == s.infos
    requires r.last.odom == s.last.odom && r.frames == s.frames && r.stats.frames == s.stats.frames
    ensures Backed(g, cfg, r)
  {
    hide OdomKept, StaticsKept, OdomsIn, StaticsIn, RgbInfosIn, DepthInfosIn, Recent;
  }

  lemma WroteBacked(g: Geometry, cfg: Config, s: EngineState, t: int, m: Message)
    requires Backed(g, cfg, s) && (m.DynamicMsg? || m.OtherMsg?)
    ensures Backed(g, cfg, Wrote(s, t, m))
  {
    RawAppended(s.log, t, m);
    InfosOfRaw(s.log, t, m);
    hide OdomKept, StaticsKept, OdomsIn, StaticsIn, RgbInfosIn, DepthInfosIn, Recent, Select;
  }

  lemma RecentSnoc(s: seq<Info>, x: Info)
    ensures Kept(Recent(s), x, INFO_BUFFER) == Recent(s + [x])
  {
  }

  lemma InfoBacked(g: Geometry, cfg: Config, s: EngineState, t: int, m: Message)
    requires Backed(g, cfg, s) && (m.RgbInfoMsg? || m.DepthInfoMsg?)
    ensures var i := if m.RgbInfoMsg? then s.infos.(rgb := Kept(s.infos.rgb, m.info, INFO_BUFFER))
                     else s.infos.(depth := Kept(s.infos.depth, m.info, INFO_BUFFER));
            Backed(g, cfg, Wrote(s.(infos := i), t, m))
  {
    RawAppended(s.log, t, m);
    InfosOfRaw(s.log, t, m);
    RecentSnoc(if m.RgbInfoMsg? then RgbInfosIn(s.log) else DepthInfosIn(s.log), m.info);
    hide OdomKept, StaticsKept, OdomsIn, StaticsIn, RgbInfosIn, DepthInfosIn, Recent, Select, Kept;
  }

  lemma StaticBacked(g: Geometry, cfg: Config, s: EngineState, t: int, ts: seq<Transform>)
    requires Backed(g, cfg, s) && Learned(g, s.statics, ts).Some?
    ensures var r := Learned(g, s.statics, ts).value;
            Backed(g, cfg, Wrote(s.(statics := r), t, StaticMsg(r.known)))
  {
    StaticsAppended(g, s.statics, ts, StaticsIn(s.log));
    var r := Learned(g, s.statics, ts).value;
    RawAppended(s.log, t, StaticMsg(r.known));
    InfosOfRaw(s.log, t, StaticMsg(r.known));
    hide OdomKept, StaticsKept, OdomsIn, StaticsIn, RgbInfosIn, DepthInfosIn, Recent, Select, Learned;
  }

  lemma OdomBacked(g: Geometry, cfg: Config, s: EngineState, x: Odometry, arrival: int)
    requires cfg.Valid() && Backed(g, cfg, s)
    requires var a := Stamped(s.last.odom, x.stamp, x.id);
             a.New? && TakeOdom(g, cfg, s, x, a.stream, a.missed, arrival).Some?
    ensures var a := Stamped(s.last.odom, x.stamp, x.id);
            Backed(g, cfg, TakeOdom(g, cfg, s, x, a.stream, a.missed, arrival).value)
  {
    var a := Stamped(s.last.odom, x.stamp, x.id);
    OdomAppended(g, cfg, s, OdomsIn(s.log), x, a.missed, arrival);
    RawAppended(s.log, arrival, OdomMsg(x));
    InfosOfRaw(s.log, arrival, OdomMsg(x));
    hide Aged, Age, OdomKept, StaticsKept, OdomsIn, StaticsIn, RgbInfosIn, DepthInfosIn, Recent, Select, Missing,
         OdometryWindow.Drops, Config.Memory, Config.Valid;
  }

  lemma TakeBacked(g: Geometry, cfg: Config, s: EngineState, m: Message, arrival: int, wall: real)
    requires cfg.Valid() && Backed(g, cfg, s) && !m.RgbMsg? && !m.DepthMsg?
    requires Take(g, cfg, s, m, arrival, wall).Some?
    ensures var r := Take(g, cfg, s, m, arrival, wall).value.0;
            Backed(g, cfg, r) && r.frames == s.frames && r.images == s.images
  {
    var t := Received(s, TopicOf(m));
    SameBacked(g, cfg, s, t);
    hide Backed, Stamped, Learned, Kept, TakeOdom;
    match m
    case OdomMsg(x) =>
      var a := Stamped(t.last.odom, x.stamp, x.id);
      if a.Again? {
        SameBacked(g, cfg, s, t.(stats := t.stats.(duplicate := t.stats.duplicate + multiset{OdomTopic})));
      } else {
        OdomBacked(g, cfg, t, x, arrival);
        TakeOdomKeeps(g, cfg, t, x, a.stream, a.missed, arrival);
      }
    case RgbInfoMsg(_) => InfoBacked(g, cfg, t, arrival, m);
    case DepthInfoMsg(_) => InfoBacked(g, cfg, t, arrival, m);
    case StaticMsg(ts) => StaticBacked(g, cfg, t, arrival, ts);
    case DynamicMsg(_) => WroteBacked(g, cfg, t, arrival, m);
    case OtherMsg(_) => WroteBacked(g, cfg, t, arrival, m);
  }

  lemma TakeOdomKeeps(g: Geometry, cfg: Config, s: EngineState, x: Odometry, l: Stream, missed: nat, arrival: int)
    requires cfg.Valid()
    ensures var r := TakeOdom(g, cfg, s, x, l, missed, arrival);
            r.Some? ==> r.value.frames == s.frames && r.value.images == s.images
  {
    hide OdometryWindow.Drops, Aged, Age, Missing;
  }

  lemma TakeRgbCame(g: Geometry, cfg: Config, calls: seq<Call>, s: EngineState, x: Image, arrival: int, wall: real)
    requires cfg.Valid() && ImagesCame(calls, s.images) && Take(g, cfg, s, RgbMsg(x), arrival, wall).Some?
    ensures var r := Take(g, cfg, s, RgbMsg(x), arrival, wall).value.0;
            r.infos == s.infos && r.stats.frames == s.stats.frames
              && ImagesCame(calls + [Call.Message(RgbMsg(x), arrival, wall)], r.images)
  {
    var c, t := Call.Message(RgbMsg(x), arrival, wall), Received(s, RgbTopic);
    var a := Stamped(t.last.rgb, x.stamp, x.id);
    MoreCame(calls, c, s.images);
    hide ImagesCame, Stamped, RgbQueued, PairAll;
    if a.New? {
      QueuedCame(cfg, calls, t, RgbMsg(x), a.stream, a.missed, arrival, wall);
      QueuedKeeps(cfg, t, x, a.stream, a.missed);
      PairAllCame(cfg, calls + [c], RgbQueued(cfg, t, x, a.stream, a.missed), wall);
    }
  }

  lemma TakeDepthCame(g: Geometry, cfg: Config, calls: seq<Call>, s: EngineState, x: Image, arrival: int, wall: real)
    requires cfg.Valid() && ImagesCame(calls, s.images) && Take(g, cfg, s, DepthMsg(x), arrival, wall).Some?
    ensures var r := Take(g, cfg, s, DepthMsg(x), arrival, wall).value.0;
            r.infos == s.infos && r.stats.frames == s.stats.frames
              && ImagesCame(calls + [Call.Message(DepthMsg(x), arrival, wall)], r.images)
  {
    var c, t := Call.Message(DepthMsg(x), arrival, wall), Received(s, DepthTopic);
    var a := Stamped(t.last.depth, x.stamp, x.id);
    MoreCame(calls, c, s.images);
    hide ImagesCame, Stamped, DepthQueued, PairAll;
    if a.New? {
      QueuedCame(cfg, calls, t, DepthMsg(x), a.stream, a.missed, arrival, wall);
      QueuedKeeps(cfg, t, x, a.stream, a.missed);
      PairAllCame(cfg, calls + [c], DepthQueued(cfg, t, x, a.stream, a.missed), wall);
    }
  }

  lemma TakeImageBacked(g: Geometry, cfg: Config, calls: seq<Call>, s: EngineState, m: Message, arrival: int,
                        wall: real)
    requires cfg.Valid() && Backed(g, cfg, s) && (m.RgbMsg? || m.DepthMsg?) && ImagesCame(calls, s.images)
    requires Take(g, cfg, s, m, arrival, wall).Some?
    ensures var r := Take(g, cfg, s, m, arrival, wall).value.0;
            Backed(g, cfg, r) && r.frames == s.frames
              && ImagesCame(calls + [Call.Message(m, arrival, wall)], r.images)
  {
    TakeImageKeeps(g, cfg, s, m, arrival, wall);
    hide ImagesCame, Backed, Take;
    if m.RgbMsg? {
      TakeRgbCame(g, cfg, calls, s, m.image, arrival, wall);
    } else {
      TakeDepthCame(g, cfg, calls, s, m.image, arrival, wall);
    }
    SameBacked(g, cfg, s, Take(g, cfg, s, m, arrival, wall).value.0);
  }

  lemma QueuedKeeps(cfg: Config, s: EngineState, x: Image, l: Stream, missed: nat)
    ensures var r := RgbQueued(cfg, s, x, l, missed);
            r.infos == s.infos && r.stats.frames == s.stats.frames
    ensures var r := DepthQueued(cfg, s, x, l, missed);
            r.infos == s.infos && r.stats.frames == s.stats.frames
  {
  }

  lemma TakeTruthful(g: Geometry, cfg: Config, calls: seq<Call>, s: EngineState, m: Message, arrival: int, wall: real)
    requires cfg.Valid() && Truthful(g, cfg, calls, s) && Take(g, cfg, s, m, arrival, wall).Some?
    ensures Truthful(g, cfg, calls + [Call.Message(m, arrival, wall)], Take(g, cfg, s, m, arrival, wall).value.0)
  {
    hide Backed, ImagesCame, TrueFrames, Take, Config.Valid;
    var c, r := Call.Message(m, arrival, wall), Take(g, cfg, s, m, arrival, wall).value.0;
    if m.RgbMsg? || m.DepthMsg? {
      TakeImageBacked(g, cfg, calls, s, m, arrival, wall);
    } else {
      TakeBacked(g, cfg, s, m, arrival, wall);
      MoreCame(calls, c, s.images);
    }
    TakeLog(g, cfg, s, m, arrival, wall);
    var w := r.log[|s.log|..];
    assert r.log == s.log + w;
    AllStay(g, cfg, calls, [c], s.log, w, s.frames);
  }

  lemma PollTruthful(g: Geometry, cfg: Config, calls: seq<Call>, s: EngineState, c: Call)
    requires Truthful(g, cfg, calls, s)
    ensures Truthful(g, cfg, calls + [c], s)
  {
    hide Backed, ImagesCame, TrueFrames;
    MoreCame(calls, c, s.images);
    AllStay(g, cfg, calls, [c], s.log, [], s.frames);
    assert s.log + [] == s.log;
  }

  lemma StepTruthful(g: Geometry, cfg: Config, calls: seq<Call>, s: EngineState, c: Call)
    requires cfg.Valid() && Truthful(g, cfg, calls, s) && Sound(cfg, s) && Step(g, cfg, s, c).Some?
    ensures Truthful(g, cfg, calls + [c], Step(g, cfg, s, c).value)
  {
    hide Truthful, Take, Drain, Ledger, Within, Line;
    match c
    case Message(m, arrival, wall) =>
      TakeTruthful(g, cfg, calls, s, m, arrival, wall);
      TakeSound(g, cfg, s, m, arrival, wall);
      var t := Take(g, cfg, s, m, arrival, wall).value;
      if t.1 {
        DrainTruthful(g, cfg, calls + [c], t.0, wall, false);
      }
    case Poll(wall) =>
      PollTruthful(g, cfg, calls, s, c);
      DrainTruthful(g, cfg, calls + [c], s, wall, false);
  }

  lemma InitialBacked(g: Geometry, cfg: Config)
    ensures Backed(g, cfg, Initial())
  {
    assert OdomsIn([]) == [] && StaticsIn([]) == [] && RgbInfosIn([]) == [] && DepthInfosIn([]) == [];
    hide OdomsIn, StaticsIn, RgbInfosIn, DepthInfosIn;
  }

  lemma InitialTruthful(g: Geometry, cfg: Config)
    ensures Truthful(g, cfg, [], Initial())
  {
    InitialBacked(g, cfg);
    hide Backed, Came, TrueFrame;
  }

  lemma {:induction false} RunTruthful(g: Geometry, cfg: Config, calls: seq<Call>)
    requires cfg.Valid() && After(g, cfg, calls).Some?
    ensures Truthful(g, cfg, calls, After(g, cfg, calls).value)
  {
    hide Truthful, Step, Sound;
    if calls == [] {
      InitialTruthful(g, cfg);
      return;
    }
    var before, c := calls[..|calls| - 1], calls[|calls| - 1];
    RunTruthful(g, cfg, before);
    RunSound(g, cfg, before);
    assert before + [c] == calls;
    StepTruthful(g, cfg, before, After(g, cfg, before).value, c);
  }

  /** Every frame of every session, before and after the final drain: images that came in, the
      camera posed as far between two neighbouring recorded samples as the query time lies
      between their stamps, and the latest calibrations and extrinsic recorded before it. */
  lemma FramesAreTrue(g: Geometry, cfg: Config, calls: seq<Call>, wall: real)
    requires cfg.Valid() && After(g, cfg, calls).Some?
    ensures var s := After(g, cfg, calls).value;
            TrueFrames(g, cfg, calls, s.log, s.frames)
    ensures var r := Drain(g, cfg, After(g, cfg, calls).value, wall, true);
            r.Some? ==> TrueFrames(g, cfg, calls, r.value.log, r.value.frames)
  {
    RunTruthful(g, cfg, calls);
    RunSound(g, cfg, calls);
    hide Drain, After, Backed, ImagesCame, TrueFrames, Ledger, Within, Line, Close;
    DrainTruthful(g, cfg, calls, After(g, cfg, calls).value, wall, true);
  }
}
