/** A session in which the extrinsic creeps: the engine compares each with the one before it
    only, so it writes every frame, and the validator refuses the bag. */
module RgbdCreep {
  import opened Basics
  import opened RgbdTypes
  import opened RgbdGroup
  import opened RgbdEngine
  import opened RgbdRuns
  import opened RgbdValidator
  import opened RgbdRecording
  import opened RgbdAgreement
  import opened RgbdSession
  import opened RgbdVerdict
  import RgbdPairing
  import RgbdRefinement
  import RateLimiter
  import OdometryWindow

  // ---------------------------------------------------------------- the session

  /** Motions without rotation; tf2 finds direct edges; every image has depth. */
  function Translations(): Geometry {
    Geometry(
      (p: Pose) => Some(Matrix(p.position)),
      (m: Matrix) => Pose(m.entries, []),
      (a: Matrix, b: Matrix, t: real) => a,
      (a: Matrix, b: Matrix) => b,
      (m: Matrix) => true,
      (s: map<string, Transform>, to: string, from: string) =>
        if from in s && s[from].frame == to && s[from].child == from then Some(s[from]) else None,
      (rgb: Image, dep: Image, ci: Info, di: Info, optical: string) => Some(1.0))
  }

  lemma TranslationsAreLawful()
    ensures Translations().Lawful()
  {
  }

  function Setting(): Config { Config(10.0, 0.01, 1.0, 3.0, 0.0, 0.001, "world", "body", "optical", 2) }

  const START := 1000000000
  const HALF := 1500000000
  const STOP := 2000000000
  const PERIOD := 100000000

  lemma SettingIsValid()
    ensures Setting().Valid() && Setting().Period() == PERIOD && Setting().Slop() == 10000000
    ensures forall t :: Setting().Target(t) == t
  {
  }

  function At(x: real): Pose { Pose([x], []) }

  function Mount(x: real): Transform { Transform(0, 1, "body", "optical", At(x)) }

  function Edge(): Transform { Transform(0, 1, "world", "body", At(0.0)) }

  function Odom(t: int): Odometry { Odometry(0, t, "world", "body", At(0.0)) }

  function Calibration(): Info { Info(0, 1, "optical", []) }

  function Picture(t: int): Image { Image(0, t, "optical", "", []) }

  /** Everything arrives at one time. */
  function Now(m: RgbdEngine.Message): Call { RgbdRuns.Message(m, STOP, 0.0) }

  function Opening(): seq<Call> {
    [Now(OdomMsg(Odom(START)))] + [Now(OdomMsg(Odom(STOP)))] + [Now(RgbInfoMsg(Calibration()))]
    + [Now(DepthInfoMsg(Calibration()))] + [Now(DynamicMsg([Edge()]))]
  }

  /** A static transform and a pair of images. */
  function Round(t: int, x: real): seq<Call> {
    [Now(StaticMsg([Mount(x)]))] + [Now(RgbMsg(Picture(t)))] + [Now(DepthMsg(Picture(t)))]
  }

  /** Three frames, the camera a little farther from the body each time. */
  function Creeping(): seq<Call> {
    Opening() + Round(START, 0.1) + Round(HALF, 0.10000101) + Round(STOP, 0.10000202)
  }

  lemma CreepIsSmall()
    ensures AllClose(Matrix([0.10000101]), Matrix([0.1]), 0.00000001)
    ensures AllClose(Matrix([0.10000202]), Matrix([0.10000101]), 0.00000001)
    ensures !AllClose(Matrix([0.1]), Matrix([0.10000202]), 0.0000001)
  {
    var a, b := Matrix([0.1]), Matrix([0.10000202]);
    assert !(Abs(a.entries[0] - b.entries[0]) <= 0.0000001 + 0.00001 * Abs(b.entries[0]));
  }

  // ---------------------------------------------------------------- one round

  /** Between rounds: nothing waits, and the frames so far have the extrinsics xs. */
  ghost predicate Standing(s: EngineState, t: int, xs: seq<real>) {
    && s.images.rgb == s.images.depth == [] && s.images.pending == []
    && s.infos == Infos([Calibration()], [Calibration()]) && s.odoms == [Odom(START), Odom(STOP)]
    && |s.frames| == |xs| && (forall k :: 0 <= k < |xs| ==> s.frames[k].ext.pose == At(xs[k]))
    && DynamicsIn(s.log) == [[Edge()]]
    && if xs == [] then s.statics == Statics([], map[], None) && Fresh(s)
       else Mounted(s, xs[|xs| - 1]) && Seen(s, t)
  }

  ghost predicate Fresh(s: EngineState) {
    s.images.nextDue == None && s.last.rgb == s.last.depth == RgbdEngine.Stream(None, None)
  }

  ghost predicate Mounted(s: EngineState, x: real) {
    s.statics == Statics([Mount(x)], map["optical" := Mount(x)], Some(Matrix([x])))
  }

  ghost predicate Seen(s: EngineState, t: int) {
    && s.images.nextDue.Some? && s.images.nextDue.value <= t + PERIOD
    && s.last.rgb == s.last.depth == RgbdEngine.Stream(Some(t), Some(0))
  }

  lemma AfterNext(g: Geometry, cfg: Config, calls: seq<Call>, c: Call)
    requires cfg.Valid()
    ensures After(g, cfg, calls + [c])
            == var s := After(g, cfg, calls); if s.None? then None else Step(g, cfg, s.value, c)
  {
    hide Step;
    assert (calls + [c])[..|calls|] == calls;
  }

  lemma DynamicsNext(log: seq<Record>, r: Record)
    ensures DynamicsIn(log + [r])
            == if IsDynamic(r.item) then DynamicsIn(log) + [r.item.msg.transforms] else DynamicsIn(log)
  {
    assert (log + [r])[..|log|] == log;
  }

  /** The static transform is learned, and nothing else changes but the log. */
  lemma StaticStep(s: EngineState, t: int, xs: seq<real>, x: real)
    requires Setting().Valid() && Standing(s, t, xs)
    ensures var r := Step(Translations(), Setting(), s, Now(StaticMsg([Mount(x)])));
            && r.Some? && r.value.statics == Statics([Mount(x)], map["optical" := Mount(x)], s.statics.accepted)
            && r.value.images == s.images && r.value.infos == s.infos && r.value.odoms == s.odoms
            && r.value.last == s.last && r.value.frames == s.frames && DynamicsIn(r.value.log) == DynamicsIn(s.log)
  {
    var g, ts := Translations(), [Mount(x)];
    assert ts[..0] == [] && Learned(g, s.statics, []) == Some(s.statics);
    assert Learned(g, s.statics, ts).Some?;
    var r := Learned(g, s.statics, ts).value;
    assert r.known == [Mount(x)];
    assert r.buffer == map["optical" := Mount(x)];
    hide Learned, DynamicsIn;
    DynamicsNext(s.log, Record(STOP, Raw(StaticMsg([Mount(x)]))));
  }

  lemma NothingToDrain(g: Geometry, cfg: Config, s: EngineState, wall: real, final: bool)
    requires cfg.Valid() && s.images.pending == []
    ensures Drain(g, cfg, s, wall, final) == Some(s)
  {
    hide FrontOutcome;
  }

  /** The stamp of an image is new to its stream. */
  ghost predicate Newer(l: RgbdEngine.Stream, t: int) {
    0 < t && (l.stamp.Some? ==> l.stamp.value < t) && (l.id.Some? ==> l.id == Some(0))
  }

  lemma NewerIsNew(l: RgbdEngine.Stream, t: int)
    requires Newer(l, t)
    ensures Stamped(l, t, 0) == New(RgbdEngine.Stream(Some(t), Some(0)), 0)
  {
  }

  /** The colour image waits for its partner. */
  lemma RgbStep(s: EngineState, t: int)
    requires Setting().Valid() && Newer(s.last.rgb, t)
    requires s.images.rgb == s.images.depth == [] && s.images.pending == []
    ensures var r := Step(Translations(), Setting(), s, Now(RgbMsg(Picture(t))));
            && r.Some? && r.value.images == s.images.(rgb := [Picture(t)])
            && r.value.last == s.last.(rgb := RgbdEngine.Stream(Some(t), Some(0)))
            && r.value.statics == s.statics && r.value.infos == s.infos && r.value.odoms == s.odoms
            && r.value.frames == s.frames && r.value.log == s.log
  {
    NewerIsNew(s.last.rgb, t);
    RgbdRefinement.TakeRgbUnfolds(Translations(), Setting(), s, Picture(t), STOP, 0.0);
    var q := RgbQueued(Setting(), Received(s, RgbTopic), Picture(t), RgbdEngine.Stream(Some(t), Some(0)), 0);
    assert [] + [Picture(t)] == [Picture(t)];
    assert PairAll(Setting(), q, 0.0) == q;
    NothingToDrain(Translations(), Setting(), q, 0.0, false);
    hide Take, Drain, PairAll, Stamped, Missing, Config.Valid;
  }

  /** Two images of one time are paired and let through. */
  lemma PairOfTwo(s: EngineState, t: int)
    requires Setting().Valid() && s.images.rgb == s.images.depth == [Picture(t)] && s.images.pending == []
    requires RateLimiter.Due(s.images.nextDue, t)
    ensures var r := PairAll(Setting(), s, 0.0);
            && r.images.rgb == r.images.depth == [] && r.images.pending == [Pending(Picture(t), Picture(t), 0.0)]
            && r.images.nextDue.Some? && r.images.nextDue.value <= t + PERIOD
            && r.last == s.last && r.statics == s.statics && r.infos == s.infos && r.odoms == s.odoms
            && r.frames == s.frames && r.log == s.log
  {
    SettingIsValid();
    DueSoon(s.images.nextDue, t);
    assert RgbdPairing.Nearest(s.images.depth, t) == 0;
    hide RateLimiter.NextDue, RgbdPairing.Nearest, Config.Valid, Config.Slop, Config.Period;
    var r := PairTurn(Setting(), s, 0.0);
    assert r.images.rgb == [];
    assert PairAll(Setting(), s, 0.0) == PairAll(Setting(), r, 0.0) == r;
  }

  lemma DueSoon(due: Option<int>, t: int)
    requires RateLimiter.Due(due, t)
    ensures RateLimiter.NextDue(due, t, PERIOD) <= t + PERIOD
  {
  }

  lemma BestOfOne(bound: int)
    requires 1 <= bound
    ensures BestInfo([Calibration()], bound) == Some(Calibration())
  {
    assert [Calibration()][..0] == [] && BestInfo([], bound).None?;
  }

  /** The pair becomes a frame with the extrinsic mounted now. */
  lemma PairIsMade(s: EngineState, t: int, x: real)
    requires Setting().Valid() && START <= t <= STOP && s.images.pending == [Pending(Picture(t), Picture(t), 0.0)]
    requires s.infos == Infos([Calibration()], [Calibration()]) && s.odoms == [Odom(START), Odom(STOP)]
    requires s.statics.buffer == map["optical" := Mount(x)]
    requires s.statics.accepted.Some? ==> AllClose(Matrix([x]), s.statics.accepted.value, 0.00000001)
    ensures var o := FrontOutcome(Translations(), Setting(), s);
            o.Made? && o.extrinsic == Matrix([x]) && o.frame.ext.pose == At(x)
  {
    SettingIsValid();
    assert Times(s.odoms) == [START, STOP];
    BracketOfTwo(t);
    BestOfOne(t + Setting().Slop());
    MountIsFound(SourcesOf(s), s.stats.frames, t, x);
    hide BestInfo, OdometryWindow.Bracket, AllClose, Config.Valid, Config.Slop, Config.Target, Times, Located;
  }

  lemma MountIsFound(src: Sources, index: nat, t: int, x: real)
    requires START <= t <= STOP && src.tf == map["optical" := Mount(x)]
    requires src.accepted.Some? ==> AllClose(Matrix([x]), src.accepted.value, 0.00000001)
    ensures var o := Located(Translations(), Setting(), src, index, Picture(t), Picture(t), Odom(START), Odom(STOP),
                             Calibration(), Calibration(), 1.0);
            o.Made? && o.extrinsic == Matrix([x]) && o.frame.ext.pose == At(x)
  {
    SettingIsValid();
    hide AllClose, Config.Valid, Config.Target;
  }

  lemma BracketOfTwo(t: int)
    requires START <= t <= STOP
    ensures OdometryWindow.Bracket([START, STOP], t) == Some(1)
  {
    assert [START, STOP][1..] == [STOP];
    assert OdometryWindow.BisectLeft([STOP], t) == 0;
  }

  lemma WrittenAddsNothing(log: seq<Record>, f: Frame)
    ensures DynamicsIn(log + Written(f)) == DynamicsIn(log)
  {
    WrittenParts(f);
    PartsAppended(log, Written(f));
  }

  /** The depth image completes the pair, which becomes a frame at once. */
  lemma DepthStep(s: EngineState, t: int, x: real)
    requires Setting().Valid() && Newer(s.last.depth, t) && START <= t <= STOP
    requires s.images.rgb == [Picture(t)] && s.images.depth == [] && s.images.pending == []
    requires RateLimiter.Due(s.images.nextDue, t)
    requires s.infos == Infos([Calibration()], [Calibration()]) && s.odoms == [Odom(START), Odom(STOP)]
    requires s.statics.buffer == map["optical" := Mount(x)]
    requires s.statics.accepted.Some? ==> AllClose(Matrix([x]), s.statics.accepted.value, 0.00000001)
    ensures var r := Step(Translations(), Setting(), s, Now(DepthMsg(Picture(t))));
            && r.Some? && r.value.images.rgb == r.value.images.depth == [] && r.value.images.pending == []
            && r.value.images.nextDue.Some? && r.value.images.nextDue.value <= t + PERIOD
            && r.value.last == s.last.(depth := RgbdEngine.Stream(Some(t), Some(0)))
            && r.value.statics == s.statics.(accepted := Some(Matrix([x])))
            && r.value.infos == s.infos && r.value.odoms == s.odoms
            && |r.value.frames| == |s.frames| + 1 && r.value.frames[..|s.frames|] == s.frames
            && r.value.frames[|s.frames|].ext.pose == At(x) && DynamicsIn(r.value.log) == DynamicsIn(s.log)
  {
    NewerIsNew(s.last.depth, t);
    RgbdRefinement.TakeDepthUnfolds(Translations(), Setting(), s, Picture(t), STOP, 0.0);
    var q := DepthQueued(Setting(), Received(s, DepthTopic), Picture(t), RgbdEngine.Stream(Some(t), Some(0)), 0);
    assert [] + [Picture(t)] == [Picture(t)];
    hide Take, PairAll, Stamped, Missing, FrontOutcome, DynamicsIn, Config.Valid, RateLimiter.Due, AllClose;
    PairOfTwo(q, t);
    var p := PairAll(Setting(), q, 0.0);
    PairIsMade(p, t, x);
    var f := FrontOutcome(Translations(), Setting(), p).frame;
    var r := Emitted(p, f, Matrix([x]), 0.0);
    NothingToDrain(Translations(), Setting(), r, 0.0, false);
    WrittenAddsNothing(p.log, f);
    DrainOne(p, f, Matrix([x]));
    hide DepthQueued, Drain;
  }

  lemma DrainOne(s: EngineState, f: Frame, m: Matrix)
    requires Setting().Valid() && |s.images.pending| == 1 && FrontOutcome(Translations(), Setting(), s) == Made(f, m)
    ensures Drain(Translations(), Setting(), s, 0.0, false) == Some(Emitted(s, f, m, 0.0))
  {
    hide FrontOutcome, Written;
    NothingToDrain(Translations(), Setting(), Emitted(s, f, m, 0.0), 0.0, false);
  }

  // ---------------------------------------------------------------- the whole session

  lemma RoundStands(calls: seq<Call>, s: EngineState, t: int, xs: seq<real>, u: int, x: real)
    requires Setting().Valid() && After(Translations(), Setting(), calls) == Some(s) && Standing(s, t, xs)
    requires START <= u <= STOP && (xs != [] ==> t + PERIOD <= u)
    requires xs != [] ==> AllClose(Matrix([x]), Matrix([xs[|xs| - 1]]), 0.00000001)
    ensures var r := After(Translations(), Setting(), calls + Round(u, x));
            r.Some? && Standing(r.value, u, xs + [x])
  {
    var e1, e2, e3 := Now(StaticMsg([Mount(x)])), Now(RgbMsg(Picture(u))), Now(DepthMsg(Picture(u)));
    assert calls + Round(u, x) == calls + [e1] + [e2] + [e3];
    AfterNext(Translations(), Setting(), calls, e1);
    AfterNext(Translations(), Setting(), calls + [e1], e2);
    AfterNext(Translations(), Setting(), calls + [e1] + [e2], e3);
    hide After, Step, AllClose, DynamicsIn, Config.Valid;
    StaticStep(s, t, xs, x);
    var a := Step(Translations(), Setting(), s, e1).value;
    RgbStep(a, u);
    var b := Step(Translations(), Setting(), a, e2).value;
    DepthStep(b, u, x);
    RoundIsStanding(s, t, xs, u, x, Step(Translations(), Setting(), b, e3).value);
  }

  lemma RoundIsStanding(s: EngineState, t: int, xs: seq<real>, u: int, x: real, r: EngineState)
    requires Standing(s, t, xs)
    requires r.images.rgb == r.images.depth == [] && r.images.pending == []
    requires r.images.nextDue.Some? && r.images.nextDue.value <= u + PERIOD
    requires r.last.rgb == r.last.depth == RgbdEngine.Stream(Some(u), Some(0)) && Mounted(r, x)
    requires r.infos == s.infos && r.odoms == s.odoms && DynamicsIn(r.log) == DynamicsIn(s.log)
    requires |r.frames| == |s.frames| + 1 && r.frames[..|s.frames|] == s.frames
    requires r.frames[|s.frames|].ext.pose == At(x)
    ensures Standing(r, u, xs + [x])
  {
    hide DynamicsIn;
    forall k | 0 <= k < |xs + [x]|
      ensures r.frames[k].ext.pose == At((xs + [x])[k])
    {
      if k < |xs| {
        assert r.frames[..|s.frames|][k] == s.frames[k];
      }
    }
  }

  lemma OdomStep(s: EngineState, t: int)
    requires Setting().Valid() && Newer(s.last.odom, t) && |s.odoms| < 2 && s.images.pending == []
    ensures var r := Step(Translations(), Setting(), s, Now(OdomMsg(Odom(t))));
            && r.Some? && r.value.odoms == s.odoms + [Odom(t)]
            && r.value.last == s.last.(odom := RgbdEngine.Stream(Some(t), Some(0)))
            && r.value.images == s.images && r.value.statics == s.statics && r.value.infos == s.infos
            && r.value.frames == s.frames && DynamicsIn(r.value.log) == DynamicsIn(s.log)
  {
    NewerIsNew(s.last.odom, t);
    var q := s.odoms + [Odom(t)];
    assert OdometryWindow.Drops(Times(q), t - Setting().Memory()) == 0;
    hide Stamped, Missing, DynamicsIn, Aged, Age, OdometryWindow.Drops, Config.Memory, Config.Valid;
    DynamicsNext(s.log, Record(STOP, Raw(OdomMsg(Odom(t)))));
    var r := TakeOdom(Translations(), Setting(), Received(s, OdomTopic), Odom(t),
                      RgbdEngine.Stream(Some(t), Some(0)), 0, STOP).value;
    NothingToDrain(Translations(), Setting(), r, 0.0, false);
    hide Drain;
  }

  lemma InfoSteps(s: EngineState)
    requires Setting().Valid() && s.infos == Infos([], []) && s.images.pending == []
    ensures var a := Step(Translations(), Setting(), s, Now(RgbInfoMsg(Calibration())));
            && a.Some?
            && var b := Step(Translations(), Setting(), a.value, Now(DepthInfoMsg(Calibration())));
            && b.Some? && b.value.infos == Infos([Calibration()], [Calibration()])
            && b.value.odoms == s.odoms && b.value.last == s.last && b.value.images == s.images
            && b.value.statics == s.statics && b.value.frames == s.frames
            && DynamicsIn(b.value.log) == DynamicsIn(s.log)
  {
    var x, y := Record(STOP, Raw(RgbInfoMsg(Calibration()))), Record(STOP, Raw(DepthInfoMsg(Calibration())));
    DynamicsNext(s.log, x);
    DynamicsNext(s.log + [x], y);
    hide DynamicsIn, FrontOutcome, Config.Valid;
  }

  lemma EdgeStep(s: EngineState)
    requires Setting().Valid()
    ensures var r := Step(Translations(), Setting(), s, Now(DynamicMsg([Edge()])));
            && r.Some? && r.value.infos == s.infos && r.value.odoms == s.odoms && r.value.last == s.last
            && r.value.images == s.images && r.value.statics == s.statics && r.value.frames == s.frames
            && DynamicsIn(r.value.log) == DynamicsIn(s.log) + [[Edge()]]
  {
    DynamicsNext(s.log, Record(STOP, Raw(DynamicMsg([Edge()]))));
    hide DynamicsIn, Config.Valid;
  }

  lemma OdomsStand() returns (s: EngineState)
    requires Setting().Valid()
    ensures After(Translations(), Setting(), [Now(OdomMsg(Odom(START)))] + [Now(OdomMsg(Odom(STOP)))]) == Some(s)
    ensures s.odoms == [Odom(START), Odom(STOP)] && DynamicsIn(s.log) == [] && s.frames == []
    ensures s.images == Initial().images && s.infos == Initial().infos && s.statics == Initial().statics
    ensures s.last.rgb == Initial().last.rgb && s.last.depth == Initial().last.depth
  {
    var g, cfg, e1, e2 := Translations(), Setting(), Now(OdomMsg(Odom(START))), Now(OdomMsg(Odom(STOP)));
    assert [] + [e1] == [e1];
    AfterNext(g, cfg, [], e1);
    AfterNext(g, cfg, [e1], e2);
    assert After(g, cfg, []) == Some(Initial()) && DynamicsIn(Initial().log) == [];
    hide After, Step, DynamicsIn, Config.Valid;
    OdomStep(Initial(), START);
    OdomStep(Step(g, cfg, Initial(), e1).value, STOP);
    s := Step(g, cfg, Step(g, cfg, Initial(), e1).value, e2).value;
  }

  lemma OpeningStands()
    requires Setting().Valid()
    ensures var r := After(Translations(), Setting(), Opening());
            r.Some? && Standing(r.value, 0, [])
  {
    var b := OdomsStand();
    var g, cfg := Translations(), Setting();
    var odoms := [Now(OdomMsg(Odom(START)))] + [Now(OdomMsg(Odom(STOP)))];
    var e3, e4, e5 := Now(RgbInfoMsg(Calibration())), Now(DepthInfoMsg(Calibration())), Now(DynamicMsg([Edge()]));
    AfterNext(g, cfg, odoms, e3);
    AfterNext(g, cfg, odoms + [e3], e4);
    AfterNext(g, cfg, odoms + [e3] + [e4], e5);
    assert Opening() == odoms + [e3] + [e4] + [e5];
    hide After, Step, DynamicsIn, Config.Valid, Opening;
    InfoSteps(b);
    EdgeStep(Step(g, cfg, Step(g, cfg, b, e3).value, e4).value);
  }

  lemma AllAtOnce()
    ensures InOrder(Creeping()) && ArrivalsUpTo(Creeping(), STOP)
  {
    forall c | c in Creeping()
      ensures c.Message? && c.arrival == STOP
    {
    }
  }

  lemma OneRound() returns (s: EngineState)
    requires Setting().Valid()
    ensures After(Translations(), Setting(), Opening() + Round(START, 0.1)) == Some(s)
    ensures Standing(s, START, [0.1])
  {
    OpeningStands();
    hide After, Standing, Opening, Round, AllClose, Config.Valid;
    RoundStands(Opening(), After(Translations(), Setting(), Opening()).value, 0, [], START, 0.1);
    assert [] + [0.1] == [0.1];
    s := After(Translations(), Setting(), Opening() + Round(START, 0.1)).value;
  }

  lemma TwoRounds() returns (s: EngineState)
    requires Setting().Valid()
    ensures After(Translations(), Setting(), Opening() + Round(START, 0.1) + Round(HALF, 0.10000101)) == Some(s)
    ensures Standing(s, HALF, [0.1, 0.10000101])
  {
    var r := OneRound();
    CreepIsSmall();
    hide After, Standing, Opening, Round, AllClose, Config.Valid;
    RoundStands(Opening() + Round(START, 0.1), r, START, [0.1], HALF, 0.10000101);
    assert [0.1] + [0.10000101] == [0.1, 0.10000101];
    s := After(Translations(), Setting(), Opening() + Round(START, 0.1) + Round(HALF, 0.10000101)).value;
  }

  lemma CreepStands() returns (s: EngineState)
    requires Setting().Valid()
    ensures After(Translations(), Setting(), Creeping()) == Some(s)
    ensures Standing(s, STOP, [0.1, 0.10000101, 0.10000202])
  {
    var r := TwoRounds();
    CreepIsSmall();
    hide After, Standing, Opening, Round, AllClose, Config.Valid;
    RoundStands(Opening() + Round(START, 0.1) + Round(HALF, 0.10000101), r, HALF, [0.1, 0.10000101], STOP, 0.10000202);
    assert [0.1, 0.10000101] + [0.10000202] == [0.1, 0.10000101, 0.10000202];
    s := After(Translations(), Setting(), Creeping()).value;
  }

  /** At the end nothing is missing but an extrinsic near that of every frame. */
  lemma CreepIsEquipped(s: EngineState)
    requires Standing(s, STOP, [0.1, 0.10000101, 0.10000202]) && Replayed(StaticsIn(s.log)) == s.statics.buffer
    ensures |s.frames| == 3 && Equipped(Translations(), Setting(), s) && !WellEquipped(Translations(), Setting(), s)
  {
    CreepIsSmall();
    hide DynamicsIn, StaticsIn, AllClose;
    var g, xs := Translations(), [0.1, 0.10000101, 0.10000202];
    assert "optical" in s.statics.buffer && StaticsIn(s.log) != [];
    EdgeIsValid(s);
    hide EdgesValid;
    assert Extrinsic(g, Setting(), s) == Some(Matrix([0.10000202]));
    assert s.frames[0].ext.pose == At(xs[0]) && Groups(s.frames)[0].1 == s.frames[0];
    assert !ExtAgrees(g, Matrix([0.10000202]), Groups(s.frames)[0].1);
  }

  lemma EdgeIsValid(s: EngineState)
    requires DynamicsIn(s.log) == [[Edge()]]
    ensures EdgesValid(Translations(), Setting(), DynamicsIn(s.log))
  {
    hide DynamicsIn;
    var m := [Edge()];
    assert m in DynamicsIn(s.log) && Edge() in m && IsEdge(Setting(), Edge());
  }

  /** The engine writes three frames and is not aborted, its bag lacks nothing else, and yet the
      validator refuses it. */
  lemma CreepIsRefused(k: Closing)
    requires k.SensorsOnly()
    ensures Setting().Valid() && Translations().Lawful() && After(Translations(), Setting(), Creeping()).Some?
    ensures var r := Drain(Translations(), Setting(), After(Translations(), Setting(), Creeping()).value, 0.0, true);
            && r.Some? && |r.value.frames| == 3 && Equipped(Translations(), Setting(), r.value)
            && FrameGroups(Read(Bag(Setting(), r.value, k), IsGroup)) == Some(Groups(r.value.frames))
            && CheckBag(Translations(), Bag(Setting(), r.value, k)) == None
  {
    SettingIsValid();
    TranslationsAreLawful();
    var s := CreepStands();
    AllAtOnce();
    NothingToDrain(Translations(), Setting(), s, 0.0, true);
    hide Geometry.Lawful, After, Drain, Standing, Creeping, InOrder, ArrivalsUpTo, Config.Valid, Equipped, WellEquipped;
    hide RawsComplete, Recorded, Bag, CheckBag, Read, FrameGroups, StaticsIn, Replayed, Closing.SensorsOnly;
    RunRecorded(Translations(), Setting(), Creeping());
    RecordedStatics(s);
    ProducerAndValidatorAgree(Translations(), Setting(), Creeping(), 0.0, k, STOP);
    CreepIsEquipped(s);
  }

  lemma RecordedStatics(s: EngineState)
    requires Recorded(Translations(), Setting(), s)
    ensures Replayed(StaticsIn(s.log)) == s.statics.buffer
  {
    hide OdomTable, CheckFrames, AllWritten, Select, OdomsIn, StaticsIn, OdomKept, Steady, Replayed;
  }
}
