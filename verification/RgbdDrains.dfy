/** What a drain does with each waiting pair: a frame, a loss that is deserved, or more waiting. */
module RgbdDrains {
  import opened Basics
  import opened RgbdTypes
  import opened RgbdGroup
  import opened RgbdEngine
  import opened RgbdMeaning
  import opened RgbdOutcomes
  import opened RgbdFrames
  import opened RgbdRuns
  import opened RgbdValidator
  import RgbdWaiting

  datatype Fate = Framed(frame: Frame) | Lost(reason: Reason)

  /** The extrinsic the static transforms give now. */
  ghost predicate Mounted(g: Geometry, cfg: Config, s: Sources, m: Matrix) {
    var ext := g.lookup(s.tf, cfg.body, cfg.optical);
    ext.Some? && g.matrix(ext.value.pose) == Some(m)
  }

  /** What a pair lacks to become a frame. */
  ghost predicate Lacks(g: Geometry, cfg: Config, s: Sources, p: Pending, query: int, reason: Reason) {
    match reason
    case NoBracketingOdometry => forall j: nat :: !Bracketed(s.odoms, query, j)
    case OdometryGap => exists j: nat :: Bracketed(s.odoms, query, j) && TooFar(cfg, s.odoms[j - 1], s.odoms[j])
    case MissingCameraInfo =>
      NoneInReach(cfg, s.rgbInfos, p.rgb.stamp) || NoneInReach(cfg, s.depthInfos, p.depth.stamp)
    case MissingStaticExtrinsics => g.lookup(s.tf, cfg.body, cfg.optical).None?
    case InvalidRgbd => exists i: Inputs :: Spoilt(g, cfg, s, p, query, i)
  }

  /** All is there, but the pixels do not agree or are empty, or the extrinsic is no pose. */
  ghost predicate Spoilt(g: Geometry, cfg: Config, s: Sources, p: Pending, query: int, i: Inputs) {
    && Met(cfg, s, p.rgb, p.depth, query, i)
    && (!Seen(g, cfg, s, p.rgb, p.depth, i)
        || (g.lookup(s.tf, cfg.body, cfg.optical).Some? && forall m :: !Mounted(g, cfg, s, m)))
  }

  /** The pair lacks something, and if that may still come, it has waited its time. */
  ghost predicate MayGo(g: Geometry, cfg: Config, s: Sources, p: Pending, wall: real, final: bool, reason: Reason) {
    && Lacks(g, cfg, s, p, cfg.Target(p.rgb.stamp), reason)
    && (reason == InvalidRgbd || final || wall - p.queued >= cfg.wait)
  }

  /** The pair became the frame of this number, with the extrinsic the session has. */
  ghost predicate Became(g: Geometry, cfg: Config, s: Sources, p: Pending, k: nat, f: Frame, i: Inputs, o: Origin) {
    FromSources(g, cfg, s, p.rgb, p.depth, i, o) && FrameOf(g, cfg, k, o, f) && !Moved(s, o.m)
  }

  ghost predicate Deserved(g: Geometry, cfg: Config, s: Sources, p: Pending, k: nat, wall: real, final: bool,
                           fate: Fate)
  {
    match fate
    case Framed(f) => exists i: Inputs, o: Origin :: Became(g, cfg, s, p, k, f, i, o)
    case Lost(reason) => MayGo(g, cfg, s, p, wall, final, reason)
  }

  /** The pair lacks something that may still come, and may wait. */
  ghost predicate Waits(g: Geometry, cfg: Config, s: Sources, p: Pending, wall: real, final: bool, reason: Reason) {
    && Lacks(g, cfg, s, p, cfg.Target(p.rgb.stamp), reason)
    && reason != InvalidRgbd && !final && wall - p.queued < cfg.wait
  }

  /** The first pairs meet these fates in turn; the first of the others may wait. */
  ghost predicate Drained(g: Geometry, cfg: Config, s: Sources, pending: seq<Pending>, k: nat, wall: real, final: bool,
                          fates: seq<Fate>, left: seq<Pending>)
  {
    if fates == [] then
      left == pending && (left != [] ==> exists reason :: Waits(g, cfg, s, left[0], wall, final, reason))
    else
      && pending != [] && Deserved(g, cfg, s, pending[0], k, wall, final, fates[0])
      && Drained(g, cfg, s, pending[1..], if fates[0].Framed? then k + 1 else k, wall, final, fates[1..], left)
  }

  function FramesIn(fates: seq<Fate>): seq<Frame> {
    if fates == [] then []
    else if fates[0].Framed? then [fates[0].frame] + FramesIn(fates[1..])
    else FramesIn(fates[1..])
  }

  function LossesIn(fates: seq<Fate>): multiset<Reason> {
    if fates == [] then multiset{}
    else if fates[0].Lost? then multiset{fates[0].reason} + LossesIn(fates[1..])
    else LossesIn(fates[1..])
  }

  // ---------------------------------------------------------------- one pair

  /** The engine's sources are these, its accepted extrinsic the first one or the present one. */
  ghost predicate Same(g: Geometry, cfg: Config, s: Sources, t: Sources) {
    && t.odoms == s.odoms && t.rgbInfos == s.rgbInfos && t.depthInfos == s.depthInfos && t.tf == s.tf
    && (t.accepted == s.accepted
        || (t.accepted.Some? && Mounted(g, cfg, s, t.accepted.value) && !Moved(s, t.accepted.value)))
  }

  lemma NearItself(m: Matrix)
    ensures Near(m, m, 0.00000001)
  {
  }

  /** What the outcome of a pair means. */
  ghost predicate Meaning(g: Geometry, cfg: Config, s: Sources, p: Pending, k: nat, r: Outcome) {
    match r
    case Late(reason) => reason != InvalidRgbd && Lacks(g, cfg, s, p, cfg.Target(p.rgb.stamp), reason)
    case Bad => Lacks(g, cfg, s, p, cfg.Target(p.rgb.stamp), InvalidRgbd)
    case Changed => exists m :: Mounted(g, cfg, s, m) && Moved(s, m)
    case Made(f, m) => Mounted(g, cfg, s, m) && !Moved(s, m)
                       && exists i: Inputs, o: Origin :: Became(g, cfg, s, p, k, f, i, o)
  }

  lemma EndsMean(g: Geometry, cfg: Config, s: Sources, p: Pending, k: nat, r: Outcome, i: Inputs)
    requires Met(cfg, s, p.rgb, p.depth, cfg.Target(p.rgb.stamp), i) && Ends(g, cfg, s, k, p.rgb, p.depth, r, i)
    ensures Meaning(g, cfg, s, p, k, r)
  {
    var query, ext := cfg.Target(p.rgb.stamp), g.lookup(s.tf, cfg.body, cfg.optical);
    assert i.rgb < |s.rgbInfos| && i.depth < |s.depthInfos|;
    hide Met, Seen, Config.Target, FrameOf, Near, FromSources;
    if r.Made? {
      var o: Origin :| Makes(g, cfg, s, k, p.rgb, p.depth, i, r, o);
      FrameExt(g, cfg, k, o, r.frame);
      MadeMounts(g, cfg, s, p, k, i, o, r.frame);
      assert Became(g, cfg, s, p, k, r.frame, i, o);
    } else if r.Changed? {
      assert Mounted(g, cfg, s, g.matrix(ext.value.pose).value);
    } else if r.Bad? {
      assert Spoilt(g, cfg, s, p, query, i);
    }
  }

  lemma MadeMounts(g: Geometry, cfg: Config, s: Sources, p: Pending, k: nat, i: Inputs, o: Origin, f: Frame)
    requires FromSources(g, cfg, s, p.rgb, p.depth, i, o) && FrameOf(g, cfg, k, o, f)
    ensures Mounted(g, cfg, s, o.m)
  {
  }

  lemma FrameExt(g: Geometry, cfg: Config, k: nat, o: Origin, f: Frame)
    requires FrameOf(g, cfg, k, o, f)
    ensures g.matrix(o.ext.pose) == Some(o.m)
  {
  }

  lemma DecidedMeans(g: Geometry, cfg: Config, s: Sources, p: Pending, k: nat, r: Outcome, i: Inputs)
    requires Decided(g, cfg, s, k, p.rgb, p.depth, cfg.Target(p.rgb.stamp), r, i)
    ensures Meaning(g, cfg, s, p, k, r)
  {
    var query := cfg.Target(p.rgb.stamp);
    hide NoneInReach, InReach, Ends, Config.Target;
    if Met(cfg, s, p.rgb, p.depth, query, i) && Ends(g, cfg, s, k, p.rgb, p.depth, r, i) {
      EndsMean(g, cfg, s, p, k, r, i);
      hide Meaning;
    }
  }

  lemma LacksTheSame(g: Geometry, cfg: Config, s: Sources, t: Sources, p: Pending, query: int, reason: Reason)
    requires Same(g, cfg, s, t) && Lacks(g, cfg, t, p, query, reason)
    ensures Lacks(g, cfg, s, p, query, reason)
  {
    hide Bracketed, TooFar, NoneInReach, Latest, Share, Near;
    if reason == InvalidRgbd {
      var i: Inputs :| Spoilt(g, cfg, t, p, query, i);
      assert forall m :: Mounted(g, cfg, s, m) ==> Mounted(g, cfg, t, m);
      assert Spoilt(g, cfg, s, p, query, i);
    }
  }

  /** The same meaning in terms of what the drain began with. */
  lemma MeansTheSame(g: Geometry, cfg: Config, s: Sources, t: Sources, p: Pending, k: nat, r: Outcome)
    requires Same(g, cfg, s, t) && Meaning(g, cfg, t, p, k, r)
    ensures Meaning(g, cfg, s, p, k, r)
  {
    hide Lacks, FrameOf, Near, Bracketed, TooFar, Latest, Config.Target;
    match r
    case Late(reason) => LacksTheSame(g, cfg, s, t, p, cfg.Target(p.rgb.stamp), reason);
    case Bad => LacksTheSame(g, cfg, s, t, p, cfg.Target(p.rgb.stamp), InvalidRgbd);
    case Changed =>
      var m :| Mounted(g, cfg, t, m) && Moved(t, m);
      NearItself(m);
      assert Mounted(g, cfg, s, m) && Moved(s, m);
    case Made(f, m) =>
      var i: Inputs, o: Origin :| Became(g, cfg, t, p, k, f, i, o);
      assert Mounted(g, cfg, s, m);
      MadeMounts(g, cfg, t, p, k, i, o, f);
      assert Became(g, cfg, s, p, k, f, i, o);
  }

  // ---------------------------------------------------------------- all pairs

  lemma PairMeans(g: Geometry, cfg: Config, s: Sources, p: Pending, k: nat)
    requires cfg.Valid() && Increasing(Times(s.odoms)) && Posed(g, s.odoms)
    ensures Meaning(g, cfg, s, p, k, MakeGroup(g, cfg, s, k, p.rgb, p.depth))
  {
    TargetIff(cfg, p.rgb.stamp, cfg.Target(p.rgb.stamp));
    hide MakeGroup, Rounds, Config.Target, Config.Valid, Increasing, Posed, Meaning, Decided;
    var i := PairDecided(g, cfg, s, k, p.rgb, p.depth, cfg.Target(p.rgb.stamp));
    DecidedMeans(g, cfg, s, p, k, MakeGroup(g, cfg, s, k, p.rgb, p.depth), i);
  }

  lemma FrontMeans(g: Geometry, cfg: Config, s: Sources, e: EngineState)
    requires cfg.Valid() && Backed(g, cfg, e) && e.images.pending != [] && Same(g, cfg, s, SourcesOf(e))
    ensures Meaning(g, cfg, s, e.images.pending[0], e.stats.frames, FrontOutcome(g, cfg, e))
  {
    OdomsGood(g, cfg, e.odoms, e.last.odom, OdomsIn(e.log));
    hide Backed, MakeGroup, Config.Valid, Increasing, Posed, Same, Meaning, Consecutive;
    PairMeans(g, cfg, SourcesOf(e), e.images.pending[0], e.stats.frames);
    MeansTheSame(g, cfg, s, SourcesOf(e), e.images.pending[0], e.stats.frames, FrontOutcome(g, cfg, e));
  }

  lemma EmittedSame(g: Geometry, cfg: Config, s: Sources, e: EngineState, f: Frame, m: Matrix, wall: real)
    requires Same(g, cfg, s, SourcesOf(e)) && e.images.pending != [] && Mounted(g, cfg, s, m) && !Moved(s, m)
    ensures Same(g, cfg, s, SourcesOf(Emitted(e, f, m, wall)))
  {
    hide Mounted, Moved, Written;
  }

  lemma DroppedSame(g: Geometry, cfg: Config, s: Sources, e: EngineState, reason: Reason)
    requires Same(g, cfg, s, SourcesOf(e)) && e.images.pending != []
    ensures Same(g, cfg, s, SourcesOf(Dropped(e, reason)))
  {
    hide Mounted, Moved;
  }

  lemma FatesOne(fate: Fate, rest: seq<Fate>)
    ensures FramesIn([fate] + rest) == (if fate.Framed? then [fate.frame] else []) + FramesIn(rest)
    ensures LossesIn([fate] + rest) == (if fate.Lost? then multiset{fate.reason} else multiset{}) + LossesIn(rest)
  {
    assert ([fate] + rest)[1..] == rest;
  }

  /** The result of a drain, in terms of what it began with. */
  ghost predicate Fair(g: Geometry, cfg: Config, s: Sources, e: EngineState, wall: real, final: bool,
                       r: Option<EngineState>, fates: seq<Fate>)
  {
    if r.None? then exists m :: Mounted(g, cfg, s, m) && Moved(s, m)
    else
      && Drained(g, cfg, s, e.images.pending, e.stats.frames, wall, final, fates, r.value.images.pending)
      && r.value.frames == e.frames + FramesIn(fates) && r.value.stats.dropped == e.stats.dropped + LossesIn(fates)
  }

  lemma FairLost(g: Geometry, cfg: Config, s: Sources, e: EngineState, wall: real, final: bool,
                 r: Option<EngineState>, reason: Reason, rest: seq<Fate>)
    requires e.images.pending != [] && Fair(g, cfg, s, Dropped(e, reason), wall, final, r, rest)
    requires MayGo(g, cfg, s, e.images.pending[0], wall, final, reason)
    ensures Fair(g, cfg, s, e, wall, final, r, [Lost(reason)] + rest)
  {
    FatesOne(Lost(reason), rest);
    assert ([Lost(reason)] + rest)[1..] == rest;
    hide MayGo, FramesIn, LossesIn, Mounted, Moved;
    if r.Some? {
      DrainedOne(g, cfg, s, e.images.pending, e.stats.frames, wall, final, Lost(reason), rest, r.value.images.pending);
    }
    hide Drained;
  }

  lemma FairFramed(g: Geometry, cfg: Config, s: Sources, e: EngineState, wall: real, final: bool,
                   r: Option<EngineState>, f: Frame, m: Matrix, rest: seq<Fate>)
    requires e.images.pending != [] && Fair(g, cfg, s, Emitted(e, f, m, wall), wall, final, r, rest)
    requires Deserved(g, cfg, s, e.images.pending[0], e.stats.frames, wall, final, Framed(f))
    ensures Fair(g, cfg, s, e, wall, final, r, [Framed(f)] + rest)
  {
    FatesOne(Framed(f), rest);
    assert ([Framed(f)] + rest)[1..] == rest;
    hide Deserved, FramesIn, LossesIn, Mounted, Moved, Written, Noted;
    assert e.frames + [f] + FramesIn(rest) == e.frames + ([f] + FramesIn(rest));
    assert multiset{} + LossesIn(rest) == LossesIn(rest);
    if r.Some? {
      DrainedOne(g, cfg, s, e.images.pending, e.stats.frames, wall, final, Framed(f), rest, r.value.images.pending);
    }
    hide Drained;
  }

  lemma DrainedOne(g: Geometry, cfg: Config, s: Sources, pending: seq<Pending>, k: nat, wall: real, final: bool,
                   fate: Fate, rest: seq<Fate>, left: seq<Pending>)
    requires pending != [] && Deserved(g, cfg, s, pending[0], k, wall, final, fate)
    requires Drained(g, cfg, s, pending[1..], if fate.Framed? then k + 1 else k, wall, final, rest, left)
    ensures Drained(g, cfg, s, pending, k, wall, final, [fate] + rest, left)
  {
    hide Deserved, Waits;
    assert ([fate] + rest)[1..] == rest;
  }

  lemma FairNow(g: Geometry, cfg: Config, s: Sources, e: EngineState, wall: real, final: bool)
    requires e.images.pending == [] || exists reason :: Waits(g, cfg, s, e.images.pending[0], wall, final, reason)
    ensures Fair(g, cfg, s, e, wall, final, Some(e), [])
  {
    hide Waits;
  }

  /** Each pair in turn becomes a frame, or is lost for a reason that holds, and if what it lacks
      may still come then only after its wait; the first pair left lacks such a thing.  The
      session is aborted only if the extrinsic moved. */
  lemma {:induction false} DrainIsFair(g: Geometry, cfg: Config, s: Sources, e: EngineState, wall: real, final: bool)
    returns (fates: seq<Fate>)
    requires cfg.Valid() && Backed(g, cfg, e) && Same(g, cfg, s, SourcesOf(e))
    ensures Fair(g, cfg, s, e, wall, final, Drain(g, cfg, e, wall, final), fates)
    decreases |e.images.pending|
  {
    hide Backed, Same, Lacks, Fair, FrontOutcome, Dropped, Emitted, Config.Valid, Config.Target, Mounted, Moved, Became;
    fates := [];
    if e.images.pending == [] {
      FairNow(g, cfg, s, e, wall, final);
      return;
    }
    FrontMeans(g, cfg, s, e);
    var r := Drain(g, cfg, e, wall, final);
    match FrontOutcome(g, cfg, e)
    case Late(reason) =>
      if !final && wall - e.images.pending[0].queued < cfg.wait {
        assert Waits(g, cfg, s, e.images.pending[0], wall, final, reason);
        FairNow(g, cfg, s, e, wall, final);
      } else {
        DroppedBacked(g, cfg, e, reason);
        DroppedSame(g, cfg, s, e, reason);
        var rest := DrainIsFair(g, cfg, s, Dropped(e, reason), wall, final);
        FairLost(g, cfg, s, e, wall, final, r, reason, rest);
        fates := [Lost(reason)] + rest;
      }
    case Bad =>
      DroppedBacked(g, cfg, e, InvalidRgbd);
      DroppedSame(g, cfg, s, e, InvalidRgbd);
      var rest := DrainIsFair(g, cfg, s, Dropped(e, InvalidRgbd), wall, final);
      FairLost(g, cfg, s, e, wall, final, r, InvalidRgbd, rest);
      fates := [Lost(InvalidRgbd)] + rest;
    case Changed =>
      FairAborted(g, cfg, s, e, wall, final);
    case Made(f, m) =>
      EmittedBacked(g, cfg, e, f, m, wall);
      EmittedSame(g, cfg, s, e, f, m, wall);
      var rest := DrainIsFair(g, cfg, s, Emitted(e, f, m, wall), wall, final);
      FairFramed(g, cfg, s, e, wall, final, r, f, m, rest);
      fates := [Framed(f)] + rest;
  }

  lemma FairAborted(g: Geometry, cfg: Config, s: Sources, e: EngineState, wall: real, final: bool)
    requires exists m :: Mounted(g, cfg, s, m) && Moved(s, m)
    ensures Fair(g, cfg, s, e, wall, final, None, [])
  {
  }

  /** The state a call drains. */
  function Draining(g: Geometry, cfg: Config, s: EngineState, c: Call): EngineState
    requires cfg.Valid() && RgbdWaiting.Drains(g, cfg, s, c)
  {
    match c
    case Message(m, arrival, wall) => Take(g, cfg, s, m, arrival, wall).value.0
    case Poll(_) => s
  }

  /** So it is at every call of every session that drains. */
  lemma CallsAreFair(g: Geometry, cfg: Config, calls: seq<Call>, c: Call) returns (fates: seq<Fate>)
    requires cfg.Valid() && After(g, cfg, calls).Some? && RgbdWaiting.Drains(g, cfg, After(g, cfg, calls).value, c)
    ensures var s := After(g, cfg, calls).value;
            var e := Draining(g, cfg, s, c);
            Fair(g, cfg, SourcesOf(e), e, c.wall, false, Step(g, cfg, s, c), fates)
  {
    RunTruthful(g, cfg, calls);
    var s := After(g, cfg, calls).value;
    hide After, Take, Drain, Fair, Backed, ImagesCame, TrueFrames;
    match c
    case Message(m, arrival, wall) =>
      TakeTruthful(g, cfg, calls, s, m, arrival, wall);
      var e := Take(g, cfg, s, m, arrival, wall).value.0;
      fates := DrainIsFair(g, cfg, SourcesOf(e), e, wall, false);
    case Poll(wall) =>
      fates := DrainIsFair(g, cfg, SourcesOf(s), s, wall, false);
  }
}
