/** With a wall clock that never runs backwards, no drain leaves a pair that has waited its time. */
module RgbdWaiting {
  import opened Basics
  import opened RgbdTypes
  import opened RgbdGroup
  import opened RgbdEngine
  import opened RgbdRuns
  import RgbdPairing
  import RateLimiter

  ghost predicate Monotone(calls: seq<Call>) {
    forall i, j :: 0 <= i < j < |calls| ==> calls[i].wall <= calls[j].wall
  }

  /** The pairs waiting were queued in this order, none later than now. */
  ghost predicate Aged(p: seq<Pending>, now: real) {
    && (forall i, j :: 0 <= i < j < |p| ==> p[i].queued <= p[j].queued)
    && (forall i :: 0 <= i < |p| ==> p[i].queued <= now)
  }

  ghost predicate Young(p: seq<Pending>, now: real, wait: real) {
    forall i :: 0 <= i < |p| ==> now - p[i].queued < wait
  }

  lemma {:induction false} PairAllAged(cfg: Config, s: EngineState, wall: real)
    requires cfg.Valid() && Aged(s.images.pending, wall)
    ensures Aged(PairAll(cfg, s, wall).images.pending, wall)
    decreases |s.images.rgb| + |s.images.depth|
  {
    if s.images.rgb != [] && s.images.depth != [] {
      PairTurnAged(cfg, s, wall);
      hide PairTurn, Aged;
      PairAllAged(cfg, PairTurn(cfg, s, wall), wall);
    }
  }

  lemma PairTurnAged(cfg: Config, s: EngineState, wall: real)
    requires cfg.Valid() && Aged(s.images.pending, wall) && s.images.rgb != [] && s.images.depth != []
    ensures Aged(PairTurn(cfg, s, wall).images.pending, wall)
  {
    hide RgbdPairing.Nearest, RgbdPairing.Without, RateLimiter.NextDue;
  }

  /** What is left after draining is younger than the wait, and still in order. */
  lemma {:induction false} DrainLeavesYoung(g: Geometry, cfg: Config, s: EngineState, wall: real)
    requires cfg.Valid() && Aged(s.images.pending, wall) && Drain(g, cfg, s, wall, false).Some?
    ensures var p := Drain(g, cfg, s, wall, false).value.images.pending;
            Young(p, wall, cfg.wait) && Aged(p, wall)
    decreases |s.images.pending|
  {
    hide FrontOutcome;
    if s.images.pending != [] {
      match FrontOutcome(g, cfg, s)
      case Late(reason) =>
        if wall - s.images.pending[0].queued >= cfg.wait {
          DrainLeavesYoung(g, cfg, Dropped(s, reason), wall);
        }
      case Bad => DrainLeavesYoung(g, cfg, Dropped(s, InvalidRgbd), wall);
      case Changed =>
      case Made(f, m) => DrainLeavesYoung(g, cfg, Emitted(s, f, m, wall), wall);
    }
  }

  /** Whether the call ends in a drain. */
  function Drains(g: Geometry, cfg: Config, s: EngineState, c: Call): bool
    requires cfg.Valid()
  {
    match c
    case Message(m, arrival, wall) => var t := Take(g, cfg, s, m, arrival, wall); t.Some? && t.value.1
    case Poll(_) => true
  }

  lemma TakeAged(g: Geometry, cfg: Config, s: EngineState, m: Message, arrival: int, wall: real)
    requires cfg.Valid() && Aged(s.images.pending, wall)
    ensures var t := Take(g, cfg, s, m, arrival, wall);
            t.Some? ==> Aged(t.value.0.images.pending, wall)
  {
    hide Aged, PairAll, Learned, Kept, Stamped;
    var s' := Received(s, TopicOf(m));
    match m
    case RgbMsg(x) =>
      var a := Stamped(s'.last.rgb, x.stamp, x.id);
      if a.New? {
        PairAllAged(cfg, RgbQueued(cfg, s', x, a.stream, a.missed), wall);
      }
    case DepthMsg(x) =>
      var a := Stamped(s'.last.depth, x.stamp, x.id);
      if a.New? {
        PairAllAged(cfg, DepthQueued(cfg, s', x, a.stream, a.missed), wall);
      }
    case _ =>
  }

  lemma StepAged(g: Geometry, cfg: Config, s: EngineState, c: Call, before: real)
    requires cfg.Valid() && Aged(s.images.pending, before) && before <= c.wall && Step(g, cfg, s, c).Some?
    ensures var p := Step(g, cfg, s, c).value.images.pending;
            Aged(p, c.wall) && (Drains(g, cfg, s, c) ==> Young(p, c.wall, cfg.wait))
  {
    assert Aged(s.images.pending, c.wall);
    hide Aged, Young, Take, Drain;
    match c
    case Message(m, arrival, wall) =>
      TakeAged(g, cfg, s, m, arrival, wall);
      var t := Take(g, cfg, s, m, arrival, wall);
      if t.value.1 {
        DrainLeavesYoung(g, cfg, t.value.0, wall);
      }
    case Poll(wall) =>
      DrainLeavesYoung(g, cfg, s, wall);
  }

  lemma {:induction false} RunAged(g: Geometry, cfg: Config, calls: seq<Call>)
    requires cfg.Valid() && Monotone(calls) && calls != [] && After(g, cfg, calls).Some?
    ensures var before, c := After(g, cfg, calls[..|calls| - 1]), calls[|calls| - 1];
            var p := After(g, cfg, calls).value.images.pending;
            && before.Some? && Aged(p, c.wall)
            && (Drains(g, cfg, before.value, c) ==> Young(p, c.wall, cfg.wait))
  {
    var n := |calls| - 1;
    var before := calls[..n];
    if n == 0 {
      hide Step, Drains, Young;
      assert After(g, cfg, before) == Some(Initial());
      assert Aged(Initial().images.pending, calls[0].wall);
      StepAged(g, cfg, Initial(), calls[0], calls[0].wall);
      return;
    }
    hide Step, Drains, Young, Aged;
    RunAged(g, cfg, before);
    StepAged(g, cfg, After(g, cfg, before).value, calls[n], calls[n - 1].wall);
  }
}
