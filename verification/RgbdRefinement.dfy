/** The engine's loop mixes pairing, rate limit and queueing.  A session still does exactly what
    the pairing desk does, followed by the rate limiter, so what is proved of them holds of it. */
module RgbdRefinement {
  import opened Basics
  import opened RgbdTypes
  import opened RgbdGroup
  import opened RgbdEngine
  import opened RgbdRuns
  import RgbdPairing
  import RgbdPairingRuns
  import RgbdConfluence
  import RateLimiter

  function PairStamps(p: RgbdPairing.Pairs): (r: seq<int>)
    ensures |r| == |p|
  {
    seq(|p|, i requires 0 <= i < |p| => p[i].0.stamp)
  }

  function Limit(cfg: Config, p: RgbdPairing.Pairs): RateLimiter.Limit
    requires cfg.Valid()
  {
    RateLimiter.After(PairStamps(p), cfg.Period())
  }

  /** The images of a session that were new, in the order of their arrival. */
  function Arrivals(g: Geometry, cfg: Config, calls: seq<Call>): seq<RgbdPairing.Arrival>
    requires cfg.Valid()
  {
    if calls == [] then []
    else
      var rest, c := calls[..|calls| - 1], calls[|calls| - 1];
      var s := After(g, cfg, rest);
      if s.None? then [] else Arrivals(g, cfg, rest) + NewImage(s.value, c)
  }

  function NewImage(s: EngineState, c: Call): seq<RgbdPairing.Arrival> {
    if c.Message? && c.msg.RgbMsg? && Stamped(s.last.rgb, c.msg.image.stamp, c.msg.image.id).New?
      then [RgbdPairing.Colour(c.msg.image)]
    else if c.Message? && c.msg.DepthMsg? && Stamped(s.last.depth, c.msg.image.stamp, c.msg.image.id).New?
      then [RgbdPairing.Range(c.msg.image)]
    else []
  }

  /** The engine has the desk's queues and counts, and has let through what the limiter does. */
  ghost predicate Mirrors(cfg: Config, s: EngineState, d: RgbdPairing.Desk)
    requires cfg.Valid()
  {
    && s.images.rgb == d.table.rgb && s.images.depth == d.table.depth
    && s.stats.paired == |d.table.pairs|
    && s.stats.unpaired[RgbTopic] == |d.table.rgbDropped| + |d.rgbLost|
    && s.stats.unpaired[DepthTopic] == |d.table.depthDropped| + |d.depthLost|
    && Limited(s, Limit(cfg, d.table.pairs))
  }

  /** Frames and waiting pairs are among what the limiter let through. */
  ghost predicate Limited(s: EngineState, l: RateLimiter.Limit) {
    && s.images.nextDue == l.due && s.stats.rateFiltered == l.filtered
    && (forall i :: 0 <= i < |s.frames| ==> s.frames[i].rgb.stamp in l.accepted)
    && (forall i :: 0 <= i < |s.images.pending| ==> s.images.pending[i].rgb.stamp in l.accepted)
  }

  lemma LimitSnoc(cfg: Config, p: RgbdPairing.Pairs, a: Image, b: Image)
    requires cfg.Valid()
    ensures Limit(cfg, p + [(a, b)]) == RateLimiter.Offer(Limit(cfg, p), a.stamp, cfg.Period())
  {
    var q := p + [(a, b)];
    assert PairStamps(q)[..|p|] == PairStamps(p);
    hide RateLimiter.NextDue;
  }

  /** A pair goes through the rate limit. */
  lemma PairLimited(s: EngineState, r: EngineState, l: RateLimiter.Limit, p: Pending, period: nat)
    requires period > 0 && Limited(s, l) && r.frames == s.frames
    requires r.stats.rateFiltered
             == s.stats.rateFiltered + if RateLimiter.Due(s.images.nextDue, p.rgb.stamp) then 0 else 1
    requires if RateLimiter.Due(s.images.nextDue, p.rgb.stamp)
             then r.images.pending == s.images.pending + [p]
                  && r.images.nextDue == Some(RateLimiter.NextDue(s.images.nextDue, p.rgb.stamp, period))
             else r.images.pending == s.images.pending && r.images.nextDue == s.images.nextDue
    ensures Limited(r, RateLimiter.Offer(l, p.rgb.stamp, period))
  {
    hide RateLimiter.NextDue;
  }

  lemma SameLimited(s: EngineState, r: EngineState, l: RateLimiter.Limit)
    requires Limited(s, l) && r.frames == s.frames && r.images.pending == s.images.pending
    requires r.images.nextDue == s.images.nextDue && r.stats.rateFiltered == s.stats.rateFiltered
    ensures Limited(r, l)
  {
  }

  lemma PairTurnMirrors(cfg: Config, s: EngineState, d: RgbdPairing.Desk, wall: real)
    requires cfg.Valid() && Mirrors(cfg, s, d) && s.images.rgb != [] && s.images.depth != []
    ensures Mirrors(cfg, PairTurn(cfg, s, wall), d.(table := RgbdPairing.Turn(d.table, cfg.Slop())))
  {
    var k := RgbdPairing.Nearest(d.table.depth, d.table.rgb[0].stamp);
    var p := Pending(d.table.rgb[0], d.table.depth[k], wall);
    LimitSnoc(cfg, d.table.pairs, p.rgb, p.depth);
    hide Limit, Limited, RgbdPairing.Nearest, RgbdPairing.Without, RateLimiter.NextDue, RateLimiter.Offer;
    var r := PairTurn(cfg, s, wall);
    if Distance(p.depth.stamp, p.rgb.stamp) <= cfg.Slop() {
      PairLimited(s, r, Limit(cfg, d.table.pairs), p, cfg.Period());
    } else {
      SameLimited(s, r, Limit(cfg, d.table.pairs));
    }
  }

  lemma {:induction false} PairAllMirrors(cfg: Config, s: EngineState, d: RgbdPairing.Desk, wall: real)
    requires cfg.Valid() && Mirrors(cfg, s, d)
    ensures Mirrors(cfg, PairAll(cfg, s, wall), d.(table := RgbdPairing.Associate(d.table, cfg.Slop())))
    decreases |s.images.rgb| + |s.images.depth|
  {
    assert s.images.rgb == d.table.rgb && s.images.depth == d.table.depth;
    hide Mirrors, PairTurn, RgbdPairing.Turn;
    if s.images.rgb != [] && s.images.depth != [] {
      PairTurnMirrors(cfg, s, d, wall);
      PairAllMirrors(cfg, PairTurn(cfg, s, wall), d.(table := RgbdPairing.Turn(d.table, cfg.Slop())), wall);
    }
  }

  lemma RgbQueuedMirrors(cfg: Config, s: EngineState, d: RgbdPairing.Desk, x: Image, l: Stream, missed: nat)
    requires cfg.Valid() && Mirrors(cfg, s, d)
    ensures var q := d.table.rgb + [x];
            Mirrors(cfg, RgbQueued(cfg, s, x, l, missed),
                    if |q| > cfg.imageBuffer
                      then RgbdPairing.Desk(d.table.(rgb := q[1..]), d.rgbLost + [q[0]], d.depthLost)
                    else d.(table := d.table.(rgb := q)))
  {
    hide Limit;
  }

  lemma DepthQueuedMirrors(cfg: Config, s: EngineState, d: RgbdPairing.Desk, x: Image, l: Stream, missed: nat)
    requires cfg.Valid() && Mirrors(cfg, s, d)
    ensures var q := d.table.depth + [x];
            Mirrors(cfg, DepthQueued(cfg, s, x, l, missed),
                    if |q| > cfg.imageBuffer
                      then RgbdPairing.Desk(d.table.(depth := q[1..]), d.rgbLost, d.depthLost + [q[0]])
                    else d.(table := d.table.(depth := q)))
  {
    hide Limit;
  }

  lemma DroppedMirrors(cfg: Config, s: EngineState, d: RgbdPairing.Desk, reason: Reason)
    requires cfg.Valid() && Mirrors(cfg, s, d) && s.images.pending != []
    ensures Mirrors(cfg, Dropped(s, reason), d)
  {
    hide Limit;
  }

  lemma EmittedMirrors(cfg: Config, s: EngineState, d: RgbdPairing.Desk, f: Frame, m: Matrix, wall: real)
    requires cfg.Valid() && Mirrors(cfg, s, d) && s.images.pending != [] && f.rgb.stamp == s.images.pending[0].rgb.stamp
    ensures Mirrors(cfg, Emitted(s, f, m, wall), d)
  {
    hide Limit, Written;
  }

  lemma {:induction false} DrainMirrors(g: Geometry, cfg: Config, s: EngineState, d: RgbdPairing.Desk, wall: real,
                                        final: bool)
    requires cfg.Valid() && Mirrors(cfg, s, d)
    ensures var r := Drain(g, cfg, s, wall, final);
            r.Some? ==> Mirrors(cfg, r.value, d)
    decreases |s.images.pending|
  {
    hide Mirrors, FrontOutcome, Dropped, Emitted;
    if s.images.pending != [] {
      match FrontOutcome(g, cfg, s)
      case Late(reason) =>
        DroppedMirrors(cfg, s, d, reason);
        DrainMirrors(g, cfg, Dropped(s, reason), d, wall, final);
      case Bad =>
        DroppedMirrors(cfg, s, d, InvalidRgbd);
        DrainMirrors(g, cfg, Dropped(s, InvalidRgbd), d, wall, final);
      case Changed =>
      case Made(f, m) =>
        MadeStamp(g, cfg, s);
        EmittedMirrors(cfg, s, d, f, m, wall);
        DrainMirrors(g, cfg, Emitted(s, f, m, wall), d, wall, final);
    }
  }

  // ---------------------------------------------------------------- whole sessions

  /** The engine remembers the last new image of each stream. */
  ghost predicate Remembers(l: Stream, x: seq<Image>) {
    RgbdPairingRuns.Stream(x) && (if x == [] then l.stamp.None? else l.stamp == Some(x[|x| - 1].stamp))
  }

  lemma NewRemembers(l: Stream, x: seq<Image>, a: Image)
    requires Remembers(l, x) && Stamped(l, a.stamp, a.id).New?
    ensures Remembers(Stamped(l, a.stamp, a.id).stream, x + [a])
  {
    var s := Stamps(x + [a]);
    forall i, j | 0 <= i < j < |s|
      ensures s[i] < s[j]
    {
      if j == |x| {
        assert Stamps(x)[i] <= Stamps(x)[|x| - 1];
      } else {
        assert Stamps(x)[i] < Stamps(x)[j];
      }
    }
  }

  ghost predicate Follows(cfg: Config, s: EngineState, evs: seq<RgbdPairing.Arrival>)
    requires cfg.Valid()
  {
    && Mirrors(cfg, s, RgbdPairing.After(evs, cfg.Slop(), cfg.imageBuffer))
    && Remembers(s.last.rgb, RgbdPairing.Colours(evs)) && Remembers(s.last.depth, RgbdPairing.Ranges(evs))
  }

  lemma DeskSnoc(evs: seq<RgbdPairing.Arrival>, e: RgbdPairing.Arrival, slop: nat, buffer: nat)
    ensures RgbdPairing.After(evs + [e], slop, buffer)
            == RgbdPairing.Receive(RgbdPairing.After(evs, slop, buffer), e, slop, buffer)
    ensures RgbdPairing.Colours(evs + [e]) == RgbdPairing.Colours(evs) + if e.Colour? then [e.image] else []
    ensures RgbdPairing.Ranges(evs + [e]) == RgbdPairing.Ranges(evs) + if e.Range? then [e.image] else []
  {
    assert (evs + [e])[..|evs|] == evs;
    hide RgbdPairing.Receive;
  }

  lemma SameMirrors(cfg: Config, s: EngineState, r: EngineState, d: RgbdPairing.Desk)
    requires cfg.Valid() && Mirrors(cfg, s, d) && r.images == s.images && r.frames == s.frames
    requires r.stats.paired == s.stats.paired && r.stats.unpaired == s.stats.unpaired
             && r.stats.rateFiltered == s.stats.rateFiltered
    ensures Mirrors(cfg, r, d)
  {
    hide Limit;
  }

  lemma TakeRgbFollows(cfg: Config, s: EngineState, evs: seq<RgbdPairing.Arrival>, x: Image, wall: real)
    requires cfg.Valid() && Follows(cfg, s, evs) && Stamped(s.last.rgb, x.stamp, x.id).New?
    ensures var a := Stamped(s.last.rgb, x.stamp, x.id);
            Follows(cfg, PairAll(cfg, RgbQueued(cfg, s, x, a.stream, a.missed), wall), evs + [RgbdPairing.Colour(x)])
  {
    var a := Stamped(s.last.rgb, x.stamp, x.id);
    var d := RgbdPairing.After(evs, cfg.Slop(), cfg.imageBuffer);
    var q := d.table.rgb + [x];
    var e := if |q| > cfg.imageBuffer then RgbdPairing.Desk(d.table.(rgb := q[1..]), d.rgbLost + [q[0]], d.depthLost)
             else d.(table := d.table.(rgb := q));
    DeskSnoc(evs, RgbdPairing.Colour(x), cfg.Slop(), cfg.imageBuffer);
    NewRemembers(s.last.rgb, RgbdPairing.Colours(evs), x);
    RgbQueuedMirrors(cfg, s, d, x, a.stream, a.missed);
    hide Mirrors, Remembers, PairAll, Stamped, RgbdPairing.Associate;
    PairAllMirrors(cfg, RgbQueued(cfg, s, x, a.stream, a.missed), e, wall);
    PairAllKeepsLast(cfg, RgbQueued(cfg, s, x, a.stream, a.missed), wall);
  }

  lemma TakeDepthFollows(cfg: Config, s: EngineState, evs: seq<RgbdPairing.Arrival>, x: Image, wall: real)
    requires cfg.Valid() && Follows(cfg, s, evs) && Stamped(s.last.depth, x.stamp, x.id).New?
    ensures var a := Stamped(s.last.depth, x.stamp, x.id);
            Follows(cfg, PairAll(cfg, DepthQueued(cfg, s, x, a.stream, a.missed), wall), evs + [RgbdPairing.Range(x)])
  {
    var a := Stamped(s.last.depth, x.stamp, x.id);
    var d := RgbdPairing.After(evs, cfg.Slop(), cfg.imageBuffer);
    var q := d.table.depth + [x];
    var e := if |q| > cfg.imageBuffer then RgbdPairing.Desk(d.table.(depth := q[1..]), d.rgbLost, d.depthLost + [q[0]])
             else d.(table := d.table.(depth := q));
    DeskSnoc(evs, RgbdPairing.Range(x), cfg.Slop(), cfg.imageBuffer);
    NewRemembers(s.last.depth, RgbdPairing.Ranges(evs), x);
    DepthQueuedMirrors(cfg, s, d, x, a.stream, a.missed);
    hide Mirrors, Remembers, PairAll, Stamped, RgbdPairing.Associate;
    PairAllMirrors(cfg, DepthQueued(cfg, s, x, a.stream, a.missed), e, wall);
    PairAllKeepsLast(cfg, DepthQueued(cfg, s, x, a.stream, a.missed), wall);
  }

  lemma {:induction false} PairAllKeepsLast(cfg: Config, s: EngineState, wall: real)
    requires cfg.Valid()
    ensures PairAll(cfg, s, wall).last == s.last
    decreases |s.images.rgb| + |s.images.depth|
  {
    if s.images.rgb != [] && s.images.depth != [] {
      PairAllKeepsLast(cfg, PairTurn(cfg, s, wall), wall);
      hide RgbdPairing.Nearest, RateLimiter.NextDue;
    }
  }

  lemma {:induction false} DrainKeepsLast(g: Geometry, cfg: Config, s: EngineState, wall: real, final: bool)
    requires cfg.Valid()
    ensures var r := Drain(g, cfg, s, wall, final);
            r.Some? ==> r.value.last == s.last
    decreases |s.images.pending|
  {
    hide FrontOutcome;
    if s.images.pending != [] {
      match FrontOutcome(g, cfg, s)
      case Late(reason) => DrainKeepsLast(g, cfg, Dropped(s, reason), wall, final);
      case Bad => DrainKeepsLast(g, cfg, Dropped(s, InvalidRgbd), wall, final);
      case Changed =>
      case Made(f, m) => DrainKeepsLast(g, cfg, Emitted(s, f, m, wall), wall, final);
    }
  }

  lemma SameFollows(cfg: Config, s: EngineState, r: EngineState, evs: seq<RgbdPairing.Arrival>)
    requires cfg.Valid() && Follows(cfg, s, evs) && r.images == s.images && r.frames == s.frames
    requires r.last.rgb == s.last.rgb && r.last.depth == s.last.depth
    requires r.stats.paired == s.stats.paired && r.stats.unpaired == s.stats.unpaired
             && r.stats.rateFiltered == s.stats.rateFiltered
    ensures Follows(cfg, r, evs)
  {
    hide Mirrors, Remembers;
    SameMirrors(cfg, s, r, RgbdPairing.After(evs, cfg.Slop(), cfg.imageBuffer));
  }

  lemma TakeRgbUnfolds(g: Geometry, cfg: Config, s: EngineState, x: Image, arrival: int, wall: real)
    requires cfg.Valid() && Stamped(s.last.rgb, x.stamp, x.id).New?
    ensures var a := Stamped(s.last.rgb, x.stamp, x.id);
            Take(g, cfg, s, RgbMsg(x), arrival, wall)
              == Some((PairAll(cfg, RgbQueued(cfg, Received(s, RgbTopic), x, a.stream, a.missed), wall), true))
  {
    hide PairAll, RgbQueued, Stamped;
  }

  lemma TakeDepthUnfolds(g: Geometry, cfg: Config, s: EngineState, x: Image, arrival: int, wall: real)
    requires cfg.Valid() && Stamped(s.last.depth, x.stamp, x.id).New?
    ensures var a := Stamped(s.last.depth, x.stamp, x.id);
            Take(g, cfg, s, DepthMsg(x), arrival, wall)
              == Some((PairAll(cfg, DepthQueued(cfg, Received(s, DepthTopic), x, a.stream, a.missed), wall), true))
  {
    hide PairAll, DepthQueued, Stamped;
  }

  /** A message that brings no new image. */
  lemma TakeOther(g: Geometry, cfg: Config, s: EngineState, c: Call)
    requires cfg.Valid() && c.Message? && NewImage(s, c) == []
    ensures var t := Take(g, cfg, s, c.msg, c.arrival, c.wall);
            t.Some? ==>
              var r := t.value.0;
              && r.images == s.images && r.frames == s.frames && r.last.rgb == s.last.rgb
                 && r.last.depth == s.last.depth
              && r.stats.paired == s.stats.paired && r.stats.unpaired == s.stats.unpaired
                 && r.stats.rateFiltered == s.stats.rateFiltered
  {
    hide PairAll, RgbQueued, DepthQueued, Stamped, Learned, Kept;
  }

  lemma TakeFollows(g: Geometry, cfg: Config, s: EngineState, c: Call, evs: seq<RgbdPairing.Arrival>)
    requires cfg.Valid() && Follows(cfg, s, evs) && c.Message?
    ensures var r := Take(g, cfg, s, c.msg, c.arrival, c.wall);
            r.Some? ==> Follows(cfg, r.value.0, evs + NewImage(s, c))
  {
    hide Follows, Take, Stamped, PairAll, RgbQueued, DepthQueued;
    SameFollows(cfg, s, Received(s, TopicOf(c.msg)), evs);
    if NewImage(s, c) == [] {
      TakeOther(g, cfg, s, c);
      assert evs + [] == evs;
      var r := Take(g, cfg, s, c.msg, c.arrival, c.wall);
      if r.Some? {
        SameFollows(cfg, s, r.value.0, evs);
      }
    } else if c.msg.RgbMsg? {
      TakeRgbUnfolds(g, cfg, s, c.msg.image, c.arrival, c.wall);
      TakeRgbFollows(cfg, Received(s, RgbTopic), evs, c.msg.image, c.wall);
    } else {
      TakeDepthUnfolds(g, cfg, s, c.msg.image, c.arrival, c.wall);
      TakeDepthFollows(cfg, Received(s, DepthTopic), evs, c.msg.image, c.wall);
    }
  }

  lemma DrainFollows(g: Geometry, cfg: Config, s: EngineState, wall: real, final: bool, evs: seq<RgbdPairing.Arrival>)
    requires cfg.Valid() && Follows(cfg, s, evs)
    ensures var r := Drain(g, cfg, s, wall, final);
            r.Some? ==> Follows(cfg, r.value, evs)
  {
    hide Drain, Mirrors, Remembers;
    DrainMirrors(g, cfg, s, RgbdPairing.After(evs, cfg.Slop(), cfg.imageBuffer), wall, final);
    DrainKeepsLast(g, cfg, s, wall, final);
  }

  /** Every session that was not aborted does to its images what the desk does to the new ones. */
  lemma {:induction false} SessionFollows(g: Geometry, cfg: Config, calls: seq<Call>)
    requires cfg.Valid() && After(g, cfg, calls).Some?
    ensures Follows(cfg, After(g, cfg, calls).value, Arrivals(g, cfg, calls))
  {
    if calls == [] {
      InitialFollows(cfg);
      return;
    }
    var before, c := calls[..|calls| - 1], calls[|calls| - 1];
    hide Follows, Take, Drain, NewImage;
    SessionFollows(g, cfg, before);
    var s, evs := After(g, cfg, before).value, Arrivals(g, cfg, before);
    match c
    case Message(m, arrival, wall) =>
      TakeFollows(g, cfg, s, c, evs);
      var t := Take(g, cfg, s, m, arrival, wall);
      if t.Some? && t.value.1 {
        DrainFollows(g, cfg, t.value.0, wall, false, evs + NewImage(s, c));
      }
    case Poll(wall) =>
      NoNewImage(s, c);
      DrainFollows(g, cfg, s, wall, false, evs);
      assert evs + [] == evs;
  }

  lemma NoNewImage(s: EngineState, c: Call)
    requires c.Poll?
    ensures NewImage(s, c) == []
  {
  }

  lemma InitialFollows(cfg: Config)
    requires cfg.Valid()
    ensures Follows(cfg, Initial(), [])
  {
    assert PairStamps([]) == [];
  }

  /** The desk's theorems hold of the engine: with full image buffers the only images lost to
      them, no image the engine gives up had a partner left, then or later. */
  lemma SessionPairingIsComplete(g: Geometry, cfg: Config, calls: seq<Call>)
    requires cfg.Valid() && After(g, cfg, calls).Some?
    ensures var evs := Arrivals(g, cfg, calls);
            var d := RgbdPairing.After(evs, cfg.Slop(), cfg.imageBuffer);
            && Mirrors(cfg, After(g, cfg, calls).value, d)
            && RgbdPairingRuns.NoPartnerLeft(d, RgbdPairing.Colours(evs), RgbdPairing.Ranges(evs), cfg.Slop())
  {
    SessionFollows(g, cfg, calls);
    hide Mirrors, After, RgbdPairingRuns.NoPartnerLeft, RgbdPairingRuns.DeskHolds, RgbdPairingRuns.Stream;
    RgbdPairingRuns.PairingIsComplete(Arrivals(g, cfg, calls), cfg.Slop(), cfg.imageBuffer);
  }

  lemma PairStampsIncrease(p: RgbdPairing.Pairs)
    requires RgbdConfluence.ByColour(p)
    ensures Increasing(PairStamps(p)) && RateLimiter.Nondecreasing(PairStamps(p))
  {
  }

  ghost predicate Spread(stamps: seq<int>, start: int, period: nat) {
    forall n :: 0 <= n < |stamps| ==> stamps[n] >= start + n * period
  }

  /** Over any session the n-th frame comes at least n periods after the first pair. */
  lemma FramesKeepTheRate(g: Geometry, cfg: Config, calls: seq<Call>)
    requires cfg.Valid() && After(g, cfg, calls).Some? && After(g, cfg, calls).value.frames != []
    ensures var p := RgbdPairing.After(Arrivals(g, cfg, calls), cfg.Slop(), cfg.imageBuffer).table.pairs;
            p != [] && Spread(FrameStamps(After(g, cfg, calls).value.frames), p[0].0.stamp, cfg.Period())
  {
    var s, evs := After(g, cfg, calls).value, Arrivals(g, cfg, calls);
    SessionFollows(g, cfg, calls);
    SessionIsAccounted(g, cfg, calls);
    var d := RgbdPairing.After(evs, cfg.Slop(), cfg.imageBuffer);
    var f, ts := FrameStamps(s.frames), PairStamps(d.table.pairs);
    assert Limited(s, RateLimiter.After(ts, cfg.Period()));
    assert forall i :: 0 <= i < |f| ==> f[i] in RateLimiter.After(ts, cfg.Period()).accepted;
    hide Mirrors, After, Limited, FrameStamps, RgbdPairingRuns.Stream, RgbdPairing.After, RgbdPairing.Associate, Ledger;
    RgbdConfluence.RunInLine(evs, cfg.Slop(), cfg.imageBuffer);
    RgbdConfluence.LineIsByColour(d.table, RgbdPairingRuns.Last(RgbdPairing.Colours(evs)));
    PairStampsIncrease(d.table.pairs);
    ChosenSpread(f, ts, cfg.Period());
  }

  lemma ChosenSpread(f: seq<int>, ts: seq<int>, period: nat)
    requires period > 0 && f != [] && Increasing(f) && Increasing(ts) && RateLimiter.Nondecreasing(ts)
    requires forall i :: 0 <= i < |f| ==> f[i] in RateLimiter.After(ts, period).accepted
    ensures ts != [] && Spread(f, ts[0], period)
  {
    assert f[0] in RateLimiter.After(ts, period).accepted;
    RateLimiter.NoDrift(ts, period);
    RateLimiter.AcceptedIncrease(ts, period);
    hide RateLimiter.After, RateLimiter.Cell, RateLimiter.Nondecreasing;
    forall n | 0 <= n < |f|
      ensures f[n] >= ts[0] + n * period
    {
      var k := RateLimiter.ChosenIsLater(f, RateLimiter.After(ts, period).accepted, n);
    }
  }

  // ---------------------------------------------------------------- two sessions

  /** The images of a session are spaced beyond twice the slop, and no buffer overflows. */
  ghost predicate Separable(cfg: Config, evs: seq<RgbdPairing.Arrival>)
    requires cfg.Valid()
  {
    && RgbdPairingRuns.Spaced(RgbdPairing.Colours(evs), cfg.Slop())
    && RgbdPairingRuns.Spaced(RgbdPairing.Ranges(evs), cfg.Slop())
    && RgbdConfluence.Roomy(evs, cfg.Slop(), cfg.imageBuffer)
  }

  /** What the rate limit has let through: written, rejected or waiting. */
  function LetThrough(s: EngineState): nat { s.stats.frames + |s.stats.dropped| + |s.images.pending| }

  /** Two sessions with the same new images in each stream, whatever the interleaving, the other
      messages, the wall clocks and the library: they make the same pairs in the same order, and
      the rate limit lets the same ones through. */
  lemma SessionsAreConfluent(g: Geometry, h: Geometry, cfg: Config, calls: seq<Call>, other: seq<Call>)
    requires cfg.Valid() && After(g, cfg, calls).Some? && After(h, cfg, other).Some?
    requires var a, b := Arrivals(g, cfg, calls), Arrivals(h, cfg, other);
             && RgbdPairing.Colours(a) == RgbdPairing.Colours(b) && RgbdPairing.Ranges(a) == RgbdPairing.Ranges(b)
             && Separable(cfg, a) && Separable(cfg, b)
    ensures var s, r := After(g, cfg, calls).value, After(h, cfg, other).value;
            var d := RgbdPairing.After(Arrivals(g, cfg, calls), cfg.Slop(), cfg.imageBuffer);
            var e := RgbdPairing.After(Arrivals(h, cfg, other), cfg.Slop(), cfg.imageBuffer);
            && Mirrors(cfg, s, d) && Mirrors(cfg, r, e) && d.table.pairs == e.table.pairs
            && Limited(s, Limit(cfg, d.table.pairs)) && Limited(r, Limit(cfg, d.table.pairs))
            && s.images.nextDue == r.images.nextDue && LetThrough(s) == LetThrough(r)
  {
    SessionFollows(g, cfg, calls);
    SessionFollows(h, cfg, other);
    SessionIsAccounted(g, cfg, calls);
    SessionIsAccounted(h, cfg, other);
    var a, b := Arrivals(g, cfg, calls), Arrivals(h, cfg, other);
    hide After, RgbdPairing.After, RgbdPairingRuns.Spaced, RgbdPairingRuns.Stream, Arrivals, Limit;
    RgbdConfluence.PairingIsConfluent(a, b, cfg.Slop(), cfg.imageBuffer);
  }
}
