/** Whole sessions of the engine: every image is accounted for at every step, frames come out in
    order and numbered, and nothing waits longer than it should. */
module RgbdRuns {
  import opened Basics
  import opened RgbdTypes
  import opened RgbdGroup
  import opened RgbdEngine
  import RgbdPairing
  import RateLimiter

  datatype Call = Message(msg: Message, arrival: int, wall: real) | Poll(wall: real)

  function Step(g: Geometry, cfg: Config, s: EngineState, c: Call): Option<EngineState>
    requires cfg.Valid()
  {
    match c
    case Message(m, arrival, wall) => Ingest(g, cfg, s, m, arrival, wall)
    case Poll(wall) => Drain(g, cfg, s, wall, false)
  }

  /** None: some call aborted the session. */
  function After(g: Geometry, cfg: Config, calls: seq<Call>): Option<EngineState>
    requires cfg.Valid()
  {
    if calls == [] then Some(Initial())
    else
      var before := After(g, cfg, calls[..|calls| - 1]);
      if before.None? then None else Step(g, cfg, before.value, calls[|calls| - 1])
  }

  // ---------------------------------------------------------------- the ledger

  /** Nothing is lost or counted twice. */
  ghost predicate Ledger(s: EngineState) {
    && s.stats.received[RgbTopic] == s.stats.duplicate[RgbTopic] + s.stats.paired + s.stats.unpaired[RgbTopic]
       + |s.images.rgb|
    && s.stats.received[DepthTopic] == s.stats.duplicate[DepthTopic] + s.stats.paired + s.stats.unpaired[DepthTopic]
       + |s.images.depth|
    && s.stats.paired == s.stats.rateFiltered + s.stats.frames + |s.stats.dropped| + |s.images.pending|
    && |s.frames| == s.stats.frames
    && (forall i :: 0 <= i < |s.frames| ==> s.frames[i].meta.frameIndex == i)
  }

  lemma PairTurnLedger(cfg: Config, s: EngineState, wall: real)
    requires cfg.Valid() && s.images.rgb != [] && s.images.depth != [] && Ledger(s)
    ensures Ledger(PairTurn(cfg, s, wall))
  {
    hide RgbdPairing.Nearest, RgbdPairing.Without, RateLimiter.NextDue;
  }

  lemma DroppedLedger(s: EngineState, reason: Reason)
    requires s.images.pending != [] && Ledger(s)
    ensures Ledger(Dropped(s, reason))
  {
  }

  lemma EmittedLedger(s: EngineState, f: Frame, m: Matrix, wall: real)
    requires s.images.pending != [] && Ledger(s) && f.meta.frameIndex == s.stats.frames
    ensures Ledger(Emitted(s, f, m, wall))
  {
    hide Written;
  }

  lemma RgbQueuedLedger(cfg: Config, s: EngineState, x: Image, l: Stream, missed: nat)
    requires Ledger(s)
    ensures Ledger(RgbQueued(cfg, Received(s, RgbTopic), x, l, missed))
  {
  }

  lemma DepthQueuedLedger(cfg: Config, s: EngineState, x: Image, l: Stream, missed: nat)
    requires Ledger(s)
    ensures Ledger(DepthQueued(cfg, Received(s, DepthTopic), x, l, missed))
  {
  }

  // ---------------------------------------------------------------- order

  /** The stamps of the frames written, of the pairs waiting, and of the images waiting. */
  function Line(s: EngineState): seq<int> {
    FrameStamps(s.frames) + PendingStamps(s.images.pending) + Stamps(s.images.rgb)
  }

  function FrameStamps(frames: seq<Frame>): (r: seq<int>)
    ensures |r| == |frames|
  {
    seq(|frames|, i requires 0 <= i < |frames| => frames[i].rgb.stamp)
  }

  function PendingStamps(p: seq<Pending>): (r: seq<int>)
    ensures |r| == |p|
  {
    seq(|p|, i requires 0 <= i < |p| => p[i].rgb.stamp)
  }

  ghost predicate Within(line: seq<int>, last: Option<int>) {
    && Increasing(line)
    && (line != [] ==> last.Some?)
    && forall x :: x in line ==> 0 < x <= last.value
  }

  ghost predicate Close(cfg: Config, p: seq<Pending>)
    requires cfg.Valid()
  {
    forall x :: x in p ==> Distance(x.rgb.stamp, x.depth.stamp) <= cfg.Slop()
  }

  ghost predicate Orderly(cfg: Config, s: EngineState)
    requires cfg.Valid()
  {
    Within(Line(s), s.last.rgb.stamp) && Close(cfg, s.images.pending)
  }

  lemma RemoveWithin(a: seq<int>, x: int, b: seq<int>, last: Option<int>)
    requires Within(a + [x] + b, last)
    ensures Within(a + b, last)
  {
    var l := a + [x] + b;
    forall i, j | 0 <= i < j < |a + b|
      ensures (a + b)[i] < (a + b)[j]
    {
      var i', j' := if i < |a| then i else i + 1, if j < |a| then j else j + 1;
      assert l[i'] == (a + b)[i] && l[j'] == (a + b)[j];
    }
    forall y | y in a + b
      ensures 0 < y <= last.value
    {
      assert y in l;
    }
  }

  lemma AppendWithin(line: seq<int>, last: Option<int>, x: int)
    requires Within(line, last) && 0 < x && (last.Some? ==> last.value < x)
    ensures Within(line + [x], Some(x))
  {
    forall i, j | 0 <= i < j < |line + [x]|
      ensures (line + [x])[i] < (line + [x])[j]
    {
      assert line[i] in line;
    }
  }

  lemma StampsPop(q: seq<Image>)
    requires q != []
    ensures Stamps(q) == [q[0].stamp] + Stamps(q[1..])
  {
  }

  lemma PendingSnoc(p: seq<Pending>, x: Pending)
    ensures PendingStamps(p + [x]) == PendingStamps(p) + [x.rgb.stamp]
  {
  }

  lemma PendingPop(p: seq<Pending>)
    requires p != []
    ensures PendingStamps(p) == [p[0].rgb.stamp] + PendingStamps(p[1..])
  {
  }

  lemma FramesSnoc(f: seq<Frame>, x: Frame)
    ensures FrameStamps(f + [x]) == FrameStamps(f) + [x.rgb.stamp]
  {
  }

  lemma Regroup(f: seq<int>, p: seq<int>, x: int, r: seq<int>)
    ensures f + p + ([x] + r) == f + p + [x] + r
    ensures f + (p + [x]) + r == f + p + [x] + r
  {
  }

  /** A colour image leaves the queue: to the pairs waiting, or for good. */
  lemma PopRgbOrderly(f: seq<int>, p: seq<int>, q: seq<Image>, last: Option<int>)
    requires q != [] && Within(f + p + Stamps(q), last)
    ensures Within(f + (p + [q[0].stamp]) + Stamps(q[1..]), last) && Within(f + p + Stamps(q[1..]), last)
  {
    StampsPop(q);
    hide *;
    Regroup(f, p, q[0].stamp, Stamps(q[1..]));
    RemoveWithin(f + p, q[0].stamp, Stamps(q[1..]), last);
  }

  lemma PairTurnOrderly(cfg: Config, s: EngineState, wall: real)
    requires cfg.Valid() && s.images.rgb != [] && s.images.depth != [] && Orderly(cfg, s)
    ensures Orderly(cfg, PairTurn(cfg, s, wall)) && PairTurn(cfg, s, wall).last == s.last
  {
    PopRgbOrderly(FrameStamps(s.frames), PendingStamps(s.images.pending), s.images.rgb, s.last.rgb.stamp);
    var k := RgbdPairing.Nearest(s.images.depth, s.images.rgb[0].stamp);
    PendingSnoc(s.images.pending, Pending(s.images.rgb[0], s.images.depth[k], wall));
    hide Within, Stamps, PendingStamps, FrameStamps, RgbdPairing.Nearest, RgbdPairing.Without, RateLimiter.NextDue;
  }

  lemma FrontOrderly(f: seq<int>, p: seq<int>, q: seq<int>, last: Option<int>)
    requires p != [] && Within(f + p + q, last)
    ensures Within(f + [p[0]] + p[1..] + q, last) && Within(f + p[1..] + q, last)
  {
    assert f + p + q == f + [p[0]] + (p[1..] + q);
    assert f + [p[0]] + p[1..] + q == f + [p[0]] + (p[1..] + q);
    assert f + p[1..] + q == f + (p[1..] + q);
    hide *;
    RemoveWithin(f, p[0], p[1..] + q, last);
  }

  lemma DroppedOrderly(cfg: Config, s: EngineState, reason: Reason)
    requires cfg.Valid() && s.images.pending != [] && Orderly(cfg, s)
    ensures Orderly(cfg, Dropped(s, reason))
  {
    PendingPop(s.images.pending);
    FrontOrderly(FrameStamps(s.frames), PendingStamps(s.images.pending), Stamps(s.images.rgb), s.last.rgb.stamp);
    hide Within, Stamps, PendingStamps, FrameStamps;
  }

  lemma EmittedOrderly(cfg: Config, s: EngineState, f: Frame, m: Matrix, wall: real)
    requires cfg.Valid() && s.images.pending != [] && Orderly(cfg, s) && f.rgb.stamp == s.images.pending[0].rgb.stamp
    ensures Orderly(cfg, Emitted(s, f, m, wall))
  {
    PendingPop(s.images.pending);
    FramesSnoc(s.frames, f);
    FrontOrderly(FrameStamps(s.frames), PendingStamps(s.images.pending), Stamps(s.images.rgb), s.last.rgb.stamp);
    hide Within, Stamps, PendingStamps, FrameStamps, Written;
  }

  // ---------------------------------------------------------------- every step

  ghost predicate Sound(cfg: Config, s: EngineState)
    requires cfg.Valid()
  {
    Ledger(s) && Orderly(cfg, s)
  }

  lemma MadeStamp(g: Geometry, cfg: Config, s: EngineState)
    requires cfg.Valid() && s.images.pending != []
    ensures var o := FrontOutcome(g, cfg, s);
            o.Made? ==> o.frame.rgb.stamp == s.images.pending[0].rgb.stamp && o.frame.meta.frameIndex == s.stats.frames
  {
  }

  lemma {:induction false} PairAllSound(cfg: Config, s: EngineState, wall: real)
    requires cfg.Valid() && Sound(cfg, s)
    ensures Sound(cfg, PairAll(cfg, s, wall))
    decreases |s.images.rgb| + |s.images.depth|
  {
    hide Ledger, Orderly, PairTurn;
    if s.images.rgb != [] && s.images.depth != [] {
      PairTurnLedger(cfg, s, wall);
      PairTurnOrderly(cfg, s, wall);
      PairAllSound(cfg, PairTurn(cfg, s, wall), wall);
    }
  }

  lemma {:induction false} DrainSound(g: Geometry, cfg: Config, s: EngineState, wall: real, final: bool)
    requires cfg.Valid() && Sound(cfg, s)
    ensures var r := Drain(g, cfg, s, wall, final);
            r.Some? ==> Sound(cfg, r.value)
    decreases |s.images.pending|
  {
    hide Ledger, Orderly, FrontOutcome, Dropped, Emitted;
    if s.images.pending != [] {
      match FrontOutcome(g, cfg, s)
      case Late(reason) =>
        DroppedLedger(s, reason);
        DroppedOrderly(cfg, s, reason);
        DrainSound(g, cfg, Dropped(s, reason), wall, final);
      case Bad =>
        DroppedLedger(s, InvalidRgbd);
        DroppedOrderly(cfg, s, InvalidRgbd);
        DrainSound(g, cfg, Dropped(s, InvalidRgbd), wall, final);
      case Changed =>
      case Made(f, m) =>
        MadeStamp(g, cfg, s);
        EmittedLedger(s, f, m, wall);
        EmittedOrderly(cfg, s, f, m, wall);
        DrainSound(g, cfg, Emitted(s, f, m, wall), wall, final);
    }
  }

  lemma RgbQueuedOrderly(cfg: Config, s: EngineState, x: Image, l: Stream, missed: nat)
    requires cfg.Valid() && Orderly(cfg, s) && Stamped(s.last.rgb, x.stamp, x.id) == New(l, missed)
    ensures Orderly(cfg, RgbQueued(cfg, s, x, l, missed))
  {
    var f, p, q := FrameStamps(s.frames), PendingStamps(s.images.pending), s.images.rgb + [x];
    assert f + p + Stamps(q) == f + p + Stamps(s.images.rgb) + [x.stamp];
    AppendWithin(f + p + Stamps(s.images.rgb), s.last.rgb.stamp, x.stamp);
    hide Within, Stamps, PendingStamps, FrameStamps;
    PopRgbOrderly(f, p, q, Some(x.stamp));
  }

  /** Steps that touch neither the images nor their counts. */
  lemma SameSound(cfg: Config, s: EngineState, r: EngineState)
    requires cfg.Valid() && Sound(cfg, s) && r.images == s.images && r.frames == s.frames && r.last.rgb == s.last.rgb
    requires r.stats.received[RgbTopic] + s.stats.duplicate[RgbTopic]
             == s.stats.received[RgbTopic] + r.stats.duplicate[RgbTopic]
    requires r.stats.received[DepthTopic] + s.stats.duplicate[DepthTopic]
             == s.stats.received[DepthTopic] + r.stats.duplicate[DepthTopic]
    requires r.stats.unpaired == s.stats.unpaired && r.stats.dropped == s.stats.dropped
    requires r.stats.paired == s.stats.paired && r.stats.rateFiltered == s.stats.rateFiltered
             && r.stats.frames == s.stats.frames
    ensures Sound(cfg, r)
  {
    hide Within, Close;
  }

  lemma TakeSound(g: Geometry, cfg: Config, s: EngineState, m: Message, arrival: int, wall: real)
    requires cfg.Valid() && Sound(cfg, s)
    ensures var r := Take(g, cfg, s, m, arrival, wall);
            r.Some? ==> Sound(cfg, r.value.0)
  {
    var r := Take(g, cfg, s, m, arrival, wall);
    if r.Some? {
      if m.RgbMsg? && Stamped(s.last.rgb, m.image.stamp, m.image.id).New? {
        TakeRgbSound(g, cfg, s, m.image, arrival, wall);
      } else if m.DepthMsg? && Stamped(s.last.depth, m.image.stamp, m.image.id).New? {
        TakeDepthSound(g, cfg, s, m.image, arrival, wall);
      } else {
        hide Sound, Learned, Stamped, PairAll, OdometryWindow.Drops, Kept;
        SameSound(cfg, s, r.value.0);
      }
    }
  }

  lemma TakeRgbSound(g: Geometry, cfg: Config, s: EngineState, x: Image, arrival: int, wall: real)
    requires cfg.Valid() && Sound(cfg, s) && Stamped(s.last.rgb, x.stamp, x.id).New?
    ensures Sound(cfg, Take(g, cfg, s, RgbMsg(x), arrival, wall).value.0)
  {
    var a := Stamped(s.last.rgb, x.stamp, x.id);
    var t := Received(s, RgbTopic);
    RgbQueuedLedger(cfg, s, x, a.stream, a.missed);
    SameOrderly(cfg, s, t);
    RgbQueuedOrderly(cfg, t, x, a.stream, a.missed);
    hide Ledger, Orderly, RgbQueued, PairAll, Stamped;
    PairAllSound(cfg, RgbQueued(cfg, t, x, a.stream, a.missed), wall);
  }

  lemma TakeDepthSound(g: Geometry, cfg: Config, s: EngineState, x: Image, arrival: int, wall: real)
    requires cfg.Valid() && Sound(cfg, s) && Stamped(s.last.depth, x.stamp, x.id).New?
    ensures Sound(cfg, Take(g, cfg, s, DepthMsg(x), arrival, wall).value.0)
  {
    var a := Stamped(s.last.depth, x.stamp, x.id);
    var t := Received(s, DepthTopic);
    DepthQueuedLedger(cfg, s, x, a.stream, a.missed);
    SameOrderly(cfg, s, DepthQueued(cfg, t, x, a.stream, a.missed));
    hide Ledger, Orderly, DepthQueued, PairAll, Stamped;
    PairAllSound(cfg, DepthQueued(cfg, t, x, a.stream, a.missed), wall);
  }

  lemma SameOrderly(cfg: Config, s: EngineState, r: EngineState)
    requires cfg.Valid() && Orderly(cfg, s) && r.last.rgb == s.last.rgb && r.frames == s.frames
    requires r.images.rgb == s.images.rgb && r.images.pending == s.images.pending
    ensures Orderly(cfg, r)
  {
    hide Within, Close;
  }

  lemma StepSound(g: Geometry, cfg: Config, s: EngineState, c: Call)
    requires cfg.Valid() && Sound(cfg, s)
    ensures var r := Step(g, cfg, s, c);
            r.Some? ==> Sound(cfg, r.value)
  {
    hide Sound, Take, Drain;
    match c
    case Message(m, arrival, wall) =>
      TakeSound(g, cfg, s, m, arrival, wall);
      var t := Take(g, cfg, s, m, arrival, wall);
      if t.Some? && t.value.1 {
        DrainSound(g, cfg, t.value.0, wall, false);
      }
    case Poll(wall) =>
      DrainSound(g, cfg, s, wall, false);
  }

  lemma {:induction false} RunSound(g: Geometry, cfg: Config, calls: seq<Call>)
    requires cfg.Valid()
    ensures var r := After(g, cfg, calls);
            r.Some? ==> Sound(cfg, r.value)
  {
    if calls == [] {
      InitialSound(cfg);
      return;
    }
    hide Sound, Step;
    var before := After(g, cfg, calls[..|calls| - 1]);
    RunSound(g, cfg, calls[..|calls| - 1]);
    if before.Some? {
      StepSound(g, cfg, before.value, calls[|calls| - 1]);
    }
  }

  lemma InitialSound(cfg: Config)
    requires cfg.Valid()
    ensures Sound(cfg, Initial())
  {
    assert Line(Initial()) == [];
  }

  /** At every step of every session that was not aborted. */
  lemma SessionIsAccounted(g: Geometry, cfg: Config, calls: seq<Call>)
    requires cfg.Valid() && After(g, cfg, calls).Some?
    ensures var s := After(g, cfg, calls).value;
            Ledger(s) && Increasing(FrameStamps(s.frames))
  {
    RunSound(g, cfg, calls);
    var s := After(g, cfg, calls).value;
    hide After, Ledger, Close;
    FramesFirst(FrameStamps(s.frames), PendingStamps(s.images.pending), Stamps(s.images.rgb), s.last.rgb.stamp);
  }

  lemma FramesFirst(f: seq<int>, p: seq<int>, q: seq<int>, last: Option<int>)
    requires Within(f + p + q, last)
    ensures Increasing(f)
  {
    assert forall i :: 0 <= i < |f| ==> f[i] == (f + p + q)[i];
  }

  /** The final drain leaves nothing waiting, so every pair ends as a frame, a drop, or filtered. */
  lemma {:induction false} FinalDrainEmpties(g: Geometry, cfg: Config, s: EngineState, wall: real)
    requires cfg.Valid() && Sound(cfg, s) && Drain(g, cfg, s, wall, true).Some?
    ensures var r := Drain(g, cfg, s, wall, true).value;
            Sound(cfg, r) && r.images.pending == []
              && r.stats.paired == r.stats.rateFiltered + r.stats.frames + |r.stats.dropped|
  {
    DrainSound(g, cfg, s, wall, true);
    hide FrontOutcome, Dropped, Emitted, Orderly;
    NothingPending(g, cfg, s, wall);
    hide Drain;
  }

  lemma {:induction false} NothingPending(g: Geometry, cfg: Config, s: EngineState, wall: real)
    requires cfg.Valid() && Drain(g, cfg, s, wall, true).Some?
    ensures Drain(g, cfg, s, wall, true).value.images.pending == []
    decreases |s.images.pending|
  {
    hide FrontOutcome, Dropped, Emitted;
    if s.images.pending != [] {
      match FrontOutcome(g, cfg, s)
      case Late(reason) => NothingPending(g, cfg, Dropped(s, reason), wall);
      case Bad => NothingPending(g, cfg, Dropped(s, InvalidRgbd), wall);
      case Changed =>
      case Made(f, m) => NothingPending(g, cfg, Emitted(s, f, m, wall), wall);
    }
  }
}
