/** The report of a session: what it says about frames, odometry and rejections is true. */
module RgbdReport {
  import opened Basics
  import opened RgbdTypes
  import opened RgbdGroup
  import opened RgbdEngine
  import opened RgbdRuns
  import RgbdPairing
  import RateLimiter
  import OdometryWindow

  /** First and last frame are the first and last written. */
  ghost predicate FramesNoted(n: Notes, frames: seq<Frame>) {
    if frames == [] then n.firstFrame.None? && n.lastFrame.None? && n.frameWall.None?
    else
      && n.firstFrame == Some(frames[0].rgb.stamp) && n.lastFrame == Some(frames[|frames| - 1].rgb.stamp)
      && n.frameWall.Some?
  }

  /** The largest age of any recorded odometry, or 0. */
  ghost predicate AgeNoted(n: Notes, log: seq<Record>) {
    && (forall r :: r in log && r.item.Raw? && r.item.msg.OdomMsg? ==> Age(r.time, r.item.msg.odom.stamp) <= n.lioAge)
    && (n.lioAge == 0.0 || exists r :: r in log && r.item.Raw? && r.item.msg.OdomMsg?
                                       && Age(r.time, r.item.msg.odom.stamp) == n.lioAge)
    && n.lioAge >= 0.0
  }

  /** A rejection is named exactly when there was one. */
  ghost predicate ErrorNoted(n: Notes, dropped: multiset<Reason>) {
    match n.lastError
    case None => dropped == multiset{}
    case Some(reason) => reason in dropped
  }

  ghost predicate Reported(s: EngineState) {
    FramesNoted(s.notes, s.frames) && AgeNoted(s.notes, s.log) && ErrorNoted(s.notes, s.stats.dropped)
  }

  lemma SameReported(s: EngineState, r: EngineState)
    requires Reported(s) && r.notes == s.notes && r.frames == s.frames && r.log == s.log
             && r.stats.dropped == s.stats.dropped
    ensures Reported(r)
  {
  }

  lemma OtherRecords(n: Notes, log: seq<Record>, more: seq<Record>)
    requires AgeNoted(n, log) && forall r :: r in more ==> !r.item.Raw? || !r.item.msg.OdomMsg?
    ensures AgeNoted(n, log + more)
  {
    hide Age;
    if n.lioAge != 0.0 {
      var r :| r in log && r.item.Raw? && r.item.msg.OdomMsg? && Age(r.time, r.item.msg.odom.stamp) == n.lioAge;
      assert r in log + more;
    }
  }

  lemma OdometryRecord(n: Notes, log: seq<Record>, time: int, x: Odometry)
    requires AgeNoted(n, log)
    ensures AgeNoted(Aged(n, Age(time, x.stamp)), log + [Record(time, Raw(OdomMsg(x)))])
  {
    hide Age;
    var r, age := Record(time, Raw(OdomMsg(x))), Age(time, x.stamp);
    assert r in log + [r];
    if n.lioAge >= age && n.lioAge != 0.0 {
      var q :| q in log && q.item.Raw? && q.item.msg.OdomMsg? && Age(q.time, q.item.msg.odom.stamp) == n.lioAge;
      assert q in log + [r];
    }
  }

  lemma DroppedReported(s: EngineState, reason: Reason)
    requires s.images.pending != [] && Reported(s)
    ensures Reported(Dropped(s, reason))
  {
    hide AgeNoted;
    AgeSame(s.notes, s.notes.(lastError := Some(reason)), s.log);
  }

  lemma AgeSame(n: Notes, m: Notes, log: seq<Record>)
    requires AgeNoted(n, log) && m.lioAge == n.lioAge
    ensures AgeNoted(m, log)
  {
  }

  lemma NoOdometryWritten(f: Frame)
    ensures forall r :: r in Written(f) ==> !r.item.Raw?
  {
    forall i | 0 <= i < 7
      ensures !Written(f)[i].item.Raw?
    {
      assert Written(f)[i].item == Parts(f)[i];
    }
  }

  lemma EmittedReported(s: EngineState, f: Frame, m: Matrix, wall: real)
    requires s.images.pending != [] && Reported(s)
    ensures Reported(Emitted(s, f, m, wall))
  {
    NoOdometryWritten(f);
    OtherRecords(s.notes, s.log, Written(f));
    AgeSame(s.notes, Noted(s.notes, f.rgb.stamp, wall), s.log + Written(f));
    hide AgeNoted, Written;
  }

  lemma {:induction false} DrainReported(g: Geometry, cfg: Config, s: EngineState, wall: real, final: bool)
    requires cfg.Valid() && Reported(s)
    ensures var r := Drain(g, cfg, s, wall, final);
            r.Some? ==> Reported(r.value)
    decreases |s.images.pending|
  {
    hide FrontOutcome, Reported;
    if s.images.pending != [] {
      match FrontOutcome(g, cfg, s)
      case Late(reason) =>
        DroppedReported(s, reason);
        DrainReported(g, cfg, Dropped(s, reason), wall, final);
      case Bad =>
        DroppedReported(s, InvalidRgbd);
        DrainReported(g, cfg, Dropped(s, InvalidRgbd), wall, final);
      case Changed =>
      case Made(f, m) =>
        EmittedReported(s, f, m, wall);
        DrainReported(g, cfg, Emitted(s, f, m, wall), wall, final);
    }
  }

  lemma {:induction false} PairAllReported(cfg: Config, s: EngineState, wall: real)
    requires cfg.Valid()
    ensures var r := PairAll(cfg, s, wall);
            r.notes == s.notes && r.frames == s.frames && r.log == s.log && r.stats.dropped == s.stats.dropped
    decreases |s.images.rgb| + |s.images.depth|
  {
    if s.images.rgb != [] && s.images.depth != [] {
      PairAllReported(cfg, PairTurn(cfg, s, wall), wall);
      hide RgbdPairing.Nearest, RateLimiter.NextDue;
    }
  }

  /** One message but odometry leaves the notes alone and writes at most one record of its own kind. */
  lemma TakeReported(g: Geometry, cfg: Config, s: EngineState, m: Message, arrival: int, wall: real)
    requires cfg.Valid() && Reported(s)
    ensures var r := Take(g, cfg, s, m, arrival, wall);
            r.Some? ==> Reported(r.value.0)
  {
    var r := Take(g, cfg, s, m, arrival, wall);
    if r.None? {
      return;
    }
    if m.OdomMsg? && Stamped(s.last.odom, m.odom.stamp, m.odom.id).New? {
      OdometryRecord(s.notes, s.log, arrival, m.odom);
      hide AgeNoted, Age, Stamped, OdometryWindow.Drops;
    } else if m.RgbMsg? && Stamped(s.last.rgb, m.image.stamp, m.image.id).New? {
      var a := Stamped(s.last.rgb, m.image.stamp, m.image.id);
      PairAllReported(cfg, RgbQueued(cfg, Received(s, RgbTopic), m.image, a.stream, a.missed), wall);
      hide Reported, Stamped, PairAll;
      SameReported(s, r.value.0);
    } else if m.DepthMsg? && Stamped(s.last.depth, m.image.stamp, m.image.id).New? {
      var a := Stamped(s.last.depth, m.image.stamp, m.image.id);
      PairAllReported(cfg, DepthQueued(cfg, Received(s, DepthTopic), m.image, a.stream, a.missed), wall);
      hide Reported, Stamped, PairAll;
      SameReported(s, r.value.0);
    } else {
      TakeOtherReported(g, cfg, s, m, arrival, wall);
    }
  }

  lemma TakeOtherReported(g: Geometry, cfg: Config, s: EngineState, m: Message, arrival: int, wall: real)
    requires cfg.Valid() && Reported(s) && Take(g, cfg, s, m, arrival, wall).Some?
    requires m.OdomMsg? ==> Stamped(s.last.odom, m.odom.stamp, m.odom.id).Again?
    requires m.RgbMsg? ==> Stamped(s.last.rgb, m.image.stamp, m.image.id).Again?
    requires m.DepthMsg? ==> Stamped(s.last.depth, m.image.stamp, m.image.id).Again?
    ensures Reported(Take(g, cfg, s, m, arrival, wall).value.0)
  {
    hide Stamped, PairAll, AgeNoted, Learned, Kept, RgbQueued, DepthQueued;
    var r := Take(g, cfg, s, m, arrival, wall).value.0;
    assert r.notes == s.notes && r.frames == s.frames && r.stats.dropped == s.stats.dropped;
    if r.log != s.log {
      var more := r.log[|s.log|..];
      assert r.log == s.log + more;
      OtherRecords(s.notes, s.log, more);
    }
  }

  /** In every session, at every call: the report names the first and the last frame written,
      the largest age of any odometry recorded, and a rejection exactly when there was one. */
  lemma {:induction false} SessionIsReported(g: Geometry, cfg: Config, calls: seq<Call>)
    requires cfg.Valid()
    ensures var r := After(g, cfg, calls);
            r.Some? ==> Reported(r.value)
  {
    hide Take, Drain, Reported;
    if calls == [] {
      StartReported();
      return;
    }
    var before, c := calls[..|calls| - 1], calls[|calls| - 1];
    SessionIsReported(g, cfg, before);
    if After(g, cfg, calls).Some? {
      var s := After(g, cfg, before).value;
      match c
      case Poll(wall) => DrainReported(g, cfg, s, wall, false);
      case Message(m, arrival, wall) =>
        TakeReported(g, cfg, s, m, arrival, wall);
        var t := Take(g, cfg, s, m, arrival, wall);
        if t.Some? && t.value.1 {
          DrainReported(g, cfg, t.value.0, wall, false);
        }
    }
  }

  lemma StartReported()
    ensures Reported(Initial())
  {
  }
}
