/** A whole session, from the first message to the closed bag, and the verdict on it. */
module RgbdSession {
  import opened RgbdTypes
  import opened RgbdGroup
  import opened RgbdEngine
  import opened RgbdRuns
  import opened RgbdValidator
  import opened RgbdRecording
  import opened RgbdAgreement
  import OdometryWindow

  lemma TakeRecorded(g: Geometry, cfg: Config, s: EngineState, m: Message, arrival: int, wall: real)
    requires cfg.Valid() && Recorded(g, cfg, s)
    ensures var r := Take(g, cfg, s, m, arrival, wall);
            r.Some? ==> Recorded(g, cfg, r.value.0)
  {
    var t := Received(s, TopicOf(m));
    SameRecorded(g, cfg, s, t);
    hide Recorded, Stamped, PairAll, Learned, Kept, TakeOdom, OdometryWindow.Drops;
    match m
    case RgbMsg(x) =>
      TakeImageRecorded(g, cfg, s, m, arrival, wall);
    case DepthMsg(x) =>
      TakeImageRecorded(g, cfg, s, m, arrival, wall);
    case OdomMsg(_) =>
      TakeOdomRecorded(g, cfg, s, m, arrival, wall);
    case StaticMsg(ts) =>
      if Learned(g, t.statics, ts).Some? {
        StaticRecorded(g, cfg, t, arrival, ts);
      }
    case RgbInfoMsg(_) =>
      TakeInfoRecorded(g, cfg, s, m, arrival, wall);
    case DepthInfoMsg(_) =>
      TakeInfoRecorded(g, cfg, s, m, arrival, wall);
    case DynamicMsg(_) =>
      WroteRecorded(g, cfg, t, arrival, m);
    case OtherMsg(_) =>
      WroteRecorded(g, cfg, t, arrival, m);
  }

  lemma TakeOdomRecorded(g: Geometry, cfg: Config, s: EngineState, m: Message, arrival: int, wall: real)
    requires cfg.Valid() && Recorded(g, cfg, s) && m.OdomMsg?
    ensures var r := Take(g, cfg, s, m, arrival, wall);
            r.Some? ==> Recorded(g, cfg, r.value.0)
  {
    var t, x := Received(s, OdomTopic), m.odom;
    SameRecorded(g, cfg, s, t);
    hide Recorded, Stamped, TakeOdom;
    var a := Stamped(t.last.odom, x.stamp, x.id);
    if a.Again? {
      SameRecorded(g, cfg, s, t.(stats := t.stats.(duplicate := t.stats.duplicate + multiset{OdomTopic})));
    } else if a.New? && TakeOdom(g, cfg, t, x, a.stream, a.missed, arrival).Some? {
      OdomRecorded(g, cfg, t, x, arrival);
    }
  }

  lemma TakeInfoRecorded(g: Geometry, cfg: Config, s: EngineState, m: Message, arrival: int, wall: real)
    requires cfg.Valid() && Recorded(g, cfg, s) && (m.RgbInfoMsg? || m.DepthInfoMsg?)
    ensures Recorded(g, cfg, Take(g, cfg, s, m, arrival, wall).value.0)
  {
    var t := Received(s, TopicOf(m));
    var infos := if m.RgbInfoMsg? then t.infos.(rgb := Kept(t.infos.rgb, m.info, INFO_BUFFER))
                 else t.infos.(depth := Kept(t.infos.depth, m.info, INFO_BUFFER));
    hide Recorded, Kept;
    SameRecorded(g, cfg, s, t.(infos := infos));
    WroteRecorded(g, cfg, t.(infos := infos), arrival, m);
  }

  lemma TakeImageKeeps(g: Geometry, cfg: Config, s: EngineState, m: Message, arrival: int, wall: real)
    requires cfg.Valid() && (m.RgbMsg? || m.DepthMsg?) && Take(g, cfg, s, m, arrival, wall).Some?
    ensures var r := Take(g, cfg, s, m, arrival, wall).value.0;
            r.log == s.log && r.frames == s.frames && r.odoms == s.odoms && r.statics == s.statics
              && r.last.odom == s.last.odom
  {
    hide Stamped, PairAll;
    var t := Received(s, TopicOf(m));
    if m.RgbMsg? {
      var a := Stamped(t.last.rgb, m.image.stamp, m.image.id);
      if a.New? {
        PairAllKeeps(cfg, RgbQueued(cfg, t, m.image, a.stream, a.missed), wall);
      }
    } else {
      var a := Stamped(t.last.depth, m.image.stamp, m.image.id);
      if a.New? {
        PairAllKeeps(cfg, DepthQueued(cfg, t, m.image, a.stream, a.missed), wall);
      }
    }
  }

  lemma TakeImageRecorded(g: Geometry, cfg: Config, s: EngineState, m: Message, arrival: int, wall: real)
    requires cfg.Valid() && (m.RgbMsg? || m.DepthMsg?) && Recorded(g, cfg, s)
    ensures var r := Take(g, cfg, s, m, arrival, wall);
            r.Some? ==> Recorded(g, cfg, r.value.0)
  {
    hide Recorded, Take;
    if Take(g, cfg, s, m, arrival, wall).Some? {
      TakeImageKeeps(g, cfg, s, m, arrival, wall);
      SameRecorded(g, cfg, s, Take(g, cfg, s, m, arrival, wall).value.0);
    }
  }

  lemma StepRecorded(g: Geometry, cfg: Config, s: EngineState, c: Call)
    requires g.Lawful() && cfg.Valid() && Sound(cfg, s) && Recorded(g, cfg, s)
    ensures var r := Step(g, cfg, s, c);
            r.Some? ==> Recorded(g, cfg, r.value)
  {
    hide Geometry.Lawful, Sound, Recorded, Take, Drain;
    match c
    case Message(m, arrival, wall) =>
      TakeSound(g, cfg, s, m, arrival, wall);
      TakeRecorded(g, cfg, s, m, arrival, wall);
      var t := Take(g, cfg, s, m, arrival, wall);
      if t.Some? && t.value.1 {
        DrainRecorded(g, cfg, t.value.0, wall, false);
      }
    case Poll(wall) =>
      DrainRecorded(g, cfg, s, wall, false);
  }

  lemma {:induction false} RunRecorded(g: Geometry, cfg: Config, calls: seq<Call>)
    requires g.Lawful() && cfg.Valid() && After(g, cfg, calls).Some?
    ensures Recorded(g, cfg, After(g, cfg, calls).value)
  {
    if calls == [] {
      InitialRecorded(g, cfg);
      return;
    }
    hide Geometry.Lawful, Recorded, Step, Sound;
    var before := calls[..|calls| - 1];
    RunRecorded(g, cfg, before);
    RunSound(g, cfg, before);
    StepRecorded(g, cfg, After(g, cfg, before).value, calls[|calls| - 1]);
  }

  lemma InitialRecorded(g: Geometry, cfg: Config)
    ensures Recorded(g, cfg, Initial())
  {
  }

  /** In any session: below the cap, the bracket _make_group finds for a time no older than the
      memory is the one in all odometry ever recorded. */
  lemma SessionBracketAgrees(g: Geometry, cfg: Config, calls: seq<Call>, target: int)
    requires g.Lawful() && cfg.Valid() && After(g, cfg, calls).Some?
    requires var h := Times(OdomsIn(After(g, cfg, calls).value.log));
             h != [] && OdometryWindow.BelowCap(h, cfg.Memory()) && target >= h[|h| - 1] - cfg.Memory()
    ensures var s := After(g, cfg, calls).value;
            OdometryWindow.BracketStamps(Times(s.odoms), target)
              == OdometryWindow.BracketStamps(Times(OdomsIn(s.log)), target)
  {
    RunRecorded(g, cfg, calls);
    var s := After(g, cfg, calls).value;
    assert OdomKept(g, cfg, s.odoms, s.last.odom, OdomsIn(s.log));
    TableHolds(g, cfg, OdomsIn(s.log));
    hide After, Recorded, OdomsIn, OdomTable, OdometryWindow.BelowCap, OdometryWindow.BracketStamps,
         OdometryWindow.Window, Geometry.Lawful, Times;
    OdometryWindow.WindowAgrees(Times(OdomsIn(s.log)), cfg.Memory(), target);
  }

  // ---------------------------------------------------------------- reading in the order of time

  /** Messages passed on are in the order of their times, none later than t; the rest is frames. */
  ghost predicate RawUpTo(log: seq<Record>, t: int) {
    && (forall i :: 0 <= i < |log| ==> log[i].item.Raw? || IsGroup(log[i].item))
    && (forall i, j :: 0 <= i < j < |log| && log[i].item.Raw? && log[j].item.Raw? ==> log[i].time <= log[j].time)
    && (forall i :: 0 <= i < |log| && log[i].item.Raw? ==> log[i].time <= t)
  }

  lemma PartsUpTo(log: seq<Record>, w: seq<Record>, t: int)
    requires RawUpTo(log, t) && forall x :: x in w ==> IsGroup(x.item)
    ensures RawUpTo(log + w, t)
  {
    forall i | |log| <= i < |log + w|
      ensures IsGroup((log + w)[i].item)
    {
      assert (log + w)[i] == w[i - |log|];
    }
  }

  lemma {:induction false} DrainUpTo(g: Geometry, cfg: Config, s: EngineState, wall: real, final: bool, t: int)
    requires cfg.Valid() && RawUpTo(s.log, t)
    ensures var r := Drain(g, cfg, s, wall, final);
            r.Some? ==> RawUpTo(r.value.log, t)
    decreases |s.images.pending|
  {
    hide RawUpTo, FrontOutcome, Written;
    if s.images.pending != [] {
      match FrontOutcome(g, cfg, s)
      case Late(reason) => DrainUpTo(g, cfg, Dropped(s, reason), wall, final, t);
      case Bad => DrainUpTo(g, cfg, Dropped(s, InvalidRgbd), wall, final, t);
      case Changed =>
      case Made(f, m) =>
        WrittenParts(f);
        PartsUpTo(s.log, Written(f), t);
        DrainUpTo(g, cfg, Emitted(s, f, m, wall), wall, final, t);
    }
  }

  /** What a message adds to the log, if anything, is one record of its arrival. */
  lemma TakeLog(g: Geometry, cfg: Config, s: EngineState, m: Message, arrival: int, wall: real)
    requires cfg.Valid() && Take(g, cfg, s, m, arrival, wall).Some?
    ensures var log := Take(g, cfg, s, m, arrival, wall).value.0.log;
            log == s.log || exists x: Message :: log == s.log + [Record(arrival, Raw(x))]
  {
    hide Stamped, PairAll, Learned, Kept, OdometryWindow.Drops;
    if m.RgbMsg? || m.DepthMsg? {
      TakeImageKeeps(g, cfg, s, m, arrival, wall);
    }
  }

  ghost predicate ArrivalsUpTo(calls: seq<Call>, t: int) {
    forall c :: c in calls && c.Message? ==> c.arrival <= t
  }

  /** Messages are handed over in the order of their arrival. */
  ghost predicate InOrder(calls: seq<Call>) {
    forall i, j :: 0 <= i < j < |calls| && calls[i].Message? && calls[j].Message?
      ==> calls[i].arrival <= calls[j].arrival
  }

  lemma StepUpTo(g: Geometry, cfg: Config, s: EngineState, c: Call, t: int)
    requires cfg.Valid() && Step(g, cfg, s, c).Some? && RawUpTo(s.log, if c.Message? then c.arrival else t)
             && (c.Message? ==> c.arrival <= t)
    ensures RawUpTo(Step(g, cfg, s, c).value.log, t)
  {
    hide Take, Drain;
    match c
    case Message(m, arrival, wall) =>
      TakeLog(g, cfg, s, m, arrival, wall);
      var r := Take(g, cfg, s, m, arrival, wall).value;
      assert RawUpTo(r.0.log, t);
      hide RawUpTo;
      if r.1 {
        DrainUpTo(g, cfg, r.0, wall, false, t);
      }
    case Poll(wall) =>
      hide RawUpTo;
      DrainUpTo(g, cfg, s, wall, false, t);
  }

  lemma ArrivalsBefore(calls: seq<Call>, t: int)
    requires calls != [] && InOrder(calls) && ArrivalsUpTo(calls, t)
    ensures var before, c := calls[..|calls| - 1], calls[|calls| - 1];
            InOrder(before) && ArrivalsUpTo(before, t)
              && (c.Message? ==> c.arrival <= t && ArrivalsUpTo(before, c.arrival))
  {
    var before, c := calls[..|calls| - 1], calls[|calls| - 1];
    assert c in calls;
    forall x | x in before
      ensures x in calls && (x.Message? && c.Message? ==> x.arrival <= c.arrival)
    {
      var i :| 0 <= i < |before| && before[i] == x;
      assert calls[i] == x;
    }
  }

  lemma {:induction false} RunUpTo(g: Geometry, cfg: Config, calls: seq<Call>, t: int)
    requires cfg.Valid() && After(g, cfg, calls).Some? && InOrder(calls) && ArrivalsUpTo(calls, t)
    ensures RawUpTo(After(g, cfg, calls).value.log, t)
  {
    if calls == [] {
      return;
    }
    var before, c := calls[..|calls| - 1], calls[|calls| - 1];
    ArrivalsBefore(calls, t);
    hide RawUpTo, InOrder, ArrivalsUpTo, Step;
    RunUpTo(g, cfg, before, if c.Message? then c.arrival else t);
    StepUpTo(g, cfg, After(g, cfg, before).value, c, t);
  }
}
