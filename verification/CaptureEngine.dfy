/** The class Engine of rgbd_capture/core.py, proved against the functions of RgbdEngine.  An
    exception becomes the result false; the session is then aborted, so no state is promised. */
module CaptureEngine {
  import opened Basics
  import opened RgbdTypes
  import opened RgbdGroup
  import opened RgbdEngine
  import RgbdPairing
  import RateLimiter
  import OdometryWindow

  class Engine {
    const geo: Geometry
    const cfg: Config
    var images: Images
    var infos: Infos
    var odoms: seq<Odometry>
    var statics: Statics
    var last: Streams
    var stats: Stats
    var notes: Notes
    var log: seq<Record>
    ghost var frames: seq<Frame>

    ghost function View(): EngineState
      reads this
    {
      EngineState(images, infos, odoms, statics, last, stats, notes, log, frames)
    }

    constructor (geo: Geometry, cfg: Config)
      requires cfg.Valid()
      ensures this.geo == geo && this.cfg == cfg && View() == Initial()
    {
      this.geo, this.cfg := geo, cfg;
      var none := Stream(None, None);
      images, infos, odoms := Images([], [], None, []), Infos([], []), [];
      statics, last := Statics([], map[], None), Streams(none, none, none);
      stats := Stats(multiset{}, multiset{}, multiset{}, multiset{}, 0, 0, 0, multiset{});
      notes, log, frames := Notes(None, None, None, 0.0, None), [], [];
    }

    /** _pair */
    method Pair(wall: real)
      requires cfg.Valid()
      modifies `images, `stats
      ensures View() == PairAll(cfg, old(View()), wall)
    {
      while images.rgb != [] && images.depth != []
        invariant PairAll(cfg, View(), wall) == PairAll(cfg, old(View()), wall)
        decreases |images.rgb| + |images.depth|
      {
        ghost var before := View();
        PairOnce(wall);
        hide PairTurn;
        assert PairAll(cfg, before, wall) == PairAll(cfg, View(), wall);
      }
    }

    /** The body of the loop of _pair. */
    method PairOnce(wall: real)
      requires cfg.Valid() && images.rgb != [] && images.depth != []
      modifies `images, `stats
      ensures View() == PairTurn(cfg, old(View()), wall)
    {
      hide RateLimiter.NextDue;
      var rgb := images.rgb[0];
      var t := rgb.stamp;
      var index := FindNearest(images.depth, t);
      if Distance(images.depth[index].stamp, t) <= cfg.Slop() {
        var dep := images.depth[index];
        images := images.(rgb := images.rgb[1..], depth := RgbdPairing.Without(images.depth, index));
        stats := stats.(paired := stats.paired + 1);
        if images.nextDue.Some? && t < images.nextDue.value {
          stats := stats.(rateFiltered := stats.rateFiltered + 1);
          return;
        }
        var due := RateLimiter.NextDue(images.nextDue, t, cfg.Period());
        images := images.(nextDue := Some(due));
        images := images.(pending := images.pending + [Pending(rgb, dep, wall)]);
      } else if images.depth[0].stamp < t - cfg.Slop() {
        images := images.(depth := images.depth[1..]);
        stats := Counted(stats, DepthTopic);
      } else {
        images := images.(rgb := images.rgb[1..]);
        stats := Counted(stats, RgbTopic);
      }
    }

    /** min over the indices by distance, the first of equals. */
    static method FindNearest(b: seq<Image>, t: int) returns (k: nat)
      requires b != []
      ensures k == RgbdPairing.Nearest(b, t)
    {
      k := 0;
      for i := 1 to |b|
        invariant k == RgbdPairing.Nearest(b[..i], t)
      {
        assert b[..i + 1][..i] == b[..i];
        if Distance(b[i].stamp, t) < Distance(b[k].stamp, t) {
          k := i;
        }
      }
      assert b[..|b|] == b;
    }

    method WriteGroup(f: Frame)
      modifies `log
      ensures log == old(log) + Written(f)
    {
      for i := 0 to 7
        invariant log == old(log) + Written(f)[..i]
      {
        log := log + [Record(f.rgb.stamp, Parts(f)[i])];
      }
    }

    method DropFront(reason: Reason)
      requires images.pending != []
      modifies `images, `stats, `notes
      ensures View() == Dropped(old(View()), reason)
    {
      stats := stats.(dropped := stats.dropped + multiset{reason});
      notes := notes.(lastError := Some(reason));
      images := images.(pending := images.pending[1..]);
    }

    method EmitFront(f: Frame, m: Matrix, wall: real)
      requires images.pending != []
      modifies `images, `statics, `stats, `notes, `log, `frames
      ensures View() == Emitted(old(View()), f, m, wall)
    {
      statics := statics.(accepted := Some(m));
      images := images.(pending := images.pending[1..]);
      WriteGroup(f);
      stats := stats.(frames := stats.frames + 1);
      if notes.firstFrame.None? {
        notes := notes.(firstFrame := Some(f.rgb.stamp));
      }
      notes := notes.(lastFrame := Some(f.rgb.stamp), frameWall := Some(wall));
      frames := frames + [f];
    }

    /** drain */
    method DrainPairs(wall: real, final: bool) returns (ok: bool)
      requires cfg.Valid()
      modifies `images, `statics, `stats, `notes, `log, `frames
      ensures ok == Drain(geo, cfg, old(View()), wall, final).Some?
      ensures ok ==> View() == Drain(geo, cfg, old(View()), wall, final).value
    {
      hide MakeGroup, Dropped, Emitted;
      ghost var start := View();
      while images.pending != []
        invariant Drain(geo, cfg, View(), wall, final) == Drain(geo, cfg, start, wall, final)
        decreases |images.pending|
      {
        var front := images.pending[0];
        var sources := Sources(odoms, infos.rgb, infos.depth, statics.buffer, statics.accepted);
        match MakeGroup(geo, cfg, sources, stats.frames, front.rgb, front.depth)
        case Late(reason) =>
          if !final && wall - front.queued < cfg.wait {
            return true;
          }
          DropFront(reason);
        case Bad =>
          DropFront(InvalidRgbd);
        case Changed =>
          return false;
        case Made(f, m) =>
          EmitFront(f, m, wall);
      }
      return true;
    }

    method TrimOdometry(cutoff: int)
      modifies `odoms
      ensures odoms == old(odoms)[OdometryWindow.Drops(Times(old(odoms)), cutoff)..]
    {
      ghost var n := 0;
      while |odoms| > 2 && (odoms[1].stamp < cutoff || |odoms| > OdometryWindow.CAP)
        invariant n <= |old(odoms)| && odoms == old(odoms)[n..]
        invariant n + OdometryWindow.Drops(Times(odoms), cutoff) == OdometryWindow.Drops(Times(old(odoms)), cutoff)
        decreases |odoms|
      {
        assert Times(odoms)[1..] == Times(odoms[1..]);
        odoms := odoms[1..];
        n := n + 1;
      }
    }

    method LearnStatics(ts: seq<Transform>) returns (ok: bool)
      modifies `statics
      ensures ok == Learned(geo, old(statics), ts).Some?
      ensures ok ==> statics == Learned(geo, old(statics), ts).value
    {
      hide Put;
      for i := 0 to |ts|
        invariant Learned(geo, old(statics), ts[..i]) == Some(statics)
      {
        assert ts[..i + 1][..i] == ts[..i];
        var t := ts[i];
        if geo.matrix(t.pose).None? || t.frame == "" || t.child == "" || t.frame == t.child {
          FailsFrom(geo, old(statics), ts, i + 1);
          return false;
        }
        statics := statics.(known := Put(statics.known, t), buffer := statics.buffer[t.child := t]);
      }
      assert ts[..|ts|] == ts;
      return true;
    }

    method IngestImage(m: Message, wall: real) returns (ok: bool, drains: bool)
      requires cfg.Valid() && (m.RgbMsg? || m.DepthMsg?)
      modifies `images, `last, `stats
      ensures var t := Take(geo, cfg, old(View()), m, 0, wall);
              ok == t.Some? && (ok ==> View() == t.value.0 && drains == t.value.1)
    {
      hide Stamped, PairAll;
      var topic := TopicOf(m);
      Count(topic);
      match Stamped(if m.RgbMsg? then last.rgb else last.depth, m.image.stamp, m.image.id)
      case Refused =>
        return false, false;
      case Again =>
        stats := stats.(duplicate := stats.duplicate + multiset{topic});
        return true, false;
      case New(stream, missed) =>
        last := if m.RgbMsg? then last.(rgb := stream) else last.(depth := stream);
        stats := Missing(stats, topic, missed);
        if m.RgbMsg? {
          images := images.(rgb := images.rgb + [m.image]);
          if |images.rgb| > cfg.imageBuffer {
            images := images.(rgb := images.rgb[1..]);
            stats := Counted(stats, RgbTopic);
          }
        } else {
          images := images.(depth := images.depth + [m.image]);
          if |images.depth| > cfg.imageBuffer {
            images := images.(depth := images.depth[1..]);
            stats := Counted(stats, DepthTopic);
          }
        }
        Pair(wall);
        return true, true;
    }

    method IngestOdometry(x: Odometry, arrival: int) returns (ok: bool, drains: bool)
      requires cfg.Valid()
      modifies `odoms, `last, `stats, `notes, `log
      ensures var t := Take(geo, cfg, old(View()), OdomMsg(x), arrival, 0.0);
              ok == t.Some? && (ok ==> View() == t.value.0 && drains == t.value.1)
    {
      hide Stamped, TakeOdom;
      Count(OdomTopic);
      match Stamped(last.odom, x.stamp, x.id)
      case Refused =>
        return false, false;
      case Again =>
        stats := stats.(duplicate := stats.duplicate + multiset{OdomTopic});
        return true, false;
      case New(stream, missed) =>
        ok := AcceptOdometry(x, stream, missed, arrival);
        return ok, true;
    }

    /** Odometry with a new stamp. */
    method AcceptOdometry(x: Odometry, stream: Stream, missed: nat, arrival: int) returns (ok: bool)
      requires cfg.Valid()
      modifies `odoms, `last, `stats, `notes, `log
      ensures var t := TakeOdom(geo, cfg, old(View()), x, stream, missed, arrival);
              ok == t.Some? && (ok ==> View() == t.value)
    {
      hide OdometryWindow.Drops, Aged, Age, Missing;
      last := last.(odom := stream);
      stats := Missing(stats, OdomTopic, missed);
      if x.frame != cfg.world || x.child != cfg.body || geo.matrix(x.pose).None? {
        return false;
      }
      odoms := odoms + [x];
      TrimOdometry(x.stamp - cfg.Memory());
      NoteAge(Age(arrival, x.stamp));
      Write(arrival, OdomMsg(x));
      return true;
    }

    method NoteAge(age: real)
      modifies `notes
      ensures notes == Aged(old(notes), age)
    {
      notes := notes.(lioAge := Max(notes.lioAge, age));
    }

    /** ingest */
    method IngestMessage(m: Message, arrival: int, wall: real) returns (ok: bool)
      requires cfg.Valid()
      modifies this
      ensures ok == Ingest(geo, cfg, old(View()), m, arrival, wall).Some?
      ensures ok ==> View() == Ingest(geo, cfg, old(View()), m, arrival, wall).value
    {
      var drains;
      ok, drains := Store(m, arrival, wall);
      hide Take, Drain;
      if ok && drains {
        ok := DrainPairs(wall, false);
      }
    }

    /** Everything of ingest but the last line. */
    method Store(m: Message, arrival: int, wall: real) returns (ok: bool, drains: bool)
      requires cfg.Valid()
      modifies this
      ensures var t := Take(geo, cfg, old(View()), m, arrival, wall);
              ok == t.Some? && (ok ==> View() == t.value.0 && drains == t.value.1)
    {
      hide Stamped, PairAll, Learned;
      match m
      case RgbMsg(_) => ok, drains := IngestImage(m, wall);
      case DepthMsg(_) => ok, drains := IngestImage(m, wall);
      case OdomMsg(x) => ok, drains := IngestOdometry(x, arrival);
      case RgbInfoMsg(x) =>
        Count(RgbInfoTopic);
        infos := infos.(rgb := Kept(infos.rgb, x, INFO_BUFFER));
        Write(arrival, m);
        return true, true;
      case DepthInfoMsg(x) =>
        Count(DepthInfoTopic);
        infos := infos.(depth := Kept(infos.depth, x, INFO_BUFFER));
        Write(arrival, m);
        return true, true;
      case StaticMsg(ts) =>
        Count(StaticTopic);
        ok := LearnStatics(ts);
        Write(arrival, StaticMsg(statics.known));
        return ok, true;
      case DynamicMsg(_) =>
        Count(DynamicTopic);
        Write(arrival, m);
        return true, false;
      case OtherMsg(name) =>
        Count(OtherTopic(name));
        Write(arrival, m);
        return true, false;
    }

    method Count(topic: Topic)
      modifies `stats
      ensures stats == old(stats).(received := old(stats).received + multiset{topic})
    {
      stats := stats.(received := stats.received + multiset{topic});
    }

    method Write(time: int, m: Message)
      modifies `log
      ensures log == old(log) + [Record(time, Raw(m))]
    {
      log := log + [Record(time, Raw(m))];
    }
  }

  /** One invalid transform fails the message, whatever follows it. */
  lemma {:induction false} FailsFrom(g: Geometry, s: Statics, ts: seq<Transform>, n: nat)
    requires n <= |ts| && Learned(g, s, ts[..n]).None?
    ensures Learned(g, s, ts).None?
    decreases |ts|
  {
    if n == |ts| {
      assert ts[..n] == ts;
    } else {
      assert ts[..|ts| - 1][..n] == ts[..n];
      FailsFrom(g, s, ts[..|ts| - 1], n);
    }
  }
}
