/** The engine of rgbd_capture/core.py: one message in, whatever it completes out. */
module RgbdEngine {
  import opened Basics
  import opened RgbdTypes
  import opened RgbdGroup
  import RgbdPairing
  import RateLimiter
  import OdometryWindow

  datatype Message =
    | RgbMsg(image: Image)
    | DepthMsg(image: Image)
    | RgbInfoMsg(info: Info)
    | DepthInfoMsg(info: Info)
    | OdomMsg(odom: Odometry)
    | StaticMsg(transforms: seq<Transform>)
    | DynamicMsg(transforms: seq<Transform>)
    | OtherMsg(topic: string)

  datatype Topic =
    RgbTopic | DepthTopic | RgbInfoTopic | DepthInfoTopic | OdomTopic | StaticTopic | DynamicTopic
    | OtherTopic(name: string)

  function TopicOf(m: Message): Topic {
    match m
    case RgbMsg(_) => RgbTopic
    case DepthMsg(_) => DepthTopic
    case RgbInfoMsg(_) => RgbInfoTopic
    case DepthInfoMsg(_) => DepthInfoTopic
    case OdomMsg(_) => OdomTopic
    case StaticMsg(_) => StaticTopic
    case DynamicMsg(_) => DynamicTopic
    case OtherMsg(name) => OtherTopic(name)
  }

  /** What the bag holds: messages passed on, the seven parts of a frame, and two summaries. */
  datatype Item =
    | Raw(msg: Message)
    | RgbPart(image: Image)
    | DepthPart(image: Image)
    | RgbInfoPart(info: Info)
    | DepthInfoPart(info: Info)
    | PosePart(pose: StampedPose)
    | ExtPart(ext: Transform)
    | MetaPart(meta: Meta)
    | Session(schema: int, cfg: Config, raw: bool)
    | Report(frames: nat, error: bool, status: string, raws: map<string, nat>)

  datatype Record = Record(time: int, item: Item)

  /** The seven messages of a frame, in the order of GROUP. */
  function Parts(f: Frame): seq<Item> {
    [RgbPart(f.rgb), DepthPart(f.depth), RgbInfoPart(f.rgbInfo), DepthInfoPart(f.depthInfo), PosePart(f.pose),
     ExtPart(f.ext), MetaPart(f.meta)]
  }

  function Written(f: Frame): (r: seq<Record>)
    ensures |r| == 7
  {
    seq(7, i requires 0 <= i < 7 => Record(f.rgb.stamp, Parts(f)[i]))
  }

  datatype Pending = Pending(rgb: Image, depth: Image, queued: real)

  datatype Images = Images(rgb: seq<Image>, depth: seq<Image>, nextDue: Option<int>, pending: seq<Pending>)

  datatype Infos = Infos(rgb: seq<Info>, depth: seq<Info>)

  /** The last set of static transforms, the tf2 buffer, and the extrinsic of the session. */
  datatype Statics = Statics(known: seq<Transform>, buffer: map<string, Transform>, accepted: Option<Matrix>)

  datatype Stream = Stream(stamp: Option<int>, id: Option<nat>)

  datatype Streams = Streams(rgb: Stream, depth: Stream, odom: Stream)

  datatype Stats = Stats(received: multiset<Topic>, duplicate: multiset<Topic>, gaps: multiset<Topic>,
                         unpaired: multiset<Topic>, paired: nat, rateFiltered: nat, frames: nat,
                         dropped: multiset<Reason>)

  /** What the report of a session adds to the counts. */
  datatype Notes = Notes(firstFrame: Option<int>, lastFrame: Option<int>, frameWall: Option<real>, lioAge: real,
                         lastError: Option<Reason>)

  datatype EngineState = EngineState(images: Images, infos: Infos, odoms: seq<Odometry>, statics: Statics,
                                     last: Streams, stats: Stats, notes: Notes, log: seq<Record>, frames: seq<Frame>)

  // ---------------------------------------------------------------- pairing and rate limit

  function Counted(s: Stats, unpaired: Topic): Stats { s.(unpaired := s.unpaired + multiset{unpaired}) }

  /** One turn of the loop of _pair. */
  function PairTurn(cfg: Config, s: EngineState, wall: real): (r: EngineState)
    requires cfg.Valid() && s.images.rgb != [] && s.images.depth != []
    ensures |r.images.rgb| + |r.images.depth| < |s.images.rgb| + |s.images.depth|
  {
    var a, b := s.images.rgb, s.images.depth;
    var t := a[0].stamp;
    var k := RgbdPairing.Nearest(b, t);
    if Distance(b[k].stamp, t) <= cfg.Slop() then
      var left := s.images.(rgb := a[1..], depth := RgbdPairing.Without(b, k));
      var stats := s.stats.(paired := s.stats.paired + 1);
      if !RateLimiter.Due(s.images.nextDue, t)
        then s.(images := left, stats := stats.(rateFiltered := stats.rateFiltered + 1))
      else
        var due := RateLimiter.NextDue(s.images.nextDue, t, cfg.Period());
        s.(images := left.(nextDue := Some(due), pending := left.pending + [Pending(a[0], b[k], wall)]), stats := stats)
    else if b[0].stamp < t - cfg.Slop() then
      s.(images := s.images.(depth := b[1..]), stats := Counted(s.stats, DepthTopic))
    else
      s.(images := s.images.(rgb := a[1..]), stats := Counted(s.stats, RgbTopic))
  }

  function PairAll(cfg: Config, s: EngineState, wall: real): EngineState
    requires cfg.Valid()
    decreases |s.images.rgb| + |s.images.depth|
  {
    if s.images.rgb == [] || s.images.depth == [] then s else PairAll(cfg, PairTurn(cfg, s, wall), wall)
  }

  // ---------------------------------------------------------------- draining

  function SourcesOf(s: EngineState): Sources {
    Sources(s.odoms, s.infos.rgb, s.infos.depth, s.statics.buffer, s.statics.accepted)
  }

  function Dropped(s: EngineState, reason: Reason): (r: EngineState)
    requires s.images.pending != []
    ensures |r.images.pending| < |s.images.pending|
  {
    s.(images := s.images.(pending := s.images.pending[1..]),
       stats := s.stats.(dropped := s.stats.dropped + multiset{reason}),
       notes := s.notes.(lastError := Some(reason)))
  }

  function Noted(n: Notes, stamp: int, wall: real): Notes {
    n.(firstFrame := if n.firstFrame.None? then Some(stamp) else n.firstFrame,
       lastFrame := Some(stamp), frameWall := Some(wall))
  }

  function Emitted(s: EngineState, f: Frame, extrinsic: Matrix, wall: real): (r: EngineState)
    requires s.images.pending != []
    ensures |r.images.pending| < |s.images.pending|
  {
    s.(images := s.images.(pending := s.images.pending[1..]), statics := s.statics.(accepted := Some(extrinsic)),
       stats := s.stats.(frames := s.stats.frames + 1), notes := Noted(s.notes, f.rgb.stamp, wall),
       log := s.log + Written(f), frames := s.frames + [f])
  }

  function FrontOutcome(g: Geometry, cfg: Config, s: EngineState): Outcome
    requires cfg.Valid() && s.images.pending != []
  {
    MakeGroup(g, cfg, SourcesOf(s), s.stats.frames, s.images.pending[0].rgb, s.images.pending[0].depth)
  }

  /** None: the session is aborted. */
  function Drain(g: Geometry, cfg: Config, s: EngineState, wall: real, final: bool): Option<EngineState>
    requires cfg.Valid()
    decreases |s.images.pending|
  {
    if s.images.pending == [] then Some(s)
    else
      match FrontOutcome(g, cfg, s)
      case Late(reason) =>
        if !final && wall - s.images.pending[0].queued < cfg.wait then Some(s)
        else Drain(g, cfg, Dropped(s, reason), wall, final)
      case Bad => Drain(g, cfg, Dropped(s, InvalidRgbd), wall, final)
      case Changed => None
      case Made(f, m) => Drain(g, cfg, Emitted(s, f, m, wall), wall, final)
  }

  // ---------------------------------------------------------------- one message

  /** The checks on a stamped topic: refused, a duplicate, or new. */
  datatype Arrival = Refused | Again | New(stream: Stream, missed: nat)

  function Stamped(l: Stream, stamp: int, id: nat): Arrival {
    if stamp <= 0 || (l.stamp.Some? && stamp < l.stamp.value) then Refused
    else if l.stamp == Some(stamp) then Again
    else New(Stream(Some(stamp), Some(id)), if l.id.Some? && id > l.id.value + 1 then id - l.id.value - 1 else 0)
  }

  function Missing(s: Stats, t: Topic, n: nat): Stats { s.(gaps := s.gaps[t := s.gaps[t] + n]) }

  const INFO_BUFFER := 240

  function Kept<T>(q: seq<T>, x: T, limit: nat): (r: seq<T>)
    ensures limit > 0 && |q| <= limit ==> 0 < |r| <= limit
  {
    if |q| + 1 > limit then (q + [x])[1..] else q + [x]
  }

  /** self.static[child] = t: a known child keeps its place. */
  function Put(known: seq<Transform>, t: Transform): seq<Transform> {
    if known == [] then [t]
    else if known[0].child == t.child then [t] + known[1..]
    else [known[0]] + Put(known[1..], t)
  }

  /** The transforms of one message, in turn; None if one is invalid. */
  function Learned(g: Geometry, s: Statics, ts: seq<Transform>): Option<Statics> {
    if ts == [] then Some(s)
    else
      var before, t := Learned(g, s, ts[..|ts| - 1]), ts[|ts| - 1];
      if before.None? || g.matrix(t.pose).None? || t.frame == "" || t.child == "" || t.frame == t.child then None
      else
        var b := before.value;
        Some(b.(known := Put(b.known, t), buffer := b.buffer[t.child := t]))
  }

  function Wrote(s: EngineState, time: int, m: Message): EngineState { s.(log := s.log + [Record(time, Raw(m))]) }

  function Received(s: EngineState, t: Topic): EngineState {
    s.(stats := s.stats.(received := s.stats.received + multiset{t}))
  }

  /** An image is queued; a full queue loses its oldest. */
  function RgbQueued(cfg: Config, s: EngineState, x: Image, l: Stream, missed: nat): EngineState {
    var q := s.images.rgb + [x];
    var stats := Missing(s.stats, RgbTopic, missed);
    var full := |q| > cfg.imageBuffer;
    s.(last := s.last.(rgb := l), images := s.images.(rgb := if full then q[1..] else q),
       stats := if full then Counted(stats, RgbTopic) else stats)
  }

  function DepthQueued(cfg: Config, s: EngineState, x: Image, l: Stream, missed: nat): EngineState {
    var q := s.images.depth + [x];
    var stats := Missing(s.stats, DepthTopic, missed);
    var full := |q| > cfg.imageBuffer;
    s.(last := s.last.(depth := l), images := s.images.(depth := if full then q[1..] else q),
       stats := if full then Counted(stats, DepthTopic) else stats)
  }

  /** How long a message was under way, in seconds. */
  function Age(arrival: int, stamp: int): real { (arrival - stamp) as real / 1000000000.0 }

  function Aged(n: Notes, age: real): Notes { n.(lioAge := Max(n.lioAge, age)) }

  function TakeOdom(g: Geometry, cfg: Config, s: EngineState, x: Odometry, l: Stream, missed: nat, arrival: int)
    : Option<EngineState>
    requires cfg.Valid()
  {
    if x.frame != cfg.world || x.child != cfg.body || g.matrix(x.pose).None? then None
    else
      var q := s.odoms + [x];
      var n := OdometryWindow.Drops(Times(q), x.stamp - cfg.Memory());
      var taken := s.(last := s.last.(odom := l), stats := Missing(s.stats, OdomTopic, missed), odoms := q[n..],
                      notes := Aged(s.notes, Age(arrival, x.stamp)));
      Some(Wrote(taken, arrival, OdomMsg(x)))
  }

  /** The part of ingest before draining; the flag says whether draining follows. */
  function Take(g: Geometry, cfg: Config, s0: EngineState, m: Message, arrival: int, wall: real)
    : Option<(EngineState, bool)>
    requires cfg.Valid()
  {
    var s := Received(s0, TopicOf(m));
    match m
    case RgbMsg(x) =>
      (match Stamped(s.last.rgb, x.stamp, x.id)
       case Refused => None
       case Again => Some((s.(stats := s.stats.(duplicate := s.stats.duplicate + multiset{RgbTopic})), false))
       case New(l, n) => Some((PairAll(cfg, RgbQueued(cfg, s, x, l, n), wall), true)))
    case DepthMsg(x) =>
      (match Stamped(s.last.depth, x.stamp, x.id)
       case Refused => None
       case Again => Some((s.(stats := s.stats.(duplicate := s.stats.duplicate + multiset{DepthTopic})), false))
       case New(l, n) => Some((PairAll(cfg, DepthQueued(cfg, s, x, l, n), wall), true)))
    case OdomMsg(x) =>
      (match Stamped(s.last.odom, x.stamp, x.id)
       case Refused => None
       case Again => Some((s.(stats := s.stats.(duplicate := s.stats.duplicate + multiset{OdomTopic})), false))
       case New(l, n) =>
         var r := TakeOdom(g, cfg, s, x, l, n, arrival);
         if r.None? then None else Some((r.value, true)))
    case RgbInfoMsg(x) =>
      Some((Wrote(s.(infos := s.infos.(rgb := Kept(s.infos.rgb, x, INFO_BUFFER))), arrival, m), true))
    case DepthInfoMsg(x) =>
      Some((Wrote(s.(infos := s.infos.(depth := Kept(s.infos.depth, x, INFO_BUFFER))), arrival, m), true))
    case StaticMsg(ts) =>
      var r := Learned(g, s.statics, ts);
      if r.None? then None else Some((Wrote(s.(statics := r.value), arrival, StaticMsg(r.value.known)), true))
    case DynamicMsg(_) => Some((Wrote(s, arrival, m), false))
    case OtherMsg(_) => Some((Wrote(s, arrival, m), false))
  }

  function Ingest(g: Geometry, cfg: Config, s: EngineState, m: Message, arrival: int, wall: real): Option<EngineState>
    requires cfg.Valid()
  {
    var r := Take(g, cfg, s, m, arrival, wall);
    if r.None? then None else if r.value.1 then Drain(g, cfg, r.value.0, wall, false) else Some(r.value.0)
  }

  function Initial(): EngineState {
    var none := Stream(None, None);
    EngineState(Images([], [], None, []), Infos([], []), [], Statics([], map[], None), Streams(none, none, none),
                Stats(multiset{}, multiset{}, multiset{}, multiset{}, 0, 0, 0, multiset{}),
                Notes(None, None, None, 0.0, None), [], [])
  }
}
