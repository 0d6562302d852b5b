/** The offline validator of rgbd_capture/capture.py: frame_groups and check_bag.  None stands
    for the exception that refuses the bag. */
module RgbdValidator {
  import opened Basics
  import opened RgbdTypes
  import opened RgbdGroup
  import opened RgbdEngine

  // ---------------------------------------------------------------- reading a bag

  /** A bag is read in the order of time, records of equal time as they were written. */
  function Inserted(s: seq<Record>, x: Record): seq<Record> {
    if s == [] || s[|s| - 1].time <= x.time then s + [x] else Inserted(s[..|s| - 1], x) + [s[|s| - 1]]
  }

  function ByTime(s: seq<Record>): seq<Record> {
    if s == [] then [] else Inserted(ByTime(s[..|s| - 1]), s[|s| - 1])
  }

  predicate IsGroup(i: Item) {
    i.RgbPart? || i.DepthPart? || i.RgbInfoPart? || i.DepthInfoPart? || i.PosePart? || i.ExtPart? || i.MetaPart?
  }

  predicate IsOdom(i: Item) { i.Raw? && i.msg.OdomMsg? }

  predicate IsStatic(i: Item) { i.Raw? && i.msg.StaticMsg? }

  predicate IsDynamic(i: Item) { i.Raw? && i.msg.DynamicMsg? }

  predicate IsSession(i: Item) { i.Session? }

  predicate IsReport(i: Item) { i.Report? }

  function Select(s: seq<Record>, p: Item -> bool): (r: seq<Record>)
    ensures forall x :: x in r ==> p(x.item)
  {
    if s == [] then []
    else
      var before, x := Select(s[..|s| - 1], p), s[|s| - 1];
      if p(x.item) then before + [x] else before
  }

  function Read(bag: seq<Record>, p: Item -> bool): seq<Record> {
    ByTime(Select(bag, p))
  }

  // ---------------------------------------------------------------- frame_groups

  /** The dictionary from topic to message, one slot a topic. */
  datatype Slots = Slots(rgb: Option<Image>, depth: Option<Image>, rgbInfo: Option<Info>, depthInfo: Option<Info>,
                         pose: Option<StampedPose>, ext: Option<Transform>, meta: Option<Meta>)

  const NOTHING := Slots(None, None, None, None, None, None, None)

  /** None: the topic is there already. */
  function Filled(s: Slots, i: Item): Option<Slots> {
    match i
    case RgbPart(x) => if s.rgb.Some? then None else Some(s.(rgb := Some(x)))
    case DepthPart(x) => if s.depth.Some? then None else Some(s.(depth := Some(x)))
    case RgbInfoPart(x) => if s.rgbInfo.Some? then None else Some(s.(rgbInfo := Some(x)))
    case DepthInfoPart(x) => if s.depthInfo.Some? then None else Some(s.(depthInfo := Some(x)))
    case PosePart(x) => if s.pose.Some? then None else Some(s.(pose := Some(x)))
    case ExtPart(x) => if s.ext.Some? then None else Some(s.(ext := Some(x)))
    case MetaPart(x) => if s.meta.Some? then None else Some(s.(meta := Some(x)))
    case _ => Some(s)
  }

  function Completed(s: Slots): Option<Frame> {
    if s.rgb.Some? && s.depth.Some? && s.rgbInfo.Some? && s.depthInfo.Some? && s.pose.Some? && s.ext.Some?
      && s.meta.Some?
    then Some(Frame(s.rgb.value, s.depth.value, s.rgbInfo.value, s.depthInfo.value, s.pose.value, s.ext.value,
                    s.meta.value))
    else None
  }

  datatype Parse = Parse(slots: Slots, current: Option<int>, done: seq<(int, Frame)>)

  /** A group is closed by a message of another time. */
  function Closed(p: Parse): Option<Parse>
    requires p.current.Some?
  {
    var f := Completed(p.slots);
    if f.None? then None else Some(Parse(NOTHING, p.current, p.done + [(p.current.value, f.value)]))
  }

  function Fed(p: Parse, x: Record): Option<Parse> {
    var q := if p.current.Some? && x.time != p.current.value then Closed(p) else Some(p);
    if q.None? then None
    else
      var s := Filled(q.value.slots, x.item);
      if s.None? then None else Some(Parse(s.value, Some(x.time), q.value.done))
  }

  function Parsed(r: seq<Record>): Option<Parse> {
    if r == [] then Some(Parse(NOTHING, None, []))
    else
      var before := Parsed(r[..|r| - 1]);
      if before.None? then None else Fed(before.value, r[|r| - 1])
  }

  function FrameGroups(r: seq<Record>): Option<seq<(int, Frame)>> {
    var p := Parsed(r);
    if p.None? then None
    else if p.value.slots == NOTHING || p.value.current.None? then Some(p.value.done)
    else
      var q := Closed(p.value);
      if q.None? then None else Some(q.value.done)
  }

  // ---------------------------------------------------------------- check_bag

  function OdomsIn(r: seq<Record>): seq<Odometry> {
    if r == [] then []
    else
      var before, i := OdomsIn(r[..|r| - 1]), r[|r| - 1].item;
      if IsOdom(i) then before + [i.msg.odom] else before
  }

  function StaticsIn(r: seq<Record>): seq<seq<Transform>> {
    if r == [] then []
    else
      var before, i := StaticsIn(r[..|r| - 1]), r[|r| - 1].item;
      if IsStatic(i) then before + [i.msg.transforms] else before
  }

  function DynamicsIn(r: seq<Record>): seq<seq<Transform>> {
    if r == [] then []
    else
      var before, i := DynamicsIn(r[..|r| - 1]), r[|r| - 1].item;
      if IsDynamic(i) then before + [i.msg.transforms] else before
  }

  /** The odometry by its stamp; None if it goes back, or is not of the configured frames. */
  function OdomTable(g: Geometry, cfg: Config, h: seq<Odometry>): Option<map<int, Odometry>> {
    if h == [] then Some(map[])
    else
      var before, x := OdomTable(g, cfg, h[..|h| - 1]), h[|h| - 1];
      var last := if |h| == 1 then -1 else h[|h| - 2].stamp;
      if before.None? || x.stamp <= last || x.frame != cfg.world || x.child != cfg.body || g.matrix(x.pose).None?
        then None
      else Some(before.value[x.stamp := x])
  }

  function Buffered(m: map<string, Transform>, ts: seq<Transform>): map<string, Transform> {
    if ts == [] then m else Buffered(m, ts[..|ts| - 1])[ts[|ts| - 1].child := ts[|ts| - 1]]
  }

  /** The static tf buffer after all messages. */
  function Replayed(msgs: seq<seq<Transform>>): map<string, Transform> {
    if msgs == [] then map[] else Buffered(Replayed(msgs[..|msgs| - 1]), msgs[|msgs| - 1])
  }

  predicate IsEdge(cfg: Config, t: Transform) { t.frame == cfg.world && t.child == cfg.body }

  /** Every world-to-body edge is a pose, and there is one. */
  predicate EdgesValid(g: Geometry, cfg: Config, msgs: seq<seq<Transform>>) {
    && (forall m :: m in msgs ==> forall t :: t in m && IsEdge(cfg, t) ==> g.matrix(t.pose).Some?)
    && (exists m :: m in msgs && exists t :: t in m && IsEdge(cfg, t))
  }

  /** The checks on one frame but the one against the recorded transforms. */
  predicate CheckFrame(g: Geometry, cfg: Config, odoms: map<int, Odometry>, count: nat, previous: int, ns: int,
                       f: Frame) {
    && ns > previous && f.meta.frameIndex == count
    && f.rgb.id == count && f.depth.id == count && f.rgbInfo.id == count && f.depthInfo.id == count
       && f.pose.id == count && f.ext.id == count
    && ns == f.rgb.stamp == f.pose.stamp == f.meta.rgbStamp && f.ext.stamp == ns
    && f.depth.stamp == f.meta.depthStamp && f.rgbInfo.stamp == f.rgb.stamp && f.depthInfo.stamp == f.depth.stamp
    && f.meta.delta == f.meta.depthStamp - ns && f.meta.query == cfg.Target(ns)
       && Seconds(Distance(f.meta.depthStamp, ns)) <= cfg.rgbdSlop
    && f.pose.frame == cfg.world && f.ext.frame == cfg.body && f.ext.child == cfg.optical
    && f.meta.scale == DepthScale(cfg, f.depth.encoding) && f.meta.encoding == f.depth.encoding
    && CheckQuality(g, cfg, f) && CheckPose(g, cfg, odoms, f)
  }

  /** The share of valid depth pixels is nearly the one annotated, and not 0. */
  predicate CheckQuality(g: Geometry, cfg: Config, f: Frame) {
    var valid := g.Quality(f.rgb, f.depth, f.rgbInfo, f.depthInfo, cfg.optical);
    valid.Some? && Abs(valid.value - f.meta.valid) <= 0.000001 && valid.value != 0.0
  }

  /** The camera pose is nearly reproduced from the recorded odometry and the extrinsics. */
  predicate CheckPose(g: Geometry, cfg: Config, odoms: map<int, Odometry>, f: Frame) {
    && f.meta.before in odoms && f.meta.after in odoms
    && var a, b := odoms[f.meta.before], odoms[f.meta.after];
    && Seconds(b.stamp - a.stamp) <= cfg.maxOdomGap
    && var body := Interpolated(g, a, b, f.meta.query);
    && var ext, camera := g.matrix(f.ext.pose), g.matrix(f.pose.pose);
    && body.Some? && ext.Some? && camera.Some?
    && AllClose(camera.value, g.compose(body.value.0, ext.value), 0.000001)
    && Abs(body.value.1 - f.meta.alpha) <= 0.000000001
  }

  /** The extrinsic of a frame is nearly the recorded one. */
  predicate ExtAgrees(g: Geometry, expected: Matrix, f: Frame) {
    g.matrix(f.ext.pose).Some? && AllClose(g.matrix(f.ext.pose).value, expected, 0.0000001)
  }

  predicate AllAgree(g: Geometry, expected: Matrix, groups: seq<(int, Frame)>) {
    forall k :: 0 <= k < |groups| ==> ExtAgrees(g, expected, groups[k].1)
  }

  predicate CheckFrames(g: Geometry, cfg: Config, odoms: map<int, Odometry>, groups: seq<(int, Frame)>) {
    groups == [] ||
      var n := |groups| - 1;
      && CheckFrames(g, cfg, odoms, groups[..n])
      && CheckFrame(g, cfg, odoms, n, if n == 0 then -1 else groups[n - 1].0, groups[n].0, groups[n].1)
  }

  /** The extrinsic that the recorded static transforms end with. */
  function RecordedExtrinsic(g: Geometry, cfg: Config, msgs: seq<seq<Transform>>): Option<Matrix> {
    var ext := g.lookup(Replayed(msgs), cfg.body, cfg.optical);
    if ext.None? then None else g.matrix(ext.value.pose)
  }

  /** The checks on what was recorded, once session and report are read. */
  function CheckContents(g: Geometry, cfg: Config, reported: nat, h: seq<Odometry>, statics: seq<seq<Transform>>,
                         dynamics: seq<seq<Transform>>, groups: Option<seq<(int, Frame)>>): Option<nat>
  {
    var odoms := OdomTable(g, cfg, h);
    if odoms.None? || dynamics == [] || statics == [] then None
    else
      var expected := RecordedExtrinsic(g, cfg, statics);
      if expected.None? || !EdgesValid(g, cfg, dynamics) then None
      else if groups.None? || !CheckFrames(g, cfg, odoms.value, groups.value) then None
      else if !AllAgree(g, expected.value, groups.value) then None
      else if reported != |groups.value| || groups.value == [] then None
      else Some(|groups.value|)
  }

  /** read_session and Config.validate */
  predicate SessionReadable(sessions: seq<Record>) {
    |sessions| == 1 && sessions[0].item.Session? && sessions[0].item.schema == 1 && sessions[0].item.cfg.Valid()
  }

  /** The recorder reported, and no error. */
  predicate ReportClean(reports: seq<Record>) {
    && |reports| == 1 && reports[0].item.Report? && !reports[0].item.error
    && (reports[0].item.status == "RECORDED" || reports[0].item.status == "PASS")
  }

  /** The topic of a record in the bag. */
  function TopicName(i: Item): string {
    match i
    case Raw(m) =>
      (match m
       case RgbMsg(_) => "/camera/color/image_raw"
       case DepthMsg(_) => "/camera/aligned_depth_to_color/image_raw"
       case RgbInfoMsg(_) => "/camera/color/camera_info"
       case DepthInfoMsg(_) => "/camera/aligned_depth_to_color/camera_info"
       case OdomMsg(_) => "/lio/odometry"
       case StaticMsg(_) => "/tf_static"
       case DynamicMsg(_) => "/tf"
       case OtherMsg(name) => name)
    case RgbPart(_) => "/dataset/rgb/image_raw"
    case DepthPart(_) => "/dataset/depth/image_raw"
    case RgbInfoPart(_) => "/dataset/rgb/camera_info"
    case DepthInfoPart(_) => "/dataset/depth/camera_info"
    case PosePart(_) => "/dataset/camera_pose"
    case ExtPart(_) => "/dataset/body_to_camera"
    case MetaPart(_) => "/dataset/frame"
    case Session(_, _, _) => "/dataset/session"
    case Report(_, _, _, _) => "/dataset/report"
  }

  /** get_message_count */
  function MessageCount(bag: seq<Record>, topic: string): nat {
    if bag == [] then 0
    else MessageCount(bag[..|bag| - 1], topic) + if TopicName(bag[|bag| - 1].item) == topic then 1 else 0
  }

  /** The recorder counted raw messages, and the merged bag holds as many. */
  predicate RawsCounted(bag: seq<Record>, raws: map<string, nat>) {
    raws != map[] && forall t :: t in raws ==> MessageCount(bag, t) == raws[t]
  }

  /** The number of frames of an accepted bag. */
  function CheckBag(g: Geometry, bag: seq<Record>): Option<nat> {
    var sessions, reports := Read(bag, IsSession), Read(bag, IsReport);
    if !SessionReadable(sessions) || !ReportClean(reports) then None
    else if sessions[0].item.raw && !RawsCounted(bag, reports[0].item.raws) then None
    else
      CheckContents(g, sessions[0].item.cfg, reports[0].item.frames, OdomsIn(Read(bag, IsOdom)),
                    StaticsIn(Read(bag, IsStatic)), DynamicsIn(Read(bag, IsDynamic)), FrameGroups(Read(bag, IsGroup)))
  }

  // ---------------------------------------------------------------- the loops

  method ParseGroups(r: seq<Record>) returns (groups: Option<seq<(int, Frame)>>)
    ensures groups == FrameGroups(r)
  {
    var p := Parse(NOTHING, None, []);
    for i := 0 to |r|
      invariant Parsed(r[..i]) == Some(p)
    {
      assert r[..i + 1][..i] == r[..i];
      if p.current.Some? && r[i].time != p.current.value {
        var f := Completed(p.slots);
        if f.None? {
          ParseFails(r, i + 1);
          return None;
        }
        p := Parse(NOTHING, p.current, p.done + [(p.current.value, f.value)]);
      }
      var s := Filled(p.slots, r[i].item);
      if s.None? {
        ParseFails(r, i + 1);
        return None;
      }
      p := Parse(s.value, Some(r[i].time), p.done);
    }
    assert r[..|r|] == r;
    if p.slots == NOTHING || p.current.None? {
      return Some(p.done);
    }
    var f := Completed(p.slots);
    if f.None? {
      return None;
    }
    return Some(p.done + [(p.current.value, f.value)]);
  }

  lemma {:induction false} ParseFails(r: seq<Record>, n: nat)
    requires n <= |r| && Parsed(r[..n]).None?
    ensures Parsed(r).None?
    decreases |r|
  {
    if n == |r| {
      assert r[..n] == r;
    } else {
      assert r[..|r| - 1][..n] == r[..n];
      ParseFails(r[..|r| - 1], n);
    }
  }

  method TabulateOdometry(g: Geometry, cfg: Config, h: seq<Odometry>) returns (table: Option<map<int, Odometry>>)
    ensures table == OdomTable(g, cfg, h)
  {
    var odoms: map<int, Odometry> := map[];
    var last := -1;
    for i := 0 to |h|
      invariant OdomTable(g, cfg, h[..i]) == Some(odoms)
      invariant last == if i == 0 then -1 else h[i - 1].stamp
    {
      assert h[..i + 1][..i] == h[..i];
      if h[i].stamp <= last || h[i].frame != cfg.world || h[i].child != cfg.body || g.matrix(h[i].pose).None? {
        TableFails(g, cfg, h, i + 1);
        return None;
      }
      odoms, last := odoms[h[i].stamp := h[i]], h[i].stamp;
    }
    assert h[..|h|] == h;
    return Some(odoms);
  }

  lemma {:induction false} TableFails(g: Geometry, cfg: Config, h: seq<Odometry>, n: nat)
    requires n <= |h| && OdomTable(g, cfg, h[..n]).None?
    ensures OdomTable(g, cfg, h).None?
    decreases |h|
  {
    if n == |h| {
      assert h[..n] == h;
    } else {
      assert h[..|h| - 1][..n] == h[..n];
      TableFails(g, cfg, h[..|h| - 1], n);
    }
  }

  method CheckAllFrames(g: Geometry, cfg: Config, odoms: map<int, Odometry>, expected: Matrix,
                        groups: seq<(int, Frame)>)
    returns (ok: bool)
    ensures ok == (CheckFrames(g, cfg, odoms, groups) && AllAgree(g, expected, groups))
  {
    hide CheckFrame, ExtAgrees;
    var previous := -1;
    for count := 0 to |groups|
      invariant CheckFrames(g, cfg, odoms, groups[..count]) && AllAgree(g, expected, groups[..count])
      invariant previous == if count == 0 then -1 else groups[count - 1].0
    {
      assert groups[..count + 1][..count] == groups[..count];
      if !CheckFrame(g, cfg, odoms, count, previous, groups[count].0, groups[count].1) {
        FramesFail(g, cfg, odoms, groups, count + 1);
        return false;
      }
      if !ExtAgrees(g, expected, groups[count].1) {
        return false;
      }
      previous := groups[count].0;
    }
    assert groups[..|groups|] == groups;
    return true;
  }

  lemma {:induction false} FramesFail(g: Geometry, cfg: Config, odoms: map<int, Odometry>, groups: seq<(int, Frame)>,
                                      n: nat)
    requires n <= |groups| && !CheckFrames(g, cfg, odoms, groups[..n])
    ensures !CheckFrames(g, cfg, odoms, groups)
    decreases |groups|
  {
    hide CheckFrame;
    if n == |groups| {
      assert groups[..n] == groups;
    } else {
      assert groups[..|groups| - 1][..n] == groups[..n];
      FramesFail(g, cfg, odoms, groups[..|groups| - 1], n);
    }
  }

  /** any(bag.get_message_count(t) != count for t, count in counts.items()) */
  method CountRaws(bag: seq<Record>, raws: map<string, nat>) returns (ok: bool)
    ensures ok == RawsCounted(bag, raws)
  {
    if raws == map[] {
      return false;
    }
    var left := raws;
    while left != map[]
      invariant left.Keys <= raws.Keys
      invariant forall t :: t in raws && t !in left ==> MessageCount(bag, t) == raws[t]
      decreases |left|
    {
      var t :| t in left;
      if MessageCount(bag, t) != raws[t] {
        return false;
      }
      left := left - {t};
    }
    return true;
  }

  /** check_bag */
  method Validate(g: Geometry, bag: seq<Record>) returns (frames: Option<nat>)
    ensures frames == CheckBag(g, bag)
  {
    hide Read, OdomTable, FrameGroups, CheckFrames, AllAgree, RawsCounted, EdgesValid, RecordedExtrinsic, OdomsIn,
         StaticsIn, DynamicsIn, Config.Valid;
    var sessions, reports := Read(bag, IsSession), Read(bag, IsReport);
    if !SessionReadable(sessions) || !ReportClean(reports) {
      return None;
    }
    if sessions[0].item.raw {
      var counted := CountRaws(bag, reports[0].item.raws);
      if !counted {
        return None;
      }
    }
    var cfg := sessions[0].item.cfg;
    var odoms := TabulateOdometry(g, cfg, OdomsIn(Read(bag, IsOdom)));
    var statics, dynamics := StaticsIn(Read(bag, IsStatic)), DynamicsIn(Read(bag, IsDynamic));
    if odoms.None? || dynamics == [] || statics == [] {
      return None;
    }
    var expected := RecordedExtrinsic(g, cfg, statics);
    if expected.None? || !EdgesValid(g, cfg, dynamics) {
      return None;
    }
    var groups := ParseGroups(Read(bag, IsGroup));
    if groups.None? {
      return None;
    }
    var ok := CheckAllFrames(g, cfg, odoms.value, expected.value, groups.value);
    if !ok || reports[0].item.frames != |groups.value| || groups.value == [] {
      return None;
    }
    return Some(|groups.value|);
  }
}
