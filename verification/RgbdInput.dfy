/** What came in is what is counted, remembered and passed on, at every call of every session. */
module RgbdInput {
  import opened Basics
  import opened RgbdTypes
  import opened RgbdGroup
  import opened RgbdEngine
  import opened RgbdRuns
  import opened RgbdValidator
  import opened RgbdRecording
  import opened RgbdAgreement
  import opened RgbdReading
  import RgbdPairing
  import RgbdWaiting
  import RateLimiter
  import OdometryWindow

  // ---------------------------------------------------------------- what came in

  /** Images and odometry, whose stamps are checked. */
  predicate Dated(m: Message) { m.RgbMsg? || m.DepthMsg? || m.OdomMsg? }

  function StampOf(m: Message): int
    requires Dated(m)
  {
    if m.OdomMsg? then m.odom.stamp else m.image.stamp
  }

  function IdOf(m: Message): nat
    requires Dated(m)
  {
    if m.OdomMsg? then m.odom.id else m.image.id
  }

  /** Stamp and number of the last message of a topic that did not repeat the stamp before it. */
  function LastNew(calls: seq<Call>, t: Topic): Option<(int, nat)> {
    if calls == [] then None
    else
      var before, c := LastNew(calls[..|calls| - 1], t), calls[|calls| - 1];
      if !c.Message? || !Dated(c.msg) || TopicOf(c.msg) != t || Repeats(before, c.msg) then before
      else Some((StampOf(c.msg), IdOf(c.msg)))
  }

  predicate Repeats(last: Option<(int, nat)>, m: Message)
    requires Dated(m)
  {
    last.Some? && last.value.0 == StampOf(m)
  }

  /** How many messages came on a topic. */
  function CameOn(calls: seq<Call>, t: Topic): nat {
    if calls == [] then 0
    else
      var c := calls[|calls| - 1];
      CameOn(calls[..|calls| - 1], t) + if c.Message? && TopicOf(c.msg) == t then 1 else 0
  }

  /** How many of them repeated a stamp. */
  function RepeatedOn(calls: seq<Call>, t: Topic): nat {
    if calls == [] then 0
    else
      var before, c := calls[..|calls| - 1], calls[|calls| - 1];
      RepeatedOn(before, t)
        + if c.Message? && Dated(c.msg) && TopicOf(c.msg) == t && Repeats(LastNew(before, t), c.msg) then 1 else 0
  }

  /** How many numbers were skipped between the others. */
  function SkippedOn(calls: seq<Call>, t: Topic): nat {
    if calls == [] then 0
    else
      var before, c := calls[..|calls| - 1], calls[|calls| - 1];
      var last := LastNew(before, t);
      SkippedOn(before, t)
        + if c.Message? && Dated(c.msg) && TopicOf(c.msg) == t && last.Some? && !Repeats(last, c.msg)
             && IdOf(c.msg) > last.value.1 + 1
          then IdOf(c.msg) - last.value.1 - 1 else 0
  }

  /** All static transforms, in the order of their coming. */
  function SentBy(calls: seq<Call>): seq<Transform> {
    if calls == [] then []
    else
      var before, c := SentBy(calls[..|calls| - 1]), calls[|calls| - 1];
      if c.Message? && c.msg.StaticMsg? then before + c.msg.transforms else before
  }

  /** What is recorded as it came: everything but images and repeated odometry. */
  function Carried(calls: seq<Call>): seq<Call> {
    if calls == [] then []
    else
      var before, c := calls[..|calls| - 1], calls[|calls| - 1];
      if !c.Message? || c.msg.RgbMsg? || c.msg.DepthMsg?
         || (c.msg.OdomMsg? && Repeats(LastNew(before, OdomTopic), c.msg))
      then Carried(before)
      else Carried(before) + [c]
  }

  /** What a session of the dataset must be fed. */
  predicate Welcome(g: Geometry, cfg: Config, calls: seq<Call>, m: Message) {
    match m
    case OdomMsg(x) =>
      var last := LastNew(calls, OdomTopic);
      && x.stamp > 0 && (last.Some? ==> last.value.0 <= x.stamp)
      && (Repeats(last, m) || (x.frame == cfg.world && x.child == cfg.body && g.matrix(x.pose).Some?))
    case StaticMsg(ts) =>
      forall t :: t in ts ==> g.matrix(t.pose).Some? && t.frame != "" && t.child != "" && t.frame != t.child
    case _ =>
      m.RgbMsg? || m.DepthMsg? ==>
        StampOf(m) > 0 && var last := LastNew(calls, TopicOf(m)); last.Some? ==> last.value.0 <= StampOf(m)
  }

  // ---------------------------------------------------------------- what the engine remembers of it

  ghost predicate Remembers(l: Stream, last: Option<(int, nat)>) {
    if last.None? then l == Stream(None, None) else l == Stream(Some(last.value.0), Some(last.value.1))
  }

  ghost predicate Streamed(calls: seq<Call>, l: Streams) {
    && Remembers(l.rgb, LastNew(calls, RgbTopic)) && Remembers(l.depth, LastNew(calls, DepthTopic))
    && Remembers(l.odom, LastNew(calls, OdomTopic))
  }

  ghost predicate Counts(calls: seq<Call>, s: Stats) {
    forall t :: s.received[t] == CameOn(calls, t) && s.duplicate[t] == RepeatedOn(calls, t)
                && s.gaps[t] == SkippedOn(calls, t)
  }

  predicate IsRaw(i: Item) { i.Raw? }

  /** A record is what came, at its time; a static message becomes the list of all transforms
      sent so far, of each child frame the last. */
  ghost predicate Mirrors(x: Record, carried: seq<Call>, k: nat)
    requires k < |carried|
  {
    && carried[k].Message? && x.time == carried[k].arrival && x.item.Raw?
    && if carried[k].msg.StaticMsg?
       then x.item.msg.StaticMsg? && RosterOf(x.item.msg.transforms, SentBy(carried[..k + 1]))
       else x.item.msg == carried[k].msg
  }

  ghost predicate RosterOf(known: seq<Transform>, ts: seq<Transform>) {
    && (forall i, j :: 0 <= i < j < |known| ==> known[i].child != known[j].child)
    && (forall x :: x in known ==> exists i: nat :: IsLast(ts, i) && ts[i] == x)
    && (forall t :: t in ts ==> Names(known, t.child))
  }

  ghost predicate Names(known: seq<Transform>, child: string) { exists x :: x in known && x.child == child }

  ghost predicate PassedOn(calls: seq<Call>, log: seq<Record>) {
    var raws, carried := Select(log, IsRaw), Carried(calls);
    |raws| == |carried| && forall k :: 0 <= k < |raws| ==> Mirrors(raws[k], carried, k)
  }

  ghost predicate Heard(calls: seq<Call>, s: EngineState) {
    && Streamed(calls, s.last) && Counts(calls, s.stats) && PassedOn(calls, s.log)
    && LastSent(SentBy(calls), s.statics.buffer) && Listed(s.statics)
  }

  // ---------------------------------------------------------------- which messages are taken

  lemma {:induction false} LearnedIff(g: Geometry, s: Statics, ts: seq<Transform>)
    ensures Learned(g, s, ts).Some? <==>
      forall t :: t in ts ==> g.matrix(t.pose).Some? && t.frame != "" && t.child != "" && t.frame != t.child
  {
    if ts != [] {
      var init, t := ts[..|ts| - 1], ts[|ts| - 1];
      LearnedIff(g, s, init);
      assert forall x :: x in ts <==> x in init || x == t;
      hide Put;
    }
  }

  lemma RefusedIff(l: Stream, last: Option<(int, nat)>, m: Message)
    requires Dated(m) && Remembers(l, last)
    ensures var a := Stamped(l, StampOf(m), IdOf(m));
            && (a.Refused? <==> StampOf(m) <= 0 || (last.Some? && StampOf(m) < last.value.0))
            && (a.Again? ==> Repeats(last, m))
            && (a.New? ==> !Repeats(last, m) && a.stream == Stream(Some(StampOf(m)), Some(IdOf(m))))
            && (a.New? ==>
                  a.missed == if last.Some? && IdOf(m) > last.value.1 + 1 then IdOf(m) - last.value.1 - 1 else 0)
  {
  }

  lemma TakeOdomIff(g: Geometry, cfg: Config, s: EngineState, x: Odometry, l: Stream, missed: nat, arrival: int)
    requires cfg.Valid()
    ensures TakeOdom(g, cfg, s, x, l, missed, arrival).Some?
            <==> x.frame == cfg.world && x.child == cfg.body && g.matrix(x.pose).Some?
  {
    hide OdometryWindow.Drops, Aged, Age, Missing;
  }

  /** A message is taken exactly when it is welcome; a drain follows unless it was a repetition,
      or of no concern to the frames. */
  lemma TakenIff(g: Geometry, cfg: Config, calls: seq<Call>, s: EngineState, m: Message, arrival: int, wall: real)
    requires cfg.Valid() && Streamed(calls, s.last)
    ensures var r := Take(g, cfg, s, m, arrival, wall);
            && (r.Some? <==> Welcome(g, cfg, calls, m))
            && (r.Some? ==> (r.value.1 <==> !m.DynamicMsg? && !m.OtherMsg?
                                            && (Dated(m) ==> !Repeats(LastNew(calls, TopicOf(m)), m))))
  {
    hide Stamped, PairAll, Learned, Kept, TakeOdom, LastNew;
    var t := Received(s, TopicOf(m));
    match m
    case RgbMsg(x) => RefusedIff(s.last.rgb, LastNew(calls, RgbTopic), m);
    case DepthMsg(x) => RefusedIff(s.last.depth, LastNew(calls, DepthTopic), m);
    case OdomMsg(x) =>
      RefusedIff(s.last.odom, LastNew(calls, OdomTopic), m);
      var a := Stamped(s.last.odom, x.stamp, x.id);
      if a.New? {
        TakeOdomIff(g, cfg, t, x, a.stream, a.missed, arrival);
      }
    case StaticMsg(ts) => LearnedIff(g, t.statics, ts);
    case _ =>
  }

  // ---------------------------------------------------------------- one message

  function StreamOf(l: Streams, t: Topic): Stream
    requires t == RgbTopic || t == DepthTopic || t == OdomTopic
  {
    if t == RgbTopic then l.rgb else if t == DepthTopic then l.depth else l.odom
  }

  function Streaming(l: Streams, t: Topic, x: Stream): Streams
    requires t == RgbTopic || t == DepthTopic || t == OdomTopic
  {
    if t == RgbTopic then l.(rgb := x) else if t == DepthTopic then l.(depth := x) else l.(odom := x)
  }

  /** A repetition is counted; anything else is remembered, its gap counted, and odometry recorded. */
  ghost predicate DatedEffect(s: EngineState, r: EngineState, m: Message, arrival: int)
    requires Dated(m)
  {
    var t := TopicOf(m);
    var a := Stamped(StreamOf(s.last, t), StampOf(m), IdOf(m));
    && !a.Refused? && r.statics == s.statics && r.stats.received == s.stats.received + multiset{t}
    && if a.Again? then
         && r.last == s.last && r.stats.duplicate == s.stats.duplicate + multiset{t} && r.stats.gaps == s.stats.gaps
         && r.log == s.log
       else
         && r.last == Streaming(s.last, t, a.stream) && r.stats.duplicate == s.stats.duplicate
         && r.stats.gaps == s.stats.gaps[t := s.stats.gaps[t] + a.missed]
         && r.log == if m.OdomMsg? then s.log + [Record(arrival, Raw(m))] else s.log
  }

  ghost predicate OtherEffect(g: Geometry, s: EngineState, r: EngineState, m: Message, arrival: int) {
    && r.last == s.last && r.stats == s.stats.(received := s.stats.received + multiset{TopicOf(m)})
    && (if m.StaticMsg? then Learned(g, s.statics, m.transforms) == Some(r.statics) else r.statics == s.statics)
    && r.log == s.log + [Record(arrival, Raw(if m.StaticMsg? then StaticMsg(r.statics.known) else m))]
  }

  lemma PairTurnCounts(cfg: Config, s: EngineState, wall: real)
    requires cfg.Valid() && s.images.rgb != [] && s.images.depth != []
    ensures var r := PairTurn(cfg, s, wall).stats;
            r.received == s.stats.received && r.duplicate == s.stats.duplicate && r.gaps == s.stats.gaps
  {
    hide RgbdPairing.Nearest, RgbdPairing.Without, RateLimiter.NextDue;
  }

  lemma {:induction false} PairAllCounts(cfg: Config, s: EngineState, wall: real)
    requires cfg.Valid()
    ensures var r := PairAll(cfg, s, wall).stats;
            r.received == s.stats.received && r.duplicate == s.stats.duplicate && r.gaps == s.stats.gaps
    decreases |s.images.rgb| + |s.images.depth|
  {
    if s.images.rgb != [] && s.images.depth != [] {
      PairTurnCounts(cfg, s, wall);
      hide PairTurn;
      PairAllCounts(cfg, PairTurn(cfg, s, wall), wall);
    }
  }

  lemma RgbEffect(g: Geometry, cfg: Config, s: EngineState, x: Image, arrival: int, wall: real)
    requires cfg.Valid()
    ensures var r := Take(g, cfg, s, RgbMsg(x), arrival, wall);
            r.Some? ==> DatedEffect(s, r.value.0, RgbMsg(x), arrival)
  {
    var t := Received(s, RgbTopic);
    var a := Stamped(t.last.rgb, x.stamp, x.id);
    hide Stamped, PairAll;
    if a.New? {
      PairAllCounts(cfg, RgbQueued(cfg, t, x, a.stream, a.missed), wall);
      PairAllKeeps(cfg, RgbQueued(cfg, t, x, a.stream, a.missed), wall);
    }
  }

  lemma DepthEffect(g: Geometry, cfg: Config, s: EngineState, x: Image, arrival: int, wall: real)
    requires cfg.Valid()
    ensures var r := Take(g, cfg, s, DepthMsg(x), arrival, wall);
            r.Some? ==> DatedEffect(s, r.value.0, DepthMsg(x), arrival)
  {
    var t := Received(s, DepthTopic);
    var a := Stamped(t.last.depth, x.stamp, x.id);
    hide Stamped, PairAll;
    if a.New? {
      PairAllCounts(cfg, DepthQueued(cfg, t, x, a.stream, a.missed), wall);
      PairAllKeeps(cfg, DepthQueued(cfg, t, x, a.stream, a.missed), wall);
    }
  }

  lemma OdomEffect(g: Geometry, cfg: Config, s: EngineState, x: Odometry, arrival: int, wall: real)
    requires cfg.Valid()
    ensures var r := Take(g, cfg, s, OdomMsg(x), arrival, wall);
            r.Some? ==> DatedEffect(s, r.value.0, OdomMsg(x), arrival)
  {
    hide Stamped, OdometryWindow.Drops, Aged, Age;
  }

  lemma OthersEffect(g: Geometry, cfg: Config, s: EngineState, m: Message, arrival: int, wall: real)
    requires cfg.Valid() && !Dated(m)
    ensures var r := Take(g, cfg, s, m, arrival, wall);
            r.Some? ==> OtherEffect(g, s, r.value.0, m, arrival)
  {
    hide Learned, Kept;
  }

  lemma CallsSnoc(calls: seq<Call>, c: Call, t: Topic)
    ensures var more := calls + [c];
            var last := LastNew(calls, t);
            var here := c.Message? && TopicOf(c.msg) == t;
            && CameOn(more, t) == CameOn(calls, t) + (if here then 1 else 0)
            && (if here && Dated(c.msg) then
                  && LastNew(more, t) == (if Repeats(last, c.msg) then last else Some((StampOf(c.msg), IdOf(c.msg))))
                  && RepeatedOn(more, t) == RepeatedOn(calls, t) + (if Repeats(last, c.msg) then 1 else 0)
                  && SkippedOn(more, t) == SkippedOn(calls, t)
                     + if last.Some? && !Repeats(last, c.msg) && IdOf(c.msg) > last.value.1 + 1
                       then IdOf(c.msg) - last.value.1 - 1 else 0
                else LastNew(more, t) == last && RepeatedOn(more, t) == RepeatedOn(calls, t)
                     && SkippedOn(more, t) == SkippedOn(calls, t))
  {
    assert (calls + [c])[..|calls|] == calls;
  }

  lemma SentSnoc(calls: seq<Call>, c: Call)
    ensures SentBy(calls + [c]) == SentBy(calls) + if c.Message? && c.msg.StaticMsg? then c.msg.transforms else []
  {
    assert (calls + [c])[..|calls|] == calls;
  }

  lemma CarriedSnoc(calls: seq<Call>, c: Call)
    ensures Carried(calls + [c])
            == if !c.Message? || c.msg.RgbMsg? || c.msg.DepthMsg?
                  || (c.msg.OdomMsg? && Repeats(LastNew(calls, OdomTopic), c.msg))
               then Carried(calls) else Carried(calls) + [c]
  {
    assert (calls + [c])[..|calls|] == calls;
  }

  lemma {:induction false} SentByCarried(calls: seq<Call>)
    ensures SentBy(Carried(calls)) == SentBy(calls)
  {
    if calls != [] {
      var before, c := calls[..|calls| - 1], calls[|calls| - 1];
      assert before + [c] == calls;
      SentByCarried(before);
      CarriedSnoc(before, c);
      SentSnoc(Carried(before), c);
      SentSnoc(before, c);
      hide Carried, SentBy, LastNew;
    }
  }

  lemma RosterFollows(s: Statics, ts: seq<Transform>)
    requires Listed(s) && LastSent(ts, s.buffer)
    ensures RosterOf(s.known, ts)
  {
    forall x | x in s.known
      ensures exists i: nat :: IsLast(ts, i) && ts[i] == x
    {
      assert x.child in s.buffer && s.buffer[x.child] == x;
    }
    forall t | t in ts
      ensures Names(s.known, t.child)
    {
      assert s.buffer[t.child] in s.known;
    }
  }

  lemma MirrorsStays(x: Record, carried: seq<Call>, c: Call, k: nat)
    requires k < |carried| && Mirrors(x, carried, k)
    ensures Mirrors(x, carried + [c], k)
  {
    assert (carried + [c])[..k + 1] == carried[..k + 1] && (carried + [c])[k] == carried[k];
    hide RosterOf, SentBy;
  }

  lemma PassedSnoc(calls: seq<Call>, c: Call, log: seq<Record>, x: Record)
    requires PassedOn(calls, log) && IsRaw(x.item) && Carried(calls + [c]) == Carried(calls) + [c]
    requires Mirrors(x, Carried(calls) + [c], |Carried(calls)|)
    ensures PassedOn(calls + [c], log + [x])
  {
    hide Mirrors, Select, Carried;
    var raws, carried := Select(log, IsRaw), Carried(calls);
    SelectSnoc(log, x, IsRaw);
    forall k | 0 <= k < |raws|
      ensures Mirrors((raws + [x])[k], carried + [c], k)
    {
      assert Mirrors(raws[k], carried, k);
      MirrorsStays(raws[k], carried, c, k);
    }
  }

  lemma PassedStays(calls: seq<Call>, c: Call, log: seq<Record>)
    requires PassedOn(calls, log) && Carried(calls + [c]) == Carried(calls)
    ensures PassedOn(calls + [c], log)
  {
    hide Mirrors, Select, Carried;
  }

  lemma StreamsHeard(calls: seq<Call>, c: Call, l: Streams, r: Streams)
    requires Streamed(calls, l) && c.Message? && Dated(c.msg)
    requires var t := TopicOf(c.msg);
             var a := Stamped(StreamOf(l, t), StampOf(c.msg), IdOf(c.msg));
             !a.Refused? && r == if a.Again? then l else Streaming(l, t, a.stream)
    ensures Streamed(calls + [c], r)
  {
    var t := TopicOf(c.msg);
    RefusedIff(StreamOf(l, t), LastNew(calls, t), c.msg);
    CallsSnoc(calls, c, RgbTopic);
    CallsSnoc(calls, c, DepthTopic);
    CallsSnoc(calls, c, OdomTopic);
    hide LastNew, CameOn, RepeatedOn, SkippedOn, Stamped;
  }

  lemma CountHeard(calls: seq<Call>, c: Call, s: EngineState, r: EngineState, t: Topic)
    requires Streamed(calls, s.last) && Counts(calls, s.stats) && c.Message? && Dated(c.msg)
             && DatedEffect(s, r, c.msg, c.arrival)
    ensures r.stats.received[t] == CameOn(calls + [c], t) && r.stats.duplicate[t] == RepeatedOn(calls + [c], t)
            && r.stats.gaps[t] == SkippedOn(calls + [c], t)
  {
    hide LastNew, CameOn, RepeatedOn, SkippedOn, Stamped, Streaming;
    CallsSnoc(calls, c, t);
    if t == TopicOf(c.msg) {
      RefusedIff(StreamOf(s.last, t), LastNew(calls, t), c.msg);
      return;
    }
    OtherTopicStays(s, r, c, t);
    hide DatedEffect, Streamed;
  }

  lemma OtherTopicStays(s: EngineState, r: EngineState, c: Call, t: Topic)
    requires c.Message? && Dated(c.msg) && DatedEffect(s, r, c.msg, c.arrival) && t != TopicOf(c.msg)
    ensures r.stats.received[t] == s.stats.received[t] && r.stats.duplicate[t] == s.stats.duplicate[t]
            && r.stats.gaps[t] == s.stats.gaps[t]
  {
    hide Stamped, Streaming;
  }

  lemma CountsHeard(calls: seq<Call>, c: Call, s: EngineState, r: EngineState)
    requires Streamed(calls, s.last) && Counts(calls, s.stats) && c.Message? && Dated(c.msg)
             && DatedEffect(s, r, c.msg, c.arrival)
    ensures Counts(calls + [c], r.stats)
  {
    hide Streamed, CameOn, RepeatedOn, SkippedOn, DatedEffect;
    forall t
      ensures r.stats.received[t] == CameOn(calls + [c], t) && r.stats.duplicate[t] == RepeatedOn(calls + [c], t)
              && r.stats.gaps[t] == SkippedOn(calls + [c], t)
    {
      CountHeard(calls, c, s, r, t);
    }
  }

  lemma DatedPassed(calls: seq<Call>, c: Call, s: EngineState, r: EngineState)
    requires Streamed(calls, s.last) && PassedOn(calls, s.log) && c.Message? && Dated(c.msg)
             && DatedEffect(s, r, c.msg, c.arrival)
    ensures PassedOn(calls + [c], r.log)
  {
    var t := TopicOf(c.msg);
    RefusedIff(StreamOf(s.last, t), LastNew(calls, t), c.msg);
    CarriedSnoc(calls, c);
    hide LastNew, Stamped, SentBy, Carried, Streaming, PassedOn, RosterOf;
    if c.msg.OdomMsg? && !Repeats(LastNew(calls, t), c.msg) {
      PassedSnoc(calls, c, s.log, Record(c.arrival, Raw(c.msg)));
    } else {
      PassedStays(calls, c, s.log);
    }
  }

  lemma DatedHeard(calls: seq<Call>, c: Call, s: EngineState, r: EngineState)
    requires Heard(calls, s) && c.Message? && Dated(c.msg) && DatedEffect(s, r, c.msg, c.arrival)
    ensures Heard(calls + [c], r)
  {
    hide Stamped, Listed, LastSent, SentBy, PassedOn, Streamed, Counts;
    StreamsHeard(calls, c, s.last, r.last);
    CountsHeard(calls, c, s, r);
    DatedPassed(calls, c, s, r);
    SentSnoc(calls, c);
    assert SentBy(calls) + [] == SentBy(calls);
  }

  lemma OtherPassed(g: Geometry, calls: seq<Call>, c: Call, s: EngineState, r: EngineState)
    requires PassedOn(calls, s.log) && c.Message? && !Dated(c.msg) && OtherEffect(g, s, r, c.msg, c.arrival)
    requires LastSent(SentBy(calls + [c]), r.statics.buffer) && Listed(r.statics)
    ensures PassedOn(calls + [c], r.log)
  {
    CarriedSnoc(calls, c);
    SentByCarried(calls + [c]);
    RosterFollows(r.statics, SentBy(calls + [c]));
    hide SentBy, Carried, PassedOn, RosterOf, LastSent, Listed, Learned;
    var carried := Carried(calls) + [c];
    assert carried[..|carried|] == carried;
    PassedSnoc(calls, c, s.log, r.log[|s.log|]);
  }

  lemma OtherStatics(g: Geometry, calls: seq<Call>, c: Call, s: EngineState, r: EngineState)
    requires c.Message? && !Dated(c.msg) && OtherEffect(g, s, r, c.msg, c.arrival)
    requires LastSent(SentBy(calls), s.statics.buffer) && Listed(s.statics)
    ensures LastSent(SentBy(calls + [c]), r.statics.buffer) && Listed(r.statics)
  {
    SentSnoc(calls, c);
    if c.msg.StaticMsg? {
      LearnedLists(g, s.statics, c.msg.transforms);
      BufferedIsLast(SentBy(calls), s.statics.buffer, c.msg.transforms);
    }
    hide Listed, LastSent, SentBy, Learned;
    assert SentBy(calls) + [] == SentBy(calls);
  }

  lemma OtherCounts(g: Geometry, calls: seq<Call>, c: Call, s: EngineState, r: EngineState)
    requires c.Message? && !Dated(c.msg) && OtherEffect(g, s, r, c.msg, c.arrival)
    requires Streamed(calls, s.last) && Counts(calls, s.stats)
    ensures Streamed(calls + [c], r.last) && Counts(calls + [c], r.stats)
  {
    hide Remembers, Learned, CameOn, RepeatedOn, SkippedOn, LastNew;
    forall t
      ensures LastNew(calls + [c], t) == LastNew(calls, t)
      ensures r.stats.received[t] == CameOn(calls + [c], t) && r.stats.duplicate[t] == RepeatedOn(calls + [c], t)
              && r.stats.gaps[t] == SkippedOn(calls + [c], t)
    {
      CallsSnoc(calls, c, t);
    }
  }

  lemma OtherHeard(g: Geometry, calls: seq<Call>, c: Call, s: EngineState, r: EngineState)
    requires Heard(calls, s) && c.Message? && !Dated(c.msg) && OtherEffect(g, s, r, c.msg, c.arrival)
    ensures Heard(calls + [c], r)
  {
    hide Listed, LastSent, SentBy, PassedOn, Streamed, Counts, OtherEffect;
    OtherStatics(g, calls, c, s, r);
    OtherCounts(g, calls, c, s, r);
    OtherPassed(g, calls, c, s, r);
  }

  lemma TakeHeard(g: Geometry, cfg: Config, calls: seq<Call>, s: EngineState, c: Call)
    requires cfg.Valid() && Heard(calls, s) && c.Message? && Take(g, cfg, s, c.msg, c.arrival, c.wall).Some?
    ensures Heard(calls + [c], Take(g, cfg, s, c.msg, c.arrival, c.wall).value.0)
  {
    hide Heard, Take, DatedEffect, OtherEffect;
    var r := Take(g, cfg, s, c.msg, c.arrival, c.wall).value.0;
    match c.msg
    case RgbMsg(x) =>
      RgbEffect(g, cfg, s, x, c.arrival, c.wall);
      DatedHeard(calls, c, s, r);
    case DepthMsg(x) =>
      DepthEffect(g, cfg, s, x, c.arrival, c.wall);
      DatedHeard(calls, c, s, r);
    case OdomMsg(x) =>
      OdomEffect(g, cfg, s, x, c.arrival, c.wall);
      DatedHeard(calls, c, s, r);
    case _ =>
      OthersEffect(g, cfg, s, c.msg, c.arrival, c.wall);
      OtherHeard(g, calls, c, s, r);
  }

  // ---------------------------------------------------------------- drains and sessions

  lemma {:induction false} PartsNotRaw(log: seq<Record>, w: seq<Record>)
    requires forall x :: x in w ==> IsGroup(x.item)
    ensures Select(log + w, IsRaw) == Select(log, IsRaw)
  {
    if w == [] {
      assert log + w == log;
    } else {
      var v, x := w[..|w| - 1], w[|w| - 1];
      assert x in w && log + w == (log + v) + [x];
      PartsNotRaw(log, v);
      SelectSnoc(log + v, x, IsRaw);
      hide Select;
    }
  }

  lemma {:induction false} DrainHeard(g: Geometry, cfg: Config, calls: seq<Call>, s: EngineState, wall: real,
                                      final: bool)
    requires cfg.Valid() && Heard(calls, s)
    ensures var r := Drain(g, cfg, s, wall, final);
            r.Some? ==> Heard(calls, r.value)
    decreases |s.images.pending|
  {
    hide Heard, FrontOutcome, Dropped, Emitted;
    if s.images.pending != [] {
      match FrontOutcome(g, cfg, s)
      case Late(reason) =>
        DroppedHeard(calls, s, reason);
        DrainHeard(g, cfg, calls, Dropped(s, reason), wall, final);
      case Bad =>
        DroppedHeard(calls, s, InvalidRgbd);
        DrainHeard(g, cfg, calls, Dropped(s, InvalidRgbd), wall, final);
      case Changed =>
      case Made(f, m) =>
        EmittedHeard(calls, s, f, m, wall);
        DrainHeard(g, cfg, calls, Emitted(s, f, m, wall), wall, final);
    }
  }

  lemma DroppedHeard(calls: seq<Call>, s: EngineState, reason: Reason)
    requires Heard(calls, s) && s.images.pending != []
    ensures Heard(calls, Dropped(s, reason))
  {
    hide Streamed, PassedOn, LastSent, SentBy, Listed, CameOn, RepeatedOn, SkippedOn;
  }

  lemma EmittedHeard(calls: seq<Call>, s: EngineState, f: Frame, m: Matrix, wall: real)
    requires Heard(calls, s) && s.images.pending != []
    ensures Heard(calls, Emitted(s, f, m, wall))
  {
    WrittenParts(f);
    PartsNotRaw(s.log, Written(f));
    hide Streamed, LastSent, SentBy, Lists, Distinct, CameOn, RepeatedOn, SkippedOn, Written, Noted, Select, Mirrors,
         Carried;
  }

  lemma {:induction false} RunHeard(g: Geometry, cfg: Config, calls: seq<Call>)
    requires cfg.Valid() && After(g, cfg, calls).Some?
    ensures Heard(calls, After(g, cfg, calls).value)
  {
    hide Heard, Take, Drain;
    if calls == [] {
      InitialHeard();
      return;
    }
    var before, c := calls[..|calls| - 1], calls[|calls| - 1];
    assert before + [c] == calls;
    RunHeard(g, cfg, before);
    var s := After(g, cfg, before).value;
    match c
    case Poll(wall) =>
      PollHeard(before, s, c);
      DrainHeard(g, cfg, calls, s, wall, false);
    case Message(m, arrival, wall) =>
      TakeHeard(g, cfg, before, s, c);
      var t := Take(g, cfg, s, m, arrival, wall).value;
      if t.1 {
        DrainHeard(g, cfg, calls, t.0, wall, false);
      }
  }

  lemma InitialHeard()
    ensures Heard([], Initial())
  {
  }

  lemma PollHeard(calls: seq<Call>, s: EngineState, c: Call)
    requires Heard(calls, s) && c.Poll?
    ensures Heard(calls + [c], s)
  {
    hide Listed, LastSent, SentBy, CameOn, RepeatedOn, SkippedOn, LastNew, PassedOn;
    SentSnoc(calls, c);
    CarriedSnoc(calls, c);
    PassedStays(calls, c, s.log);
    assert SentBy(calls) + [] == SentBy(calls);
    forall t
      ensures LastNew(calls + [c], t) == LastNew(calls, t) && CameOn(calls + [c], t) == CameOn(calls, t)
              && RepeatedOn(calls + [c], t) == RepeatedOn(calls, t) && SkippedOn(calls + [c], t) == SkippedOn(calls, t)
    {
      CallsSnoc(calls, c, t);
    }
  }

  /** In every session: a message is refused exactly when it is not welcome, and the frames are
      looked to after every other one that could matter to them. */
  lemma SessionTakes(g: Geometry, cfg: Config, calls: seq<Call>, c: Call)
    requires cfg.Valid() && After(g, cfg, calls).Some? && c.Message?
    ensures var s, m := After(g, cfg, calls).value, c.msg;
            && (Take(g, cfg, s, m, c.arrival, c.wall).Some? <==> Welcome(g, cfg, calls, m))
            && (RgbdWaiting.Drains(g, cfg, s, c) <==>
                  && Welcome(g, cfg, calls, m) && !m.DynamicMsg? && !m.OtherMsg?
                  && (Dated(m) ==> !Repeats(LastNew(calls, TopicOf(m)), m)))
  {
    RunHeard(g, cfg, calls);
    var s := After(g, cfg, calls).value;
    hide After, Take, Welcome, Counts, PassedOn, LastSent, Listed, LastNew;
    TakenIff(g, cfg, calls, s, c.msg, c.arrival, c.wall);
  }
}
