/** How a bag is read: which messages, in which order, and what the tables built from them hold. */
module RgbdReading {
  import opened Basics
  import opened RgbdTypes
  import opened RgbdGroup
  import opened RgbdEngine
  import opened RgbdValidator

  // ---------------------------------------------------------------- the order of reading

  ghost predicate Timed(r: seq<Record>) {
    forall i, j :: 0 <= i < j < |r| ==> r[i].time <= r[j].time
  }

  /** The chosen records of one time, as they stand. */
  function At(s: seq<Record>, p: Item -> bool, t: int): seq<Record> {
    if s == [] then []
    else
      var before, x := At(s[..|s| - 1], p, t), s[|s| - 1];
      if p(x.item) && x.time == t then before + [x] else before
  }

  lemma AtSnoc(s: seq<Record>, x: Record, p: Item -> bool, t: int)
    ensures At(s + [x], p, t) == if p(x.item) && x.time == t then At(s, p, t) + [x] else At(s, p, t)
  {
    assert (s + [x])[..|s|] == s;
  }

  lemma {:induction false} InsertedHolds(s: seq<Record>, x: Record, z: Record)
    ensures z in Inserted(s, x) <==> z in s || z == x
  {
    if s != [] && x.time < s[|s| - 1].time {
      var init, y := s[..|s| - 1], s[|s| - 1];
      InsertedHolds(init, x, z);
      assert s == init + [y];
      assert z in Inserted(init, x) + [y] <==> z in Inserted(init, x) || z == y;
    }
  }

  lemma TimedBefore(s: seq<Record>)
    requires s != [] && Timed(s)
    ensures Timed(s[..|s| - 1]) && forall x :: x in s[..|s| - 1] ==> x.time <= s[|s| - 1].time
  {
  }

  lemma TimedThen(s: seq<Record>, x: Record)
    requires Timed(s) && forall y :: y in s ==> y.time <= x.time
    ensures Timed(s + [x])
  {
  }

  lemma {:induction false} InsertedTimed(s: seq<Record>, x: Record)
    requires Timed(s)
    ensures Timed(Inserted(s, x))
  {
    if s == [] {
      return;
    }
    var init, y := s[..|s| - 1], s[|s| - 1];
    TimedBefore(s);
    if x.time < y.time {
      InsertedTimed(init, x);
      forall z | z in Inserted(init, x)
        ensures z.time <= y.time
      {
        InsertedHolds(init, x, z);
      }
      TimedThen(Inserted(init, x), y);
    } else {
      assert s == init + [y];
      TimedThen(s, x);
    }
    hide Timed;
  }

  lemma {:induction false} InsertedAt(s: seq<Record>, x: Record, p: Item -> bool, t: int)
    requires Timed(s)
    ensures At(Inserted(s, x), p, t) == At(s + [x], p, t)
  {
    if s != [] && x.time < s[|s| - 1].time {
      var init, y := s[..|s| - 1], s[|s| - 1];
      InsertedAt(init, x, p, t);
      assert s == init + [y];
      AtSnoc(Inserted(init, x), y, p, t);
      AtSnoc(init, y, p, t);
      AtSnoc(init, x, p, t);
      AtSnoc(s, x, p, t);
      hide At, Timed;
    }
  }

  lemma {:induction false} ByTimeTimed(s: seq<Record>)
    ensures Timed(ByTime(s)) && |ByTime(s)| == |s|
  {
    if s != [] {
      ByTimeTimed(s[..|s| - 1]);
      InsertedTimed(ByTime(s[..|s| - 1]), s[|s| - 1]);
      InsertedSize(ByTime(s[..|s| - 1]), s[|s| - 1]);
      hide Timed, Inserted;
    }
  }

  lemma {:induction false} InsertedSize(s: seq<Record>, x: Record)
    ensures |Inserted(s, x)| == |s| + 1
  {
    if s != [] && x.time < s[|s| - 1].time {
      InsertedSize(s[..|s| - 1], x);
    }
  }

  lemma {:induction false} ByTimeHolds(s: seq<Record>, z: Record)
    ensures z in ByTime(s) <==> z in s
  {
    if s != [] {
      var init, x := s[..|s| - 1], s[|s| - 1];
      ByTimeHolds(init, z);
      InsertedHolds(ByTime(init), x, z);
      assert s == init + [x];
      hide Inserted;
    }
  }

  lemma {:induction false} ByTimeStable(s: seq<Record>, p: Item -> bool, t: int)
    ensures At(ByTime(s), p, t) == At(s, p, t)
  {
    if s != [] {
      var init, x := s[..|s| - 1], s[|s| - 1];
      ByTimeStable(init, p, t);
      assert s == init + [x];
      ByTimeTimed(init);
      InsertedAt(ByTime(init), x, p, t);
      AtSnoc(ByTime(init), x, p, t);
      AtSnoc(init, x, p, t);
      hide At, Timed, Inserted;
    }
  }

  lemma {:induction false} SelectAt(bag: seq<Record>, p: Item -> bool, t: int)
    ensures At(Select(bag, p), p, t) == At(bag, p, t)
  {
    if bag != [] {
      SelectAt(bag[..|bag| - 1], p, t);
      AtSnoc(Select(bag[..|bag| - 1], p), bag[|bag| - 1], p, t);
    }
  }

  lemma {:induction false} SelectMembers(bag: seq<Record>, p: Item -> bool, x: Record)
    ensures x in Select(bag, p) <==> x in bag && p(x.item)
  {
    if bag != [] {
      var init, y := bag[..|bag| - 1], bag[|bag| - 1];
      SelectMembers(init, p, x);
      assert x in bag <==> x in init || x == y;
      assert x in Select(init, p) + [y] <==> x in Select(init, p) || x == y;
    }
  }

  /** The chosen messages and no others, in the order of time, those of one time as they stand. */
  lemma ReadIsStable(bag: seq<Record>, p: Item -> bool)
    ensures Timed(Read(bag, p)) && forall t :: At(Read(bag, p), p, t) == At(bag, p, t)
    ensures forall x :: x in Read(bag, p) <==> x in bag && p(x.item)
  {
    ByTimeTimed(Select(bag, p));
    forall t
      ensures At(Read(bag, p), p, t) == At(bag, p, t)
    {
      ByTimeStable(Select(bag, p), p, t);
      SelectAt(bag, p, t);
    }
    forall x
      ensures x in Read(bag, p) <==> x in bag && p(x.item)
    {
      SelectMembers(bag, p, x);
      ByTimeHolds(Select(bag, p), x);
    }
  }

  // ---------------------------------------------------------------- exactly one

  ghost predicate OnlyOne(bag: seq<Record>, p: Item -> bool, i: nat) {
    i < |bag| && p(bag[i].item) && forall j :: 0 <= j < |bag| && p(bag[j].item) ==> j == i
  }

  lemma {:induction false} NoneSelected(bag: seq<Record>, p: Item -> bool)
    ensures Select(bag, p) == [] <==> forall j :: 0 <= j < |bag| ==> !p(bag[j].item)
  {
    if bag != [] {
      NoneSelected(bag[..|bag| - 1], p);
    }
  }

  lemma {:induction false} OneSelected(bag: seq<Record>, p: Item -> bool, x: Record)
    ensures Select(bag, p) == [x] <==> exists i: nat :: OnlyOne(bag, p, i) && bag[i] == x
  {
    if bag == [] {
      return;
    }
    var n := |bag| - 1;
    var init, y := bag[..n], bag[n];
    OneSelected(init, p, x);
    NoneSelected(init, p);
    assert init + [y] == bag;
    hide Select;
    SelectSnoc(init, y, p);
    if p(y.item) {
      OneLast(init, y, p, x);
    } else {
      forall i: nat
        ensures OnlyOne(bag, p, i) <==> OnlyOne(init, p, i)
      {
      }
    }
  }

  lemma SelectSnoc(s: seq<Record>, x: Record, p: Item -> bool)
    ensures Select(s + [x], p) == if p(x.item) then Select(s, p) + [x] else Select(s, p)
  {
    assert (s + [x])[..|s|] == s;
  }

  lemma OneLast(s: seq<Record>, y: Record, p: Item -> bool, x: Record)
    requires p(y.item)
    ensures (exists i: nat :: OnlyOne(s + [y], p, i) && (s + [y])[i] == x)
            <==> x == y && forall j :: 0 <= j < |s| ==> !p(s[j].item)
  {
    var bag := s + [y];
    assert bag[|s|] == y;
    if x == y && forall j :: 0 <= j < |s| ==> !p(s[j].item) {
      assert OnlyOne(bag, p, |s|);
    }
    if i: nat :| OnlyOne(bag, p, i) && bag[i] == x {
      assert i == |s|;
      forall j | 0 <= j < |s|
        ensures !p(s[j].item)
      {
        assert bag[j] == s[j];
      }
    }
  }

  lemma OneRead(bag: seq<Record>, p: Item -> bool, x: Record)
    ensures Read(bag, p) == [x] <==> exists i: nat :: OnlyOne(bag, p, i) && bag[i] == x
  {
    OneSelected(bag, p, x);
    var s := Select(bag, p);
    ByTimeTimed(s);
    if |s| == 1 {
      assert ByTime(s[..0]) == [];
      assert ByTime(s) == s;
    }
    hide Select, OnlyOne;
  }

  // ---------------------------------------------------------------- counts

  ghost function OfTopic(bag: seq<Record>, topic: string): set<int> {
    set i | 0 <= i < |bag| && TopicName(bag[i].item) == topic
  }

  lemma {:induction false} CountIsSize(bag: seq<Record>, topic: string)
    ensures MessageCount(bag, topic) == |OfTopic(bag, topic)|
  {
    hide TopicName, OfTopic;
    if bag == [] {
      NoneOfTopic(topic);
      return;
    }
    var n := |bag| - 1;
    CountIsSize(bag[..n], topic);
    assert bag[..n] + [bag[n]] == bag;
    OneMoreOfTopic(bag[..n], bag[n], topic);
  }

  lemma NoneOfTopic(topic: string)
    ensures OfTopic([], topic) == {}
  {
  }

  lemma OneMoreOfTopic(s: seq<Record>, x: Record, topic: string)
    ensures |OfTopic(s + [x], topic)| == |OfTopic(s, topic)| + if TopicName(x.item) == topic then 1 else 0
  {
    hide TopicName;
    var before, after := OfTopic(s, topic), OfTopic(s + [x], topic);
    assert |s| !in before;
    assert after == if TopicName(x.item) == topic then before + {|s|} else before;
  }

  // ---------------------------------------------------------------- odometry

  /** The odometry of these records. */
  ghost predicate Odometries(r: seq<Record>, h: seq<Odometry>) {
    |h| == |r| && forall k :: 0 <= k < |r| ==> r[k].item == Raw(OdomMsg(h[k]))
  }

  lemma {:induction false} OdomsAre(r: seq<Record>)
    requires forall x :: x in r ==> IsOdom(x.item)
    ensures Odometries(r, OdomsIn(r))
  {
    if r != [] {
      var init, x := r[..|r| - 1], r[|r| - 1];
      assert x in r && init + [x] == r;
      OdomsAre(init);
    }
  }

  /** Increasing stamps from 0 on, the configured frames, and always a pose. */
  ghost predicate GoodOdometry(g: Geometry, cfg: Config, h: seq<Odometry>) {
    && (forall i, j :: 0 <= i < j < |h| ==> h[i].stamp < h[j].stamp)
    && (forall k :: 0 <= k < |h| ==>
          h[k].stamp >= 0 && h[k].frame == cfg.world && h[k].child == cfg.body && g.matrix(h[k].pose).Some?)
  }

  ghost predicate TableOf(h: seq<Odometry>, t: map<int, Odometry>) {
    && (forall k :: 0 <= k < |h| ==> h[k].stamp in t && t[h[k].stamp] == h[k])
    && (forall x :: x in t ==> exists k :: 0 <= k < |h| && h[k].stamp == x)
  }

  lemma {:induction false} OdomTableIff(g: Geometry, cfg: Config, h: seq<Odometry>)
    ensures OdomTable(g, cfg, h).Some? <==> GoodOdometry(g, cfg, h)
    ensures OdomTable(g, cfg, h).Some? ==> TableOf(h, OdomTable(g, cfg, h).value)
  {
    if h == [] {
      return;
    }
    var n := |h| - 1;
    var init, x := h[..n], h[n];
    OdomTableIff(g, cfg, init);
    assert init + [x] == h && (n > 0 ==> init[n - 1] == h[n - 1]);
    hide OdomTable;
    GoodSnoc(g, cfg, init, x);
    TableUnfold(g, cfg, h);
    if OdomTable(g, cfg, h).Some? {
      assert x.stamp !in OdomTable(g, cfg, init).value || n > 0;
      TableOfSnoc(g, cfg, init, OdomTable(g, cfg, init).value, x);
    }
  }

  lemma TableUnfold(g: Geometry, cfg: Config, h: seq<Odometry>)
    requires h != []
    ensures var before, x := OdomTable(g, cfg, h[..|h| - 1]), h[|h| - 1];
            var last := if |h| == 1 then -1 else h[|h| - 2].stamp;
            OdomTable(g, cfg, h)
              == if before.Some? && last < x.stamp && x.frame == cfg.world && x.child == cfg.body
                    && g.matrix(x.pose).Some?
                 then Some(before.value[x.stamp := x]) else None
  {
  }

  lemma GoodSnoc(g: Geometry, cfg: Config, h: seq<Odometry>, x: Odometry)
    ensures GoodOdometry(g, cfg, h + [x])
            <==> GoodOdometry(g, cfg, h) && (if h == [] then -1 else h[|h| - 1].stamp) < x.stamp
                 && x.frame == cfg.world && x.child == cfg.body && g.matrix(x.pose).Some?
  {
    var r := h + [x];
    assert r[|h|] == x && forall k :: 0 <= k < |h| ==> r[k] == h[k];
    if GoodOdometry(g, cfg, r) {
      assert h != [] ==> r[|h| - 1].stamp < r[|h|].stamp;
    }
  }

  lemma TableOfSnoc(g: Geometry, cfg: Config, h: seq<Odometry>, t: map<int, Odometry>, x: Odometry)
    requires TableOf(h, t) && GoodOdometry(g, cfg, h + [x])
    ensures TableOf(h + [x], t[x.stamp := x])
  {
    var r, u := h + [x], t[x.stamp := x];
    assert r[|h|] == x && forall k :: 0 <= k < |h| ==> r[k] == h[k];
    forall y | y in u
      ensures exists k :: 0 <= k < |r| && r[k].stamp == y
    {
      if y != x.stamp {
        var k :| 0 <= k < |h| && h[k].stamp == y;
        assert r[k].stamp == y;
      } else {
        assert r[|h|].stamp == y;
      }
    }
  }

  // ---------------------------------------------------------------- static transforms

  /** All transforms of the static messages, one after the other. */
  function Sent(r: seq<Record>): seq<Transform> {
    if r == [] then []
    else
      var before, i := Sent(r[..|r| - 1]), r[|r| - 1].item;
      if IsStatic(i) then before + i.msg.transforms else before
  }

  /** No later transform is of the same child frame. */
  ghost predicate IsLast(ts: seq<Transform>, i: nat) {
    i < |ts| && forall j :: i < j < |ts| ==> ts[j].child != ts[i].child
  }

  /** To each child frame the transform sent last. */
  ghost predicate LastSent(ts: seq<Transform>, m: map<string, Transform>) {
    && (forall i :: 0 <= i < |ts| ==> ts[i].child in m)
    && (forall c :: c in m ==> exists i: nat :: IsLast(ts, i) && ts[i].child == c && ts[i] == m[c])
  }

  lemma LastSentHolds(ts: seq<Transform>, m: map<string, Transform>, n: map<string, Transform>)
    requires LastSent(ts, m) && LastSent(ts, n)
    ensures forall c :: c in m ==> c in n && m[c] == n[c]
  {
    forall c | c in m
      ensures c in n && m[c] == n[c]
    {
      var i: nat :| IsLast(ts, i) && ts[i].child == c && ts[i] == m[c];
      assert c in n;
      var j: nat :| IsLast(ts, j) && ts[j].child == c && ts[j] == n[c];
      assert !(i < j) && !(j < i);
    }
  }

  lemma LastSentUnique(ts: seq<Transform>, m: map<string, Transform>, n: map<string, Transform>)
    requires LastSent(ts, m) && LastSent(ts, n)
    ensures m == n
  {
    LastSentHolds(ts, m, n);
    LastSentHolds(ts, n, m);
    hide LastSent;
  }

  lemma LastSentSnoc(ts: seq<Transform>, m: map<string, Transform>, t: Transform)
    requires LastSent(ts, m)
    ensures LastSent(ts + [t], m[t.child := t])
  {
    var us, n := ts + [t], m[t.child := t];
    assert us[|ts|] == t && forall k :: 0 <= k < |ts| ==> us[k] == ts[k];
    forall c | c in n
      ensures exists i: nat :: IsLast(us, i) && us[i].child == c && us[i] == n[c]
    {
      if c == t.child {
        assert IsLast(us, |ts|);
      } else {
        var i: nat :| IsLast(ts, i) && ts[i].child == c && ts[i] == m[c];
        assert IsLast(us, i);
      }
    }
  }

  lemma {:induction false} BufferedIsLast(ts: seq<Transform>, m: map<string, Transform>, us: seq<Transform>)
    requires LastSent(ts, m)
    ensures LastSent(ts + us, Buffered(m, us))
  {
    if us == [] {
      assert ts + us == ts;
    } else {
      var init, u := us[..|us| - 1], us[|us| - 1];
      BufferedIsLast(ts, m, init);
      assert ts + us == (ts + init) + [u];
      LastSentSnoc(ts + init, Buffered(m, init), u);
      hide LastSent;
    }
  }

  lemma {:induction false} ReplayedIsLast(r: seq<Record>)
    ensures LastSent(Sent(r), Replayed(StaticsIn(r)))
  {
    if r == [] {
      return;
    }
    var init, x := r[..|r| - 1], r[|r| - 1];
    ReplayedIsLast(init);
    if IsStatic(x.item) {
      BufferedIsLast(Sent(init), Replayed(StaticsIn(init)), x.item.msg.transforms);
      assert (StaticsIn(init) + [x.item.msg.transforms])[..|StaticsIn(init)|] == StaticsIn(init);
    }
    hide LastSent, Buffered;
  }

  lemma {:induction false} StaticsMembers(r: seq<Record>)
    ensures StaticsIn(r) == [] <==> forall x :: x in r ==> !IsStatic(x.item)
  {
    if r != [] {
      var init, x := r[..|r| - 1], r[|r| - 1];
      StaticsMembers(init);
      assert forall y :: y in r <==> y in init || y == x;
    }
  }

  lemma {:induction false} DynamicsMembers(r: seq<Record>, m: seq<Transform>)
    ensures m in DynamicsIn(r) <==> exists x :: x in r && IsDynamic(x.item) && x.item.msg.transforms == m
  {
    if r != [] {
      var init, x := r[..|r| - 1], r[|r| - 1];
      DynamicsMembers(init, m);
      assert forall y :: y in r <==> y in init || y == x;
    }
  }

  // ---------------------------------------------------------------- the bag

  lemma CheckUnfolds(g: Geometry, bag: seq<Record>, x: Record, y: Record)
    requires Read(bag, IsSession) == [x] && Read(bag, IsReport) == [y]
    requires SessionReadable([x]) && ReportClean([y])
    ensures CheckBag(g, bag)
            == if x.item.raw && !RawsCounted(bag, y.item.raws) then None
               else CheckContents(g, x.item.cfg, y.item.frames,
                                  OdomsIn(Read(bag, IsOdom)), StaticsIn(Read(bag, IsStatic)),
                                  DynamicsIn(Read(bag, IsDynamic)), FrameGroups(Read(bag, IsGroup)))
  {
    hide Read, OdomsIn, StaticsIn, DynamicsIn, FrameGroups, CheckContents, Config.Valid, RawsCounted;
  }

  lemma NoFrames(g: Geometry, cfg: Config, t: map<int, Odometry>)
    ensures CheckFrames(g, cfg, t, [])
  {
  }

  lemma FramesUnfold(g: Geometry, cfg: Config, t: map<int, Odometry>, groups: seq<(int, Frame)>)
    requires groups != []
    ensures var n := |groups| - 1;
            CheckFrames(g, cfg, t, groups) ==
            (CheckFrames(g, cfg, t, groups[..n])
             && CheckFrame(g, cfg, t, n, if n == 0 then -1 else groups[n - 1].0, groups[n].0, groups[n].1))
  {
    hide CheckFrame;
  }
}
