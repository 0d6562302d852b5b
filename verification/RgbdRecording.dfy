/** What the engine's log holds at every step, seen with the eyes of the validator. */
module RgbdRecording {
  import opened Basics
  import opened RgbdTypes
  import opened RgbdGroup
  import opened RgbdEngine
  import opened RgbdRuns
  import opened RgbdValidator
  import OdometryWindow

  // ---------------------------------------------------------------- the odometry

  /** Every odometry of an accepted history is found under its stamp. */
  ghost predicate Tabled(g: Geometry, h: seq<Odometry>, t: map<int, Odometry>) {
    && Increasing(Times(h))
    && (forall k :: 0 <= k < |h| ==> h[k].stamp in t && t[h[k].stamp] == h[k] && g.matrix(h[k].pose).Some?)
    && (forall x :: x in t ==> h != [] && x <= h[|h| - 1].stamp)
  }

  lemma {:induction false} TableHolds(g: Geometry, cfg: Config, h: seq<Odometry>)
    requires OdomTable(g, cfg, h).Some?
    ensures Tabled(g, h, OdomTable(g, cfg, h).value)
  {
    if h != [] {
      var n := |h| - 1;
      var before := h[..n];
      TableHolds(g, cfg, before);
      assert n > 0 ==> before[n - 1] == h[n - 1] && h[n - 1].stamp < h[n].stamp;
      hide OdomTable;
      TableSnoc(g, before, OdomTable(g, cfg, before).value, h[n]);
      assert before + [h[n]] == h;
    }
  }

  lemma TableSnoc(g: Geometry, h: seq<Odometry>, t: map<int, Odometry>, x: Odometry)
    requires Tabled(g, h, t) && g.matrix(x.pose).Some? && (h != [] ==> h[|h| - 1].stamp < x.stamp)
    ensures Tabled(g, h + [x], t[x.stamp := x])
  {
    assert Times(h + [x]) == Times(h) + [x.stamp];
    forall k | 0 <= k < |h|
      ensures h[k].stamp < x.stamp
    {
      assert k == |h| - 1 || Times(h)[k] < Times(h)[|h| - 1];
    }
  }

  ghost predicate OdomKept(g: Geometry, cfg: Config, odoms: seq<Odometry>, last: Stream, h: seq<Odometry>) {
    && OdomTable(g, cfg, h).Some?
    && |odoms| <= |h| && odoms == h[|h| - |odoms|..]
    && (if h == [] then last.stamp.None? else last.stamp == Some(h[|h| - 1].stamp))
    && (cfg.Valid() ==> Times(odoms) == OdometryWindow.Window(Times(h), cfg.Memory()))
  }

  lemma TimesSnoc(o: seq<Odometry>, x: Odometry)
    ensures Times(o + [x]) == Times(o) + [x.stamp]
  {
  }

  lemma TimesDrop(o: seq<Odometry>, n: nat)
    requires n <= |o|
    ensures Times(o[n..]) == Times(o)[n..]
  {
  }

  lemma WindowPush(h: seq<int>, t: int, memory: nat)
    ensures var w := OdometryWindow.Window(h, memory) + [t];
            OdometryWindow.Window(h + [t], memory) == w[OdometryWindow.Drops(w, t - memory)..]
  {
    hide *;
    var x := h + [t];
    assert x[..|x| - 1] == h && x[|x| - 1] == t;
    OdometryWindow.WindowSnoc(x, memory);
  }

  lemma WindowAppended(odoms: seq<Odometry>, h: seq<Odometry>, x: Odometry, memory: nat)
    requires Times(odoms) == OdometryWindow.Window(Times(h), memory)
    ensures var q := odoms + [x];
            Times(q[OdometryWindow.Drops(Times(q), x.stamp - memory)..])
              == OdometryWindow.Window(Times(h + [x]), memory)
  {
    hide *;
    var q := odoms + [x];
    TimesSnoc(odoms, x);
    TimesSnoc(h, x);
    WindowPush(Times(h), x.stamp, memory);
    TimesDrop(q, OdometryWindow.Drops(Times(q), x.stamp - memory));
  }

  lemma SuffixAppended(odoms: seq<Odometry>, h: seq<Odometry>, x: Odometry, n: nat)
    requires |odoms| <= |h| && odoms == h[|h| - |odoms|..] && n <= |odoms| + 1
    ensures var r := (odoms + [x])[n..];
            |r| <= |h + [x]| && r == (h + [x])[|h + [x]| - |r|..]
  {
    assert odoms + [x] == (h + [x])[|h| - |odoms|..];
  }

  lemma TableAppended(g: Geometry, cfg: Config, h: seq<Odometry>, x: Odometry)
    requires OdomTable(g, cfg, h).Some? && x.frame == cfg.world && x.child == cfg.body && g.matrix(x.pose).Some?
    requires -1 < x.stamp && (h != [] ==> h[|h| - 1].stamp < x.stamp)
    ensures OdomTable(g, cfg, h + [x]).Some?
  {
    var r := h + [x];
    assert r[..|r| - 1] == h && r[|r| - 1] == x && (h != [] ==> r[|r| - 2] == h[|h| - 1]);
    TableUnfolds(g, cfg, r);
    hide *;
  }

  lemma TableUnfolds(g: Geometry, cfg: Config, r: seq<Odometry>)
    requires r != []
    ensures var before, x := OdomTable(g, cfg, r[..|r| - 1]), r[|r| - 1];
            OdomTable(g, cfg, r).Some? <==>
              before.Some? && x.stamp > (if |r| == 1 then -1 else r[|r| - 2].stamp) && x.frame == cfg.world
                && x.child == cfg.body
              && g.matrix(x.pose).Some?
  {
  }

  lemma TookOdom(g: Geometry, cfg: Config, s: EngineState, x: Odometry, missed: nat, arrival: int)
    requires cfg.Valid()
    requires var a := Stamped(s.last.odom, x.stamp, x.id);
             a.New? && TakeOdom(g, cfg, s, x, a.stream, missed, arrival).Some?
    ensures var r := TakeOdom(g, cfg, s, x, Stamped(s.last.odom, x.stamp, x.id).stream, missed, arrival).value;
            && x.frame == cfg.world && x.child == cfg.body && g.matrix(x.pose).Some?
            && 0 < x.stamp && (s.last.odom.stamp.Some? ==> s.last.odom.stamp.value < x.stamp)
            && r.last.odom.stamp == Some(x.stamp)
            && r.odoms == (s.odoms + [x])[OdometryWindow.Drops(Times(s.odoms + [x]), x.stamp - cfg.Memory())..]
  {
    hide OdometryWindow.Drops, Times, Missing;
  }

  lemma KeptSnoc(g: Geometry, cfg: Config, odoms: seq<Odometry>, last: Stream, h: seq<Odometry>, x: Odometry,
                 now: Stream)
    requires cfg.Valid() && OdomKept(g, cfg, odoms, last, h)
    requires x.frame == cfg.world && x.child == cfg.body && g.matrix(x.pose).Some?
    requires 0 < x.stamp && (last.stamp.Some? ==> last.stamp.value < x.stamp) && now.stamp == Some(x.stamp)
    ensures OdomKept(g, cfg, (odoms + [x])[OdometryWindow.Drops(Times(odoms + [x]), x.stamp - cfg.Memory())..], now,
                     h + [x])
  {
    hide OdometryWindow.Drops, OdometryWindow.Window, Times, OdomTable, Config.Memory, Config.Valid;
    TableAppended(g, cfg, h, x);
    SuffixAppended(odoms, h, x, OdometryWindow.Drops(Times(odoms + [x]), x.stamp - cfg.Memory()));
    WindowAppended(odoms, h, x, cfg.Memory());
  }

  lemma OdomAppended(g: Geometry, cfg: Config, s: EngineState, h: seq<Odometry>, x: Odometry, missed: nat, arrival: int)
    requires cfg.Valid() && OdomKept(g, cfg, s.odoms, s.last.odom, h)
    requires var a := Stamped(s.last.odom, x.stamp, x.id);
             a.New? && TakeOdom(g, cfg, s, x, a.stream, missed, arrival).Some?
    ensures var r := TakeOdom(g, cfg, s, x, Stamped(s.last.odom, x.stamp, x.id).stream, missed, arrival).value;
            OdomKept(g, cfg, r.odoms, r.last.odom, h + [x])
  {
    TookOdom(g, cfg, s, x, missed, arrival);
    var a := Stamped(s.last.odom, x.stamp, x.id);
    hide *;
    KeptSnoc(g, cfg, s.odoms, s.last.odom, h, x, TakeOdom(g, cfg, s, x, a.stream, missed, arrival).value.last.odom);
  }

  // ---------------------------------------------------------------- static transforms

  /** The list holds exactly the buffer. */
  ghost predicate Lists(known: seq<Transform>, m: map<string, Transform>) {
    && (forall t :: t in known ==> t.child in m && m[t.child] == t)
    && (forall c :: c in m ==> m[c] in known && m[c].child == c)
  }

  lemma {:induction false} PutMembers(known: seq<Transform>, t: Transform, x: Transform)
    ensures x in Put(known, t) ==> x == t || x in known
    ensures x == t || (x in known && x.child != t.child) ==> x in Put(known, t)
  {
    if known != [] && known[0].child != t.child {
      PutMembers(known[1..], t, x);
    }
  }

  /** No child is listed twice. */
  ghost predicate Distinct(known: seq<Transform>) {
    forall i, j :: 0 <= i < j < |known| ==> known[i].child != known[j].child
  }

  lemma {:induction false} PutDistinct(known: seq<Transform>, t: Transform)
    requires Distinct(known)
    ensures Distinct(Put(known, t))
    ensures forall x :: x in Put(known, t) && x != t ==> x in known && x.child != t.child
  {
    if known != [] && known[0].child != t.child {
      PutDistinct(known[1..], t);
      forall x | x in Put(known[1..], t)
        ensures x.child != known[0].child
      {
        if x != t {
          var i :| 0 <= i < |known[1..]| && known[1..][i] == x;
          assert known[i + 1] == x;
        }
      }
    } else if known != [] {
      forall x | x in known[1..]
        ensures x.child != t.child
      {
        var i :| 0 <= i < |known[1..]| && known[1..][i] == x;
        assert known[i + 1] == x;
      }
    }
  }

  ghost predicate Listed(s: Statics) { Lists(s.known, s.buffer) && Distinct(s.known) }

  lemma PutLists(s: Statics, t: Transform)
    requires Listed(s)
    ensures Listed(s.(known := Put(s.known, t), buffer := s.buffer[t.child := t]))
  {
    PutDistinct(s.known, t);
    var b := s.buffer[t.child := t];
    forall c | c in b
      ensures b[c] in Put(s.known, t)
    {
      PutMembers(s.known, t, b[c]);
    }
    hide Put;
  }

  lemma {:induction false} LearnedLists(g: Geometry, s: Statics, ts: seq<Transform>)
    requires Listed(s) && Learned(g, s, ts).Some?
    ensures Listed(Learned(g, s, ts).value) && Learned(g, s, ts).value.buffer == Buffered(s.buffer, ts)
    ensures Learned(g, s, ts).value.accepted == s.accepted
  {
    if ts != [] {
      var before := ts[..|ts| - 1];
      LearnedLists(g, s, before);
      PutLists(Learned(g, s, before).value, ts[|ts| - 1]);
      hide Listed, Put;
    }
  }

  /** Replaying a full list over a part of it gives the list's buffer. */
  lemma {:induction false} FullListWins(m: map<string, Transform>, known: seq<Transform>,
                                        full: map<string, Transform>, n: nat)
    requires n <= |known| && Lists(known, full) && m.Keys <= full.Keys
    ensures var r := Buffered(m, known[..n]);
            && r.Keys <= full.Keys
            && (forall k :: 0 <= k < n ==> known[k].child in r && r[known[k].child] == full[known[k].child])
  {
    if n > 0 {
      FullListWins(m, known, full, n - 1);
      assert known[..n][..n - 1] == known[..n - 1];
      assert known[n - 1] in known;
      forall k | 0 <= k < n
        ensures full[known[k].child] == known[k]
      {
        assert known[k] in known;
      }
    }
  }

  lemma ReplayedList(m: map<string, Transform>, s: Statics)
    requires Listed(s) && m.Keys <= s.buffer.Keys
    ensures Buffered(m, s.known) == s.buffer
  {
    FullListWins(m, s.known, s.buffer, |s.known|);
    assert s.known[..|s.known|] == s.known;
    var r := Buffered(m, s.known);
    hide Buffered, Distinct;
    forall c | c in s.buffer
      ensures c in r && r[c] == s.buffer[c]
    {
      var k :| 0 <= k < |s.known| && s.known[k] == s.buffer[c];
    }
  }

  lemma {:induction false} BufferedKeys(m: map<string, Transform>, ts: seq<Transform>)
    ensures m.Keys <= Buffered(m, ts).Keys
  {
    if ts != [] {
      BufferedKeys(m, ts[..|ts| - 1]);
    }
  }

  /** What the validator replays is the engine's buffer. */
  ghost predicate StaticsKept(s: Statics, msgs: seq<seq<Transform>>) {
    Listed(s) && Replayed(msgs) == s.buffer
  }

  lemma StaticsAppended(g: Geometry, s: Statics, ts: seq<Transform>, msgs: seq<seq<Transform>>)
    requires StaticsKept(s, msgs) && Learned(g, s, ts).Some?
    ensures var r := Learned(g, s, ts).value;
            StaticsKept(r, msgs + [r.known]) && r.accepted == s.accepted
  {
    LearnedLists(g, s, ts);
    BufferedKeys(s.buffer, ts);
    var r := Learned(g, s, ts).value;
    hide Listed, Learned, Buffered;
    ReplayedList(s.buffer, r);
    assert (msgs + [r.known])[..|msgs|] == msgs;
  }

  // ---------------------------------------------------------------- frames

  function AllWritten(frames: seq<Frame>): seq<Record> {
    if frames == [] then [] else AllWritten(frames[..|frames| - 1]) + Written(frames[|frames| - 1])
  }

  function Groups(frames: seq<Frame>): (r: seq<(int, Frame)>)
    ensures |r| == |frames|
  {
    seq(|frames|, i requires 0 <= i < |frames| => (frames[i].rgb.stamp, frames[i]))
  }

  ghost predicate Extends(t: map<int, Odometry>, u: map<int, Odometry>) {
    forall x :: x in t ==> x in u && u[x] == t[x]
  }

  /** More odometry changes no verdict. */
  lemma {:induction false} MoreOdometry(g: Geometry, cfg: Config, t: map<int, Odometry>, u: map<int, Odometry>,
                                        groups: seq<(int, Frame)>)
    requires Extends(t, u) && CheckFrames(g, cfg, t, groups)
    ensures CheckFrames(g, cfg, u, groups)
  {
    if groups != [] {
      var n := |groups| - 1;
      MoreOdometry(g, cfg, t, u, groups[..n]);
      hide Interpolated;
    }
  }

  /** The validator's checks on one frame, without those that place it in the bag. */
  lemma MadePose(g: Geometry, cfg: Config, s: Sources, index: nat, rgb: Image, dep: Image,
                 a: Odometry, b: Odometry, ci: Info, di: Info, valid: real, t: map<int, Odometry>)
    requires g.Lawful() && cfg.Valid() && Seconds(b.stamp - a.stamp) <= cfg.maxOdomGap
    requires a.stamp in t && t[a.stamp] == a && b.stamp in t && t[b.stamp] == b
    ensures var o := Located(g, cfg, s, index, rgb, dep, a, b, ci, di, valid);
            o.Made? ==> CheckPose(g, cfg, t, o.frame)
  {
    InterpolatedRigid(g, a, b, cfg.Target(rgb.stamp));
    var ext := g.lookup(s.tf, cfg.body, cfg.optical);
    if ext.Some? && g.matrix(ext.value.pose).Some? {
      var body := Interpolated(g, a, b, cfg.Target(rgb.stamp));
      if body.Some? {
        PoseBack(g, body.value.0, g.matrix(ext.value.pose).value);
      }
      LawfulMatrix(g, ext.value.pose);
    }
    hide Geometry.Lawful, Interpolated, AllClose;
  }

  lemma LawfulMatrix(g: Geometry, p: Pose)
    requires g.Lawful()
    ensures g.matrix(p).Some? ==> g.rigid(g.matrix(p).value)
  {
  }

  lemma InterpolatedRigid(g: Geometry, a: Odometry, b: Odometry, target: int)
    requires g.Lawful()
    ensures var r := Interpolated(g, a, b, target);
            r.Some? ==> g.rigid(r.value.0)
  {
  }

  lemma PoseBack(g: Geometry, a: Matrix, b: Matrix)
    requires g.Lawful()
    ensures var m := g.compose(a, b);
            g.rigid(a) && g.rigid(b) ==> g.matrix(g.pose(m)).Some? && AllClose(g.matrix(g.pose(m)).value, m, 0.000001)
  {
  }
}
