/** The verdict of check_bag on the bag of a session. */
module RgbdVerdict {
  import opened Basics
  import opened RgbdTypes
  import opened RgbdGroup
  import opened RgbdEngine
  import opened RgbdRuns
  import opened RgbdValidator
  import opened RgbdParse
  import opened RgbdReading
  import opened RgbdRecording
  import opened RgbdAgreement
  import opened RgbdSession

  // ---------------------------------------------------------------- frame_groups undoes the writing

  lemma WrittenArePartsOf(f: Frame)
    ensures PartsOf(Written(f), (f.rgb.stamp, f))
  {
    DifferentParts(f);
    hide Parts;
  }

  lemma DifferentParts(f: Frame)
    ensures |Parts(f)| == 7 && forall i, j :: 0 <= i < j < 7 ==> Parts(f)[i] != Parts(f)[j]
  {
  }

  lemma StampsBefore(frames: seq<Frame>)
    requires frames != [] && Increasing(FrameStamps(frames))
    ensures var init := frames[..|frames| - 1];
            Increasing(FrameStamps(init))
              && (init != [] ==> init[|init| - 1].rgb.stamp < frames[|frames| - 1].rgb.stamp)
  {
    var n := |frames| - 1;
    assert FrameStamps(frames[..n]) == FrameStamps(frames)[..n];
    assert n > 0 ==> FrameStamps(frames)[n - 1] < FrameStamps(frames)[n];
  }

  lemma {:induction false} WrittenGrouped(frames: seq<Frame>)
    requires Increasing(FrameStamps(frames))
    ensures Grouped(AllWritten(frames), Groups(frames))
  {
    if frames == [] {
      return;
    }
    var init, f := frames[..|frames| - 1], frames[|frames| - 1];
    StampsBefore(frames);
    WrittenGrouped(init);
    WrittenArePartsOf(f);
    GroupsSnoc(init, f);
    assert init + [f] == frames;
    var r, all := AllWritten(init), AllWritten(frames);
    assert all[..|all| - 7] == r && all[|all| - 7..] == Written(f);
    assert Groups(frames)[..|init|] == Groups(init);
    hide Written, PartsOf, Parts;
  }

  lemma {:induction false} WrittenIsGroup(frames: seq<Frame>)
    ensures forall x :: x in AllWritten(frames) ==> IsGroup(x.item)
  {
    if frames != [] {
      WrittenIsGroup(frames[..|frames| - 1]);
      WrittenParts(frames[|frames| - 1]);
      hide Written, IsGroup;
    }
  }

  /** Reading back what was written gives the frames that were written. */
  lemma FrameGroupsRoundTrip(frames: seq<Frame>)
    requires Increasing(FrameStamps(frames))
    ensures FrameGroups(AllWritten(frames)) == Some(Groups(frames))
  {
    hide *;
    WrittenGrouped(frames);
    WrittenIsGroup(frames);
    FrameGroupsIff(AllWritten(frames), Groups(frames));
  }

  // ---------------------------------------------------------------- reading the bag

  /** Records in the order of time are read as they stand. */
  lemma {:induction false} TimedIsByTime(r: seq<Record>)
    requires Timed(r)
    ensures ByTime(r) == r
  {
    if r != [] {
      TimedIsByTime(r[..|r| - 1]);
    }
  }

  lemma TimedSnoc(r: seq<Record>, x: Record)
    requires Timed(r) && forall i :: 0 <= i < |r| ==> r[i].time <= x.time
    ensures Timed(r + [x])
  {
  }

  lemma {:induction false} SelectTimed(log: seq<Record>, p: Item -> bool, t: int)
    requires RawUpTo(log, t) && forall i: Item :: p(i) ==> i.Raw?
    ensures var r := Select(log, p);
            Timed(r) && forall i :: 0 <= i < |r| ==> r[i].time <= t
  {
    if log != [] {
      var before, x := log[..|log| - 1], log[|log| - 1];
      if p(x.item) {
        assert RawUpTo(before, x.time);
        SelectTimed(before, p, x.time);
        TimedSnoc(Select(before, p), x);
        hide Timed;
      } else {
        SelectTimed(before, p, t);
      }
    }
  }

  lemma {:induction false} SelectConcat(a: seq<Record>, b: seq<Record>, p: Item -> bool)
    ensures Select(a + b, p) == Select(a, p) + Select(b, p)
  {
    if b == [] {
      assert a + b == a;
    } else {
      assert (a + b)[..|a + b| - 1] == a + b[..|b| - 1];
      SelectConcat(a, b[..|b| - 1], p);
    }
  }

  lemma {:induction false} SelectNone(log: seq<Record>, p: Item -> bool)
    requires forall i :: 0 <= i < |log| ==> !p(log[i].item)
    ensures Select(log, p) == []
  {
    if log != [] {
      SelectNone(log[..|log| - 1], p);
    }
  }

  lemma {:induction false} SelectedOdoms(log: seq<Record>)
    ensures OdomsIn(Select(log, IsOdom)) == OdomsIn(log)
  {
    if log != [] {
      var b := Select(log[..|log| - 1], IsOdom);
      SelectedOdoms(log[..|log| - 1]);
      assert (b + [log[|log| - 1]])[..|b|] == b;
    }
  }

  lemma {:induction false} SelectedStatics(log: seq<Record>)
    ensures StaticsIn(Select(log, IsStatic)) == StaticsIn(log)
  {
    if log != [] {
      var b := Select(log[..|log| - 1], IsStatic);
      SelectedStatics(log[..|log| - 1]);
      assert (b + [log[|log| - 1]])[..|b|] == b;
    }
  }

  lemma {:induction false} SelectedDynamics(log: seq<Record>)
    ensures DynamicsIn(Select(log, IsDynamic)) == DynamicsIn(log)
  {
    if log != [] {
      var b := Select(log[..|log| - 1], IsDynamic);
      SelectedDynamics(log[..|log| - 1]);
      assert (b + [log[|log| - 1]])[..|b|] == b;
    }
  }

  lemma {:induction false} AllWrittenTimed(frames: seq<Frame>)
    requires Increasing(FrameStamps(frames))
    ensures Timed(AllWritten(frames))
    ensures forall i :: 0 <= i < |AllWritten(frames)| ==>
              frames != [] && AllWritten(frames)[i].time <= frames[|frames| - 1].rgb.stamp
  {
    if frames != [] {
      StampsBefore(frames);
      AllWrittenTimed(frames[..|frames| - 1]);
      hide FrameStamps, Parts;
      WrittenTimed(AllWritten(frames[..|frames| - 1]), frames[|frames| - 1]);
    }
  }

  lemma WrittenTimed(r: seq<Record>, f: Frame)
    requires Timed(r) && forall i :: 0 <= i < |r| ==> r[i].time <= f.rgb.stamp
    ensures Timed(r + Written(f)) && forall i :: 0 <= i < |r + Written(f)| ==> (r + Written(f))[i].time <= f.rgb.stamp
  {
    assert forall i :: 0 <= i < 7 ==> Written(f)[i].time == f.rgb.stamp;
    hide Parts, Written;
  }

  // ---------------------------------------------------------------- the bag of a session

  /** The raw sensor messages merged into a bag, and how many of each topic were counted. */
  datatype Merge = Merge(records: seq<Record>, counts: map<string, nat>)

  /** When session and report were written, and what was merged in if raw sensors were recorded. */
  datatype Closing = Closing(start: int, end: int, raw: Option<Merge>)
  {
    function Raws(): seq<Record> { if raw.Some? then raw.value.records else [] }

    ghost predicate SensorsOnly() {
      forall k :: 0 <= k < |Raws()| ==> IsSensor(Raws()[k].item)
    }
  }

  predicate IsSensor(i: Item) { i.Raw? && i.msg.OtherMsg? }

  function Head(cfg: Config, k: Closing): Record { Record(k.start, Session(1, cfg, k.raw.Some?)) }

  function Foot(s: EngineState, k: Closing): Record {
    Record(k.end, Report(s.stats.frames, false, "RECORDED", if k.raw.Some? then k.raw.value.counts else map[]))
  }

  /** The session message, the log, the report of a recorder that met no error, and raw sensors. */
  function Bag(cfg: Config, s: EngineState, k: Closing): seq<Record> {
    [Head(cfg, k)] + s.log + [Foot(s, k)] + k.Raws()
  }

  lemma BagSelect(cfg: Config, s: EngineState, k: Closing, p: Item -> bool)
    requires k.SensorsOnly() && forall i: Item :: i.Session? || i.Report? || IsSensor(i) ==> !p(i)
    ensures Select(Bag(cfg, s, k), p) == Select(s.log, p)
  {
    var a, b := [Head(cfg, k)], [Foot(s, k)];
    SelectConcat(a + s.log + b, k.Raws(), p);
    SelectConcat(a + s.log, b, p);
    SelectConcat(a, s.log, p);
    SelectNone(a, p);
    SelectNone(b, p);
    SelectNone(k.Raws(), p);
    hide Select;
    assert [] + Select(s.log, p) + [] + [] == Select(s.log, p);
  }

  lemma SelectOne(x: Record, p: Item -> bool)
    ensures p(x.item) ==> Select([x], p) == [x]
    ensures !p(x.item) ==> Select([x], p) == []
  {
    assert Select([x][..0], p) == [];
  }

  lemma SessionRead(cfg: Config, s: EngineState, k: Closing, t: int)
    requires RawUpTo(s.log, t) && k.SensorsOnly()
    ensures Read(Bag(cfg, s, k), IsSession) == [Head(cfg, k)]
  {
    var x, y := Head(cfg, k), Foot(s, k);
    assert forall i :: 0 <= i < |s.log| ==> !IsSession(s.log[i].item);
    assert forall i :: 0 <= i < |k.Raws()| ==> !IsSession(k.Raws()[i].item);
    hide RawUpTo, ByTime, Select;
    EndSelect(x, s.log, y, k.Raws(), IsSession);
    SelectOne(x, IsSession);
    SelectOne(y, IsSession);
    TimedIsByTime([x]);
  }

  lemma ReportRead(cfg: Config, s: EngineState, k: Closing, t: int)
    requires RawUpTo(s.log, t) && k.SensorsOnly()
    ensures Read(Bag(cfg, s, k), IsReport) == [Foot(s, k)]
  {
    var x, y := Head(cfg, k), Foot(s, k);
    assert forall i :: 0 <= i < |s.log| ==> !IsReport(s.log[i].item);
    assert forall i :: 0 <= i < |k.Raws()| ==> !IsReport(k.Raws()[i].item);
    hide RawUpTo, ByTime, Select;
    EndSelect(x, s.log, y, k.Raws(), IsReport);
    SelectOne(x, IsReport);
    SelectOne(y, IsReport);
    TimedIsByTime([y]);
  }

  lemma EndSelect(x: Record, log: seq<Record>, y: Record, raws: seq<Record>, p: Item -> bool)
    requires forall i :: 0 <= i < |log| ==> !p(log[i].item)
    requires forall i :: 0 <= i < |raws| ==> !p(raws[i].item)
    ensures Select([x] + log + [y] + raws, p) == Select([x], p) + Select([y], p)
  {
    hide Select;
    SelectConcat([x] + log + [y], raws, p);
    SelectConcat([x] + log, [y], p);
    SelectConcat([x], log, p);
    SelectNone(log, p);
    SelectNone(raws, p);
    assert Select([x], p) + [] == Select([x], p);
    assert Select([x], p) + Select([y], p) + [] == Select([x], p) + Select([y], p);
  }

  lemma BagRaw(cfg: Config, s: EngineState, k: Closing, t: int)
    requires RawUpTo(s.log, t) && k.SensorsOnly()
    ensures var bag := Bag(cfg, s, k);
            && OdomsIn(Read(bag, IsOdom)) == OdomsIn(s.log)
            && StaticsIn(Read(bag, IsStatic)) == StaticsIn(s.log)
            && DynamicsIn(Read(bag, IsDynamic)) == DynamicsIn(s.log)
  {
    SelectTimed(s.log, IsOdom, t);
    SelectTimed(s.log, IsStatic, t);
    SelectTimed(s.log, IsDynamic, t);
    hide Bag, Timed, ByTime, Select, OdomsIn, StaticsIn, DynamicsIn;
    BagSelect(cfg, s, k, IsOdom);
    BagSelect(cfg, s, k, IsStatic);
    BagSelect(cfg, s, k, IsDynamic);
    TimedIsByTime(Select(s.log, IsOdom));
    TimedIsByTime(Select(s.log, IsStatic));
    TimedIsByTime(Select(s.log, IsDynamic));
    SelectedOdoms(s.log);
    SelectedStatics(s.log);
    SelectedDynamics(s.log);
  }

  lemma BagGroups(g: Geometry, cfg: Config, s: EngineState, k: Closing)
    requires k.SensorsOnly() && Select(s.log, IsGroup) == AllWritten(s.frames) && Increasing(FrameStamps(s.frames))
    ensures FrameGroups(Read(Bag(cfg, s, k), IsGroup)) == Some(Groups(s.frames))
  {
    hide Bag, ByTime, Select, AllWritten, FrameStamps, Timed, FrameGroups;
    BagSelect(cfg, s, k, IsGroup);
    AllWrittenTimed(s.frames);
    TimedIsByTime(AllWritten(s.frames));
    FrameGroupsRoundTrip(s.frames);
  }

  /** The extrinsic that the static transforms so far give. */
  function Extrinsic(g: Geometry, cfg: Config, s: EngineState): Option<Matrix> {
    var ext := g.lookup(s.statics.buffer, cfg.body, cfg.optical);
    if ext.None? then None else g.matrix(ext.value.pose)
  }

  /** A frame, recorded static transforms with an extrinsic, and the world-to-body edge. */
  predicate Equipped(g: Geometry, cfg: Config, s: EngineState) {
    && s.frames != [] && StaticsIn(s.log) != [] && EdgesValid(g, cfg, DynamicsIn(s.log))
    && Extrinsic(g, cfg, s).Some?
  }

  /** What the engine does not demand of a session, and check_bag does. */
  predicate WellEquipped(g: Geometry, cfg: Config, s: EngineState) {
    Equipped(g, cfg, s) && AllAgree(g, Extrinsic(g, cfg, s).value, Groups(s.frames))
  }

  /** Raw sensors, if recorded, are counted and all there. */
  predicate RawsComplete(cfg: Config, s: EngineState, k: Closing) {
    k.raw.Some? ==> RawsCounted(Bag(cfg, s, k), k.raw.value.counts)
  }

  lemma BagContents(g: Geometry, cfg: Config, s: EngineState, k: Closing, t: int)
    requires cfg.Valid() && RawUpTo(s.log, t) && k.SensorsOnly()
    requires Select(s.log, IsGroup) == AllWritten(s.frames) && Increasing(FrameStamps(s.frames))
    ensures CheckBag(g, Bag(cfg, s, k))
            == if !RawsComplete(cfg, s, k) then None
               else CheckContents(g, cfg, s.stats.frames, OdomsIn(s.log), StaticsIn(s.log), DynamicsIn(s.log),
                                  Some(Groups(s.frames)))
  {
    var x, y := Head(cfg, k), Foot(s, k);
    assert SessionReadable([x]) && ReportClean([y]) && x.item.cfg == cfg && y.item.frames == s.stats.frames;
    RawsUnfold(cfg, s, k);
    hide *;
    SessionRead(cfg, s, k, t);
    ReportRead(cfg, s, k, t);
    BagRaw(cfg, s, k, t);
    BagGroups(g, cfg, s, k);
    CheckUnfolds(g, Bag(cfg, s, k), x, y);
  }

  lemma RawsUnfold(cfg: Config, s: EngineState, k: Closing)
    ensures Head(cfg, k).item.Session? && Foot(s, k).item.Report?
    ensures RawsComplete(cfg, s, k)
            <==> (Head(cfg, k).item.raw ==> RawsCounted(Bag(cfg, s, k), Foot(s, k).item.raws))
  {
    hide RawsCounted, Bag;
  }

  lemma Verdict(g: Geometry, cfg: Config, s: EngineState)
    requires Ledger(s) && Recorded(g, cfg, s)
    ensures CheckContents(g, cfg, s.stats.frames, OdomsIn(s.log), StaticsIn(s.log), DynamicsIn(s.log),
                          Some(Groups(s.frames)))
            == if WellEquipped(g, cfg, s) then Some(|s.frames|) else None
  {
    assert s.stats.frames == |s.frames| && Replayed(StaticsIn(s.log)) == s.statics.buffer
           && OdomTable(g, cfg, OdomsIn(s.log)).Some?;
    assert EdgesValid(g, cfg, DynamicsIn(s.log)) ==> DynamicsIn(s.log) != [];
    hide OdomsIn, StaticsIn, DynamicsIn, OdomTable, EdgesValid, Ledger, Replayed, CheckFrames, OdomKept, StaticsKept,
         Select, AllWritten;
  }

  /** A session that nothing aborted, its messages handed over in the order of their arrival,
      its last pairs drained and its bag closed: the validator finds exactly the frames that
      were written, and accepts the bag exactly when there is a frame, the world-to-body edge
      was seen and is always a pose, static transforms were recorded, they end with an extrinsic
      near that of every frame, and raw sensors, if merged in, are complete. */
  lemma ProducerAndValidatorAgree(g: Geometry, cfg: Config, calls: seq<Call>, wall: real, k: Closing, t: int)
    requires g.Lawful() && cfg.Valid() && InOrder(calls) && ArrivalsUpTo(calls, t) && k.SensorsOnly()
    requires After(g, cfg, calls).Some? && Drain(g, cfg, After(g, cfg, calls).value, wall, true).Some?
    ensures var s := Drain(g, cfg, After(g, cfg, calls).value, wall, true).value;
            var bag := Bag(cfg, s, k);
            && FrameGroups(Read(bag, IsGroup)) == Some(Groups(s.frames))
            && CheckBag(g, bag) == if WellEquipped(g, cfg, s) && RawsComplete(cfg, s, k) then Some(|s.frames|) else None
  {
    RunSound(g, cfg, calls);
    RunRecorded(g, cfg, calls);
    RunUpTo(g, cfg, calls, t);
    var r := After(g, cfg, calls).value;
    hide Geometry.Lawful, After, Drain, Recorded, Sound, RawUpTo, InOrder, ArrivalsUpTo, Bag, Read, FrameGroups,
         CheckBag, WellEquipped, RawsComplete, Closing.SensorsOnly;
    DrainSound(g, cfg, r, wall, true);
    DrainRecorded(g, cfg, r, wall, true);
    DrainUpTo(g, cfg, r, wall, true, t);
    var s := Drain(g, cfg, r, wall, true).value;
    SoundFrames(g, cfg, s);
    Verdict(g, cfg, s);
    RecordedGroups(g, cfg, s);
    BagContents(g, cfg, s, k, t);
    BagGroups(g, cfg, s, k);
  }

  lemma SoundFrames(g: Geometry, cfg: Config, s: EngineState)
    requires cfg.Valid() && Sound(cfg, s)
    ensures Increasing(FrameStamps(s.frames)) && Ledger(s)
  {
    FramesFirst(FrameStamps(s.frames), PendingStamps(s.images.pending), Stamps(s.images.rgb), s.last.rgb.stamp);
  }

  lemma RecordedGroups(g: Geometry, cfg: Config, s: EngineState)
    requires Recorded(g, cfg, s)
    ensures Select(s.log, IsGroup) == AllWritten(s.frames)
  {
  }
}
