/** Clocks that run backwards: in every run, whatever the lidar clocks do, which scans a bundle
    is made of and which scans leave the queues with it. */
module LatchRuns {
  import opened Basics
  import opened Synchroniser
  import opened SyncRuns

  // ---------------------------------------------------------------- reversals, on the event list

  predicate IsScan(e: Event, first: bool) { if first then e.Scan1? else e.Scan2? }

  /** The stamp of the last scan of a lidar, 0 before the first as in the code. */
  function LastStamp(evs: seq<Event>, first: bool): real {
    if evs == [] then 0.0
    else
      var e := evs[|evs| - 1];
      if IsScan(e, first) then e.scan.stamp else LastStamp(evs[..|evs| - 1], first)
  }

  /** Event j is a scan of the lidar with an earlier stamp than the one before it. */
  predicate BackAt(evs: seq<Event>, j: nat, first: bool) {
    j < |evs| && IsScan(evs[j], first) && evs[j].scan.stamp < LastStamp(evs[..j], first)
  }

  /** The lidar's clock ran backwards at some event from the one position to before the other. */
  ghost predicate RanBack(evs: seq<Event>, from: nat, to: nat, first: bool) {
    exists j :: from <= j < to && BackAt(evs, j, first)
  }

  // ---------------------------------------------------------------- scans by their position

  /** One lidar's side of a run: the positions of the events whose scans are queued, of the
      latched one, and of those latched for and popped with each bundle. */
  datatype Lane = Lane(queue: seq<nat>, latch: nat, latched: seq<nat>, popped: seq<nat>)

  /** The poll that latched last, and for each bundle the poll that latched and the one that
      emitted it. */
  datatype Polls = Polls(since: nat, sinces: seq<nat>, ats: seq<nat>)

  datatype Tags = Tags(l1: Lane, l2: Lane, polls: Polls)

  function Pushed(l: Lane, back: bool, pos: nat): (r: Lane)
    ensures r.latch == l.latch
  {
    l.(queue := (if back then [] else l.queue) + [pos])
  }

  function Shortened(l: Lane, n: nat): Lane {
    l.(queue := if n <= |l.queue| then l.queue[n..] else [])
  }

  function Latching(l: Lane): Lane {
    if l.queue == [] then l else l.(latch := l.queue[0])
  }

  function Popped(l: Lane): Lane {
    if l.queue == [] then l
    else l.(queue := l.queue[1..], latched := l.latched + [l.latch], popped := l.popped + [l.queue[0]])
  }

  function Prepared(c: Config, s: SyncState, g: Tags, pos: nat): Tags
    requires s.Parallel()
  {
    var p := Prepare(c, s);
    var h := g.(l1 := Shortened(g.l1, p.drops.0), l2 := Shortened(g.l2, p.drops.1));
    if p.ready && !s.pushed then h.(l1 := Latching(h.l1), l2 := Latching(h.l2), polls := h.polls.(since := pos)) else h
  }

  function Emitted(g: Tags, pos: nat): Tags {
    Tags(Popped(g.l1), Popped(g.l2), Sent(g.polls, pos))
  }

  function Sent(p: Polls, pos: nat): Polls {
    p.(sinces := p.sinces + [p.since], ats := p.ats + [pos])
  }

  function TagStep(c: Config, s: SyncState, g: Tags, e: Event, pos: nat): Tags
    requires s.Parallel()
  {
    match e
    case Scan1(x) => g.(l1 := Pushed(g.l1, x.stamp < s.s1.lastStamp, pos))
    case Scan2(x) => g.(l2 := Pushed(g.l2, x.stamp < s.s2.lastStamp, pos))
    case ImuMsg(_) => g
    case Poll =>
      if s.s1.clouds == [] || s.s2.clouds == [] || s.imu == [] then g
      else
        var h := Prepared(c, s, g, pos);
        if Sync(c, s).ready then Emitted(h, pos) else h
  }

  /** The positions after a run. */
  function Tagged(c: Config, evs: seq<Event>): Tags {
    if evs == [] then Tags(Lane([], 0, [], []), Lane([], 0, [], []), Polls(0, [], []))
    else
      var before := evs[..|evs| - 1];
      TagStep(c, SyncRuns.After(c, before).s, Tagged(c, before), evs[|evs| - 1], |before|)
  }

  // ---------------------------------------------------------------- what the positions mean

  ghost predicate Increasing(q: seq<nat>) {
    forall j, k :: 0 <= j < k < |q| ==> q[j] < q[k]
  }

  /** The queue holds the scans at these positions; only a latched one may be rebased. */
  ghost predicate Holds(s: Stream, l: Lane, evs: seq<Event>, first: bool, pushed: bool) {
    && |s.times| == |s.clouds| == |l.queue| && s.lastStamp == LastStamp(evs, first) && Increasing(l.queue)
    && forall k :: 0 <= k < |l.queue| ==>
         && l.queue[k] < |evs| && IsScan(evs[l.queue[k]], first) && s.times[k] == evs[l.queue[k]].scan.stamp
         && (s.clouds[k] == evs[l.queue[k]].scan.cloud || (pushed && l.queue[k] == l.latch))
  }

  /** The latched scan is at the front unless the clock has run backwards since; then only
      later scans are queued. */
  ghost predicate Front(l: Lane, evs: seq<Event>, first: bool, since: nat) {
    && l.latch < since < |evs| && IsScan(evs[l.latch], first) && l.queue != []
    && if RanBack(evs, since, |evs|, first) then forall k :: 0 <= k < |l.queue| ==> since < l.queue[k]
       else l.queue[0] == l.latch
  }

  /** For every bundle so far: the scan popped is the one latched exactly when the clock did
      not run backwards in between, and what is popped is not latched later. */
  ghost predicate History(l: Lane, evs: seq<Event>, first: bool, sinces: seq<nat>, ats: seq<nat>) {
    && |l.latched| == |l.popped| == |sinces| == |ats|
    && (forall k :: 0 <= k < |ats| ==>
          && l.latched[k] <= l.popped[k] < ats[k] < |evs| && l.latched[k] < sinces[k] <= ats[k]
          && IsScan(evs[l.latched[k]], first) && IsScan(evs[l.popped[k]], first)
          && (l.popped[k] == l.latched[k] <==> !RanBack(evs, sinces[k], ats[k], first)))
    && (forall j, k :: 0 <= j < k < |ats| ==> l.popped[j] < l.latched[k])
  }

  /** What waits has not been popped. */
  ghost predicate Ahead(l: Lane, pushed: bool) {
    && (forall j, k :: 0 <= j < |l.popped| && 0 <= k < |l.queue| ==> l.popped[j] < l.queue[k])
    && (pushed ==> forall j :: 0 <= j < |l.popped| ==> l.popped[j] < l.latch)
  }

  ghost predicate LaneTracks(s: Stream, l: Lane, evs: seq<Event>, first: bool, pushed: bool, p: Polls) {
    && Holds(s, l, evs, first, pushed) && Ahead(l, pushed) && History(l, evs, first, p.sinces, p.ats)
    && (pushed ==> Front(l, evs, first, p.since))
  }

  // ---------------------------------------------------------------- one event

  lemma LastStampNext(evs: seq<Event>, e: Event, first: bool)
    ensures LastStamp(evs + [e], first) == if IsScan(e, first) then e.scan.stamp else LastStamp(evs, first)
  {
    assert (evs + [e])[..|evs|] == evs;
  }

  lemma BackAtStays(evs: seq<Event>, e: Event, j: nat, first: bool)
    ensures j < |evs| ==> BackAt(evs + [e], j, first) == BackAt(evs, j, first)
    ensures j == |evs| ==> (BackAt(evs + [e], j, first) <==> IsScan(e, first) && e.scan.stamp < LastStamp(evs, first))
  {
    if j <= |evs| {
      assert (evs + [e])[..j] == evs[..j];
      assert evs[..|evs|] == evs;
    }
  }

  lemma RanBackStays(evs: seq<Event>, e: Event, from: nat, to: nat, first: bool)
    requires to <= |evs|
    ensures RanBack(evs + [e], from, to, first) == RanBack(evs, from, to, first)
  {
    hide BackAt;
    forall j: nat | from <= j < to
      ensures BackAt(evs + [e], j, first) == BackAt(evs, j, first)
    {
      BackAtStays(evs, e, j, first);
    }
  }

  lemma RanBackNext(evs: seq<Event>, e: Event, from: nat, first: bool)
    requires from <= |evs|
    ensures RanBack(evs + [e], from, |evs| + 1, first)
            <==> RanBack(evs, from, |evs|, first) || (IsScan(e, first) && e.scan.stamp < LastStamp(evs, first))
  {
    hide BackAt;
    RanBackStays(evs, e, from, |evs|, first);
    BackAtStays(evs, e, |evs|, first);
  }

  lemma HistoryStays(l: Lane, evs: seq<Event>, e: Event, first: bool, p: Polls)
    requires History(l, evs, first, p.sinces, p.ats)
    ensures History(l, evs + [e], first, p.sinces, p.ats)
  {
    hide RanBack, IsScan;
    forall k | 0 <= k < |p.ats|
      ensures RanBack(evs + [e], p.sinces[k], p.ats[k], first) == RanBack(evs, p.sinces[k], p.ats[k], first)
    {
      RanBackStays(evs, e, p.sinces[k], p.ats[k], first);
    }
  }

  /** An event that is not a scan of the lidar changes nothing for it. */
  lemma LaneStays(s: Stream, l: Lane, evs: seq<Event>, e: Event, first: bool, pushed: bool, p: Polls)
    requires LaneTracks(s, l, evs, first, pushed, p) && !IsScan(e, first)
    ensures LaneTracks(s, l, evs + [e], first, pushed, p)
  {
    hide RanBack, IsScan, History, LastStamp;
    LastStampNext(evs, e, first);
    HistoryStays(l, evs, e, first, p);
    if pushed {
      RanBackNext(evs, e, p.since, first);
    }
  }

  /** A scan of the lidar is queued, alone if its clock ran backwards. */
  lemma LanePushed(s: Stream, l: Lane, evs: seq<Event>, e: Event, first: bool, pushed: bool, p: Polls)
    requires LaneTracks(s, l, evs, first, pushed, p) && IsScan(e, first)
    ensures LaneTracks(PushScan(s, e.scan.stamp, e.scan.cloud), Pushed(l, e.scan.stamp < s.lastStamp, |evs|),
                       evs + [e], first, pushed, p)
  {
    hide PushScan, Pushed, IsScan, Front;
    PushHolds(s, l, evs, e, first, pushed);
    PushAhead(s, l, evs, e, first, pushed, p);
  }

  lemma PushHolds(s: Stream, l: Lane, evs: seq<Event>, e: Event, first: bool, pushed: bool)
    requires Holds(s, l, evs, first, pushed) && IsScan(e, first)
    ensures Holds(PushScan(s, e.scan.stamp, e.scan.cloud), Pushed(l, e.scan.stamp < s.lastStamp, |evs|), evs + [e],
                  first, pushed)
  {
    hide IsScan, LastStamp;
    LastStampNext(evs, e, first);
  }

  lemma PushAhead(s: Stream, l: Lane, evs: seq<Event>, e: Event, first: bool, pushed: bool, p: Polls)
    requires Holds(s, l, evs, first, pushed) && Ahead(l, pushed) && History(l, evs, first, p.sinces, p.ats)
    requires pushed ==> Front(l, evs, first, p.since)
    requires IsScan(e, first)
    ensures Ahead(Pushed(l, e.scan.stamp < s.lastStamp, |evs|), pushed)
    ensures History(Pushed(l, e.scan.stamp < s.lastStamp, |evs|), evs + [e], first, p.sinces, p.ats)
    ensures pushed ==> Front(Pushed(l, e.scan.stamp < s.lastStamp, |evs|), evs + [e], first, p.since)
  {
    hide RanBack, IsScan, LastStamp;
    HistoryStays(l, evs, e, first, p);
    if pushed {
      RanBackNext(evs, e, p.since, first);
    }
  }

  lemma LaneDrops(s: Stream, l: Lane, evs: seq<Event>, first: bool, p: Polls, d: nat)
    requires LaneTracks(s, l, evs, first, false, p) && d <= |s.times|
    ensures LaneTracks(Dropped(s, d), Shortened(l, d), evs, first, false, p)
  {
    hide IsScan, LastStamp, RanBack;
  }

  ghost predicate AtPoll(evs: seq<Event>) {
    evs != [] && evs[|evs| - 1].Poll?
  }

  lemma NotBackAtPoll(evs: seq<Event>, from: nat, first: bool)
    requires AtPoll(evs)
    ensures from < |evs| ==> RanBack(evs, from, |evs|, first) == RanBack(evs, from, |evs| - 1, first)
    ensures !RanBack(evs, |evs| - 1, |evs|, first)
  {
    hide LastStamp;
  }

  /** The poll latches the front of the queue. */
  lemma LaneLatches(s: Stream, t: Stream, l: Lane, evs: seq<Event>, first: bool, p: Polls)
    requires LaneTracks(s, l, evs, first, false, p) && AtPoll(evs) && s.times != []
    requires t.times == s.times && t.lastStamp == s.lastStamp && |t.clouds| == |s.clouds|
    requires forall k :: 1 <= k < |s.clouds| ==> t.clouds[k] == s.clouds[k]
    ensures LaneTracks(t, Latching(l), evs, first, true, p.(since := |evs| - 1))
  {
    hide LastStamp, RanBack;
    NotBackAtPoll(evs, |evs| - 1, first);
    assert l.queue[0] != |evs| - 1;
  }

  /** The poll pops the front of the queue with its bundle. */
  lemma LanePops(s: Stream, l: Lane, evs: seq<Event>, first: bool, p: Polls)
    requires LaneTracks(s, l, evs, first, true, p) && AtPoll(evs)
    ensures s.times != [] && s.clouds != []
    ensures LaneTracks(Dropped(s, 1), Popped(l), evs, first, false, Sent(p, |evs| - 1))
  {
    NotBackAtPoll(evs, p.since, first);
    hide RanBack, LastStamp;
    assert l.queue[0] != |evs| - 1;
    PopHistory(l, evs, first, p);
    hide History;
  }

  lemma PopHistory(l: Lane, evs: seq<Event>, first: bool, p: Polls)
    requires History(l, evs, first, p.sinces, p.ats) && Ahead(l, true) && Front(l, evs, first, p.since) && AtPoll(evs)
    requires l.queue[0] < |evs| && IsScan(evs[l.queue[0]], first)
    ensures History(Popped(l), evs, first, p.sinces + [p.since], p.ats + [|evs| - 1])
  {
    NotBackAtPoll(evs, p.since, first);
    hide RanBack;
    assert l.queue[0] != |evs| - 1;
  }

  // ---------------------------------------------------------------- polls

  ghost predicate StateTags(c: Config, s: SyncState, g: Tags, evs: seq<Event>) {
    && s.Parallel()
    && LaneTracks(s.s1, g.l1, evs, true, s.pushed, g.polls) && LaneTracks(s.s2, g.l2, evs, false, s.pushed, g.polls)
    && (s.pushed ==> Latched(c, s, evs[g.l1.latch].scan, evs[g.l2.latch].scan))
  }

  lemma PrepareTags(c: Config, s: SyncState, g: Tags, evs: seq<Event>)
    requires StateTags(c, s, g, evs) && AtPoll(evs)
    ensures var p := Prepare(c, s);
            StateTags(c, p.state, Prepared(c, s, g, |evs| - 1), evs) && (p.ready ==> p.state.pushed)
  {
    if s.pushed {
      PrepareLatched(c, s);
      hide Prepare, LaneTracks, Latched;
      assert Shortened(g.l1, 0) == g.l1 && Shortened(g.l2, 0) == g.l2;
    } else {
      PrepareNewTags(c, s, g, evs);
    }
  }

  lemma PrepareNewTags(c: Config, s: SyncState, g: Tags, evs: seq<Event>)
    requires StateTags(c, s, g, evs) && AtPoll(evs) && !s.pushed
    ensures var p := Prepare(c, s);
            StateTags(c, p.state, Prepared(c, s, g, |evs| - 1), evs) && (p.ready ==> p.state.pushed)
  {
    hide Drops, Prepare, Latch, LaneTracks, Dropped, Shortened, Latching, Latched;
    PrepareUnfolds(c, s);
    var d := Drops(s.s1.times, s.s2.times, c.skew);
    var x := s.(s1 := Dropped(s.s1, d.0), s2 := Dropped(s.s2, d.1));
    var h := g.(l1 := Shortened(g.l1, d.0), l2 := Shortened(g.l2, d.1));
    LaneDrops(s.s1, g.l1, evs, true, g.polls, d.0);
    LaneDrops(s.s2, g.l2, evs, false, g.polls, d.1);
    if x.s1.times != [] && x.s2.times != [] {
      DropsInReach(s, c.skew);
      LatchTags(c, x, h, evs);
    }
  }

  lemma DropsInReach(s: SyncState, skew: real)
    requires s.Parallel()
    ensures var d := Drops(s.s1.times, s.s2.times, skew);
            var x, y := Dropped(s.s1, d.0), Dropped(s.s2, d.1);
            x.times != [] && y.times != [] ==> Abs(x.times[0] - y.times[0]) <= skew
  {
    DropsReachAPair(s.s1.times, s.s2.times, skew);
    hide Drops;
  }

  lemma LatchTags(c: Config, s: SyncState, g: Tags, evs: seq<Event>)
    requires StateTags(c, s, g, evs) && AtPoll(evs) && !s.pushed && s.s1.times != [] && s.s2.times != []
    requires Abs(s.s1.times[0] - s.s2.times[0]) <= c.skew
    ensures var h := Tags(Latching(g.l1), Latching(g.l2), g.polls.(since := |evs| - 1));
            StateTags(c, Latch(c, s), h, evs) && Latch(c, s).pushed
  {
    var t := Latch(c, s);
    FrontScan(s.s1, g.l1, evs, true, g.polls);
    FrontScan(s.s2, g.l2, evs, false, g.polls);
    LatchTracks(c, s, evs[g.l1.queue[0]].scan, evs[g.l2.queue[0]].scan);
    LatchedFronts(c, s);
    hide Latch, LaneTracks, Latched;
    LaneLatches(s.s1, t.s1, g.l1, evs, true, g.polls);
    LaneLatches(s.s2, t.s2, g.l2, evs, false, g.polls);
  }

  lemma FrontScan(s: Stream, l: Lane, evs: seq<Event>, first: bool, p: Polls)
    requires LaneTracks(s, l, evs, first, false, p) && s.times != []
    ensures l.queue != [] && l.queue[0] < |evs| && IsScan(evs[l.queue[0]], first)
    ensures s.clouds != [] && Scan(s.times[0], s.clouds[0]) == evs[l.queue[0]].scan
  {
    hide Ahead, History, LastStamp, IsScan;
  }

  lemma LatchedFronts(c: Config, s: SyncState)
    requires s.Parallel() && s.s1.times != [] && s.s2.times != []
    ensures var t := Latch(c, s);
            && t.pushed && t.s1.lastStamp == s.s1.lastStamp && t.s2.lastStamp == s.s2.lastStamp
            && |t.s1.clouds| == |s.s1.clouds| && |t.s2.clouds| == |s.s2.clouds|
            && (forall k :: 1 <= k < |s.s1.clouds| ==> t.s1.clouds[k] == s.s1.clouds[k])
            && (forall k :: 1 <= k < |s.s2.clouds| ==> t.s2.clouds[k] == s.s2.clouds[k])
  {
    hide Ended, Transformed, Rebased;
  }

  lemma EmitTags(c: Config, s: SyncState, g: Tags, evs: seq<Event>)
    requires StateTags(c, s, g, evs) && AtPoll(evs) && s.pushed && s.imu != []
    ensures s.s1.times != [] && s.s2.times != []
    ensures StateTags(c, Emit(s), Emitted(g, |evs| - 1), evs)
    ensures MadeOf(c, Emit(s).meas, evs[g.l1.latch].scan, evs[g.l2.latch].scan)
  {
    LanePops(s.s1, g.l1, evs, true, g.polls);
    LanePops(s.s2, g.l2, evs, false, g.polls);
    hide Take, LaneTracks, MadeOf, Popped, Dropped;
    SameBundle(c, s, Emit(s).meas.imu, evs[g.l1.latch].scan, evs[g.l2.latch].scan);
  }

  // ---------------------------------------------------------------- whole runs

  /** Every bundle is made of the two scans that were latched for it. */
  ghost predicate Bundled(c: Config, bundles: seq<Bundle>, g: Tags, evs: seq<Event>) {
    && |bundles| == |g.l1.latched| == |g.l2.latched|
    && forall k :: 0 <= k < |bundles| ==> FromScans(c, bundles[k], evs, g.l1.latched[k], g.l2.latched[k])
  }

  ghost predicate FromScans(c: Config, b: Bundle, evs: seq<Event>, i: nat, j: nat) {
    && i < |evs| && j < |evs| && IsScan(evs[i], true) && IsScan(evs[j], false)
    && MadeOf(c, b, evs[i].scan, evs[j].scan) && Abs(evs[i].scan.stamp - evs[j].scan.stamp) <= c.skew
  }

  lemma BundledStays(c: Config, bundles: seq<Bundle>, g: Tags, evs: seq<Event>, e: Event)
    requires Bundled(c, bundles, g, evs)
    ensures Bundled(c, bundles, g, evs + [e])
  {
    hide IsScan, MadeOf;
  }

  lemma LatchInside(s: SyncState, g: Tags, evs: seq<Event>)
    requires LaneTracks(s.s1, g.l1, evs, true, s.pushed, g.polls)
             && LaneTracks(s.s2, g.l2, evs, false, s.pushed, g.polls)
    ensures s.pushed ==> g.l1.latch < |evs| && g.l2.latch < |evs|
    ensures s.pushed ==> IsScan(evs[g.l1.latch], true) && IsScan(evs[g.l2.latch], false)
  {
  }

  /** A callback moves neither latch, and what is latched stays as it is. */
  lemma CallbackState(c: Config, s: SyncState, t: SyncState, g: Tags, h: Tags, evs: seq<Event>, e: Event)
    requires StateTags(c, s, g, evs) && t.Parallel() && t.pushed == s.pushed && t.meas == s.meas
    requires t.s1.endTime == s.s1.endTime && t.s2.endTime == s.s2.endTime
    requires h.l1.latch == g.l1.latch && h.l2.latch == g.l2.latch
    requires LaneTracks(t.s1, h.l1, evs + [e], true, t.pushed, h.polls)
    requires LaneTracks(t.s2, h.l2, evs + [e], false, t.pushed, h.polls)
    ensures StateTags(c, t, h, evs + [e])
  {
    LatchInside(s, g, evs);
    PushKeepsLatched(c, s, t);
    hide LaneTracks, Latched;
  }

  lemma CallbackTags(c: Config, r: Run, g: Tags, evs: seq<Event>, e: Event)
    requires StateTags(c, r.s, g, evs) && !e.Poll?
    ensures StateTags(c, Step(c, r, e).s, TagStep(c, r.s, g, e, |evs|), evs + [e])
  {
    hide LaneTracks, Latched, Pushed, PushScan, Sync, Prepared;
    var s, t, h, p := r.s, Step(c, r, e).s, TagStep(c, r.s, g, e, |evs|), g.polls;
    match e
    case Scan1(x) =>
      LanePushed(s.s1, g.l1, evs, e, true, s.pushed, p);
      LaneStays(s.s2, g.l2, evs, e, false, s.pushed, p);
      CallbackState(c, s, t, g, h, evs, e);
    case Scan2(x) =>
      LaneStays(s.s1, g.l1, evs, e, true, s.pushed, p);
      LanePushed(s.s2, g.l2, evs, e, false, s.pushed, p);
      CallbackState(c, s, t, g, h, evs, e);
    case ImuMsg(_) =>
      LaneStays(s.s1, g.l1, evs, e, true, s.pushed, p);
      LaneStays(s.s2, g.l2, evs, e, false, s.pushed, p);
      CallbackState(c, s, t, g, h, evs, e);
  }

  lemma PollStays(c: Config, s: SyncState, g: Tags, evs: seq<Event>)
    requires StateTags(c, s, g, evs)
    ensures StateTags(c, s, g, evs + [Poll])
  {
    hide LaneTracks, Latched;
    LatchInside(s, g, evs);
    LaneStays(s.s1, g.l1, evs, Poll, true, s.pushed, g.polls);
    LaneStays(s.s2, g.l2, evs, Poll, false, s.pushed, g.polls);
  }

  /** The bundles after a poll. */
  function Bundles(r: Run, o: SyncResult): seq<Bundle> {
    if o.ready then r.bundles + [o.state.meas] else r.bundles
  }

  lemma PollTags(c: Config, r: Run, g: Tags, evs: seq<Event>)
    requires RunTags(c, r, g, evs)
    ensures var o, h := Sync(c, r.s), TagStep(c, r.s, g, Poll, |evs|);
            StateTags(c, o.state, h, evs + [Poll]) && Bundled(c, Bundles(r, o), h, evs + [Poll])
  {
    var s, more := r.s, evs + [Poll];
    PollStays(c, s, g, evs);
    BundledStays(c, r.bundles, g, evs, Poll);
    hide StateTags, Bundled, Prepared;
    if s.s1.clouds == [] || s.s2.clouds == [] || s.imu == [] {
      return;
    }
    PrepareTags(c, s, g, more);
    var p, h := Prepare(c, s), Prepared(c, s, g, |evs|);
    SameBundles(c, s, g, r.bundles, more);
    hide Prepare, Emit, Emitted;
    if Sync(c, s).ready {
      EmitTags(c, p.state, h, more);
      OneMoreBundle(c, p.state, h, r.bundles, more);
    }
  }

  lemma SameBundles(c: Config, s: SyncState, g: Tags, bundles: seq<Bundle>, evs: seq<Event>)
    requires s.Parallel() && evs != [] && Bundled(c, bundles, g, evs)
    ensures Bundled(c, bundles, Prepared(c, s, g, |evs| - 1), evs)
  {
    hide Prepare, FromScans;
  }

  lemma OneMoreBundle(c: Config, s: SyncState, g: Tags, bundles: seq<Bundle>, evs: seq<Event>)
    requires StateTags(c, s, g, evs) && s.pushed && s.imu != [] && s.s1.times != [] && s.s2.times != []
    requires Bundled(c, bundles, g, evs)
    requires g.l1.latch < |evs| && g.l2.latch < |evs|
    requires MadeOf(c, Emit(s).meas, evs[g.l1.latch].scan, evs[g.l2.latch].scan)
    ensures Bundled(c, bundles + [Emit(s).meas], Emitted(g, |evs| - 1), evs)
  {
    hide Emit, MadeOf, Ahead, History, Holds;
    assert FromScans(c, Emit(s).meas, evs, g.l1.latch, g.l2.latch);
    hide FromScans;
  }

  /** What every run keeps. */
  ghost predicate RunTags(c: Config, r: Run, g: Tags, evs: seq<Event>) {
    r.s.Parallel() && StateTags(c, r.s, g, evs) && Bundled(c, r.bundles, g, evs)
  }

  lemma CallbackUnfolds(c: Config, r: Run, e: Event)
    requires r.s.Parallel() && !e.Poll?
    ensures Step(c, r, e).bundles == r.bundles
  {
    hide Sync;
  }

  lemma StepTags(c: Config, r: Run, g: Tags, evs: seq<Event>, e: Event)
    requires RunTags(c, r, g, evs)
    ensures RunTags(c, Step(c, r, e), TagStep(c, r.s, g, e, |evs|), evs + [e])
  {
    hide StateTags, Bundled, Step, TagStep, Sync;
    if e.Poll? {
      PollTags(c, r, g, evs);
      PollUnfolds(c, r);
    } else {
      CallbackTags(c, r, g, evs, e);
      CallbackUnfolds(c, r, e);
      BundledStays(c, r.bundles, g, evs, e);
      SameLatched(c, r.s, g, e, |evs|, r.bundles, evs + [e]);
    }
  }

  lemma SameLatched(c: Config, s: SyncState, g: Tags, e: Event, pos: nat, bundles: seq<Bundle>, evs: seq<Event>)
    requires s.Parallel() && !e.Poll? && Bundled(c, bundles, g, evs)
    ensures Bundled(c, bundles, TagStep(c, s, g, e, pos), evs)
  {
    hide FromScans, Sync, Prepared;
  }

  lemma TagsNext(c: Config, evs: seq<Event>)
    requires evs != []
    ensures var before, e := evs[..|evs| - 1], evs[|evs| - 1];
            && SyncRuns.After(c, evs) == Step(c, SyncRuns.After(c, before), e)
            && Tagged(c, evs) == TagStep(c, SyncRuns.After(c, before).s, Tagged(c, before), e, |before|)
  {
    hide Step, TagStep;
  }

  lemma StartTags(c: Config)
    ensures RunTags(c, SyncRuns.After(c, []), Tagged(c, []), [])
  {
    hide Latched, MadeOf, RanBack, FromScans, LaneTracks, Step, TagStep;
    StartLane(true);
    StartLane(false);
  }

  lemma StartLane(first: bool)
    ensures LaneTracks(Initial().s1, Lane([], 0, [], []), [], first, false, Polls(0, [], []))
  {
    hide RanBack, IsScan, Front;
    var l: Lane := Lane([], 0, [], []);
    assert Ahead(l, false);
    assert History(l, [], first, [], []);
    assert LastStamp([], first) == 0.0;
    hide LastStamp;
    assert Holds(Initial().s1, l, [], first, false);
  }

  lemma {:induction false} RunIsTagged(c: Config, evs: seq<Event>)
    ensures RunTags(c, SyncRuns.After(c, evs), Tagged(c, evs), evs)
  {
    hide *;
    if evs == [] {
      StartTags(c);
      return;
    }
    var before, e := evs[..|evs| - 1], evs[|evs| - 1];
    RunIsTagged(c, before);
    TagsNext(c, evs);
    assert before + [e] == evs;
    StepTags(c, SyncRuns.After(c, before), Tagged(c, before), before, e);
  }

  // ---------------------------------------------------------------- which polls these are

  /** From one position on, but not before, until the other a pair is latched. */
  ghost predicate LatchedOver(c: Config, evs: seq<Event>, from: nat, to: nat) {
    && from <= to <= |evs| && !SyncRuns.After(c, evs[..from]).s.pushed
    && forall j :: from < j <= to ==> SyncRuns.After(c, evs[..j]).s.pushed
  }

  ghost predicate EmittedAt(c: Config, evs: seq<Event>, at: nat, k: nat) {
    at < |evs| && |SyncRuns.After(c, evs[..at]).bundles| == k && |SyncRuns.After(c, evs[..at + 1]).bundles| == k + 1
  }

  ghost predicate Timed(c: Config, evs: seq<Event>, p: Polls, pushed: bool) {
    && |p.sinces| == |p.ats|
    && (forall k :: 0 <= k < |p.ats| ==> LatchedOver(c, evs, p.sinces[k], p.ats[k]) && EmittedAt(c, evs, p.ats[k], k))
    && (pushed ==> LatchedOver(c, evs, p.since, |evs|))
  }

  lemma LatchedOverNext(c: Config, evs: seq<Event>, e: Event, from: nat, to: nat)
    requires LatchedOver(c, evs, from, to)
    ensures LatchedOver(c, evs + [e], from, to)
    ensures to == |evs| && SyncRuns.After(c, evs + [e]).s.pushed ==> LatchedOver(c, evs + [e], from, to + 1)
  {
    hide SyncRuns.After;
    var more := evs + [e];
    assert more[..from] == evs[..from] && more[..|evs| + 1] == more;
    forall j | from < j <= to
      ensures SyncRuns.After(c, more[..j]).s.pushed
    {
      assert more[..j] == evs[..j];
    }
  }

  lemma EmittedAtNext(c: Config, evs: seq<Event>, e: Event, at: nat, k: nat)
    requires EmittedAt(c, evs, at, k)
    ensures EmittedAt(c, evs + [e], at, k)
  {
    assert (evs + [e])[..at] == evs[..at] && (evs + [e])[..at + 1] == evs[..at + 1];
    hide SyncRuns.After;
  }

  lemma TimedNext(c: Config, evs: seq<Event>, e: Event, p: Polls, pushed: bool)
    requires Timed(c, evs, p, pushed)
    ensures Timed(c, evs + [e], p, pushed && SyncRuns.After(c, evs + [e]).s.pushed)
  {
    hide LatchedOver, EmittedAt, SyncRuns.After;
    forall k | 0 <= k < |p.ats|
      ensures LatchedOver(c, evs + [e], p.sinces[k], p.ats[k]) && EmittedAt(c, evs + [e], p.ats[k], k)
    {
      LatchedOverNext(c, evs, e, p.sinces[k], p.ats[k]);
      EmittedAtNext(c, evs, e, p.ats[k], k);
    }
    if pushed {
      LatchedOverNext(c, evs, e, p.since, |evs|);
    }
  }

  /** What a poll does to the latch and to the marks of the polls. */
  lemma PollMarks(c: Config, s: SyncState, g: Tags, pos: nat)
    requires s.Parallel()
    ensures var o, h := Sync(c, s), TagStep(c, s, g, Poll, pos).polls;
            && (!o.ready && o.state.pushed ==> h == if s.pushed then g.polls else g.polls.(since := pos))
            && (!o.ready && !o.state.pushed ==> !s.pushed && h == g.polls)
            && (o.ready ==> !o.state.pushed && h == Sent(if s.pushed then g.polls else g.polls.(since := pos), pos))
  {
    hide Take, Drops, Ended, Transformed, Rebased, Shortened, Latching;
    if s.pushed {
      PrepareLatched(c, s);
    } else {
      PrepareUnfolds(c, s);
    }
    hide Prepare, Popped;
  }

  lemma PollTimed(c: Config, evs: seq<Event>, r: Run, g: Tags)
    requires r == SyncRuns.After(c, evs) && |r.bundles| == |g.polls.ats| && Timed(c, evs, g.polls, r.s.pushed)
    requires SyncRuns.After(c, evs + [Poll]) == Step(c, r, Poll)
    ensures Timed(c, evs + [Poll], TagStep(c, r.s, g, Poll, |evs|).polls, Step(c, r, Poll).s.pushed)
  {
    hide SyncRuns.After, Step, TagStep, LatchedOver, EmittedAt;
    var p, pos, o := g.polls, |evs|, Sync(c, r.s);
    PollMarks(c, r.s, g, pos);
    PollUnfolds(c, r);
    TimedNext(c, evs, Poll, p, r.s.pushed);
    hide Sync;
    assert (evs + [Poll])[..pos] == evs && (evs + [Poll])[..pos + 1] == evs + [Poll];
    if r.s.pushed {
      LatchedOverNext(c, evs, Poll, p.since, pos);
    } else {
      LatchedFromHere(c, evs);
    }
    if o.ready {
      assert EmittedAt(c, evs + [Poll], pos, |p.ats|) by {
        assert |SyncRuns.After(c, evs + [Poll]).bundles| == |r.bundles| + 1;
        EmittedHere(c, evs, |p.ats|);
      }
    }
  }

  lemma EmittedHere(c: Config, evs: seq<Event>, k: nat)
    requires |SyncRuns.After(c, evs).bundles| == k && |SyncRuns.After(c, evs + [Poll]).bundles| == k + 1
    ensures EmittedAt(c, evs + [Poll], |evs|, k)
  {
    assert (evs + [Poll])[..|evs|] == evs && (evs + [Poll])[..|evs| + 1] == evs + [Poll];
    hide SyncRuns.After;
  }

  lemma LatchedFromHere(c: Config, evs: seq<Event>)
    requires !SyncRuns.After(c, evs).s.pushed
    ensures LatchedOver(c, evs + [Poll], |evs|, |evs|)
    ensures SyncRuns.After(c, evs + [Poll]).s.pushed ==> LatchedOver(c, evs + [Poll], |evs|, |evs| + 1)
  {
    assert (evs + [Poll])[..|evs|] == evs && (evs + [Poll])[..|evs| + 1] == evs + [Poll];
    hide SyncRuns.After;
  }

  lemma CallbackMarks(c: Config, r: Run, g: Tags, e: Event, pos: nat)
    requires r.s.Parallel() && !e.Poll?
    ensures TagStep(c, r.s, g, e, pos).polls == g.polls && Step(c, r, e).s.pushed == r.s.pushed
  {
    hide Sync, Prepared;
  }

  /** The positions kept for a bundle are the poll that latched its pair, which then stayed
      latched, and the poll that emitted it. */
  lemma {:induction false} RunIsTimed(c: Config, evs: seq<Event>)
    ensures Timed(c, evs, Tagged(c, evs).polls, SyncRuns.After(c, evs).s.pushed)
  {
    hide SyncRuns.After, Step, TagStep, Timed;
    if evs == [] {
      StartTimed(c);
      return;
    }
    var before, e := evs[..|evs| - 1], evs[|evs| - 1];
    RunIsTimed(c, before);
    TagsNext(c, evs);
    assert before + [e] == evs;
    var r, g := SyncRuns.After(c, before), Tagged(c, before);
    hide Tagged;
    if e.Poll? {
      CountsAgree(c, before);
      PollTimed(c, before, r, g);
    } else {
      CallbackMarks(c, r, g, e, |before|);
      TimedNext(c, before, e, g.polls, r.s.pushed);
    }
  }

  lemma StartTimed(c: Config)
    ensures Timed(c, [], Tagged(c, []).polls, SyncRuns.After(c, []).s.pushed)
  {
    hide LatchedOver, EmittedAt;
  }

  lemma CountsAgree(c: Config, evs: seq<Event>)
    ensures |SyncRuns.After(c, evs).bundles| == |Tagged(c, evs).polls.ats|
  {
    RunIsTagged(c, evs);
    hide SyncRuns.After, Tagged, FromScans, Front, Holds, Ahead, Latched;
  }

  // ---------------------------------------------------------------- the theorem

  /** The scan a lidar gives to bundle k and the one it loses with it: the same exactly when
      no scan of it ran backwards while the pair was latched. */
  ghost predicate KeepsItsScan(evs: seq<Event>, l: Lane, first: bool, p: Polls, k: nat)
    requires k < |l.latched| == |l.popped| == |p.sinces| == |p.ats|
  {
    l.popped[k] == l.latched[k] <==> !RanBack(evs, p.sinces[k], p.ats[k], first)
  }

  /** In every run, whatever the clocks of either lidar do, and whatever callbacks come while a
      pair is latched: each bundle is made of the pair that was latched for it, and the two
      scans that leave the queues with it are that pair exactly when, of the lidar, no scan
      ran backwards between the poll that latched and the poll that emitted. */
  lemma PoppedIsLatchedIff(c: Config, evs: seq<Event>, k: nat)
    requires k < |SyncRuns.After(c, evs).bundles|
    ensures var g := Tagged(c, evs);
            && k < |g.l1.latched| == |g.l1.popped| == |g.l2.latched| == |g.l2.popped| == |g.polls.sinces|
               == |g.polls.ats|
            && FromScans(c, SyncRuns.After(c, evs).bundles[k], evs, g.l1.latched[k], g.l2.latched[k])
            && LatchedOver(c, evs, g.polls.sinces[k], g.polls.ats[k]) && EmittedAt(c, evs, g.polls.ats[k], k)
            && KeepsItsScan(evs, g.l1, true, g.polls, k) && KeepsItsScan(evs, g.l2, false, g.polls, k)
  {
    RunIsTagged(c, evs);
    RunIsTimed(c, evs);
    hide SyncRuns.After, Tagged, FromScans, Front, Holds, Ahead, Latched, LatchedOver, EmittedAt, RanBack, IsScan;
  }

  /** A scan popped in place of the latched one is in no bundle of the run, and no scan is in two. */
  lemma LostUnused(c: Config, evs: seq<Event>, j: nat, k: nat)
    requires j < |SyncRuns.After(c, evs).bundles| && k < |SyncRuns.After(c, evs).bundles|
    ensures var g := Tagged(c, evs);
            && j < |g.l1.latched| == |g.l2.latched| && k < |g.l1.latched| == |g.l1.popped| == |g.l2.popped|
            && (g.l1.popped[k] != g.l1.latched[k] ==> g.l1.latched[j] != g.l1.popped[k])
            && (g.l2.popped[k] != g.l2.latched[k] ==> g.l2.latched[j] != g.l2.popped[k])
            && (j != k ==> g.l1.latched[j] != g.l1.latched[k] && g.l2.latched[j] != g.l2.latched[k])
  {
    RunIsTagged(c, evs);
    hide SyncRuns.After, Tagged, FromScans, Front, Holds, Ahead, Latched, RanBack, IsScan;
  }

  // ---------------------------------------------------------------- a run that loses a scan

  /** A pair is latched at 10 and waits for the IMU; then the first lidar's clock runs back to 5. */
  function Waiting(): seq<Event> {
    [Scan1(Scan(10.0, []))] + [Scan2(Scan(10.0, []))] + [ImuMsg(Still(9.0))] + [Poll]
  }

  function Reversed(): seq<Event> {
    Waiting() + [Scan1(Scan(5.0, []))] + [ImuMsg(Still(11.0))]
  }

  lemma AfterNext(c: Config, evs: seq<Event>, e: Event)
    ensures SyncRuns.After(c, evs + [e]) == Step(c, SyncRuns.After(c, evs), e)
  {
    hide Step;
    assert (evs + [e])[..|evs|] == evs;
  }

  lemma BeforeWaiting(c: Config)
    ensures var s := SyncRuns.After(c, [Scan1(Scan(10.0, []))] + [Scan2(Scan(10.0, []))] + [ImuMsg(Still(9.0))]).s;
            && s.s1 == s.s2 == Stream([[]], [10.0], 10.0, 0.0, 0, 0.0) && s.imu == [Still(9.0)] && s.lastImu == 9.0
            && s.seenScan && !s.pushed
    ensures SyncRuns.After(c, [Scan1(Scan(10.0, []))] + [Scan2(Scan(10.0, []))] + [ImuMsg(Still(9.0))]).bundles == []
  {
    var e1, e2, e3 := Scan1(Scan(10.0, [])), Scan2(Scan(10.0, [])), ImuMsg(Still(9.0));
    assert [] + [e1] == [e1];
    AfterNext(c, [], e1);
    AfterNext(c, [e1], e2);
    AfterNext(c, [e1] + [e2], e3);
    var r := SyncRuns.After(c, []);
    hide SyncRuns.After, Sync;
  }

  /** The pair is latched and waits. */
  lemma PollLatches(c: Config, s: SyncState)
    requires c.skew >= 0.0 && s.s1 == s.s2 == Stream([[]], [10.0], 10.0, 0.0, 0, 0.0)
    requires s.imu == [Still(9.0)] && s.lastImu == 9.0 && !s.pushed
    ensures s.Parallel()
    ensures var o := Sync(c, s);
            && !o.ready && o.state.pushed && o.state.s1.times == o.state.s2.times == [10.0]
            && |o.state.s1.clouds| == |o.state.s2.clouds| == 1
            && o.state.s1.lastStamp == 10.0 && o.state.s1.endTime == o.state.s2.endTime == 10.0
            && o.state.meas.begin1 == o.state.meas.begin2 == 10.0
            && o.state.imu == s.imu && o.state.lastImu == 9.0 && o.state.seenScan == s.seenScan
  {
    PrepareUnfolds(c, s);
    assert Drops([10.0], [10.0], c.skew) == (0, 0);
    hide Rebased, Transformed, Prepare, Drops;
    assert Dropped(s.s1, 0) == s.s1;
  }

  /** The emitted bundle is the pair at 10; the scan that leaves the first queue is the one at
      5, which no bundle has; nothing is left. */
  lemma StalePairIsEmitted(c: Config)
    requires c.skew >= 0.0
    ensures var n, r := SyncRuns.After(c, Reversed()), SyncRuns.After(c, Reversed() + [Poll]);
            && n.s.s1.times == [5.0] && n.s.s2.times == [10.0] && n.bundles == []
            && |r.bundles| == 1 && r.bundles[0].begin1 == r.bundles[0].begin2 == 10.0
            && r.s.s1.times == [] && r.s.s2.times == []
  {
    var evs := [Scan1(Scan(10.0, []))] + [Scan2(Scan(10.0, []))] + [ImuMsg(Still(9.0))];
    BeforeWaiting(c);
    AfterNext(c, evs, Poll);
    PollLatches(c, SyncRuns.After(c, evs).s);
    ReversalThenPoll(c);
  }

  lemma ReversalThenPoll(c: Config)
    requires var r := SyncRuns.After(c, Waiting());
             && r.bundles == [] && r.s.pushed && r.s.s1.times == r.s.s2.times == [10.0]
             && |r.s.s1.clouds| == |r.s.s2.clouds| == 1
             && r.s.s1.lastStamp == 10.0 && r.s.s1.endTime == r.s.s2.endTime == 10.0
             && r.s.meas.begin1 == r.s.meas.begin2 == 10.0 && r.s.imu == [Still(9.0)] && r.s.lastImu == 9.0
                && r.s.seenScan
    ensures var n, r := SyncRuns.After(c, Reversed()), SyncRuns.After(c, Reversed() + [Poll]);
            && n.s.s1.times == [5.0] && n.s.s2.times == [10.0] && n.bundles == []
            && |r.bundles| == 1 && r.bundles[0].begin1 == r.bundles[0].begin2 == 10.0
            && r.s.s1.times == [] && r.s.s2.times == []
  {
    hide SyncRuns.After, Waiting, Take, Latch, Drops;
    var e4, e5 := Scan1(Scan(5.0, [])), ImuMsg(Still(11.0));
    AfterNext(c, Waiting(), e4);
    AfterNext(c, Waiting() + [e4], e5);
    AfterNext(c, Reversed(), Poll);
    PrepareLatched(c, SyncRuns.After(c, Reversed()).s);
    hide Prepare;
  }
}
