/** What frame_groups accepts, whatever the messages and their order: seven different parts of
    one time to a frame, and nothing else. */
module RgbdParse {
  import opened Basics
  import opened RgbdTypes
  import opened RgbdGroup
  import opened RgbdEngine
  import opened RgbdValidator

  /** Different parts of one frame, all of its time. */
  ghost predicate PartsOf(u: seq<Record>, g: (int, Frame)) {
    && (forall i :: 0 <= i < |u| ==> u[i].time == g.0 && u[i].item in Parts(g.1))
    && (forall i, j :: 0 <= i < j < |u| ==> u[i].item != u[j].item)
  }

  /** Frame after frame, seven different parts each; neighbours differ in time. */
  ghost predicate Grouped(r: seq<Record>, frames: seq<(int, Frame)>) {
    if frames == [] then r == []
    else
      var n, m := |frames| - 1, |r| - 7;
      && m >= 0 && Grouped(r[..m], frames[..n]) && PartsOf(r[m..], frames[n])
      && (n > 0 ==> frames[n - 1].0 != frames[n].0)
  }

  predicate Holds(s: Slots, i: Item) {
    match i
    case RgbPart(x) => s.rgb == Some(x)
    case DepthPart(x) => s.depth == Some(x)
    case RgbInfoPart(x) => s.rgbInfo == Some(x)
    case DepthInfoPart(x) => s.depthInfo == Some(x)
    case PosePart(x) => s.pose == Some(x)
    case ExtPart(x) => s.ext == Some(x)
    case MetaPart(x) => s.meta == Some(x)
    case _ => false
  }

  function One<T>(o: Option<T>): nat { if o.Some? then 1 else 0 }

  function Count(s: Slots): nat {
    One(s.rgb) + One(s.depth) + One(s.rgbInfo) + One(s.depthInfo) + One(s.pose) + One(s.ext) + One(s.meta)
  }

  /** Whatever is in a slot is the part of the frame. */
  ghost predicate SlotsOf(s: Slots, f: Frame) {
    && s.rgb in {None, Some(f.rgb)} && s.depth in {None, Some(f.depth)} && s.rgbInfo in {None, Some(f.rgbInfo)}
    && s.depthInfo in {None, Some(f.depthInfo)} && s.pose in {None, Some(f.pose)} && s.ext in {None, Some(f.ext)}
    && s.meta in {None, Some(f.meta)}
  }

  lemma FilledHolds(s: Slots, i: Item)
    requires IsGroup(i) && Filled(s, i).Some?
    ensures var t := Filled(s, i).value;
            && Holds(t, i) && !Holds(s, i) && Count(t) == Count(s) + 1 && t != NOTHING
            && forall j :: Holds(t, j) <==> Holds(s, j) || j == i
  {
  }

  lemma EachPart(f: Frame, i: Item)
    ensures i in Parts(f) <==> i in {RgbPart(f.rgb), DepthPart(f.depth), RgbInfoPart(f.rgbInfo),
                                     DepthInfoPart(f.depthInfo), PosePart(f.pose), ExtPart(f.ext), MetaPart(f.meta)}
  {
    var q := Parts(f);
    assert q[0] == RgbPart(f.rgb) && q[1] == DepthPart(f.depth) && q[2] == RgbInfoPart(f.rgbInfo)
           && q[3] == DepthInfoPart(f.depthInfo);
    assert q[4] == PosePart(f.pose) && q[5] == ExtPart(f.ext) && q[6] == MetaPart(f.meta);
  }

  // ---------------------------------------------------------------- what is accepted is grouped

  /** The frames that are closed, and then the messages in the slots. */
  ghost predicate Open(r: seq<Record>, p: Parse) {
    if r == [] then p == Parse(NOTHING, None, [])
    else
      var c := Count(p.slots);
      && 0 < c <= |r| && Grouped(r[..|r| - c], p.done) && p.current.Some?
      && InSlots(r[|r| - c..], p)
      && (p.done != [] ==> p.done[|p.done| - 1].0 != p.current.value)
  }

  ghost predicate InSlots(u: seq<Record>, p: Parse) {
    && (forall i :: 0 <= i < |u| ==> p.current == Some(u[i].time) && Holds(p.slots, u[i].item))
    && (forall i, j :: 0 <= i < j < |u| ==> u[i].item != u[j].item)
  }

  lemma ClosedGrouped(r: seq<Record>, p: Parse)
    requires r != [] && Open(r, p) && Closed(p).Some?
    ensures Closed(p).value.slots == NOTHING && Grouped(r, Closed(p).value.done)
    ensures Closed(p).value.done != [] && Closed(p).value.done[|Closed(p).value.done| - 1].0 == p.current.value
  {
    var f := Completed(p.slots).value;
    var g := (p.current.value, f);
    var u := r[|r| - 7..];
    assert Count(p.slots) == 7;
    forall i | 0 <= i < |u|
      ensures u[i].item in Parts(f)
    {
      EachPart(f, u[i].item);
    }
    hide Parts, Holds;
    assert PartsOf(u, g);
    assert (p.done + [g])[..|p.done|] == p.done;
    hide PartsOf, InSlots, Count;
  }

  lemma FirstOpen(r: seq<Record>, done: seq<(int, Frame)>, x: Record, s: Slots)
    requires Grouped(r, done) && IsGroup(x.item) && Filled(NOTHING, x.item) == Some(s)
    requires done != [] ==> done[|done| - 1].0 != x.time
    ensures Open(r + [x], Parse(s, Some(x.time), done))
  {
    FilledHolds(NOTHING, x.item);
    assert (r + [x])[..|r|] == r && (r + [x])[|r|..] == [x];
    hide Grouped, Filled;
  }

  lemma NextOpen(r: seq<Record>, p: Parse, x: Record, s: Slots)
    requires r != [] && Open(r, p) && p.current == Some(x.time) && IsGroup(x.item) && Filled(p.slots, x.item) == Some(s)
    ensures Open(r + [x], Parse(s, Some(x.time), p.done))
  {
    FilledHolds(p.slots, x.item);
    var m := |r| - Count(p.slots);
    assert (r + [x])[..m] == r[..m] && (r + [x])[m..] == r[m..] + [x];
    hide Grouped, Filled, Holds, Count;
  }

  lemma {:induction false} ParsedOpen(r: seq<Record>)
    requires (forall x :: x in r ==> IsGroup(x.item)) && Parsed(r).Some?
    ensures Open(r, Parsed(r).value)
  {
    hide Open, Filled, Completed, IsGroup;
    if r == [] {
      NothingOpen();
      return;
    }
    var before, x := r[..|r| - 1], r[|r| - 1];
    assert x in r && before + [x] == r;
    ParsedOpen(before);
    var p := Parsed(before).value;
    if before == [] {
      assert p == Parse(NOTHING, None, []);
      NothingGrouped();
      FirstOpen([], [], x, Filled(p.slots, x.item).value);
    } else if p.current.Some? && x.time != p.current.value {
      ClosedGrouped(before, p);
      FirstOpen(before, Closed(p).value.done, x, Filled(NOTHING, x.item).value);
    } else {
      OpenHasTime(before, p);
      NextOpen(before, p, x, Filled(p.slots, x.item).value);
    }
  }

  lemma NothingOpen()
    ensures Open([], Parse(NOTHING, None, []))
  {
  }

  lemma NothingGrouped()
    ensures Grouped([], [])
  {
  }

  lemma OpenHasTime(r: seq<Record>, p: Parse)
    requires r != [] && Open(r, p)
    ensures p.current.Some? && p.slots != NOTHING
  {
    hide Grouped, InSlots;
  }

  // ---------------------------------------------------------------- what is grouped is accepted

  /** A part that is not there yet finds its slot empty. */
  lemma NextPart(s: Slots, f: Frame, i: Item)
    requires SlotsOf(s, f) && i in Parts(f) && !Holds(s, i)
    ensures IsGroup(i) && Filled(s, i).Some? && SlotsOf(Filled(s, i).value, f)
  {
    EachPart(f, i);
    hide Parts;
  }

  lemma AllParts(s: Slots, f: Frame)
    requires SlotsOf(s, f) && Count(s) == 7
    ensures Completed(s) == Some(f)
  {
  }

  /** Where the parser stands within a frame. */
  ghost predicate Stands(s: Slots, f: Frame, u: seq<Record>) {
    SlotsOf(s, f) && Count(s) == |u| && forall i :: Holds(s, i) ==> exists k :: 0 <= k < |u| && u[k].item == i
  }

  lemma StandsNext(s: Slots, g: (int, Frame), u: seq<Record>, x: Record)
    requires Stands(s, g.1, u) && PartsOf(u + [x], g)
    ensures Filled(s, x.item).Some? && Stands(Filled(s, x.item).value, g.1, u + [x])
  {
    var v := u + [x];
    assert v[|u|] == x && forall k :: 0 <= k < |u| ==> v[k] == u[k];
    assert forall k :: 0 <= k < |u| ==> u[k].item != x.item;
    NextPart(s, g.1, x.item);
    FilledHolds(s, x.item);
    var t := Filled(s, x.item).value;
    hide Holds, Filled, Count, SlotsOf, Parts;
    forall i | Holds(t, i)
      ensures exists k :: 0 <= k < |v| && v[k].item == i
    {
      if i == x.item {
        assert v[|u|].item == i;
      } else {
        var k :| 0 <= k < |u| && u[k].item == i;
        assert v[k].item == i;
      }
    }
  }

  lemma NothingStands(f: Frame)
    ensures Stands(NOTHING, f, [])
  {
  }

  lemma PartsBefore(u: seq<Record>, x: Record, g: (int, Frame))
    requires PartsOf(u + [x], g)
    ensures PartsOf(u, g) && x.time == g.0
  {
    assert forall i :: 0 <= i < |u| ==> u[i] == (u + [x])[i];
    assert (u + [x])[|u|] == x;
  }

  lemma ParsedSnoc(r: seq<Record>, x: Record)
    ensures Parsed(r + [x]) == if Parsed(r).None? then None else Fed(Parsed(r).value, x)
  {
    assert (r + [x])[..|r|] == r;
    hide Fed;
  }

  lemma FedAgain(p: Parse, x: Record)
    requires p.current == Some(x.time) && Filled(p.slots, x.item).Some?
    ensures Fed(p, x) == Some(Parse(Filled(p.slots, x.item).value, Some(x.time), p.done))
  {
  }

  lemma FedAnew(p: Parse, x: Record, done: seq<(int, Frame)>)
    requires p == Parse(NOTHING, None, done)
             || (p.current.Some? && p.current.value != x.time && Closed(p) == Some(Parse(NOTHING, p.current, done)))
    requires Filled(NOTHING, x.item).Some?
    ensures Fed(p, x) == Some(Parse(Filled(NOTHING, x.item).value, Some(x.time), done))
  {
    hide Filled, Closed;
  }

  /** After the frames, and at least one part of the next one. */
  lemma {:induction false} GroupedParsed(r: seq<Record>, frames: seq<(int, Frame)>, g: (int, Frame), u: seq<Record>)
    returns (s: Slots)
    requires Grouped(r, frames) && PartsOf(u, g) && 0 < |u| <= 7
    requires frames != [] ==> frames[|frames| - 1].0 != g.0
    ensures Parsed(r + u) == Some(Parse(s, Some(g.0), frames)) && Stands(s, g.1, u)
    decreases |frames|, |u|
  {
    hide *;
    var v, x := u[..|u| - 1], u[|u| - 1];
    assert u == v + [x] && r + u == (r + v) + [x];
    PartsBefore(v, x, g);
    ParsedSnoc(r + v, x);
    if v != [] {
      var t := GroupedParsed(r, frames, g, v);
      StandsNext(t, g, v, x);
      FedAgain(Parse(t, Some(g.0), frames), x);
      s := Filled(t, x.item).value;
      return;
    }
    NothingStands(g.1);
    StandsNext(NOTHING, g, [], x);
    s := Filled(NOTHING, x.item).value;
    assert r + v == r && v == [] && [] + [x] == u;
    if frames != [] {
      LastClosed(r, frames);
    } else {
      GroupedNothing(r);
      ParsedNothing();
    }
    FedAnew(Parsed(r).value, x, frames);
  }

  lemma {:induction false} LastClosed(r: seq<Record>, frames: seq<(int, Frame)>)
    requires Grouped(r, frames) && frames != []
    ensures Parsed(r).Some? && Parsed(r).value.current == Some(frames[|frames| - 1].0)
    ensures Closed(Parsed(r).value) == Some(Parse(NOTHING, Parsed(r).value.current, frames))
    ensures Parsed(r).value.slots != NOTHING
    decreases |frames|, 0
  {
    hide PartsOf, Filled, Parsed;
    var n, m := |frames| - 1, |r| - 7;
    var s := GroupedParsed(r[..m], frames[..n], frames[n], r[m..]);
    assert r[..m] + r[m..] == r && frames[..n] + [frames[n]] == frames;
    assert SlotsOf(s, frames[n].1) && Count(s) == 7;
    AllParts(s, frames[n].1);
    hide Grouped, Stands, SlotsOf;
  }

  // ---------------------------------------------------------------- exactly

  /** The messages read give these frames exactly when they are, frame after frame, seven
      different parts of one time. */
  lemma FrameGroupsIff(r: seq<Record>, frames: seq<(int, Frame)>)
    requires forall x :: x in r ==> IsGroup(x.item)
    ensures FrameGroups(r) == Some(frames) <==> Grouped(r, frames)
  {
    hide Parsed, Grouped, Closed, IsGroup;
    if Grouped(r, frames) {
      if frames == [] {
        GroupedNothing(r);
        ParsedNothing();
      } else {
        LastClosed(r, frames);
      }
      return;
    }
    if FrameGroups(r) == Some(frames) {
      ParsedOpen(r);
      var p := Parsed(r).value;
      if r == [] {
        ParsedNothing();
        NothingGrouped();
      } else {
        OpenHasTime(r, p);
        ClosedGrouped(r, p);
      }
    }
  }

  lemma ParsedNothing()
    ensures Parsed([]) == Some(Parse(NOTHING, None, []))
  {
  }

  lemma GroupedNothing(r: seq<Record>)
    requires Grouped(r, [])
    ensures r == []
  {
  }
}
