/** The bounded odometry deque of rgbd_capture/core.py and the bracket _make_group looks up in
    it, compared with the same lookup in everything ever received. */
module OdometryWindow {
  import opened Basics
  import opened RgbdTypes

  const CAP := 2000

  /** How many of the oldest stamps the trimming loop pops. */
  function Drops(times: seq<int>, cutoff: int): (n: nat)
    ensures n <= |times| && (n > 0 ==> |times| - n >= 2)
  {
    if |times| > 2 && (times[1] < cutoff || |times| > CAP) then 1 + Drops(times[1..], cutoff) else 0
  }

  /** The deque after odometry at the stamps h. */
  function Window(h: seq<int>, memory: nat): seq<int> {
    if h == [] then []
    else
      var t := h[|h| - 1];
      var w := Window(h[..|h| - 1], memory) + [t];
      w[Drops(w, t - memory)..]
  }

  /** bisect_left on increasing stamps. */
  function BisectLeft(times: seq<int>, target: int): (j: nat)
    ensures j <= |times|
  {
    if times == [] || times[0] >= target then 0 else 1 + BisectLeft(times[1..], target)
  }

  /** The index j for which times[j - 1] and times[j] are used. */
  function Bracket(times: seq<int>, target: int): (r: Option<nat>)
    ensures r.Some? ==> 1 <= r.value < |times|
  {
    var j := BisectLeft(times, target);
    var k := if j == 0 && |times| >= 2 && target == times[0] then 1 else j;
    if k == 0 || k >= |times| then None else Some(k)
  }

  function BracketStamps(times: seq<int>, target: int): Option<(int, int)> {
    var r := Bracket(times, target);
    if r.None? then None else Some((times[r.value - 1], times[r.value]))
  }

  // ---------------------------------------------------------------- the bracket

  lemma {:induction false} BisectSplits(times: seq<int>, target: int)
    requires Increasing(times)
    ensures var j := BisectLeft(times, target);
            && (forall i :: 0 <= i < j ==> times[i] < target)
            && (forall i :: j <= i < |times| ==> target <= times[i])
  {
    if times != [] && times[0] < target {
      var rest := times[1..];
      BisectSplits(rest, target);
      assert forall i :: 0 <= i < |rest| ==> rest[i] == times[i + 1];
      var j := BisectLeft(rest, target);
      forall i | 0 <= i < 1 + j
        ensures times[i] < target
      {
        assert i == 0 || rest[i - 1] < target;
      }
      forall i | 1 + j <= i < |times|
        ensures target <= times[i]
      {
        assert target <= rest[i - 1];
      }
    }
  }

  /** What interpolate demands of its two samples always holds; a bracket is found exactly for
      the times from the first to the last stamp of at least two. */
  lemma BracketHolds(times: seq<int>, target: int)
    requires Increasing(times)
    ensures var r := Bracket(times, target);
            && (r.Some? <==> |times| >= 2 && times[0] <= target <= times[|times| - 1])
            && (r.Some? ==> times[r.value - 1] < times[r.value] && times[r.value - 1] <= target <= times[r.value])
  {
    BisectSplits(times, target);
    hide BisectLeft;
  }

  // ---------------------------------------------------------------- agreement with full history

  lemma {:induction false} BisectSuffix(h: seq<int>, n: nat, target: int)
    requires n < |h| && Increasing(h) && h[n] < target
    ensures BisectLeft(h, target) == n + BisectLeft(h[n..], target)
  {
    if n == 0 {
      assert h[0..] == h;
    } else {
      assert h[1..][n - 1..] == h[n..];
      assert h[0] < h[n];
      BisectSuffix(h[1..], n - 1, target);
    }
  }

  /** A suffix of the history of at least two samples gives the same bracket exactly when it is
      everything, or the time lies after its first stamp, or before everything. */
  lemma SuffixAgreesIff(h: seq<int>, n: nat, target: int)
    requires Increasing(h) && n + 2 <= |h|
    ensures BracketStamps(h[n..], target) == BracketStamps(h, target) <==> n == 0 || h[n] < target || target < h[0]
  {
    var w := h[n..];
    assert Increasing(w);
    BracketHolds(h, target);
    BracketHolds(w, target);
    if n == 0 {
      assert w == h;
    } else if h[n] < target {
      BisectSuffix(h, n, target);
      LaterHalf(h, n, target);
    } else if h[0] <= target {
      assert h[0] < h[n] && h[n] < h[|h| - 1];
      BracketBefore(h, n, target);
    }
    hide BisectLeft;
  }

  lemma LaterHalf(h: seq<int>, n: nat, target: int)
    requires n + 2 <= |h| && BisectLeft(h, target) == n + BisectLeft(h[n..], target) && h[n] < target
    ensures BracketStamps(h[n..], target) == BracketStamps(h, target)
  {
    assert BisectLeft(h[n..], target) > 0;
    hide BisectLeft;
  }

  lemma BracketBefore(h: seq<int>, n: nat, target: int)
    requires Increasing(h) && 0 < n && n + 2 <= |h| && h[0] <= target <= h[n]
    ensures BracketStamps(h, target).Some? && BracketStamps(h, target).value.0 < h[n]
  {
    BisectSplits(h, target);
    BracketHolds(h, target);
    hide BisectLeft;
  }

  lemma {:induction false} DropsToCap(times: seq<int>, cutoff: int)
    ensures |times| - Drops(times, cutoff) <= 2000
  {
    if Drops(times, cutoff) > 0 {
      DropsToCap(times[1..], cutoff);
    }
  }

  /** The deque never holds more than 2000 samples. */
  lemma WindowIsBounded(h: seq<int>, memory: nat)
    ensures |Window(h, memory)| <= 2000
  {
    if h != [] {
      var w := Window(h[..|h| - 1], memory) + [h[|h| - 1]];
      DropsToCap(w, h[|h| - 1] - memory);
    }
    hide Drops;
  }

  /** The deque held fewer than 2000 samples whenever one more came. */
  ghost predicate BelowCap(h: seq<int>, memory: nat) {
    forall k :: 0 <= k < |h| ==> |Window(h[..k], memory)| < 2000
  }

  /** The deque is the end of the history; what is gone is older than the memory. */
  ghost predicate KeepsRecent(h: seq<int>, w: seq<int>, memory: nat) {
    && |w| <= |h| && w == h[|h| - |w|..]
    && (|w| < |h| ==> |w| >= 2 && w[0] < h[|h| - 1] - memory)
  }

  lemma {:induction false} DropsOld(w: seq<int>, cutoff: int)
    requires |w| <= CAP
    ensures var n := Drops(w, cutoff);
            n > 0 ==> w[n] < cutoff
  {
    if Drops(w, cutoff) > 0 {
      DropsOld(w[1..], cutoff);
    }
  }

  lemma SuffixSnoc(before: seq<int>, t: int, v: seq<int>, d: nat)
    requires |v| <= |before| && v == before[|before| - |v|..] && d <= |v| + 1
    ensures (v + [t])[d..] == (before + [t])[|before| - |v| + d..]
  {
    assert v + [t] == (before + [t])[|before| - |v|..];
  }

  lemma PushIsRecent(before: seq<int>, t: int, v: seq<int>, d: nat, memory: nat)
    requires KeepsRecent(before, v, memory) && (before != [] ==> before[|before| - 1] < t)
    requires d <= |v| + 1 && (d > 0 ==> |v| + 1 - d >= 2 && (v + [t])[d] < t - memory)
    ensures var w := (v + [t])[d..];
            |w| < |before| + 1 ==> |w| >= 2 && w[0] < t - memory
  {
    if d == 0 && |v| < |before| {
      assert (v + [t])[0] == v[0];
    }
  }

  lemma PushKeepsRecent(before: seq<int>, t: int, v: seq<int>, memory: nat)
    requires (before != [] ==> before[|before| - 1] < t) && |v| < CAP && KeepsRecent(before, v, memory)
    ensures KeepsRecent(before + [t], (v + [t])[Drops(v + [t], t - memory)..], memory)
  {
    var d := Drops(v + [t], t - memory);
    SuffixSnoc(before, t, v, d);
    DropsOld(v + [t], t - memory);
    PushIsRecent(before, t, v, d, memory);
    hide Drops;
  }

  lemma BelowCapBefore(h: seq<int>, memory: nat)
    requires h != [] && BelowCap(h, memory)
    ensures BelowCap(h[..|h| - 1], memory) && |Window(h[..|h| - 1], memory)| < CAP
  {
    var before := h[..|h| - 1];
    forall k | 0 <= k < |before|
      ensures |Window(before[..k], memory)| < CAP
    {
      assert before[..k] == h[..k];
    }
  }

  lemma IncreasingBefore(h: seq<int>)
    requires h != [] && Increasing(h)
    ensures var before := h[..|h| - 1];
            Increasing(before) && (before != [] ==> before[|before| - 1] < h[|h| - 1])
  {
  }

  lemma WindowSnoc(h: seq<int>, memory: nat)
    requires h != []
    ensures var t, v := h[|h| - 1], Window(h[..|h| - 1], memory);
            Window(h, memory) == (v + [t])[Drops(v + [t], t - memory)..]
  {
    hide Drops;
  }

  lemma {:induction false} WindowKeepsRecent(h: seq<int>, memory: nat)
    requires Increasing(h) && BelowCap(h, memory)
    ensures KeepsRecent(h, Window(h, memory), memory)
  {
    hide *;
    if h == [] {
      EmptyKeepsRecent(memory);
      return;
    }
    var before, t := h[..|h| - 1], h[|h| - 1];
    BelowCapBefore(h, memory);
    IncreasingBefore(h);
    WindowSnoc(h, memory);
    WindowKeepsRecent(before, memory);
    PushKeepsRecent(before, t, Window(before, memory), memory);
    assert before + [t] == h;
  }

  lemma EmptyKeepsRecent(memory: nat)
    ensures KeepsRecent([], Window([], memory), memory)
  {
  }

  /** Below the cap, every lookup for a time no older than the memory is the one the full
      history would give. */
  lemma WindowAgrees(h: seq<int>, memory: nat, target: int)
    requires h != [] && Increasing(h) && BelowCap(h, memory) && target >= h[|h| - 1] - memory
    ensures BracketStamps(Window(h, memory), target) == BracketStamps(h, target)
  {
    WindowKeepsRecent(h, memory);
    var w := Window(h, memory);
    hide Window, BracketStamps, BelowCap;
    if |w| < |h| {
      SuffixAgreesIff(h, |h| - |w|, target);
    } else {
      assert w == h;
    }
  }
}
