/** The online pairing, whatever the arrival and IMU timing, carries out the offline match of
    the complete streams, and never gives up a scan that could still have been paired. */
module PairingRefinement {
  import opened Basics
  import opened OfflineMatch
  import opened Synchroniser
  import opened SyncRuns

  ghost predicate Continues(t: seq<real>, a: seq<real>, i: nat) {
    i + |t| <= |a| && t == a[i..i + |t|]
  }

  lemma ContinuesTail(t: seq<real>, a: seq<real>, i: nat)
    requires t != [] && Continues(t, a, i)
    ensures a[i] == t[0] && Continues(t[1..], a, i + 1)
  {
    assert a[i..i + |t|][1..] == a[i + 1..i + |t|];
  }

  /** The dropping loop follows the match. */
  lemma {:induction false} DropsFollowMatch(a: seq<real>, b: seq<real>, i: nat, j: nat, t1: seq<real>, t2: seq<real>,
                                            skew: real)
    requires Continues(t1, a, i) && Continues(t2, b, j)
    ensures var d := Drops(t1, t2, skew);
            Match(a, b, i, j, skew) == Match(a, b, i + d.0, j + d.1, skew)
    decreases |t1| + |t2|
  {
    if t1 != [] && t2 != [] && Abs(t1[0] - t2[0]) > skew {
      ContinuesTail(t1, a, i);
      ContinuesTail(t2, b, j);
      if t1[0] < t2[0] {
        DropsFollowMatch(a, b, i + 1, j, t1[1..], t2, skew);
      } else {
        DropsFollowMatch(a, b, i, j + 1, t1, t2[1..], skew);
      }
    }
  }

  predicate HasFirst(p: Pairs, i: nat) { exists m :: 0 <= m < |p| && p[m].0 == i }

  predicate HasSecond(p: Pairs, j: nat) { exists m :: 0 <= m < |p| && p[m].1 == j }

  /** Whatever was in reach of a used-up scan was paired: with that scan or with another. */
  ghost predicate Hopeless(a: seq<real>, b: seq<real>, p: Pairs, n1: nat, n2: nat, skew: real) {
    && n1 <= |a| && n2 <= |b|
    && (forall i, j :: 0 <= i < |a| && 0 <= j < |b| && (i < n1 || j < n2) && Within(a, b, i, j, skew)
          ==> HasFirst(p, i) || HasSecond(p, j))
  }

  lemma DropFirstHopeless(a: seq<real>, b: seq<real>, p: Pairs, i: nat, j: nat, skew: real)
    requires Hopeless(a, b, p, i, j, skew) && i < |a| && j < |b| && Sorted(a) && Sorted(b) && skew >= 0.0
    requires !Within(a, b, i, j, skew) && a[i] < b[j]
    ensures Hopeless(a, b, p, i + 1, j, skew)
  {
    HeadUnpairable(a, b, i, j, skew);
  }

  lemma DropSecondHopeless(a: seq<real>, b: seq<real>, p: Pairs, i: nat, j: nat, skew: real)
    requires Hopeless(a, b, p, i, j, skew) && i < |a| && j < |b| && Sorted(a) && Sorted(b) && skew >= 0.0
    requires !Within(a, b, i, j, skew) && a[i] >= b[j]
    ensures Hopeless(a, b, p, i, j + 1, skew)
  {
    HeadUnpairable(b, a, j, i, skew);
  }

  lemma PairHopeless(a: seq<real>, b: seq<real>, p: Pairs, i: nat, j: nat, skew: real)
    requires Hopeless(a, b, p, i, j, skew) && i < |a| && j < |b|
    ensures Hopeless(a, b, p + [(i, j)], i + 1, j + 1, skew)
  {
    var q := p + [(i, j)];
    assert q[|p|] == (i, j);
    forall m | 0 <= m < |p|
      ensures q[m] == p[m]
    {
    }
    forall x: nat | HasFirst(p, x) || x == i
      ensures HasFirst(q, x)
    {
      if HasFirst(p, x) {
        var m :| 0 <= m < |p| && p[m].0 == x;
        assert q[m].0 == x;
      }
    }
    forall y: nat | HasSecond(p, y) || y == j
      ensures HasSecond(q, y)
    {
      if HasSecond(p, y) {
        var m :| 0 <= m < |p| && p[m].1 == y;
        assert q[m].1 == y;
      }
    }
  }

  lemma {:induction false} DropsHopeless(a: seq<real>, b: seq<real>, p: Pairs, i: nat, j: nat, t1: seq<real>,
                                         t2: seq<real>, skew: real)
    requires Hopeless(a, b, p, i, j, skew) && Sorted(a) && Sorted(b) && skew >= 0.0
    requires Continues(t1, a, i) && Continues(t2, b, j)
    ensures var d := Drops(t1, t2, skew);
            Hopeless(a, b, p, i + d.0, j + d.1, skew)
    decreases |t1| + |t2|
  {
    if t1 != [] && t2 != [] && Abs(t1[0] - t2[0]) > skew {
      ContinuesTail(t1, a, i);
      ContinuesTail(t2, b, j);
      hide Hopeless;
      if t1[0] < t2[0] {
        DropFirstHopeless(a, b, p, i, j, skew);
        DropsHopeless(a, b, p, i + 1, j, t1[1..], t2, skew);
      } else {
        DropSecondHopeless(a, b, p, i, j, skew);
        DropsHopeless(a, b, p, i, j + 1, t1, t2[1..], skew);
      }
    }
  }

  /** A run is where the match of the complete streams a and b stands. */
  ghost predicate Follows(r: Run, a: seq<real>, b: seq<real>, skew: real) {
    && r.n1 <= |a| && r.n2 <= |b|
    && Match(a, b, 0, 0, skew) == r.pairs + Match(a, b, r.n1, r.n2, skew)
    && Hopeless(a, b, r.pairs, r.n1, r.n2, skew)
  }

  lemma QueueContinues(s: Stream, x: seq<Scan>, n: nat, pushed: bool, a: seq<real>)
    requires StreamTracks(s, x, n, pushed) && Stamps(x) <= a
    ensures Continues(s.times, a, n)
  {
    assert Stamps(x) == a[..|x|];
    assert s.times == Stamps(x)[n..];
    assert a[n..|x|] == a[..|x|][n..];
  }

  lemma PrepareFollows(c: Config, r: Run, x: seq<Scan>, y: seq<Scan>, a: seq<real>, b: seq<real>)
    requires r.s.Parallel() && Tracks(c, r, x, y) && Stamps(x) <= a && Stamps(y) <= b
    requires Sorted(a) && Sorted(b) && c.skew >= 0.0 && Follows(r, a, b, c.skew)
    ensures var p := Prepare(c, r.s);
            Follows(r.(n1 := r.n1 + p.drops.0, n2 := r.n2 + p.drops.1), a, b, c.skew)
  {
    hide Prepare, Follows, StreamTracks, Drops, Latched, MadeOf, Continues;
    PrepareDrops(c, r.s);
    if !r.s.pushed {
      QueueContinues(r.s.s1, x, r.n1, false, a);
      QueueContinues(r.s.s2, y, r.n2, false, b);
      DropsFollow(r, a, b, c.skew);
    }
  }

  lemma DropsFollow(r: Run, a: seq<real>, b: seq<real>, skew: real)
    requires Follows(r, a, b, skew) && Sorted(a) && Sorted(b) && skew >= 0.0
    requires Continues(r.s.s1.times, a, r.n1) && Continues(r.s.s2.times, b, r.n2)
    ensures var d := Drops(r.s.s1.times, r.s.s2.times, skew);
            Follows(r.(n1 := r.n1 + d.0, n2 := r.n2 + d.1), a, b, skew)
  {
    DropsInside(a, b, r.n1, r.n2, r.s.s1.times, r.s.s2.times);
    hide Hopeless, Match, Drops, Continues;
    DropsFollowMatch(a, b, r.n1, r.n2, r.s.s1.times, r.s.s2.times, skew);
    DropsHopeless(a, b, r.pairs, r.n1, r.n2, r.s.s1.times, r.s.s2.times, skew);
  }

  lemma PrepareDrops(c: Config, s: SyncState)
    requires s.Parallel()
    ensures Prepare(c, s).drops == if s.pushed then (0, 0) else Drops(s.s1.times, s.s2.times, c.skew)
  {
    hide Drops, Latch;
  }

  lemma DropsInside(a: seq<real>, b: seq<real>, i: nat, j: nat, t1: seq<real>, t2: seq<real>)
    requires Continues(t1, a, i) && Continues(t2, b, j)
    ensures i + |t1| <= |a| && j + |t2| <= |b|
  {
  }

  lemma PollFollows(c: Config, r: Run, x: seq<Scan>, y: seq<Scan>, a: seq<real>, b: seq<real>)
    requires r.s.Parallel() && Tracks(c, r, x, y) && Stamps(x) <= a && Stamps(y) <= b
    requires Sorted(a) && Sorted(b) && c.skew >= 0.0 && Follows(r, a, b, c.skew)
    ensures Follows(Step(c, r, Poll), a, b, c.skew)
  {
    hide Prepare, Emit, StreamTracks, MadeOf, Match, Hopeless;
    var p := Prepare(c, r.s);
    PrepareTracks(c, r.s, x, r.n1, y, r.n2);
    PrepareFollows(c, r, x, y, a, b);
    if p.ready {
      PairFollows(r.(n1 := r.n1 + p.drops.0, n2 := r.n2 + p.drops.1), x, y, a, b, c.skew);
    }
  }

  lemma PairFollows(r: Run, x: seq<Scan>, y: seq<Scan>, a: seq<real>, b: seq<real>, skew: real)
    requires Follows(r, a, b, skew) && Stamps(x) <= a && Stamps(y) <= b
    requires r.n1 < |x| && r.n2 < |y| && Abs(x[r.n1].stamp - y[r.n2].stamp) <= skew
    ensures Follows(r.(pairs := r.pairs + [(r.n1, r.n2)], n1 := r.n1 + 1, n2 := r.n2 + 1), a, b, skew)
  {
    PairHopeless(a, b, r.pairs, r.n1, r.n2, skew);
    assert Stamps(x)[r.n1] == a[r.n1] && Stamps(y)[r.n2] == b[r.n2];
    hide Hopeless;
    assert Match(a, b, r.n1, r.n2, skew) == [(r.n1, r.n2)] + Match(a, b, r.n1 + 1, r.n2 + 1, skew);
  }

  lemma {:induction false} RunFollows(c: Config, evs: seq<Event>, a: seq<real>, b: seq<real>)
    requires ReversalFree(evs) && Sorted(a) && Sorted(b) && c.skew >= 0.0
    requires Stamps(Scans(evs, true)) <= a && Stamps(Scans(evs, false)) <= b
    ensures Follows(After(c, evs), a, b, c.skew)
  {
    if evs != [] {
      var before, e := evs[..|evs| - 1], evs[|evs| - 1];
      PrefixReversalFree(evs);
      ShorterStamps(Scans(before, true), Scans(evs, true), a);
      ShorterStamps(Scans(before, false), Scans(evs, false), b);
      RunFollows(c, before, a, b);
      RunTracks(c, before);
      hide Follows, Tracks, Sync, PushScan;
      if e.Poll? {
        PollFollows(c, After(c, before), Scans(before, true), Scans(before, false), a, b);
      } else {
        OtherFollows(After(c, before), After(c, evs), a, b, c.skew);
      }
    } else {
      assert Match(a, b, 0, 0, c.skew) == [] + Match(a, b, 0, 0, c.skew);
    }
  }

  lemma OtherFollows(r: Run, r': Run, a: seq<real>, b: seq<real>, skew: real)
    requires Follows(r, a, b, skew) && r'.pairs == r.pairs && r'.n1 == r.n1 && r'.n2 == r.n2
    ensures Follows(r', a, b, skew)
  {
  }

  lemma ShorterStamps(x: seq<Scan>, y: seq<Scan>, a: seq<real>)
    requires x <= y && Stamps(y) <= a
    ensures Stamps(x) <= a
  {
    assert Stamps(x) == Stamps(y)[..|x|];
  }

  lemma {:induction false} ScansGrow(evs: seq<Event>, more: seq<Event>, first: bool)
    ensures Scans(evs, first) <= Scans(evs + more, first)
    decreases |more|
  {
    if more == [] {
      assert evs + more == evs;
    } else {
      assert (evs + more)[..|evs + more| - 1] == evs + more[..|more| - 1];
      ScansGrow(evs, more[..|more| - 1], first);
    }
  }

  /** At every moment of a reversal-free run: the pairs emitted so far are a prefix of the
      largest possible pairing of the complete streams; each pair is within the skew; and
      whatever lay in reach of a used-up scan, then or later, was paired. */
  lemma OnlineIsOffline(c: Config, evs: seq<Event>, more: seq<Event>)
    requires ReversalFree(evs + more) && c.skew >= 0.0
    ensures var a, b := Stamps(Scans(evs + more, true)), Stamps(Scans(evs + more, false));
            var r := After(c, evs);
            && r.pairs <= Match(a, b, 0, 0, c.skew)
            && IsPairing(a, b, r.pairs, 0, 0, c.skew)
            && Hopeless(a, b, r.pairs, r.n1, r.n2, c.skew)
  {
    var a, b := Stamps(Scans(evs + more, true)), Stamps(Scans(evs + more, false));
    ScansGrow(evs, more, true);
    ScansGrow(evs, more, false);
    ShorterStamps(Scans(evs, true), Scans(evs + more, true), a);
    ShorterStamps(Scans(evs, false), Scans(evs + more, false), b);
    PrefixSorted(Stamps(Scans(evs, true)), a);
    PrefixSorted(Stamps(Scans(evs, false)), b);
    RunFollows(c, evs, a, b);
    MatchIsPairing(a, b, 0, 0, c.skew);
    hide Match, Hopeless;
    PrefixIsPairing(a, b, After(c, evs).pairs, Match(a, b, 0, 0, c.skew), c.skew);
  }

  lemma PrefixIsPairing(a: seq<real>, b: seq<real>, p: Pairs, q: Pairs, skew: real)
    requires p <= q && IsPairing(a, b, q, 0, 0, skew)
    ensures IsPairing(a, b, p, 0, 0, skew)
  {
    assert forall k :: 0 <= k < |p| ==> p[k] == q[k];
  }
}
