/** The rate limit of Engine._pair in rgbd_capture/core.py: next_due walks a grid anchored at
    the first pair. */
module RateLimiter {
  import opened Basics
  import opened RgbdTypes

  predicate Due(due: Option<int>, t: int) {
    due.None? || due.value <= t
  }

  /** next_due after a pair at t has been let through. */
  function NextDue(due: Option<int>, t: int, period: nat): int
    requires period > 0
  {
    var d := if due.None? then t else due.value;
    d + ((t - d) / period + 1) * period
  }

  datatype Limit = Limit(due: Option<int>, accepted: seq<int>, filtered: nat)

  function Offer(l: Limit, t: int, period: nat): Limit
    requires period > 0
  {
    if Due(l.due, t) then Limit(Some(NextDue(l.due, t, period)), l.accepted + [t], l.filtered)
    else l.(filtered := l.filtered + 1)
  }

  /** After pairs at the stamps ts. */
  function After(ts: seq<int>, period: nat): Limit
    requires period > 0
  {
    if ts == [] then Limit(None, [], 0) else Offer(After(ts[..|ts| - 1], period), ts[|ts| - 1], period)
  }

  ghost predicate Nondecreasing(ts: seq<int>) {
    forall i, j :: 0 <= i < j < |ts| ==> ts[i] <= ts[j]
  }

  /** The cell [t0 + k * period, t0 + (k + 1) * period) that holds t. */
  function Cell(t0: int, t: int, period: nat): int
    requires period > 0
  {
    (t - t0) / period
  }

  predicate FirstOfCell(ts: seq<int>, i: nat, period: nat)
    requires period > 0 && i < |ts|
  {
    forall j :: 0 <= j < i ==> Cell(ts[0], ts[j], period) != Cell(ts[0], ts[i], period)
  }

  predicate Accepts(ts: seq<int>, i: nat, period: nat)
    requires period > 0 && i < |ts|
  {
    Due(After(ts[..i], period).due, ts[i])
  }

  // ---------------------------------------------------------------- division by the period

  lemma MulMono(a: int, b: int, p: nat)
    requires a <= b
    ensures a * p <= b * p
  {
  }

  /** The cell of x is the k whose bounds hold it. */
  lemma CellBounds(x: int, p: nat, k: int)
    requires p > 0
    ensures x / p == k <==> k * p <= x < (k + 1) * p
  {
    var q := x / p;
    assert q * p <= x < (q + 1) * p;
    if q < k {
      MulMono(q + 1, k, p);
    } else if q > k {
      MulMono(k + 1, q, p);
    }
  }

  lemma CellMono(t0: int, s: int, t: int, p: nat)
    requires p > 0 && s <= t
    ensures Cell(t0, s, p) <= Cell(t0, t, p)
  {
    var a, b := Cell(t0, s, p), Cell(t0, t, p);
    CellBounds(s - t0, p, a);
    CellBounds(t - t0, p, b);
    if b < a {
      MulMono(b + 1, a, p);
    }
  }

  /** The new due time is the end of the cell of t. */
  lemma NextDueIsCellEnd(t0: int, m: int, t: int, p: nat)
    requires p > 0
    ensures NextDue(Some(t0 + m * p), t, p) == t0 + (Cell(t0, t, p) + 1) * p
    ensures NextDue(None, t0, p) == t0 + (Cell(t0, t0, p) + 1) * p
  {
    var x, k := t - t0 - m * p, (t - t0 - m * p) / p;
    CellBounds(x, p, k);
    assert (k + m) * p == k * p + m * p;
    CellBounds(t - t0, p, k + m);
    assert (k + m + 1) * p == (k + 1) * p + m * p;
  }

  // ---------------------------------------------------------------- the grid

  ghost predicate OnGrid(l: Limit, t0: int, last: int, period: nat)
    requires period > 0
  {
    l.due == Some(t0 + (Cell(t0, last, period) + 1) * period)
  }

  lemma DueIffNewCell(l: Limit, t0: int, last: int, t: int, period: nat)
    requires period > 0 && OnGrid(l, t0, last, period) && last <= t
    ensures Due(l.due, t) <==> Cell(t0, last, period) < Cell(t0, t, period)
  {
    var a, b := Cell(t0, last, period), Cell(t0, t, period);
    CellBounds(t - t0, period, b);
    CellMono(t0, last, t, period);
    if a < b {
      MulMono(a + 1, b, period);
    } else {
      MulMono(b, a, period);
    }
  }

  lemma {:induction false} StaysOnGrid(ts: seq<int>, period: nat)
    requires period > 0 && ts != [] && Nondecreasing(ts)
    ensures OnGrid(After(ts, period), ts[0], ts[|ts| - 1], period)
  {
    var n := |ts| - 1;
    if n == 0 {
      NextDueIsCellEnd(ts[0], 0, ts[0], period);
      assert After(ts[..0], period) == Limit(None, [], 0);
    } else {
      var before := ts[..n];
      StaysOnGrid(before, period);
      var l := After(before, period);
      DueIffNewCell(l, ts[0], ts[n - 1], ts[n], period);
      CellMono(ts[0], ts[n - 1], ts[n], period);
      NextDueIsCellEnd(ts[0], Cell(ts[0], ts[n - 1], period) + 1, ts[n], period);
      hide Cell, NextDue;
    }
  }

  /** Exactly the first pair of every cell that has one is let through. */
  lemma PhaseGrid(ts: seq<int>, i: nat, period: nat)
    requires period > 0 && i < |ts| && Nondecreasing(ts)
    ensures Accepts(ts, i, period) <==> FirstOfCell(ts, i, period)
  {
    if i > 0 {
      StaysOnGrid(ts[..i], period);
      hide Cell, After;
      DueIffNewCell(After(ts[..i], period), ts[0], ts[i - 1], ts[i], period);
      if Accepts(ts, i, period) {
        forall j | 0 <= j < i
          ensures Cell(ts[0], ts[j], period) != Cell(ts[0], ts[i], period)
        {
          CellMono(ts[0], ts[j], ts[i - 1], period);
        }
      } else {
        CellMono(ts[0], ts[i - 1], ts[i], period);
      }
    }
  }

  /** The n-th pair let through is at least n periods after the first. */
  lemma {:induction false} NoDrift(ts: seq<int>, period: nat)
    requires period > 0 && ts != [] && Nondecreasing(ts)
    ensures var l := After(ts, period);
            && |l.accepted| + l.filtered == |ts| && l.accepted != []
            && |l.accepted| - 1 <= Cell(ts[0], ts[|ts| - 1], period)
            && (forall k :: 0 <= k < |l.accepted| ==> l.accepted[k] >= ts[0] + k * period)
  {
    var n := |ts| - 1;
    var before := ts[..n];
    if n == 0 {
      assert After(before, period) == Limit(None, [], 0);
      CellBounds(0, period, 0);
    } else {
      NoDrift(before, period);
      StaysOnGrid(before, period);
      var l := After(before, period);
      DueIffNewCell(l, ts[0], ts[n - 1], ts[n], period);
      CellMono(ts[0], ts[n - 1], ts[n], period);
      CellBounds(ts[n] - ts[0], period, Cell(ts[0], ts[n], period));
      hide NextDue;
      if Due(l.due, ts[n]) {
        MulMono(|l.accepted|, Cell(ts[0], ts[n], period), period);
      }
      hide Cell;
    }
  }

  lemma {:induction false} AcceptedIncrease(ts: seq<int>, period: nat)
    requires period > 0 && Increasing(ts)
    ensures var a := After(ts, period).accepted;
            Increasing(a) && (forall k :: 0 <= k < |a| ==> ts != [] && a[k] <= ts[|ts| - 1])
  {
    if ts != [] {
      var n := |ts| - 1;
      AcceptedIncrease(ts[..n], period);
      assert n > 0 ==> ts[n - 1] < ts[n];
      hide NextDue;
    }
  }

  lemma LargerIsLater(a: seq<int>, j: nat, k: nat)
    requires Increasing(a) && j < |a| && k < |a| && a[j] < a[k]
    ensures j < k
  {
  }

  /** Increasing stamps, each among what was let through: the n-th is no earlier than the n-th let through. */
  lemma {:induction false} ChosenIsLater(f: seq<int>, a: seq<int>, n: nat) returns (k: nat)
    requires Increasing(f) && Increasing(a) && n < |f| && forall i :: 0 <= i < |f| ==> f[i] in a
    ensures n <= k < |a| && a[k] == f[n] && a[n] <= f[n]
  {
    assert f[n] in a;
    k :| 0 <= k < |a| && a[k] == f[n];
    if n > 0 {
      var j := ChosenIsLater(f, a, n - 1);
      assert f[n - 1] < f[n];
      LargerIsLater(a, j, k);
    }
  }
}
