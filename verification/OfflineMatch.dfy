/** Pairing two streams of stamps: the two-pointer match computed over complete sequences,
    which the online pairing of laserMapping_bundle.cpp is compared with. */
module OfflineMatch {
  import opened Basics

  type Pairs = seq<(nat, nat)>

  predicate Sorted(s: seq<real>) {
    forall i, j :: 0 <= i < j < |s| ==> s[i] <= s[j]
  }

  predicate Within(a: seq<real>, b: seq<real>, i: nat, j: nat, skew: real)
    requires i < |a| && j < |b|
  {
    Abs(a[i] - b[j]) <= skew
  }

  /** The match of a[i..] with b[j..]: drop the older head, or pair the heads. */
  function Match(a: seq<real>, b: seq<real>, i: nat, j: nat, skew: real): Pairs
    requires i <= |a| && j <= |b|
    decreases |a| - i + |b| - j
  {
    if i == |a| || j == |b| then []
    else if Within(a, b, i, j, skew) then [(i, j)] + Match(a, b, i + 1, j + 1, skew)
    else if a[i] < b[j] then Match(a, b, i + 1, j, skew)
    else Match(a, b, i, j + 1, skew)
  }

  /** Any way at all to pair scans in order: each within the skew, none used twice. */
  ghost predicate IsPairing(a: seq<real>, b: seq<real>, p: Pairs, i: nat, j: nat, skew: real) {
    && (forall k :: 0 <= k < |p| ==> i <= p[k].0 < |a| && j <= p[k].1 < |b| && Within(a, b, p[k].0, p[k].1, skew))
    && (forall k, m :: 0 <= k < m < |p| ==> p[k].0 < p[m].0 && p[k].1 < p[m].1)
  }

  lemma {:induction false} MatchIsPairing(a: seq<real>, b: seq<real>, i: nat, j: nat, skew: real)
    requires i <= |a| && j <= |b|
    ensures IsPairing(a, b, Match(a, b, i, j, skew), i, j, skew)
    decreases |a| - i + |b| - j
  {
    if i < |a| && j < |b| {
      if Within(a, b, i, j, skew) {
        MatchIsPairing(a, b, i + 1, j + 1, skew);
        PairFirst(a, b, Match(a, b, i + 1, j + 1, skew), i, j, skew);
        hide IsPairing;
      } else if a[i] < b[j] {
        MatchIsPairing(a, b, i + 1, j, skew);
      } else {
        MatchIsPairing(a, b, i, j + 1, skew);
      }
    }
  }

  lemma PairFirst(a: seq<real>, b: seq<real>, p: Pairs, i: nat, j: nat, skew: real)
    requires IsPairing(a, b, p, i + 1, j + 1, skew) && i < |a| && j < |b| && Within(a, b, i, j, skew)
    ensures IsPairing(a, b, [(i, j)] + p, i, j, skew)
  {
    var q := [(i, j)] + p;
    assert forall k :: 0 < k < |q| ==> q[k] == p[k - 1];
  }

  /** No pairing of nondecreasing streams has more pairs than the match. */
  lemma {:induction false} MatchIsLargest(a: seq<real>, b: seq<real>, i: nat, j: nat, skew: real, p: Pairs)
    requires i <= |a| && j <= |b| && Sorted(a) && Sorted(b) && skew >= 0.0
    requires IsPairing(a, b, p, i, j, skew)
    ensures |p| <= |Match(a, b, i, j, skew)|
    decreases |a| - i + |b| - j
  {
    if p != [] {
      assert i <= p[0].0 < |a| && j <= p[0].1 < |b|;
      if Within(a, b, i, j, skew) {
        MatchIsLargest(a, b, i + 1, j + 1, skew, p[1..]);
      } else if a[i] < b[j] {
        HeadUnpairable(a, b, i, j, skew);
        assert p[0].0 != i;
        MatchIsLargest(a, b, i + 1, j, skew, p);
      } else {
        HeadUnpairable(b, a, j, i, skew);
        assert p[0].1 != j;
        MatchIsLargest(a, b, i, j + 1, skew, p);
      }
    }
  }

  /** The older of two heads out of reach is out of reach of everything still to come. */
  lemma HeadUnpairable(a: seq<real>, b: seq<real>, i: nat, j: nat, skew: real)
    requires i < |a| && j < |b| && Sorted(b) && skew >= 0.0
    requires !Within(a, b, i, j, skew) && a[i] <= b[j]
    ensures forall k :: j <= k < |b| ==> Abs(a[i] - b[k]) > skew && Abs(b[k] - a[i]) > skew
  {
    forall k | j <= k < |b|
      ensures Abs(a[i] - b[k]) > skew && Abs(b[k] - a[i]) > skew
    {
      assert b[j] <= b[k];
    }
  }
}
