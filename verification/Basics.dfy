/** What several components share. */
module Basics {

  datatype Option<T> = None | Some(value: T)

  function Abs(x: real): real { if x < 0.0 then -x else x }

  function Max(x: real, y: real): real { if x < y then y else x }

  /** An average of n - 1 numbers moved the n-th part of the way to one more. */
  lemma Nudge(m: real, x: real, n: real)
    requires n > 0.0
    ensures (m + (x - m) / n) * n == m * (n - 1.0) + x
  {
    var d := (x - m) / n;
    assert d * n == x - m;
    assert (m + d) * n == m * n + d * n;
  }
}
