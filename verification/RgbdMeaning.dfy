/** What the numbers of a frame mean, each said by an equation it meets and not by how the code
    computes it. */
module RgbdMeaning {
  import opened Basics
  import opened RgbdTypes
  import opened RgbdGroup

  const BILLION := 1000000000.0

  /** The integer next to x, of two the even one. */
  ghost predicate Rounds(x: real, n: int) {
    var d := n as real - x;
    -0.5 <= d <= 0.5 && (d == 0.5 || d == -0.5 ==> n % 2 == 0)
  }

  lemma RoundIff(x: real, n: int)
    ensures n == Round(x) <==> Rounds(x, n)
  {
    var low := x.Floor;
    assert low as real <= x < low as real + 1.0;
    if Rounds(x, n) {
      assert n == low || n == low + 1;
    }
  }

  /** The pose is looked up at the image's time, shifted by the camera's offset. */
  lemma TargetIff(cfg: Config, t: int, query: int)
    ensures query == cfg.Target(t) <==> Rounds(cfg.cameraTimeOffset * BILLION, query - t)
  {
    RoundIff(cfg.cameraTimeOffset * BILLION, query - t);
    hide Rounds, Round;
  }

  lemma SlopIff(cfg: Config, d: nat)
    requires cfg.Valid()
    ensures d <= cfg.Slop() <==> d as real <= cfg.rgbdSlop * BILLION
  {
  }

  /** The period between frames, whole nanoseconds. */
  lemma PeriodMeans(cfg: Config)
    requires cfg.Valid()
    ensures cfg.Period() as real * cfg.rate <= BILLION < (cfg.Period() + 1) as real * cfg.rate
  {
    var q := BILLION / cfg.rate;
    assert q * cfg.rate == BILLION;
    var p := q.Floor;
    assert p as real <= q < (p + 1) as real;
    Multiplied(p as real, q, cfg.rate);
    Multiplied(q, (p + 1) as real, cfg.rate);
    assert q != (p + 1) as real ==> q * cfg.rate != (p + 1) as real * cfg.rate;
  }

  lemma Multiplied(x: real, y: real, r: real)
    requires x <= y && 0.0 < r
    ensures x * r <= y * r
  {
    assert (y - x) * r >= 0.0;
  }

  /** Odometry is remembered for the wait and two seconds more. */
  lemma MemoryMeans(cfg: Config, age: int)
    requires cfg.Valid()
    ensures age <= cfg.Memory() <==> age as real <= (cfg.wait + 2.0) * BILLION
  {
  }

  /** Every entry is within an absolute and a hundred-thousandth relative tolerance. */
  ghost predicate Near(a: Matrix, b: Matrix, tolerance: real) {
    && |a.entries| == |b.entries|
    && forall i :: 0 <= i < |a.entries| ==>
         var x, y := a.entries[i], b.entries[i];
         var d := if y >= 0.0 then tolerance + y / 100000.0 else tolerance - y / 100000.0;
         y - d <= x <= y + d
  }

  lemma NearIff(a: Matrix, b: Matrix, tolerance: real)
    ensures AllClose(a, b, tolerance) <==> Near(a, b, tolerance)
  {
  }

  /** The query time lies from a to b, alpha of the way; body is the pose that far between theirs. */
  ghost predicate Between(g: Geometry, a: Odometry, b: Odometry, query: int, alpha: real, body: Matrix) {
    && a.stamp < b.stamp && a.stamp <= query <= b.stamp
    && alpha * (b.stamp - a.stamp) as real == (query - a.stamp) as real
    && g.matrix(a.pose).Some? && g.matrix(b.pose).Some?
    && body == g.blend(g.matrix(a.pose).value, g.matrix(b.pose).value, alpha)
  }

  lemma InterpolatedIff(g: Geometry, a: Odometry, b: Odometry, query: int, alpha: real, body: Matrix)
    ensures Interpolated(g, a, b, query) == Some((body, alpha)) <==> Between(g, a, b, query, alpha, body)
  {
    if a.stamp < b.stamp {
      FractionIff((query - a.stamp) as real, (b.stamp - a.stamp) as real, alpha);
    }
  }

  lemma FractionIff(x: real, y: real, q: real)
    requires y > 0.0
    ensures q == x / y <==> q * y == x
  {
    assert x / y * y == x;
    if q * y == x {
      assert q * y / y == q;
    }
  }

  /** Nothing of the way at the earlier sample, all of it at the later one. */
  lemma BetweenEnds(g: Geometry, a: Odometry, b: Odometry, query: int, alpha: real, body: Matrix)
    requires Between(g, a, b, query, alpha, body)
    ensures 0.0 <= alpha <= 1.0 && (query == a.stamp <==> alpha == 0.0) && (query == b.stamp <==> alpha == 1.0)
  {
    var x, y := (query - a.stamp) as real, (b.stamp - a.stamp) as real;
    assert x == alpha * y && y > 0.0 && 0.0 <= x <= y;
    assert alpha < 0.0 ==> alpha * y < 0.0;
    assert alpha > 1.0 ==> (alpha - 1.0) * y > 0.0;
  }

  /** The share of the depth pixels that hold a depth, which neither number nor stamp changes. */
  ghost predicate Share(g: Geometry, cfg: Config, rgb: Image, dep: Image, ci: Info, di: Info, valid: real) {
    g.quality(rgb.(id := 0, stamp := 0), dep.(id := 0, stamp := 0), ci.(id := 0, stamp := 0),
              di.(id := 0, stamp := 0), cfg.optical) == Some(valid)
  }

  lemma QualityIff(g: Geometry, cfg: Config, rgb: Image, dep: Image, ci: Info, di: Info, valid: real)
    ensures g.Quality(rgb, dep, ci, di, cfg.optical) == Some(valid) <==> Share(g, cfg, rgb, dep, ci, di, valid)
  {
  }

  /** 16-bit depth is scaled as configured, and floating-point depth is in metres. */
  ghost predicate Scaled(cfg: Config, encoding: string, scale: real) {
    (encoding == "16UC1" && scale == cfg.depthScale) || (encoding != "16UC1" && scale == 1.0)
  }
}
