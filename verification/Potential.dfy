/** The rational potential behind the truncated pool. What a segment still owes
    at distance r is slope × r, where the slope is W/D + Σ ΔW/r_b: boosts raise
    it, legs walk down along it, and every truncation of the engine stays on
    the sender's side of it. */
module Potential {
  import opened Economics

  function Ratio(a: int, b: int): real
    requires 0 < b
  {
    a as real / b as real
  }

  function Times(x: real, m: Metres): real {
    x * m as real
  }

  predicate Placed(boosts: seq<PoolBoost>) {
    forall b <- boosts :: 0 <= b.work && 0 < b.at
  }

  function BoostSlope(boosts: seq<PoolBoost>): real
    requires Placed(boosts)
  {
    if boosts == [] then 0.0
    else BoostSlope(boosts[..|boosts| - 1]) + Ratio(boosts[|boosts| - 1].work, boosts[|boosts| - 1].at)
  }

  function Slope(work: Msat, total: Metres, boosts: seq<PoolBoost>): real
    requires 0 < total && Placed(boosts)
  {
    Ratio(work, total) + BoostSlope(boosts)
  }

  // ----------------------------------------------------------- arithmetic

  lemma MulPositive(x: real, y: real)
    requires 0.0 < x && 0.0 < y
    ensures 0.0 < x * y
  {}

  lemma CancelLe(x: real, y: real, z: real)
    requires 0.0 < z && x * z <= y * z
    ensures x <= y
  {
    if y < x { MulPositive(x - y, z); }
  }

  lemma DivLe(x: real, y: real, q: real)
    requires 0.0 < y && q * y <= x < (q + 1.0) * y
    ensures q <= x / y < q + 1.0
  {
    var z := x / y;
    assert z * y == x;
    CancelLe(q, z, y);
    if q + 1.0 <= z { TimesLe(q + 1.0, z, y); }
  }

  lemma TimesLe(x: real, y: real, z: real)
    requires 0.0 <= z && x <= y
    ensures x * z <= y * z
  {
    assert 0.0 <= (y - x) * z;
  }

  lemma DivBounds(a: int, b: int)
    requires 0 <= a && 0 < b
    ensures 0.0 <= (a / b) as real <= Ratio(a, b) < (a / b) as real + 1.0
  {
    var q := a / b;
    assert a == q * b + a % b;
    assert (q * b) as real == q as real * b as real;
    DivLe(a as real, b as real, q as real);
  }

  lemma TimesAdd(x: real, y: real, m: Metres)
    ensures Times(x + y, m) == Times(x, m) + Times(y, m)
  {}

  lemma TimesNone(m: Metres)
    ensures Times(0.0, m) == 0.0
  {}

  lemma TimesSplit(x: real, m: Metres, n: Metres)
    ensures Times(x, m + n) == Times(x, m) + Times(x, n)
  {}

  lemma TimesOrder(x: real, y: real, m: Metres)
    requires 0 <= m && x <= y
    ensures Times(x, m) <= Times(y, m)
  {
    assert (y - x) * m as real >= 0.0;
  }

  lemma RatioTimes(a: int, part: Metres, b: int)
    requires 0 < b
    ensures Ratio(a * part, b) == Times(Ratio(a, b), part)
  {
    var x, p, y := a as real, part as real, b as real;
    assert (a * part) as real == x * p;
    assert (x * p) / y == (x / y) * p;
  }

  lemma RatioWhole(a: int, b: int)
    requires 0 < b
    ensures Times(Ratio(a, b), b) == a as real
  {
    var x, y := a as real, b as real;
    assert (x / y) * y == x;
  }

  lemma RatioNonNegative(a: int, b: int)
    requires 0 <= a && 0 < b
    ensures 0.0 <= Ratio(a, b)
  {
    DivBounds(a, b);
  }

  /** amount × part / whole, with and without its truncation. */
  lemma ShareBounds(amount: Msat, part: Metres, whole: Metres)
    requires 0 <= amount && 0 <= part && 0 < whole
    ensures ShareOf(amount, part, whole) as real <= Times(Ratio(amount, whole), part)
    ensures Times(Ratio(amount, whole), part) < ShareOf(amount, part, whole) as real + 1.0
  {
    assert 0 <= amount * part;
    DivBounds(amount * part, whole);
    RatioTimes(amount, part, whole);
  }

  lemma SatBounds(amount: Msat)
    requires 0 <= amount
    ensures 0 <= FloorToSat(amount) <= amount < FloorToSat(amount) + MSAT_PER_SAT
  {}

  lemma {:induction false} SlopeNonNegative(boosts: seq<PoolBoost>)
    requires Placed(boosts)
    ensures 0.0 <= BoostSlope(boosts)
  {
    if boosts != [] {
      var last := boosts[|boosts| - 1];
      assert last in boosts;
      SlopeNonNegative(boosts[..|boosts| - 1]);
      RatioNonNegative(last.work, last.at);
    }
  }

  lemma SlopeSnoc(work: Msat, total: Metres, boosts: seq<PoolBoost>, b: PoolBoost)
    requires 0 < total && 0 <= b.work && 0 < b.at && Placed(boosts)
    ensures Placed(boosts + [b])
    ensures Slope(work, total, boosts + [b]) == Slope(work, total, boosts) + Ratio(b.work, b.at)
  {
    assert (boosts + [b])[..|boosts|] == boosts;
  }

  // ----------------------------------------------------------- bounds on the engine

  lemma {:induction false} BoostsBounds(base: Msat, boosts: seq<PoolBoost>, total: Metres, r: Metres)
    requires 0 <= r && AddBoosts(base, boosts, total, r).Price?
    ensures Placed(boosts)
    ensures var pool := AddBoosts(base, boosts, total, r).value;
      && base <= pool
      && pool as real <= base as real + Times(BoostSlope(boosts), r)
      && base as real + Times(BoostSlope(boosts), r) <= (pool + |boosts|) as real
  {
    if boosts == [] {
      assert Times(0.0, r) == 0.0;
    } else {
      var init, last := boosts[..|boosts| - 1], boosts[|boosts| - 1];
      BoostsBounds(base, init, total, r);
      ShareBounds(last.work, r, last.at);
      assert boosts == init + [last];
      TimesAdd(BoostSlope(init), Ratio(last.work, last.at), r);
      hide Times, Ratio, ShareOf;
    }
  }

  /** The truncated pool never exceeds slope × r, and falls short of it by less
      than one msat for the commitment and one for each boost. */
  lemma PoolBounds(work: Msat, total: Metres, boosts: seq<PoolBoost>, r: Metres)
    requires PoolAt(work, total, r, boosts).Price?
    ensures Placed(boosts)
    ensures var pool := PoolAt(work, total, r, boosts).value;
      && 0 <= pool
      && pool as real <= Times(Slope(work, total, boosts), r)
      && Times(Slope(work, total, boosts), r) < (pool + 1 + |boosts|) as real
  {
    ShareBounds(work, r, total);
    BoostsBounds(ShareOf(work, r, total), boosts, total, r);
    TimesAdd(Ratio(work, total), BoostSlope(boosts), r);
    hide Times, Ratio, ShareOf, AddBoosts, BoostSlope;
  }

  /** A leg's gross never exceeds what the slope gives up over its progress, and
      falls short of it by less than 1001 msat plus one for each boost. */
  lemma GrossBounds(work: Msat, total: Metres, boosts: seq<PoolBoost>, r: Metres, progress: Metres)
    requires PoolAt(work, total, r, boosts).Price? && 0 < progress <= r
    ensures Placed(boosts) && 0 <= PoolAt(work, total, r, boosts).value
    ensures var gross := FloorToSat(ShareOf(PoolAt(work, total, r, boosts).value, progress, r));
      && gross as real <= Times(Slope(work, total, boosts), progress)
      && Times(Slope(work, total, boosts), progress) < (gross + 1001 + |boosts|) as real
  {
    PoolBounds(work, total, boosts, r);
    var pool := PoolAt(work, total, r, boosts).value;
    ShareBounds(pool, progress, r);
    SatBounds(ShareOf(pool, progress, r));
    RatioWhole(pool, r);
    Proportion(Ratio(pool, r), Slope(work, total, boosts), r, progress, (1 + |boosts|) as real);
    hide Times, Ratio, ShareOf, PoolAt, Slope, FloorToSat;
  }

  lemma TimesStrict(x: real, y: real, m: Metres)
    requires 0 < m && x < y
    ensures Times(x, m) < Times(y, m)
  {
    MulPositive(y - x, m as real);
    assert Times(y, m) - Times(x, m) == (y - x) * m as real;
  }

  /** A gap closed over r metres is at most as wide over fewer. */
  lemma Proportion(q: real, s: real, r: Metres, progress: Metres, slack: real)
    requires 0 < progress <= r && Times(q, r) <= Times(s, r) < Times(q, r) + slack
    ensures Times(q, progress) <= Times(s, progress) < Times(q, progress) + slack
  {
    hide Times;
    if s < q { TimesStrict(s, q, r); }
    var gap := s - q;
    assert q + gap == s;
    TimesAdd(q, gap, r);
    TimesAdd(q, gap, progress);
    TimesSplit(gap, progress, r - progress);
    TimesNone(r - progress);
    TimesNone(progress);
    TimesOrder(0.0, gap, r - progress);
    TimesOrder(0.0, gap, progress);
  }
}
