/** What the engine pays out, however a journey is split. */
module Payouts {
  import opened Economics
  import opened Potential

  /** One step of a journey inside a price segment: a completed leg, or a boost
      made where the parcel rests. */
  datatype Move = Walk(progress: Metres, depBp: int, arrBp: int) | Raise(work: Msat)

  datatype Trip = Trip(paid: Msat, boosts: seq<PoolBoost>, at: Metres)

  /** Play a journey through the engine; nothing if the engine refuses a leg. */
  function Journey(work: Msat, total: Metres, boosts: seq<PoolBoost>, r: Metres, moves: seq<Move>): Priced<Trip>
    decreases |moves|
  {
    if moves == [] then Price(Trip(0, boosts, r))
    else
      match moves[0]
      case Raise(w) =>
        if w < 0 || r <= 0 then Refused(InvalidBoost)
        else Journey(work, total, boosts + [PoolBoost(w, r)], r, moves[1..])
      case Walk(progress, depBp, arrBp) =>
        match PoolAt(work, total, r, boosts)
        case Refused(e) => Refused(e)
        case Price(pool) =>
          match PriceLeg(pool, total, r, progress, depBp, arrBp, 0)
          case Refused(e) => Refused(e)
          case Price(leg) =>
            match Journey(work, total, boosts, r - progress, moves[1..])
            case Refused(e) => Refused(e)
            case Price(t) => Price(t.(paid := leg.gross + t.paid))
  }

  function Raised(moves: seq<Move>): Msat {
    if moves == [] then 0 else (if moves[0].Raise? then moves[0].work else 0) + Raised(moves[1..])
  }

  function Legs(moves: seq<Move>): nat {
    if moves == [] then 0 else (if moves[0].Walk? then 1 else 0) + Legs(moves[1..])
  }

  function Raises(moves: seq<Move>): nat {
    if moves == [] then 0 else (if moves[0].Raise? then 1 else 0) + Raises(moves[1..])
  }

  /** What n legs may leave unpaid when no more than k boosts were ever made. */
  function Slack(n: nat, k: nat): nat {
    if n == 0 then 0 else Slack(n - 1, k) + 1001 + k
  }

  lemma {:induction false} SlackIs(n: nat, k: nat)
    ensures Slack(n, k) == n * (1001 + k)
  {
    if n > 0 { SlackIs(n - 1, k); }
  }

  /** One leg: the gross and the slope it walks down. */
  lemma WalkBounds(work: Msat, total: Metres, boosts: seq<PoolBoost>, r: Metres, m: Move)
    requires 0 < total && m.Walk? && PoolAt(work, total, r, boosts).Price?
    requires PriceLeg(PoolAt(work, total, r, boosts).value, total, r, m.progress, m.depBp, m.arrBp, 0).Price?
    ensures 0 < m.progress <= r && Placed(boosts)
    ensures var gross := PriceLeg(PoolAt(work, total, r, boosts).value, total, r, m.progress, m.depBp, m.arrBp, 0).value.gross;
      var s := Slope(work, total, boosts);
      && gross as real + Times(s, r - m.progress) <= Times(s, r)
      && Times(s, r) < (gross + 1001 + |boosts|) as real + Times(s, r - m.progress)
  {
    GrossBounds(work, total, boosts, r, m.progress);
    TimesSplit(Slope(work, total, boosts), m.progress, r - m.progress);
  }

  lemma RaiseBounds(work: Msat, total: Metres, boosts: seq<PoolBoost>, r: Metres, w: Msat)
    requires 0 < total && 0 < r && 0 <= w && Placed(boosts)
    ensures Placed(boosts + [PoolBoost(w, r)])
    ensures Times(Slope(work, total, boosts + [PoolBoost(w, r)]), r) == Times(Slope(work, total, boosts), r) + w as real
  {
    SlopeSnoc(work, total, boosts, PoolBoost(w, r));
    TimesAdd(Slope(work, total, boosts), Ratio(w, r), r);
    RatioWhole(w, r);
  }

  /** The potential along a journey: what was paid plus what is still owed never
      exceeds what was committed, and trails it by less than the slack. */
  lemma {:induction false} JourneyBounds(work: Msat, total: Metres, boosts: seq<PoolBoost>, r: Metres, moves: seq<Move>, k: nat)
    requires 0 < total && 0 <= r && Placed(boosts) && |boosts| + Raises(moves) <= k
    requires Journey(work, total, boosts, r, moves).Price?
    ensures var t := Journey(work, total, boosts, r, moves).value;
      && 0 <= t.at && Placed(t.boosts)
      && var committed := Times(Slope(work, total, boosts), r) + Raised(moves) as real;
         var accounted := t.paid as real + Times(Slope(work, total, t.boosts), t.at);
      && accounted <= committed <= accounted + Slack(Legs(moves), k) as real
      && (Legs(moves) > 0 ==> committed < accounted + Slack(Legs(moves), k) as real)
    decreases |moves|
  {
    if moves != [] {
      var m, rest := moves[0], moves[1..];
      match m
      case Raise(w) =>
        RaiseBounds(work, total, boosts, r, w);
        JourneyBounds(work, total, boosts + [PoolBoost(w, r)], r, rest, k);
      case Walk(progress, _, _) =>
        WalkBounds(work, total, boosts, r, m);
        JourneyBounds(work, total, boosts, r - progress, rest, k);
        hide Times, Slope, PoolAt, PriceLeg;
    }
  }

  /** A segment of work commitment W completed in n legs, with k boosts made on
      the way where the parcel rested, pays a total gross G with
      W + ΣΔW − n(1001 + k) < G ≤ W + ΣΔW, however the journey is split. */
  lemma CompletedSegmentPays(work: Msat, total: Metres, moves: seq<Move>)
    requires 0 < total && Journey(work, total, [], total, moves).Price?
    requires Journey(work, total, [], total, moves).value.at == 0
    ensures var paid := Journey(work, total, [], total, moves).value.paid;
      var committed := work + Raised(moves);
      committed - Legs(moves) * (1001 + Raises(moves)) < paid <= committed
  {
    JourneyBounds(work, total, [], total, moves, Raises(moves));
    SlackIs(Legs(moves), Raises(moves));
    RatioWhole(work, total);
    assert Slope(work, total, []) == Ratio(work, total);
    if Legs(moves) == 0 { Stationary(work, total, [], total, moves); }
  }

  lemma {:induction false} Stationary(work: Msat, total: Metres, boosts: seq<PoolBoost>, r: Metres, moves: seq<Move>)
    requires Legs(moves) == 0 && Journey(work, total, boosts, r, moves).Price?
    ensures Journey(work, total, boosts, r, moves).value.at == r
    decreases |moves|
  {
    if moves != [] {
      Stationary(work, total, boosts + [PoolBoost(moves[0].work, r)], r, moves[1..]);
    }
  }

  // ----------------------------------------------------------- the guards

  /** Inside a segment the pool formula is refused for nothing but a boost whose
      work part is zero. */
  lemma PoolRefusedOnlyForEmptyBoost(work: Msat, total: Metres, r: Metres, boosts: seq<PoolBoost>)
    requires 0 <= work && 0 <= r <= total && 0 < total
    requires forall b <- boosts :: 0 <= b.work && 0 < b.at <= total && r <= b.at
    ensures PoolAt(work, total, r, boosts).Refused? <==> exists b <- boosts :: b.work == 0
  {
    AddBoostsRefused(ShareOf(work, r, total), boosts, total, r);
  }

  lemma {:induction false} AddBoostsRefused(base: Msat, boosts: seq<PoolBoost>, total: Metres, r: Metres)
    requires 0 <= r && forall b <- boosts :: 0 <= b.work && 0 < b.at <= total && r <= b.at
    ensures AddBoosts(base, boosts, total, r).Refused? <==> exists b <- boosts :: b.work == 0
  {
    if boosts != [] {
      var init, last := boosts[..|boosts| - 1], boosts[|boosts| - 1];
      assert boosts == init + [last];
      AddBoostsRefused(base, init, total, r);
    }
  }

  /** The work part of a positive boost is zero for one amount only. */
  lemma WorkPartZero(amount: Msat)
    requires 0 < amount
    ensures SplitCommitment(amount).work == 0 <==> amount == 1
  {}

  /** A split never hands out more than the commitment, and keeps less than
      three msat back. */
  lemma SplitConserves(amount: Msat)
    requires 0 <= amount
    ensures var s := SplitCommitment(amount);
      && 0 <= s.work && 0 <= s.carrierBonus && 0 <= s.hubBonus
      && amount - 3 < s.work + s.carrierBonus + s.hubBonus <= amount
  {
    hide SplitCommitment;
    var bonus := amount * FINALIZATION_BONUS_BP / BP_DENOMINATOR;
    CutInTwo(amount, BP_DENOMINATOR - FINALIZATION_BONUS_BP, FINALIZATION_BONUS_BP);
    CutInTwo(bonus, FINALIZATION_CARRIER_SHARE_BP, FINALIZATION_HUB_SHARE_BP);
    SplitIs(amount, bonus);
  }

  lemma SplitIs(amount: Msat, bonus: Msat)
    requires 0 <= amount && bonus == amount * FINALIZATION_BONUS_BP / BP_DENOMINATOR
    ensures SplitCommitment(amount) == CommitmentSplit(
      amount * (BP_DENOMINATOR - FINALIZATION_BONUS_BP) / BP_DENOMINATOR,
      bonus * FINALIZATION_CARRIER_SHARE_BP / BP_DENOMINATOR,
      bonus * FINALIZATION_HUB_SHARE_BP / BP_DENOMINATOR)
  {}

  /** Two shares that make up the whole, each rounded down. */
  lemma CutInTwo(amount: Msat, one: int, other: int)
    requires 0 <= amount && 0 <= one && 0 <= other && one + other == BP_DENOMINATOR
    ensures var x, y := amount * one / BP_DENOMINATOR, amount * other / BP_DENOMINATOR;
      0 <= x && 0 <= y && amount - 2 < x + y <= amount
  {
    assert amount * one + amount * other == amount * BP_DENOMINATOR;
    assert 0 <= amount * one && 0 <= amount * other;
  }

  // ----------------------------------------------------------- price agreement

  /** A hub the board's progress filter admits is refused only for its fees. */
  lemma AdmittedHubIsPriced(pool: Msat, total: Metres, r: Metres, progress: Metres, final: bool, depBp: int, arrBp: int,
                            carrierBonus: Msat)
    requires 0 <= pool && 0 <= carrierBonus && 0 < r <= total
    requires 0 < progress <= r && (if final then progress == r else LongEnough(progress, total))
    ensures PriceLeg(pool, total, r, progress, depBp, arrBp, carrierBonus).Refused?
       <==> !ValidFeeBp(depBp) || !ValidFeeBp(arrBp)
    ensures PriceLeg(pool, total, r, progress, depBp, arrBp, carrierBonus).Refused?
        ==> PriceLeg(pool, total, r, progress, depBp, arrBp, carrierBonus).error == InvalidHubFee
  {}

  lemma ShareMonotone(a: Msat, part: Metres, b: Msat, more: Metres, whole: Metres)
    requires 0 <= a <= b && 0 <= part <= more && 0 < whole
    ensures ShareOf(a, part, whole) <= ShareOf(b, more, whole)
  {
    assert a * part <= b * more by {
      assert a * part <= b * part;
      assert b * part <= b * more;
    }
    DivMonotone(a * part, b * more, whole);
  }

  lemma MulOrder(a: int, b: int, d: int)
    requires a <= b && 0 <= d
    ensures a * d <= b * d
  {}

  lemma DivMonotone(x: int, y: int, d: int)
    requires 0 <= x <= y && 0 < d
    ensures x / d <= y / d
  {
    if y / d < x / d { MulOrder(y / d + 1, x / d, d); }
  }

  lemma WholeShare(pool: Msat, r: Metres)
    requires 0 <= pool && 0 < r
    ensures ShareOf(pool, r, r) == pool
  {
    assert pool * r == r * pool;
    DivExact(pool, r);
  }

  lemma DivExact(q: int, d: int)
    requires 0 <= q && 0 < d
    ensures q * d / d == q
  {
    var k := q * d / d;
    assert q * d == k * d + q * d % d;
    if k < q { MulOrder(k + 1, q, d); }
    if q < k { MulOrder(q + 1, k, d); }
  }

  lemma FeeMonotone(gross: Msat, more: Msat, bp: int)
    requires 0 <= gross <= more && ValidFeeBp(bp)
    ensures FeeOn(gross, bp) <= FeeOn(more, bp)
  {
    ShareMonotone(gross, bp, more, bp, BP_DENOMINATOR);
    SatMonotone(gross * bp / BP_DENOMINATOR, more * bp / BP_DENOMINATOR);
  }

  lemma SatMonotone(x: Msat, y: Msat)
    requires 0 <= x <= y
    ensures FloorToSat(x) <= FloorToSat(y)
  {}

  /** Whatever leg the engine accepts from a hub, both hubs earn inside the range
      the dashboard estimates from the same pool, segment and distance. */
  lemma EstimateBrackets(pool: Msat, total: Metres, r: Metres, progress: Metres, depBp: int, arrBp: int, carrierBonus: Msat)
    requires PriceLeg(pool, total, r, progress, depBp, arrBp, carrierBonus).Price?
    ensures var leg := PriceLeg(pool, total, r, progress, depBp, arrBp, carrierBonus).value;
      var dep, arr := EstimateHubFeeRange(pool, total, r, depBp), EstimateHubFeeRange(pool, total, r, arrBp);
      && dep.Price? && dep.value.min <= leg.depFee <= dep.value.max
      && arr.Price? && arr.value.min <= leg.arrFee <= arr.value.max
  {
    var least := if MinProgress(total) < r then MinProgress(total) else r;
    ShareMonotone(pool, least, pool, progress, r);
    ShareMonotone(pool, progress, pool, r, r);
    WholeShare(pool, r);
    var low, gross, high := FloorToSat(ShareOf(pool, least, r)), FloorToSat(ShareOf(pool, progress, r)), FloorToSat(pool);
    SatMonotone(ShareOf(pool, least, r), ShareOf(pool, progress, r));
    SatMonotone(ShareOf(pool, progress, r), pool);
    FeeMonotone(low, gross, depBp);
    FeeMonotone(gross, high, depBp);
    FeeMonotone(low, gross, arrBp);
    FeeMonotone(gross, high, arrBp);
  }

  /** A leg's five amounts fit together, and the fees never touch the bonus. */
  lemma LegPriceConsistent(pool: Msat, total: Metres, r: Metres, progress: Metres, depBp: int, arrBp: int, carrierBonus: Msat)
    requires PriceLeg(pool, total, r, progress, depBp, arrBp, carrierBonus).Price?
    ensures var p := PriceLeg(pool, total, r, progress, depBp, arrBp, carrierBonus).value;
      && 0 <= p.depFee && 0 <= p.arrFee && 0 <= p.net && p.depFee + p.arrFee + p.net == p.gross
      && (p.bonus > 0 ==> progress == r) && 0 <= p.bonus <= carrierBonus
  {
    var gross := FloorToSat(ShareOf(pool, progress, r));
    SatBounds(ShareOf(pool, progress, r));
    SatBounds(carrierBonus);
    FeeShare(gross, depBp);
    FeeShare(gross, arrBp);
  }

  lemma FeeShare(gross: Msat, bp: int)
    requires 0 <= gross && ValidFeeBp(bp)
    ensures 0 <= FeeOn(gross, bp) * 10 <= gross * 3
  {
    assert gross * bp <= gross * MAX_HUB_FEE_BP;
    SatBounds(gross * bp / BP_DENOMINATOR);
  }
}
