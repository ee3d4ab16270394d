/** The progress-based pricing engine: every amount is an integer number of
    millisatoshi, every distance an integer number of metres, and every
    rounding goes down. */
module Economics {

  type Msat = int
  type Metres = int

  const MSAT_PER_SAT: Msat := 1000
  const BP_DENOMINATOR: int := 10_000
  const MAX_HUB_FEE_BP: int := 3_000
  const MIN_LEG_PROGRESS_M: Metres := 5_000
  const FINALIZATION_BONUS_BP: int := 1_000
  const FINALIZATION_CARRIER_SHARE_BP: int := 7_000
  const FINALIZATION_HUB_SHARE_BP: int := 3_000

  datatype PricingError =
    | InvalidAmount
    | InvalidDistance
    | InvalidHubFee
    | InvalidBoost
    | ProgressBelowMinimum
    | ProgressExceedsRemaining

  datatype Priced<+T> = Price(value: T) | Refused(error: PricingError)

  /** A boost's contribution to the pool: its work part, and the remaining
      distance at which it joined. */
  datatype PoolBoost = PoolBoost(work: Msat, at: Metres)

  datatype CommitmentSplit = CommitmentSplit(work: Msat, carrierBonus: Msat, hubBonus: Msat)

  datatype LegPricing = LegPricing(gross: Msat, depFee: Msat, arrFee: Msat, net: Msat, bonus: Msat)

  datatype ClaimPricing = ClaimPricing(payment: Msat, hubBonus: Msat)

  datatype FeeRange = FeeRange(min: Msat, max: Msat)

  function FloorToSat(amount: Msat): Msat
    requires 0 <= amount
  {
    amount - amount % MSAT_PER_SAT
  }

  predicate ValidFeeBp(bp: int) {
    0 <= bp <= MAX_HUB_FEE_BP
  }

  function SplitCommitment(amount: Msat): CommitmentSplit
    requires 0 <= amount
  {
    var bonus := amount * FINALIZATION_BONUS_BP / BP_DENOMINATOR;
    CommitmentSplit(
      amount * (BP_DENOMINATOR - FINALIZATION_BONUS_BP) / BP_DENOMINATOR,
      bonus * FINALIZATION_CARRIER_SHARE_BP / BP_DENOMINATOR,
      bonus * FINALIZATION_HUB_SHARE_BP / BP_DENOMINATOR)
  }

  predicate LongEnough(progress: Metres, total: Metres) {
    MIN_LEG_PROGRESS_M <= progress && total <= progress * 20
  }

  /** The price of one leg, or the first guard it trips, in the engine's order. */
  function PriceLeg(pool: Msat, total: Metres, remaining: Metres, progress: Metres,
                    depBp: int, arrBp: int, carrierBonus: Msat): (r: Priced<LegPricing>)
  {
    if pool < 0 || carrierBonus < 0 then Refused(InvalidAmount)
    else if total < 0 || remaining < 0 || progress < 0 then Refused(InvalidDistance)
    else if total <= 0 then Refused(InvalidDistance)
    else if remaining <= 0 || remaining > total then Refused(InvalidDistance)
    else if progress <= 0 then Refused(ProgressBelowMinimum)
    else if progress > remaining then Refused(ProgressExceedsRemaining)
    else if progress != remaining && !LongEnough(progress, total) then Refused(ProgressBelowMinimum)
    else if !ValidFeeBp(depBp) || !ValidFeeBp(arrBp) then Refused(InvalidHubFee)
    else if depBp + arrBp >= BP_DENOMINATOR then Refused(InvalidHubFee)
    else Price(LegPrice(pool, remaining, progress, depBp, arrBp, carrierBonus))
  }

  function LegPrice(pool: Msat, remaining: Metres, progress: Metres,
                    depBp: int, arrBp: int, carrierBonus: Msat): LegPricing
    requires 0 <= pool && 0 <= carrierBonus && 0 < progress <= remaining
    requires ValidFeeBp(depBp) && ValidFeeBp(arrBp)
  {
    var gross := FloorToSat(ShareOf(pool, progress, remaining));
    var dep := FeeOn(gross, depBp);
    var arr := FeeOn(gross, arrBp);
    LegPricing(gross, dep, arr, gross - dep - arr,
               if progress == remaining then FloorToSat(carrierBonus) else 0)
  }

  /** amount × part / whole, truncated. */
  function ShareOf(amount: Msat, part: Metres, whole: Metres): (s: Msat)
    requires 0 <= amount && 0 <= part && 0 < whole
    ensures 0 <= s
  {
    amount * part / whole
  }

  function FeeOn(gross: Msat, bp: int): (fee: Msat)
    requires 0 <= gross && ValidFeeBp(bp)
    ensures 0 <= fee
  {
    FloorToSat(gross * bp / BP_DENOMINATOR)
  }

  function PriceClaim(pool: Msat, carrierBonus: Msat, hubBonus: Msat): Priced<ClaimPricing> {
    if pool < 0 || carrierBonus < 0 || hubBonus < 0 then Refused(InvalidAmount)
    else Price(ClaimPricing(FloorToSat(pool) + FloorToSat(carrierBonus), FloorToSat(hubBonus)))
  }

  /** The guard a boost trips in the pool loop, if any, for a parcel
      `remaining` metres away on a segment of `total` metres. */
  function BoostFault(b: PoolBoost, total: Metres, remaining: Metres): (f: Priced<PoolBoost>)
    ensures f.Price? ==> f.value == b && 0 < b.work && 0 < b.at
  {
    if b.work <= 0 then Refused(InvalidBoost)
    else if b.at < 0 then Refused(InvalidDistance)
    else if b.at == 0 || b.at > total then Refused(InvalidBoost)
    else if b.at < remaining then Refused(InvalidBoost)
    else Price(b)
  }

  /** `base` plus what the boosts still contribute at `remaining` metres, or
      the first guard tripped on the way. */
  function AddBoosts(base: Msat, boosts: seq<PoolBoost>, total: Metres, remaining: Metres): Priced<Msat>
    requires 0 <= remaining
  {
    if boosts == [] then Price(base)
    else
      var last := boosts[|boosts| - 1];
      match AddBoosts(base, boosts[..|boosts| - 1], total, remaining)
      case Refused(e) => Refused(e)
      case Price(pool) =>
        match BoostFault(last, total, remaining)
        case Refused(e) => Refused(e)
        case Price(b) => Price(pool + ShareOf(b.work, remaining, b.at))
  }

  /** The notional remaining work pool, as a function; `RemainingPool` computes it. */
  function PoolAt(work: Msat, total: Metres, remaining: Metres, boosts: seq<PoolBoost>): Priced<Msat> {
    if work < 0 then Refused(InvalidAmount)
    else if total <= 0 || remaining < 0 || remaining > total then Refused(InvalidDistance)
    else AddBoosts(ShareOf(work, remaining, total), boosts, total, remaining)
  }

  method RemainingPool(work: Msat, total: Metres, remaining: Metres, boosts: seq<PoolBoost>)
    returns (r: Priced<Msat>)
    ensures r == PoolAt(work, total, remaining, boosts)
  {
    if work < 0 { return Refused(InvalidAmount); }
    if total <= 0 || remaining < 0 || remaining > total { return Refused(InvalidDistance); }
    var base := ShareOf(work, remaining, total);
    var pool := base;
    for i := 0 to |boosts|
      invariant AddBoosts(base, boosts[..i], total, remaining) == Price(pool)
    {
      assert boosts[..i + 1][..i] == boosts[..i];
      match BoostFault(boosts[i], total, remaining)
      case Refused(e) =>
        assert AddBoosts(base, boosts[..i + 1], total, remaining) == Refused(e);
        RefusalSticks(base, boosts, i + 1, total, remaining);
        return Refused(e);
      case Price(b) =>
        pool := pool + ShareOf(b.work, remaining, b.at);
    }
    assert boosts[..|boosts|] == boosts;
    return Price(pool);
  }

  /** Once a boost is refused, the rest of the list cannot undo it. */
  lemma {:induction false} RefusalSticks(base: Msat, boosts: seq<PoolBoost>, n: nat, total: Metres, remaining: Metres)
    requires 0 <= remaining && n <= |boosts|
    requires AddBoosts(base, boosts[..n], total, remaining).Refused?
    ensures AddBoosts(base, boosts, total, remaining) == AddBoosts(base, boosts[..n], total, remaining)
  {
    if n == |boosts| {
      assert boosts[..n] == boosts;
    } else {
      var init := boosts[..|boosts| - 1];
      assert init[..n] == boosts[..n];
      RefusalSticks(base, init, n, total, remaining);
    }
  }

  /** A reroute freezes the current pool as the work of a fresh segment. */
  function ApplyReroute(work: Msat, total: Metres, remaining: Metres, newRemaining: Metres,
                        boosts: seq<PoolBoost>): Priced<Msat>
  {
    if newRemaining <= 0 then Refused(InvalidDistance)
    else PoolAt(work, total, remaining, boosts)
  }

  function CancellationCompensation(work: Msat, feeBp: int): Priced<Msat> {
    if work < 0 then Refused(InvalidAmount)
    else if !ValidFeeBp(feeBp) then Refused(InvalidHubFee)
    else Price(FeeOn(work, feeBp))
  }

  /** The shortest admissible non-final progress of a segment: the larger of
      5 km and 5% of it, rounded to the nearest metre. */
  function MinProgress(total: Metres): Metres {
    var twentieth := (total + 10) / 20;
    if MIN_LEG_PROGRESS_M < twentieth then twentieth else MIN_LEG_PROGRESS_M
  }

  function EstimateHubFeeRange(pool: Msat, total: Metres, remaining: Metres, feeBp: int): Priced<FeeRange> {
    if pool < 0 then Refused(InvalidAmount)
    else if !ValidFeeBp(feeBp) then Refused(InvalidHubFee)
    else if remaining <= 0 || total <= 0 then Refused(InvalidDistance)
    else
      var minProgress := if MinProgress(total) < remaining then MinProgress(total) else remaining;
      var grossMin := FloorToSat(ShareOf(pool, minProgress, remaining));
      Price(FeeRange(FeeOn(grossMin, feeBp), FeeOn(FloorToSat(pool), feeBp)))
  }
}
