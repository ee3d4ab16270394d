/** What the sender pays in the end. Over every run whose legs, claims, boosts
    and reroutes are priced by the handlers, released leg payments, claim
    payment and hub bonus together never exceed the offer plus the boosts. */
module Outlay {
  import opened Economics
  import opened Potential
  import opened Payouts
  import opened Shipment
  import opened StateMachine
  import opened Books
  import opened Executor
  import opened Invariant
  import opened Runs
  import opened Guarantees
  import opened Releases
  import opened Replay
  import opened EffectRuns
  import opened EndSteps

  // ----------------------------------------------------------- how the handlers price

  /** Distances as the shipment's metric gives them: none from a hub to itself,
      at least a metre between two hubs. */
  ghost predicate Proper(net: Network) {
    && (forall h: HubId :: net.distance(h, h) == 0)
    && (forall g: HubId, h: HubId :: g != h ==> 1 <= net.distance(g, h))
  }

  /** The hub the remaining distance is measured from. */
  function Position(w: World): HubId {
    if w.state == InTransit && w.leg.Some? then w.leg.value.fromHub
    else if w.stay.Some? then w.stay.value.hub
    else w.originHub
  }

  function Remaining(net: Network, w: World): Metres {
    net.distance(Position(w), w.destHub)
  }

  function PoolNow(net: Network, w: World): Priced<Msat> {
    PoolAt(w.pool.work, w.pool.total, Remaining(net, w), w.pool.boosts)
  }

  function CarrierAvailable(p: Pool): Msat {
    if p.carrierConsumed then 0 else p.carrierQuota
  }

  function QuotedLeg(net: Network, w: World, toHub: HubId): Priced<LegPricing> {
    match PoolNow(net, w)
    case Refused(e) => Refused(e)
    case Price(pool) =>
      var r := Remaining(net, w);
      PriceLeg(pool, w.pool.total, r, if toHub == w.destHub then r else r - net.distance(toHub, w.destHub),
               net.feeBp(Position(w)), net.feeBp(toHub), CarrierAvailable(w.pool))
  }

  function QuotedClaim(net: Network, w: World): Priced<ClaimPricing> {
    match PoolNow(net, w)
    case Refused(e) => Refused(e)
    case Price(pool) => PriceClaim(pool, CarrierAvailable(w.pool), w.pool.hubQuota)
  }

  /** The work a destination change freezes: the decayed pool, or at the old
      destination the boosts that arrived while the parcel waited there. */
  function FrozenBy(net: Network, w: World, newRemaining: Metres): Priced<Msat> {
    if w.state == AwaitingPickup then Price(if w.pool.waiting.Some? then w.pool.waiting.value else 0)
    else
      var r := Remaining(net, w);
      ApplyReroute(w.pool.work, w.pool.total, if r < w.pool.total then r else w.pool.total, newRemaining, w.pool.boosts)
  }

  /** A command as the routes and the sweep issue it to the shipment w when they
      loaded it as o: every amount and distance it carries is computed from o. */
  ghost predicate Quoted(net: Network, o: World, w: World, cmd: Command) {
    && Issued(w, cmd)
    && match EventOf(cmd)
       case RequestLeg(_, _, _, _, toHub, _, pricing, hubBonus, _) =>
         && o.stay.Some? && QuotedLeg(net, o, toHub) == Price(pricing)
         && 0 <= o.pool.hubQuota && hubBonus == (if toHub == o.destHub then FloorToSat(o.pool.hubQuota) else 0)
       case RecipientClaim(_, _, _, _, payment, hubBonus, _) =>
         o.stay.Some? && QuotedClaim(net, o) == Price(ClaimPricing(payment, hubBonus))
       case Boost(_, at) => at == (if o.state == AtHub then Remaining(net, o) else o.pool.total)
       case Reroute(newDest, _, newRemaining) =>
         newDest.Some? ==>
           && o.stay.Some? && newRemaining == net.distance(Position(o), newDest.value)
           && cmd.Handle? && FrozenBy(net, o, newRemaining) == Price(cmd.frozenWork)
       case _ => true
  }

  // ----------------------------------------------------------- the account

  /** Every conditional payment but a bond counts with its amount. */
  function Spend(purpose: Purpose, amount: Msat): int {
    if purpose == CustodyBond then 0 else amount
  }

  const SPENDING: Weight := (purpose, amount) => Spend(purpose, amount)

  /** What the sender has paid to carriers, recipients and delivering hubs. */
  function Outlaid(w: World): Msat {
    Tally(w.books.payments, SPENDING)
  }

  function BoostsIn(chain: seq<CustodyEvent>): Msat {
    if chain == [] then 0
    else
      var last := chain[|chain| - 1];
      BoostsIn(chain[..|chain| - 1]) + (if last.kind == Boosted && last.payload.BoostPayload? then last.payload.amount else 0)
  }

  /** What the sender offered, plus every boost on the record. */
  function Committed(w: World): Msat {
    w.offer + BoostsIn(w.books.chain)
  }

  /** Before the parcel reaches its destination the work still owed lies on the slope. */
  predicate UnderWay(s: State) {
    s != AwaitingPickup && !Terminal(s)
  }

  ghost predicate PoolSound(p: Pool) {
    && 0 <= p.work && 0 < p.total && Placed(p.boosts) && 0 <= p.carrierQuota && 0 <= p.hubQuota
    && (p.waiting.Some? ==> 0 <= p.waiting.value)
  }

  function SlopeOf(p: Pool): real
    requires 0 < p.total && Placed(p.boosts)
  {
    Slope(p.work, p.total, p.boosts)
  }

  /** What may still be paid for carrying the parcel on. */
  function WorkReserve(net: Network, w: World): real
    requires 0 < w.pool.total && Placed(w.pool.boosts)
  {
    if UnderWay(w.state) then Times(SlopeOf(w.pool), Remaining(net, w))
    else if w.state == AwaitingPickup && w.pool.waiting.Some? then w.pool.waiting.value as real
    else 0.0
  }

  function BonusReserve(w: World): Msat {
    if Terminal(w.state) then 0 else CarrierAvailable(w.pool) + w.pool.hubQuota
  }

  /** The parcel is never farther away than its segment is long, nor than where
      any boost of the segment joined. */
  ghost predicate WithinSegment(net: Network, w: World) {
    UnderWay(w.state) ==>
      && 0 < Remaining(net, w) <= w.pool.total
      && forall b <- w.pool.boosts :: Remaining(net, w) <= b.at <= w.pool.total
  }

  /** A frozen leg price is covered by the slope it walks down and by the quotas. */
  ghost predicate Covered(net: Network, w: World, toHub: HubId, pricing: LegPricing)
    requires PoolSound(w.pool)
  {
    var r, next := Remaining(net, w), net.distance(toHub, w.destHub);
    && 0 <= next < r
    && pricing.gross as real <= Times(SlopeOf(w.pool), r - next)
    && pricing.bonus <= CarrierAvailable(w.pool)
  }

  ghost predicate PricesCovered(net: Network, w: World)
    requires PoolSound(w.pool)
  {
    && (w.request.Some? ==>
          Covered(net, w, w.request.value.toHub, w.request.value.pricing) && w.request.value.hubBonus <= w.pool.hubQuota)
    && (w.leg.Some? ==> Covered(net, w, w.leg.value.toHub, w.leg.value.pricing))
    && (w.bonus.Some? ==> w.bonus.value.amount <= w.pool.hubQuota)
    && (w.claim.Some? ==>
          && w.claim.value.payment as real <= WorkReserve(net, w) + CarrierAvailable(w.pool) as real
          && w.claim.value.hubBonus <= w.pool.hubQuota)
  }

  /** The account never goes into the red. */
  ghost predicate Solvent(net: Network, w: World) {
    && PoolSound(w.pool)
    && WithinSegment(net, w)
    && PricesCovered(net, w)
    && Outlaid(w) as real + WorkReserve(net, w) + BonusReserve(w) as real <= Committed(w) as real
  }

  // ----------------------------------------------------------- the two sums over one command

  lemma CommittedGrows(net: Network, w: World, cmd: Command, v: World)
    requires Execute(net, w, cmd) == Ok(v)
    ensures Committed(v) == Committed(w) + (if EventOf(cmd).Boost? then EventOf(cmd).amount else 0)
  {
    var x := ChainGrows(net, w, cmd);
    RequestAfter(net, w, cmd, v);
    assert (w.books.chain + [x])[..|w.books.chain|] == w.books.chain;
    hide Execute;
  }

  /** What an event pays out of the sender's wallet. */
  function SpentOn(w: World, e: Event): Msat {
    match e
    case LegCheckin(_, _, _, _, _) => if w.leg.Some? then LegHoldAmount(w.leg.value) else 0
    case RecipientPickup(_) => if w.bonus.Some? then w.bonus.value.amount else 0
    case RecipientClaimedPickup(_) =>
      if w.claim.None? then 0
      else w.claim.value.payment + (if w.claim.value.hubBonusId.Some? then w.claim.value.hubBonus else 0)
    case _ => 0
  }

  lemma AddedOne(ps: seq<Payment>, p: nat, f: Weight)
    requires p < |ps|
    ensures Added(ps, [p], f) == Weigh(ps[p], f)
  {
    AddedCons(ps, p, [], f);
    assert [p] + [] == [p];
  }

  lemma AddedTwo(ps: seq<Payment>, p: nat, q: nat, f: Weight)
    requires p < |ps| && q < |ps|
    ensures Added(ps, [p, q], f) == Weigh(ps[p], f) + Weigh(ps[q], f)
  {
    AddedCons(ps, p, [q], f);
    AddedOne(ps, q, f);
    assert [p] + [q] == [p, q];
  }

  lemma HeldWeighs(b: Books, d: Books, p: nat, f: Weight)
    requires p < |b.payments| && PaymentsEvolve(b, d)
    ensures p < |d.payments| && Weigh(d.payments[p], f) == f(b.payments[p].purpose, b.payments[p].amount)
  {
    WeighsTheSame(b, d, p, f);
  }

  lemma AddedNone(ps: seq<Payment>, f: Weight)
    ensures Added(ps, [], f) == 0
  {}

  lemma LegSpends(net: Network, w: World, d: Books)
    requires w.leg.Some? && LegOk(net, w, w.leg.value) && PaymentsEvolve(w.books, d)
    ensures Added(d.payments, [w.leg.value.carrierBondId], SPENDING) == 0
    ensures Added(d.payments, [w.leg.value.paymentId], SPENDING) == LegHoldAmount(w.leg.value)
  {
    hide PaymentsEvolve, Added;
    HeldWeighs(w.books, d, w.leg.value.carrierBondId, SPENDING);
    AddedOne(d.payments, w.leg.value.carrierBondId, SPENDING);
    HeldWeighs(w.books, d, w.leg.value.paymentId, SPENDING);
    AddedOne(d.payments, w.leg.value.paymentId, SPENDING);
  }

  lemma PickupSpends(net: Network, w: World, d: Books)
    requires w.bonus.Some? && w.stay.Some? && w.state == AwaitingPickup && BonusOk(net, w, w.bonus.value)
    requires PaymentsEvolve(w.books, d)
    ensures Added(d.payments, [w.bonus.value.paymentId], SPENDING) == w.bonus.value.amount
  {
    hide PaymentsEvolve, Added;
    HeldWeighs(w.books, d, w.bonus.value.paymentId, SPENDING);
    AddedOne(d.payments, w.bonus.value.paymentId, SPENDING);
  }

  lemma ClaimSpends(w: World, d: Books)
    requires w.claim.Some? && ClaimOk(w, w.claim.value) && PaymentsEvolve(w.books, d)
    ensures var c := w.claim.value;
      if c.hubBonusId.Some? then Added(d.payments, [c.paymentId, c.hubBonusId.value], SPENDING) == c.payment + c.hubBonus
      else Added(d.payments, [c.paymentId], SPENDING) == c.payment
  {
    hide PaymentsEvolve, Added;
    var c := w.claim.value;
    HeldWeighs(w.books, d, c.paymentId, SPENDING);
    if c.hubBonusId.Some? {
      HeldWeighs(w.books, d, c.hubBonusId.value, SPENDING);
      AddedTwo(d.payments, c.paymentId, c.hubBonusId.value, SPENDING);
    } else {
      AddedOne(d.payments, c.paymentId, SPENDING);
    }
  }

  /** The state and the parts of the aggregate the paying events need. */
  lemma PayingEventNeeds(s: State, e: Event, ctx: Context)
    requires Transition(s, e, ctx).Accept?
    ensures e.PickupTimeout? || e.TransitTimeout? || e.LegCheckin? ==> ctx.leg.Some?
    ensures e.RecipientPickup? ==> s == AwaitingPickup && ctx.stay.Some?
    ensures e.RecipientClaimedPickup? ==> ctx.claim.Some?
  {}

  /** What the invariant says of the parts that get paid. */
  lemma PartsInOrder(net: Network, w: World)
    requires Inv(net, w)
    ensures w.leg.Some? ==> LegOk(net, w, w.leg.value)
    ensures w.bonus.Some? ==> BonusOk(net, w, w.bonus.value)
    ensures w.claim.Some? ==> ClaimOk(w, w.claim.value)
  {}

  lemma ClaimReleasesAre(net: Network, w: World, e: Event)
    requires e.RecipientClaimedPickup? && w.claim.Some?
    ensures var c := w.claim.value;
      ReleasedBy(e, ContextOf(net, w)) == if c.hubBonusId.Some? then [c.paymentId, c.hubBonusId.value] else [c.paymentId]
  {
    var c := w.claim.value;
    if c.hubBonusId.None? { assert [c.paymentId] + [] == [c.paymentId]; }
  }

  /** What a transition releases is what the event pays. */
  lemma ReleasesSpend(net: Network, w: World, e: Event, d: Books)
    requires Inv(net, w) && Transition(w.state, e, ContextOf(net, w)).Accept? && PaymentsEvolve(w.books, d)
    ensures Added(d.payments, ReleasedBy(e, ContextOf(net, w)), SPENDING) == SpentOn(w, e)
  {
    hide Inv, Transition, PaymentsEvolve, Added, LegOk, BonusOk, ClaimOk;
    PayingEventNeeds(w.state, e, ContextOf(net, w));
    PartsInOrder(net, w);
    match e
    case PickupTimeout(_) => LegSpends(net, w, d);
    case TransitTimeout(_) => LegSpends(net, w, d);
    case LegCheckin(_, _, _, _, _) => LegSpends(net, w, d);
    case RecipientPickup(_) =>
      if w.bonus.Some? { PickupSpends(net, w, d); } else { AddedNone(d.payments, SPENDING); }
    case RecipientClaimedPickup(_) =>
      ClaimSpends(w, d);
      ClaimReleasesAre(net, w, e);
    case _ => AddedNone(d.payments, SPENDING);
  }

  lemma OutlaidGrows(net: Network, w: World, cmd: Command, v: World)
    requires Inv(net, w) && Execute(net, w, cmd) == Ok(v)
    ensures Outlaid(v) == Outlaid(w) + SpentOn(w, EventOf(cmd))
  {
    Projected(net, w, cmd, v);
    hide Inv, Execute, Transition, PaymentsEvolve, Tally, Added, ReleasedBy, SpentOn;
    ExecuteTally(net, w, cmd, v, SPENDING);
    ReleasesSpend(net, w, EventOf(cmd), v.books);
  }

  // ----------------------------------------------------------- events that move no money of the sender's

  /** The parcel, its segment and the frozen prices stay as they are; a pending
      price may vanish, and an accepted request becomes a leg at its price. */
  ghost predicate Still(net: Network, w: World, v: World) {
    && v.pool == w.pool && v.destHub == w.destHub
    && !Terminal(w.state) && !Terminal(v.state) && (UnderWay(v.state) <==> UnderWay(w.state))
    && Position(v) == Position(w)
    && (v.request.Some? ==> v.request == w.request)
    && (v.leg.Some? ==>
          || (w.leg.Some? && v.leg.value.toHub == w.leg.value.toHub && v.leg.value.pricing == w.leg.value.pricing)
          || (w.request.Some? && v.leg.value.toHub == w.request.value.toHub && v.leg.value.pricing == w.request.value.pricing))
    && (v.bonus.Some? ==> v.bonus == w.bonus || (w.request.Some? && v.bonus.value.amount == w.request.value.hubBonus))
    && (v.claim.Some? ==> v.claim == w.claim)
  }

  lemma StillSolvent(net: Network, w: World, v: World)
    requires Solvent(net, w) && Still(net, w, v)
    requires Outlaid(v) == Outlaid(w) && Committed(v) == Committed(w)
    ensures Solvent(net, v)
  {
    hide Outlaid, Committed, Slope, Times;
  }

  predicate MovesRequest(e: Event) {
    e.DepositAccept? || e.DepositReject? || e.DepositRequestExpired? || e.DepositRequestCancel? || e.ClaimFunded?
    || e.ClaimFundingExpired? || e.HandoffReject?
  }

  predicate MovesLeg(e: Event) {
    e.LegFunded? || e.LegFundingExpired? || e.PickupCheckout? || e.PickupTimeout? || e.LegReturn?
  }

  predicate Arrives(e: Event) {
    e.OriginHubAccept? || e.OriginCheckin?
  }

  lemma RequestMovesStill(net: Network, w: World, cmd: Command, v: World)
    requires Inv(net, w) && MovesRequest(EventOf(cmd)) && Execute(net, w, cmd) == Ok(v)
    ensures Still(net, w, v)
  {
    hide Run, Audited, OnlyLivePending, RefsMinted, StayOk, LegOk, RequestOk, BonusOk, ClaimOk, ExpectedTimers,
      RefundPendingLegHolds, RefundPendingClaimHolds;
  }

  lemma LegMovesStill(net: Network, w: World, cmd: Command, v: World)
    requires Inv(net, w) && MovesLeg(EventOf(cmd)) && Execute(net, w, cmd) == Ok(v)
    ensures Still(net, w, v)
  {
    hide Run, Audited, OnlyLivePending, RefsMinted, StayOk, RequestOk, BonusOk, ClaimOk, ExpectedTimers, HoldIs,
      RefundPendingLegHolds, RefundFinalizationBonus, SlashCarrierBond, RefundLegPayment, RefundArrivalBond,
      RefundCarrierBond, RefundStayBond, PayNow;
  }

  lemma ArrivalsStill(net: Network, w: World, cmd: Command, v: World)
    requires Inv(net, w) && Arrives(EventOf(cmd)) && Execute(net, w, cmd) == Ok(v)
    ensures Still(net, w, v)
  {
    hide Run, Audited, OnlyLivePending, RefsMinted, LegOk, RequestOk, BonusOk, ClaimOk, ExpectedTimers, HoldIs;
  }

  // ----------------------------------------------------------- events that end the shipment

  predicate Ends(e: Event) {
    e.RecipientPickup? || e.RecipientClaimedPickup? || e.StorageExpiry? || e.TransitTimeout? || e.Cancel?
  }

  lemma EndsTerminal(net: Network, w: World, cmd: Command, v: World)
    requires Ends(EventOf(cmd)) && Execute(net, w, cmd) == Ok(v)
    ensures Terminal(v.state) && v.pool == w.pool && !Terminal(w.state)
    ensures EventOf(cmd).RecipientPickup? ==> w.state == AwaitingPickup
  {
    hide Run, DissolveAtStorageExpiry, SlashCarrierBond, RefundLegPayment, RefundArrivalBond, RefundFinalizationBonus,
      RefundStayBond, PayNow;
  }

  lemma WorkReserveNonNegative(net: Network, w: World)
    requires PoolSound(w.pool)
    ensures 0.0 <= WorkReserve(net, w)
  {
    RatioNonNegative(w.pool.work, w.pool.total);
    SlopeNonNegative(w.pool.boosts);
    TimesOrder(0.0, SlopeOf(w.pool), Remaining(net, w));
    hide Ratio, BoostSlope;
  }

  lemma SpentIsReserved(net: Network, w: World, e: Event)
    requires Solvent(net, w) && Ends(e) && !Terminal(w.state)
    ensures SpentOn(w, e) as real <= WorkReserve(net, w) + BonusReserve(w) as real
  {
    WorkReserveNonNegative(net, w);
    hide Outlaid, Committed, WorkReserve, Slope;
  }

  lemma EndSolvent(net: Network, w: World, cmd: Command, v: World)
    requires Solvent(net, w) && Inv(net, w) && Inv(net, v) && Ends(EventOf(cmd)) && Execute(net, w, cmd) == Ok(v)
    ensures Solvent(net, v)
  {
    EndsTerminal(net, w, cmd, v);
    OutlaidGrows(net, w, cmd, v);
    CommittedGrows(net, w, cmd, v);
    SpentIsReserved(net, w, EventOf(cmd));
    hide Execute, Outlaid, Committed, SpentOn, Audited, OnlyLivePending, RefsMinted, StayOk, LegOk, RequestOk, BonusOk,
      ClaimOk, ExpectedTimers;
  }

  // ----------------------------------------------------------- quotes

  /** What a price computed on o needs to be sound on w: the same way ahead, and
      no less to pay it from. */
  ghost predicate StillPriced(net: Network, o: World, w: World)
    requires PoolSound(o.pool) && PoolSound(w.pool)
  {
    Terminal(w.state) ||
    (&& !Terminal(o.state) && (UnderWay(o.state) <==> UnderWay(w.state))
     && Position(o) == Position(w) && o.destHub == w.destHub && o.pool.total == w.pool.total
     && SlopeOf(o.pool) <= SlopeOf(w.pool)
     && CarrierAvailable(o.pool) <= CarrierAvailable(w.pool) && o.pool.hubQuota <= w.pool.hubQuota
     && (o.pool.waiting.Some? ==> w.pool.waiting.Some? && o.pool.waiting.value <= w.pool.waiting.value))
  }

  /** What a handler loaded before the transaction met w. */
  ghost predicate Loaded(net: Network, o: World, w: World) {
    PoolSound(o.pool) && WithinSegment(net, o) && PoolSound(w.pool) && StillPriced(net, o, w)
  }

  /** A price that was covered once is still covered. */
  lemma CoveredLater(net: Network, o: World, w: World, toHub: HubId, pricing: LegPricing)
    requires PoolSound(o.pool) && PoolSound(w.pool) && StillPriced(net, o, w) && !Terminal(w.state)
    requires Covered(net, o, toHub, pricing)
    ensures Covered(net, w, toHub, pricing)
  {
    hide Times, SlopeOf;
    TimesOrder(SlopeOf(o.pool), SlopeOf(w.pool), Remaining(net, o) - net.distance(toHub, o.destHub));
  }

  lemma ReservedLater(net: Network, o: World, w: World)
    requires PoolSound(o.pool) && PoolSound(w.pool) && StillPriced(net, o, w) && !Terminal(w.state) && WithinSegment(net, o)
    ensures WorkReserve(net, o) <= WorkReserve(net, w)
  {
    hide Times, SlopeOf;
    if UnderWay(o.state) { TimesOrder(SlopeOf(o.pool), SlopeOf(w.pool), Remaining(net, o)); }
  }

  lemma LegQuoteCovered(net: Network, w: World, toHub: HubId)
    requires Proper(net) && PoolSound(w.pool) && WithinSegment(net, w) && UnderWay(w.state)
    requires QuotedLeg(net, w, toHub).Price?
    ensures Covered(net, w, toHub, QuotedLeg(net, w, toHub).value)
  {
    var r, next := Remaining(net, w), net.distance(toHub, w.destHub);
    var progress := if toHub == w.destHub then r else r - next;
    assert progress == r - next;
    assert 0 < progress <= r;
    GrossBounds(w.pool.work, w.pool.total, w.pool.boosts, r, progress);
    SatBounds(CarrierAvailable(w.pool));
    hide Slope, Times, ShareOf, FeeOn, FloorToSat, PoolAt;
  }

  lemma ClaimQuoteCovered(net: Network, w: World)
    requires PoolSound(w.pool) && WithinSegment(net, w) && UnderWay(w.state) && QuotedClaim(net, w).Price?
    ensures var q := QuotedClaim(net, w).value;
      && q.payment as real <= WorkReserve(net, w) + CarrierAvailable(w.pool) as real
      && q.hubBonus <= w.pool.hubQuota
  {
    PoolBounds(w.pool.work, w.pool.total, w.pool.boosts, Remaining(net, w));
    SatBounds(PoolNow(net, w).value);
    SatBounds(CarrierAvailable(w.pool));
    SatBounds(w.pool.hubQuota);
    hide Slope, Times, FloorToSat, PoolAt;
  }

  lemma AfterRequest(net: Network, w: World, cmd: Command, v: World)
    requires EventOf(cmd).RequestLeg? && Execute(net, w, cmd) == Ok(v)
    ensures w.state == AtHub && v.state == AtHub && v.pool == w.pool && v.destHub == w.destHub && v.stay == w.stay && w.stay.Some?
    ensures v.leg.None? && v.bonus.None? && v.claim.None? && v.request.Some?
    ensures var e := EventOf(cmd);
      v.request.value.toHub == e.toHub && v.request.value.pricing == e.pricing && v.request.value.hubBonus == e.hubBonus
  {
    hide Run;
  }

  lemma RequestSolvent(net: Network, o: World, w: World, cmd: Command, v: World)
    requires Proper(net) && Loaded(net, o, w) && Solvent(net, w) && Inv(net, w) && Quoted(net, o, w, cmd)
    requires EventOf(cmd).RequestLeg? && Execute(net, w, cmd) == Ok(v)
    ensures Solvent(net, v)
  {
    hide Execute, Outlaid, Committed, Inv, QuotedLeg, Slope, Times, FloorToSat, Issued;
    AfterRequest(net, w, cmd, v);
    OutlaidGrows(net, w, cmd, v);
    CommittedGrows(net, w, cmd, v);
    LegQuoteCovered(net, o, EventOf(cmd).toHub);
    CoveredLater(net, o, w, EventOf(cmd).toHub, EventOf(cmd).pricing);
    SatBounds(o.pool.hubQuota);
  }

  lemma AfterClaim(net: Network, w: World, cmd: Command, v: World)
    requires EventOf(cmd).RecipientClaim? && Execute(net, w, cmd) == Ok(v)
    ensures w.state == AtHub && v.state == AtHub && v.pool == w.pool && v.destHub == w.destHub && v.stay == w.stay && w.stay.Some?
    ensures v.leg.None? && v.bonus.None? && v.request.None? && v.claim.Some?
    ensures v.claim.value.payment == EventOf(cmd).payment && v.claim.value.hubBonus == EventOf(cmd).hubBonus
  {
    hide Run;
  }

  lemma ClaimSolvent(net: Network, o: World, w: World, cmd: Command, v: World)
    requires Loaded(net, o, w) && Solvent(net, w) && Inv(net, w) && Quoted(net, o, w, cmd)
    requires EventOf(cmd).RecipientClaim? && Execute(net, w, cmd) == Ok(v)
    ensures Solvent(net, v)
  {
    hide Execute, Outlaid, Committed, Inv, QuotedClaim, Slope, Times, Issued;
    AfterClaim(net, w, cmd, v);
    OutlaidGrows(net, w, cmd, v);
    CommittedGrows(net, w, cmd, v);
    ClaimQuoteCovered(net, o);
    ReservedLater(net, o, w);
  }

  // ----------------------------------------------------------- boosts, reroutes, arrivals

  lemma AfterBoost(net: Network, w: World, cmd: Command, v: World)
    requires EventOf(cmd).Boost? && Execute(net, w, cmd) == Ok(v)
    ensures 0 < EventOf(cmd).amount && (w.state == AtHub || w.state == AwaitingPickup) && w.request.None? && w.claim.None?
    ensures v == w.(pool := AdvancePool(w.pool, cmd, w.state), books := v.books, minted := v.minted)
  {
    hide Run;
  }

  /** Where a boost was quoted to join is on the segment, no nearer than the parcel. */
  lemma BoostQuotedAhead(net: Network, o: World, w: World, cmd: Command)
    requires Loaded(net, o, w) && WithinSegment(net, w) && Quoted(net, o, w, cmd) && EventOf(cmd).Boost?
    requires w.state == AtHub || w.state == AwaitingPickup
    ensures 0 < EventOf(cmd).atRemaining
    ensures w.state == AtHub ==> Remaining(net, w) <= EventOf(cmd).atRemaining <= w.pool.total
  {
    hide SlopeOf, Issued;
  }

  /** A boost takes nothing away from what earlier prices are paid from. */
  lemma BoostSteepens(net: Network, w: World, cmd: Command, v: World)
    requires PoolSound(w.pool) && EventOf(cmd).Boost? && 0 < EventOf(cmd).amount && 0 < EventOf(cmd).atRemaining
    requires v == w.(pool := AdvancePool(w.pool, cmd, w.state), books := v.books, minted := v.minted)
    ensures PoolSound(v.pool) && StillPriced(net, w, v)
  {
    hide Slope, Ratio, SplitCommitment;
    var split, at := SplitCommitment(EventOf(cmd).amount), EventOf(cmd).atRemaining;
    SplitConserves(EventOf(cmd).amount);
    SlopeSnoc(w.pool.work, w.pool.total, w.pool.boosts, PoolBoost(split.work, at));
    RatioNonNegative(split.work, at);
  }

  /** A boost raises what is reserved by no more than its amount. */
  lemma BoostReserves(net: Network, w: World, cmd: Command, v: World)
    requires Solvent(net, w) && EventOf(cmd).Boost? && 0 < EventOf(cmd).amount && 0 < EventOf(cmd).atRemaining
    requires w.state == AwaitingPickup || (w.state == AtHub && Remaining(net, w) <= EventOf(cmd).atRemaining)
    requires v == w.(pool := AdvancePool(w.pool, cmd, w.state), books := v.books, minted := v.minted)
    requires PoolSound(v.pool)
    ensures WorkReserve(net, v) + BonusReserve(v) as real
         <= WorkReserve(net, w) + BonusReserve(w) as real + EventOf(cmd).amount as real
  {
    hide Outlaid, Committed, Slope, Times, Ratio, SplitCommitment, PricesCovered;
    var split, at, r := SplitCommitment(EventOf(cmd).amount), EventOf(cmd).atRemaining, Remaining(net, w);
    SplitConserves(EventOf(cmd).amount);
    SlopeSnoc(w.pool.work, w.pool.total, w.pool.boosts, PoolBoost(split.work, at));
    RatioNonNegative(split.work, at);
    TimesAdd(SlopeOf(w.pool), Ratio(split.work, at), r);
    if w.state == AtHub { RatioPart(split.work, at, r); }
  }

  lemma RatioPart(work: Msat, at: Metres, r: Metres)
    requires 0 <= work && 0 <= r <= at && 0 < at
    ensures Times(Ratio(work, at), r) <= work as real
  {
    hide Times, Ratio;
    RatioWhole(work, at);
    RatioNonNegative(work, at);
    TimesSplit(Ratio(work, at), r, at - r);
    TimesOrder(0.0, Ratio(work, at), at - r);
    TimesNone(at - r);
  }

  /** A price frozen before a boost stays covered after it. */
  lemma BoostCovers(net: Network, w: World, v: World)
    requires PoolSound(w.pool) && PoolSound(v.pool) && PricesCovered(net, w)
    requires w.request.None? && w.claim.None? && !Terminal(w.state)
    requires v == w.(pool := v.pool, books := v.books, minted := v.minted) && StillPriced(net, w, v)
    ensures PricesCovered(net, v)
  {
    hide SlopeOf, Times;
    if w.leg.Some? { CoveredLater(net, w, v, w.leg.value.toHub, w.leg.value.pricing); }
  }

  lemma BoostSolvent(net: Network, o: World, w: World, cmd: Command, v: World)
    requires Loaded(net, o, w) && Solvent(net, w) && Inv(net, w) && Quoted(net, o, w, cmd)
    requires EventOf(cmd).Boost? && Execute(net, w, cmd) == Ok(v)
    ensures Solvent(net, v)
  {
    hide Execute, Outlaid, Committed, SlopeOf, Quoted, PricesCovered, Inv, BonusReserve, WorkReserve, WithinSegment, PoolSound,
      CarrierAvailable, AdvancePool, Loaded, StillPriced;
    AfterBoost(net, w, cmd, v);
    OutlaidGrows(net, w, cmd, v);
    CommittedGrows(net, w, cmd, v);
    BoostQuotedAhead(net, o, w, cmd);
    BoostSteepens(net, w, cmd, v);
    BoostReserves(net, w, cmd, v);
    BoostCovers(net, w, v);
    BoostStaysWithin(net, w, cmd, v);
  }

  lemma BoostStaysWithin(net: Network, w: World, cmd: Command, v: World)
    requires WithinSegment(net, w) && EventOf(cmd).Boost? && 0 < EventOf(cmd).amount
    requires w.state == AwaitingPickup || (w.state == AtHub && Remaining(net, w) <= EventOf(cmd).atRemaining <= w.pool.total)
    requires v == w.(pool := AdvancePool(w.pool, cmd, w.state), books := v.books, minted := v.minted)
    ensures WithinSegment(net, v)
  {
    hide SplitCommitment;
  }

  lemma AfterReroute(net: Network, w: World, cmd: Command, v: World)
    requires EventOf(cmd).Reroute? && Execute(net, w, cmd) == Ok(v)
    ensures (w.state == AtHub || w.state == AwaitingPickup) && w.stay.Some? && w.leg.None? && w.request.None? && w.claim.None?
    ensures var newDest := EventOf(cmd).newDest;
      && (newDest.Some? ==> newDest.value != w.stay.value.hub)
      && v == w.(state := if newDest.Some? then AtHub else w.state,
                 destHub := if newDest.Some? then newDest.value else w.destHub,
                 bonus := if newDest.Some? && w.state == AwaitingPickup then None else w.bonus,
                 pool := AdvancePool(w.pool, cmd, v.state), books := v.books, minted := v.minted)
  {
    hide Run;
  }

  /** Whatever a destination change freezes was reserved already. */
  lemma FrozenIsReserved(net: Network, w: World, newRemaining: Metres)
    requires PoolSound(w.pool) && WithinSegment(net, w) && !Terminal(w.state)
    requires FrozenBy(net, w, newRemaining).Price?
    ensures 0 <= FrozenBy(net, w, newRemaining).value
    ensures FrozenBy(net, w, newRemaining).value as real <= WorkReserve(net, w)
    ensures w.state != AwaitingPickup ==> FrozenBy(net, w, newRemaining) == PoolNow(net, w)
  {
    if w.state != AwaitingPickup {
      PoolBounds(w.pool.work, w.pool.total, w.pool.boosts, Remaining(net, w));
    }
    hide PoolAt, Slope, Times;
  }

  lemma NewDestinationSolvent(net: Network, o: World, w: World, cmd: Command, v: World)
    requires Proper(net) && Loaded(net, o, w) && Solvent(net, w) && Shape(w) && Quoted(net, o, w, cmd)
    requires EventOf(cmd).Reroute? && EventOf(cmd).newDest.Some? && Execute(net, w, cmd) == Ok(v)
    requires Outlaid(v) == Outlaid(w) && Committed(v) == Committed(w)
    ensures Solvent(net, v)
  {
    hide Execute, Outlaid, Committed, Times, Ratio, FrozenBy, Issued;
    AfterReroute(net, w, cmd, v);
    var newRemaining := EventOf(cmd).newRemaining;
    FrozenIsReserved(net, o, newRemaining);
    ReservedLater(net, o, w);
    RatioWhole(cmd.frozenWork, newRemaining);
    assert SlopeOf(v.pool) == Ratio(cmd.frozenWork, newRemaining);
    hide Slope;
  }

  lemma NewRecipientSolvent(net: Network, w: World, cmd: Command, v: World)
    requires Solvent(net, w) && EventOf(cmd).Reroute? && EventOf(cmd).newDest.None? && Execute(net, w, cmd) == Ok(v)
    requires Outlaid(v) == Outlaid(w) && Committed(v) == Committed(w)
    ensures Solvent(net, v)
  {
    AfterReroute(net, w, cmd, v);
    SlopeNonNegative(w.pool.boosts);
    assert SlopeOf(v.pool) <= SlopeOf(w.pool);
    TimesOrder(SlopeOf(v.pool), SlopeOf(w.pool), Remaining(net, w));
    hide Execute, Outlaid, Committed, Slope, Times;
  }

  lemma RerouteSolvent(net: Network, o: World, w: World, cmd: Command, v: World)
    requires Proper(net) && Loaded(net, o, w) && Solvent(net, w) && Inv(net, w) && Quoted(net, o, w, cmd)
    requires EventOf(cmd).Reroute? && Execute(net, w, cmd) == Ok(v)
    ensures Solvent(net, v)
  {
    hide Execute, Outlaid, Committed, Solvent, Quoted, Shape, Loaded;
    OutlaidGrows(net, w, cmd, v);
    CommittedGrows(net, w, cmd, v);
    if EventOf(cmd).newDest.Some? {
      NewDestinationSolvent(net, o, w, cmd, v);
    } else {
      NewRecipientSolvent(net, w, cmd, v);
    }
  }

  lemma AfterCheckin(net: Network, w: World, cmd: Command, v: World)
    requires EventOf(cmd).LegCheckin? && Execute(net, w, cmd) == Ok(v)
    ensures w.state == InTransit && w.leg.Some? && v.leg.None? && v.destHub == w.destHub
    ensures v.request == w.request && v.claim == w.claim && v.bonus == w.bonus
    ensures v.stay.Some? && v.stay.value.hub == w.leg.value.toHub
    ensures v.state == if w.leg.value.toHub == w.destHub then AwaitingPickup else AtHub
    ensures v.pool == if v.state == AwaitingPickup then w.pool.(carrierConsumed := true, waiting := Some(0)) else w.pool
  {
    hide Run, RefundCarrierBond, PayNow;
  }

  /** What a completed leg pays was reserved, and leaves the rest reserved. */
  lemma CheckinReserves(net: Network, w: World, v: World)
    requires Proper(net) && PoolSound(w.pool) && w.state == InTransit && w.leg.Some?
    requires Covered(net, w, w.leg.value.toHub, w.leg.value.pricing)
    requires w.leg.value.pricing.bonus > 0 ==> w.leg.value.toHub == w.destHub
    requires v.destHub == w.destHub && v.stay.Some? && v.stay.value.hub == w.leg.value.toHub
    requires v.state == if w.leg.value.toHub == w.destHub then AwaitingPickup else AtHub
    requires v.pool == if v.state == AwaitingPickup then w.pool.(carrierConsumed := true, waiting := Some(0)) else w.pool
    ensures LegHoldAmount(w.leg.value) as real + WorkReserve(net, v) + BonusReserve(v) as real
         <= WorkReserve(net, w) + BonusReserve(w) as real
  {
    var r, next := Remaining(net, w), net.distance(w.leg.value.toHub, w.destHub);
    TimesSplit(SlopeOf(w.pool), r - next, next);
    hide Slope, Times;
  }

  lemma CheckinSolvent(net: Network, w: World, cmd: Command, v: World)
    requires Proper(net) && Solvent(net, w) && Inv(net, w)
    requires EventOf(cmd).LegCheckin? && Execute(net, w, cmd) == Ok(v)
    ensures Solvent(net, v)
  {
    AfterCheckin(net, w, cmd, v);
    OutlaidGrows(net, w, cmd, v);
    CommittedGrows(net, w, cmd, v);
    CheckinReserves(net, w, v);
    hide Execute, Outlaid, Committed, Slope, Times, WorkReserve, BonusReserve, LegHoldAmount, PricingConsistent, HoldIs,
      Audited, OnlyLivePending, RefsMinted, StayOk, RequestOk, ClaimOk, ExpectedTimers;
  }

  // ----------------------------------------------------------- over whole runs

  lemma StillStepSolvent(net: Network, w: World, cmd: Command, v: World)
    requires Solvent(net, w) && Inv(net, w) && Execute(net, w, cmd) == Ok(v)
    requires MovesRequest(EventOf(cmd)) || MovesLeg(EventOf(cmd)) || Arrives(EventOf(cmd))
    ensures Solvent(net, v)
  {
    OutlaidGrows(net, w, cmd, v);
    CommittedGrows(net, w, cmd, v);
    hide Execute, Outlaid, Committed, Solvent, Inv, Still;
    if MovesRequest(EventOf(cmd)) { RequestMovesStill(net, w, cmd, v); }
    else if MovesLeg(EventOf(cmd)) { LegMovesStill(net, w, cmd, v); }
    else { ArrivalsStill(net, w, cmd, v); }
    StillSolvent(net, w, v);
  }

  /** Every command keeps the account, priced on any earlier shipment whose prices
      still hold. */
  lemma StepSolvent(net: Network, o: World, w: World, cmd: Command, v: World)
    requires Proper(net) && Loaded(net, o, w) && Solvent(net, w) && Inv(net, w)
    requires Quoted(net, o, w, cmd) && Execute(net, w, cmd) == Ok(v)
    ensures Inv(net, v) && Solvent(net, v)
  {
    hide Execute, Inv, Solvent, Loaded;
    StepKeeps(net, w, cmd);
    var e := EventOf(cmd);
    if MovesRequest(e) || MovesLeg(e) || Arrives(e) { StillStepSolvent(net, w, cmd, v); }
    else if Ends(e) { EndSolvent(net, w, cmd, v); }
    else if e.RequestLeg? { RequestSolvent(net, o, w, cmd, v); }
    else if e.RecipientClaim? { ClaimSolvent(net, o, w, cmd, v); }
    else if e.Boost? { BoostSolvent(net, o, w, cmd, v); }
    else if e.Reroute? { RerouteSolvent(net, o, w, cmd, v); }
    else if e.LegCheckin? { CheckinSolvent(net, w, cmd, v); }
    else { CreateNeverExecutes(net, w, cmd); }
  }

  lemma CreateNeverExecutes(net: Network, w: World, cmd: Command)
    requires EventOf(cmd).Create?
    ensures Execute(net, w, cmd).Err?
  {}

  /** The events after which earlier prices no longer hold: the parcel is elsewhere,
      or goes elsewhere, or its segment's boosts are cleared. */
  predicate Displaces(e: Event) {
    e.LegCheckin? || e.Reroute?
  }

  /** Whatever command of that kind came at position j or later has failed. */
  ghost predicate Undisturbed(net: Network, w: World, cmds: seq<Command>, j: nat) {
    forall k: nat :: j <= k < |cmds| && Displaces(EventOf(cmds[k])) ==> Play(net, w, cmds[..k + 1]) == Play(net, w, cmds[..k])
  }

  ghost predicate QuotedSince(net: Network, w: World, cmds: seq<Command>, j: nat, cmd: Command) {
    j <= |cmds| && Undisturbed(net, w, cmds, j) && Quoted(net, Play(net, w, cmds[..j]), Play(net, w, cmds), cmd)
  }

  /** Every command of the run is quoted on the shipment it meets, or as it was
      earlier with no check-in and no reroute committed in between. */
  ghost predicate QuotedRun(net: Network, w: World, cmds: seq<Command>) {
    cmds == [] ||
    (QuotedRun(net, w, cmds[..|cmds| - 1]) && QuotedEarlier(net, w, cmds[..|cmds| - 1], cmds[|cmds| - 1]))
  }

  ghost predicate QuotedEarlier(net: Network, w: World, cmds: seq<Command>, cmd: Command) {
    exists j: nat :: QuotedSince(net, w, cmds, j, cmd)
  }

  ghost predicate QuotedBirth(net: Network, x: Birth) {
    BornAs(net, x).Ok? && x.distance == net.distance(x.originHub, x.destHub)
  }

  lemma BirthSolvent(net: Network, x: Birth)
    requires Proper(net) && QuotedBirth(net, x)
    ensures Solvent(net, BornAs(net, x).value)
  {
    var w, split := BornAs(net, x).value, SplitCommitment(x.offer);
    SplitConserves(x.offer);
    RatioWhole(split.work, x.distance);
    assert SlopeOf(w.pool) == Ratio(split.work, x.distance);
    BornClean(net, x);
    hide Times, Ratio, SplitCommitment, Run;
  }

  lemma BornClean(net: Network, x: Birth)
    requires BornAs(net, x).Ok?
    ensures Outlaid(BornAs(net, x).value) == 0 && Committed(BornAs(net, x).value) == x.offer
  {
    var w := BornAs(net, x).value;
    var ctx := Context(x.sender, x.senderWallet, x.originHub, net.owner(x.originHub), x.destHub, x.bond, x.offer,
                       SplitCommitment(x.offer).work, 0, None, None, None, None, None);
    var d := RunTail(Cursor(EMPTY, None), ctx, OnCreate(ctx).effects);
    assert w.books.chain == [CustodyEvent(Created, Some(x.sender), None, None, Plain)];
    assert w.books.chain[..|w.books.chain| - 1] == [];
    assert BoostsIn(w.books.chain) == 0;
  }

  lemma NextSolvent(net: Network, o: World, w: World, cmd: Command)
    requires Proper(net) && Loaded(net, o, w) && Solvent(net, w) && Inv(net, w) && Quoted(net, o, w, cmd)
    ensures Solvent(net, Next(net, w, cmd))
  {
    hide Execute, Inv, Solvent, Issued, Loaded;
    if cmd.Fire? { DueTimerFires(net, w, cmd); }
    if Execute(net, w, cmd).Ok? { StepSolvent(net, o, w, cmd, Execute(net, w, cmd).value); }
  }

  lemma {:induction false} PlaySolvent(net: Network, w: World, cmds: seq<Command>)
    requires Proper(net) && Solvent(net, w) && Inv(net, w) && QuotedRun(net, w, cmds)
    ensures Solvent(net, Play(net, w, cmds))
    decreases |cmds|, 0
  {
    hide Next, Inv, Solvent, Quoted, Loaded, Undisturbed;
    if cmds != [] {
      var init := cmds[..|cmds| - 1];
      var j: nat :| QuotedSince(net, w, init, j, cmds[|cmds| - 1]);
      PlaySolvent(net, w, init);
      PlayKeeps(net, w, init);
      PricesLast(net, w, init, j);
      NextSolvent(net, Play(net, w, init[..j]), Play(net, w, init), cmds[|cmds| - 1]);
    }
  }

  /** Prices hold until a check-in or a reroute commits. */
  lemma {:induction false} PricesLast(net: Network, w: World, cmds: seq<Command>, j: nat)
    requires Proper(net) && Solvent(net, w) && Inv(net, w) && QuotedRun(net, w, cmds)
    requires j <= |cmds| && Undisturbed(net, w, cmds, j)
    ensures Loaded(net, Play(net, w, cmds[..j]), Play(net, w, cmds))
    decreases |cmds|, 1
  {
    hide Next, Inv, Solvent, Quoted, Loaded, StillPriced;
    PlaySolvent(net, w, cmds);
    if j == |cmds| {
      assert cmds[..j] == cmds;
      LoadedJustNow(net, Play(net, w, cmds));
    } else {
      var n := |cmds| - 1;
      var init := cmds[..n];
      assert cmds[..n + 1] == cmds;
      assert init[..j] == cmds[..j];
      UndisturbedInit(net, w, cmds, j);
      PricesLast(net, w, init, j);
      PlaySolvent(net, w, init);
      PlayKeeps(net, w, init);
      NextLasts(net, Play(net, w, init[..j]), Play(net, w, init), cmds[n]);
    }
  }

  lemma UndisturbedInit(net: Network, w: World, cmds: seq<Command>, j: nat)
    requires cmds != [] && Undisturbed(net, w, cmds, j)
    ensures Undisturbed(net, w, cmds[..|cmds| - 1], j)
  {
    hide Play;
    var init := cmds[..|cmds| - 1];
    forall k: nat | j <= k < |init| && Displaces(EventOf(init[k]))
      ensures Play(net, w, init[..k + 1]) == Play(net, w, init[..k])
    {
      assert init[k] == cmds[k] && init[..k] == cmds[..k] && init[..k + 1] == cmds[..k + 1];
    }
  }

  lemma LoadedJustNow(net: Network, w: World)
    requires Solvent(net, w)
    ensures Loaded(net, w, w)
  {
    hide SlopeOf, PricesCovered, Outlaid, Committed;
  }

  lemma NextLasts(net: Network, o: World, w: World, cmd: Command)
    requires Loaded(net, o, w) && Solvent(net, w) && Inv(net, w) && Solvent(net, Next(net, w, cmd))
    requires Displaces(EventOf(cmd)) ==> Next(net, w, cmd) == w
    ensures Loaded(net, o, Next(net, w, cmd))
  {
    hide Execute, Inv, Solvent, Issued, Loaded;
    if cmd.Fire? && Issued(w, cmd) { DueTimerFires(net, w, cmd); }
    if Next(net, w, cmd) != w { StepLasts(net, o, w, cmd, Next(net, w, cmd)); }
  }

  lemma StepLasts(net: Network, o: World, w: World, cmd: Command, v: World)
    requires Loaded(net, o, w) && Solvent(net, w) && Inv(net, w) && Solvent(net, v)
    requires Execute(net, w, cmd) == Ok(v) && !Displaces(EventOf(cmd))
    ensures Loaded(net, o, v)
  {
    hide Execute, Inv, SlopeOf, PricesCovered, Outlaid, Committed, WithinSegment, PoolSound, AdvancePool;
    var e := EventOf(cmd);
    if MovesRequest(e) { RequestMovesStill(net, w, cmd, v); }
    else if MovesLeg(e) { LegMovesStill(net, w, cmd, v); }
    else if Arrives(e) { ArrivalsStill(net, w, cmd, v); }
    else if Ends(e) { EndsTerminal(net, w, cmd, v); }
    else if e.RequestLeg? { AfterRequest(net, w, cmd, v); }
    else if e.RecipientClaim? { AfterClaim(net, w, cmd, v); }
    else if e.Boost? {
      AfterBoost(net, w, cmd, v);
      BoostsAhead(net, w, cmd, v);
      BoostSteepens(net, w, cmd, v);
    }
    else { CreateNeverExecutes(net, w, cmd); }
  }

  lemma BoostsAhead(net: Network, w: World, cmd: Command, v: World)
    requires EventOf(cmd).Boost? && 0 < EventOf(cmd).amount && v.pool == AdvancePool(w.pool, cmd, w.state) && PoolSound(v.pool)
    ensures 0 < EventOf(cmd).atRemaining
  {
    hide SplitCommitment;
    var split := SplitCommitment(EventOf(cmd).amount);
    assert PoolBoost(split.work, EventOf(cmd).atRemaining) in v.pool.boosts;
  }

  /** What the sender's wallet is bound to right now. */
  function Bound(w: World): Msat {
    (if w.leg.Some? then LegHoldAmount(w.leg.value) else 0)
    + (if w.bonus.Some? then w.bonus.value.amount else 0)
    + (if w.claim.Some? then w.claim.value.payment + w.claim.value.hubBonus else 0)
  }

  lemma BoundIsReserved(net: Network, w: World)
    requires Solvent(net, w) && Shape(w)
    ensures Bound(w) as real <= WorkReserve(net, w) + BonusReserve(w) as real
  {
    WorkReserveNonNegative(net, w);
    if w.leg.Some? {
      var r, next := Remaining(net, w), net.distance(w.leg.value.toHub, w.destHub);
      TimesSplit(SlopeOf(w.pool), r - next, next);
      RatioNonNegative(w.pool.work, w.pool.total);
      SlopeNonNegative(w.pool.boosts);
      TimesOrder(0.0, SlopeOf(w.pool), next);
      assert Times(0.0, next) == 0.0;
    }
    hide Times, Slope, Outlaid, Committed;
  }

  /** In every run priced by the handlers, across any legs, failures, boosts,
      reroutes and claims: what the sender has paid, together with what is
      bound in holds, never exceeds the offer plus all boosts. */
  lemma SenderNeverOverpays(net: Network, x: Birth, cmds: seq<Command>)
    requires Proper(net) && QuotedBirth(net, x) && QuotedRun(net, BornAs(net, x).value, cmds)
    ensures var w := Play(net, BornAs(net, x).value, cmds); Outlaid(w) + Bound(w) <= Committed(w)
  {
    var w := Play(net, BornAs(net, x).value, cmds);
    RunIsSound(net, x, cmds);
    BoundIsReserved(net, w);
    hide Bound, Outlaid, Committed, WorkReserve, Play, BornAs, QuotedRun;
  }

  lemma RunIsSound(net: Network, x: Birth, cmds: seq<Command>)
    requires Proper(net) && QuotedBirth(net, x) && QuotedRun(net, BornAs(net, x).value, cmds)
    ensures Inv(net, Play(net, BornAs(net, x).value, cmds)) && Solvent(net, Play(net, BornAs(net, x).value, cmds))
  {
    BirthSolvent(net, x);
    BirthKeeps(net, x);
    hide Inv, Solvent, Play, BornAs, QuotedRun;
    PlaySolvent(net, BornAs(net, x).value, cmds);
    PlayKeeps(net, BornAs(net, x).value, cmds);
  }

  // ----------------------------------------------------------- each bonus share at most once

  const HUB_SHARES: Weight := (purpose, amount) => if purpose == FinalizationBonus then 1 else 0

  /** How often a hub bonus has been paid. */
  function HubSharesPaid(w: World): int {
    Tally(w.books.payments, HUB_SHARES)
  }

  ghost predicate HubShareOnce(w: World) {
    0 <= HubSharesPaid(w) <= (if w.state == Delivered then 1 else 0)
  }

  lemma HubShareStep(net: Network, w: World, cmd: Command, v: World)
    requires Inv(net, w) && Execute(net, w, cmd) == Ok(v) && HubShareOnce(w)
    ensures HubShareOnce(v)
  {
    Projected(net, w, cmd, v);
    DeliveringEvents(net, w, cmd, v);
    hide Inv, Execute, Transition, PaymentsEvolve, Tally, Added, ReleasedBy;
    ExecuteTally(net, w, cmd, v, HUB_SHARES);
    ReleasedShares(net, w, EventOf(cmd), v.books);
  }

  lemma ReleasedShares(net: Network, w: World, e: Event, d: Books)
    requires Inv(net, w) && Transition(w.state, e, ContextOf(net, w)).Accept? && PaymentsEvolve(w.books, d)
    ensures 0 <= Added(d.payments, ReleasedBy(e, ContextOf(net, w)), HUB_SHARES)
         <= (if e.RecipientPickup? || e.RecipientClaimedPickup? then 1 else 0)
  {
    hide Inv, Transition, PaymentsEvolve, Added, LegOk, BonusOk, ClaimOk;
    PayingEventNeeds(w.state, e, ContextOf(net, w));
    PartsInOrder(net, w);
    match e
    case PickupTimeout(_) => LegPaysNoHubShare(net, w, d);
    case TransitTimeout(_) => LegPaysNoHubShare(net, w, d);
    case LegCheckin(_, _, _, _, _) => LegPaysNoHubShare(net, w, d);
    case RecipientPickup(_) =>
      if w.bonus.Some? { PickupPaysOneHubShare(net, w, d); } else { AddedNone(d.payments, HUB_SHARES); }
    case RecipientClaimedPickup(_) =>
      ClaimPaysOneHubShare(w, d);
      ClaimReleasesAre(net, w, e);
    case _ => AddedNone(d.payments, HUB_SHARES);
  }

  lemma LegPaysNoHubShare(net: Network, w: World, d: Books)
    requires w.leg.Some? && LegOk(net, w, w.leg.value) && PaymentsEvolve(w.books, d)
    ensures Added(d.payments, [w.leg.value.carrierBondId], HUB_SHARES) == 0
    ensures Added(d.payments, [w.leg.value.paymentId], HUB_SHARES) == 0
  {
    hide PaymentsEvolve, Added;
    HeldWeighs(w.books, d, w.leg.value.carrierBondId, HUB_SHARES);
    AddedOne(d.payments, w.leg.value.carrierBondId, HUB_SHARES);
    HeldWeighs(w.books, d, w.leg.value.paymentId, HUB_SHARES);
    AddedOne(d.payments, w.leg.value.paymentId, HUB_SHARES);
  }

  lemma PickupPaysOneHubShare(net: Network, w: World, d: Books)
    requires w.bonus.Some? && w.stay.Some? && w.state == AwaitingPickup && BonusOk(net, w, w.bonus.value)
    requires PaymentsEvolve(w.books, d)
    ensures Added(d.payments, [w.bonus.value.paymentId], HUB_SHARES) == 1
  {
    hide PaymentsEvolve, Added;
    HeldWeighs(w.books, d, w.bonus.value.paymentId, HUB_SHARES);
    AddedOne(d.payments, w.bonus.value.paymentId, HUB_SHARES);
  }

  lemma ClaimPaysOneHubShare(w: World, d: Books)
    requires w.claim.Some? && ClaimOk(w, w.claim.value) && PaymentsEvolve(w.books, d)
    ensures var c := w.claim.value;
      if c.hubBonusId.Some? then Added(d.payments, [c.paymentId, c.hubBonusId.value], HUB_SHARES) == 1
      else Added(d.payments, [c.paymentId], HUB_SHARES) == 0
  {
    hide PaymentsEvolve, Added;
    var c := w.claim.value;
    HeldWeighs(w.books, d, c.paymentId, HUB_SHARES);
    if c.hubBonusId.Some? {
      HeldWeighs(w.books, d, c.hubBonusId.value, HUB_SHARES);
      AddedTwo(d.payments, c.paymentId, c.hubBonusId.value, HUB_SHARES);
    } else {
      AddedOne(d.payments, c.paymentId, HUB_SHARES);
    }
  }

  lemma DeliveringEvents(net: Network, w: World, cmd: Command, v: World)
    requires Execute(net, w, cmd) == Ok(v)
    ensures !Terminal(w.state)
    ensures v.state == Delivered <==> EventOf(cmd).RecipientPickup? || EventOf(cmd).RecipientClaimedPickup?
  {
    hide Run, DissolveAtStorageExpiry, SlashCarrierBond, RefundLegPayment, RefundArrivalBond, RefundFinalizationBonus,
      RefundStayBond, RefundCarrierBond, PayNow, RefundPendingLegHolds, RefundPendingClaimHolds, RefundHeldClaimHolds,
      ProjectRows, AdvancePool, Wanted, MintedBy;
  }

  lemma {:induction false} HubShareOverRuns(net: Network, w: World, cmds: seq<Command>)
    requires Inv(net, w) && HubShareOnce(w)
    ensures HubShareOnce(Play(net, w, cmds))
  {
    hide Inv, HubShareOnce, Execute, Issued;
    if cmds != [] {
      var init, cmd := cmds[..|cmds| - 1], cmds[|cmds| - 1];
      var v := Play(net, w, init);
      HubShareOverRuns(net, w, init);
      PlayKeeps(net, w, init);
      if Issued(v, cmd) {
        if cmd.Fire? { DueTimerFires(net, v, cmd); }
        if Execute(net, v, cmd).Ok? { HubShareStep(net, v, cmd, Execute(net, v, cmd).value); }
      }
    }
  }

  /** The hub's share is paid at most once, and only by a delivery. */
  lemma HubSharePaidOnce(net: Network, w: World)
    requires Reachable(net, w)
    ensures 0 <= HubSharesPaid(w) <= 1
    ensures w.state != Delivered ==> HubSharesPaid(w) == 0
  {
    hide Inv, Play, BornAs;
    var x: Birth, cmds: seq<Command> :| BornAs(net, x).Ok? && w == Play(net, BornAs(net, x).value, cmds);
    BirthKeeps(net, x);
    BornUnpaid(net, x);
    HubShareOverRuns(net, BornAs(net, x).value, cmds);
  }

  lemma BornUnpaid(net: Network, x: Birth)
    requires BornAs(net, x).Ok?
    ensures HubShareOnce(BornAs(net, x).value)
  {
    var ctx := Context(x.sender, x.senderWallet, x.originHub, net.owner(x.originHub), x.destHub, x.bond, x.offer,
                       SplitCommitment(x.offer).work, 0, None, None, None, None, None);
    var d := RunTail(Cursor(EMPTY, None), ctx, OnCreate(ctx).effects);
  }

  /** Whether a command pays out the carrier's share: with a final leg that froze
      it, or with a claim made before any arrival. */
  predicate PaysCarrierShare(w: World, e: Event) {
    || (e.LegCheckin? && w.leg.Some? && w.leg.value.pricing.bonus > 0)
    || (e.RecipientClaimedPickup? && !w.pool.carrierConsumed)
  }

  function CarrierSharesPaid(net: Network, w: World, cmds: seq<Command>): nat {
    if cmds == [] then 0
    else
      var init, cmd := cmds[..|cmds| - 1], cmds[|cmds| - 1];
      var v := Play(net, w, init);
      CarrierSharesPaid(net, w, init)
      + (if Issued(v, cmd) && Execute(net, v, cmd).Ok? && PaysCarrierShare(v, EventOf(cmd)) then 1 else 0)
  }

  lemma ShareConsumed(net: Network, w: World, cmd: Command, v: World)
    requires Inv(net, w) && Execute(net, w, cmd) == Ok(v)
    ensures w.pool.carrierConsumed ==> v.pool.carrierConsumed
    ensures PaysCarrierShare(w, EventOf(cmd)) ==> v.pool.carrierConsumed || Terminal(v.state)
  {
    RequestAfter(net, w, cmd, v);
    DeliveringEvents(net, w, cmd, v);
    if EventOf(cmd).LegCheckin? { AfterCheckin(net, w, cmd, v); }
    hide Execute, HoldIs, Audited, OnlyLivePending, RefsMinted, StayOk, RequestOk, BonusOk, ClaimOk, ExpectedTimers, SplitCommitment;
  }

  lemma ShareNotYetConsumed(net: Network, w: World, e: Event)
    requires Solvent(net, w) && PaysCarrierShare(w, e)
    ensures !w.pool.carrierConsumed
  {}

  lemma {:induction false} CarrierShareOverRuns(net: Network, w: World, cmds: seq<Command>)
    requires Proper(net) && Solvent(net, w) && Inv(net, w) && QuotedRun(net, w, cmds)
    ensures var n, v := CarrierSharesPaid(net, w, cmds), Play(net, w, cmds);
      n <= 1 && (n == 1 ==> v.pool.carrierConsumed || Terminal(v.state))
  {
    hide Inv, Solvent, Execute, Issued, Quoted, PaysCarrierShare;
    if cmds != [] {
      var init, cmd := cmds[..|cmds| - 1], cmds[|cmds| - 1];
      var v := Play(net, w, init);
      CarrierShareOverRuns(net, w, init);
      PlayKeeps(net, w, init);
      PlaySolvent(net, w, init);
      var j: nat :| QuotedSince(net, w, init, j, cmd);
      QuotedIssued(net, Play(net, w, init[..j]), v, cmd);
      if cmd.Fire? { DueTimerFires(net, v, cmd); }
      if Execute(net, v, cmd).Ok? {
        ShareConsumed(net, v, cmd, Execute(net, v, cmd).value);
        DeliveringEvents(net, v, cmd, Execute(net, v, cmd).value);
        if PaysCarrierShare(v, EventOf(cmd)) { ShareNotYetConsumed(net, v, EventOf(cmd)); }
      }
    }
  }

  /** The carrier's share is paid at most once over any priced run. */
  lemma CarrierSharePaidOnce(net: Network, x: Birth, cmds: seq<Command>)
    requires Proper(net) && QuotedBirth(net, x) && QuotedRun(net, BornAs(net, x).value, cmds)
    ensures CarrierSharesPaid(net, BornAs(net, x).value, cmds) <= 1
  {
    BirthSolvent(net, x);
    BirthKeeps(net, x);
    hide Inv, Solvent, Play, BornAs, QuotedRun, CarrierSharesPaid;
    CarrierShareOverRuns(net, BornAs(net, x).value, cmds);
  }

  // ----------------------------------------------------------- when pricing can be refused

  /** Over every priced run the parcel stays within its segment, and the pool
      formula is refused exactly when the segment holds a boost without work. */
  lemma PoolRefusedExactlyFor(net: Network, x: Birth, cmds: seq<Command>)
    requires Proper(net) && QuotedBirth(net, x) && QuotedRun(net, BornAs(net, x).value, cmds)
    requires UnderWay(Play(net, BornAs(net, x).value, cmds).state)
    ensures var w := Play(net, BornAs(net, x).value, cmds);
      && 0 < Remaining(net, w) <= w.pool.total
      && (PoolNow(net, w).Refused? <==> exists b <- w.pool.boosts :: b.work == 0)
  {
    RunIsSound(net, x, cmds);
    var w := Play(net, BornAs(net, x).value, cmds);
    hide Play, BornAs, QuotedRun, Inv, PoolAt;
    PoolRefusedOnlyForEmptyBoost(w.pool.work, w.pool.total, Remaining(net, w), w.pool.boosts);
  }

  /** That happens: a boost of a single msat is accepted, and from then on no
      leg, no claim and no change of destination can be priced. */
  lemma OneMsatBoostBlocksPricing(net: Network, w: World, toHub: HubId, newRemaining: Metres)
    requires Inv(net, w) && Solvent(net, w) && w.state == AtHub && w.request.None? && w.claim.None?
    requires 0 < newRemaining
    ensures var cmd := Handle(Boost(1, Remaining(net, w)), 0);
      && Quoted(net, w, w, cmd) && Execute(net, w, cmd).Ok?
      && var v := Execute(net, w, cmd).value;
         && PoolNow(net, v).Refused? && QuotedLeg(net, v, toHub).Refused? && QuotedClaim(net, v).Refused?
         && FrozenBy(net, v, newRemaining).Refused?
  {
    var cmd := Handle(Boost(1, Remaining(net, w)), 0);
    TinyBoostLands(net, w, cmd);
    hide Inv, Solvent, PoolAt, Execute;
    PricingBlocked(net, Execute(net, w, cmd).value, toHub, newRemaining);
  }

  /** Every shipment whose origin hub is not the sender's gets there in two commands,
      and a third one blocks it: the whole run, priced by the handlers. */
  lemma OneMsatBoostRun(net: Network, x: Birth, stayId: Id, deadline: Time, toHub: HubId, newRemaining: Metres)
    returns (cmds: seq<Command>)
    requires Proper(net) && QuotedBirth(net, x) && net.owner(x.originHub) != x.sender && 0 < newRemaining
    ensures QuotedRun(net, BornAs(net, x).value, cmds)
    ensures var v := Play(net, BornAs(net, x).value, cmds);
      && v.state == AtHub && PoolNow(net, v).Refused? && QuotedLeg(net, v, toHub).Refused? && QuotedClaim(net, v).Refused?
      && FrozenBy(net, v, newRemaining).Refused?
  {
    hide Inv, Solvent, PoolAt, Execute, BornAs, QuotedRun, Play, Quoted;
    var w0 := BornAs(net, x).value;
    var accept, checkin := Handle(OriginHubAccept(stayId, true), 0), Handle(OriginCheckin(1, deadline), 0);
    BornIdle(net, x);
    BirthKeeps(net, x);
    OriginAccepts(net, w0, accept);
    var w1 := Execute(net, w0, accept).value;
    NothingPlayed(net, w0);
    Plays(net, w0, [], accept, w1);
    StepKeeps(net, w0, accept);
    CheckinLands(net, w1, checkin);
    var w2 := Execute(net, w1, checkin).value;
    Plays(net, w0, [] + [accept], checkin, w2);
    RunIsSound(net, x, [] + [accept] + [checkin]);
    var boost := Handle(Boost(1, Remaining(net, w2)), 0);
    OneMsatBoostBlocksPricing(net, w2, toHub, newRemaining);
    TinyBoostLands(net, w2, boost);
    QuotedIssued(net, w2, w2, boost);
    Plays(net, w0, [] + [accept] + [checkin], boost, Execute(net, w2, boost).value);
    cmds := [] + [accept] + [checkin] + [boost];
  }

  lemma BornIdle(net: Network, x: Birth)
    requires BornAs(net, x).Ok?
    ensures var w := BornAs(net, x).value;
      w.state == Draft && w.minted == {} && w.originHub == x.originHub && w.sender == x.sender
  {
    hide Run;
  }

  lemma NothingPlayed(net: Network, w: World)
    ensures Play(net, w, []) == w && QuotedRun(net, w, [])
  {}

  lemma QuotedIssued(net: Network, o: World, w: World, cmd: Command)
    requires Quoted(net, o, w, cmd)
    ensures Issued(w, cmd)
  {}

  lemma Plays(net: Network, w: World, cmds: seq<Command>, cmd: Command, v: World)
    requires QuotedRun(net, w, cmds) && Quoted(net, Play(net, w, cmds), Play(net, w, cmds), cmd)
    requires Execute(net, Play(net, w, cmds), cmd) == Ok(v)
    ensures QuotedRun(net, w, cmds + [cmd]) && Play(net, w, cmds + [cmd]) == v
  {
    hide Execute;
    QuotedIssued(net, Play(net, w, cmds), Play(net, w, cmds), cmd);
    hide Quoted, Issued;
    assert (cmds + [cmd])[..|cmds|] == cmds && cmds[..|cmds|] == cmds;
    assert QuotedSince(net, w, cmds, |cmds|, cmd);
  }

  lemma OriginAccepts(net: Network, w: World, cmd: Command)
    requires Inv(net, w) && w.state == Draft && w.minted == {} && net.owner(w.originHub) != w.sender
    requires cmd.Handle? && cmd.frozenWork == 0 && EventOf(cmd).OriginHubAccept? && EventOf(cmd).hubWallet
    ensures Issued(w, cmd) && Quoted(net, w, w, cmd) && Execute(net, w, cmd).Ok?
    ensures var v := Execute(net, w, cmd).value;
      v.state == AwaitingDropoff && v.stay.Some? && v.request.None? && v.claim.None?
  {
    hide Run, Audited, StayOk, LegOk, RequestOk, BonusOk, ClaimOk, OnlyLivePending;
    var c, ctx, stayId := Cursor(w.books, None), ContextOf(net, w), EventOf(cmd).stayId;
    var d := OriginRuns(c, ctx, stayId);
    var tail := [Note(Funded, Some(ctx.originUser), None, Some(stayId))];
    RunConcat(c, ctx, [CreatePayment(CustodyBond, ctx.originUser, ctx.sender, ctx.bond, StayRef(stayId)),
                       HeldEntry(HubBondHeld, StayRef(stayId), ctx.originUser, ctx.bond)], tail);
    var f := RunTail(d, ctx, tail);
  }

  lemma CheckinLands(net: Network, w: World, cmd: Command)
    requires Inv(net, w) && w.state == AwaitingDropoff && w.stay.Some? && w.request.None? && w.claim.None?
    requires cmd.Handle? && cmd.frozenWork == 0 && EventOf(cmd).OriginCheckin? && EventOf(cmd).photos > 0
    ensures Issued(w, cmd) && Quoted(net, w, w, cmd) && Execute(net, w, cmd).Ok?
    ensures var v := Execute(net, w, cmd).value; v.state == AtHub && v.request.None? && v.claim.None?
  {
    Parts(net, w);
    hide Inv, Run, Audited;
    var ctx := ContextOf(net, w);
    var d := RunTail(Cursor(w.books, None), ctx, OnOriginCheckin(w.state, EventOf(cmd), ctx).effects);
  }

  lemma TinyBoostLands(net: Network, w: World, cmd: Command)
    requires Inv(net, w) && Solvent(net, w) && w.state == AtHub && w.request.None? && w.claim.None?
    requires cmd == Handle(Boost(1, Remaining(net, w)), 0)
    ensures Quoted(net, w, w, cmd) && Execute(net, w, cmd).Ok?
    ensures var v := Execute(net, w, cmd).value;
      v.state == AtHub && Remaining(net, v) <= v.pool.total && PoolNow(net, v).Refused?
  {
    hide Inv, PoolAt, Execute, PricesCovered, Outlaid, Committed, Slope, WorkReserve;
    BoostRuns(net, w, cmd);
    var v := Execute(net, w, cmd).value;
    AfterBoost(net, w, cmd, v);
    assert v.pool.boosts == w.pool.boosts + [PoolBoost(0, Remaining(net, w))];
    EmptyBoostRefuses(net, v);
  }

  lemma PricingBlocked(net: Network, v: World, toHub: HubId, newRemaining: Metres)
    requires v.state == AtHub && Remaining(net, v) <= v.pool.total && PoolNow(net, v).Refused? && 0 < newRemaining
    ensures QuotedLeg(net, v, toHub).Refused? && QuotedClaim(net, v).Refused? && FrozenBy(net, v, newRemaining).Refused?
  {}

  lemma BoostRuns(net: Network, w: World, cmd: Command)
    requires Inv(net, w) && Issued(w, cmd) && EventOf(cmd).Boost? && EventOf(cmd).amount > 0 && EventOf(cmd).atRemaining > 0
    requires w.state == AtHub && w.request.None? && w.claim.None?
    ensures Execute(net, w, cmd).Ok?
  {
    StepKeeps(net, w, cmd);
    hide Inv;
    var d := RunTail(Cursor(w.books, None), ContextOf(net, w), Transition(w.state, EventOf(cmd), ContextOf(net, w)).effects);
  }

  lemma EmptyBoostRefuses(net: Network, w: World)
    requires w.pool.boosts != [] && w.pool.boosts[|w.pool.boosts| - 1].work == 0
    ensures PoolNow(net, w).Refused?
  {}

  /** Only a reroute clears the segment: a change of recipient, or a change of
      destination once the parcel has arrived. */
  lemma BlockedUntilReroute(net: Network, w: World, cmd: Command, v: World)
    requires Proper(net) && Solvent(net, w) && Inv(net, w) && Quoted(net, w, w, cmd) && Execute(net, w, cmd) == Ok(v)
    requires exists b <- w.pool.boosts :: b.work == 0
    ensures (exists b <- v.pool.boosts :: b.work == 0)
         || (EventOf(cmd).Reroute? && (EventOf(cmd).newDest.None? || w.state == AwaitingPickup))
  {
    RequestAfter(net, w, cmd, v);
    hide Execute, Inv, PoolAt, SplitCommitment;
    var b :| b in w.pool.boosts && b.work == 0;
    if EventOf(cmd).Boost? {
      assert b in v.pool.boosts;
    } else if EventOf(cmd).Reroute? {
      AfterReroute(net, w, cmd, v);
      if w.state == AtHub && EventOf(cmd).newDest.Some? {
        FrozenIsReserved(net, w, EventOf(cmd).newRemaining);
        PoolRefusedOnlyForEmptyBoost(w.pool.work, w.pool.total, Remaining(net, w), w.pool.boosts);
      }
    } else {
      assert b in v.pool.boosts;
    }
  }

  /** Pricing resumes on the very same pool after a change of destination: from
      a hub on the way it is carried over to the msat, at the old destination it
      is the work of the boosts that arrived while the parcel waited. */
  lemma DestinationChangeKeepsPool(net: Network, w: World, cmd: Command, v: World)
    requires Proper(net) && Solvent(net, w) && Quoted(net, w, w, cmd) && Execute(net, w, cmd) == Ok(v)
    requires EventOf(cmd).Reroute? && EventOf(cmd).newDest.Some?
    ensures w.state == AtHub ==> PoolNow(net, v) == PoolNow(net, w)
    ensures w.state == AwaitingPickup ==> PoolNow(net, v) == Price(if w.pool.waiting.Some? then w.pool.waiting.value else 0)
  {
    AfterReroute(net, w, cmd, v);
    FrozenIsReserved(net, w, EventOf(cmd).newRemaining);
    var d := EventOf(cmd).newRemaining;
    assert d == Remaining(net, v) && 1 <= d;
    WholeShare(cmd.frozenWork, d);
    assert AddBoosts(ShareOf(cmd.frozenWork, d, d), [], d, d) == Price(cmd.frozenWork);
    hide Execute, FrozenBy, ShareOf;
  }
}
