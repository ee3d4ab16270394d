/** Executing a transition: the effects in machine order against the books,
    the key of every ledger entry derived from its neighbourhood, and the
    deterministic projection of the event onto the aggregate. One call is one
    database transaction: it either yields the next world or changes nothing. */
module Executor {
  import opened Economics
  import opened Shipment
  import opened StateMachine
  import opened Books

  datatype Failure =
    | Rejected(outcome: Outcome)  // the machine refused the event
    | EscrowRefused               // the coordinator refuses a non-positive or self-paying hold
    | DuplicateRow                // a minted id is already taken
    | UnderivableKey | Unbalanced | UnknownPayment | DecidedTwice | IdemReused | NothingCreated

  datatype Result<+T> = Ok(value: T) | Err(failure: Failure)

  /** Where the effect loop stands. */
  datatype Cursor = Cursor(books: Books, prev: Option<Effect>)

  /** Suffix of the event's name: what it tells about a hold. */
  function LedgerKind(event: LedgerEvent): Option<Recognition> {
    match event
    case LegPaymentHeld | CarrierBondHeld | HubBondHeld | FinalizationBonusHeld | ClaimPaymentHeld => Some(Held)
    case LegPaymentReleased | FinalizationBonusReleased | ClaimPaymentReleased | CarrierBondSlashed => Some(Settled)
    case LegPaymentRefunded | CarrierBondRefunded | HubBondRefunded | FinalizationBonusRefunded
      | ClaimPaymentRefunded => Some(GivenBack)
    case DepHubFeePaid | ArrHubFeePaid | CancellationCompensationPaid => None
  }

  /** The idempotency key of an entry: of the payment effect just before it, or
      of the hold a booked leg or claim is waiting on. */
  function DeriveKey(c: Cursor, ctx: Context, event: LedgerEvent): Option<Key> {
    var kind := LedgerKind(event);
    if c.prev.Some? && c.prev.value.InstantPayment? then
      Some(FeeKey(c.prev.value.ref, c.prev.value.reason))
    else if c.prev.Some? && c.prev.value.CreatePayment? && kind == Some(Held) && c.books.payments != [] then
      Some(PaymentKey(|c.books.payments| - 1, Held))
    else if c.prev.Some? && c.prev.value.ReleasePayment? && kind == Some(Settled) then
      Some(PaymentKey(c.prev.value.paymentId, Settled))
    else if c.prev.Some? && c.prev.value.RefundPayment? && kind == Some(GivenBack) then
      Some(PaymentKey(c.prev.value.paymentId, GivenBack))
    else if kind == Some(Held) && ctx.leg.Some? && LegHeldKey(ctx, event).Some? then LegHeldKey(ctx, event)
    else if kind == Some(Held) && ctx.claim.Some? then ClaimHeldKey(ctx, event)
    else None
  }

  function LegHeldKey(ctx: Context, event: LedgerEvent): Option<Key>
    requires ctx.leg.Some?
  {
    match event
    case LegPaymentHeld => Some(PaymentKey(ctx.leg.value.paymentId, Held))
    case CarrierBondHeld => Some(PaymentKey(ctx.leg.value.carrierBondId, Held))
    case HubBondHeld => Some(PaymentKey(ctx.leg.value.arrivalBondId, Held))
    case FinalizationBonusHeld => if ctx.bonus.Some? then Some(PaymentKey(ctx.bonus.value.paymentId, Held)) else None
    case _ => None
  }

  function ClaimHeldKey(ctx: Context, event: LedgerEvent): Option<Key>
    requires ctx.claim.Some?
  {
    match event
    case ClaimPaymentHeld => Some(PaymentKey(ctx.claim.value.paymentId, Held))
    case FinalizationBonusHeld =>
      if ctx.claim.value.hubBonusId.Some? then Some(PaymentKey(ctx.claim.value.hubBonusId.value, Held)) else None
    case _ => None
  }

  function ApplyToBooks(c: Cursor, ctx: Context, e: Effect): Result<Books> {
    var b := c.books;
    match e
    case CreatePayment(purpose, payer, payee, amount, ref) =>
      if amount <= 0 || payer == payee then Err(EscrowRefused)
      else if (purpose, ref) in b.idem then Err(IdemReused)
      else Ok(Register(b, Payment(purpose, payer, payee, amount, ref, Pending)))
    case ReleasePayment(p) => Verb(b, p, Released)
    case RefundPayment(p) => Verb(b, p, Refunded)
    case InstantPayment(_, _, _, _, _) => Ok(b)
    case PostEntry(event, ref, postings) =>
      var key := DeriveKey(c, ctx, event);
      if key.None? then Err(UnderivableKey)
      else if |postings| < 2 || Total(postings) != 0 then Err(Unbalanced)
      else Ok(Post(b, Entry(key.value, event, ref, postings)))
    case AppendEvent(custody) => Ok(b.(chain := b.chain + [custody]))
    case Schedule(timeout, refId, at) => Ok(b.(timers := b.timers[TimerKey(timeout, refId) := at]))
    case Unschedule(timeout, refId) => Ok(b.(timers := b.timers - {TimerKey(timeout, refId)}))
    case QueueEmail(_) => Ok(b)
    case RotatePickupOtp => Ok(b)
    case RotateClaimToken => Ok(b)
  }

  function Verb(b: Books, p: nat, v: Verdict): Result<Books> {
    if p >= |b.payments| then Err(UnknownPayment)
    else if b.payments[p].verdict != Pending then Err(DecidedTwice)
    else Ok(Decide(b, p, v))
  }

  function Apply(c: Cursor, ctx: Context, e: Effect): Result<Cursor> {
    match ApplyToBooks(c, ctx, e)
    case Err(f) => Err(f)
    case Ok(b) => Ok(Cursor(b, Some(e)))
  }

  function Run(c: Cursor, ctx: Context, effects: seq<Effect>): Result<Cursor>
    decreases |effects|
  {
    if effects == [] then Ok(c)
    else
      match Apply(c, ctx, effects[0])
      case Err(f) => Err(f)
      case Ok(d) => Run(d, ctx, effects[1..])
  }

  // ----------------------------------------------------------- the world

  /** Facts about hubs the shipment's rows refer to. */
  datatype Network = Network(owner: HubId -> UserId, feeBp: HubId -> int, distance: (HubId, HubId) -> nat)

  /** The price segment, kept step by step: the work commitment and distance
      frozen at its start, the boosts since, the accrued bonus quotas, and the
      work of boosts made while the parcel waits at its destination. */
  datatype Pool = Pool(
    work: Msat, total: Metres, boosts: seq<PoolBoost>,
    carrierQuota: Msat, hubQuota: Msat, carrierConsumed: bool, waiting: Option<Msat>)

  datatype World = World(
    sender: UserId, originHub: HubId, destHub: HubId, bond: Msat, offer: Msat,
    state: State, pool: Pool,
    stay: Option<HubStay>, leg: Option<Leg>, request: Option<LegRequest>, claim: Option<Claim>,
    bonus: Option<BonusHold>, minted: set<Ref>, books: Books)

  /** A command reaches the executor from a route (a reroute brings the work it
      froze) or from the sweep that fires a due timer. */
  datatype Command = Handle(event: Event, frozenWork: Msat) | Fire(timer: TimerKey, now: Time)

  function TimerEvent(kind: Timeout, now: Time): Event {
    match kind
    case LegFundingWindow => LegFundingExpired(now)
    case PickupWindow => PickupTimeout(now)
    case TransitWindow => TransitTimeout(now)
    case Storage => StorageExpiry(now)
    case ClaimFundingWindow => ClaimFundingExpired(now)
    case DepositResponse => DepositRequestExpired(now)
  }

  predicate IsTimeout(e: Event) {
    e.LegFundingExpired? || e.PickupTimeout? || e.TransitTimeout? || e.StorageExpiry?
    || e.ClaimFundingExpired? || e.DepositRequestExpired?
  }

  /** Timeout events come only from due timers. */
  predicate Issued(w: World, cmd: Command) {
    match cmd
    case Handle(e, frozenWork) => !IsTimeout(e) && 0 <= frozenWork
    case Fire(timer, now) => timer in w.books.timers && w.books.timers[timer] <= now
  }

  function EventOf(cmd: Command): Event {
    match cmd
    case Handle(e, _) => e
    case Fire(timer, now) => TimerEvent(timer.kind, now)
  }

  function ContextOf(net: Network, w: World): Context {
    Context(w.sender, true, w.originHub, net.owner(w.originHub), w.destHub, w.bond, w.offer,
            w.pool.work, net.feeBp(w.originHub), w.stay, w.leg, w.bonus, w.claim, w.request)
  }

  /** The row id an event brings along, if it inserts a row. */
  function MintedBy(e: Event): set<Ref> {
    match e
    case OriginHubAccept(stayId, _) => {StayRef(stayId)}
    case RequestLeg(legId, _, _, _, _, _, _, _, _) => {LegRef(legId)}
    case DepositAccept(_, arrivalStay, _, _) => {StayRef(arrivalStay)}
    case LegReturn(_, _, returnStay, _, _) => {StayRef(returnStay)}
    case RecipientClaim(claimId, _, _, _, _, _, _) => {ClaimRef(claimId)}
    case _ => {}
  }

  /** What an event mints is new. */
  lemma NotMinted(born: set<Ref>, minted: set<Ref>, x: Ref)
    requires born * minted == {} && x in born
    ensures x !in minted
  {
    assert x in minted ==> x in born * minted;
  }

  /** The payments the projection expects to find created, by purpose and reference. */
  function Wanted(w: World, e: Event): set<(Purpose, Ref)> {
    match e
    case OriginHubAccept(stayId, _) => {(CustodyBond, StayRef(stayId))}
    case DepositAccept(_, arrivalStay, _, _) =>
      if w.request.None? then {}
      else
        {(LegPayment, LegRef(w.request.value.id)), (CustodyBond, LegRef(w.request.value.id)),
         (CustodyBond, StayRef(arrivalStay))}
        + (if w.request.value.hubBonus > 0 then {(FinalizationBonus, StayRef(arrivalStay))} else {})
    case LegReturn(_, _, returnStay, _, _) => {(CustodyBond, StayRef(returnStay))}
    case RecipientClaim(claimId, _, _, _, _, hubBonus, _) =>
      {(ClaimPayment, ClaimRef(claimId))}
      + (if hubBonus > 0 then {(FinalizationBonus, ClaimRef(claimId))} else {})
    case _ => {}
  }

  /** The event's mapping onto the aggregate's rows; `idem` locates the payments
      the transition created. */
  function ProjectRows(net: Network, w: World, e: Event, idem: map<(Purpose, Ref), nat>): World
    requires Wanted(w, e) <= idem.Keys
    requires Transition(w.state, e, ContextOf(net, w)).Accept?
  {
    match e
    case OriginHubAccept(stayId, _) =>
      w.(stay := Some(HubStay(stayId, w.originHub, net.owner(w.originHub), idem[(CustodyBond, StayRef(stayId))], 0)))
    case OriginCheckin(_, deadline) =>
      w.(stay := Some(w.stay.value.(storageDeadline := deadline)))
    case RequestLeg(legId, carrier, _, _, toHub, _, pricing, hubBonus, deadline) =>
      var from := w.stay.value.hub;
      w.(request := Some(LegRequest(legId, carrier, from, net.owner(from), toHub, net.owner(toHub),
                                    pricing, hubBonus, deadline)))
    case DepositAccept(_, arrivalStay, _, fundingDeadline) =>
      var r := w.request.value;
      w.(request := None,
         leg := Some(Leg(r.id, r.carrier, r.fromHub, r.fromUser, r.toHub, r.toUser, arrivalStay, r.pricing,
                         idem[(LegPayment, LegRef(r.id))], idem[(CustodyBond, LegRef(r.id))],
                         idem[(CustodyBond, StayRef(arrivalStay))], fundingDeadline, None, None)),
         bonus := if r.hubBonus > 0 then Some(BonusHold(idem[(FinalizationBonus, StayRef(arrivalStay))], r.hubBonus))
                  else None)
    case DepositReject(_, _) => w.(request := None)
    case DepositRequestExpired(_) => w.(request := None)
    case DepositRequestCancel => w.(request := None)
    case LegFunded(_, deadline) => w.(leg := Some(w.leg.value.(pickupDeadline := Some(deadline))))
    case LegFundingExpired(_) => w.(leg := None, bonus := None)
    case PickupCheckout(_, _, _, _, deadline) =>
      w.(stay := None, leg := Some(w.leg.value.(transitDeadline := Some(deadline))))
    case PickupTimeout(_) => w.(leg := None, bonus := None)
    case LegCheckin(_, _, _, _, deadline) =>
      var l := w.leg.value;
      w.(leg := None, stay := Some(HubStay(l.arrivalStay, l.toHub, l.toUser, l.arrivalBondId, deadline)))
    case LegReturn(_, _, returnStay, _, deadline) =>
      var l := w.leg.value;
      w.(leg := None, bonus := None,
         stay := Some(HubStay(returnStay, l.fromHub, l.fromUser, idem[(CustodyBond, StayRef(returnStay))], deadline)))
    case RecipientPickup(_) => w.(stay := None, bonus := None)
    case RecipientClaim(claimId, claimant, _, _, payment, hubBonus, deadline) =>
      w.(claim := Some(Claim(claimId, claimant, w.stay.value.id, payment, hubBonus,
                             idem[(ClaimPayment, ClaimRef(claimId))],
                             if hubBonus > 0 then Some(idem[(FinalizationBonus, ClaimRef(claimId))]) else None,
                             deadline)))
    case ClaimFunded(_) => w
    case ClaimFundingExpired(_) => w.(claim := None)
    case RecipientClaimedPickup(_) => w.(stay := None, claim := None)
    case StorageExpiry(_) => w.(stay := None, leg := None, request := None, claim := None, bonus := None)
    case TransitTimeout(_) => w.(leg := None, bonus := None)
    case Reroute(newDest, _, _) =>
      if newDest.None? then w
      else w.(destHub := newDest.value, bonus := if w.state == AwaitingPickup then None else w.bonus)
    case Cancel => w.(stay := None)
    case Create => w
    case HandoffReject(_, _, _, _) => w
    case Boost(_, _) => w
  }

  function AdvancePool(pool: Pool, cmd: Command, next: State): Pool
    requires EventOf(cmd).Boost? ==> EventOf(cmd).amount > 0
  {
    match EventOf(cmd)
    case Boost(amount, at) =>
      var split := SplitCommitment(amount);
      pool.(boosts := pool.boosts + [PoolBoost(split.work, at)],
            carrierQuota := pool.carrierQuota + split.carrierBonus,
            hubQuota := pool.hubQuota + split.hubBonus,
            waiting := if pool.waiting.Some? then Some(pool.waiting.value + split.work) else None)
    case Reroute(newDest, _, newRemaining) =>
      var cleared := pool.(boosts := [], waiting := None);
      if newDest.Some? && cmd.Handle? then cleared.(work := cmd.frozenWork, total := newRemaining) else cleared
    case LegCheckin(_, _, _, _, _) =>
      if next == AwaitingPickup then pool.(carrierConsumed := true, waiting := Some(0)) else pool
    case _ => pool
  }

  function Consume(b: Books, cmd: Command): Books {
    match cmd
    case Handle(_, _) => b
    case Fire(timer, _) => b.(timers := b.timers - {timer})
  }

  /** The world a transaction leaves behind. */
  function Commit(net: Network, w: World, cmd: Command, next: State, b: Books): World
    requires Wanted(w, EventOf(cmd)) <= b.idem.Keys
    requires Transition(w.state, EventOf(cmd), ContextOf(net, w)).Accept?
  {
    ProjectRows(net, w, EventOf(cmd), b.idem).(
      state := next,
      pool := AdvancePool(w.pool, cmd, next),
      minted := w.minted + MintedBy(EventOf(cmd)),
      books := Consume(b, cmd))
  }

  /** One executed command. */
  function Execute(net: Network, w: World, cmd: Command): Result<World> {
    var e, ctx := EventOf(cmd), ContextOf(net, w);
    var outcome := Transition(w.state, e, ctx);
    if !outcome.Accept? then Err(Rejected(outcome))
    else if MintedBy(e) * w.minted != {} then Err(DuplicateRow)
    else
      match Run(Cursor(w.books, None), ctx, outcome.effects)
      case Err(f) => Err(f)
      case Ok(c) =>
        if !(Wanted(w, e) <= c.books.idem.Keys) then Err(NothingCreated)
        else Ok(Commit(net, w, cmd, outcome.next, c.books))
  }

  /** `create`: the machine runs before any row exists. */
  function Genesis(net: Network, sender: UserId, senderWallet: bool, originHub: HubId, destHub: HubId,
                   bond: Msat, offer: Msat, distance: Metres): Result<World>
  {
    var work := if offer < 0 then 0 else SplitCommitment(offer).work;
    var ctx := Context(sender, senderWallet, originHub, net.owner(originHub), destHub, bond, offer, work,
                       0, None, None, None, None, None);
    var outcome := OnCreate(ctx);
    if !outcome.Accept? then Err(Rejected(outcome))
    else
      match Run(Cursor(EMPTY, None), ctx, outcome.effects)
      case Err(f) => Err(f)
      case Ok(c) =>
        var split := SplitCommitment(offer);
        Ok(World(sender, originHub, destHub, bond, offer, outcome.next,
                 Pool(work, distance, [], split.carrierBonus, split.hubBonus, false, None),
                 None, None, None, None, None, {}, c.books))
  }
}
