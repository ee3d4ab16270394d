/** What every executed command keeps true of a shipment. */
module Invariant {
  import opened Economics
  import opened Shipment
  import opened StateMachine
  import opened Books
  import opened Executor
  import opened EffectRuns

  /** Payment `p` is the undecided hold described, recognised by the ledger or not. */
  ghost predicate HoldIs(b: Books, p: nat, purpose: Purpose, payer: UserId, payee: UserId, amount: Msat, ref: Ref,
                         recognised: bool)
  {
    && Open(b, p, recognised)
    && b.payments[p] == Payment(purpose, payer, payee, amount, ref, Pending)
  }

  /** The only undecided holds are the ones the aggregate points at. */
  predicate Live(w: World, p: nat) {
    || (w.stay.Some? && p == w.stay.value.bondId)
    || (w.leg.Some? && (p == w.leg.value.paymentId || p == w.leg.value.carrierBondId || p == w.leg.value.arrivalBondId))
    || (w.bonus.Some? && p == w.bonus.value.paymentId)
    || (w.claim.Some? && (p == w.claim.value.paymentId || Some(p) == w.claim.value.hubBonusId))
  }

  /** Which parts of the aggregate exist in which state. */
  predicate Shape(w: World) {
    && (w.request.Some? ==> w.state == AtHub && w.leg.None? && w.claim.None?)
    && (w.claim.Some? ==> (w.state == AtHub || w.state == Claimed) && w.leg.None?)
    && match w.state
       case Draft => w.stay.None? && w.leg.None? && w.bonus.None? && w.originHub != w.destHub
       case AwaitingDropoff => w.stay.Some? && w.leg.None? && w.bonus.None? && w.originHub != w.destHub
       case AtHub => w.stay.Some? && (w.bonus.Some? ==> w.leg.Some?) && w.stay.value.hub != w.destHub
       case LegBooked => w.stay.Some? && w.leg.Some? && w.leg.value.pickupDeadline.Some? && w.stay.value.hub != w.destHub
       case InTransit => w.stay.None? && w.leg.Some? && w.leg.value.transitDeadline.Some?
       case AwaitingPickup => w.stay.Some? && w.leg.None? && w.stay.value.hub == w.destHub
       case Claimed => w.stay.Some? && w.leg.None? && w.claim.Some? && w.bonus.None?
       case _ => w.stay.None? && w.leg.None? && w.bonus.None?
  }

  ghost predicate StayOk(net: Network, w: World, s: HubStay) {
    && s.user == net.owner(s.hub)
    && StayRef(s.id) in w.minted
    && HoldIs(w.books, s.bondId, CustodyBond, s.user, w.sender, w.bond, StayRef(s.id), true)
    && (w.state == AwaitingDropoff ==> s.hub == w.originHub)
  }

  ghost predicate LegOk(net: Network, w: World, l: Leg) {
    && l.fromUser == net.owner(l.fromHub) && l.toUser == net.owner(l.toHub)
    && PricingConsistent(l.pricing)
    && LegRef(l.id) in w.minted && StayRef(l.arrivalStay) in w.minted
    && (w.stay.Some? ==> w.stay.value.id != l.arrivalStay && l.fromHub == w.stay.value.hub)
    && l.fromHub != w.destHub && l.fromHub != l.toHub
    && HoldIs(w.books, l.paymentId, LegPayment, w.sender, l.carrier, LegHoldAmount(l), LegRef(l.id), w.state != AtHub)
    && HoldIs(w.books, l.carrierBondId, CustodyBond, l.carrier, w.sender, w.bond, LegRef(l.id), w.state != AtHub)
    && HoldIs(w.books, l.arrivalBondId, CustodyBond, l.toUser, w.sender, w.bond, StayRef(l.arrivalStay), w.state != AtHub)
    && FeeKey(LegRef(l.id), ArrHubFee) !in w.books.keys
    && (w.state != InTransit ==> FeeKey(LegRef(l.id), DepHubFee) !in w.books.keys)
    && (l.pricing.bonus > 0 ==> l.toHub == w.destHub)
  }

  ghost predicate RequestOk(net: Network, w: World, r: LegRequest) {
    && r.fromUser == net.owner(r.fromHub) && r.toUser == net.owner(r.toHub)
    && w.stay.Some? && r.fromHub == w.stay.value.hub && r.fromHub != r.toHub
    && PricingConsistent(r.pricing) && 0 <= r.hubBonus
    && LegRef(r.id) in w.minted
    && (LegPayment, LegRef(r.id)) !in w.books.idem && (CustodyBond, LegRef(r.id)) !in w.books.idem
    && FeeKey(LegRef(r.id), ArrHubFee) !in w.books.keys && FeeKey(LegRef(r.id), DepHubFee) !in w.books.keys
    && (r.hubBonus > 0 || r.pricing.bonus > 0 ==> r.toHub == w.destHub)
  }

  ghost predicate BonusOk(net: Network, w: World, h: BonusHold) {
    && 0 < h.amount
    && (w.leg.Some? ==>
          w.leg.value.toHub == w.destHub
          && HoldIs(w.books, h.paymentId, FinalizationBonus, w.sender, w.leg.value.toUser, h.amount,
                    StayRef(w.leg.value.arrivalStay), w.state != AtHub))
    && (w.state == AwaitingPickup && w.stay.Some? ==>
          HoldIs(w.books, h.paymentId, FinalizationBonus, w.sender, w.stay.value.user, h.amount,
                 StayRef(w.stay.value.id), true))
  }

  ghost predicate ClaimOk(w: World, c: Claim) {
    && ClaimRef(c.id) in w.minted
    && w.stay.Some? && c.stay == w.stay.value.id
    && 0 < c.payment && 0 <= c.hubBonus
    && HoldIs(w.books, c.paymentId, ClaimPayment, w.sender, c.claimant, c.payment, ClaimRef(c.id), w.state == Claimed)
    && (c.hubBonusId.Some? <==> c.hubBonus > 0)
    && (c.hubBonusId.Some? ==>
          HoldIs(w.books, c.hubBonusId.value, FinalizationBonus, w.sender, w.stay.value.user, c.hubBonus, ClaimRef(c.id),
                 w.state == Claimed))
  }

  /** Every reference used by a key belongs to a minted row, or to the shipment
      itself, which pays its one fee when it ends. */
  ghost predicate RefsMinted(w: World) {
    && (forall k <- w.books.idem.Keys :: k.1 in w.minted)
    && (forall k <- w.books.keys :: k.FeeKey? ==> k.ref in w.minted || k.ref == ShipmentRef)
    && ShipmentRef !in w.minted
    && (!Terminal(w.state) ==> FeeKey(ShipmentRef, CancellationFee) !in w.books.keys)
  }

  /** The timers that must be armed, as a function of state and aggregate. */
  function ExpectedTimers(w: World): map<TimerKey, Time> {
    match w.state
    case AtHub =>
      (if w.stay.Some? then map[TimerKey(Storage, w.stay.value.id) := w.stay.value.storageDeadline] else map[])
      + (if w.leg.Some? then map[TimerKey(LegFundingWindow, w.leg.value.id) := w.leg.value.fundingDeadline]
         else if w.request.Some? then map[TimerKey(DepositResponse, w.request.value.id) := w.request.value.responseDeadline]
         else if w.claim.Some? then map[TimerKey(ClaimFundingWindow, w.claim.value.id) := w.claim.value.fundingDeadline]
         else map[])
    case LegBooked =>
      if w.leg.Some? && w.leg.value.pickupDeadline.Some? then
        map[TimerKey(PickupWindow, w.leg.value.id) := w.leg.value.pickupDeadline.value]
      else map[]
    case InTransit =>
      if w.leg.Some? && w.leg.value.transitDeadline.Some? then
        map[TimerKey(TransitWindow, w.leg.value.id) := w.leg.value.transitDeadline.value]
      else map[]
    case AwaitingPickup | Claimed =>
      if w.stay.Some? then map[TimerKey(Storage, w.stay.value.id) := w.stay.value.storageDeadline] else map[]
    case _ => map[]
  }

  ghost predicate Inv(net: Network, w: World) {
    && Audited(w.books)
    && 0 < w.bond
    && Shape(w)
    && (w.stay.Some? ==> StayOk(net, w, w.stay.value))
    && (w.leg.Some? ==> LegOk(net, w, w.leg.value))
    && (w.request.Some? ==> RequestOk(net, w, w.request.value))
    && (w.bonus.Some? ==> BonusOk(net, w, w.bonus.value))
    && (w.claim.Some? ==> ClaimOk(w, w.claim.value))
    && OnlyLivePending(w)
    && RefsMinted(w)
    && w.books.timers == ExpectedTimers(w)
  }

  ghost predicate OnlyLivePending(w: World) {
    forall p: nat :: p < |w.books.payments| && w.books.payments[p].verdict == Pending ==> Live(w, p)
  }

  lemma Parts(net: Network, w: World)
    requires Inv(net, w)
    ensures Audited(w.books) && Shape(w) && w.books.timers == ExpectedTimers(w)
    ensures 0 < w.bond && RefsMinted(w)
  {}

  /** What a transition did to the holds: which of the existing ones it
      released or refunded, which it recognised as held, which payments it
      created, and which fees it paid. */
  datatype Moves = Moves(released: set<nat>, refunded: set<nat>, recognised: set<nat>, created: seq<Payment>, fees: set<Key>)

  ghost predicate Moved(b: Books, d: Books, m: Moves) {
    && |d.payments| == |b.payments| + |m.created|
    && (forall p: nat :: p < |b.payments| ==>
          d.payments[p] == b.payments[p].(verdict := if p in m.released then Released
                                                     else if p in m.refunded then Refunded
                                                     else b.payments[p].verdict))
    && (forall p: nat :: |b.payments| <= p < |d.payments| ==> d.payments[p] == m.created[p - |b.payments|])
    && (forall p: nat :: Recognised(d, p, Held) <==> Recognised(b, p, Held) || p in m.recognised)
    && (forall k: Key :: k.FeeKey? ==> (k in d.keys <==> k in b.keys || k in m.fees))
  }

  /** A failure that the code can run into on a coherent shipment: everything
      else would be an internal contradiction. */
  predicate Ordinary(f: Failure) {
    f.Rejected? || f == EscrowRefused || f == DuplicateRow
  }

  ghost predicate Kept(net: Network, r: Result<World>) {
    match r
    case Ok(w) => Inv(net, w)
    case Err(f) => Ordinary(f)
  }

  lemma RejectedIsKept(net: Network, w: World, cmd: Command)
    requires !Transition(w.state, EventOf(cmd), ContextOf(net, w)).Accept?
    ensures Kept(net, Execute(net, w, cmd))
  {
    hide Transition;
  }
}
