/** The shipment lifecycle: one function per event, each answering with the
    next state and a list of declarative effects, or with a refusal. */
module StateMachine {
  import opened Economics
  import opened Shipment

  function HeldEntry(event: LedgerEvent, ref: Ref, payer: UserId, amount: Msat): Effect {
    PostEntry(event, ref, [Posting(Wallet(payer), -amount), Posting(Commitment, amount)])
  }

  function SettledEntry(event: LedgerEvent, ref: Ref, payee: UserId, amount: Msat): Effect {
    PostEntry(event, ref, [Posting(Commitment, -amount), Posting(Wallet(payee), amount)])
  }

  function RefundedEntry(event: LedgerEvent, ref: Ref, payer: UserId, amount: Msat): Effect {
    PostEntry(event, ref, [Posting(Commitment, -amount), Posting(Wallet(payer), amount)])
  }

  function InstantEntry(event: LedgerEvent, ref: Ref, payer: UserId, payee: UserId, amount: Msat): Effect {
    PostEntry(event, ref, [Posting(Wallet(payer), -amount), Posting(Wallet(payee), amount)])
  }

  /** An instant payment with its journal entry; nothing at all for a zero amount. */
  function PayNow(reason: FeeReason, event: LedgerEvent, ref: Ref, payer: UserId, payee: UserId,
                  amount: Msat): seq<Effect>
  {
    if amount == 0 then []
    else [InstantPayment(payer, payee, amount, reason, ref), InstantEntry(event, ref, payer, payee, amount)]
  }

  predicate PricingConsistent(p: LegPricing) {
    && p.gross > 0 && p.depFee >= 0 && p.arrFee >= 0 && p.net >= 0 && p.bonus >= 0
    && p.depFee + p.arrFee + p.net == p.gross
  }

  /** The leg-payment hold binds the gross and the carrier's bonus share. */
  function LegHoldAmount(leg: Leg): Msat {
    leg.pricing.gross + leg.pricing.bonus
  }

  function Note(kind: CustodyType, actor: Option<UserId>, leg: Option<Id>, stay: Option<Id>): Effect {
    AppendEvent(CustodyEvent(kind, actor, leg, stay, Plain))
  }

  /** Cancel the holds of a leg that never got booked; they were never
      commitments, so no entry is posted. */
  function RefundPendingLegHolds(leg: Leg, bonus: Option<BonusHold>): seq<Effect> {
    [RefundPayment(leg.paymentId), RefundPayment(leg.carrierBondId), RefundPayment(leg.arrivalBondId)]
    + (if bonus.Some? then [RefundPayment(bonus.value.paymentId)] else [])
  }

  function RefundFinalizationBonus(ctx: Context, bonus: Option<BonusHold>, stayId: Id): seq<Effect> {
    if bonus.None? then []
    else [RefundPayment(bonus.value.paymentId),
          RefundedEntry(FinalizationBonusRefunded, StayRef(stayId), ctx.sender, bonus.value.amount)]
  }

  function RefundPendingClaimHolds(claim: Claim): seq<Effect> {
    [RefundPayment(claim.paymentId)]
    + (if claim.hubBonusId.Some? then [RefundPayment(claim.hubBonusId.value)] else [])
  }

  function RefundHeldClaimHolds(ctx: Context, claim: Claim): seq<Effect> {
    [RefundPayment(claim.paymentId),
     RefundedEntry(ClaimPaymentRefunded, ClaimRef(claim.id), ctx.sender, claim.payment)]
    + (if claim.hubBonusId.Some? then
         [RefundPayment(claim.hubBonusId.value),
          RefundedEntry(FinalizationBonusRefunded, ClaimRef(claim.id), ctx.sender, claim.hubBonus)]
       else [])
  }

  /** The custodian hub's bond goes back to it. */
  function RefundStayBond(ctx: Context, stay: HubStay): seq<Effect> {
    [RefundPayment(stay.bondId), RefundedEntry(HubBondRefunded, StayRef(stay.id), stay.user, ctx.bond)]
  }

  function RefundCarrierBond(ctx: Context, leg: Leg): seq<Effect> {
    [RefundPayment(leg.carrierBondId),
     RefundedEntry(CarrierBondRefunded, LegRef(leg.id), leg.carrier, ctx.bond)]
  }

  function SlashCarrierBond(ctx: Context, leg: Leg): seq<Effect> {
    [ReleasePayment(leg.carrierBondId),
     SettledEntry(CarrierBondSlashed, LegRef(leg.id), ctx.sender, ctx.bond)]
  }

  function RefundLegPayment(ctx: Context, leg: Leg): seq<Effect> {
    [RefundPayment(leg.paymentId),
     RefundedEntry(LegPaymentRefunded, LegRef(leg.id), ctx.sender, LegHoldAmount(leg))]
  }

  function RefundArrivalBond(ctx: Context, leg: Leg): seq<Effect> {
    [RefundPayment(leg.arrivalBondId),
     RefundedEntry(HubBondRefunded, StayRef(leg.arrivalStay), leg.toUser, ctx.bond)]
  }

  function OnCreate(ctx: Context): Outcome {
    if !ctx.senderWallet then GuardFailed
    else if ctx.originHub == ctx.destHub then GuardFailed
    else if ctx.offer <= 0 || ctx.bond <= 0 then GuardFailed
    else if ctx.work != SplitCommitment(ctx.offer).work then GuardFailed
    else Accept(Draft, [Note(Created, Some(ctx.sender), None, None)])
  }

  function OnOriginHubAccept(s: State, e: Event, ctx: Context): Outcome
    requires e.OriginHubAccept?
  {
    if s != Draft then Illegal
    else if !e.hubWallet then GuardFailed
    else
      Accept(AwaitingDropoff,
        [CreatePayment(CustodyBond, ctx.originUser, ctx.sender, ctx.bond, StayRef(e.stayId)),
         HeldEntry(HubBondHeld, StayRef(e.stayId), ctx.originUser, ctx.bond)]
        + [Note(Funded, Some(ctx.originUser), None, Some(e.stayId))])
  }

  function OnOriginCheckin(s: State, e: Event, ctx: Context): Outcome
    requires e.OriginCheckin?
  {
    if s != AwaitingDropoff then Illegal
    else if ctx.stay.None? || e.photos == 0 then GuardFailed
    else
      var stay := ctx.stay.value;
      Accept(AtHub,
        [Schedule(Storage, stay.id, e.storageDeadline),
         Note(HubCheckin, Some(stay.user), None, Some(stay.id)),
         RotateClaimToken,
         QueueEmail(ToRecipient)])
  }

  function OnRequestLeg(s: State, e: Event, ctx: Context): Outcome
    requires e.RequestLeg?
  {
    if s != AtHub then Illegal
    else if ctx.stay.None? || ctx.leg.Some? || ctx.request.Some? || ctx.claim.Some? then GuardFailed
    else if !e.tripActive || !e.carrierWallet || !e.arrivalWallet then GuardFailed
    else if e.toHub == ctx.stay.value.hub then GuardFailed
    else if !PricingConsistent(e.pricing) || e.hubBonus < 0 then GuardFailed
    else if e.toHub != ctx.destHub && (e.pricing.bonus > 0 || e.hubBonus > 0) then GuardFailed
    else if ctx.bonus.Some? then GuardFailed
    else
      Accept(AtHub,
        [Schedule(DepositResponse, e.legId, e.responseDeadline),
         AppendEvent(CustodyEvent(DepositRequested, Some(e.carrier), Some(e.legId), None,
                                  RequestPayload(e.hubBonus)))])
  }

  function OnDepositAccept(s: State, e: Event, ctx: Context): Outcome
    requires e.DepositAccept?
  {
    if s != AtHub then Illegal
    else if ctx.stay.None? || ctx.request.None? || ctx.leg.Some? then GuardFailed
    else
      var req := ctx.request.value;
      if e.now > req.responseDeadline || !e.arrivalWallet then GuardFailed
      else if !PricingConsistent(req.pricing) || ctx.bonus.Some? then GuardFailed
      else
        Accept(AtHub,
          [CreatePayment(LegPayment, ctx.sender, req.carrier, req.pricing.gross + req.pricing.bonus, LegRef(req.id)),
           CreatePayment(CustodyBond, req.carrier, ctx.sender, ctx.bond, LegRef(req.id)),
           CreatePayment(CustodyBond, req.toUser, ctx.sender, ctx.bond, StayRef(e.arrivalStay))]
          + (if req.hubBonus > 0 then
               [CreatePayment(FinalizationBonus, ctx.sender, req.toUser, req.hubBonus, StayRef(e.arrivalStay))]
             else [])
          + [Unschedule(DepositResponse, req.id),
             Schedule(LegFundingWindow, req.id, e.fundingDeadline),
             Note(LegAccepted, Some(req.toUser), Some(req.id), None)])
  }

  function OnDepositReject(s: State, e: Event, ctx: Context): Outcome
    requires e.DepositReject?
  {
    if s != AtHub then Illegal
    else if ctx.request.None? || !e.reasonGiven then GuardFailed
    else
      Accept(AtHub,
        [Unschedule(DepositResponse, ctx.request.value.id),
         Note(HandoffRejected, Some(e.rejectedBy), Some(ctx.request.value.id), None),
         QueueEmail(ToCarrier)])
  }

  function OnDepositRequestExpired(s: State, e: Event, ctx: Context): Outcome
    requires e.DepositRequestExpired?
  {
    if s != AtHub then Illegal
    else if ctx.request.None? || e.now < ctx.request.value.responseDeadline then GuardFailed
    else Accept(AtHub, [Note(Expired, None, Some(ctx.request.value.id), None), QueueEmail(ToCarrier)])
  }

  function OnDepositRequestCancel(s: State, ctx: Context): Outcome {
    if s != AtHub then Illegal
    else if ctx.request.None? then GuardFailed
    else
      Accept(AtHub,
        [Unschedule(DepositResponse, ctx.request.value.id),
         Note(Expired, Some(ctx.request.value.carrier), Some(ctx.request.value.id), None)])
  }

  function OnLegFunded(s: State, e: Event, ctx: Context): Outcome
    requires e.LegFunded?
  {
    if s != AtHub then Illegal
    else if ctx.stay.None? || ctx.leg.None? then GuardFailed
    else
      var leg := ctx.leg.value;
      if e.now > leg.fundingDeadline then GuardFailed
      else
        Accept(LegBooked,
          [HeldEntry(LegPaymentHeld, LegRef(leg.id), ctx.sender, LegHoldAmount(leg)),
           HeldEntry(CarrierBondHeld, LegRef(leg.id), leg.carrier, ctx.bond),
           HeldEntry(HubBondHeld, StayRef(leg.arrivalStay), leg.toUser, ctx.bond)]
          + (if ctx.bonus.Some? then
               [HeldEntry(FinalizationBonusHeld, StayRef(leg.arrivalStay), ctx.sender, ctx.bonus.value.amount)]
             else [])
          + [Unschedule(LegFundingWindow, leg.id),
             Unschedule(Storage, ctx.stay.value.id),
             Schedule(PickupWindow, leg.id, e.pickupDeadline),
             Note(Funded, None, Some(leg.id), None)])
  }

  function OnLegFundingExpired(s: State, e: Event, ctx: Context): Outcome
    requires e.LegFundingExpired?
  {
    if s != AtHub then Illegal
    else if ctx.leg.None? || e.now < ctx.leg.value.fundingDeadline then GuardFailed
    else
      Accept(AtHub,
        RefundPendingLegHolds(ctx.leg.value, ctx.bonus)
        + [Note(Expired, None, Some(ctx.leg.value.id), None)])
  }

  function OnPickupCheckout(s: State, e: Event, ctx: Context): Outcome
    requires e.PickupCheckout?
  {
    if s != LegBooked then Illegal
    else if ctx.stay.None? || ctx.leg.None? || ctx.leg.value.pickupDeadline.None? then GuardFailed
    else if !e.hubConfirmed || !e.carrierConfirmed || e.photos == 0 then GuardFailed
    else
      var stay, leg := ctx.stay.value, ctx.leg.value;
      if e.now > leg.pickupDeadline.value then GuardFailed
      else
        Accept(InTransit,
          PayNow(DepHubFee, DepHubFeePaid, LegRef(leg.id), leg.carrier, stay.user, leg.pricing.depFee)
          + RefundStayBond(ctx, stay)
          + [Unschedule(PickupWindow, leg.id),
             Schedule(TransitWindow, leg.id, e.transitDeadline),
             Note(HubCheckout, Some(leg.carrier), Some(leg.id), Some(stay.id))])
  }

  function OnPickupTimeout(s: State, e: Event, ctx: Context): Outcome
    requires e.PickupTimeout?
  {
    if s != LegBooked then Illegal
    else if ctx.stay.None? || ctx.leg.None? || ctx.leg.value.pickupDeadline.None? then GuardFailed
    else
      var stay, leg := ctx.stay.value, ctx.leg.value;
      if e.now < leg.pickupDeadline.value then GuardFailed
      else
        Accept(AtHub,
          SlashCarrierBond(ctx, leg)
          + RefundLegPayment(ctx, leg)
          + RefundArrivalBond(ctx, leg)
          + RefundFinalizationBonus(ctx, ctx.bonus, leg.arrivalStay)
          + [Schedule(Storage, stay.id, stay.storageDeadline),
             Note(Expired, None, Some(leg.id), None)])
  }

  function OnLegCheckin(s: State, e: Event, ctx: Context): Outcome
    requires e.LegCheckin?
  {
    if s != InTransit then Illegal
    else if ctx.leg.None? || ctx.leg.value.transitDeadline.None? then GuardFailed
    else
      var leg := ctx.leg.value;
      if e.hub != leg.toHub || !e.integrity || e.photos == 0 then GuardFailed
      else if e.now > leg.transitDeadline.value then GuardFailed
      else
        var final := e.hub == ctx.destHub;
        Accept(if final then AwaitingPickup else AtHub,
          PayNow(ArrHubFee, ArrHubFeePaid, LegRef(leg.id), leg.carrier, leg.toUser, leg.pricing.arrFee)
          + [ReleasePayment(leg.paymentId),
             SettledEntry(LegPaymentReleased, LegRef(leg.id), leg.carrier, LegHoldAmount(leg))]
          + RefundCarrierBond(ctx, leg)
          + [Unschedule(TransitWindow, leg.id),
             Schedule(Storage, leg.arrivalStay, e.storageDeadline),
             Note(if final then ArrivedDestination else HubCheckinIntermediate,
                  Some(leg.toUser), Some(leg.id), Some(leg.arrivalStay))]
          + (if final then [QueueEmail(ToRecipient)] else [QueueEmail(ToSender), QueueEmail(ToRecipient)]))
  }

  function OnLegReturn(s: State, e: Event, ctx: Context): Outcome
    requires e.LegReturn?
  {
    if s != InTransit then Illegal
    else if ctx.leg.None? || ctx.leg.value.transitDeadline.None? then GuardFailed
    else
      var leg := ctx.leg.value;
      if e.hub != leg.fromHub || e.photos == 0 then GuardFailed
      else if e.now > leg.transitDeadline.value then GuardFailed
      else
        Accept(AtHub,
          RefundLegPayment(ctx, leg)
          + RefundCarrierBond(ctx, leg)
          + RefundArrivalBond(ctx, leg)
          + RefundFinalizationBonus(ctx, ctx.bonus, leg.arrivalStay)
          + [CreatePayment(CustodyBond, leg.fromUser, ctx.sender, ctx.bond, StayRef(e.returnStay)),
             HeldEntry(HubBondHeld, StayRef(e.returnStay), leg.fromUser, ctx.bond)]
          + [Unschedule(TransitWindow, leg.id),
             Schedule(Storage, e.returnStay, e.storageDeadline),
             Note(LegReturned, Some(leg.fromUser), Some(leg.id), Some(e.returnStay))])
  }

  function OnRecipientPickup(s: State, e: Event, ctx: Context): Outcome
    requires e.RecipientPickup?
  {
    if s != AwaitingPickup then Illegal
    else if ctx.stay.None? || !e.otpVerified then GuardFailed
    else
      var stay := ctx.stay.value;
      Accept(Delivered,
        (if ctx.bonus.Some? then
           [ReleasePayment(ctx.bonus.value.paymentId),
            SettledEntry(FinalizationBonusReleased, StayRef(stay.id), stay.user, ctx.bonus.value.amount)]
         else [])
        + RefundStayBond(ctx, stay)
        + [Unschedule(Storage, stay.id),
           Note(RecipientPickedUp, Some(stay.user), None, Some(stay.id)),
           QueueEmail(ToSender)])
  }

  function OnRecipientClaim(s: State, e: Event, ctx: Context): Outcome
    requires e.RecipientClaim?
  {
    if s != AtHub then Illegal
    else if ctx.stay.None? || ctx.leg.Some? || ctx.request.Some? || ctx.claim.Some? || ctx.bonus.Some? then GuardFailed
    else if !e.tokenVerified || !e.claimantWallet then GuardFailed
    else if e.claimant == ctx.sender || e.claimant == ctx.stay.value.user then GuardFailed
    else if e.payment <= 0 || e.hubBonus < 0 then GuardFailed
    else
      var stay := ctx.stay.value;
      Accept(AtHub,
        [CreatePayment(ClaimPayment, ctx.sender, e.claimant, e.payment, ClaimRef(e.claimId))]
        + (if e.hubBonus > 0 then
             [CreatePayment(FinalizationBonus, ctx.sender, stay.user, e.hubBonus, ClaimRef(e.claimId))]
           else [])
        + [Schedule(ClaimFundingWindow, e.claimId, e.fundingDeadline),
           Note(ClaimRequested, Some(e.claimant), None, Some(stay.id))])
  }

  function OnClaimFunded(s: State, e: Event, ctx: Context): Outcome
    requires e.ClaimFunded?
  {
    if s != AtHub then Illegal
    else if ctx.stay.None? || ctx.claim.None? then GuardFailed
    else
      var claim := ctx.claim.value;
      if e.now > claim.fundingDeadline then GuardFailed
      else
        Accept(Claimed,
          [HeldEntry(ClaimPaymentHeld, ClaimRef(claim.id), ctx.sender, claim.payment)]
          + (if claim.hubBonusId.Some? then
               [HeldEntry(FinalizationBonusHeld, ClaimRef(claim.id), ctx.sender, claim.hubBonus)]
             else [])
          + [Unschedule(ClaimFundingWindow, claim.id),
             Note(Funded, None, None, Some(ctx.stay.value.id))])
  }

  function OnClaimFundingExpired(s: State, e: Event, ctx: Context): Outcome
    requires e.ClaimFundingExpired?
  {
    if s != AtHub then Illegal
    else if ctx.claim.None? || e.now < ctx.claim.value.fundingDeadline then GuardFailed
    else
      Accept(AtHub,
        RefundPendingClaimHolds(ctx.claim.value)
        + [Note(Expired, None, None, if ctx.stay.Some? then Some(ctx.stay.value.id) else None)])
  }

  function OnRecipientClaimedPickup(s: State, e: Event, ctx: Context): Outcome
    requires e.RecipientClaimedPickup?
  {
    if s != Claimed then Illegal
    else if ctx.stay.None? || ctx.claim.None? then GuardFailed
    else
      var stay, claim := ctx.stay.value, ctx.claim.value;
      if claim.stay != stay.id || !e.tokenVerified then GuardFailed
      else
        Accept(Delivered,
          [ReleasePayment(claim.paymentId),
           SettledEntry(ClaimPaymentReleased, ClaimRef(claim.id), claim.claimant, claim.payment)]
          + (if claim.hubBonusId.Some? then
               [ReleasePayment(claim.hubBonusId.value),
                SettledEntry(FinalizationBonusReleased, ClaimRef(claim.id), stay.user, claim.hubBonus)]
             else [])
          + RefundStayBond(ctx, stay)
          + [Unschedule(Storage, stay.id),
             Note(RecipientClaimed, Some(stay.user), None, Some(stay.id)),
             QueueEmail(ToSender)])
  }

  predicate StageMatches(stage: Stage, s: State) {
    match stage
    case AtPickupCheckout => s == LegBooked
    case AtHubCheckin => s == InTransit
    case AtRecipientPickup => s == AwaitingPickup || s == Claimed
  }

  function OnHandoffReject(s: State, e: Event, ctx: Context): Outcome
    requires e.HandoffReject?
  {
    if s != LegBooked && s != InTransit && s != AwaitingPickup && s != Claimed then Illegal
    else if !StageMatches(e.stage, s) || e.photos == 0 || !e.reasonGiven then GuardFailed
    else
      Accept(s,
        [Note(HandoffRejected, e.filedBy,
              if ctx.leg.Some? then Some(ctx.leg.value.id) else None,
              if ctx.stay.Some? then Some(ctx.stay.value.id) else None),
         QueueEmail(ToSender)])
  }

  /** What dies together with the storage: the machine's else-if chain. */
  function DissolveAtStorageExpiry(s: State, ctx: Context, stay: HubStay): seq<Effect> {
    if s == AtHub && ctx.leg.Some? then
      RefundPendingLegHolds(ctx.leg.value, ctx.bonus) + [Unschedule(LegFundingWindow, ctx.leg.value.id)]
    else if s == AtHub && ctx.request.Some? then
      [Unschedule(DepositResponse, ctx.request.value.id)]
    else if s == AtHub && ctx.claim.Some? then
      RefundPendingClaimHolds(ctx.claim.value) + [Unschedule(ClaimFundingWindow, ctx.claim.value.id)]
    else if s == Claimed && ctx.claim.Some? then
      RefundHeldClaimHolds(ctx, ctx.claim.value)
    else if s == AwaitingPickup then
      RefundFinalizationBonus(ctx, ctx.bonus, stay.id)
    else []
  }

  function OnStorageExpiry(s: State, e: Event, ctx: Context): Outcome
    requires e.StorageExpiry?
  {
    if s != AtHub && s != AwaitingPickup && s != Claimed then Illegal
    else if ctx.stay.None? || (s == Claimed && ctx.claim.None?) then GuardFailed
    else
      var stay := ctx.stay.value;
      if e.now < stay.storageDeadline then GuardFailed
      else
        Accept(Forfeited,
          DissolveAtStorageExpiry(s, ctx, stay)
          + RefundStayBond(ctx, stay)
          + [Note(Expired, None, None, Some(stay.id))])
  }

  function OnTransitTimeout(s: State, e: Event, ctx: Context): Outcome
    requires e.TransitTimeout?
  {
    if s != InTransit then Illegal
    else if ctx.leg.None? || ctx.leg.value.transitDeadline.None? then GuardFailed
    else
      var leg := ctx.leg.value;
      if e.now < leg.transitDeadline.value then GuardFailed
      else
        Accept(Lost,
          SlashCarrierBond(ctx, leg)
          + RefundLegPayment(ctx, leg)
          + RefundArrivalBond(ctx, leg)
          + RefundFinalizationBonus(ctx, ctx.bonus, leg.arrivalStay)
          + [Note(Expired, None, Some(leg.id), None)])
  }

  function OnBoost(s: State, e: Event, ctx: Context): Outcome
    requires e.Boost?
  {
    if s != AtHub && s != AwaitingPickup then Illegal
    else if ctx.claim.Some? || ctx.request.Some? then GuardFailed
    else if e.amount <= 0 || e.atRemaining <= 0 then GuardFailed
    else
      Accept(s,
        [AppendEvent(CustodyEvent(Boosted, Some(ctx.sender), None,
                                  if ctx.stay.Some? then Some(ctx.stay.value.id) else None,
                                  BoostPayload(e.amount, e.atRemaining)))])
  }

  function OnReroute(s: State, e: Event, ctx: Context): Outcome
    requires e.Reroute?
  {
    if s != AtHub && s != AwaitingPickup then Illegal
    else if ctx.stay.None? || ctx.leg.Some? || ctx.claim.Some? || ctx.request.Some? then GuardFailed
    else if e.newDest.None? && !e.newRecipient then GuardFailed
    else if e.newDest == Some(ctx.stay.value.hub) || e.newRemaining <= 0 then GuardFailed
    else
      var stay := ctx.stay.value;
      var staysAtDestination := s == AwaitingPickup && e.newDest.None?;
      Accept(if staysAtDestination then AwaitingPickup else AtHub,
        (if s == AwaitingPickup && e.newDest.Some? then RefundFinalizationBonus(ctx, ctx.bonus, stay.id) else [])
        + [Note(Rerouted, Some(ctx.sender), None, Some(stay.id)), RotatePickupOtp]
        + (if e.newRecipient then [RotateClaimToken, QueueEmail(ToRecipient)] else [])
        + (if staysAtDestination then [QueueEmail(ToRecipient)] else []))
  }

  function OnCancel(s: State, ctx: Context): Outcome {
    if s == Draft then
      Accept(Cancelled, [Note(CancelledEvent, Some(ctx.sender), None, None)])
    else if s == AwaitingDropoff then
      if ctx.stay.None? then GuardFailed
      else
        Accept(Cancelled,
          RefundStayBond(ctx, ctx.stay.value)
          + [Note(CancelledEvent, Some(ctx.sender), None, Some(ctx.stay.value.id))])
    else if s == AtHub then
      if ctx.stay.None? || ctx.leg.Some? || ctx.claim.Some? || ctx.request.Some? then GuardFailed
      else
        var stay := ctx.stay.value;
        if stay.hub != ctx.originHub then GuardFailed
        else
          match CancellationCompensation(ctx.work, ctx.originFeeBp)
          case Refused(error) => Threw(error)
          case Price(compensation) =>
            Accept(Cancelled,
              PayNow(CancellationFee, CancellationCompensationPaid, ShipmentRef, ctx.sender, stay.user, compensation)
              + RefundStayBond(ctx, stay)
              + [Unschedule(Storage, stay.id),
                 Note(CancelledEvent, Some(ctx.sender), None, Some(stay.id))])
    else Illegal
  }

  /** The machine on an existing shipment; `OnCreate` is its answer before one exists. */
  function Transition(s: State, e: Event, ctx: Context): Outcome {
    if Terminal(s) then Illegal
    else
      match e
      case Create => Illegal
      case OriginHubAccept(_, _) => OnOriginHubAccept(s, e, ctx)
      case OriginCheckin(_, _) => OnOriginCheckin(s, e, ctx)
      case RequestLeg(_, _, _, _, _, _, _, _, _) => OnRequestLeg(s, e, ctx)
      case DepositAccept(_, _, _, _) => OnDepositAccept(s, e, ctx)
      case DepositReject(_, _) => OnDepositReject(s, e, ctx)
      case DepositRequestExpired(_) => OnDepositRequestExpired(s, e, ctx)
      case DepositRequestCancel => OnDepositRequestCancel(s, ctx)
      case LegFunded(_, _) => OnLegFunded(s, e, ctx)
      case LegFundingExpired(_) => OnLegFundingExpired(s, e, ctx)
      case PickupCheckout(_, _, _, _, _) => OnPickupCheckout(s, e, ctx)
      case PickupTimeout(_) => OnPickupTimeout(s, e, ctx)
      case LegCheckin(_, _, _, _, _) => OnLegCheckin(s, e, ctx)
      case LegReturn(_, _, _, _, _) => OnLegReturn(s, e, ctx)
      case RecipientPickup(_) => OnRecipientPickup(s, e, ctx)
      case RecipientClaim(_, _, _, _, _, _, _) => OnRecipientClaim(s, e, ctx)
      case ClaimFunded(_) => OnClaimFunded(s, e, ctx)
      case ClaimFundingExpired(_) => OnClaimFundingExpired(s, e, ctx)
      case RecipientClaimedPickup(_) => OnRecipientClaimedPickup(s, e, ctx)
      case HandoffReject(_, _, _, _) => OnHandoffReject(s, e, ctx)
      case StorageExpiry(_) => OnStorageExpiry(s, e, ctx)
      case TransitTimeout(_) => OnTransitTimeout(s, e, ctx)
      case Boost(_, _) => OnBoost(s, e, ctx)
      case Reroute(_, _, _) => OnReroute(s, e, ctx)
      case Cancel => OnCancel(s, ctx)
  }
}
