/** The vocabulary of one shipment: states, events, the aggregate a transition
    reads, and the effects it answers with. Timestamps are epochs, distances
    metres; facts the API checks before calling the machine (wallets, QR codes,
    one-time codes, photos) arrive as fields of the event. */
module Shipment {
  import opened Economics

  type Id = nat
  type UserId = nat
  type HubId = nat
  type Time = int

  datatype Option<+T> = None | Some(value: T)

  datatype State =
    | Draft | AwaitingDropoff | AtHub | LegBooked | InTransit | AwaitingPickup | Claimed
    | Delivered | Cancelled | Forfeited | Lost

  predicate Terminal(s: State) {
    s == Delivered || s == Cancelled || s == Forfeited || s == Lost
  }

  datatype Purpose = LegPayment | CustodyBond | FinalizationBonus | ClaimPayment

  /** What a payment, a fee or a timer is attached to. */
  datatype Ref = LegRef(id: Id) | StayRef(id: Id) | ClaimRef(id: Id) | ShipmentRef

  datatype HubStay = HubStay(id: Id, hub: HubId, user: UserId, bondId: nat, storageDeadline: Time)

  datatype Leg = Leg(
    id: Id, carrier: UserId, fromHub: HubId, fromUser: UserId, toHub: HubId, toUser: UserId,
    arrivalStay: Id, pricing: LegPricing, paymentId: nat, carrierBondId: nat, arrivalBondId: nat,
    fundingDeadline: Time, pickupDeadline: Option<Time>, transitDeadline: Option<Time>)

  datatype LegRequest = LegRequest(
    id: Id, carrier: UserId, fromHub: HubId, fromUser: UserId, toHub: HubId, toUser: UserId,
    pricing: LegPricing, hubBonus: Msat, responseDeadline: Time)

  datatype Claim = Claim(
    id: Id, claimant: UserId, stay: Id, payment: Msat, hubBonus: Msat,
    paymentId: nat, hubBonusId: Option<nat>, fundingDeadline: Time)

  datatype BonusHold = BonusHold(paymentId: nat, amount: Msat)

  /** Everything the pure transition may look at. */
  datatype Context = Context(
    sender: UserId, senderWallet: bool, originHub: HubId, originUser: UserId, destHub: HubId,
    bond: Msat, offer: Msat, work: Msat, originFeeBp: int,
    stay: Option<HubStay>, leg: Option<Leg>, bonus: Option<BonusHold>,
    claim: Option<Claim>, request: Option<LegRequest>)

  datatype Stage = AtPickupCheckout | AtHubCheckin | AtRecipientPickup

  datatype Event =
    | Create
    | OriginHubAccept(stayId: Id, hubWallet: bool)
    | OriginCheckin(photos: nat, storageDeadline: Time)
    | RequestLeg(legId: Id, carrier: UserId, carrierWallet: bool, tripActive: bool, toHub: HubId,
                 arrivalWallet: bool, pricing: LegPricing, hubBonus: Msat, responseDeadline: Time)
    | DepositAccept(now: Time, arrivalStay: Id, arrivalWallet: bool, fundingDeadline: Time)
    | DepositReject(rejectedBy: UserId, reasonGiven: bool)
    | DepositRequestExpired(now: Time)
    | DepositRequestCancel
    | LegFunded(now: Time, pickupDeadline: Time)
    | LegFundingExpired(now: Time)
    | PickupCheckout(now: Time, hubConfirmed: bool, carrierConfirmed: bool, photos: nat, transitDeadline: Time)
    | PickupTimeout(now: Time)
    | LegCheckin(now: Time, hub: HubId, integrity: bool, photos: nat, storageDeadline: Time)
    | LegReturn(now: Time, hub: HubId, returnStay: Id, photos: nat, storageDeadline: Time)
    | RecipientPickup(otpVerified: bool)
    | RecipientClaim(claimId: Id, claimant: UserId, claimantWallet: bool, tokenVerified: bool,
                     payment: Msat, hubBonus: Msat, fundingDeadline: Time)
    | ClaimFunded(now: Time)
    | ClaimFundingExpired(now: Time)
    | RecipientClaimedPickup(tokenVerified: bool)
    | HandoffReject(stage: Stage, filedBy: Option<UserId>, reasonGiven: bool, photos: nat)
    | StorageExpiry(now: Time)
    | TransitTimeout(now: Time)
    | Boost(amount: Msat, atRemaining: Metres)
    | Reroute(newDest: Option<HubId>, newRecipient: bool, newRemaining: Metres)
    | Cancel

  datatype Account = Wallet(user: UserId) | Commitment

  datatype Posting = Posting(account: Account, amount: Msat)

  datatype LedgerEvent =
    | LegPaymentHeld | CarrierBondHeld | HubBondHeld | FinalizationBonusHeld | ClaimPaymentHeld
    | LegPaymentReleased | FinalizationBonusReleased | ClaimPaymentReleased | CarrierBondSlashed
    | LegPaymentRefunded | CarrierBondRefunded | HubBondRefunded | FinalizationBonusRefunded
    | ClaimPaymentRefunded
    | DepHubFeePaid | ArrHubFeePaid | CancellationCompensationPaid

  datatype FeeReason = DepHubFee | ArrHubFee | CancellationFee

  datatype Timeout = LegFundingWindow | PickupWindow | TransitWindow | Storage | ClaimFundingWindow | DepositResponse

  datatype CustodyType =
    | Created | Funded | HubCheckin | LegAccepted | HubCheckout | HubCheckinIntermediate | LegReturned
    | ArrivedDestination | RecipientPickedUp | ClaimRequested | RecipientClaimed | HandoffRejected
    | Rerouted | Boosted | Expired | CancelledEvent | DepositRequested

  /** The payload fields that are read back from the chain. */
  datatype Payload = Plain | BoostPayload(amount: Msat, at: Metres) | RequestPayload(hubBonus: Msat)

  datatype CustodyEvent = CustodyEvent(
    kind: CustodyType, actor: Option<UserId>, leg: Option<Id>, stay: Option<Id>, payload: Payload)

  datatype Recipient = ToSender | ToRecipient | ToCarrier

  datatype Effect =
    | CreatePayment(purpose: Purpose, payer: UserId, payee: UserId, amount: Msat, ref: Ref)
    | ReleasePayment(paymentId: nat)
    | RefundPayment(paymentId: nat)
    | InstantPayment(payer: UserId, payee: UserId, amount: Msat, reason: FeeReason, ref: Ref)
    | PostEntry(event: LedgerEvent, ref: Ref, postings: seq<Posting>)
    | AppendEvent(custody: CustodyEvent)
    | QueueEmail(to: Recipient)
    | Schedule(timeout: Timeout, refId: Id, at: Time)
    | Unschedule(timeout: Timeout, refId: Id)
    | RotatePickupOtp
    | RotateClaimToken

  datatype Outcome =
    | Accept(next: State, effects: seq<Effect>)
    | Illegal
    | GuardFailed
    | Threw(error: PricingError)
}
