/** The instant payments of a shipment: which event pays which fee, to whom, and
    that the journal books each of them exactly once. */
module Fees {
  import opened Economics
  import opened Shipment
  import opened StateMachine
  import opened Books
  import opened Executor
  import opened Invariant
  import opened Runs
  import opened LegSteps

  function Instants(es: seq<Effect>): seq<Effect> {
    if es == [] then []
    else (if es[0].InstantPayment? then [es[0]] else []) + Instants(es[1..])
  }

  function Fee(payer: UserId, payee: UserId, amount: Msat, reason: FeeReason, ref: Ref): seq<Effect> {
    if amount == 0 then [] else [InstantPayment(payer, payee, amount, reason, ref)]
  }

  /** The carrier pays the hub it leaves and the hub it reaches; the sender pays
      the hub whose custody it cancels; nobody else pays anything on the spot. */
  function FeesBy(s: State, e: Event, ctx: Context): seq<Effect> {
    match e
    case PickupCheckout(_, _, _, _, _) =>
      if ctx.leg.None? || ctx.stay.None? then []
      else Fee(ctx.leg.value.carrier, ctx.stay.value.user, ctx.leg.value.pricing.depFee, DepHubFee, LegRef(ctx.leg.value.id))
    case LegCheckin(_, _, _, _, _) =>
      if ctx.leg.None? then []
      else Fee(ctx.leg.value.carrier, ctx.leg.value.toUser, ctx.leg.value.pricing.arrFee, ArrHubFee, LegRef(ctx.leg.value.id))
    case Cancel =>
      if s != AtHub || ctx.stay.None? then []
      else
        var compensation := CancellationCompensation(ctx.work, ctx.originFeeBp);
        if compensation.Refused? then []
        else Fee(ctx.sender, ctx.stay.value.user, compensation.value, CancellationFee, ShipmentRef)
    case _ => []
  }

  function EventFor(reason: FeeReason): LedgerEvent {
    match reason
    case DepHubFee => DepHubFeePaid
    case ArrHubFee => ArrHubFeePaid
    case CancellationFee => CancellationCompensationPaid
  }

  /** The journal entry that belongs right behind a fee. */
  predicate EntryFor(fee: Effect, entry: Effect) {
    && fee.InstantPayment? && entry.PostEntry? && entry.ref == fee.ref
    && entry.event == EventFor(fee.reason)
    && entry.postings == [Posting(Wallet(fee.payer), -fee.amount), Posting(Wallet(fee.payee), fee.amount)]
  }

  predicate FeesExpected(s: State, e: Event, ctx: Context)
    requires Transition(s, e, ctx).Accept?
  {
    var es := Transition(s, e, ctx).effects;
    && Instants(es) == FeesBy(s, e, ctx)
    && forall i :: 0 <= i < |es| && es[i].InstantPayment? ==> i + 1 < |es| && EntryFor(es[i], es[i + 1])
  }

  lemma {:induction false} NoInstants(es: seq<Effect>)
    requires forall e <- es :: !e.InstantPayment?
    ensures Instants(es) == []
    decreases |es|
  {
    if es != [] {
      assert es[0] in es;
      NoInstants(es[1..]);
    }
  }

  /** Effects that start with a possible fee and go on without one. */
  lemma FeeFirst(reason: FeeReason, event: LedgerEvent, ref: Ref, payer: UserId, payee: UserId, amount: Msat, rest: seq<Effect>)
    requires forall e <- rest :: !e.InstantPayment?
    requires event == EventFor(reason)
    ensures var es := PayNow(reason, event, ref, payer, payee, amount) + rest;
      && Instants(es) == Fee(payer, payee, amount, reason, ref)
      && forall i :: 0 <= i < |es| && es[i].InstantPayment? ==> i + 1 < |es| && EntryFor(es[i], es[i + 1])
  {
    var es := PayNow(reason, event, ref, payer, payee, amount) + rest;
    if amount == 0 {
      NoInstants(es);
    } else {
      NoInstants(es[1..]);
    }
  }

  lemma NoFeesEarly(s: State, e: Event, ctx: Context)
    requires e.OriginHubAccept? || e.OriginCheckin? || e.RequestLeg? || e.DepositAccept? || e.DepositReject?
          || e.DepositRequestExpired? || e.DepositRequestCancel?
    requires Transition(s, e, ctx).Accept?
    ensures forall x <- Transition(s, e, ctx).effects :: !x.InstantPayment?
  {}

  lemma NoFeesInFunding(s: State, e: Event, ctx: Context)
    requires (e.LegFunded? || e.LegFundingExpired?) && Transition(s, e, ctx).Accept?
    ensures forall x <- Transition(s, e, ctx).effects :: !x.InstantPayment?
  {}

  lemma NoFeesInTimeouts(s: State, e: Event, ctx: Context)
    requires (e.PickupTimeout? || e.TransitTimeout?) && Transition(s, e, ctx).Accept?
    ensures forall x <- Transition(s, e, ctx).effects :: !x.InstantPayment?
  {}

  lemma NoFeesInReturn(s: State, e: Event, ctx: Context)
    requires e.LegReturn? && Transition(s, e, ctx).Accept?
    ensures forall x <- Transition(s, e, ctx).effects :: !x.InstantPayment?
  {}

  lemma NoFeesInClaims(s: State, e: Event, ctx: Context)
    requires e.RecipientPickup? || e.RecipientClaim? || e.ClaimFunded? || e.ClaimFundingExpired? || e.RecipientClaimedPickup?
    requires Transition(s, e, ctx).Accept?
    ensures forall x <- Transition(s, e, ctx).effects :: !x.InstantPayment?
  {}

  lemma NoFeesAtExpiry(s: State, e: Event, ctx: Context)
    requires e.StorageExpiry? && Transition(s, e, ctx).Accept?
    ensures forall x <- Transition(s, e, ctx).effects :: !x.InstantPayment?
  {}

  lemma NoFeesLate(s: State, e: Event, ctx: Context)
    requires e.HandoffReject? || e.Boost? || e.Reroute?
    requires Transition(s, e, ctx).Accept?
    ensures forall x <- Transition(s, e, ctx).effects :: !x.InstantPayment?
  {}

  lemma FeesAtHandovers(s: State, e: Event, ctx: Context)
    requires (e.PickupCheckout? || e.LegCheckin?) && Transition(s, e, ctx).Accept?
    ensures FeesExpected(s, e, ctx)
  {
    var leg := ctx.leg.value;
    var es := Transition(s, e, ctx).effects;
    if e.PickupCheckout? {
      var stay := ctx.stay.value;
      var rest := RefundStayBond(ctx, stay) + [Unschedule(PickupWindow, leg.id), Schedule(TransitWindow, leg.id, e.transitDeadline),
                                              Note(HubCheckout, Some(leg.carrier), Some(leg.id), Some(stay.id))];
      assert es == PayNow(DepHubFee, DepHubFeePaid, LegRef(leg.id), leg.carrier, stay.user, leg.pricing.depFee) + rest;
      FeeFirst(DepHubFee, DepHubFeePaid, LegRef(leg.id), leg.carrier, stay.user, leg.pricing.depFee, rest);
    } else {
      CheckinIs(s, e, ctx);
      var rest := [ReleasePayment(leg.paymentId), SettledEntry(LegPaymentReleased, LegRef(leg.id), leg.carrier, LegHoldAmount(leg))]
                  + RefundCarrierBond(ctx, leg) + CheckinTail(leg, e.hub == ctx.destHub, e.storageDeadline);
      assert es == PayNow(ArrHubFee, ArrHubFeePaid, LegRef(leg.id), leg.carrier, leg.toUser, leg.pricing.arrFee) + rest;
      FeeFirst(ArrHubFee, ArrHubFeePaid, LegRef(leg.id), leg.carrier, leg.toUser, leg.pricing.arrFee, rest);
    }
  }

  lemma FeesAtCancel(s: State, e: Event, ctx: Context)
    requires e.Cancel? && Transition(s, e, ctx).Accept?
    ensures FeesExpected(s, e, ctx)
  {
    var es := Transition(s, e, ctx).effects;
    if s == AtHub {
      var stay, compensation := ctx.stay.value, CancellationCompensation(ctx.work, ctx.originFeeBp).value;
      var rest := RefundStayBond(ctx, stay) + [Unschedule(Storage, stay.id), Note(CancelledEvent, Some(ctx.sender), None, Some(stay.id))];
      assert es == PayNow(CancellationFee, CancellationCompensationPaid, ShipmentRef, ctx.sender, stay.user, compensation) + rest;
      FeeFirst(CancellationFee, CancellationCompensationPaid, ShipmentRef, ctx.sender, stay.user, compensation, rest);
    } else {
      NoInstants(es);
    }
  }

  predicate PaysFees(e: Event) {
    e.PickupCheckout? || e.LegCheckin? || e.Cancel?
  }

  lemma OthersPayNothing(s: State, e: Event, ctx: Context)
    requires !PaysFees(e) && Transition(s, e, ctx).Accept?
    requires forall x <- Transition(s, e, ctx).effects :: !x.InstantPayment?
    ensures FeesExpected(s, e, ctx)
  {
    hide Transition;
    NoInstants(Transition(s, e, ctx).effects);
  }

  lemma NothingToPay(s: State, e: Event, ctx: Context)
    requires !PaysFees(e) && Transition(s, e, ctx).Accept?
    ensures forall x <- Transition(s, e, ctx).effects :: !x.InstantPayment?
  {
    if !e.Create? {
      hide Transition;
      if e.OriginHubAccept? || e.OriginCheckin? || e.RequestLeg? || e.DepositAccept? || e.DepositReject?
         || e.DepositRequestExpired? || e.DepositRequestCancel? { NoFeesEarly(s, e, ctx); }
      else if e.LegFunded? || e.LegFundingExpired? { NoFeesInFunding(s, e, ctx); }
      else if e.PickupTimeout? || e.TransitTimeout? { NoFeesInTimeouts(s, e, ctx); }
      else if e.LegReturn? { NoFeesInReturn(s, e, ctx); }
      else if e.RecipientPickup? || e.RecipientClaim? || e.ClaimFunded? || e.ClaimFundingExpired?
              || e.RecipientClaimedPickup? { NoFeesInClaims(s, e, ctx); }
      else if e.StorageExpiry? { NoFeesAtExpiry(s, e, ctx); }
      else { NoFeesLate(s, e, ctx); }
    }
  }

  /** Every accepted event pays exactly the fees it should, each with its entry. */
  lemma FeesAre(s: State, e: Event, ctx: Context)
    requires Transition(s, e, ctx).Accept?
    ensures FeesExpected(s, e, ctx)
  {
    hide Transition, FeesExpected, FeesBy;
    if e.PickupCheckout? || e.LegCheckin? {
      FeesAtHandovers(s, e, ctx);
    } else if e.Cancel? {
      FeesAtCancel(s, e, ctx);
    } else {
      NothingToPay(s, e, ctx);
      OthersPayNothing(s, e, ctx);
    }
  }

  // ----------------------------------------------------------- booked once

  lemma {:induction false} KeysOnlyGrow(c: Cursor, ctx: Context, es: seq<Effect>)
    requires Run(c, ctx, es).Ok?
    ensures var d := Run(c, ctx, es).value.books; c.books.keys <= d.keys && c.books.collisions <= d.collisions
    decreases |es|
  {
    if es != [] { KeysOnlyGrow(Apply(c, ctx, es[0]).value, ctx, es[1..]); }
  }

  /** A fee booked without a collision was not booked before. */
  lemma {:induction false} FeeBooked(c: Cursor, ctx: Context, es: seq<Effect>, i: nat)
    requires Run(c, ctx, es).Ok? && Run(c, ctx, es).value.books.collisions == c.books.collisions
    requires i + 1 < |es| && es[i].InstantPayment? && es[i + 1].PostEntry?
    ensures FeeKey(es[i].ref, es[i].reason) !in c.books.keys
    ensures FeeKey(es[i].ref, es[i].reason) in Run(c, ctx, es).value.books.keys
    decreases |es|
  {
    var mid := Apply(c, ctx, es[0]).value;
    KeysOnlyGrow(mid, ctx, es[1..]);
    if i > 0 {
      FeeBooked(mid, ctx, es[1..], i - 1);
    } else {
      var after := Apply(mid, ctx, es[1]).value;
      KeysOnlyGrow(after, ctx, es[1..][1..]);
    }
  }

  lemma {:induction false} InstantAt(es: seq<Effect>, fee: Effect) returns (i: nat)
    requires fee in Instants(es)
    ensures i < |es| && es[i] == fee && fee.InstantPayment?
    decreases |es|
  {
    if es[0].InstantPayment? && es[0] == fee {
      i := 0;
    } else {
      i := InstantAt(es[1..], fee);
      i := i + 1;
    }
  }

  /** On every reachable state each fee of a command is new to the journal, and is
      in it afterwards: over a run every fee is booked exactly once. */
  lemma FeeBookedOnce(net: Network, w: World, cmd: Command, v: World, fee: Effect)
    requires Reachable(net, w) && Issued(w, cmd) && Execute(net, w, cmd) == Ok(v)
    requires fee in FeesBy(w.state, EventOf(cmd), ContextOf(net, w))
    ensures fee.InstantPayment?
    ensures FeeKey(fee.ref, fee.reason) !in w.books.keys && FeeKey(fee.ref, fee.reason) in v.books.keys
  {
    var e, ctx := EventOf(cmd), ContextOf(net, w);
    var es := Transition(w.state, e, ctx).effects;
    ReachableKeeps(net, w);
    StepKeeps(net, w, cmd);
    NoCollisions(net, w);
    NoCollisions(net, v);
    FeesAre(w.state, e, ctx);
    hide Transition, Inv, Reachable, Run, FeesBy, Issued;
    var i := InstantAt(es, fee);
    FeeBooked(Cursor(w.books, None), ctx, es, i);
  }

  lemma NoCollisions(net: Network, w: World)
    requires Inv(net, w)
    ensures w.books.collisions == 0
  {}
}
