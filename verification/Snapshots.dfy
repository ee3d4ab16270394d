/** What a snapshot of a shipment still says about it later in the run. */
module Snapshots {
  import opened Economics
  import opened Shipment
  import opened StateMachine
  import opened Books
  import opened Executor
  import opened EffectRuns
  import opened Invariant
  import opened Guarantees
  import Tables

  /** Creation keys find the same holds for ever. */
  ghost predicate KeysLast(b: Books, d: Books) {
    b.idem.Keys <= d.idem.Keys && forall k <- b.idem.Keys :: d.idem[k] == b.idem[k]
  }

  predicate SameLeg(l: Leg, m: Leg) {
    l.(pickupDeadline := None, transitDeadline := None) == m.(pickupDeadline := None, transitDeadline := None)
  }

  /** A leg waits at a hub until it is picked up. */
  predicate Waiting(s: State) {
    s == AtHub || s == LegBooked
  }

  /** How far a leg has come. */
  function Stage(s: State): nat {
    if s == AtHub then 0 else if s == LegBooked then 1 else 2
  }

  /** The leg of the snapshot only moves on, is unchanged while it does not, and as
      long as it waits so is the stay. */
  predicate LegMovesOn(o: World, w: World)
    requires o.leg.Some? && w.leg.Some?
  {
    && SameLeg(o.leg.value, w.leg.value) && Stage(o.state) <= Stage(w.state)
    && (Stage(o.state) == Stage(w.state) ==> o.leg == w.leg)
    && (Waiting(o.state) && Waiting(w.state) ==> o.stay == w.stay)
  }

  predicate LegLasts(o: World, w: World) {
    w.leg.Some? ==>
      && (o.leg.Some? && o.leg.value.id == w.leg.value.id ==> LegMovesOn(o, w))
      && (StayRef(w.leg.value.arrivalStay) in o.minted ==> o.leg.Some? && o.leg.value.id == w.leg.value.id)
  }

  predicate ClaimLasts(o: World, w: World) {
    w.claim.Some? && ClaimRef(w.claim.value.id) in o.minted ==> o.claim == w.claim
  }

  predicate RequestLasts(o: World, w: World) {
    w.request.Some? && LegRef(w.request.value.id) in o.minted ==> o.request == w.request
  }

  /** The parcel has been checked in at its origin. */
  predicate CheckedIn(s: State) {
    s != Draft && s != AwaitingDropoff
  }

  predicate StayLasts(o: World, w: World) {
    CheckedIn(o.state) ==>
      && CheckedIn(w.state)
      && (w.stay.Some? && o.stay.Some? && o.stay.value.id == w.stay.value.id ==>
            o.stay == w.stay && (w.state == AwaitingPickup ==> o.state == AwaitingPickup))
  }

  ghost predicate Later(o: World, w: World) {
    && w.sender == o.sender && w.bond == o.bond && o.minted <= w.minted
    && KeysLast(o.books, w.books) && PaymentsEvolve(o.books, w.books)
    && LegLasts(o, w) && ClaimLasts(o, w) && RequestLasts(o, w) && StayLasts(o, w)
  }

  lemma LaterAtOnce(w: World)
    ensures Later(w, w)
  {}

  lemma {:induction false} RunKeepsKeys(c: Cursor, ctx: Context, es: seq<Effect>)
    requires Run(c, ctx, es).Ok?
    ensures KeysLast(c.books, Run(c, ctx, es).value.books)
    decreases |es|
  {
    hide DeriveKey, Total;
    if es != [] {
      var d := Apply(c, ctx, es[0]).value;
      assert KeysLast(c.books, d.books);
      RunKeepsKeys(d, ctx, es[1..]);
    }
  }

  lemma ExecuteKeepsKeys(net: Network, w: World, cmd: Command, v: World)
    requires Execute(net, w, cmd) == Ok(v)
    ensures KeysLast(w.books, v.books) && v.sender == w.sender && v.bond == w.bond
    ensures v.minted == w.minted + MintedBy(EventOf(cmd))
  {
    var ctx := ContextOf(net, w);
    hide Transition, Run;
    RunKeepsKeys(Cursor(w.books, None), ctx, Transition(w.state, EventOf(cmd), ctx).effects);
    hide AdvancePool, Wanted;
  }

  /** One step: leg, request, claim and stay stay, go, or are new. */
  ghost predicate Local(w: World, v: World) {
    && (v.leg.Some? ==>
          || (w.request.Some? && v.leg.value.id == w.request.value.id && StayRef(v.leg.value.arrivalStay) !in w.minted)
          || (w.leg.Some? && LegMovesOn(w, v)))
    && (v.claim.Some? ==> v.claim == w.claim || ClaimRef(v.claim.value.id) !in w.minted)
    && (v.request.Some? ==> v.request == w.request || LegRef(v.request.value.id) !in w.minted)
    && (CheckedIn(w.state) ==> CheckedIn(v.state))
    && (v.state == AwaitingPickup && w.state != AwaitingPickup ==>
          w.leg.Some? && w.state == InTransit && v.stay.Some? && v.stay.value.id == w.leg.value.arrivalStay)
    && (v.stay.Some? && CheckedIn(w.state) ==>
          || v.stay == w.stay || StayRef(v.stay.value.id) !in w.minted
          || (w.leg.Some? && w.state == InTransit && v.stay.value.id == w.leg.value.arrivalStay))
  }

  lemma LegStepLocal(net: Network, w: World, e: Event, v: World)
    requires Tables.Step(net, w, e, v)
    requires e.DepositAccept? || e.LegFunded? || e.PickupCheckout? || e.LegCheckin? || e.LegReturn? || e.LegFundingExpired?
             || e.PickupTimeout? || e.TransitTimeout?
    ensures Local(w, v)
  {
    hide Transition, Wanted;
    if e.DepositAccept? { NotMinted(MintedBy(e), w.minted, StayRef(e.arrivalStay)); }
    if e.LegReturn? { NotMinted(MintedBy(e), w.minted, StayRef(e.returnStay)); }
  }

  lemma OtherStepLocal(net: Network, w: World, e: Event, v: World)
    requires Tables.Step(net, w, e, v)
    requires !(e.DepositAccept? || e.LegFunded? || e.PickupCheckout? || e.LegCheckin? || e.LegReturn? || e.LegFundingExpired?
               || e.PickupTimeout? || e.TransitTimeout?)
    ensures Local(w, v)
  {
    hide Transition, Wanted;
    if e.RecipientClaim? { NotMinted(MintedBy(e), w.minted, ClaimRef(e.claimId)); }
    if e.RequestLeg? { NotMinted(MintedBy(e), w.minted, LegRef(e.legId)); }
  }

  lemma LegLastsStill(net: Network, o: World, w: World, v: World)
    requires Inv(net, o) && LegLasts(o, w) && RequestLasts(o, w) && Local(w, v) && o.minted <= w.minted
    ensures LegLasts(o, v)
  {
    hide Audited, OnlyLivePending, RefsMinted, StayOk, RequestOk, BonusOk, ClaimOk, ExpectedTimers;
  }

  lemma StayLastsStill(net: Network, o: World, w: World, v: World)
    requires Inv(net, o) && Inv(net, w) && LegLasts(o, w) && StayLasts(o, w) && Local(w, v) && o.minted <= w.minted
    ensures StayLasts(o, v)
  {
    hide Audited, OnlyLivePending, RefsMinted, RequestOk, BonusOk, ClaimOk, ExpectedTimers;
  }

  lemma LaterStill(net: Network, o: World, w: World, cmd: Command, v: World)
    requires Inv(net, o) && Later(o, w) && Inv(net, w) && Inv(net, v) && Execute(net, w, cmd) == Ok(v)
    ensures Later(o, v)
  {
    hide Execute, Transition, Inv, Tables.Step, LegLasts, StayLasts, Local;
    ExecuteKeepsKeys(net, w, cmd, v);
    ExecuteEvolves(net, w, cmd);
    Tables.StepOf(net, w, cmd, v);
    var e := EventOf(cmd);
    if e.DepositAccept? || e.LegFunded? || e.PickupCheckout? || e.LegCheckin? || e.LegReturn? || e.LegFundingExpired?
       || e.PickupTimeout? || e.TransitTimeout? {
      LegStepLocal(net, w, e, v);
    } else {
      OtherStepLocal(net, w, e, v);
    }
    hide MintedBy;
    LegLastsStill(net, o, w, v);
    StayLastsStill(net, o, w, v);
    RowsLastStill(o, w, v);
  }

  lemma RowsLastStill(o: World, w: World, v: World)
    requires ClaimLasts(o, w) && RequestLasts(o, w) && Local(w, v) && o.minted <= w.minted
    ensures ClaimLasts(o, v) && RequestLasts(o, v)
  {}
}
