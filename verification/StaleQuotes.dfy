/** Why a price must not survive a reroute: a run in which one leg request, priced
    just before the destination changed, makes the sender pay for the way twice. */
module StaleQuotes {
  import opened Economics
  import opened Payouts
  import opened Shipment
  import opened StateMachine
  import opened Books
  import opened Executor
  import opened Invariant
  import opened Runs
  import opened Replay
  import opened QuietSteps
  import opened LegSteps
  import opened ClaimSteps
  import opened Acceptances
  import opened Outlay
  import opened EffectRuns

  // ----------------------------------------------------------- commands that land

  /** At a hub, with nothing booked, requested or claimed. */
  predicate Idle(w: World) {
    w.state == AtHub && w.stay.Some? && w.leg.None? && w.request.None? && w.claim.None? && w.bonus.None?
  }

  /** A request for a leg that carries no bonus and can be asked for right now. */
  predicate Requestable(w: World, cmd: Command) {
    && Idle(w) && cmd.Handle? && 0 <= cmd.frozenWork && EventOf(cmd).RequestLeg?
    && var e := EventOf(cmd);
       && e.tripActive && e.carrierWallet && e.arrivalWallet && e.toHub != w.stay.value.hub
       && PricingConsistent(e.pricing) && e.pricing.bonus == 0 && e.hubBonus == 0 && LegRef(e.legId) !in w.minted
  }

  lemma RequestLands(net: Network, w: World, cmd: Command) returns (v: World)
    requires Inv(net, w) && Requestable(w, cmd)
    ensures Issued(w, cmd) && Execute(net, w, cmd) == Ok(v) && Inv(net, v)
    ensures var e, from := EventOf(cmd), w.stay.value.hub;
      v == w.(request := Some(LegRequest(e.legId, e.carrier, from, net.owner(from), e.toHub, net.owner(e.toHub),
                                         e.pricing, 0, e.responseDeadline)),
              minted := w.minted + {LegRef(e.legId)}, books := v.books)
  {
    hide Inv, Run;
    RequestLegKeeps(net, w, cmd);
    v := Execute(net, w, cmd).value;
  }

  lemma AcceptanceLands(net: Network, w: World, cmd: Command) returns (v: World)
    requires Inv(net, w) && Issued(w, cmd) && cmd.Handle? && Acceptable(w, EventOf(cmd)) && w.request.value.hubBonus == 0
    requires StayRef(EventOf(cmd).arrivalStay) !in w.minted
    ensures Execute(net, w, cmd) == Ok(v) && Inv(net, v) && v.leg.Some?
    ensures v == w.(request := None, leg := v.leg, minted := w.minted + {StayRef(EventOf(cmd).arrivalStay)}, books := v.books)
    ensures var r, l := w.request.value, v.leg.value;
      && l.fromHub == r.fromHub && l.toHub == r.toHub && l.toUser == r.toUser && l.pricing == r.pricing
      && l.fundingDeadline == EventOf(cmd).fundingDeadline
  {
    hide Inv, Run;
    assert MintedBy(EventOf(cmd)) * w.minted == {};
    AcceptanceExecutes(net, w, cmd);
    DepositAcceptKeeps(net, w, cmd);
    v := Execute(net, w, cmd).value;
  }

  lemma FundingLands(net: Network, w: World, cmd: Command) returns (v: World)
    requires Inv(net, w) && Issued(w, cmd) && cmd.Handle? && EventOf(cmd).LegFunded?
    requires w.state == AtHub && w.stay.Some? && w.leg.Some? && EventOf(cmd).now <= w.leg.value.fundingDeadline
    ensures Execute(net, w, cmd) == Ok(v) && Inv(net, v)
    ensures v == w.(state := LegBooked, leg := Some(w.leg.value.(pickupDeadline := Some(EventOf(cmd).pickupDeadline))),
                    books := v.books)
  {
    hide Inv, Run;
    LegFundedKeeps(net, w, cmd);
    v := Execute(net, w, cmd).value;
    assert w.minted + {} == w.minted;
  }

  lemma CheckoutLands(net: Network, w: World, cmd: Command) returns (v: World)
    requires Inv(net, w) && Issued(w, cmd) && cmd.Handle? && EventOf(cmd).PickupCheckout?
    requires w.state == LegBooked && w.stay.Some? && w.leg.Some? && w.leg.value.pickupDeadline.Some?
    requires var e := EventOf(cmd);
      e.hubConfirmed && e.carrierConfirmed && e.photos > 0 && e.now <= w.leg.value.pickupDeadline.value
    ensures Execute(net, w, cmd) == Ok(v) && Inv(net, v)
    ensures v == w.(state := InTransit, stay := None,
                    leg := Some(w.leg.value.(transitDeadline := Some(EventOf(cmd).transitDeadline))), books := v.books)
  {
    hide Inv, Run;
    PickupCheckoutKeeps(net, w, cmd);
    v := Execute(net, w, cmd).value;
    assert w.minted + {} == w.minted;
  }

  lemma ArrivalLands(net: Network, w: World, cmd: Command) returns (v: World)
    requires Inv(net, w) && Issued(w, cmd) && cmd.Handle? && EventOf(cmd).LegCheckin?
    requires w.state == InTransit && w.leg.Some? && w.leg.value.transitDeadline.Some? && w.leg.value.toHub != w.destHub
    requires var e := EventOf(cmd);
      e.hub == w.leg.value.toHub && e.integrity && e.photos > 0 && e.now <= w.leg.value.transitDeadline.value
    ensures Execute(net, w, cmd) == Ok(v) && Inv(net, v)
    ensures v.stay.Some? && v.stay.value.hub == w.leg.value.toHub && v.stay.value.user == w.leg.value.toUser
    ensures v == w.(state := AtHub, leg := None, stay := v.stay, books := v.books)
  {
    hide Inv, Run;
    LegCheckinKeeps(net, w, cmd);
    v := Execute(net, w, cmd).value;
    assert w.minted + {} == w.minted;
  }

  lemma OriginLands(net: Network, w: World, cmd: Command) returns (v: World)
    requires Inv(net, w) && w.state == Draft && w.minted == {} && net.owner(w.originHub) != w.sender
    requires cmd.Handle? && cmd.frozenWork == 0 && EventOf(cmd).OriginHubAccept? && EventOf(cmd).hubWallet
    ensures Issued(w, cmd) && Execute(net, w, cmd) == Ok(v) && Inv(net, v)
    ensures v.stay.Some? && v.stay.value.hub == w.originHub
    ensures v == w.(state := AwaitingDropoff, stay := v.stay, minted := {StayRef(EventOf(cmd).stayId)}, books := v.books)
  {
    hide Inv, Run;
    OriginAccepts(net, w, cmd);
    StepKeeps(net, w, cmd);
    v := Execute(net, w, cmd).value;
  }

  lemma DropoffLands(net: Network, w: World, cmd: Command) returns (v: World)
    requires Inv(net, w) && w.state == AwaitingDropoff && w.stay.Some? && w.request.None? && w.claim.None?
    requires cmd.Handle? && cmd.frozenWork == 0 && EventOf(cmd).OriginCheckin? && EventOf(cmd).photos > 0
    ensures Issued(w, cmd) && Execute(net, w, cmd) == Ok(v) && Inv(net, v)
    ensures v.stay.Some? && v.stay.value.hub == w.stay.value.hub
    ensures v == w.(state := AtHub, stay := v.stay, books := v.books)
  {
    hide Inv, Run;
    CheckinLands(net, w, cmd);
    StepKeeps(net, w, cmd);
    v := Execute(net, w, cmd).value;
    assert w.minted + {} == w.minted;
  }

  lemma RerouteLands(net: Network, w: World, cmd: Command) returns (v: World)
    requires Inv(net, w) && Idle(w) && cmd.Handle? && 0 <= cmd.frozenWork && EventOf(cmd).Reroute?
    requires var e := EventOf(cmd);
      e.newDest.Some? && e.newDest.value != w.stay.value.hub && 0 < e.newRemaining && !e.newRecipient
    ensures Issued(w, cmd) && Execute(net, w, cmd) == Ok(v) && Inv(net, v)
    ensures var e := EventOf(cmd);
      v == w.(destHub := e.newDest.value, books := v.books,
              pool := w.pool.(work := cmd.frozenWork, total := e.newRemaining, boosts := [], waiting := None))
  {
    Parts(net, w);
    hide Inv, Run;
    var es := Transition(w.state, EventOf(cmd), ContextOf(net, w)).effects;
    assert es == [] + [Note(Rerouted, Some(w.sender), None, Some(w.stay.value.id)), RotatePickupOtp] + [] + [];
    var d := RunTail(Cursor(w.books, None), ContextOf(net, w), es);
    StepKeeps(net, w, cmd);
    v := Execute(net, w, cmd).value;
    assert w.minted + {} == w.minted;
  }

  lemma ClaimLands(net: Network, w: World, cmd: Command) returns (v: World)
    requires Inv(net, w) && Idle(w) && Issued(w, cmd) && cmd.Handle? && EventOf(cmd).RecipientClaim?
    requires var e := EventOf(cmd);
      && e.tokenVerified && e.claimantWallet && e.claimant != w.sender && e.claimant != w.stay.value.user
      && 0 < e.payment && 0 <= e.hubBonus && w.stay.value.user != w.sender && ClaimRef(e.claimId) !in w.minted
    ensures Execute(net, w, cmd) == Ok(v) && Inv(net, v)
    ensures v.claim.Some? && v.claim.value.payment == EventOf(cmd).payment && v.claim.value.hubBonus == EventOf(cmd).hubBonus
    ensures v == w.(claim := v.claim, minted := w.minted + {ClaimRef(EventOf(cmd).claimId)}, books := v.books)
  {
    hide Inv, Run;
    RecipientClaimKeeps(net, w, cmd);
    v := Execute(net, w, cmd).value;
  }

  // ----------------------------------------------------------- the run

  /** A to B to C to A are 100 km each; M lies a metre from B. */
  const A: HubId := 0
  const B: HubId := 1
  const C: HubId := 2
  const M: HubId := 3
  const SIDE: Metres := 100_000
  const SENDER: UserId := 10
  const CARRIER: UserId := 20
  const CLAIMANT: UserId := 30

  function Apart(g: HubId, h: HubId): nat {
    if g == h then 0 else if (g == B && h == M) || (g == M && h == B) then 1 else SIDE
  }

  const NET: Network := Network(h => 100 + h, h => 0, (g, h) => Apart(g, h))
  const OFFER: Msat := 1_000_000
  const BIRTH: Birth := Birth(SENDER, true, A, B, 50_000, OFFER, SIDE)
  const POOL: Pool := Pool(900_000, SIDE, [], 70_000, 30_000, false, None)
  const PRICE: LegPricing := LegPricing(899_000, 0, 0, 899_000, 0)

  const ACCEPT: Command := Handle(OriginHubAccept(1, true), 0)
  const DROPOFF: Command := Handle(OriginCheckin(1, 100), 0)
  const REROUTE: Command := Handle(Reroute(Some(C), false, SIDE), 900_000)
  const REQUEST: Command := Handle(RequestLeg(1, CARRIER, true, true, M, true, PRICE, 0, 100), 0)
  const DEPOSIT: Command := Handle(DepositAccept(0, 2, true, 100), 0)
  const FUND: Command := Handle(LegFunded(0, 100), 0)
  const CHECKOUT: Command := Handle(PickupCheckout(0, true, true, 1, 100), 0)
  const ARRIVE: Command := Handle(LegCheckin(0, M, true, 1, 100), 0)
  const CLAIM: Command := Handle(RecipientClaim(1, CLAIMANT, true, true, 970_000, 30_000, 100), 0)

  /** Every command is quoted on the shipment it meets, but the one at position `late`
      on the shipment as it was one command before. */
  ghost predicate QuotedBut(net: Network, w: World, cmds: seq<Command>, late: nat) {
    cmds == [] ||
    var init := cmds[..|cmds| - 1];
    && QuotedBut(net, w, init, late) && (|init| == late ==> init != [])
    && Quoted(net, Play(net, w, if |init| == late then init[..|init| - 1] else init), Play(net, w, init), cmds[|cmds| - 1])
  }

  /** Where the run stands after some commands, and what the sender has paid. */
  ghost predicate On(cmds: seq<Command>, w: World, paid: Msat) {
    && BornAs(NET, BIRTH).Ok? && Play(NET, BornAs(NET, BIRTH).value, cmds) == w
    && QuotedBut(NET, BornAs(NET, BIRTH).value, cmds, 3)
    && Inv(NET, w) && Outlaid(w) == paid && Committed(w) == OFFER
  }

  lemma GoesOn(cmds: seq<Command>, w: World, paid: Msat, o: World, cmd: Command, v: World)
    requires On(cmds, w, paid) && Quoted(NET, o, w, cmd) && !EventOf(cmd).Boost?
    requires if |cmds| == 3 then Play(NET, BornAs(NET, BIRTH).value, cmds[..2]) == o else o == w
    requires Execute(NET, w, cmd) == Ok(v) && Inv(NET, v)
    ensures On(cmds + [cmd], v, paid + SpentOn(w, EventOf(cmd)))
  {
    hide Execute, Inv, Quoted, Issued, BornAs, Outlaid, Committed, SpentOn;
    QuotedIssued(NET, o, w, cmd);
    assert (cmds + [cmd])[..|cmds|] == cmds;
    OutlaidGrows(NET, w, cmd, v);
    CommittedGrows(NET, w, cmd, v);
  }

  lemma Born() returns (w: World)
    ensures On([], w, 0) && w.state == Draft && w.pool == POOL && w.minted == {} && w.sender == SENDER
    ensures w.originHub == A && w.destHub == B && w.stay.None? && w.leg.None? && w.bonus.None? && w.request.None? && w.claim.None?
  {
    hide Inv, BornAs, SplitCommitment, NET, Outlaid, Committed;
    w := BirthLands(NET, BIRTH);
    OfferSplits();
    BirthKeeps(NET, BIRTH);
    BornClean(NET, BIRTH);
  }

  lemma BirthLands(net: Network, x: Birth) returns (w: World)
    requires x.senderWallet && x.originHub != x.destHub && 0 < x.offer && 0 < x.bond
    ensures BornAs(net, x) == Ok(w)
    ensures var split := SplitCommitment(x.offer);
      w == World(x.sender, x.originHub, x.destHub, x.bond, x.offer, Draft,
                 Pool(split.work, x.distance, [], split.carrierBonus, split.hubBonus, false, None),
                 None, None, None, None, None, {}, w.books)
  {
    hide Run, SplitCommitment;
    var ctx := Context(x.sender, true, x.originHub, net.owner(x.originHub), x.destHub, x.bond, x.offer,
                       SplitCommitment(x.offer).work, 0, None, None, None, None, None);
    NothingBooked();
    var d := RunTail(Cursor(EMPTY, None), ctx, OnCreate(ctx).effects);
    w := BornAs(net, x).value;
  }

  lemma OfferSplits()
    ensures SplitCommitment(OFFER) == CommitmentSplit(900_000, 70_000, 30_000)
  {}

  lemma BornPriced()
    requires BornAs(NET, BIRTH).Ok?
    ensures Proper(NET) && QuotedBirth(NET, BIRTH)
  {
    hide BornAs;
  }

  /** The prices of the run, as the handlers compute them. */
  lemma ReroutePriced(w: World)
    requires Idle(w) && w.pool == POOL && w.stay.value.hub == A && w.destHub == B && Issued(w, REROUTE)
    ensures Quoted(NET, w, w, REROUTE) && SpentOn(w, EventOf(REROUTE)) == 0
  {
    hide Issued;
  }

  lemma RequestPriced(o: World, w: World)
    requires Idle(o) && o.pool == POOL && o.stay.value.hub == A && o.destHub == B && Issued(w, REQUEST)
    ensures Quoted(NET, o, w, REQUEST) && SpentOn(w, EventOf(REQUEST)) == 0
  {
    hide Issued;
  }

  lemma ClaimPriced(w: World)
    requires Idle(w) && w.pool == POOL && w.stay.value.hub == M && w.destHub == C && Issued(w, CLAIM)
    ensures Quoted(NET, w, w, CLAIM) && SpentOn(w, EventOf(CLAIM)) == 0
  {
    hide Issued;
  }

  /** The parcel waits at the first hub. */
  lemma ToTheHub() returns (w: World)
    ensures On([ACCEPT, DROPOFF], w, 0)
    ensures Idle(w) && w.stay.value.hub == A && w.destHub == B && w.pool == POOL && w.minted == {StayRef(1)} && w.sender == SENDER
  {
    hide On, Quoted, Execute, Inv, SpentOn, Issued;
    var w0 := Born();
    OnIsCoherent([], w0, 0);
    var w1 := OriginLands(NET, w0, ACCEPT);
    Unpriced(w0, ACCEPT);
    GoesOn([], w0, 0, w0, ACCEPT, w1);
    assert [] + [ACCEPT] == [ACCEPT];
    var w2 := DropoffLands(NET, w1, DROPOFF);
    Unpriced(w1, DROPOFF);
    GoesOn([ACCEPT], w1, 0, w1, DROPOFF, w2);
    assert [ACCEPT] + [DROPOFF] == [ACCEPT, DROPOFF];
    w := w2;
  }

  lemma OnIsCoherent(cmds: seq<Command>, w: World, paid: Msat)
    requires On(cmds, w, paid)
    ensures Inv(NET, w)
  {
    hide Inv;
  }

  /** Commands without amounts need no quote, and pay nothing but for an arrival. */
  lemma Unpriced(w: World, cmd: Command)
    requires Issued(w, cmd)
    requires EventOf(cmd).OriginHubAccept? || EventOf(cmd).OriginCheckin? || EventOf(cmd).DepositAccept? || EventOf(cmd).LegFunded?
          || EventOf(cmd).PickupCheckout? || EventOf(cmd).LegCheckin?
    ensures Quoted(NET, w, w, cmd)
    ensures !EventOf(cmd).LegCheckin? ==> SpentOn(w, EventOf(cmd)) == 0
  {
    hide Issued;
  }

  const TO_M: seq<Command> := [ACCEPT, DROPOFF, REROUTE, REQUEST]

  /** The sender changes the destination. */
  lemma SentOn() returns (o: World, w: World)
    ensures On([ACCEPT, DROPOFF], o, 0) && On([ACCEPT, DROPOFF, REROUTE], w, 0)
    ensures Idle(o) && o.stay.value.hub == A && o.destHub == B && o.pool == POOL
    ensures Idle(w) && w.stay == o.stay && w.destHub == C && w.pool == POOL && w.minted == {StayRef(1)} && w.sender == SENDER
  {
    hide On, Execute, Inv, Quoted, SpentOn, NET;
    o := ToTheHub();
    OnIsCoherent([ACCEPT, DROPOFF], o, 0);
    w := RerouteLands(NET, o, REROUTE);
    ReroutePriced(o);
    GoesOn([ACCEPT, DROPOFF], o, 0, o, REROUTE, w);
    assert [ACCEPT, DROPOFF] + [REROUTE] == [ACCEPT, DROPOFF, REROUTE];
  }

  /** A carrier's handler still works with the old one: its leg to M, all but a metre
      of the old way, goes through. */
  lemma RequestedLate() returns (w: World)
    ensures On(TO_M, w, 0) && |TO_M| == 4 && Asked(w)
  {
    hide On, Execute, Inv, Quoted, SpentOn, NET, POOL, Asked, Idle, Requestable, REQUEST, TO_M;
    var o, w3 := SentOn();
    OnIsCoherent([ACCEPT, DROPOFF, REROUTE], w3, 0);
    MayBeRequested(w3);
    w := RequestLands(NET, w3, REQUEST);
    PlayedSoFar(o, w3);
    RequestPriced(o, w3);
    GoesOn([ACCEPT, DROPOFF, REROUTE], w3, 0, o, REQUEST, w);
    WayToM();
    RequestShows(w3, w);
  }

  /** The request stands. */
  predicate Asked(w: World) {
    && w.state == AtHub && w.stay.Some? && w.leg.None? && w.claim.None? && w.bonus.None? && w.destHub == C && w.pool == POOL
    && w.minted == {StayRef(1)} + {LegRef(1)} && w.sender == SENDER && w.stay.value.hub == A
    && w.request == Some(LegRequest(1, CARRIER, A, NET.owner(A), M, NET.owner(M), PRICE, 0, 100))
  }

  lemma WayToM()
    ensures |TO_M| == 4 && [ACCEPT, DROPOFF, REROUTE] + [REQUEST] == TO_M
    ensures !EventOf(REQUEST).Boost?
  {
    hide ACCEPT, DROPOFF, REROUTE;
  }

  lemma MayBeRequested(w: World)
    requires Idle(w) && w.stay.value.hub == A && w.minted == {StayRef(1)}
    ensures Requestable(w, REQUEST)
  {}

  lemma RequestShows(w: World, v: World)
    requires Idle(w) && w.stay.value.hub == A && w.destHub == C && w.pool == POOL && w.minted == {StayRef(1)} && w.sender == SENDER
    requires EventOf(REQUEST).RequestLeg?
    requires var e, from := EventOf(REQUEST), w.stay.value.hub;
      v == w.(request := Some(LegRequest(e.legId, e.carrier, from, NET.owner(from), e.toHub, NET.owner(e.toHub),
                                         e.pricing, 0, e.responseDeadline)),
              minted := w.minted + {LegRef(e.legId)}, books := v.books)
    ensures Asked(v)
  {
    hide NET, POOL;
  }

  lemma MayBeAccepted(w: World)
    requires Asked(w)
    ensures Acceptable(w, EventOf(DEPOSIT))
  {
    hide POOL;
  }

  lemma PlayedSoFar(w: World, v: World)
    requires On([ACCEPT, DROPOFF], w, 0) && On([ACCEPT, DROPOFF, REROUTE], v, 0)
    ensures Play(NET, BornAs(NET, BIRTH).value, [ACCEPT, DROPOFF, REROUTE][..2]) == w
  {
    hide Play, BornAs, QuotedBut, Inv, Outlaid, Committed;
    assert [ACCEPT, DROPOFF, REROUTE][..2] == [ACCEPT, DROPOFF];
  }

  /** The arrival hub accepts. */
  lemma DepositTaken() returns (w: World)
    ensures On(TO_M + [DEPOSIT], w, 0) && |TO_M| == 4 && Issued(w, FUND)
    ensures w.state == AtHub && w.stay.Some? && w.leg.Some? && w.leg.value.fundingDeadline == 100
    ensures w.leg.value.toHub == M && w.leg.value.toUser == NET.owner(M) && w.leg.value.pricing == PRICE
    ensures w.request.None? && w.claim.None? && w.bonus.None? && w.destHub == C && w.pool == POOL
    ensures ClaimRef(1) !in w.minted && w.sender == SENDER
  {
    hide On, Execute, Inv, Quoted, TO_M, NET, POOL, PRICE, SpentOn, Acceptable;
    var w4 := RequestedLate();
    OnIsCoherent(TO_M, w4, 0);
    MayBeAccepted(w4);
    w := AcceptanceLands(NET, w4, DEPOSIT);
    Unpriced(w4, DEPOSIT);
    GoesOn(TO_M, w4, 0, w4, DEPOSIT, w);
  }

  /** The holds come in. */
  lemma Booked() returns (w: World)
    ensures On(TO_M + [DEPOSIT] + [FUND], w, 0) && |TO_M| == 4
    ensures w.state == LegBooked && w.stay.Some? && w.leg.Some? && w.leg.value.pickupDeadline == Some(100)
    ensures w.leg.value.toHub == M && w.leg.value.toUser == NET.owner(M) && w.leg.value.pricing == PRICE
    ensures w.request.None? && w.claim.None? && w.bonus.None? && w.destHub == C && w.pool == POOL
    ensures ClaimRef(1) !in w.minted && w.sender == SENDER
  {
    hide On, Execute, Inv, Quoted, TO_M, NET, POOL, PRICE, SpentOn;
    var w5 := DepositTaken();
    var sofar := TO_M + [DEPOSIT];
    OnIsCoherent(sofar, w5, 0);
    w := FundingLands(NET, w5, FUND);
    Unpriced(w5, FUND);
    GoesOn(sofar, w5, 0, w5, FUND, w);
  }

  /** The leg is driven and paid. */
  lemma Driven() returns (w: World)
    ensures On(TO_M + [DEPOSIT] + [FUND] + [CHECKOUT] + [ARRIVE], w, 899_000) && |TO_M| == 4
    ensures Idle(w) && w.stay.value.hub == M && w.stay.value.user == NET.owner(M) && w.destHub == C && w.pool == POOL
    ensures ClaimRef(1) !in w.minted && w.sender == SENDER
  {
    hide On, Execute, Inv, Quoted, TO_M;
    var w6 := Booked();
    var sofar := TO_M + [DEPOSIT] + [FUND];
    OnIsCoherent(sofar, w6, 0);
    var w7 := CheckoutLands(NET, w6, CHECKOUT);
    Unpriced(w6, CHECKOUT);
    GoesOn(sofar, w6, 0, w6, CHECKOUT, w7);
    w := ArrivalLands(NET, w7, ARRIVE);
    Unpriced(w7, ARRIVE);
    GoesOn(sofar + [CHECKOUT], w7, 0, w7, ARRIVE, w);
  }

  /** One price from before the reroute, all others fresh: the whole way is paid to
      M, and is due again from there. The offer was 1000 sat, the sender is out of
      899 and bound to another 1000. */
  lemma StaleQuoteOverpays() returns (cmds: seq<Command>)
    ensures Proper(NET) && QuotedBirth(NET, BIRTH) && |cmds| == 9 && EventOf(cmds[2]).Reroute? && EventOf(cmds[3]).RequestLeg?
    ensures QuotedBut(NET, BornAs(NET, BIRTH).value, cmds, 3)
    ensures var w := Play(NET, BornAs(NET, BIRTH).value, cmds);
      Outlaid(w) == 899_000 && Bound(w) == 1_000_000 && Committed(w) == OFFER
  {
    hide Execute, Inv, Quoted, SpentOn, Outlaid, Committed, Play, QuotedBut, BornAs;
    var before := TO_M + [DEPOSIT] + [FUND] + [CHECKOUT] + [ARRIVE];
    var w8 := Driven();
    var w := ClaimLands(NET, w8, CLAIM);
    ClaimPriced(w8);
    GoesOn(before, w8, 899_000, w8, CLAIM, w);
    BornPriced();
    cmds := before + [CLAIM];
  }
}
