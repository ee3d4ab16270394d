/** Acceptance at the origin, delivery, expiry of storage, reroute and cancel. */
module EndSteps {
  import opened Economics
  import opened Shipment
  import opened StateMachine
  import opened Books
  import opened Executor
  import opened EffectRuns
  import opened Invariant
  import opened LegSteps
  import opened ClaimSteps

  // ----------------------------------------------------------- origin hub

  function OriginBonded(n: nat, ctx: Context, stayId: Id): Moves {
    Moves({}, {}, {n}, [Payment(CustodyBond, ctx.originUser, ctx.sender, ctx.bond, StayRef(stayId), Pending)], {})
  }

  lemma OriginRuns(c: Cursor, ctx: Context, stayId: Id) returns (d: Cursor)
    requires Audited(c.books) && 0 < ctx.bond && ctx.originUser != ctx.sender
    requires (CustodyBond, StayRef(stayId)) !in c.books.idem
    ensures Run(c, ctx, [CreatePayment(CustodyBond, ctx.originUser, ctx.sender, ctx.bond, StayRef(stayId)),
                         HeldEntry(HubBondHeld, StayRef(stayId), ctx.originUser, ctx.bond)]) == Ok(d)
    ensures Audited(d.books)
    ensures Moved(c.books, d.books, OriginBonded(|c.books.payments|, ctx, stayId))
    ensures d.books.idem == c.books.idem[(CustodyBond, StayRef(stayId)) := |c.books.payments|]
    ensures d.books.timers == c.books.timers
  {
    hide Audited, Run;
    d := RunCreateHeld(c, ctx, HubBondHeld, CustodyBond, ctx.originUser, ctx.sender, ctx.bond, StayRef(stayId));
  }

  lemma OriginInv(net: Network, w: World, w': World, stayId: Id)
    requires Inv(net, w) && w.state == Draft && Audited(w'.books) && StayRef(stayId) !in w.minted
    requires var n := |w.books.payments|;
      && Moved(w.books, w'.books, OriginBonded(n, ContextOf(net, w), stayId))
      && w'.books.idem == w.books.idem[(CustodyBond, StayRef(stayId)) := n]
      && w' == w.(state := AwaitingDropoff, stay := Some(HubStay(stayId, w.originHub, net.owner(w.originHub), n, 0)),
                  pool := w'.pool, minted := w.minted + {StayRef(stayId)}, books := w'.books)
    requires w'.books.timers == ExpectedTimers(w')
    ensures Inv(net, w')
  {
    hide Audited;
  }

  lemma OriginHubAcceptKeeps(net: Network, w: World, cmd: Command)
    requires Inv(net, w) && Issued(w, cmd) && EventOf(cmd).OriginHubAccept?
    ensures Kept(net, Execute(net, w, cmd))
  {
    hide Audited, Run, Moved, OnlyLivePending;
    var e, ctx := EventOf(cmd), ContextOf(net, w);
    var outcome := OnOriginHubAccept(w.state, e, ctx);
    if outcome.Accept? {
      if StayRef(e.stayId) in w.minted {
        assert StayRef(e.stayId) in MintedBy(e) * w.minted;
      } else {
        var c := Cursor(w.books, None);
        var pair := [CreatePayment(CustodyBond, ctx.originUser, ctx.sender, ctx.bond, StayRef(e.stayId)),
                     HeldEntry(HubBondHeld, StayRef(e.stayId), ctx.originUser, ctx.bond)];
        var tail := [Note(Funded, Some(ctx.originUser), None, Some(e.stayId))];
        if ctx.originUser == ctx.sender {
          RunRefused(c, ctx, CustodyBond, ctx.originUser, ctx.sender, ctx.bond, StayRef(e.stayId), [pair[1]] + tail);
          assert [pair[0]] + ([pair[1]] + tail) == outcome.effects;
        } else {
          var d := OriginRuns(c, ctx, e.stayId);
          RunConcat(c, ctx, pair, tail);
          var f := RunTail(d, ctx, tail);
          var w' := Execute(net, w, cmd).value;
          TimersDoNotMove(w.books, d.books, w'.books, OriginBonded(|w.books.payments|, ctx, e.stayId));
          OriginInv(net, w, w', e.stayId);
        }
      }
    }
  }

  // ----------------------------------------------------------- delivery

  lemma BonusAtDestination(net: Network, w: World)
    requires Inv(net, w) && w.state == AwaitingPickup && w.bonus.Some?
    ensures w.stay.Some?
    ensures var h, s := w.bonus.value, w.stay.value;
      && Open(w.books, h.paymentId, true) && h.paymentId != s.bondId
      && w.books.payments[h.paymentId].payer == w.sender && w.books.payments[h.paymentId].payee == s.user
      && w.books.payments[h.paymentId].amount == h.amount
  {
    hide Audited, OnlyLivePending, RefsMinted;
  }

  function DeliveryMoves(s: HubStay, bonus: Option<BonusHold>): Moves {
    Moves(BonusId(bonus), {s.bondId}, {}, [], {})
  }

  function DeliveryEffects(ctx: Context, s: HubStay): seq<Effect> {
    (if ctx.bonus.Some? then
       [ReleasePayment(ctx.bonus.value.paymentId),
        SettledEntry(FinalizationBonusReleased, StayRef(s.id), s.user, ctx.bonus.value.amount)]
     else [])
    + RefundStayBond(ctx, s)
  }

  /** A stay's bond, and with it the bonus hold if there is one. */
  ghost predicate StayHolds(b: Books, ctx: Context, s: HubStay) {
    && Open(b, s.bondId, true) && b.payments[s.bondId].payer == s.user && b.payments[s.bondId].amount == ctx.bond
    && (ctx.bonus.Some? ==>
          var p := ctx.bonus.value.paymentId;
          && Open(b, p, true) && p != s.bondId && b.payments[p].payer == ctx.sender && b.payments[p].payee == s.user
          && b.payments[p].amount == ctx.bonus.value.amount)
  }

  lemma DeliveryRuns(c: Cursor, ctx: Context, s: HubStay) returns (d: Cursor)
    requires Audited(c.books) && StayHolds(c.books, ctx, s)
    ensures Run(c, ctx, DeliveryEffects(ctx, s)) == Ok(d)
    ensures Audited(d.books)
    ensures Moved(c.books, d.books, DeliveryMoves(s, ctx.bonus))
    ensures d.books.idem == c.books.idem && d.books.timers == c.books.timers
  {
    hide Audited, Run;
    var bond := Resolution(s.bondId, Refunded, HubBondRefunded, StayRef(s.id), s.user, ctx.bond);
    if ctx.bonus.Some? {
      var q := Resolution(ctx.bonus.value.paymentId, Released, FinalizationBonusReleased, StayRef(s.id), s.user,
                          ctx.bonus.value.amount);
      d := RunTwo(c, ctx, q, bond);
      assert PairOf(q) + PairOf(bond) == DeliveryEffects(ctx, s);
    } else {
      d := RunResolve(c, ctx, s.bondId, Refunded, HubBondRefunded, StayRef(s.id), s.user, ctx.bond);
      assert PairOf(bond) == DeliveryEffects(ctx, s);
    }
  }

  /** The shipment is over: whatever was live has just been decided. */
  lemma OverInv(net: Network, w: World, w': World, m: Moves)
    requires Inv(net, w) && Audited(w'.books) && Moved(w.books, w'.books, m) && w'.books.idem == w.books.idem
    requires Terminal(w'.state) && m.created == []
    requires w' == w.(state := w'.state, stay := None, leg := None, request := None, claim := None, bonus := None,
                      pool := w'.pool, books := w'.books)
    requires forall p: nat :: p < |w.books.payments| && Live(w, p) ==> p in m.released || p in m.refunded
    requires forall k <- m.fees :: k.FeeKey? && (k.ref in w.minted || k.ref == ShipmentRef)
    requires w'.books.timers == map[]
    ensures Inv(net, w')
  {
    hide Audited;
  }

  /** Events that end the shipment at a hub. */
  predicate Ending(e: Event) {
    e.RecipientPickup? || e.StorageExpiry? || e.Cancel?
  }

  /** Executing one: nothing is left of the aggregate. */
  lemma EndingExecutes(net: Network, w: World, cmd: Command, next: State, es: seq<Effect>, f: Cursor)
    requires Ending(EventOf(cmd)) && Shape(w) && (EventOf(cmd).Cancel? ==> w.state == AtHub)
    requires Transition(w.state, EventOf(cmd), ContextOf(net, w)) == Accept(next, es)
    requires EventOf(cmd).StorageExpiry? || (w.leg.None? && w.request.None? && w.claim.None?)
    requires Run(Cursor(w.books, None), ContextOf(net, w), es) == Ok(f)
    ensures Execute(net, w, cmd) ==
            Ok(w.(state := next, stay := None, leg := None, request := None, claim := None, bonus := None,
                  books := Consume(f.books, cmd)))
  {
    hide Run, Transition;
    assert w.minted + {} == w.minted;
  }

  function DeliveryTail(s: HubStay): seq<Effect> {
    [Unschedule(Storage, s.id), Note(RecipientPickedUp, Some(s.user), None, Some(s.id)), QueueEmail(ToSender)]
  }

  lemma PickupIs(s: State, e: Event, ctx: Context)
    requires e.RecipientPickup? && OnRecipientPickup(s, e, ctx).Accept?
    ensures s == AwaitingPickup && ctx.stay.Some?
    ensures OnRecipientPickup(s, e, ctx) ==
            Accept(Delivered, DeliveryEffects(ctx, ctx.stay.value) + DeliveryTail(ctx.stay.value))
  {}

  lemma StorageTimerOnly(w: World)
    requires w.stay.Some? && w.books.timers == ExpectedTimers(w)
    requires w.state == AwaitingPickup || w.state == Claimed
             || (w.state == AtHub && w.leg.None? && w.request.None? && w.claim.None?)
    ensures w.books.timers - {TimerKey(Storage, w.stay.value.id)} == map[]
  {}

  lemma RecipientPickupKeeps(net: Network, w: World, cmd: Command)
    requires Inv(net, w) && Issued(w, cmd) && EventOf(cmd).RecipientPickup?
    ensures Kept(net, Execute(net, w, cmd))
  {
    hide Inv, Audited, Run, Moved, OnRecipientPickup, DeliveryEffects, ExpectedTimers, Execute;
    var e, ctx := EventOf(cmd), ContextOf(net, w);
    Parts(net, w);
    if OnRecipientPickup(w.state, e, ctx).Accept? {
      PickupIs(w.state, e, ctx);
      var c, s := Cursor(w.books, None), w.stay.value;
      StayBondOpen(net, w);
      if w.bonus.Some? { BonusAtDestination(net, w); }
      var d := DeliveryRuns(c, ctx, s);
      RunConcat(c, ctx, DeliveryEffects(ctx, s), DeliveryTail(s));
      var f := RunTail(d, ctx, DeliveryTail(s));
      EndingExecutes(net, w, cmd, Delivered, DeliveryEffects(ctx, s) + DeliveryTail(s), f);
      var w' := Execute(net, w, cmd).value;
      TimersDoNotMove(w.books, d.books, w'.books, DeliveryMoves(s, w.bonus));
      StorageTimerOnly(w);
      OverInv(net, w, w', DeliveryMoves(s, w.bonus));
    } else {
      RejectedIsKept(net, w, cmd);
    }
  }

  // ----------------------------------------------------------- storage expiry

  /** Every live hold of an idle parcel, none of them kept. */
  function ExpiryMoves(w: World): Moves
    requires w.stay.Some?
  {
    Moves({},
          {w.stay.value.bondId} + BonusId(w.bonus)
          + (if w.leg.Some? then {w.leg.value.paymentId, w.leg.value.carrierBondId, w.leg.value.arrivalBondId} else {})
          + (if w.claim.Some? then {w.claim.value.paymentId} + HubBonusIds(w.claim.value) else {}),
          {}, [], {})
  }

  lemma BondRuns(c: Cursor, ctx: Context, s: HubStay) returns (d: Cursor)
    requires Audited(c.books) && Open(c.books, s.bondId, true)
    requires c.books.payments[s.bondId].payer == s.user && c.books.payments[s.bondId].amount == ctx.bond
    ensures Run(c, ctx, RefundStayBond(ctx, s)) == Ok(d)
    ensures Audited(d.books)
    ensures Moved(c.books, d.books, Moves({}, {s.bondId}, {}, [], {}))
    ensures d.books.idem == c.books.idem && d.books.timers == c.books.timers
  {
    hide Audited, Run;
    d := RunResolve(c, ctx, s.bondId, Refunded, HubBondRefunded, StayRef(s.id), s.user, ctx.bond);
  }

  /** Two groups of refunds one after the other. */
  lemma MovesCompose(b: Books, c: Books, d: Books, m: Moves, n: Moves, both: Moves)
    requires Moved(b, c, m) && Moved(c, d, n) && m.created == [] && n.created == [] && both.created == []
    requires m.released == {} && n.released == {} && both.released == {}
    requires both.refunded == m.refunded + n.refunded && both.recognised == m.recognised + n.recognised
    requires both.fees == m.fees + n.fees
    ensures Moved(b, d, both)
  {}

  /** What the else-if chain dissolves before the bond. */
  function Dissolved(w: World): Moves {
    if w.leg.Some? then LegUnwound(w.leg.value, w.bonus)
    else if w.claim.Some? then ClaimDropped(w.claim.value)
    else Moves({}, BonusId(w.bonus), {}, [], {})
  }

  lemma HeldClaimRuns(c: Cursor, ctx: Context, claim: Claim, hubUser: UserId) returns (d: Cursor)
    requires Audited(c.books) && ClaimHolds(c.books, ctx, claim, hubUser, true)
    ensures Run(c, ctx, RefundHeldClaimHolds(ctx, claim)) == Ok(d)
    ensures Audited(d.books)
    ensures Moved(c.books, d.books, ClaimDropped(claim))
    ensures d.books.idem == c.books.idem && d.books.timers == c.books.timers
  {
    hide Audited, Run;
    var q := Resolution(claim.paymentId, Refunded, ClaimPaymentRefunded, ClaimRef(claim.id), ctx.sender, claim.payment);
    if claim.hubBonusId.Some? {
      var r := Resolution(claim.hubBonusId.value, Refunded, FinalizationBonusRefunded, ClaimRef(claim.id), ctx.sender, claim.hubBonus);
      d := RunTwo(c, ctx, q, r);
      assert PairOf(q) + PairOf(r) == RefundHeldClaimHolds(ctx, claim);
    } else {
      d := RunResolve(c, ctx, claim.paymentId, Refunded, ClaimPaymentRefunded, ClaimRef(claim.id), ctx.sender, claim.payment);
      assert PairOf(q) == RefundHeldClaimHolds(ctx, claim);
    }
  }

  lemma UnscheduleRuns(c: Cursor, ctx: Context, k: Timeout, id: Id) returns (d: Cursor)
    requires Audited(c.books)
    ensures Run(c, ctx, [Unschedule(k, id)]) == Ok(d) && Audited(d.books)
    ensures d.books == c.books.(timers := c.books.timers - {TimerKey(k, id)})
  {
    d := RunTail(c, ctx, [Unschedule(k, id)]);
  }

  lemma DissolveRuns(net: Network, w: World, c: Cursor, ctx: Context) returns (d: Cursor)
    requires Inv(net, w) && (w.state == AtHub || w.state == AwaitingPickup || w.state == Claimed)
    requires c.books == w.books && ctx == ContextOf(net, w)
    ensures Run(c, ctx, DissolveAtStorageExpiry(w.state, ctx, w.stay.value)) == Ok(d)
    ensures Audited(d.books)
    ensures Moved(w.books, d.books, Dissolved(w))
    ensures d.books.idem == w.books.idem
    ensures d.books.timers == map[TimerKey(Storage, w.stay.value.id) := w.stay.value.storageDeadline]
  {
    hide Audited, Run, Moved, LegOk, StayOk, RequestOk, BonusOk, ClaimOk, OnlyLivePending, RefsMinted, LegHolds, ClaimHolds,
      RefundPendingLegHolds, RefundPendingClaimHolds, RefundHeldClaimHolds, RefundFinalizationBonus;
    if w.leg.Some? {
      var l := w.leg.value;
      LegHoldsOpen(net, w);
      var mid := PendingLegRuns(c, ctx, l);
      d := UnscheduleRuns(mid, ctx, LegFundingWindow, l.id);
      RunConcat(c, ctx, RefundPendingLegHolds(l, ctx.bonus), [Unschedule(LegFundingWindow, l.id)]);
      TimersDoNotMove(w.books, mid.books, d.books, Dissolved(w));
    } else if w.request.Some? {
      d := UnscheduleRuns(c, ctx, DepositResponse, w.request.value.id);
      NothingMoved(w.books, d.books);
    } else if w.claim.Some? && w.state == AtHub {
      var claim := w.claim.value;
      ClaimHoldsOpen(net, w);
      var mid := PendingClaimRuns(c, ctx, claim, w.stay.value.user);
      d := UnscheduleRuns(mid, ctx, ClaimFundingWindow, claim.id);
      RunConcat(c, ctx, RefundPendingClaimHolds(claim), [Unschedule(ClaimFundingWindow, claim.id)]);
      TimersDoNotMove(w.books, mid.books, d.books, Dissolved(w));
    } else if w.claim.Some? {
      ClaimHoldsOpen(net, w);
      d := HeldClaimRuns(c, ctx, w.claim.value, w.stay.value.user);
    } else {
      d := DissolveBonusRuns(net, w, c, ctx);
    }
  }

  lemma NothingMoved(b: Books, d: Books)
    requires d == b.(timers := d.timers, chain := d.chain)
    ensures Moved(b, d, Moves({}, {}, {}, [], {}))
  {}

  lemma DissolveBonusRuns(net: Network, w: World, c: Cursor, ctx: Context) returns (d: Cursor)
    requires Inv(net, w) && (w.state == AtHub || w.state == AwaitingPickup)
    requires w.leg.None? && w.request.None? && w.claim.None?
    requires c.books == w.books && ctx == ContextOf(net, w)
    ensures Run(c, ctx, DissolveAtStorageExpiry(w.state, ctx, w.stay.value)) == Ok(d)
    ensures Audited(d.books)
    ensures Moved(w.books, d.books, Moves({}, BonusId(w.bonus), {}, [], {}))
    ensures d.books.idem == w.books.idem && d.books.timers == w.books.timers
  {
    hide Audited, Run, LegOk, StayOk, RequestOk, BonusOk, ClaimOk, OnlyLivePending, RefsMinted, RefundFinalizationBonus;
    if w.state == AwaitingPickup {
      if w.bonus.Some? { BonusAtDestination(net, w); }
      d := RunBonusRefund(c, ctx, w.stay.value.id);
    } else {
      d := RunTail(c, ctx, []);
    }
  }

  lemma BondUntouched(net: Network, w: World, d: Books)
    requires Inv(net, w) && w.stay.Some? && Moved(w.books, d, Dissolved(w)) && w.state != LegBooked
    ensures var s := w.stay.value;
      Open(d, s.bondId, true) && d.payments[s.bondId].payer == s.user && d.payments[s.bondId].amount == w.bond
  {
    hide Audited, OnlyLivePending, RefsMinted;
  }

  lemma ExpiryBooks(net: Network, w: World, c: Cursor, ctx: Context) returns (d: Cursor)
    requires Inv(net, w) && (w.state == AtHub || w.state == AwaitingPickup || w.state == Claimed)
    requires c.books == w.books && ctx == ContextOf(net, w)
    ensures Run(c, ctx, DissolveAtStorageExpiry(w.state, ctx, w.stay.value) + RefundStayBond(ctx, w.stay.value)) == Ok(d)
    ensures Audited(d.books)
    ensures Moved(w.books, d.books, ExpiryMoves(w))
    ensures d.books.idem == w.books.idem
    ensures d.books.timers == map[TimerKey(Storage, w.stay.value.id) := w.stay.value.storageDeadline]
  {
    hide Audited, Run, Moved, LegOk, StayOk, RequestOk, BonusOk, ClaimOk, OnlyLivePending, RefsMinted,
      DissolveAtStorageExpiry, RefundStayBond;
    var s := w.stay.value;
    var c1 := DissolveRuns(net, w, c, ctx);
    BondUntouched(net, w, c1.books);
    d := BondRuns(c1, ctx, s);
    RunConcat(c, ctx, DissolveAtStorageExpiry(w.state, ctx, s), RefundStayBond(ctx, s));
    MovesCompose(w.books, c1.books, d.books, Dissolved(w), Moves({}, {s.bondId}, {}, [], {}), ExpiryMoves(w));
  }

  lemma ExpiryIs(s: State, e: Event, ctx: Context)
    requires e.StorageExpiry? && OnStorageExpiry(s, e, ctx).Accept?
    ensures ctx.stay.Some? && (s == AtHub || s == AwaitingPickup || s == Claimed)
    ensures OnStorageExpiry(s, e, ctx) ==
            Accept(Forfeited, DissolveAtStorageExpiry(s, ctx, ctx.stay.value) + RefundStayBond(ctx, ctx.stay.value)
                              + [Note(Expired, None, None, Some(ctx.stay.value.id))])
  {
    hide DissolveAtStorageExpiry, RefundStayBond;
  }

  lemma StorageExpiryKeeps(net: Network, w: World, cmd: Command)
    requires Inv(net, w) && Issued(w, cmd) && EventOf(cmd).StorageExpiry?
    ensures Kept(net, Execute(net, w, cmd))
    ensures Transition(w.state, EventOf(cmd), ContextOf(net, w)).Accept? ==> Execute(net, w, cmd).Ok?
  {
    hide Inv, Audited, Run, Moved, OnStorageExpiry, DissolveAtStorageExpiry, RefundStayBond, Execute, Live, ExpiryMoves;
    var e, ctx := EventOf(cmd), ContextOf(net, w);
    Parts(net, w);
    if OnStorageExpiry(w.state, e, ctx).Accept? {
      ExpiryIs(w.state, e, ctx);
      var c, s := Cursor(w.books, None), w.stay.value;
      var d := ExpiryBooks(net, w, c, ctx);
      var tail := [Note(Expired, None, None, Some(s.id))];
      RunConcat(c, ctx, DissolveAtStorageExpiry(w.state, ctx, s) + RefundStayBond(ctx, s), tail);
      var f := RunTail(d, ctx, tail);
      EndingExecutes(net, w, cmd, Forfeited,
                     DissolveAtStorageExpiry(w.state, ctx, s) + RefundStayBond(ctx, s) + tail, f);
      var w' := Execute(net, w, cmd).value;
      OtherWritesKeepAudit(f.books, w'.books);
      TimersDoNotMove(w.books, d.books, w'.books, ExpiryMoves(w));
      assert w'.books.timers == map[];
      EveryHoldExpires(w);
      OverInv(net, w, w', ExpiryMoves(w));
    } else {
      RejectedIsKept(net, w, cmd);
    }
  }

  lemma EveryHoldExpires(w: World)
    requires w.stay.Some?
    ensures forall p: nat :: Live(w, p) ==> p in ExpiryMoves(w).refunded
    ensures ExpiryMoves(w).created == [] && ExpiryMoves(w).fees == {}
  {}

  // ----------------------------------------------------------- reroute

  lemma RerouteInv(net: Network, w: World, w': World, newDest: Option<HubId>)
    requires Inv(net, w) && (w.state == AtHub || w.state == AwaitingPickup) && Audited(w'.books)
    requires w.leg.None? && w.request.None? && w.claim.None?
    requires newDest != Some(w.stay.value.hub)
    requires w'.state == if w.state == AwaitingPickup && newDest.None? then AwaitingPickup else AtHub
    requires Moved(w.books, w'.books,
                   Moves({}, if w.state == AwaitingPickup && newDest.Some? then BonusId(w.bonus) else {}, {}, [], {}))
    requires w'.books.idem == w.books.idem && w'.books.timers == w.books.timers
    requires w' == w.(state := w'.state, destHub := if newDest.Some? then newDest.value else w.destHub,
                      bonus := if w.state == AwaitingPickup && newDest.Some? then None else w.bonus,
                      pool := w'.pool, books := w'.books)
    ensures Inv(net, w')
  {
    hide Audited;
  }

  function RerouteTail(e: Event, ctx: Context, s: HubStay, stays: bool): seq<Effect>
    requires e.Reroute?
  {
    [Note(Rerouted, Some(ctx.sender), None, Some(s.id)), RotatePickupOtp]
    + (if e.newRecipient then [RotateClaimToken, QueueEmail(ToRecipient)] else [])
    + (if stays then [QueueEmail(ToRecipient)] else [])
  }

  lemma RerouteTailRuns(c: Cursor, e: Event, ctx: Context, s: HubStay, stays: bool) returns (d: Cursor)
    requires Audited(c.books) && e.Reroute?
    ensures Run(c, ctx, RerouteTail(e, ctx, s, stays)) == Ok(d) && Audited(d.books)
    ensures d.books == c.books.(chain := d.books.chain)
  {
    d := RunTail(c, ctx, RerouteTail(e, ctx, s, stays));
  }

  lemma RerouteIs(s: State, e: Event, ctx: Context)
    requires e.Reroute? && OnReroute(s, e, ctx).Accept?
    ensures s == AtHub || s == AwaitingPickup
    ensures ctx.stay.Some? && ctx.leg.None? && ctx.claim.None? && ctx.request.None? && e.newDest != Some(ctx.stay.value.hub)
    ensures var stays := s == AwaitingPickup && e.newDest.None?;
      OnReroute(s, e, ctx) ==
      Accept(if stays then AwaitingPickup else AtHub,
        (if s == AwaitingPickup && e.newDest.Some? then RefundFinalizationBonus(ctx, ctx.bonus, ctx.stay.value.id) else [])
        + RerouteTail(e, ctx, ctx.stay.value, stays))
  {
    var stays := s == AwaitingPickup && e.newDest.None?;
    assert (if s == AwaitingPickup && e.newDest.Some? then RefundFinalizationBonus(ctx, ctx.bonus, ctx.stay.value.id) else [])
           + RerouteTail(e, ctx, ctx.stay.value, stays) == OnReroute(s, e, ctx).effects;
  }

  lemma RerouteRuns(net: Network, w: World, e: Event, ctx: Context) returns (d: Cursor)
    requires Inv(net, w) && e.Reroute? && ctx == ContextOf(net, w) && OnReroute(w.state, e, ctx).Accept?
    ensures Run(Cursor(w.books, None), ctx, OnReroute(w.state, e, ctx).effects) == Ok(d) && Audited(d.books)
    ensures Moved(w.books, d.books,
                  Moves({}, if w.state == AwaitingPickup && e.newDest.Some? then BonusId(w.bonus) else {}, {}, [], {}))
    ensures d.books.idem == w.books.idem && d.books.timers == w.books.timers
  {
    hide Audited, Run, LegOk, StayOk, RequestOk, BonusOk, ClaimOk, OnlyLivePending, RefsMinted,
      OnReroute, RerouteTail, RefundFinalizationBonus;
    RerouteIs(w.state, e, ctx);
    var c, s := Cursor(w.books, None), w.stay.value;
    var stays := w.state == AwaitingPickup && e.newDest.None?;
    if w.state == AwaitingPickup && e.newDest.Some? {
      if w.bonus.Some? { BonusAtDestination(net, w); }
      var mid := RunBonusRefund(c, ctx, s.id);
      d := RerouteTailRuns(mid, e, ctx, s, stays);
      RunConcat(c, ctx, RefundFinalizationBonus(ctx, ctx.bonus, s.id), RerouteTail(e, ctx, s, stays));
    } else {
      d := RerouteTailRuns(c, e, ctx, s, stays);
      assert [] + RerouteTail(e, ctx, s, stays) == RerouteTail(e, ctx, s, stays);
    }
  }

  lemma RerouteKeeps(net: Network, w: World, cmd: Command)
    requires Inv(net, w) && Issued(w, cmd) && EventOf(cmd).Reroute?
    ensures Kept(net, Execute(net, w, cmd))
  {
    hide Audited, Run, Moved, LegOk, StayOk, RequestOk, BonusOk, ClaimOk, OnlyLivePending, RefsMinted, OnReroute;
    var e, ctx := EventOf(cmd), ContextOf(net, w);
    if OnReroute(w.state, e, ctx).Accept? {
      RerouteIs(w.state, e, ctx);
      var d := RerouteRuns(net, w, e, ctx);
      var w' := Execute(net, w, cmd).value;
      RerouteInv(net, w, w', e.newDest);
    }
  }

  // ----------------------------------------------------------- cancel

  lemma CancelFeeRuns(c: Cursor, ctx: Context, s: HubStay, compensation: Msat) returns (d: Cursor)
    requires Audited(c.books) && FeeKey(ShipmentRef, CancellationFee) !in c.books.keys
    requires Open(c.books, s.bondId, true) && c.books.payments[s.bondId].payer == s.user
    requires c.books.payments[s.bondId].amount == ctx.bond
    ensures Run(c, ctx, PayNow(CancellationFee, CancellationCompensationPaid, ShipmentRef, ctx.sender, s.user, compensation)
                        + RefundStayBond(ctx, s)) == Ok(d)
    ensures Audited(d.books)
    ensures Moved(c.books, d.books, CancelMoves(s, compensation))
    ensures d.books.idem == c.books.idem && d.books.timers == c.books.timers
  {
    hide Audited, Run;
    var c1 := RunFee(c, ctx, CancellationFee, CancellationCompensationPaid, ShipmentRef, ctx.sender, s.user, compensation);
    d := RunResolve(c1, ctx, s.bondId, Refunded, HubBondRefunded, StayRef(s.id), s.user, ctx.bond);
    RunConcat(c, ctx, PayNow(CancellationFee, CancellationCompensationPaid, ShipmentRef, ctx.sender, s.user, compensation),
              RefundStayBond(ctx, s));
  }

  function CancelMoves(s: HubStay, compensation: Msat): Moves {
    Moves({}, {s.bondId}, {}, [], if compensation == 0 then {} else {FeeKey(ShipmentRef, CancellationFee)})
  }

  lemma CancelledBeforeStay(net: Network, w: World, cmd: Command)
    requires Inv(net, w) && Issued(w, cmd) && EventOf(cmd).Cancel? && w.state == Draft
    ensures Kept(net, Execute(net, w, cmd))
  {
    hide Audited, Run, OnlyLivePending, RefsMinted;
    var ctx := ContextOf(net, w);
    var d := RunTail(Cursor(w.books, None), ctx, OnCancel(w.state, ctx).effects);
    var w' := Execute(net, w, cmd).value;
    NothingMoved(w.books, w'.books);
    OverInv(net, w, w', Moves({}, {}, {}, [], {}));
  }

  lemma CancelledAtDropoff(net: Network, w: World, cmd: Command)
    requires Inv(net, w) && Issued(w, cmd) && EventOf(cmd).Cancel? && w.state == AwaitingDropoff
    ensures Kept(net, Execute(net, w, cmd))
  {
    hide Audited, Run, Moved, StayOk, OnlyLivePending, RefsMinted, RefundStayBond;
    var ctx, c, s := ContextOf(net, w), Cursor(w.books, None), w.stay.value;
    StayBondOpen(net, w);
    var d := BondRuns(c, ctx, s);
    var tail := [Note(CancelledEvent, Some(ctx.sender), None, Some(s.id))];
    RunConcat(c, ctx, RefundStayBond(ctx, s), tail);
    var f := RunTail(d, ctx, tail);
    var w' := Execute(net, w, cmd).value;
    TimersDoNotMove(w.books, d.books, w'.books, Moves({}, {s.bondId}, {}, [], {}));
    OverInv(net, w, w', Moves({}, {s.bondId}, {}, [], {}));
  }

  lemma NoCancellationFeeYet(net: Network, w: World)
    requires Inv(net, w) && !Terminal(w.state)
    ensures FeeKey(ShipmentRef, CancellationFee) !in w.books.keys
  {
    hide Audited, OnlyLivePending;
  }

  function CancelTail(ctx: Context, s: HubStay): seq<Effect> {
    [Unschedule(Storage, s.id), Note(CancelledEvent, Some(ctx.sender), None, Some(s.id))]
  }

  lemma CancelAtOriginIs(ctx: Context)
    requires OnCancel(AtHub, ctx).Accept?
    ensures ctx.stay.Some? && ctx.leg.None? && ctx.claim.None? && ctx.request.None?
    ensures CancellationCompensation(ctx.work, ctx.originFeeBp).Price?
    ensures var s := ctx.stay.value;
      OnCancel(AtHub, ctx) ==
      Accept(Cancelled,
        PayNow(CancellationFee, CancellationCompensationPaid, ShipmentRef, ctx.sender, s.user,
               CancellationCompensation(ctx.work, ctx.originFeeBp).value)
        + RefundStayBond(ctx, s) + CancelTail(ctx, s))
  {
    hide PayNow, RefundStayBond, CancellationCompensation;
  }

  lemma CancelledAtOrigin(net: Network, w: World, cmd: Command)
    requires Inv(net, w) && Issued(w, cmd) && EventOf(cmd).Cancel? && w.state == AtHub
    ensures Kept(net, Execute(net, w, cmd))
  {
    hide Inv, Audited, Run, Moved, OnCancel, RefundStayBond, PayNow, CancellationCompensation, ExpectedTimers, Execute;
    var ctx := ContextOf(net, w);
    Parts(net, w);
    if OnCancel(w.state, ctx).Accept? {
      CancelAtOriginIs(ctx);
      var c, s := Cursor(w.books, None), w.stay.value;
      var compensation := CancellationCompensation(ctx.work, ctx.originFeeBp).value;
      StayBondOpen(net, w);
      NoCancellationFeeYet(net, w);
      var d := CancelFeeRuns(c, ctx, s, compensation);
      var fee := PayNow(CancellationFee, CancellationCompensationPaid, ShipmentRef, ctx.sender, s.user, compensation);
      RunConcat(c, ctx, fee + RefundStayBond(ctx, s), CancelTail(ctx, s));
      var f := RunTail(d, ctx, CancelTail(ctx, s));
      EndingExecutes(net, w, cmd, Cancelled, fee + RefundStayBond(ctx, s) + CancelTail(ctx, s), f);
      var w' := Execute(net, w, cmd).value;
      TimersDoNotMove(w.books, d.books, w'.books, CancelMoves(s, compensation));
      StorageTimerOnly(w);
      OverInv(net, w, w', CancelMoves(s, compensation));
    } else {
      RejectedIsKept(net, w, cmd);
    }
  }

  lemma CancelKeeps(net: Network, w: World, cmd: Command)
    requires Inv(net, w) && Issued(w, cmd) && EventOf(cmd).Cancel?
    ensures Kept(net, Execute(net, w, cmd))
  {
    hide Audited, Run, Inv;
    match w.state
    case Draft => CancelledBeforeStay(net, w, cmd);
    case AwaitingDropoff => CancelledAtDropoff(net, w, cmd);
    case AtHub => CancelledAtOrigin(net, w, cmd);
    case _ => assert !Transition(w.state, EventOf(cmd), ContextOf(net, w)).Accept?;
  }
}
