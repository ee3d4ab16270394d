/** The life of a leg: deposit accepted, funded or expired, checked out,
    checked in, returned, failed. */
module LegSteps {
  import opened Economics
  import opened Shipment
  import opened StateMachine
  import opened Books
  import opened Executor
  import opened EffectRuns
  import opened Invariant

  /** The holds of a leg, as the books see them. */
  ghost predicate LegHolds(b: Books, ctx: Context, l: Leg, recognised: bool) {
    && Open(b, l.paymentId, recognised) && Open(b, l.carrierBondId, recognised) && Open(b, l.arrivalBondId, recognised)
    && l.paymentId != l.carrierBondId && l.carrierBondId != l.arrivalBondId && l.paymentId != l.arrivalBondId
    && b.payments[l.paymentId].payer == ctx.sender && b.payments[l.paymentId].payee == l.carrier
    && b.payments[l.paymentId].amount == LegHoldAmount(l)
    && b.payments[l.carrierBondId].payer == l.carrier && b.payments[l.carrierBondId].payee == ctx.sender
    && b.payments[l.carrierBondId].amount == ctx.bond
    && b.payments[l.arrivalBondId].payer == l.toUser && b.payments[l.arrivalBondId].payee == ctx.sender
    && b.payments[l.arrivalBondId].amount == ctx.bond
    && (ctx.bonus.Some? ==>
          var p := ctx.bonus.value.paymentId;
          && Open(b, p, recognised) && p != l.paymentId && p != l.carrierBondId && p != l.arrivalBondId
          && b.payments[p].payer == ctx.sender && b.payments[p].amount == ctx.bonus.value.amount)
  }

  lemma LegHoldsOpen(net: Network, w: World)
    requires Inv(net, w) && w.leg.Some?
    ensures LegHolds(w.books, ContextOf(net, w), w.leg.value, w.state != AtHub)
  {
    hide Audited, RefsMinted, ExpectedTimers, OnlyLivePending;
  }

  lemma TimersDoNotMove(b: Books, c: Books, d: Books, m: Moves)
    requires Moved(b, c, m) && d == c.(timers := d.timers, chain := d.chain)
    ensures Moved(b, d, m)
  {
    assert forall p: nat :: Recognised(d, p, Held) <==> Recognised(c, p, Held);
  }

  function BonusId(bonus: Option<BonusHold>): set<nat> {
    if bonus.Some? then {bonus.value.paymentId} else {}
  }

  // ----------------------------------------------------------- groups of effects

  lemma RunBonusRefund(c: Cursor, ctx: Context, stayId: Id) returns (d: Cursor)
    requires Audited(c.books)
    requires ctx.bonus.Some? ==>
      && Open(c.books, ctx.bonus.value.paymentId, true)
      && c.books.payments[ctx.bonus.value.paymentId].amount == ctx.bonus.value.amount
      && c.books.payments[ctx.bonus.value.paymentId].payer == ctx.sender
    ensures Run(c, ctx, RefundFinalizationBonus(ctx, ctx.bonus, stayId)) == Ok(d)
    ensures Audited(d.books)
    ensures ctx.bonus.None? ==> d == c
    ensures ctx.bonus.Some? ==>
      var p := ctx.bonus.value.paymentId;
      && d.books.payments == c.books.payments[p := c.books.payments[p].(verdict := Refunded)]
      && d.books.keys == c.books.keys + {PaymentKey(p, GivenBack)}
      && d.books.idem == c.books.idem && d.books.timers == c.books.timers && d.books.chain == c.books.chain
  {
    if ctx.bonus.None? {
      d := c;
    } else {
      d := RunResolve(c, ctx, ctx.bonus.value.paymentId, Refunded, FinalizationBonusRefunded, StayRef(stayId),
                      ctx.sender, ctx.bonus.value.amount);
    }
  }

  function LegFailure(l: Leg, bonus: Option<BonusHold>): Moves {
    Moves({l.carrierBondId}, {l.paymentId, l.arrivalBondId} + BonusId(bonus), {}, [], {})
  }

  /** The carrier failed: bond slashed, everything else given back. */
  lemma FailedLegRuns(c: Cursor, ctx: Context, l: Leg) returns (d: Cursor)
    requires Audited(c.books) && LegHolds(c.books, ctx, l, true)
    ensures Run(c, ctx, FailedLeg(ctx, l)) == Ok(d)
    ensures Audited(d.books)
    ensures Moved(c.books, d.books, LegFailure(l, ctx.bonus))
    ensures d.books.idem == c.books.idem && d.books.timers == c.books.timers
  {
    hide Audited, Run;
    var c3 := RunThree(c, ctx,
      Resolution(l.carrierBondId, Released, CarrierBondSlashed, LegRef(l.id), ctx.sender, ctx.bond),
      Resolution(l.paymentId, Refunded, LegPaymentRefunded, LegRef(l.id), ctx.sender, LegHoldAmount(l)),
      Resolution(l.arrivalBondId, Refunded, HubBondRefunded, StayRef(l.arrivalStay), l.toUser, ctx.bond));
    d := RunBonusRefund(c3, ctx, l.arrivalStay);
    RunConcat(c, ctx, SlashCarrierBond(ctx, l) + RefundLegPayment(ctx, l) + RefundArrivalBond(ctx, l),
              RefundFinalizationBonus(ctx, ctx.bonus, l.arrivalStay));
  }

  function LegUnwound(l: Leg, bonus: Option<BonusHold>): Moves {
    Moves({}, {l.carrierBondId, l.paymentId, l.arrivalBondId} + BonusId(bonus), {}, [], {})
  }

  /** The parcel came back: nobody collects. */
  lemma ReturnedLegRuns(c: Cursor, ctx: Context, l: Leg) returns (d: Cursor)
    requires Audited(c.books) && LegHolds(c.books, ctx, l, true)
    ensures Run(c, ctx, RefundLegPayment(ctx, l) + RefundCarrierBond(ctx, l) + RefundArrivalBond(ctx, l)
                        + RefundFinalizationBonus(ctx, ctx.bonus, l.arrivalStay)) == Ok(d)
    ensures Audited(d.books)
    ensures Moved(c.books, d.books, LegUnwound(l, ctx.bonus))
    ensures d.books.idem == c.books.idem && d.books.timers == c.books.timers
  {
    hide Audited, Run;
    var c3 := RunThree(c, ctx,
      Resolution(l.paymentId, Refunded, LegPaymentRefunded, LegRef(l.id), ctx.sender, LegHoldAmount(l)),
      Resolution(l.carrierBondId, Refunded, CarrierBondRefunded, LegRef(l.id), l.carrier, ctx.bond),
      Resolution(l.arrivalBondId, Refunded, HubBondRefunded, StayRef(l.arrivalStay), l.toUser, ctx.bond));
    d := RunBonusRefund(c3, ctx, l.arrivalStay);
    RunConcat(c, ctx, RefundLegPayment(ctx, l) + RefundCarrierBond(ctx, l) + RefundArrivalBond(ctx, l),
              RefundFinalizationBonus(ctx, ctx.bonus, l.arrivalStay));
  }

  /** A leg that never got booked: its holds are dropped without entries. */
  lemma PendingLegRuns(c: Cursor, ctx: Context, l: Leg) returns (d: Cursor)
    requires Audited(c.books) && LegHolds(c.books, ctx, l, false)
    ensures Run(c, ctx, RefundPendingLegHolds(l, ctx.bonus)) == Ok(d)
    ensures Audited(d.books)
    ensures Moved(c.books, d.books, LegUnwound(l, ctx.bonus))
    ensures d.books.idem == c.books.idem && d.books.timers == c.books.timers && d.books.keys == c.books.keys
  {
    hide Audited, Run;
    var c1 := RunDrop(c, ctx, l.paymentId);
    var c2 := RunDrop(c1, ctx, l.carrierBondId);
    RunConcat(c, ctx, [RefundPayment(l.paymentId)], [RefundPayment(l.carrierBondId)]);
    d := RunDrop(c2, ctx, l.arrivalBondId);
    RunConcat(c, ctx, [RefundPayment(l.paymentId)] + [RefundPayment(l.carrierBondId)], [RefundPayment(l.arrivalBondId)]);
    var three := [RefundPayment(l.paymentId), RefundPayment(l.carrierBondId), RefundPayment(l.arrivalBondId)];
    assert [RefundPayment(l.paymentId)] + [RefundPayment(l.carrierBondId)] + [RefundPayment(l.arrivalBondId)] == three;
    if ctx.bonus.Some? {
      var c3 := d;
      d := RunDrop(c3, ctx, ctx.bonus.value.paymentId);
      RunConcat(c, ctx, three, [RefundPayment(ctx.bonus.value.paymentId)]);
    } else {
      assert three + [] == three;
    }
  }

  // ----------------------------------------------------------- deposit accepted

  function AcceptedHolds(ctx: Context, r: LegRequest, arrivalStay: Id): seq<Payment> {
    [Payment(LegPayment, ctx.sender, r.carrier, r.pricing.gross + r.pricing.bonus, LegRef(r.id), Pending),
     Payment(CustodyBond, r.carrier, ctx.sender, ctx.bond, LegRef(r.id), Pending),
     Payment(CustodyBond, r.toUser, ctx.sender, ctx.bond, StayRef(arrivalStay), Pending)]
    + (if r.hubBonus > 0 then
         [Payment(FinalizationBonus, ctx.sender, r.toUser, r.hubBonus, StayRef(arrivalStay), Pending)]
       else [])
  }

  function CreationsFor(ctx: Context, r: LegRequest, arrivalStay: Id): seq<Effect> {
    [CreatePayment(LegPayment, ctx.sender, r.carrier, r.pricing.gross + r.pricing.bonus, LegRef(r.id)),
     CreatePayment(CustodyBond, r.carrier, ctx.sender, ctx.bond, LegRef(r.id)),
     CreatePayment(CustodyBond, r.toUser, ctx.sender, ctx.bond, StayRef(arrivalStay))]
    + (if r.hubBonus > 0 then
         [CreatePayment(FinalizationBonus, ctx.sender, r.toUser, r.hubBonus, StayRef(arrivalStay))]
       else [])
  }

  predicate SelfPaying(ctx: Context, r: LegRequest) {
    r.carrier == ctx.sender || r.toUser == ctx.sender
  }

  lemma AcceptRuns(c: Cursor, ctx: Context, r: LegRequest, arrivalStay: Id) returns (d: Cursor)
    requires Audited(c.books) && PricingConsistent(r.pricing) && 0 < ctx.bond
    requires forall k <- [(LegPayment, LegRef(r.id)), (CustodyBond, LegRef(r.id)), (CustodyBond, StayRef(arrivalStay)),
                          (FinalizationBonus, StayRef(arrivalStay))] :: k !in c.books.idem
    ensures SelfPaying(ctx, r) ==> Run(c, ctx, CreationsFor(ctx, r, arrivalStay)) == Err(EscrowRefused)
    ensures !SelfPaying(ctx, r) ==>
      var n := |c.books.payments|;
      && Run(c, ctx, CreationsFor(ctx, r, arrivalStay)) == Ok(d) && Audited(d.books)
      && d.books.payments == c.books.payments + AcceptedHolds(ctx, r, arrivalStay)
      && d.books.keys == c.books.keys && d.books.timers == c.books.timers
      && d.books.idem == IdemAfterAccept(c.books.idem, n, r, arrivalStay)
  {
    hide Audited, Run;
    var keys := [(LegPayment, LegRef(r.id)), (CustodyBond, LegRef(r.id)), (CustodyBond, StayRef(arrivalStay)),
                 (FinalizationBonus, StayRef(arrivalStay))];
    assert keys[0] !in c.books.idem && keys[1] !in c.books.idem && keys[2] !in c.books.idem && keys[3] !in c.books.idem;
    var es := CreationsFor(ctx, r, arrivalStay);
    d := c;
    if r.carrier == ctx.sender {
      RunRefused(c, ctx, LegPayment, ctx.sender, r.carrier, r.pricing.gross + r.pricing.bonus, LegRef(r.id), es[1..]);
      assert [es[0]] + es[1..] == es;
    } else {
      var c1 := RunCreate(c, ctx, LegPayment, ctx.sender, r.carrier, r.pricing.gross + r.pricing.bonus, LegRef(r.id));
      var c2 := RunCreate(c1, ctx, CustodyBond, r.carrier, ctx.sender, ctx.bond, LegRef(r.id));
      RunConcat(c, ctx, [es[0]], [es[1]]);
      if r.toUser == ctx.sender {
        RunRefused(c2, ctx, CustodyBond, r.toUser, ctx.sender, ctx.bond, StayRef(arrivalStay), es[3..]);
        RunConcat(c, ctx, [es[0]] + [es[1]], [es[2]] + es[3..]);
        assert [es[0]] + [es[1]] + ([es[2]] + es[3..]) == es;
      } else {
        var c3 := RunCreate(c2, ctx, CustodyBond, r.toUser, ctx.sender, ctx.bond, StayRef(arrivalStay));
        RunConcat(c, ctx, [es[0]] + [es[1]], [es[2]]);
        d := c3;
        if r.hubBonus > 0 {
          d := RunCreate(c3, ctx, FinalizationBonus, ctx.sender, r.toUser, r.hubBonus, StayRef(arrivalStay));
          RunConcat(c, ctx, [es[0]] + [es[1]] + [es[2]], [es[3]]);
          assert [es[0]] + [es[1]] + [es[2]] + [es[3]] == es;
        } else {
          assert [es[0]] + [es[1]] + [es[2]] == es;
        }
      }
    }
  }

  function IdemAfterAccept(idem: map<(Purpose, Ref), nat>, n: nat, r: LegRequest, arrivalStay: Id): map<(Purpose, Ref), nat> {
    var three := idem[(LegPayment, LegRef(r.id)) := n][(CustodyBond, LegRef(r.id)) := n + 1]
                     [(CustodyBond, StayRef(arrivalStay)) := n + 2];
    if r.hubBonus > 0 then three[(FinalizationBonus, StayRef(arrivalStay)) := n + 3] else three
  }

  function AcceptedLeg(n: nat, r: LegRequest, arrivalStay: Id, deadline: Time): Leg {
    Leg(r.id, r.carrier, r.fromHub, r.fromUser, r.toHub, r.toUser, arrivalStay, r.pricing,
        n, n + 1, n + 2, deadline, None, None)
  }

  lemma AcceptInv(net: Network, w: World, w': World, r: LegRequest, arrivalStay: Id, deadline: Time)
    requires Inv(net, w) && w.state == AtHub && w.request == Some(r) && Audited(w'.books)
    requires StayRef(arrivalStay) !in w.minted
    requires var n := |w.books.payments|; var b := w'.books;
      && b.payments == w.books.payments + AcceptedHolds(ContextOf(net, w), r, arrivalStay)
      && b.keys == w.books.keys
      && b.idem == IdemAfterAccept(w.books.idem, n, r, arrivalStay)
      && w' == w.(request := None, leg := Some(AcceptedLeg(n, r, arrivalStay, deadline)),
                  bonus := if r.hubBonus > 0 then Some(BonusHold(n + 3, r.hubBonus)) else None,
                  pool := w'.pool, minted := w.minted + {StayRef(arrivalStay)}, books := b)
      && b.timers == ExpectedTimers(w')
      && (forall k <- w.books.keys :: k.PaymentKey? ==> k.payment < n)
    ensures Inv(net, w')
  {
    hide Audited;
  }

  lemma AcceptCommits(net: Network, w: World, cmd: Command, r: LegRequest, b: Books)
    requires EventOf(cmd).DepositAccept? && cmd.Handle? && w.request == Some(r)
    requires Transition(w.state, EventOf(cmd), ContextOf(net, w)).Accept?
    requires b.idem == IdemAfterAccept(w.books.idem, |w.books.payments|, r, EventOf(cmd).arrivalStay)
    ensures Wanted(w, EventOf(cmd)) <= b.idem.Keys
    ensures var n, e := |w.books.payments|, EventOf(cmd);
      Commit(net, w, cmd, w.state, b) ==
      w.(request := None, leg := Some(AcceptedLeg(n, r, e.arrivalStay, e.fundingDeadline)),
         bonus := if r.hubBonus > 0 then Some(BonusHold(n + 3, r.hubBonus)) else None,
         pool := w.pool, minted := w.minted + {StayRef(e.arrivalStay)}, books := b)
  {
  }

  lemma KeysBounded(b: Books)
    requires Audited(b)
    ensures forall k <- b.keys :: k.PaymentKey? ==> k.payment < |b.payments|
  {}

  function AcceptTail(r: LegRequest, fundingDeadline: Time): seq<Effect> {
    [Unschedule(DepositResponse, r.id), Schedule(LegFundingWindow, r.id, fundingDeadline),
     Note(LegAccepted, Some(r.toUser), Some(r.id), None)]
  }

  /** Everything deposit_accept does to the books. */
  lemma AcceptBooks(c: Cursor, ctx: Context, r: LegRequest, arrivalStay: Id, fundingDeadline: Time) returns (f: Cursor)
    requires Audited(c.books) && PricingConsistent(r.pricing) && 0 < ctx.bond
    requires forall k <- [(LegPayment, LegRef(r.id)), (CustodyBond, LegRef(r.id)), (CustodyBond, StayRef(arrivalStay)),
                          (FinalizationBonus, StayRef(arrivalStay))] :: k !in c.books.idem
    ensures SelfPaying(ctx, r) ==>
      Run(c, ctx, CreationsFor(ctx, r, arrivalStay) + AcceptTail(r, fundingDeadline)) == Err(EscrowRefused)
    ensures !SelfPaying(ctx, r) ==>
      && Run(c, ctx, CreationsFor(ctx, r, arrivalStay) + AcceptTail(r, fundingDeadline)) == Ok(f) && Audited(f.books)
      && f.books.payments == c.books.payments + AcceptedHolds(ctx, r, arrivalStay)
      && f.books.keys == c.books.keys
      && f.books.timers == (c.books.timers - {TimerKey(DepositResponse, r.id)})[TimerKey(LegFundingWindow, r.id) := fundingDeadline]
      && f.books.idem == IdemAfterAccept(c.books.idem, |c.books.payments|, r, arrivalStay)
  {
    hide Audited, Run, CreationsFor, IdemAfterAccept, AcceptedHolds;
    var tail := AcceptTail(r, fundingDeadline);
    var d := AcceptRuns(c, ctx, r, arrivalStay);
    RunConcat(c, ctx, CreationsFor(ctx, r, arrivalStay), tail);
    f := d;
    if !SelfPaying(ctx, r) {
      f := RunTail(d, ctx, tail);
    }
  }

  lemma AcceptEffects(s: State, e: Event, ctx: Context)
    requires e.DepositAccept? && OnDepositAccept(s, e, ctx).Accept?
    ensures s == AtHub && ctx.request.Some? && PricingConsistent(ctx.request.value.pricing)
    ensures OnDepositAccept(s, e, ctx) ==
            Accept(AtHub, CreationsFor(ctx, ctx.request.value, e.arrivalStay)
                          + AcceptTail(ctx.request.value, e.fundingDeadline))
  {}

  lemma AcceptRefsFree(net: Network, w: World, r: LegRequest, arrivalStay: Id)
    requires Inv(net, w) && w.request == Some(r) && StayRef(arrivalStay) !in w.minted
    ensures forall k <- [(LegPayment, LegRef(r.id)), (CustodyBond, LegRef(r.id)), (CustodyBond, StayRef(arrivalStay)),
                         (FinalizationBonus, StayRef(arrivalStay))] :: k !in w.books.idem
  {
    hide Audited, OnlyLivePending, LegOk, BonusOk, ClaimOk, StayOk;
  }

  lemma DepositAcceptKeeps(net: Network, w: World, cmd: Command)
    requires Inv(net, w) && Issued(w, cmd) && EventOf(cmd).DepositAccept?
    ensures Kept(net, Execute(net, w, cmd))
  {
    hide Audited, Run, OnlyLivePending, LegOk, BonusOk, ClaimOk, StayOk, Wanted, Commit, IdemAfterAccept, AcceptedHolds,
      RefsMinted, RequestOk, OnDepositAccept, CreationsFor, AcceptTail;
    var e, ctx := EventOf(cmd), ContextOf(net, w);
    var outcome := OnDepositAccept(w.state, e, ctx);
    if outcome.Accept? {
      AcceptEffects(w.state, e, ctx);
      if StayRef(e.arrivalStay) in w.minted {
        assert StayRef(e.arrivalStay) in MintedBy(e) * w.minted;
      } else {
        var c, r := Cursor(w.books, None), w.request.value;
        AcceptRefsFree(net, w, r, e.arrivalStay);
        var f := AcceptBooks(c, ctx, r, e.arrivalStay, e.fundingDeadline);
        if !SelfPaying(ctx, r) {
          AcceptCommits(net, w, cmd, r, f.books);
          var w' := Execute(net, w, cmd).value;
          assert w'.books.timers == ExpectedTimers(w');
          KeysBounded(w.books);
          AcceptInv(net, w, w', r, e.arrivalStay, e.fundingDeadline);
        }
      }
    }
  }

  // ----------------------------------------------------------- funded, or not

  function FundedHolds(l: Leg, bonus: Option<BonusHold>): Moves {
    Moves({}, {}, {l.paymentId, l.carrierBondId, l.arrivalBondId} + BonusId(bonus), [], {})
  }

  function FundedEffects(ctx: Context, l: Leg): seq<Effect> {
    [HeldEntry(LegPaymentHeld, LegRef(l.id), ctx.sender, LegHoldAmount(l)),
     HeldEntry(CarrierBondHeld, LegRef(l.id), l.carrier, ctx.bond),
     HeldEntry(HubBondHeld, StayRef(l.arrivalStay), l.toUser, ctx.bond)]
    + (if ctx.bonus.Some? then
         [HeldEntry(FinalizationBonusHeld, StayRef(l.arrivalStay), ctx.sender, ctx.bonus.value.amount)]
       else [])
  }

  function FundedTail(l: Leg, s: HubStay, deadline: Time): seq<Effect> {
    [Unschedule(LegFundingWindow, l.id), Unschedule(Storage, s.id),
     Schedule(PickupWindow, l.id, deadline), Note(Funded, None, Some(l.id), None)]
  }

  lemma FundedTailRuns(c: Cursor, ctx: Context, l: Leg, s: HubStay, deadline: Time) returns (d: Cursor)
    requires Audited(c.books)
    ensures Run(c, ctx, FundedTail(l, s, deadline)) == Ok(d) && Audited(d.books)
    ensures d.books == c.books.(timers := (c.books.timers - {TimerKey(LegFundingWindow, l.id)} - {TimerKey(Storage, s.id)})
                                          [TimerKey(PickupWindow, l.id) := deadline],
                                chain := d.books.chain)
  {
    hide Audited, Run;
    d := RunTail(c, ctx, FundedTail(l, s, deadline));
  }

  lemma FundedIs(s: State, e: Event, ctx: Context)
    requires e.LegFunded? && OnLegFunded(s, e, ctx).Accept?
    ensures s == AtHub && ctx.leg.Some? && ctx.stay.Some?
    ensures OnLegFunded(s, e, ctx) ==
            Accept(LegBooked, FundedEffects(ctx, ctx.leg.value) + FundedTail(ctx.leg.value, ctx.stay.value, e.pickupDeadline))
  {}

  /** leg_funded recognises every hold of the funding window, by the keys of
      payments created earlier. */
  lemma FundedRuns(c: Cursor, ctx: Context, l: Leg) returns (d: Cursor)
    requires Audited(c.books) && LegHolds(c.books, ctx, l, false) && ctx.leg == Some(l) && c.prev.None?
    ensures Run(c, ctx, FundedEffects(ctx, l)) == Ok(d)
    ensures Audited(d.books)
    ensures Moved(c.books, d.books, FundedHolds(l, ctx.bonus))
    ensures d.books.idem == c.books.idem && d.books.timers == c.books.timers
  {
    hide Audited, Run;
    var e1 := HeldEntry(LegPaymentHeld, LegRef(l.id), ctx.sender, LegHoldAmount(l));
    var e2 := HeldEntry(CarrierBondHeld, LegRef(l.id), l.carrier, ctx.bond);
    var e3 := HeldEntry(HubBondHeld, StayRef(l.arrivalStay), l.toUser, ctx.bond);
    var c1 := RunHeld(c, ctx, l.paymentId, LegPaymentHeld, LegRef(l.id), ctx.sender, LegHoldAmount(l));
    var c2 := RunHeld(c1, ctx, l.carrierBondId, CarrierBondHeld, LegRef(l.id), l.carrier, ctx.bond);
    RunConcat(c, ctx, [e1], [e2]);
    d := RunHeld(c2, ctx, l.arrivalBondId, HubBondHeld, StayRef(l.arrivalStay), l.toUser, ctx.bond);
    RunConcat(c, ctx, [e1] + [e2], [e3]);
    assert [e1] + [e2] + [e3] == [e1, e2, e3];
    if ctx.bonus.Some? {
      var c3 := d;
      d := RunHeld(c3, ctx, ctx.bonus.value.paymentId, FinalizationBonusHeld, StayRef(l.arrivalStay), ctx.sender,
                   ctx.bonus.value.amount);
      RunConcat(c, ctx, [e1, e2, e3],
                [HeldEntry(FinalizationBonusHeld, StayRef(l.arrivalStay), ctx.sender, ctx.bonus.value.amount)]);
    } else {
      assert [e1, e2, e3] + [] == [e1, e2, e3];
    }
  }

  lemma FundedInv(net: Network, w: World, w': World, deadline: Time)
    requires Inv(net, w) && w.state == AtHub && w.leg.Some? && Audited(w'.books)
    requires Moved(w.books, w'.books, FundedHolds(w.leg.value, w.bonus)) && w'.books.idem == w.books.idem
    requires w' == w.(state := LegBooked, leg := Some(w.leg.value.(pickupDeadline := Some(deadline))),
                      pool := w'.pool, books := w'.books)
    requires w'.books.timers == ExpectedTimers(w')
    ensures Inv(net, w')
  {
    hide Audited;
  }

  lemma LegFundedKeeps(net: Network, w: World, cmd: Command)
    requires Inv(net, w) && Issued(w, cmd) && EventOf(cmd).LegFunded?
    ensures Kept(net, Execute(net, w, cmd))
    ensures Transition(w.state, EventOf(cmd), ContextOf(net, w)).Accept? ==> Execute(net, w, cmd).Ok?
  {
    hide Audited, Run, Moved, LegOk, StayOk, RequestOk, BonusOk, ClaimOk, OnlyLivePending, RefsMinted, LegHolds,
      OnLegFunded, FundedEffects, FundedTail;
    var e, ctx := EventOf(cmd), ContextOf(net, w);
    if OnLegFunded(w.state, e, ctx).Accept? {
      FundedIs(w.state, e, ctx);
      var c, l, s := Cursor(w.books, None), w.leg.value, w.stay.value;
      LegHoldsOpen(net, w);
      var d := FundedRuns(c, ctx, l);
      var tail := FundedTail(l, s, e.pickupDeadline);
      RunConcat(c, ctx, FundedEffects(ctx, l), tail);
      var f := FundedTailRuns(d, ctx, l, s, e.pickupDeadline);
      var w' := Execute(net, w, cmd).value;
      TimersDoNotMove(w.books, d.books, w'.books, FundedHolds(l, w.bonus));
      assert w'.books.timers == ExpectedTimers(w');
      FundedInv(net, w, w', e.pickupDeadline);
    }
  }

  lemma UnwoundInv(net: Network, w: World, w': World)
    requires Inv(net, w) && w.state == AtHub && w.leg.Some? && Audited(w'.books)
    requires Moved(w.books, w'.books, LegUnwound(w.leg.value, w.bonus)) && w'.books.idem == w.books.idem
    requires w' == w.(leg := None, bonus := None, pool := w'.pool, books := w'.books)
    requires w'.books.timers == ExpectedTimers(w')
    ensures Inv(net, w')
  {
    hide Audited;
  }

  lemma LegFundingExpiredKeeps(net: Network, w: World, cmd: Command)
    requires Inv(net, w) && Issued(w, cmd) && EventOf(cmd).LegFundingExpired?
    ensures Kept(net, Execute(net, w, cmd))
    ensures Transition(w.state, EventOf(cmd), ContextOf(net, w)).Accept? ==> Execute(net, w, cmd).Ok?
  {
    hide Audited, Run, Moved, LegOk, StayOk, RequestOk, BonusOk, ClaimOk, OnlyLivePending, RefsMinted, LegHolds,
      RefundPendingLegHolds;
    var e, ctx := EventOf(cmd), ContextOf(net, w);
    var outcome := OnLegFundingExpired(w.state, e, ctx);
    if outcome.Accept? {
      var c, l := Cursor(w.books, None), w.leg.value;
      LegHoldsOpen(net, w);
      var d := PendingLegRuns(c, ctx, l);
      var tail := [Note(Expired, None, Some(l.id), None)];
      RunConcat(c, ctx, RefundPendingLegHolds(l, ctx.bonus), tail);
      var f := RunTail(d, ctx, tail);
      var w' := Execute(net, w, cmd).value;
      OtherWritesKeepAudit(f.books, w'.books);
      TimersDoNotMove(w.books, d.books, w'.books, LegUnwound(l, w.bonus));
      assert w'.books.timers == ExpectedTimers(w');
      UnwoundInv(net, w, w');
    }
  }

  // ----------------------------------------------------------- checked out, or not

  function CheckedOut(s: HubStay, l: Leg): Moves {
    Moves({}, {s.bondId}, {}, [], if l.pricing.depFee == 0 then {} else {FeeKey(LegRef(l.id), DepHubFee)})
  }

  lemma CheckoutRuns(c: Cursor, ctx: Context, s: HubStay, l: Leg) returns (d: Cursor)
    requires Audited(c.books) && FeeKey(LegRef(l.id), DepHubFee) !in c.books.keys
    requires Open(c.books, s.bondId, true) && c.books.payments[s.bondId].payer == s.user
    requires c.books.payments[s.bondId].amount == ctx.bond
    ensures Run(c, ctx, PayNow(DepHubFee, DepHubFeePaid, LegRef(l.id), l.carrier, s.user, l.pricing.depFee)
                        + RefundStayBond(ctx, s)) == Ok(d)
    ensures Audited(d.books)
    ensures Moved(c.books, d.books, CheckedOut(s, l))
    ensures d.books.idem == c.books.idem && d.books.timers == c.books.timers
  {
    hide Audited, Run;
    var c1 := RunFee(c, ctx, DepHubFee, DepHubFeePaid, LegRef(l.id), l.carrier, s.user, l.pricing.depFee);
    d := RunResolve(c1, ctx, s.bondId, Refunded, HubBondRefunded, StayRef(s.id), s.user, ctx.bond);
    RunConcat(c, ctx, PayNow(DepHubFee, DepHubFeePaid, LegRef(l.id), l.carrier, s.user, l.pricing.depFee),
              RefundStayBond(ctx, s));
  }

  lemma CheckoutInv(net: Network, w: World, w': World, deadline: Time)
    requires Inv(net, w) && w.state == LegBooked && Audited(w'.books)
    requires Moved(w.books, w'.books, CheckedOut(w.stay.value, w.leg.value)) && w'.books.idem == w.books.idem
    requires w' == w.(state := InTransit, stay := None, leg := Some(w.leg.value.(transitDeadline := Some(deadline))),
                      pool := w'.pool, books := w'.books)
    requires w'.books.timers == ExpectedTimers(w')
    ensures Inv(net, w')
  {
    hide Audited;
  }

  lemma StayBondOpen(net: Network, w: World)
    requires Inv(net, w) && w.stay.Some?
    ensures var s := w.stay.value;
      Open(w.books, s.bondId, true) && w.books.payments[s.bondId].payer == s.user && w.books.payments[s.bondId].amount == w.bond
    ensures w.leg.Some? ==> FeeKey(LegRef(w.leg.value.id), DepHubFee) !in w.books.keys
  {
    hide Audited, OnlyLivePending, RefsMinted;
  }

  lemma PickupCheckoutKeeps(net: Network, w: World, cmd: Command)
    requires Inv(net, w) && Issued(w, cmd) && EventOf(cmd).PickupCheckout?
    ensures Kept(net, Execute(net, w, cmd))
    ensures Transition(w.state, EventOf(cmd), ContextOf(net, w)).Accept? ==> Execute(net, w, cmd).Ok?
  {
    hide Audited, Run, Moved, LegOk, StayOk, RequestOk, BonusOk, ClaimOk, OnlyLivePending, RefsMinted, PayNow;
    var e, ctx := EventOf(cmd), ContextOf(net, w);
    var outcome := OnPickupCheckout(w.state, e, ctx);
    if outcome.Accept? {
      var c, l, s := Cursor(w.books, None), w.leg.value, w.stay.value;
      StayBondOpen(net, w);
      var d := CheckoutRuns(c, ctx, s, l);
      var tail := [Unschedule(PickupWindow, l.id), Schedule(TransitWindow, l.id, e.transitDeadline),
                   Note(HubCheckout, Some(l.carrier), Some(l.id), Some(s.id))];
      RunConcat(c, ctx, PayNow(DepHubFee, DepHubFeePaid, LegRef(l.id), l.carrier, s.user, l.pricing.depFee)
                        + RefundStayBond(ctx, s), tail);
      var f := RunTail(d, ctx, tail);
      var w' := Execute(net, w, cmd).value;
      TimersDoNotMove(w.books, d.books, w'.books, CheckedOut(s, l));
      assert w'.books.timers == ExpectedTimers(w');
      CheckoutInv(net, w, w', e.transitDeadline);
    }
  }

  lemma FailedInv(net: Network, w: World, w': World)
    requires Inv(net, w) && w.leg.Some? && Audited(w'.books)
    requires Moved(w.books, w'.books, LegFailure(w.leg.value, w.bonus)) && w'.books.idem == w.books.idem
    requires (w.state == LegBooked && w'.state == AtHub) || (w.state == InTransit && w'.state == Lost)
    requires w' == w.(state := w'.state, leg := None, bonus := None, pool := w'.pool, books := w'.books)
    requires w'.books.timers == ExpectedTimers(w')
    ensures Inv(net, w')
  {
    hide Audited;
  }

  function FailedLeg(ctx: Context, l: Leg): seq<Effect> {
    SlashCarrierBond(ctx, l) + RefundLegPayment(ctx, l) + RefundArrivalBond(ctx, l)
    + RefundFinalizationBonus(ctx, ctx.bonus, l.arrivalStay)
  }

  lemma PickupTimeoutIs(s: State, e: Event, ctx: Context)
    requires e.PickupTimeout? && OnPickupTimeout(s, e, ctx).Accept?
    ensures s == LegBooked && ctx.stay.Some? && ctx.leg.Some?
    ensures var stay, l := ctx.stay.value, ctx.leg.value;
      OnPickupTimeout(s, e, ctx) ==
      Accept(AtHub, FailedLeg(ctx, l) + [Schedule(Storage, stay.id, stay.storageDeadline), Note(Expired, None, Some(l.id), None)])
  {
    hide SlashCarrierBond, RefundLegPayment, RefundArrivalBond, RefundFinalizationBonus;
  }

  lemma TransitTimeoutIs(s: State, e: Event, ctx: Context)
    requires e.TransitTimeout? && OnTransitTimeout(s, e, ctx).Accept?
    ensures s == InTransit && ctx.leg.Some?
    ensures OnTransitTimeout(s, e, ctx) ==
            Accept(Lost, FailedLeg(ctx, ctx.leg.value) + [Note(Expired, None, Some(ctx.leg.value.id), None)])
  {
    hide SlashCarrierBond, RefundLegPayment, RefundArrivalBond, RefundFinalizationBonus;
  }

  /** Executing a carrier's failure: the leg and its bonus hold are gone. */
  lemma FailureExecutes(net: Network, w: World, cmd: Command, next: State, es: seq<Effect>, f: Cursor)
    requires EventOf(cmd).PickupTimeout? || EventOf(cmd).TransitTimeout?
    requires Transition(w.state, EventOf(cmd), ContextOf(net, w)) == Accept(next, es)
    requires Run(Cursor(w.books, None), ContextOf(net, w), es) == Ok(f)
    ensures Execute(net, w, cmd) == Ok(w.(state := next, leg := None, bonus := None, books := Consume(f.books, cmd)))
  {
    hide Run, Transition;
    assert w.minted + {} == w.minted;
  }

  lemma PickupTimeoutKeeps(net: Network, w: World, cmd: Command)
    requires Inv(net, w) && Issued(w, cmd) && EventOf(cmd).PickupTimeout?
    ensures Kept(net, Execute(net, w, cmd))
    ensures Transition(w.state, EventOf(cmd), ContextOf(net, w)).Accept? ==> Execute(net, w, cmd).Ok?
  {
    hide Inv, Audited, Run, Moved, LegHolds, OnPickupTimeout, FailedLeg, Execute;
    var e, ctx := EventOf(cmd), ContextOf(net, w);
    Parts(net, w);
    if OnPickupTimeout(w.state, e, ctx).Accept? {
      PickupTimeoutIs(w.state, e, ctx);
      var c, l, s := Cursor(w.books, None), w.leg.value, w.stay.value;
      LegHoldsOpen(net, w);
      var d := FailedLegRuns(c, ctx, l);
      var tail := [Schedule(Storage, s.id, s.storageDeadline), Note(Expired, None, Some(l.id), None)];
      RunConcat(c, ctx, FailedLeg(ctx, l), tail);
      var f := RunTail(d, ctx, tail);
      FailureExecutes(net, w, cmd, AtHub, FailedLeg(ctx, l) + tail, f);
      var w' := Execute(net, w, cmd).value;
      OtherWritesKeepAudit(f.books, w'.books);
      TimersDoNotMove(w.books, d.books, w'.books, LegFailure(l, w.bonus));
      assert w'.books.timers == ExpectedTimers(w');
      FailedInv(net, w, w');
    } else {
      RejectedIsKept(net, w, cmd);
    }
  }

  lemma TransitTimeoutKeeps(net: Network, w: World, cmd: Command)
    requires Inv(net, w) && Issued(w, cmd) && EventOf(cmd).TransitTimeout?
    ensures Kept(net, Execute(net, w, cmd))
    ensures Transition(w.state, EventOf(cmd), ContextOf(net, w)).Accept? ==> Execute(net, w, cmd).Ok?
  {
    hide Inv, Audited, Run, Moved, LegHolds, OnTransitTimeout, FailedLeg, Execute;
    var e, ctx := EventOf(cmd), ContextOf(net, w);
    Parts(net, w);
    if OnTransitTimeout(w.state, e, ctx).Accept? {
      TransitTimeoutIs(w.state, e, ctx);
      var c, l := Cursor(w.books, None), w.leg.value;
      LegHoldsOpen(net, w);
      var d := FailedLegRuns(c, ctx, l);
      var tail := [Note(Expired, None, Some(l.id), None)];
      RunConcat(c, ctx, FailedLeg(ctx, l), tail);
      var f := RunTail(d, ctx, tail);
      FailureExecutes(net, w, cmd, Lost, FailedLeg(ctx, l) + tail, f);
      var w' := Execute(net, w, cmd).value;
      OtherWritesKeepAudit(f.books, w'.books);
      TimersDoNotMove(w.books, d.books, w'.books, LegFailure(l, w.bonus));
      assert w'.books.timers == ExpectedTimers(w');
      FailedInv(net, w, w');
    } else {
      RejectedIsKept(net, w, cmd);
    }
  }

  // ----------------------------------------------------------- checked in, or returned

  function CheckedIn(l: Leg): Moves {
    Moves({l.paymentId}, {l.carrierBondId}, {}, [], if l.pricing.arrFee == 0 then {} else {FeeKey(LegRef(l.id), ArrHubFee)})
  }

  function CheckinEffects(ctx: Context, l: Leg): seq<Effect> {
    PayNow(ArrHubFee, ArrHubFeePaid, LegRef(l.id), l.carrier, l.toUser, l.pricing.arrFee)
    + [ReleasePayment(l.paymentId), SettledEntry(LegPaymentReleased, LegRef(l.id), l.carrier, LegHoldAmount(l))]
    + RefundCarrierBond(ctx, l)
  }

  lemma CheckinRuns(c: Cursor, ctx: Context, l: Leg) returns (d: Cursor)
    requires Audited(c.books) && LegHolds(c.books, ctx, l, true) && FeeKey(LegRef(l.id), ArrHubFee) !in c.books.keys
    ensures Run(c, ctx, CheckinEffects(ctx, l)) == Ok(d)
    ensures Audited(d.books)
    ensures Moved(c.books, d.books, CheckedIn(l))
    ensures d.books.idem == c.books.idem && d.books.timers == c.books.timers
  {
    hide Audited, Run;
    var fee := PayNow(ArrHubFee, ArrHubFeePaid, LegRef(l.id), l.carrier, l.toUser, l.pricing.arrFee);
    var c1 := RunFee(c, ctx, ArrHubFee, ArrHubFeePaid, LegRef(l.id), l.carrier, l.toUser, l.pricing.arrFee);
    var q := Resolution(l.paymentId, Released, LegPaymentReleased, LegRef(l.id), l.carrier, LegHoldAmount(l));
    var r := Resolution(l.carrierBondId, Refunded, CarrierBondRefunded, LegRef(l.id), l.carrier, ctx.bond);
    d := RunTwo(c1, ctx, q, r);
    RunConcat(c, ctx, fee, PairOf(q) + PairOf(r));
    assert fee + (PairOf(q) + PairOf(r)) == CheckinEffects(ctx, l);
  }

  lemma CheckinInv(net: Network, w: World, w': World, deadline: Time)
    requires Inv(net, w) && w.state == InTransit && w.leg.Some? && Audited(w'.books)
    requires Moved(w.books, w'.books, CheckedIn(w.leg.value)) && w'.books.idem == w.books.idem
    requires w'.state == if w.leg.value.toHub == w.destHub then AwaitingPickup else AtHub
    requires var l := w.leg.value;
      w' == w.(state := w'.state, leg := None,
               stay := Some(HubStay(l.arrivalStay, l.toHub, l.toUser, l.arrivalBondId, deadline)),
               pool := w'.pool, books := w'.books)
    requires w'.books.timers == ExpectedTimers(w')
    ensures Inv(net, w')
  {
    hide Audited;
  }

  function CheckinTail(l: Leg, final: bool, deadline: Time): seq<Effect> {
    [Unschedule(TransitWindow, l.id), Schedule(Storage, l.arrivalStay, deadline),
     Note(if final then ArrivedDestination else HubCheckinIntermediate, Some(l.toUser), Some(l.id), Some(l.arrivalStay))]
    + (if final then [QueueEmail(ToRecipient)] else [QueueEmail(ToSender), QueueEmail(ToRecipient)])
  }

  lemma CheckinTailRuns(c: Cursor, ctx: Context, l: Leg, final: bool, deadline: Time) returns (d: Cursor)
    requires Audited(c.books)
    ensures Run(c, ctx, CheckinTail(l, final, deadline)) == Ok(d) && Audited(d.books)
    ensures d.books == c.books.(timers := (c.books.timers - {TimerKey(TransitWindow, l.id)})
                                          [TimerKey(Storage, l.arrivalStay) := deadline],
                                chain := d.books.chain)
  {
    hide Audited, Run;
    d := RunTail(c, ctx, CheckinTail(l, final, deadline));
  }

  lemma CheckinIs(s: State, e: Event, ctx: Context)
    requires e.LegCheckin? && OnLegCheckin(s, e, ctx).Accept?
    ensures s == InTransit && ctx.leg.Some? && ctx.leg.value.toHub == e.hub
    ensures var l := ctx.leg.value; var final := e.hub == ctx.destHub;
      OnLegCheckin(s, e, ctx) ==
      Accept(if final then AwaitingPickup else AtHub, CheckinEffects(ctx, l) + CheckinTail(l, final, e.storageDeadline))
  {
    var l := ctx.leg.value;
    var final := e.hub == ctx.destHub;
    assert CheckinEffects(ctx, l) + CheckinTail(l, final, e.storageDeadline) == OnLegCheckin(s, e, ctx).effects;
  }

  lemma ArrivalFeeUnpaid(net: Network, w: World)
    requires Inv(net, w) && w.leg.Some?
    ensures FeeKey(LegRef(w.leg.value.id), ArrHubFee) !in w.books.keys
  {
    hide Audited, OnlyLivePending, RefsMinted;
  }

  lemma LegCheckinKeeps(net: Network, w: World, cmd: Command)
    requires Inv(net, w) && Issued(w, cmd) && EventOf(cmd).LegCheckin?
    ensures Kept(net, Execute(net, w, cmd))
    ensures Transition(w.state, EventOf(cmd), ContextOf(net, w)).Accept? ==> Execute(net, w, cmd).Ok?
  {
    hide Audited, Run, Moved, LegOk, StayOk, RequestOk, BonusOk, ClaimOk, OnlyLivePending, RefsMinted, LegHolds,
      OnLegCheckin, CheckinEffects, CheckinTail;
    var e, ctx := EventOf(cmd), ContextOf(net, w);
    if OnLegCheckin(w.state, e, ctx).Accept? {
      CheckinIs(w.state, e, ctx);
      var c, l := Cursor(w.books, None), w.leg.value;
      LegHoldsOpen(net, w);
      ArrivalFeeUnpaid(net, w);
      var d := CheckinRuns(c, ctx, l);
      var tail := CheckinTail(l, e.hub == ctx.destHub, e.storageDeadline);
      RunConcat(c, ctx, CheckinEffects(ctx, l), tail);
      var f := CheckinTailRuns(d, ctx, l, e.hub == ctx.destHub, e.storageDeadline);
      var w' := Execute(net, w, cmd).value;
      TimersDoNotMove(w.books, d.books, w'.books, CheckedIn(l));
      assert w'.books.timers == ExpectedTimers(w');
      CheckinInv(net, w, w', e.storageDeadline);
    }
  }

  // ----------------------------------------------------------- returned to the departure hub

  function ReturnedLeg(ctx: Context, l: Leg): seq<Effect> {
    RefundLegPayment(ctx, l) + RefundCarrierBond(ctx, l) + RefundArrivalBond(ctx, l)
    + RefundFinalizationBonus(ctx, ctx.bonus, l.arrivalStay)
  }

  function FreshBond(ctx: Context, l: Leg, returnStay: Id): Payment {
    Payment(CustodyBond, l.fromUser, ctx.sender, ctx.bond, StayRef(returnStay), Pending)
  }

  function Rebonded(n: nat, ctx: Context, l: Leg, returnStay: Id): Moves {
    LegUnwound(l, ctx.bonus).(recognised := {n}, created := [FreshBond(ctx, l, returnStay)])
  }

  function ReturnTail(l: Leg, returnStay: Id, deadline: Time): seq<Effect> {
    [Unschedule(TransitWindow, l.id), Schedule(Storage, returnStay, deadline),
     Note(LegReturned, Some(l.fromUser), Some(l.id), Some(returnStay))]
  }

  function RebondEffects(ctx: Context, l: Leg, returnStay: Id): seq<Effect> {
    [CreatePayment(CustodyBond, l.fromUser, ctx.sender, ctx.bond, StayRef(returnStay)),
     HeldEntry(HubBondHeld, StayRef(returnStay), l.fromUser, ctx.bond)]
  }

  lemma ReturnRuns(c: Cursor, ctx: Context, l: Leg, returnStay: Id) returns (d: Cursor)
    requires Audited(c.books) && LegHolds(c.books, ctx, l, true) && 0 < ctx.bond
    requires (CustodyBond, StayRef(returnStay)) !in c.books.idem
    ensures l.fromUser == ctx.sender ==>
      forall rest :: Run(c, ctx, ReturnedLeg(ctx, l) + (RebondEffects(ctx, l, returnStay) + rest)) == Err(EscrowRefused)
    ensures l.fromUser != ctx.sender ==>
      var n := |c.books.payments|;
      && Run(c, ctx, ReturnedLeg(ctx, l) + RebondEffects(ctx, l, returnStay)) == Ok(d) && Audited(d.books)
      && Moved(c.books, d.books, Rebonded(n, ctx, l, returnStay))
      && d.books.idem == c.books.idem[(CustodyBond, StayRef(returnStay)) := n] && d.books.timers == c.books.timers
  {
    hide Audited, Run;
    var c1 := ReturnedLegRuns(c, ctx, l);
    d := c1;
    if l.fromUser == ctx.sender {
      forall rest
        ensures Run(c, ctx, ReturnedLeg(ctx, l) + (RebondEffects(ctx, l, returnStay) + rest)) == Err(EscrowRefused)
      {
        var two := RebondEffects(ctx, l, returnStay);
        RunConcat(c, ctx, ReturnedLeg(ctx, l), two + rest);
        RunRefused(c1, ctx, CustodyBond, l.fromUser, ctx.sender, ctx.bond, StayRef(returnStay), [two[1]] + rest);
        assert [two[0]] + ([two[1]] + rest) == two + rest;
      }
    } else {
      d := RunCreateHeld(c1, ctx, HubBondHeld, CustodyBond, l.fromUser, ctx.sender, ctx.bond, StayRef(returnStay));
      RunConcat(c, ctx, ReturnedLeg(ctx, l), RebondEffects(ctx, l, returnStay));
    }
  }

  lemma ReturnTailRuns(c: Cursor, ctx: Context, l: Leg, returnStay: Id, deadline: Time) returns (d: Cursor)
    requires Audited(c.books)
    ensures Run(c, ctx, ReturnTail(l, returnStay, deadline)) == Ok(d) && Audited(d.books)
    ensures d.books == c.books.(timers := (c.books.timers - {TimerKey(TransitWindow, l.id)})
                                          [TimerKey(Storage, returnStay) := deadline],
                                chain := d.books.chain)
  {
    hide Audited, Run;
    d := RunTail(c, ctx, ReturnTail(l, returnStay, deadline));
  }

  lemma ReturnIs(s: State, e: Event, ctx: Context)
    requires e.LegReturn? && OnLegReturn(s, e, ctx).Accept?
    ensures s == InTransit && ctx.leg.Some?
    ensures var l := ctx.leg.value;
      OnLegReturn(s, e, ctx) ==
      Accept(AtHub, ReturnedLeg(ctx, l) + RebondEffects(ctx, l, e.returnStay) + ReturnTail(l, e.returnStay, e.storageDeadline))
  {}

  lemma ReturnInv(net: Network, w: World, w': World, returnStay: Id, deadline: Time)
    requires Inv(net, w) && w.state == InTransit && Audited(w'.books) && StayRef(returnStay) !in w.minted
    requires var n, l := |w.books.payments|, w.leg.value;
      && Moved(w.books, w'.books, Rebonded(n, ContextOf(net, w), l, returnStay))
      && w'.books.idem == w.books.idem[(CustodyBond, StayRef(returnStay)) := n]
      && w' == w.(state := AtHub, leg := None, bonus := None,
                  stay := Some(HubStay(returnStay, l.fromHub, l.fromUser, n, deadline)),
                  pool := w'.pool, minted := w.minted + {StayRef(returnStay)}, books := w'.books)
    requires w'.books.timers == ExpectedTimers(w')
    ensures Inv(net, w')
  {
    hide Audited;
  }

  lemma ReturnExecutes(net: Network, w: World, cmd: Command, es: seq<Effect>, f: Cursor)
    requires EventOf(cmd).LegReturn? && w.leg.Some? && StayRef(EventOf(cmd).returnStay) !in w.minted
    requires Transition(w.state, EventOf(cmd), ContextOf(net, w)) == Accept(AtHub, es)
    requires Run(Cursor(w.books, None), ContextOf(net, w), es) == Ok(f)
    requires (CustodyBond, StayRef(EventOf(cmd).returnStay)) in f.books.idem
    ensures var e, l := EventOf(cmd), w.leg.value;
      Execute(net, w, cmd) ==
      Ok(w.(state := AtHub, leg := None, bonus := None,
            stay := Some(HubStay(e.returnStay, l.fromHub, l.fromUser, f.books.idem[(CustodyBond, StayRef(e.returnStay))],
                                 e.storageDeadline)),
            minted := w.minted + {StayRef(e.returnStay)}, books := Consume(f.books, cmd)))
  {
    hide Run, Transition;
    assert MintedBy(EventOf(cmd)) * w.minted == {};
  }

  lemma LegReturnKeeps(net: Network, w: World, cmd: Command)
    requires Inv(net, w) && Issued(w, cmd) && EventOf(cmd).LegReturn?
    ensures Kept(net, Execute(net, w, cmd))
  {
    hide Inv, Audited, Run, Moved, LegHolds, OnLegReturn, ReturnedLeg, RebondEffects, ReturnTail, ExpectedTimers;
    var e, ctx := EventOf(cmd), ContextOf(net, w);
    Parts(net, w);
    if OnLegReturn(w.state, e, ctx).Accept? {
      ReturnIs(w.state, e, ctx);
      if StayRef(e.returnStay) in w.minted {
        assert StayRef(e.returnStay) in MintedBy(e) * w.minted;
      } else {
        LegHoldsOpen(net, w);
        var tail := ReturnTail(w.leg.value, e.returnStay, e.storageDeadline);
        var d := ReturnRuns(Cursor(w.books, None), ctx, w.leg.value, e.returnStay);
        if w.leg.value.fromUser == ctx.sender {
          assert ReturnedLeg(ctx, w.leg.value) + RebondEffects(ctx, w.leg.value, e.returnStay) + tail
              == ReturnedLeg(ctx, w.leg.value) + (RebondEffects(ctx, w.leg.value, e.returnStay) + tail);
        } else {
          ReturnCommits(net, w, cmd, d);
        }
      }
    }
  }

  lemma ReturnCommits(net: Network, w: World, cmd: Command, d: Cursor)
    requires Inv(net, w) && Issued(w, cmd) && EventOf(cmd).LegReturn? && w.state == InTransit && w.leg.Some?
    requires StayRef(EventOf(cmd).returnStay) !in w.minted && OnLegReturn(w.state, EventOf(cmd), ContextOf(net, w)).Accept?
    requires var c, ctx, l, stay, n :=
        Cursor(w.books, None), ContextOf(net, w), w.leg.value, EventOf(cmd).returnStay, |w.books.payments|;
      && Run(c, ctx, ReturnedLeg(ctx, l) + RebondEffects(ctx, l, stay)) == Ok(d) && Audited(d.books)
      && Moved(c.books, d.books, Rebonded(n, ctx, l, stay))
      && d.books.idem == c.books.idem[(CustodyBond, StayRef(stay)) := n] && d.books.timers == c.books.timers
    ensures Kept(net, Execute(net, w, cmd))
  {
    hide Inv, Audited, Run, Moved, OnLegReturn, ReturnedLeg, RebondEffects, ReturnTail, Execute;
    var e, ctx, c, l := EventOf(cmd), ContextOf(net, w), Cursor(w.books, None), w.leg.value;
    Parts(net, w);
    ReturnIs(w.state, e, ctx);
    var tail := ReturnTail(l, e.returnStay, e.storageDeadline);
    RunConcat(c, ctx, ReturnedLeg(ctx, l) + RebondEffects(ctx, l, e.returnStay), tail);
    var f := ReturnTailRuns(d, ctx, l, e.returnStay, e.storageDeadline);
    ReturnExecutes(net, w, cmd, ReturnedLeg(ctx, l) + RebondEffects(ctx, l, e.returnStay) + tail, f);
    var w' := Execute(net, w, cmd).value;
    TimersDoNotMove(w.books, d.books, w'.books, Rebonded(|w.books.payments|, ctx, l, e.returnStay));
    assert w'.books.timers == ExpectedTimers(w');
    ReturnInv(net, w, w', e.returnStay, e.storageDeadline);
  }
}
