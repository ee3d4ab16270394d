/** The recipient's claim: requested, funded or expired, collected. */
module ClaimSteps {
  import opened Economics
  import opened Shipment
  import opened StateMachine
  import opened Books
  import opened Executor
  import opened EffectRuns
  import opened Invariant
  import opened LegSteps

  function HubBonusIds(claim: Claim): set<nat> {
    if claim.hubBonusId.Some? then {claim.hubBonusId.value} else {}
  }

  /** The holds of a claim, as the books see them. */
  ghost predicate ClaimHolds(b: Books, ctx: Context, claim: Claim, hubUser: UserId, recognised: bool) {
    && Open(b, claim.paymentId, recognised)
    && b.payments[claim.paymentId].payer == ctx.sender && b.payments[claim.paymentId].payee == claim.claimant
    && b.payments[claim.paymentId].amount == claim.payment
    && (claim.hubBonusId.Some? ==>
          var p := claim.hubBonusId.value;
          && Open(b, p, recognised) && p != claim.paymentId
          && b.payments[p].payer == ctx.sender && b.payments[p].payee == hubUser && b.payments[p].amount == claim.hubBonus)
  }

  lemma ClaimHoldsOpen(net: Network, w: World)
    requires Inv(net, w) && w.claim.Some?
    ensures w.stay.Some?
    ensures ClaimHolds(w.books, ContextOf(net, w), w.claim.value, w.stay.value.user, w.state == Claimed)
    ensures var s := w.stay.value;
      && s.bondId != w.claim.value.paymentId && Some(s.bondId) != w.claim.value.hubBonusId
  {
    hide Audited, RefsMinted, ExpectedTimers, OnlyLivePending;
  }

  // ----------------------------------------------------------- requested

  function ClaimedHolds(ctx: Context, e: Event, hubUser: UserId): seq<Payment>
    requires e.RecipientClaim?
  {
    [Payment(ClaimPayment, ctx.sender, e.claimant, e.payment, ClaimRef(e.claimId), Pending)]
    + (if e.hubBonus > 0 then [Payment(FinalizationBonus, ctx.sender, hubUser, e.hubBonus, ClaimRef(e.claimId), Pending)]
       else [])
  }

  function ClaimCreations(ctx: Context, e: Event, hubUser: UserId): seq<Effect>
    requires e.RecipientClaim?
  {
    [CreatePayment(ClaimPayment, ctx.sender, e.claimant, e.payment, ClaimRef(e.claimId))]
    + (if e.hubBonus > 0 then [CreatePayment(FinalizationBonus, ctx.sender, hubUser, e.hubBonus, ClaimRef(e.claimId))]
       else [])
  }

  function ClaimTail(e: Event, stayId: Id): seq<Effect>
    requires e.RecipientClaim?
  {
    [Schedule(ClaimFundingWindow, e.claimId, e.fundingDeadline), Note(ClaimRequested, Some(e.claimant), None, Some(stayId))]
  }

  function IdemAfterClaim(idem: map<(Purpose, Ref), nat>, n: nat, e: Event): map<(Purpose, Ref), nat>
    requires e.RecipientClaim?
  {
    var one := idem[(ClaimPayment, ClaimRef(e.claimId)) := n];
    if e.hubBonus > 0 then one[(FinalizationBonus, ClaimRef(e.claimId)) := n + 1] else one
  }

  lemma ClaimRuns(c: Cursor, ctx: Context, e: Event, hubUser: UserId) returns (d: Cursor)
    requires e.RecipientClaim? && 0 < e.payment && e.claimant != ctx.sender && Audited(c.books)
    requires (ClaimPayment, ClaimRef(e.claimId)) !in c.books.idem && (FinalizationBonus, ClaimRef(e.claimId)) !in c.books.idem
    ensures e.hubBonus > 0 && hubUser == ctx.sender ==>
      forall rest :: Run(c, ctx, ClaimCreations(ctx, e, hubUser) + rest) == Err(EscrowRefused)
    ensures !(e.hubBonus > 0 && hubUser == ctx.sender) ==>
      && Run(c, ctx, ClaimCreations(ctx, e, hubUser)) == Ok(d) && Audited(d.books)
      && d.books.payments == c.books.payments + ClaimedHolds(ctx, e, hubUser)
      && d.books.keys == c.books.keys && d.books.timers == c.books.timers
      && d.books.idem == IdemAfterClaim(c.books.idem, |c.books.payments|, e)
  {
    hide Audited, Run;
    var es := ClaimCreations(ctx, e, hubUser);
    d := RunCreate(c, ctx, ClaimPayment, ctx.sender, e.claimant, e.payment, ClaimRef(e.claimId));
    if e.hubBonus > 0 {
      var c1 := d;
      if hubUser == ctx.sender {
        forall rest
          ensures Run(c, ctx, es + rest) == Err(EscrowRefused)
        {
          RunRefused(c1, ctx, FinalizationBonus, ctx.sender, hubUser, e.hubBonus, ClaimRef(e.claimId), rest);
          RunConcat(c, ctx, [es[0]], [es[1]] + rest);
          assert [es[0]] + ([es[1]] + rest) == es + rest;
        }
      } else {
        d := RunCreate(c1, ctx, FinalizationBonus, ctx.sender, hubUser, e.hubBonus, ClaimRef(e.claimId));
        RunConcat(c, ctx, [es[0]], [es[1]]);
        assert [es[0]] + [es[1]] == es;
      }
    } else {
      assert es == [es[0]];
    }
  }

  function RequestedClaim(n: nat, e: Event, stayId: Id): Claim
    requires e.RecipientClaim?
  {
    Claim(e.claimId, e.claimant, stayId, e.payment, e.hubBonus, n,
          if e.hubBonus > 0 then Some(n + 1) else None, e.fundingDeadline)
  }

  lemma ClaimInv(net: Network, w: World, w': World, e: Event)
    requires Inv(net, w) && w.state == AtHub && Audited(w'.books)
    requires e.RecipientClaim? && ClaimRef(e.claimId) !in w.minted && 0 < e.payment && 0 <= e.hubBonus
    requires w.leg.None? && w.request.None? && w.claim.None?
    requires var n, b := |w.books.payments|, w'.books;
      && b.payments == w.books.payments + ClaimedHolds(ContextOf(net, w), e, w.stay.value.user)
      && b.keys == w.books.keys && b.idem == IdemAfterClaim(w.books.idem, n, e)
      && w' == w.(claim := Some(RequestedClaim(n, e, w.stay.value.id)),
                  pool := w'.pool, minted := w.minted + {ClaimRef(e.claimId)}, books := b)
      && b.timers == ExpectedTimers(w')
      && (forall k <- w.books.keys :: k.PaymentKey? ==> k.payment < n)
    ensures Inv(net, w')
  {
    hide Audited;
  }

  lemma ClaimIs(s: State, e: Event, ctx: Context)
    requires e.RecipientClaim? && OnRecipientClaim(s, e, ctx).Accept?
    ensures s == AtHub && ctx.stay.Some? && ctx.leg.None? && ctx.request.None? && ctx.claim.None?
    ensures 0 < e.payment && 0 <= e.hubBonus && e.claimant != ctx.sender
    ensures OnRecipientClaim(s, e, ctx) ==
            Accept(AtHub, ClaimCreations(ctx, e, ctx.stay.value.user) + ClaimTail(e, ctx.stay.value.id))
  {}

  lemma ClaimRefsFree(net: Network, w: World, claimId: Id)
    requires Inv(net, w) && ClaimRef(claimId) !in w.minted
    ensures (ClaimPayment, ClaimRef(claimId)) !in w.books.idem && (FinalizationBonus, ClaimRef(claimId)) !in w.books.idem
  {
    hide Audited, OnlyLivePending;
  }

  lemma ClaimTailRuns(c: Cursor, ctx: Context, e: Event, stayId: Id) returns (d: Cursor)
    requires Audited(c.books) && e.RecipientClaim?
    ensures Run(c, ctx, ClaimTail(e, stayId)) == Ok(d) && Audited(d.books)
    ensures d.books == c.books.(timers := c.books.timers[TimerKey(ClaimFundingWindow, e.claimId) := e.fundingDeadline],
                                chain := d.books.chain)
  {
    hide Audited, Run;
    d := RunTail(c, ctx, ClaimTail(e, stayId));
  }

  lemma RecipientClaimKeeps(net: Network, w: World, cmd: Command)
    requires Inv(net, w) && Issued(w, cmd) && EventOf(cmd).RecipientClaim?
    ensures Kept(net, Execute(net, w, cmd))
    ensures Transition(w.state, EventOf(cmd), ContextOf(net, w)).Accept? && ClaimRef(EventOf(cmd).claimId) !in w.minted
         && !(EventOf(cmd).hubBonus > 0 && w.stay.value.user == w.sender)
        ==> Execute(net, w, cmd).Ok?
  {
    hide Audited, Run, OnlyLivePending, LegOk, BonusOk, ClaimOk, StayOk, RequestOk, RefsMinted,
      OnRecipientClaim, ClaimCreations, ClaimedHolds, ClaimTail;
    var e, ctx := EventOf(cmd), ContextOf(net, w);
    if OnRecipientClaim(w.state, e, ctx).Accept? {
      ClaimIs(w.state, e, ctx);
      if ClaimRef(e.claimId) in w.minted {
        assert ClaimRef(e.claimId) in MintedBy(e) * w.minted;
      } else {
        var c, s := Cursor(w.books, None), w.stay.value;
        ClaimRefsFree(net, w, e.claimId);
        var d := ClaimRuns(c, ctx, e, s.user);
        if !(e.hubBonus > 0 && s.user == ctx.sender) {
          RunConcat(c, ctx, ClaimCreations(ctx, e, s.user), ClaimTail(e, s.id));
          var f := ClaimTailRuns(d, ctx, e, s.id);
          var w' := Execute(net, w, cmd).value;
          assert w'.books.timers == ExpectedTimers(w');
          KeysBounded(w.books);
          ClaimInv(net, w, w', e);
        }
      }
    }
  }

  // ----------------------------------------------------------- funded, or not

  function FundedClaim(claim: Claim): Moves {
    Moves({}, {}, {claim.paymentId} + HubBonusIds(claim), [], {})
  }

  function ClaimFundedEffects(ctx: Context, claim: Claim): seq<Effect> {
    [HeldEntry(ClaimPaymentHeld, ClaimRef(claim.id), ctx.sender, claim.payment)]
    + (if claim.hubBonusId.Some? then [HeldEntry(FinalizationBonusHeld, ClaimRef(claim.id), ctx.sender, claim.hubBonus)]
       else [])
  }

  lemma ClaimFundedRuns(c: Cursor, ctx: Context, claim: Claim, hubUser: UserId) returns (d: Cursor)
    requires Audited(c.books) && ClaimHolds(c.books, ctx, claim, hubUser, false)
    requires ctx.claim == Some(claim) && ctx.leg.None? && c.prev.None?
    ensures Run(c, ctx, ClaimFundedEffects(ctx, claim)) == Ok(d)
    ensures Audited(d.books)
    ensures Moved(c.books, d.books, FundedClaim(claim))
    ensures d.books.idem == c.books.idem && d.books.timers == c.books.timers
  {
    hide Audited, Run;
    var es := ClaimFundedEffects(ctx, claim);
    d := RunHeld(c, ctx, claim.paymentId, ClaimPaymentHeld, ClaimRef(claim.id), ctx.sender, claim.payment);
    if claim.hubBonusId.Some? {
      var c1 := d;
      d := RunHeld(c1, ctx, claim.hubBonusId.value, FinalizationBonusHeld, ClaimRef(claim.id), ctx.sender, claim.hubBonus);
      RunConcat(c, ctx, [es[0]], [es[1]]);
      assert [es[0]] + [es[1]] == es;
    } else {
      assert es == [es[0]];
    }
  }

  lemma ClaimFundedInv(net: Network, w: World, w': World)
    requires Inv(net, w) && w.state == AtHub && w.claim.Some? && Audited(w'.books)
    requires Moved(w.books, w'.books, FundedClaim(w.claim.value)) && w'.books.idem == w.books.idem
    requires w' == w.(state := Claimed, pool := w'.pool, books := w'.books)
    requires w'.books.timers == ExpectedTimers(w')
    ensures Inv(net, w')
  {
    hide Audited;
  }

  function ClaimFundedTail(claim: Claim, stayId: Id): seq<Effect> {
    [Unschedule(ClaimFundingWindow, claim.id), Note(Funded, None, None, Some(stayId))]
  }

  lemma ClaimFundedIs(s: State, e: Event, ctx: Context)
    requires e.ClaimFunded? && OnClaimFunded(s, e, ctx).Accept?
    ensures s == AtHub && ctx.claim.Some? && ctx.stay.Some?
    ensures OnClaimFunded(s, e, ctx) ==
            Accept(Claimed, ClaimFundedEffects(ctx, ctx.claim.value) + ClaimFundedTail(ctx.claim.value, ctx.stay.value.id))
  {}

  lemma ClaimFundedTimers(w: World, w': World)
    requires Shape(w) && w.state == AtHub && w.claim.Some? && w.books.timers == ExpectedTimers(w)
    requires w' == w.(state := Claimed, pool := w'.pool, books := w'.books)
    requires w'.books.timers == w.books.timers - {TimerKey(ClaimFundingWindow, w.claim.value.id)}
    ensures w'.books.timers == ExpectedTimers(w')
  {}

  lemma ClaimFundedKeeps(net: Network, w: World, cmd: Command)
    requires Inv(net, w) && Issued(w, cmd) && EventOf(cmd).ClaimFunded?
    ensures Kept(net, Execute(net, w, cmd))
  {
    hide Inv, Audited, Run, Moved, ClaimHolds, OnClaimFunded, ClaimFundedEffects, ExpectedTimers, Shape;
    var e, ctx := EventOf(cmd), ContextOf(net, w);
    if OnClaimFunded(w.state, e, ctx).Accept? {
      ClaimFundedIs(w.state, e, ctx);
      var c, claim := Cursor(w.books, None), w.claim.value;
      Parts(net, w);
      ClaimHoldsOpen(net, w);
      var d := ClaimFundedRuns(c, ctx, claim, w.stay.value.user);
      var tail := ClaimFundedTail(claim, w.stay.value.id);
      RunConcat(c, ctx, ClaimFundedEffects(ctx, claim), tail);
      var f := RunTail(d, ctx, tail);
      var w' := Execute(net, w, cmd).value;
      TimersDoNotMove(w.books, d.books, w'.books, FundedClaim(claim));
      ClaimFundedTimers(w, w');
      ClaimFundedInv(net, w, w');
    }
  }

  function ClaimDropped(claim: Claim): Moves {
    Moves({}, {claim.paymentId} + HubBonusIds(claim), {}, [], {})
  }

  lemma PendingClaimRuns(c: Cursor, ctx: Context, claim: Claim, hubUser: UserId) returns (d: Cursor)
    requires Audited(c.books) && ClaimHolds(c.books, ctx, claim, hubUser, false)
    ensures Run(c, ctx, RefundPendingClaimHolds(claim)) == Ok(d)
    ensures Audited(d.books)
    ensures Moved(c.books, d.books, ClaimDropped(claim))
    ensures d.books.idem == c.books.idem && d.books.timers == c.books.timers && d.books.keys == c.books.keys
  {
    hide Audited, Run;
    var es := RefundPendingClaimHolds(claim);
    d := RunDrop(c, ctx, claim.paymentId);
    if claim.hubBonusId.Some? {
      var c1 := d;
      d := RunDrop(c1, ctx, claim.hubBonusId.value);
      RunConcat(c, ctx, [es[0]], [es[1]]);
      assert [es[0]] + [es[1]] == es;
    } else {
      assert es == [es[0]];
    }
  }

  lemma ClaimDroppedInv(net: Network, w: World, w': World)
    requires Inv(net, w) && w.state == AtHub && w.claim.Some? && Audited(w'.books)
    requires Moved(w.books, w'.books, ClaimDropped(w.claim.value)) && w'.books.idem == w.books.idem
    requires w' == w.(claim := None, pool := w'.pool, books := w'.books)
    requires w'.books.timers == ExpectedTimers(w')
    ensures Inv(net, w')
  {
    hide Audited;
  }

  lemma ClaimFundingExpiredKeeps(net: Network, w: World, cmd: Command)
    requires Inv(net, w) && Issued(w, cmd) && EventOf(cmd).ClaimFundingExpired?
    ensures Kept(net, Execute(net, w, cmd))
    ensures Transition(w.state, EventOf(cmd), ContextOf(net, w)).Accept? ==> Execute(net, w, cmd).Ok?
  {
    hide Audited, Run, Moved, LegOk, StayOk, RequestOk, BonusOk, ClaimOk, OnlyLivePending, RefsMinted, ClaimHolds,
      RefundPendingClaimHolds;
    var e, ctx := EventOf(cmd), ContextOf(net, w);
    var outcome := OnClaimFundingExpired(w.state, e, ctx);
    if outcome.Accept? {
      var c, claim := Cursor(w.books, None), w.claim.value;
      ClaimHoldsOpen(net, w);
      var d := PendingClaimRuns(c, ctx, claim, w.stay.value.user);
      var tail := [Note(Expired, None, None, Some(w.stay.value.id))];
      RunConcat(c, ctx, RefundPendingClaimHolds(claim), tail);
      var f := RunTail(d, ctx, tail);
      var w' := Execute(net, w, cmd).value;
      OtherWritesKeepAudit(f.books, w'.books);
      TimersDoNotMove(w.books, d.books, w'.books, ClaimDropped(claim));
      assert w'.books.timers == ExpectedTimers(w');
      ClaimDroppedInv(net, w, w');
    }
  }

  // ----------------------------------------------------------- collected

  function ClaimCollected(claim: Claim, s: HubStay): Moves {
    Moves({claim.paymentId} + HubBonusIds(claim), {s.bondId}, {}, [], {})
  }

  function CollectEffects(ctx: Context, claim: Claim, s: HubStay): seq<Effect> {
    [ReleasePayment(claim.paymentId), SettledEntry(ClaimPaymentReleased, ClaimRef(claim.id), claim.claimant, claim.payment)]
    + (if claim.hubBonusId.Some? then
         [ReleasePayment(claim.hubBonusId.value),
          SettledEntry(FinalizationBonusReleased, ClaimRef(claim.id), s.user, claim.hubBonus)]
       else [])
    + RefundStayBond(ctx, s)
  }

  lemma CollectRuns(c: Cursor, ctx: Context, claim: Claim, s: HubStay) returns (d: Cursor)
    requires Audited(c.books) && ClaimHolds(c.books, ctx, claim, s.user, true)
    requires Open(c.books, s.bondId, true) && c.books.payments[s.bondId].payer == s.user
    requires c.books.payments[s.bondId].amount == ctx.bond
    requires s.bondId != claim.paymentId && Some(s.bondId) != claim.hubBonusId
    ensures Run(c, ctx, CollectEffects(ctx, claim, s)) == Ok(d)
    ensures Audited(d.books)
    ensures Moved(c.books, d.books, ClaimCollected(claim, s))
    ensures d.books.idem == c.books.idem && d.books.timers == c.books.timers
  {
    hide Audited, Run;
    var q := Resolution(claim.paymentId, Released, ClaimPaymentReleased, ClaimRef(claim.id), claim.claimant, claim.payment);
    var bond := Resolution(s.bondId, Refunded, HubBondRefunded, StayRef(s.id), s.user, ctx.bond);
    if claim.hubBonusId.Some? {
      var r := Resolution(claim.hubBonusId.value, Released, FinalizationBonusReleased, ClaimRef(claim.id), s.user, claim.hubBonus);
      d := RunThree(c, ctx, q, r, bond);
      assert PairOf(q) + PairOf(r) + PairOf(bond) == CollectEffects(ctx, claim, s);
    } else {
      d := RunTwo(c, ctx, q, bond);
      assert PairOf(q) + PairOf(bond) == CollectEffects(ctx, claim, s);
    }
  }

  lemma CollectedInv(net: Network, w: World, w': World)
    requires Inv(net, w) && w.state == Claimed && Audited(w'.books)
    requires Moved(w.books, w'.books, ClaimCollected(w.claim.value, w.stay.value)) && w'.books.idem == w.books.idem
    requires w' == w.(state := Delivered, stay := None, claim := None, pool := w'.pool, books := w'.books)
    requires w'.books.timers == ExpectedTimers(w')
    ensures Inv(net, w')
  {
    hide Audited;
  }

  function CollectTail(s: HubStay): seq<Effect> {
    [Unschedule(Storage, s.id), Note(RecipientClaimed, Some(s.user), None, Some(s.id)), QueueEmail(ToSender)]
  }

  lemma CollectIs(s: State, e: Event, ctx: Context)
    requires e.RecipientClaimedPickup? && OnRecipientClaimedPickup(s, e, ctx).Accept?
    ensures s == Claimed && ctx.stay.Some? && ctx.claim.Some?
    ensures OnRecipientClaimedPickup(s, e, ctx) ==
            Accept(Delivered, CollectEffects(ctx, ctx.claim.value, ctx.stay.value) + CollectTail(ctx.stay.value))
  {}

  lemma CollectExecutes(net: Network, w: World, cmd: Command, es: seq<Effect>, f: Cursor)
    requires EventOf(cmd).RecipientClaimedPickup?
    requires Transition(w.state, EventOf(cmd), ContextOf(net, w)) == Accept(Delivered, es)
    requires Run(Cursor(w.books, None), ContextOf(net, w), es) == Ok(f)
    ensures Execute(net, w, cmd) == Ok(w.(state := Delivered, stay := None, claim := None, books := Consume(f.books, cmd)))
  {
    hide Run, Transition;
    assert w.minted + {} == w.minted;
  }

  lemma RecipientClaimedPickupKeeps(net: Network, w: World, cmd: Command)
    requires Inv(net, w) && Issued(w, cmd) && EventOf(cmd).RecipientClaimedPickup?
    ensures Kept(net, Execute(net, w, cmd))
  {
    hide Inv, Audited, Run, Moved, ClaimHolds, OnRecipientClaimedPickup, CollectEffects, Execute;
    var e, ctx := EventOf(cmd), ContextOf(net, w);
    Parts(net, w);
    if OnRecipientClaimedPickup(w.state, e, ctx).Accept? {
      CollectIs(w.state, e, ctx);
      var c, claim, s := Cursor(w.books, None), w.claim.value, w.stay.value;
      ClaimHoldsOpen(net, w);
      StayBondOpen(net, w);
      var d := CollectRuns(c, ctx, claim, s);
      RunConcat(c, ctx, CollectEffects(ctx, claim, s), CollectTail(s));
      var f := RunTail(d, ctx, CollectTail(s));
      CollectExecutes(net, w, cmd, CollectEffects(ctx, claim, s) + CollectTail(s), f);
      var w' := Execute(net, w, cmd).value;
      TimersDoNotMove(w.books, d.books, w'.books, ClaimCollected(claim, s));
      assert w'.books.timers == ExpectedTimers(w');
      CollectedInv(net, w, w');
    } else {
      RejectedIsKept(net, w, cmd);
    }
  }
}
