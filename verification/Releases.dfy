/** Which payments a transition releases, and what that adds to any tally of
    released payments. */
module Releases {
  import opened Economics
  import opened Shipment
  import opened StateMachine
  import opened Books
  import opened Executor
  import opened EffectRuns
  import opened Invariant
  import opened Guarantees
  import opened LegSteps

  /** What a released payment counts for in a tally. */
  type Weight = (Purpose, Msat) -> int

  function Weigh(p: Payment, f: Weight): int {
    f(p.purpose, p.amount)
  }

  /** The tally of the released payments of a registry. */
  function Tally(ps: seq<Payment>, f: Weight): int {
    if ps == [] then 0
    else Tally(ps[..|ps| - 1], f) + (if ps[|ps| - 1].verdict == Released then Weigh(ps[|ps| - 1], f) else 0)
  }

  function ReleasedIds(es: seq<Effect>): seq<nat> {
    if es == [] then []
    else (if es[0].ReleasePayment? then [es[0].paymentId] else []) + ReleasedIds(es[1..])
  }

  function Added(ps: seq<Payment>, ids: seq<nat>, f: Weight): int {
    if ids == [] then 0
    else (if ids[0] < |ps| then Weigh(ps[ids[0]], f) else 0) + Added(ps, ids[1..], f)
  }

  lemma TallySnoc(ps: seq<Payment>, p: Payment, f: Weight)
    ensures Tally(ps + [p], f) == Tally(ps, f) + (if p.verdict == Released then Weigh(p, f) else 0)
  {
    assert (ps + [p])[..|ps|] == ps;
  }

  lemma {:induction false} TallyDecided(ps: seq<Payment>, p: nat, v: Verdict, f: Weight)
    requires p < |ps| && ps[p].verdict == Pending
    ensures Tally(ps[p := ps[p].(verdict := v)], f) == Tally(ps, f) + (if v == Released then Weigh(ps[p], f) else 0)
  {
    var qs := ps[p := ps[p].(verdict := v)];
    var n := |ps| - 1;
    if p == n {
      assert qs[..n] == ps[..n];
    } else {
      TallyDecided(ps[..n], p, v, f);
      assert qs[..n] == ps[..n][p := ps[p].(verdict := v)];
    }
  }

  lemma ApplyTally(c: Cursor, ctx: Context, e: Effect, f: Weight)
    requires Apply(c, ctx, e).Ok?
    ensures var d := Apply(c, ctx, e).value.books;
      Tally(d.payments, f) ==
      Tally(c.books.payments, f) + (if e.ReleasePayment? then Weigh(c.books.payments[e.paymentId], f) else 0)
  {
    match e
    case CreatePayment(purpose, payer, payee, amount, ref) =>
      TallySnoc(c.books.payments, Payment(purpose, payer, payee, amount, ref, Pending), f);
    case ReleasePayment(p) => TallyDecided(c.books.payments, p, Released, f);
    case RefundPayment(p) => TallyDecided(c.books.payments, p, Refunded, f);
    case _ =>
  }

  lemma WeighsTheSame(b: Books, d: Books, p: nat, f: Weight)
    requires PaymentsEvolve(b, d) && p < |b.payments|
    ensures p < |d.payments| && Weigh(d.payments[p], f) == Weigh(b.payments[p], f)
  {
    assert d.payments[p].(verdict := Pending) == b.payments[p].(verdict := Pending);
  }

  lemma ReleasedIdsCons(es: seq<Effect>)
    requires es != []
    ensures ReleasedIds(es) == (if es[0].ReleasePayment? then [es[0].paymentId] else []) + ReleasedIds(es[1..])
  {}

  lemma ReleaseStep(c: Cursor, ctx: Context, e: Effect, mid: Cursor, d: Books, ids: seq<nat>, f: Weight)
    requires Apply(c, ctx, e) == Ok(mid) && PaymentsEvolve(mid.books, d)
    requires Tally(d.payments, f) == Tally(mid.books.payments, f) + Added(d.payments, ids, f)
    ensures Tally(d.payments, f) ==
            Tally(c.books.payments, f) + Added(d.payments, (if e.ReleasePayment? then [e.paymentId] else []) + ids, f)
  {
    ApplyTally(c, ctx, e, f);
    if e.ReleasePayment? {
      var p := e.paymentId;
      assert mid.books == Decide(c.books, p, Released);
      WeighsTheSame(mid.books, d, p, f);
      AddedCons(d.payments, p, ids, f);
    } else {
      assert [] + ids == ids;
    }
    hide PaymentsEvolve, Tally, Added;
  }

  /** A run of effects adds to the tally what it releases; nothing else does. */
  lemma {:induction false} RunTally(c: Cursor, ctx: Context, es: seq<Effect>, f: Weight)
    requires Run(c, ctx, es).Ok?
    ensures var d := Run(c, ctx, es).value.books;
      Tally(d.payments, f) == Tally(c.books.payments, f) + Added(d.payments, ReleasedIds(es), f)
    decreases |es|
  {
    if es != [] {
      hide Tally, Added, PaymentsEvolve, ApplyToBooks, ReleasedIds;
      var mid := Apply(c, ctx, es[0]).value;
      RunTally(mid, ctx, es[1..], f);
      RunEvolves(mid, ctx, es[1..]);
      ReleasedIdsCons(es);
      ReleaseStep(c, ctx, es[0], mid, Run(mid, ctx, es[1..]).value.books, ReleasedIds(es[1..]), f);
    }
  }

  lemma AddedCons(ps: seq<Payment>, p: nat, ids: seq<nat>, f: Weight)
    requires p < |ps|
    ensures Added(ps, [p] + ids, f) == Weigh(ps[p], f) + Added(ps, ids, f)
  {
    assert ([p] + ids)[1..] == ids;
  }

  lemma {:induction false} NoReleases(es: seq<Effect>)
    requires forall e <- es :: !e.ReleasePayment?
    ensures ReleasedIds(es) == []
    decreases |es|
  {
    if es != [] {
      assert es[0] in es;
      NoReleases(es[1..]);
    }
  }

  lemma {:induction false} ReleasesConcat(xs: seq<Effect>, ys: seq<Effect>)
    ensures ReleasedIds(xs + ys) == ReleasedIds(xs) + ReleasedIds(ys)
    decreases |xs|
  {
    if xs == [] {
      assert xs + ys == ys;
    } else {
      var first := if xs[0].ReleasePayment? then [xs[0].paymentId] else [];
      ReleasesConcat(xs[1..], ys);
      assert (xs + ys)[0] == xs[0] && (xs + ys)[1..] == xs[1..] + ys;
      assert first + (ReleasedIds(xs[1..]) + ReleasedIds(ys)) == first + ReleasedIds(xs[1..]) + ReleasedIds(ys);
    }
  }

  /** A pair that releases, followed by effects that do not. */
  lemma ReleaseFirst(p: nat, entry: Effect, rest: seq<Effect>)
    requires entry.PostEntry?
    ensures ReleasedIds([ReleasePayment(p), entry] + rest) == [p] + ReleasedIds(rest)
  {
    var pair := [ReleasePayment(p), entry];
    ReleasesConcat(pair, rest);
    assert ReleasedIds(pair) == [p] by {
      assert pair[1..] == [entry] && [entry][1..] == [];
      NoReleases([entry]);
    }
  }

  /** What each event releases. */
  function ReleasedBy(e: Event, ctx: Context): seq<nat> {
    match e
    case PickupTimeout(_) => if ctx.leg.Some? then [ctx.leg.value.carrierBondId] else []
    case TransitTimeout(_) => if ctx.leg.Some? then [ctx.leg.value.carrierBondId] else []
    case LegCheckin(_, _, _, _, _) => if ctx.leg.Some? then [ctx.leg.value.paymentId] else []
    case RecipientPickup(_) => if ctx.bonus.Some? then [ctx.bonus.value.paymentId] else []
    case RecipientClaimedPickup(_) =>
      if ctx.claim.None? then []
      else [ctx.claim.value.paymentId]
           + (if ctx.claim.value.hubBonusId.Some? then [ctx.claim.value.hubBonusId.value] else [])
    case _ => []
  }

  predicate ReleasesExpected(s: State, e: Event, ctx: Context)
    requires Transition(s, e, ctx).Accept?
  {
    ReleasedIds(Transition(s, e, ctx).effects) == ReleasedBy(e, ctx)
  }

  predicate Releasing(e: Event) {
    e.PickupTimeout? || e.TransitTimeout? || e.LegCheckin? || e.RecipientPickup? || e.RecipientClaimedPickup?
  }

  lemma NoReleaseInRequests(s: State, e: Event, ctx: Context)
    requires e.OriginHubAccept? || e.OriginCheckin? || e.RequestLeg? || e.DepositReject?
             || e.DepositRequestExpired? || e.DepositRequestCancel?
    requires Transition(s, e, ctx).Accept?
    ensures forall x <- Transition(s, e, ctx).effects :: !x.ReleasePayment?
  {}

  lemma NoReleaseInBookings(s: State, e: Event, ctx: Context)
    requires e.DepositAccept? || e.LegFunded? || e.LegFundingExpired?
    requires Transition(s, e, ctx).Accept?
    ensures forall x <- Transition(s, e, ctx).effects :: !x.ReleasePayment?
  {}

  lemma NoReleaseInTravel(s: State, e: Event, ctx: Context)
    requires e.PickupCheckout? || e.LegReturn?
    requires Transition(s, e, ctx).Accept?
    ensures forall x <- Transition(s, e, ctx).effects :: !x.ReleasePayment?
  {}

  lemma NoReleaseInClaims(s: State, e: Event, ctx: Context)
    requires e.RecipientClaim? || e.ClaimFunded? || e.ClaimFundingExpired?
    requires Transition(s, e, ctx).Accept?
    ensures forall x <- Transition(s, e, ctx).effects :: !x.ReleasePayment?
  {}

  lemma NoReleaseInExpiry(s: State, e: Event, ctx: Context)
    requires e.StorageExpiry?
    requires Transition(s, e, ctx).Accept?
    ensures forall x <- Transition(s, e, ctx).effects :: !x.ReleasePayment?
  {}

  lemma NoReleaseInEndings(s: State, e: Event, ctx: Context)
    requires e.HandoffReject? || e.Boost? || e.Reroute? || e.Cancel?
    requires Transition(s, e, ctx).Accept?
    ensures forall x <- Transition(s, e, ctx).effects :: !x.ReleasePayment?
  {}

  lemma FailureReleases(ctx: Context, l: Leg, tail: seq<Effect>)
    requires forall x <- tail :: !x.ReleasePayment?
    ensures ReleasedIds(SlashCarrierBond(ctx, l) + RefundLegPayment(ctx, l) + RefundArrivalBond(ctx, l)
                        + RefundFinalizationBonus(ctx, ctx.bonus, l.arrivalStay) + tail) == [l.carrierBondId]
  {
    var slash := SlashCarrierBond(ctx, l);
    var rest := RefundLegPayment(ctx, l) + RefundArrivalBond(ctx, l)
                + RefundFinalizationBonus(ctx, ctx.bonus, l.arrivalStay) + tail;
    ReleaseFirst(l.carrierBondId, slash[1], rest);
    NoReleases(rest);
    assert slash + rest == SlashCarrierBond(ctx, l) + RefundLegPayment(ctx, l) + RefundArrivalBond(ctx, l)
                           + RefundFinalizationBonus(ctx, ctx.bonus, l.arrivalStay) + tail;
  }

  lemma ReleasedByTimeouts(s: State, e: Event, ctx: Context)
    requires (e.PickupTimeout? || e.TransitTimeout?) && Transition(s, e, ctx).Accept?
    ensures ReleasesExpected(s, e, ctx)
  {
    var l := ctx.leg.value;
    if e.PickupTimeout? {
      FailureReleases(ctx, l, [Schedule(Storage, ctx.stay.value.id, ctx.stay.value.storageDeadline),
                               Note(Expired, None, Some(l.id), None)]);
    } else {
      FailureReleases(ctx, l, [Note(Expired, None, Some(l.id), None)]);
    }
  }

  lemma ReleasedByCheckin(s: State, e: Event, ctx: Context)
    requires e.LegCheckin? && Transition(s, e, ctx).Accept?
    ensures ReleasesExpected(s, e, ctx)
  {
    CheckinIs(s, e, ctx);
    hide Transition, OnLegCheckin, PayNow, RefundCarrierBond, CheckinTail, ReleasedIds;
    var l := ctx.leg.value;
    var fee := PayNow(ArrHubFee, ArrHubFeePaid, LegRef(l.id), l.carrier, l.toUser, l.pricing.arrFee);
    var entry := SettledEntry(LegPaymentReleased, LegRef(l.id), l.carrier, LegHoldAmount(l));
    var rest := RefundCarrierBond(ctx, l) + CheckinTail(l, e.hub == ctx.destHub, e.storageDeadline);
    assert fee + ([ReleasePayment(l.paymentId), entry] + rest)
        == CheckinEffects(ctx, l) + CheckinTail(l, e.hub == ctx.destHub, e.storageDeadline);
    FeeReleasesNothing(ctx, l);
    NoReleases(fee);
    ReleasesConcat(fee, [ReleasePayment(l.paymentId), entry] + rest);
    ReleaseFirst(l.paymentId, entry, rest);
    CheckinReleasesNoMore(ctx, l, e.hub == ctx.destHub, e.storageDeadline);
    NoReleases(rest);
  }

  lemma FeeReleasesNothing(ctx: Context, l: Leg)
    ensures forall x <- PayNow(ArrHubFee, ArrHubFeePaid, LegRef(l.id), l.carrier, l.toUser, l.pricing.arrFee) :: !x.ReleasePayment?
  {}

  lemma CheckinReleasesNoMore(ctx: Context, l: Leg, arrived: bool, deadline: Time)
    ensures forall x <- RefundCarrierBond(ctx, l) + CheckinTail(l, arrived, deadline) :: !x.ReleasePayment?
  {}

  lemma ReleasedByPickup(s: State, e: Event, ctx: Context)
    requires e.RecipientPickup? && Transition(s, e, ctx).Accept?
    ensures ReleasesExpected(s, e, ctx)
  {
    var es := Transition(s, e, ctx).effects;
    if ctx.bonus.Some? {
      var rest := es[2..];
      assert es == [ReleasePayment(ctx.bonus.value.paymentId), es[1]] + rest;
      ReleaseFirst(ctx.bonus.value.paymentId, es[1], rest);
      NoReleases(rest);
    } else {
      NoReleases(es);
    }
  }

  /** Two releases, each with its entry, the second one optional. */
  lemma ClaimReleases(p: nat, entry: Effect, bonus: Option<nat>, bonusEntry: Effect, rest: seq<Effect>)
    requires entry.PostEntry? && bonusEntry.PostEntry? && forall x <- rest :: !x.ReleasePayment?
    ensures ReleasedIds([ReleasePayment(p), entry] + ((if bonus.Some? then [ReleasePayment(bonus.value), bonusEntry] else []) + rest))
         == [p] + (if bonus.Some? then [bonus.value] else [])
  {
    var second := if bonus.Some? then [ReleasePayment(bonus.value), bonusEntry] else [];
    ReleaseFirst(p, entry, second + rest);
    NoReleases(rest);
    if bonus.Some? {
      ReleaseFirst(bonus.value, bonusEntry, rest);
    } else {
      assert second + rest == rest;
    }
  }

  lemma ReleasedByClaimedPickup(s: State, e: Event, ctx: Context)
    requires e.RecipientClaimedPickup? && Transition(s, e, ctx).Accept?
    ensures ReleasesExpected(s, e, ctx)
  {
    var es, claim, stay := Transition(s, e, ctx).effects, ctx.claim.value, ctx.stay.value;
    var entry := SettledEntry(ClaimPaymentReleased, ClaimRef(claim.id), claim.claimant, claim.payment);
    var bonusEntry := SettledEntry(FinalizationBonusReleased, ClaimRef(claim.id), stay.user, claim.hubBonus);
    var rest := RefundStayBond(ctx, stay)
                + [Unschedule(Storage, stay.id), Note(RecipientClaimed, Some(stay.user), None, Some(stay.id)), QueueEmail(ToSender)];
    ClaimReleases(claim.paymentId, entry, claim.hubBonusId, bonusEntry, rest);
    assert es == [ReleasePayment(claim.paymentId), entry]
                 + ((if claim.hubBonusId.Some? then [ReleasePayment(claim.hubBonusId.value), bonusEntry] else []) + rest);
  }

  lemma ReleasesAre(s: State, e: Event, ctx: Context)
    requires Transition(s, e, ctx).Accept?
    ensures ReleasesExpected(s, e, ctx)
  {
    if Releasing(e) {
      hide Transition, ReleasesExpected;
      if e.PickupTimeout? || e.TransitTimeout? { ReleasedByTimeouts(s, e, ctx); }
      else if e.LegCheckin? { ReleasedByCheckin(s, e, ctx); }
      else if e.RecipientPickup? { ReleasedByPickup(s, e, ctx); }
      else { ReleasedByClaimedPickup(s, e, ctx); }
    } else if !e.Create? {
      hide Transition;
      if e.OriginHubAccept? || e.OriginCheckin? || e.RequestLeg? || e.DepositReject?
         || e.DepositRequestExpired? || e.DepositRequestCancel? { NoReleaseInRequests(s, e, ctx); }
      else if e.DepositAccept? || e.LegFunded? || e.LegFundingExpired? { NoReleaseInBookings(s, e, ctx); }
      else if e.PickupCheckout? || e.LegReturn? { NoReleaseInTravel(s, e, ctx); }
      else if e.RecipientClaim? || e.ClaimFunded? || e.ClaimFundingExpired? { NoReleaseInClaims(s, e, ctx); }
      else if e.StorageExpiry? { NoReleaseInExpiry(s, e, ctx); }
      else { NoReleaseInEndings(s, e, ctx); }
      NoReleases(Transition(s, e, ctx).effects);
    }
  }

  /** What a command adds to any tally: the released payments of its event. */
  lemma ExecuteTally(net: Network, w: World, cmd: Command, v: World, f: Weight)
    requires Execute(net, w, cmd) == Ok(v)
    ensures Tally(v.books.payments, f) ==
            Tally(w.books.payments, f) + Added(v.books.payments, ReleasedBy(EventOf(cmd), ContextOf(net, w)), f)
    ensures PaymentsEvolve(w.books, v.books)
  {
    var ctx := ContextOf(net, w);
    var outcome := Transition(w.state, EventOf(cmd), ctx);
    ExecuteEvolves(net, w, cmd);
    ReleasesAre(w.state, EventOf(cmd), ctx);
    hide Transition, Run, ReleasedBy;
    RunTally(Cursor(w.books, None), ctx, outcome.effects, f);
  }
}
