/** Reading another invocation's bonus hold: when the lookup among the payment
    rows can go wrong, when going by it does something else, and a race in which
    it does. */
module Misreads {
  import opened Economics
  import opened Shipment
  import opened StateMachine
  import opened Books
  import opened Executor
  import opened EffectRuns
  import opened Invariant
  import opened LegSteps
  import opened Runs
  import opened Guarantees
  import opened Race
  import opened Acceptances

  // ----------------------------------------------------------- when the lookup can go wrong

  /** A bonus hold among the rows that is not one the shipment has open. */
  ghost predicate Stray(s: Scene, own: set<Slot>) {
    exists k <- BonusRows(s, own) :: !OpenSlot(s.world.books, k)
  }

  /** What an invocation looking at the rows leaves out: nothing for a snapshot, and
      under the lock what it made itself. */
  ghost predicate Viewer(s: Scene, own: set<Slot>) {
    own == {} || exists i: nat :: Active(s, i) && own == s.attempts[i].made
  }

  /** What an invocation made is not among the shipment's open bonus holds. */
  lemma OwnAreNotOpen(net: Network, s: Scene, own: set<Slot>, k: Slot)
    requires Coherent(net, s) && OpenSlot(s.world.books, k) && k.0 == FinalizationBonus && k.1.StayRef?
    requires Viewer(s, own)
    ensures k !in own
  {
    hide Reachable, SlotsOf, Mentions, Issued, Inv, SnapshotOk;
    if k in own {
      var i: nat :| Active(s, i) && own == s.attempts[i].made;
      var a := s.attempts[i];
      assert AttemptOk(s, a) && OwnSlot(EventOf(a.cmd), k);
      ReachableKeeps(net, s.world);
      OpenIsLive(net, s.world, k);
      NotMinted(MintedBy(EventOf(a.cmd)), s.world.minted, k.1);
    }
  }

  lemma BonusIsOpen(net: Network, w: World)
    requires Inv(net, w) && IdemExact(w.books) && w.bonus.Some?
    ensures exists k :: OpenSlot(w.books, k) && k.0 == FinalizationBonus && k.1.StayRef?
    ensures w.bonus.value.paymentId < |w.books.payments|
    ensures w.books.payments[w.bonus.value.paymentId].verdict == Pending
    ensures w.books.payments[w.bonus.value.paymentId].amount == w.bonus.value.amount
  {
    hide Audited, ExpectedTimers, OnlyLivePending, RefsMinted, StayOk, LegOk, RequestOk, ClaimOk;
    var k := SlotAt(w.books, w.bonus.value.paymentId);
    assert OpenSlot(w.books, k);
  }

  lemma BonusShows(net: Network, s: Scene, own: set<Slot>)
    requires Coherent(net, s) && s.world.bonus.Some? && Viewer(s, own)
    ensures BonusRows(s, own) != {}
  {
    hide Reachable, AttemptOk, RefDisjoint, HoldsExact, Inv, SnapshotOk;
    CoherentInv(net, s);
    BonusIsOpen(net, s.world);
    var k :| OpenSlot(s.world.books, k) && k.0 == FinalizationBonus && k.1.StayRef?;
    if !(k in s.holds && s.holds[k]) { var a := OnlyTheAcceptedLegLoses(net, s, k); }
    OwnAreNotOpen(net, s, own, k);
    assert k in BonusRows(s, own);
  }

  lemma ClearView(net: Network, s: Scene, own: set<Slot>, seen: Option<BonusHold>)
    requires Coherent(net, s) && Sees(s, own, seen) && !Stray(s, own) && Viewer(s, own)
    ensures seen == s.world.bonus
  {
    hide Reachable, AttemptOk, RefDisjoint, HoldsExact, Inv, SnapshotOk;
    CoherentInv(net, s);
    if BonusRows(s, own) == {} {
      if s.world.bonus.Some? { BonusShows(net, s, own); }
    } else {
      var k :| k in BonusRows(s, own) && RowIs(s, k, seen.value);
      OpenIsLive(net, s.world, k);
    }
  }

  /** A stray is a row that can be found, and not the shipment's. */
  lemma StrayIsSeen(net: Network, s: Scene, own: set<Slot>) returns (h: BonusHold)
    requires Coherent(net, s) && Stray(s, own)
    ensures Sees(s, own, Some(h)) && Some(h) != s.world.bonus
  {
    hide Reachable, RefDisjoint, Inv, SnapshotOk, Mentions, Issued, OwnSlot;
    CoherentInv(net, s);
    if s.world.bonus.Some? { BonusIsOpen(net, s.world); }
    var b, k :| k in BonusRows(s, own) && !OpenSlot(s.world.books, k) && b == s.world.books;
    if k in b.idem {
      h := BonusHold(b.idem[k], b.payments[b.idem[k]].amount);
    } else {
      assert Made(s, k);
      var a :| a in s.attempts && k in a.made;
      assert AttemptOk(s, a) && k in SlotsOf(a.planned);
      var x :| x in a.planned && x.CreatePayment? && (x.purpose, x.ref) == k;
      assert AskedBy(a, k, x.amount);
      h := BonusHold(|b.payments|, x.amount);
    }
    assert RowIs(s, k, h);
  }

  /** The rows show the shipment's own bonus hold, or rightly none, to everybody if
      and only if no stray stands among them. */
  lemma ClearViewExactly(net: Network, s: Scene, own: set<Slot>)
    requires Coherent(net, s) && Viewer(s, own)
    ensures !Stray(s, own) <==> forall seen :: Sees(s, own, seen) ==> seen == s.world.bonus
  {
    hide Coherent, Stray, Sees, Viewer;
    if Stray(s, own) {
      var h := StrayIsSeen(net, s, own);
    } else {
      forall seen | Sees(s, own, seen) ensures seen == s.world.bonus { ClearView(net, s, own, seen); }
    }
  }

  // ----------------------------------------------------------- when it matters

  /** The events whose writes go by the bonus hold of the aggregate. */
  predicate Heeds(w: World, e: Event) {
    match e
    case LegFunded(_, _) => true
    case LegFundingExpired(_) => true
    case PickupTimeout(_) => true
    case LegReturn(_, _, _, _, _) => true
    case TransitTimeout(_) => true
    case RecipientPickup(_) => true
    case StorageExpiry(_) => (w.state == AtHub && w.leg.Some?) || w.state == AwaitingPickup
    case Reroute(newDest, _, _) => w.state == AwaitingPickup && newDest.Some?
    case _ => false
  }

  /** Entries whose key does not depend on the bonus hold. */
  ghost predicate Blind(ctx: Context, es: seq<Effect>) {
    ctx.leg.None? || forall x <- es :: x.PostEntry? ==> x.event != FinalizationBonusHeld
  }

  lemma {:induction false} RunBlind(c: Cursor, ctx: Context, seen: Option<BonusHold>, es: seq<Effect>)
    requires Blind(ctx, es)
    ensures Run(c, ctx, es) == Run(c, ctx.(bonus := seen), es)
    decreases |es|
  {
    hide Total;
    if es != [] {
      assert es[0] in es;
      assert ApplyToBooks(c, ctx, es[0]) == ApplyToBooks(c, ctx.(bonus := seen), es[0]);
      match Apply(c, ctx, es[0])
      case Err(_) =>
      case Ok(d) => RunBlind(d, ctx, seen, es[1..]);
    }
  }

  ghost predicate Unmoved(net: Network, w: World, e: Event, seen: Option<BonusHold>) {
    && Judge(net, w, e, seen) == Judge(net, w, e, w.bonus)
    && (Judge(net, w, e, seen).Accept? ==> Blind(ContextOf(net, w), Judge(net, w, e, seen).effects))
  }

  lemma UnmovedEarly(net: Network, w: World, e: Event, seen: Option<BonusHold>)
    requires Shape(w) && seen.Some? && Judge(net, w, e, seen).Accept?
    requires e.OriginHubAccept? || e.OriginCheckin? || e.RequestLeg? || e.DepositAccept? || e.DepositReject?
             || e.DepositRequestExpired? || e.DepositRequestCancel? || e.RecipientClaim?
    ensures Unmoved(net, w, e, seen)
  {}

  lemma UnmovedCheckout(net: Network, w: World, e: Event, seen: Option<BonusHold>)
    requires Shape(w) && seen.Some? && Judge(net, w, e, seen).Accept?
    requires e.PickupCheckout?
    ensures Unmoved(net, w, e, seen)
  {}

  lemma UnmovedArrival(net: Network, w: World, e: Event, seen: Option<BonusHold>)
    requires Shape(w) && seen.Some? && Judge(net, w, e, seen).Accept?
    requires e.LegCheckin?
    ensures Unmoved(net, w, e, seen)
  {}

  lemma UnmovedNotes(net: Network, w: World, e: Event, seen: Option<BonusHold>)
    requires Shape(w) && seen.Some? && Judge(net, w, e, seen).Accept?
    requires e.HandoffReject? || e.Boost?
    ensures Unmoved(net, w, e, seen)
  {}

  lemma UnmovedClaims(net: Network, w: World, e: Event, seen: Option<BonusHold>)
    requires Shape(w) && seen.Some? && Judge(net, w, e, seen).Accept?
    requires e.ClaimFunded? || e.ClaimFundingExpired? || e.RecipientClaimedPickup?
    ensures Unmoved(net, w, e, seen)
  {}

  lemma UnmovedEnds(net: Network, w: World, e: Event, seen: Option<BonusHold>)
    requires Shape(w) && seen.Some? && Judge(net, w, e, seen).Accept?
    requires (e.Reroute? && !Heeds(w, e)) || e.Cancel?
    ensures Unmoved(net, w, e, seen)
  {}

  lemma UnmovedExpiry(net: Network, w: World, e: Event, seen: Option<BonusHold>)
    requires Shape(w) && seen.Some? && Judge(net, w, e, seen).Accept?
    requires e.StorageExpiry? && !Heeds(w, e)
    ensures Unmoved(net, w, e, seen)
  {}

  lemma Heedless(net: Network, w: World, e: Event, seen: Option<BonusHold>)
    requires Shape(w) && seen.Some? && Judge(net, w, e, seen).Accept? && !Heeds(w, e)
    ensures SameDeed(net, w, e, seen)
  {
    assert !e.Create?;
    assert Unmoved(net, w, e, seen) by {
      hide Judge, Unmoved, Shape;
      if e.PickupCheckout? { UnmovedCheckout(net, w, e, seen); }
      else if e.LegCheckin? { UnmovedArrival(net, w, e, seen); }
      else if e.HandoffReject? || e.Boost? { UnmovedNotes(net, w, e, seen); }
      else if e.ClaimFunded? || e.ClaimFundingExpired? || e.RecipientClaimedPickup? { UnmovedClaims(net, w, e, seen); }
      else if e.Reroute? || e.Cancel? { UnmovedEnds(net, w, e, seen); }
      else if e.StorageExpiry? { UnmovedExpiry(net, w, e, seen); }
      else { UnmovedEarly(net, w, e, seen); }
    }
    hide Judge, Run, Blind;
    RunBlind(Cursor(w.books, None), ContextOf(net, w), seen, Judge(net, w, e, seen).effects);
    assert Seeing(net, w, w.bonus) == ContextOf(net, w);
  }

  /** Another hold than the shipment's, by its id. */
  predicate Foreign(w: World, h: BonusHold) {
    w.bonus.Some? ==> h.paymentId != w.bonus.value.paymentId
  }

  lemma FundedPlanDiffers(net: Network, w: World, e: Event, h: BonusHold)
    requires e.LegFunded? && Judge(net, w, e, Some(h)).Accept? && w.bonus.None?
    ensures Judge(net, w, e, Some(h)) != Judge(net, w, e, w.bonus)
  {
    assert |Judge(net, w, e, Some(h)).effects| == 8 && |Judge(net, w, e, None).effects| == 7;
  }

  /** Effects that pair with nothing before them. */
  predicate Unpaired(x: Effect) {
    x.PostEntry? || Quiet(x)
  }

  /** Unpaired entries post under the keys of the booked leg only. */
  lemma {:induction false} KeyNotPosted(c: Cursor, ctx: Context, es: seq<Effect>, k: Key)
    requires Run(c, ctx, es).Ok? && k !in c.books.keys && (forall x <- es :: Unpaired(x))
    requires c.prev.None? || Unpaired(c.prev.value)
    requires ctx.leg.Some?
    requires forall x <- es :: x.PostEntry? ==> LegHeldKey(ctx, x.event).Some? && LegHeldKey(ctx, x.event) != Some(k)
    ensures k !in Run(c, ctx, es).value.books.keys
    decreases |es|
  {
    hide Total;
    if es != [] {
      assert Unpaired(es[0]);
      var d := Apply(c, ctx, es[0]).value;
      assert k !in d.books.keys;
      KeyNotPosted(d, ctx, es[1..], k);
    }
  }

  /** leg_funded recognises the hold it saw, not the shipment's, though the effects
      are the same. */
  lemma FundedUnderAnother(net: Network, w: World, e: Event, h: BonusHold)
    requires Inv(net, w) && e.LegFunded? && w.bonus.Some? && Foreign(w, h)
    requires Judge(net, w, e, Some(h)).Accept? && Judge(net, w, e, Some(h)) == Judge(net, w, e, w.bonus)
    ensures !SameDeed(net, w, e, Some(h))
  {
    hide Inv, Run, Judge;
    var c, ctx, k := Cursor(w.books, None), ContextOf(net, w), PaymentKey(w.bonus.value.paymentId, Held);
    assert Seeing(net, w, w.bonus) == ctx;
    var es := Judge(net, w, e, w.bonus).effects;
    FundedRecognises(net, w, e);
    FundedKeys(net, w, e, h);
    if Run(c, Seeing(net, w, Some(h)), es).Ok? { KeyNotPosted(c, Seeing(net, w, Some(h)), es, k); }
  }

  lemma FundedRecognises(net: Network, w: World, e: Event)
    requires Inv(net, w) && e.LegFunded? && w.bonus.Some? && Judge(net, w, e, w.bonus).Accept?
    ensures var r := Run(Cursor(w.books, None), ContextOf(net, w), Judge(net, w, e, w.bonus).effects);
      r.Ok? && PaymentKey(w.bonus.value.paymentId, Held) in r.value.books.keys
  {
    var c, ctx := Cursor(w.books, None), ContextOf(net, w);
    assert Seeing(net, w, w.bonus) == ctx;
    hide Run, Moved, FundedEffects, FundedTail, LegHolds, OnLegFunded;
    FundedIs(w.state, e, ctx);
    var l, s := w.leg.value, w.stay.value;
    LegHoldsOpen(net, w);
    AuditedOf(net, w);
    hide Inv, Audited;
    var d := FundedRuns(c, ctx, l);
    RunConcat(c, ctx, FundedEffects(ctx, l), FundedTail(l, s, e.pickupDeadline));
    var f := FundedTailRuns(d, ctx, l, s, e.pickupDeadline);
    FundedMoves(w.books, d.books, l, w.bonus);
  }

  lemma AuditedOf(net: Network, w: World)
    requires Inv(net, w)
    ensures Audited(w.books) && (w.state == AtHub ==> w.leg.Some? ==> LegOk(net, w, w.leg.value))
  {}

  lemma FundedMoves(b: Books, d: Books, l: Leg, bonus: Option<BonusHold>)
    requires Moved(b, d, FundedHolds(l, bonus)) && bonus.Some?
    ensures Recognised(d, bonus.value.paymentId, Held)
  {}

  /** The entries of leg_funded. */
  predicate FundingEntry(x: Effect) {
    x.PostEntry? ==>
      x.event == LegPaymentHeld || x.event == CarrierBondHeld || x.event == HubBondHeld || x.event == FinalizationBonusHeld
  }

  lemma FundedUnpaired(net: Network, w: World, e: Event)
    requires e.LegFunded? && Judge(net, w, e, w.bonus).Accept?
    ensures w.leg.Some? && w.state == AtHub
    ensures forall x <- Judge(net, w, e, w.bonus).effects :: Unpaired(x) && FundingEntry(x)
  {}

  lemma LegHoldsApart(net: Network, w: World)
    requires Inv(net, w) && w.leg.Some? && w.state == AtHub && w.bonus.Some?
    ensures var l, p := w.leg.value, w.bonus.value.paymentId;
      p != l.paymentId && p != l.carrierBondId && p != l.arrivalBondId && PaymentKey(p, Held) !in w.books.keys
  {
    hide Inv;
    LegHoldsOpen(net, w);
  }

  lemma FundedKeys(net: Network, w: World, e: Event, h: BonusHold)
    requires Inv(net, w) && e.LegFunded? && w.bonus.Some? && Foreign(w, h) && Judge(net, w, e, w.bonus).Accept?
    ensures var ctx, k := Seeing(net, w, Some(h)), PaymentKey(w.bonus.value.paymentId, Held);
      && k !in w.books.keys && ctx.leg.Some? && (forall x <- Judge(net, w, e, w.bonus).effects :: Unpaired(x))
      && forall x <- Judge(net, w, e, w.bonus).effects ::
           x.PostEntry? ==> LegHeldKey(ctx, x.event).Some? && LegHeldKey(ctx, x.event) != Some(k)
  {
    hide Inv, Judge, Unpaired;
    FundedUnpaired(net, w, e);
    LegHoldsApart(net, w);
  }

  /** The plan names the hold that was seen. */
  lemma PlanNamesIt(net: Network, w: World, e: Event, h: BonusHold)
    requires Heeds(w, e) && !e.LegFunded? && !e.StorageExpiry? && Foreign(w, h) && Judge(net, w, e, Some(h)).Accept?
    ensures Judge(net, w, e, Some(h)) != Judge(net, w, e, w.bonus)
  {
    var seen, own := Judge(net, w, e, Some(h)), Judge(net, w, e, w.bonus);
    if own.Accept? && w.bonus.None? {
      assert |seen.effects| > |own.effects|;
    } else if own.Accept? {
      var at := if e.LegFundingExpired? then 3 else if e.RecipientPickup? || e.Reroute? then 0 else 6;
      assert seen.effects[at] != own.effects[at];
    }
  }

  lemma ExpiryNamesIt(net: Network, w: World, e: Event, h: BonusHold)
    requires Heeds(w, e) && e.StorageExpiry? && Foreign(w, h) && Judge(net, w, e, Some(h)).Accept?
    ensures Judge(net, w, e, Some(h)) != Judge(net, w, e, w.bonus)
  {
    var seen, own := Judge(net, w, e, Some(h)), Judge(net, w, e, w.bonus);
    if w.bonus.None? {
      assert |seen.effects| > |own.effects|;
    } else {
      var at := if w.state == AtHub then 3 else 0;
      assert seen.effects[at] != own.effects[at];
    }
  }

  /** Going by a foreign bonus hold does something else exactly for the events that
      heed it. */
  lemma DeedsDifferExactly(net: Network, w: World, e: Event, h: BonusHold)
    requires Inv(net, w) && Foreign(w, h) && Judge(net, w, e, Some(h)).Accept?
    ensures SameDeed(net, w, e, Some(h)) <==> !Heeds(w, e)
  {
    hide Judge, Run, Audited, OnlyLivePending, RefsMinted, StayOk, LegOk, RequestOk, BonusOk, ClaimOk, ExpectedTimers;
    if !Heeds(w, e) { Heedless(net, w, e, Some(h)); }
    else if e.StorageExpiry? { ExpiryNamesIt(net, w, e, h); }
    else if !e.LegFunded? { PlanNamesIt(net, w, e, h); }
    else if w.bonus.None? { FundedPlanDiffers(net, w, e, h); }
    else if Judge(net, w, e, Some(h)) == Judge(net, w, e, w.bonus) { FundedUnderAnother(net, w, e, h); }
  }

  lemma SeenIsForeign(net: Network, s: Scene, own: set<Slot>, seen: Option<BonusHold>)
    requires Coherent(net, s) && Viewer(s, own) && Sees(s, own, seen) && seen != s.world.bonus
    ensures seen.Some? && Foreign(s.world, seen.value)
  {
    hide Reachable, RefDisjoint, Inv, SnapshotOk, AttemptOk, HoldsExact;
    CoherentInv(net, s);
    if s.world.bonus.Some? {
      BonusShows(net, s, own);
      BonusIsOpen(net, s.world);
      var k :| k in BonusRows(s, own) && RowIs(s, k, seen.value);
    }
  }

  /** A transaction whose effects agree with the plan is misled if and only if it
      saw another hold than the shipment's and its event heeds it. */
  lemma MisledExactly(net: Network, s: Scene, i: nat, seen: Option<BonusHold>)
    requires Coherent(net, s) && s.course == OnCourse && Active(s, i) && s.attempts[i].made == SlotsOf(s.attempts[i].planned)
    requires Sees(s, s.attempts[i].made, seen)
    requires var again := Judge(net, s.world, EventOf(s.attempts[i].cmd), seen);
      && again.Accept? && again.effects == s.attempts[i].planned
      && s.attempts[i].from.state == s.world.state
    ensures Act(net, s, Finish(i, seen)).course == Misled
            <==> seen != s.world.bonus && Heeds(s.world, EventOf(s.attempts[i].cmd))
  {
    hide Coherent, Judge, Sees, SlotsOf, Inv, Execute, Run, Heeds;
    CoherentInv(net, s);
    if seen != s.world.bonus {
      SeenIsForeign(net, s, s.attempts[i].made, seen);
      DeedsDifferExactly(net, s.world, EventOf(s.attempts[i].cmd), seen.value);
    }
  }

  // ----------------------------------------------------------- a race in which it does

  lemma OtherBonusIsThere(t: Scene, j: nat, e: Event, amount: Msat)
    requires e.DepositAccept? && j < |t.attempts| && BonusSlot(e) in t.attempts[j].made
    requires exists x <- t.attempts[j].planned :: x.CreatePayment? && (x.purpose, x.ref) == BonusSlot(e) && x.amount == amount
    requires BonusSlot(e) in t.holds && t.holds[BonusSlot(e)] && BonusSlot(e) !in t.world.books.idem
    ensures Sees(t, {}, Some(BonusHold(|t.world.books.payments|, amount)))
  {
    assert AskedBy(t.attempts[j], BonusSlot(e), amount);
    assert BonusSlot(e) in BonusRows(t, {});
    assert RowIs(t, BonusSlot(e), BonusHold(|t.world.books.payments|, amount));
  }

  /** A slot of a row that only this invocation mints is nobody else's. */
  lemma FreshSlot(net: Network, s: Scene, j: nat, k: Slot)
    requires Coherent(net, s) && Active(s, j) && s.attempts[j].made == {} && k.1 in MintedBy(EventOf(s.attempts[j].cmd))
    requires !k.1.LegRef?
    ensures k !in s.holds && k !in s.world.books.idem
  {
    hide Reachable, SlotsOf, Mentions, Issued, SnapshotOk, IdemExact;
    if k in s.holds {
      assert Made(s, k);
      var i: nat :| i < |s.attempts| && k in s.attempts[i].made;
      assert AttemptOk(s, s.attempts[i]) && OwnSlot(EventOf(s.attempts[i].cmd), k);
      Apart(s.attempts, j, i);
      NotMinted(MintedBy(EventOf(s.attempts[i].cmd)), MintedBy(EventOf(s.attempts[j].cmd)), k.1);
    }
  }

  lemma AcceptAsksForBonus(net: Network, w: World, e: Event)
    requires Acceptable(w, e) && w.request.value.hubBonus > 0 && Judge(net, w, e, None).Accept?
    ensures exists x <- Judge(net, w, e, None).effects ::
      x.CreatePayment? && (x.purpose, x.ref) == BonusSlot(e) && x.amount == w.request.value.hubBonus
    ensures BonusSlot(e) in Elements(AcceptSlots(w.request.value, e))
  {
    AcceptIs(net, w, e);
    assert AcceptSlots(w.request.value, e)[3] == BonusSlot(e);
    assert Judge(net, w, e, None).effects[3].CreatePayment?;
  }

  /** The shipment right after a committed acceptance. */
  lemma WonWorld(net: Network, w: World, cmd: Command, v: World)
    requires Acceptable(w, EventOf(cmd)) && Execute(net, w, cmd) == Ok(v)
    ensures v.state == AtHub && v.stay.Some? && v.leg.Some?
    ensures v.leg.value.fundingDeadline == EventOf(cmd).fundingDeadline
  {
    AcceptIs(net, w, EventOf(cmd));
    hide Run;
  }

  lemma FundingAccepted(net: Network, w: World, e: Event, seen: Option<BonusHold>)
    requires w.state == AtHub && w.stay.Some? && w.leg.Some? && e.LegFunded? && e.now <= w.leg.value.fundingDeadline
    ensures Judge(net, w, e, seen).Accept? && SlotsOf(Judge(net, w, e, seen).effects) == {}
  {}

  /** One more invocation in the scene takes nothing from the view. */
  lemma StillSeen(s: Scene, a: Attempt, own: set<Slot>, seen: Option<BonusHold>)
    requires Sees(s, own, seen)
    ensures Sees(s.(attempts := s.attempts + [a]), own, seen)
  {
    var t := s.(attempts := s.attempts + [a]);
    assert BonusRows(t, own) == BonusRows(s, own);
    if seen.Some? {
      var k :| k in BonusRows(s, own) && RowIs(s, k, seen.value);
      if k !in s.world.books.idem {
        var b :| b in s.attempts && AskedBy(b, k, seen.value.amount);
        assert b in t.attempts;
      }
      assert RowIs(t, k, seen.value);
    }
  }

  lemma HeldOnceTaken(s: Scene, i: nat, made: set<Slot>, k: Slot)
    requires i < |s.attempts| && k in made && k !in s.holds
    ensures var t := Taken(s, i, made); k in t.holds && t.holds[k] && k in t.attempts[i].made
  {}

  /** The funding window of a leg closes with the wrong hold recognised: two
      acceptances of a request with a hub bonus, of which one commits; the other's
      bonus hold stands; leg_funded reads that one, both times. */
  lemma MisledHappens(net: Network, s: Scene, c: Command, d: Command, f: Command) returns (moves: seq<Move>)
    requires TwoMayAccept(net, s, c, d) && s.world.request.value.hubBonus > 0
    requires f.Handle? && 0 <= f.frozenWork && EventOf(f).LegFunded? && EventOf(f).now <= EventOf(c).fundingDeadline
    ensures Interleave(net, s, moves).course == Misled
  {
    hide Interleave, Judge, SlotsOf, Coherent, Act, Execute, Inv, Acceptable, Unclaimed, Elements, AcceptSlots, Sees;
    AcceptanceFacts(net, s.world, c);
    AcceptanceFacts(net, s.world, d);
    var j, r := |s.attempts| + 1, s.world.request.value;
    var first := FirstWins(net, s, c, d);
    var t := Interleave(net, s, first);
    var ks, k := AcceptSlots(r, EventOf(d)), BonusSlot(EventOf(d));
    AcceptSlotsAre(net, s.world, EventOf(d));
    AcceptAsksForBonus(net, s.world, EventOf(d));
    MakesAll(net, t, j, ks);
    var u := Taken(t, j, Elements(ks));
    RacesKeep(net, s, first);
    RacesKeep(net, t, MakeMoves(j, ks));
    FreshSlot(net, t, j, k);
    HeldOnceTaken(t, j, Elements(ks), k);
    OtherBonusIsThere(u, j, EventOf(d), r.hubBonus);
    WonWorld(net, s.world, c, t.world);
    var tail := FundingMisled(net, u, f, BonusHold(|u.world.books.payments|, r.hubBonus));
    moves := first + MakeMoves(j, ks) + tail;
    RaceConcat(net, s, first, MakeMoves(j, ks));
    RaceConcat(net, s, first + MakeMoves(j, ks), tail);
  }

  lemma FundingMisled(net: Network, s: Scene, f: Command, h: BonusHold) returns (moves: seq<Move>)
    requires Coherent(net, s) && s.course == OnCourse && Sees(s, {}, Some(h)) && h.paymentId >= |s.world.books.payments|
    requires s.world.state == AtHub && s.world.stay.Some? && s.world.leg.Some?
    requires f.Handle? && 0 <= f.frozenWork && EventOf(f).LegFunded? && EventOf(f).now <= s.world.leg.value.fundingDeadline
    ensures Interleave(net, s, moves).course == Misled
  {
    hide Interleave, Judge, SlotsOf, Coherent, Execute, Inv, Sees, Transact;
    var i, seen := |s.attempts|, Some(h);
    FundingAccepted(net, s.world, EventOf(f), seen);
    var t := Act(net, s, Begin(f, seen));
    assert Unclaimed(s, EventOf(f));
    StillSeen(s, t.attempts[i], {}, seen);
    ActKeeps(net, s, Begin(f, seen));
    CoherentInv(net, s);
    NotOurs(net, s, h);
    MisledExactly(net, t, i, seen);
    RaceOne(net, s, Begin(f, seen));
    RaceOne(net, t, Finish(i, seen));
    moves := [Begin(f, seen)] + [Finish(i, seen)];
    RaceConcat(net, s, [Begin(f, seen)], [Finish(i, seen)]);
  }

  lemma NotOurs(net: Network, s: Scene, h: BonusHold)
    requires Coherent(net, s) && h.paymentId >= |s.world.books.payments|
    ensures Some(h) != s.world.bonus
  {
    hide Reachable, Inv, AttemptOk, HoldsExact, SnapshotOk;
    CoherentInv(net, s);
    if s.world.bonus.Some? { BonusIsOpen(net, s.world); }
  }
}
