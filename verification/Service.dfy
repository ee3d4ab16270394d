/** The executor and the timer sweep as they run: rows updated in place, one
    transaction per command, effects taken one by one. */
module Service {
  import opened Economics
  import opened Shipment
  import opened StateMachine
  import opened Books
  import opened Executor
  import opened EffectRuns
  import opened Invariant
  import opened Runs
  import opened Guarantees

  /** The key of the entry at index `i`, from its neighbours and from the ids of
      the payments created so far by effect index. */
  method DeriveLedgerKey(effects: seq<Effect>, i: nat, ctx: Context, createdIds: map<nat, nat>, payments: seq<Payment>)
    returns (key: Option<Key>)
    requires i < |effects| && effects[i].PostEntry?
    requires i > 0 && effects[i - 1].CreatePayment? ==>
               i - 1 in createdIds && payments != [] && createdIds[i - 1] == |payments| - 1
    ensures forall c: Cursor :: c.books.payments == payments && c.prev == (if i > 0 then Some(effects[i - 1]) else None)
              ==> key == DeriveKey(c, ctx, effects[i].event)
  {
    var event := effects[i].event;
    var kind := LedgerKind(event);
    if i > 0 {
      var prev := effects[i - 1];
      match prev
      case InstantPayment(_, _, _, reason, ref) => return Some(FeeKey(ref, reason));
      case CreatePayment(_, _, _, _, _) => if kind == Some(Held) { return Some(PaymentKey(createdIds[i - 1], Held)); }
      case ReleasePayment(p) => if kind == Some(Settled) { return Some(PaymentKey(p, Settled)); }
      case RefundPayment(p) => if kind == Some(GivenBack) { return Some(PaymentKey(p, GivenBack)); }
      case _ =>
    }
    if kind == Some(Held) && ctx.leg.Some? {
      key := LegHeldKey(ctx, event);
      if key.Some? { return; }
    }
    if kind == Some(Held) && ctx.claim.Some? {
      key := ClaimHeldKey(ctx, event);
      return;
    }
    return None;
  }

  /** The effect loop of one transaction. */
  method RunEffects(books: Books, ctx: Context, effects: seq<Effect>) returns (r: Result<Books>)
    ensures match Run(Cursor(books, None), ctx, effects)
      case Ok(c) => r == Ok(c.books)
      case Err(f) => r == Err(f)
  {
    var b := books;
    var createdIds: map<nat, nat> := map[];
    for i := 0 to |effects|
      invariant Run(Cursor(books, None), ctx, effects)
             == Run(Cursor(b, if i > 0 then Some(effects[i - 1]) else None), ctx, effects[i..])
      invariant i > 0 && effects[i - 1].CreatePayment? ==>
                  i - 1 in createdIds && b.payments != [] && createdIds[i - 1] == |b.payments| - 1
    {
      ghost var c := Cursor(b, if i > 0 then Some(effects[i - 1]) else None);
      assert effects[i..][0] == effects[i] && effects[i..][1..] == effects[i + 1..];
      match effects[i]
      case CreatePayment(purpose, payer, payee, amount, ref) =>
        if amount <= 0 || payer == payee { return Err(EscrowRefused); }
        if (purpose, ref) in b.idem { return Err(IdemReused); }
        createdIds := createdIds[i := |b.payments|];
        b := Register(b, Payment(purpose, payer, payee, amount, ref, Pending));
      case ReleasePayment(p) =>
        if p >= |b.payments| { return Err(UnknownPayment); }
        if b.payments[p].verdict != Pending { return Err(DecidedTwice); }
        b := Decide(b, p, Released);
      case RefundPayment(p) =>
        if p >= |b.payments| { return Err(UnknownPayment); }
        if b.payments[p].verdict != Pending { return Err(DecidedTwice); }
        b := Decide(b, p, Refunded);
      case PostEntry(event, ref, postings) =>
        var key := DeriveLedgerKey(effects, i, ctx, createdIds, b.payments);
        assert key == DeriveKey(c, ctx, event);
        if key.None? { return Err(UnderivableKey); }
        if |postings| < 2 || Total(postings) != 0 { return Err(Unbalanced); }
        b := Post(b, Entry(key.value, event, ref, postings));
      case AppendEvent(custody) => b := b.(chain := b.chain + [custody]);
      case Schedule(timeout, refId, at) => b := b.(timers := b.timers[TimerKey(timeout, refId) := at]);
      case Unschedule(timeout, refId) => b := b.(timers := b.timers - {TimerKey(timeout, refId)});
      case InstantPayment(_, _, _, _, _) =>
      case QueueEmail(_) =>
      case RotatePickupOtp =>
      case RotateClaimToken =>
    }
    return Ok(b);
  }

  /** The rows an accepted event is about. */
  lemma RowsPresent(s: State, e: Event, ctx: Context)
    requires Transition(s, e, ctx).Accept?
    ensures e.OriginCheckin? || e.RequestLeg? || e.RecipientClaim? ==> ctx.stay.Some?
    ensures e.DepositAccept? ==> ctx.request.Some?
    ensures e.LegFunded? || e.PickupCheckout? || e.LegCheckin? || e.LegReturn? ==> ctx.leg.Some?
  {}

  predicate OfALeg(e: Event) {
    e.RequestLeg? || e.DepositAccept? || e.DepositReject? || e.DepositRequestExpired? || e.DepositRequestCancel? || e.LegFunded?
    || e.LegFundingExpired? || e.PickupCheckout? || e.PickupTimeout? || e.LegCheckin? || e.LegReturn? || e.TransitTimeout?
  }

  /** One shipment's rows. */
  class ShipmentStore {
    const net: Network
    const sender: UserId
    const originHub: HubId
    const bond: Msat
    const offer: Msat
    var destHub: HubId
    var state: State
    var pool: Pool
    var stay: Option<HubStay>
    var leg: Option<Leg>
    var request: Option<LegRequest>
    var claim: Option<Claim>
    var bonus: Option<BonusHold>
    var minted: set<Ref>
    var books: Books

    constructor (net: Network, w: World)
      ensures this.net == net && Snapshot() == w
    {
      this.net := net;
      sender, originHub, bond, offer := w.sender, w.originHub, w.bond, w.offer;
      destHub, state, pool := w.destHub, w.state, w.pool;
      stay, leg, request, claim, bonus := w.stay, w.leg, w.request, w.claim, w.bonus;
      minted, books := w.minted, w.books;
    }

    function Snapshot(): World
      reads this
    {
      World(sender, originHub, destHub, bond, offer, state, pool, stay, leg, request, claim, bonus, minted, books)
    }

    /** The event's mapping onto the rows, in place. */
    method Project(e: Event, idem: map<(Purpose, Ref), nat>)
      requires Wanted(Snapshot(), e) <= idem.Keys
      requires Transition(state, e, ContextOf(net, Snapshot())).Accept?
      modifies this
      ensures Snapshot() == ProjectRows(net, old(Snapshot()), e, idem)
    {
      hide Transition, ProjectRows;
      if OfALeg(e) { ProjectLeg(e, idem); } else { ProjectCustody(e, idem); }
    }

    /** Requests and legs, from the first asking to the last hand-over. */
    method ProjectLeg(e: Event, idem: map<(Purpose, Ref), nat>)
      requires Wanted(Snapshot(), e) <= idem.Keys && OfALeg(e)
      requires Transition(state, e, ContextOf(net, Snapshot())).Accept?
      modifies this
      ensures Snapshot() == ProjectRows(net, old(Snapshot()), e, idem)
    {
      hide Transition;
      RowsPresent(state, e, ContextOf(net, Snapshot()));
      match e
      case RequestLeg(legId, carrier, _, _, toHub, _, pricing, hubBonus, deadline) =>
        var from := stay.value.hub;
        request := Some(LegRequest(legId, carrier, from, net.owner(from), toHub, net.owner(toHub), pricing, hubBonus, deadline));
      case DepositAccept(_, arrivalStay, _, fundingDeadline) =>
        var r := request.value;
        request := None;
        leg := Some(Leg(r.id, r.carrier, r.fromHub, r.fromUser, r.toHub, r.toUser, arrivalStay, r.pricing,
                        idem[(LegPayment, LegRef(r.id))], idem[(CustodyBond, LegRef(r.id))],
                        idem[(CustodyBond, StayRef(arrivalStay))], fundingDeadline, None, None));
        bonus := if r.hubBonus > 0 then Some(BonusHold(idem[(FinalizationBonus, StayRef(arrivalStay))], r.hubBonus)) else None;
      case DepositReject(_, _) => request := None;
      case DepositRequestExpired(_) => request := None;
      case DepositRequestCancel => request := None;
      case LegFunded(_, deadline) => leg := Some(leg.value.(pickupDeadline := Some(deadline)));
      case LegFundingExpired(_) => leg, bonus := None, None;
      case PickupCheckout(_, _, _, _, deadline) =>
        stay := None;
        leg := Some(leg.value.(transitDeadline := Some(deadline)));
      case PickupTimeout(_) => leg, bonus := None, None;
      case LegCheckin(_, _, _, _, deadline) =>
        var l := leg.value;
        leg := None;
        stay := Some(HubStay(l.arrivalStay, l.toHub, l.toUser, l.arrivalBondId, deadline));
      case LegReturn(_, _, returnStay, _, deadline) =>
        var l := leg.value;
        leg, bonus := None, None;
        stay := Some(HubStay(returnStay, l.fromHub, l.fromUser, idem[(CustodyBond, StayRef(returnStay))], deadline));
      case TransitTimeout(_) => leg, bonus := None, None;
    }

    /** Everything else: the stays, the claims, and the ends. */
    method ProjectCustody(e: Event, idem: map<(Purpose, Ref), nat>)
      requires Wanted(Snapshot(), e) <= idem.Keys && !OfALeg(e)
      requires Transition(state, e, ContextOf(net, Snapshot())).Accept?
      modifies this
      ensures Snapshot() == ProjectRows(net, old(Snapshot()), e, idem)
    {
      hide Transition;
      RowsPresent(state, e, ContextOf(net, Snapshot()));
      match e
      case OriginHubAccept(stayId, _) =>
        stay := Some(HubStay(stayId, originHub, net.owner(originHub), idem[(CustodyBond, StayRef(stayId))], 0));
      case OriginCheckin(_, deadline) => stay := Some(stay.value.(storageDeadline := deadline));
      case RecipientPickup(_) => stay, bonus := None, None;
      case RecipientClaim(claimId, claimant, _, _, payment, hubBonus, deadline) =>
        claim := Some(Claim(claimId, claimant, stay.value.id, payment, hubBonus, idem[(ClaimPayment, ClaimRef(claimId))],
                            if hubBonus > 0 then Some(idem[(FinalizationBonus, ClaimRef(claimId))]) else None, deadline));
      case ClaimFundingExpired(_) => claim := None;
      case RecipientClaimedPickup(_) => stay, claim := None, None;
      case StorageExpiry(_) => stay, leg, request, claim, bonus := None, None, None, None, None;
      case Reroute(newDest, _, _) =>
        if newDest.Some? {
          destHub := newDest.value;
          if state == AwaitingPickup { bonus := None; }
        }
      case Cancel => stay := None;
      case _ =>
    }

    /** One command: the next world, or a failure that changes nothing. */
    method ExecuteCommand(cmd: Command) returns (failure: Option<Failure>)
      modifies this
      ensures match Execute(net, old(Snapshot()), cmd)
        case Ok(v) => failure == None && Snapshot() == v
        case Err(f) => failure == Some(f) && Snapshot() == old(Snapshot())
    {
      var w, e := Snapshot(), EventOf(cmd);
      var ctx := ContextOf(net, w);
      var outcome := Transition(state, e, ctx);
      if !outcome.Accept? { return Some(Rejected(outcome)); }
      if MintedBy(e) * minted != {} { return Some(DuplicateRow); }
      var ran := RunEffects(books, ctx, outcome.effects);
      if ran.Err? { return Some(ran.failure); }
      if !(Wanted(w, e) <= ran.value.idem.Keys) { return Some(NothingCreated); }
      Project(e, ran.value.idem);
      state := outcome.next;
      pool := AdvancePool(w.pool, cmd, outcome.next);
      minted := w.minted + MintedBy(e);
      books := Consume(ran.value, cmd);
      return None;
    }

    /** Fire the timers a query found due; a rejected one is deleted as stale,
        any other failure keeps its row for the next sweep. */
    method FireDueTimers(due: seq<TimerKey>, now: Time) returns (fired: nat, stale: nat)
      modifies this
      ensures Swept(Snapshot(), fired, stale) == Sweep(net, old(Snapshot()), due, now)
    {
      fired, stale := 0, 0;
      for i := 0 to |due|
        invariant Sweep(net, old(Snapshot()), due, now)
               == AddCounts(Sweep(net, Snapshot(), due[i..], now), fired, stale)
      {
        assert due[i..][0] == due[i] && due[i..][1..] == due[i + 1..];
        var failure := ExecuteCommand(Fire(due[i], now));
        match failure
        case None => fired := fired + 1;
        case Some(Rejected(_)) =>
          books := books.(timers := books.timers - {due[i]});
          stale := stale + 1;
        case _ =>
      }
    }
  }

  datatype Swept = Swept(world: World, fired: nat, stale: nat)

  function AddCounts(s: Swept, fired: nat, stale: nat): Swept {
    s.(fired := s.fired + fired, stale := s.stale + stale)
  }

  /** A sweep over the timers that were due when it started. */
  function Sweep(net: Network, w: World, due: seq<TimerKey>, now: Time): Swept
    decreases |due|
  {
    if due == [] then Swept(w, 0, 0)
    else
      match Execute(net, w, Fire(due[0], now))
      case Ok(v) => AddCounts(Sweep(net, v, due[1..], now), 1, 0)
      case Err(Rejected(_)) =>
        AddCounts(Sweep(net, w.(books := w.books.(timers := w.books.timers - {due[0]})), due[1..], now), 0, 1)
      case Err(_) => Sweep(net, w, due[1..], now)
  }

  /** Everything due at `now`, each once, in any order. */
  ghost predicate AllDue(w: World, due: seq<TimerKey>, now: Time) {
    && (forall k <- due :: k in w.books.timers && w.books.timers[k] <= now)
    && (forall k <- w.books.timers.Keys :: w.books.timers[k] <= now ==> k in due)
    && (forall i, j :: 0 <= i < j < |due| ==> due[i] != due[j])
  }

  /** After the end a sweep changes nothing: what it still holds is stale. */
  lemma {:induction false} SweepAfterEnd(net: Network, w: World, due: seq<TimerKey>, now: Time)
    requires Terminal(w.state) && w.books.timers == map[]
    ensures Sweep(net, w, due, now) == Swept(w, 0, |due|)
    decreases |due|
  {
    if due != [] {
      assert Execute(net, w, Fire(due[0], now)) == Err(Rejected(Illegal));
      assert w.books.timers - {due[0]} == map[];
      SweepAfterEnd(net, w, due[1..], now);
    }
  }

  /** A firing that does not end the shipment leaves its storage timer alone, and
      no other timer of before. */
  lemma OnlyStorageRemains(net: Network, w: World, first: TimerKey, v: World, now: Time)
    requires Inv(net, w) && Inv(net, v) && InCustody(w.state) && first in w.books.timers
    requires Execute(net, w, Fire(first, now)) == Ok(v) && OnlyStored(v)
    ensures v.stay.Some?
    ensures forall k <- w.books.timers.Keys :: k != first ==> k in v.books.timers && v.books.timers[k] == w.books.timers[k]
    ensures v.books.timers.Keys == {TimerKey(Storage, v.stay.value.id)}
    ensures forall k <- w.books.timers.Keys :: k != first ==> k == TimerKey(Storage, v.stay.value.id)
  {
    hide Inv, Execute, ExpectedTimers;
    FiredShape(net, w, Fire(first, now), v);
    FiredStay(net, w, Fire(first, now), v);
    Parts(net, w);
    Parts(net, v);
    StorageRemains(w, first, v);
  }

  lemma StorageRemains(w: World, first: TimerKey, v: World)
    requires Shape(w) && Shape(v) && first in w.books.timers && OnlyStored(v) && v.stay == w.stay
    requires w.books.timers == ExpectedTimers(w) && v.books.timers == ExpectedTimers(v)
    requires if first.kind == PickupWindow then w.state == LegBooked else w.state == AtHub
    requires first.kind != Storage
    ensures forall k <- w.books.timers.Keys :: k != first ==> k in v.books.timers && v.books.timers[k] == w.books.timers[k]
    ensures v.books.timers.Keys == {TimerKey(Storage, v.stay.value.id)}
    ensures forall k <- w.books.timers.Keys :: k != first ==> k == TimerKey(Storage, v.stay.value.id)
  {}

  lemma FiredStay(net: Network, w: World, cmd: Command, v: World)
    requires cmd.Fire? && Execute(net, w, cmd) == Ok(v) && !Terminal(v.state)
    ensures v.stay == w.stay
    ensures cmd.timer.kind == PickupWindow ==> w.state == LegBooked
    ensures cmd.timer.kind != PickupWindow ==> w.state == AtHub
  {
    hide Run, RefundPendingLegHolds, RefundPendingClaimHolds, RefundFinalizationBonus, RefundHeldClaimHolds,
      DissolveAtStorageExpiry, RefundStayBond, SlashCarrierBond, RefundLegPayment, RefundArrivalBond;
  }

  /** One sweep over everything due ends the shipment, or returns the parcel to
      plain storage; no timer it holds is lost to an error, and a stale one
      means that the shipment ended within the sweep. */
  lemma SweepAdvances(net: Network, w: World, due: seq<TimerKey>, now: Time)
    requires Inv(net, w) && InCustody(w.state) && AllDue(w, due, now) && due != []
    ensures var s := Sweep(net, w, due, now);
      && Inv(net, s.world)
      && (Terminal(s.world.state) || (OnlyStored(s.world) && !OnlyStored(w)))
      && s.fired + s.stale == |due| && 0 < s.fired
      && (0 < s.stale ==> Terminal(s.world.state))
  {
    var first := Fire(due[0], now);
    hide Inv, Execute, Sweep, AllDue;
    assert Issued(w, first) by { FirstDue(w, due, now); }
    FiringAdvances(net, w, first);
    StepKeeps(net, w, first);
    var v := Execute(net, w, first).value;
    SweepFires(net, w, due, now);
    if Terminal(v.state) {
      EndedHasNoTimers(net, v);
      SweepAfterEnd(net, v, due[1..], now);
    } else {
      SweepTheRest(net, w, due, v, now);
    }
  }

  lemma FirstDue(w: World, due: seq<TimerKey>, now: Time)
    requires AllDue(w, due, now) && due != []
    ensures Issued(w, Fire(due[0], now))
  {
    assert due[0] in due;
  }

  lemma SweepFires(net: Network, w: World, due: seq<TimerKey>, now: Time)
    requires due != [] && Execute(net, w, Fire(due[0], now)).Ok?
    ensures Sweep(net, w, due, now) == AddCounts(Sweep(net, Execute(net, w, Fire(due[0], now)).value, due[1..], now), 1, 0)
  {}

  lemma EndedHasNoTimers(net: Network, w: World)
    requires Inv(net, w) && Terminal(w.state)
    ensures w.books.timers == map[]
  {}

  lemma SweepTheRest(net: Network, w: World, due: seq<TimerKey>, v: World, now: Time)
    requires Inv(net, w) && Inv(net, v) && InCustody(w.state) && AllDue(w, due, now) && due != []
    requires Execute(net, w, Fire(due[0], now)) == Ok(v) && OnlyStored(v)
    ensures var s := Sweep(net, v, due[1..], now);
      && Inv(net, s.world) && (Terminal(s.world.state) || s.world == v)
      && s.fired == |due| - 1 && s.stale == 0
  {
    hide Inv, Execute, Sweep, Issued, AllDue;
    FirstDue(w, due, now);
    OnlyStorageRemains(net, w, due[0], v, now);
    RestIsStorage(w, due, v, now);
    SweepNothing(net, v, now);
    if due[1..] != [] {
      var second := Fire(due[1], now);
      assert due[1..] == [due[1]];
      FiringAdvances(net, v, second);
      StepKeeps(net, v, second);
      SweepFires(net, v, due[1..], now);
      SweepNothing(net, Execute(net, v, second).value, now);
      assert due[1..][1..] == [];
    }
  }

  lemma SweepNothing(net: Network, w: World, now: Time)
    ensures Sweep(net, w, [], now) == Swept(w, 0, 0)
  {}

  lemma Repeats(due: seq<TimerKey>, k: TimerKey)
    requires |due| > 2 && forall i :: 0 < i < |due| ==> due[i] == k
    ensures exists i, j :: 0 <= i < j < |due| && due[i] == due[j]
  {
    assert due[1] == due[2];
  }

  lemma RestIsStorage(w: World, due: seq<TimerKey>, v: World, now: Time)
    requires AllDue(w, due, now) && due != [] && v.stay.Some?
    requires forall k <- w.books.timers.Keys :: k != due[0] ==>
               && k == TimerKey(Storage, v.stay.value.id) && k in v.books.timers && v.books.timers[k] == w.books.timers[k]
    ensures |due| <= 2
    ensures |due| == 2 ==> Issued(v, Fire(due[1], now))
  {
    forall i: nat | 0 < i < |due|
      ensures due[i] == TimerKey(Storage, v.stay.value.id) && due[i] in v.books.timers && v.books.timers[due[i]] <= now
    {
      assert due[i] in due && due[0] != due[i];
    }
    if |due| > 2 { Repeats(due, TimerKey(Storage, v.stay.value.id)); }
  }

  /** Two sweeps, each finding something due, end any shipment in custody. */
  lemma TwoSweepsSuffice(net: Network, w: World, due: seq<TimerKey>, now: Time, due2: seq<TimerKey>, later: Time)
    requires Reachable(net, w) && InCustody(w.state) && AllDue(w, due, now) && due != []
    requires AllDue(Sweep(net, w, due, now).world, due2, later)
    requires !Terminal(Sweep(net, w, due, now).world.state) ==> due2 != []
    ensures Terminal(Sweep(net, Sweep(net, w, due, now).world, due2, later).world.state)
  {
    ReachableKeeps(net, w);
    hide Inv, Sweep, AllDue, Reachable;
    SweepAdvances(net, w, due, now);
    var v := Sweep(net, w, due, now).world;
    if Terminal(v.state) {
      EndedHasNoTimers(net, v);
      SweepAfterEnd(net, v, due2, later);
    } else {
      SweepAdvances(net, v, due2, later);
    }
  }
}
