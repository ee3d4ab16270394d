/** The custody chain as the only memory: rebuilding the price segment, the
    bonus quotas, the frozen hub share of a request and the pending bonus hold
    from rows and chain gives exactly what was maintained step by step. */
module Replay {
  import opened Economics
  import opened Shipment
  import opened StateMachine
  import opened Books
  import opened Executor
  import opened EffectRuns
  import opened Invariant
  import opened Runs

  /** What the bundle loader accumulates over the chain. */
  datatype Replayed = Replayed(
    boosts: seq<PoolBoost>, carrierQuota: Msat, hubQuota: Msat, carrierConsumed: bool, waiting: Option<Msat>)

  function ReplayStart(offer: Msat): Replayed
    requires 0 <= offer
  {
    var split := SplitCommitment(offer);
    Replayed([], split.carrierBonus, split.hubBonus, false, None)
  }

  /** A well-formed boosted payload, or nothing. */
  function ParseBoost(payload: Payload): Option<(Msat, Metres)> {
    match payload
    case BoostPayload(amount, at) => if amount <= 0 || at <= 0 then None else Some((amount, at))
    case _ => None
  }

  function ReplayStep(r: Replayed, x: CustodyEvent): Option<Replayed> {
    match x.kind
    case Rerouted => Some(r.(boosts := [], waiting := None))
    case ArrivedDestination => Some(r.(carrierConsumed := true, waiting := Some(0)))
    case Boosted =>
      var boost := ParseBoost(x.payload);
      if boost.None? || boost.value.0 < 0 then None
      else
        var split := SplitCommitment(boost.value.0);
        Some(r.(boosts := r.boosts + [PoolBoost(split.work, boost.value.1)],
                carrierQuota := r.carrierQuota + split.carrierBonus,
                hubQuota := r.hubQuota + split.hubBonus,
                waiting := if r.waiting.Some? then Some(r.waiting.value + split.work) else None))
    case _ => Some(r)
  }

  function ReplayOf(offer: Msat, chain: seq<CustodyEvent>): Option<Replayed>
    requires 0 <= offer
  {
    if chain == [] then Some(ReplayStart(offer))
    else
      match ReplayOf(offer, chain[..|chain| - 1])
      case None => None
      case Some(r) => ReplayStep(r, chain[|chain| - 1])
  }

  /** The accumulation loop. */
  method ReplayChain(offer: Msat, chain: seq<CustodyEvent>) returns (r: Option<Replayed>)
    requires 0 <= offer
    ensures r == ReplayOf(offer, chain)
  {
    var acc := ReplayStart(offer);
    for i := 0 to |chain|
      invariant ReplayOf(offer, chain[..i]) == Some(acc)
    {
      assert chain[..i + 1][..i] == chain[..i];
      var next := ReplayStep(acc, chain[i]);
      if next.None? {
        ReplayFails(offer, chain, i + 1);
        return None;
      }
      acc := next.value;
    }
    assert chain[..|chain|] == chain;
    return Some(acc);
  }

  lemma {:induction false} ReplayFails(offer: Msat, chain: seq<CustodyEvent>, n: nat)
    requires 0 <= offer && n <= |chain| && ReplayOf(offer, chain[..n]).None?
    ensures ReplayOf(offer, chain).None?
  {
    if n == |chain| {
      assert chain[..n] == chain;
    } else {
      assert chain[..|chain| - 1][..n] == chain[..n];
      ReplayFails(offer, chain[..|chain| - 1], n);
    }
  }

  predicate Asks(x: CustodyEvent, legId: Id) {
    x.kind == DepositRequested && x.leg == Some(legId)
  }

  /** The frozen hub share of a requested leg: the payload of its first
      deposit_requested event. */
  method RequestedHubBonus(chain: seq<CustodyEvent>, legId: Id) returns (r: Option<Msat>)
    ensures r == HubBonusIn(chain, legId)
  {
    for i := 0 to |chain|
      invariant HubBonusIn(chain, legId) == HubBonusIn(chain[i..], legId)
    {
      if Asks(chain[i], legId) {
        return if chain[i].payload.RequestPayload? then Some(chain[i].payload.hubBonus) else None;
      }
      assert chain[i..][1..] == chain[i + 1..];
    }
    return None;
  }

  function HubBonusIn(chain: seq<CustodyEvent>, legId: Id): Option<Msat> {
    if chain == [] then None
    else if Asks(chain[0], legId) then
      if chain[0].payload.RequestPayload? then Some(chain[0].payload.hubBonus) else None
    else HubBonusIn(chain[1..], legId)
  }

  /** The pending bonus hold of a final leg, found among the payments: an
      undecided finalization bonus that is not a claim's. */
  predicate IsBonusHold(p: Payment) {
    p.purpose == FinalizationBonus && !p.ref.ClaimRef? && p.verdict == Pending
  }

  method FindBonusHold(payments: seq<Payment>) returns (r: Option<BonusHold>)
    ensures r.None? ==> forall p <- payments :: !IsBonusHold(p)
    ensures r.Some? ==>
      && r.value.paymentId < |payments| && IsBonusHold(payments[r.value.paymentId])
      && r.value.amount == payments[r.value.paymentId].amount
      && forall i: nat :: i < r.value.paymentId ==> !IsBonusHold(payments[i])
  {
    for i := 0 to |payments|
      invariant forall p <- payments[..i] :: !IsBonusHold(p)
    {
      if IsBonusHold(payments[i]) {
        assert forall j: nat :: j < i ==> payments[j] in payments[..i];
        return Some(BonusHold(i, payments[i].amount));
      }
    }
    return None;
  }

  // ----------------------------------------------------------- one event per transition

  function Facts(es: seq<Effect>): seq<CustodyEvent> {
    if es == [] then []
    else (if es[0].AppendEvent? then [es[0].custody] else []) + Facts(es[1..])
  }

  lemma {:induction false} RunAppends(c: Cursor, ctx: Context, es: seq<Effect>)
    requires Run(c, ctx, es).Ok?
    ensures Run(c, ctx, es).value.books.chain == c.books.chain + Facts(es)
    decreases |es|
  {
    if es != [] {
      RunAppends(Apply(c, ctx, es[0]).value, ctx, es[1..]);
    }
  }

  lemma {:induction false} FactsAt(es: seq<Effect>, k: nat)
    requires k < |es| && es[k].AppendEvent?
    requires forall i :: 0 <= i < |es| && i != k ==> !es[i].AppendEvent?
    ensures Facts(es) == [es[k].custody]
    decreases |es|
  {
    if k > 0 {
      FactsAt(es[1..], k - 1);
    } else {
      NoFacts(es[1..]);
    }
  }

  lemma {:induction false} NoFacts(es: seq<Effect>)
    requires forall e <- es :: !e.AppendEvent?
    ensures Facts(es) == []
    decreases |es|
  {
    if es != [] {
      assert es[0] in es;
      NoFacts(es[1..]);
    }
  }

  /** The kind of event a transition leaves in the chain. */
  function KindOf(e: Event, next: State): CustodyType {
    match e
    case Create => Created
    case OriginHubAccept(_, _) => Funded
    case OriginCheckin(_, _) => HubCheckin
    case RequestLeg(_, _, _, _, _, _, _, _, _) => DepositRequested
    case DepositAccept(_, _, _, _) => LegAccepted
    case DepositReject(_, _) => HandoffRejected
    case DepositRequestExpired(_) => Expired
    case DepositRequestCancel => Expired
    case LegFunded(_, _) => Funded
    case LegFundingExpired(_) => Expired
    case PickupCheckout(_, _, _, _, _) => HubCheckout
    case PickupTimeout(_) => Expired
    case LegCheckin(_, _, _, _, _) => if next == AwaitingPickup then ArrivedDestination else HubCheckinIntermediate
    case LegReturn(_, _, _, _, _) => LegReturned
    case RecipientPickup(_) => RecipientPickedUp
    case RecipientClaim(_, _, _, _, _, _, _) => ClaimRequested
    case ClaimFunded(_) => Funded
    case ClaimFundingExpired(_) => Expired
    case RecipientClaimedPickup(_) => RecipientClaimed
    case HandoffReject(_, _, _, _) => HandoffRejected
    case StorageExpiry(_) => Expired
    case TransitTimeout(_) => Expired
    case Boost(_, _) => Boosted
    case Reroute(_, _, _) => Rerouted
    case Cancel => CancelledEvent
  }

  function PayloadOf(e: Event): Payload {
    match e
    case RequestLeg(_, _, _, _, _, _, _, hubBonus, _) => RequestPayload(hubBonus)
    case Boost(amount, at) => BoostPayload(amount, at)
    case _ => Plain
  }

  predicate FactOf(x: CustodyEvent, e: Event, next: State) {
    && x.kind == KindOf(e, next)
    && x.payload == PayloadOf(e)
    && (e.RequestLeg? ==> x.leg == Some(e.legId))
  }

  /** Where in the effect list the custody event stands. */
  function FactIndex(s: State, e: Event, ctx: Context): nat
    requires Transition(s, e, ctx).Accept?
  {
    var n := |Transition(s, e, ctx).effects|;
    match e
    case OriginCheckin(_, _) => 1
    case DepositReject(_, _) => 1
    case DepositRequestExpired(_) => 0
    case HandoffReject(_, _, _, _) => 0
    case RecipientPickup(_) => if n >= 2 then n - 2 else 0
    case RecipientClaimedPickup(_) => if n >= 2 then n - 2 else 0
    case LegCheckin(_, _, _, _, _) =>
      var back := if Transition(s, e, ctx).next == AwaitingPickup then 2 else 3;
      if n >= back then n - back else 0
    case Reroute(newDest, _, _) => if s == AwaitingPickup && newDest.Some? && ctx.bonus.Some? then 2 else 0
    case _ => if n >= 1 then n - 1 else 0
  }

  predicate HasOneFact(s: State, e: Event, ctx: Context)
    requires Transition(s, e, ctx).Accept?
  {
    var o := Transition(s, e, ctx);
    var k := FactIndex(s, e, ctx);
    && k < |o.effects| && o.effects[k].AppendEvent? && FactOf(o.effects[k].custody, e, o.next)
    && (forall i :: 0 <= i < |o.effects| && i != k ==> !o.effects[i].AppendEvent?)
  }

  lemma OneFactInArrivals(s: State, e: Event, ctx: Context)
    requires e.OriginHubAccept? || e.OriginCheckin? || e.RequestLeg? || e.DepositAccept?
    requires Transition(s, e, ctx).Accept?
    ensures HasOneFact(s, e, ctx)
  {}

  lemma OneFactInRequests(s: State, e: Event, ctx: Context)
    requires e.DepositReject? || e.DepositRequestExpired? || e.DepositRequestCancel? || e.HandoffReject? || e.Boost?
    requires Transition(s, e, ctx).Accept?
    ensures HasOneFact(s, e, ctx)
  {}

  lemma OneFactInBookings(s: State, e: Event, ctx: Context)
    requires e.LegFunded? || e.LegFundingExpired? || e.PickupCheckout?
    requires Transition(s, e, ctx).Accept?
    ensures HasOneFact(s, e, ctx)
  {}

  lemma OneFactInFailures(s: State, e: Event, ctx: Context)
    requires e.PickupTimeout? || e.TransitTimeout?
    requires Transition(s, e, ctx).Accept?
    ensures HasOneFact(s, e, ctx)
  {}

  lemma OneFactInCheckins(s: State, e: Event, ctx: Context)
    requires e.LegCheckin? && Transition(s, e, ctx).Accept?
    ensures HasOneFact(s, e, ctx)
  {}

  lemma OneFactInReturns(s: State, e: Event, ctx: Context)
    requires e.LegReturn? && Transition(s, e, ctx).Accept?
    ensures HasOneFact(s, e, ctx)
  {}

  lemma OneFactInCollections(s: State, e: Event, ctx: Context)
    requires e.RecipientClaimedPickup? && Transition(s, e, ctx).Accept?
    ensures HasOneFact(s, e, ctx)
  {}

  lemma OneFactInClaims(s: State, e: Event, ctx: Context)
    requires e.RecipientClaim? || e.ClaimFunded? || e.ClaimFundingExpired?
    requires Transition(s, e, ctx).Accept?
    ensures HasOneFact(s, e, ctx)
  {}

  lemma OneFactInExpiry(s: State, e: Event, ctx: Context)
    requires e.StorageExpiry?
    requires Transition(s, e, ctx).Accept?
    ensures HasOneFact(s, e, ctx)
  {}

  lemma OneFactInReroutes(s: State, e: Event, ctx: Context)
    requires e.Reroute?
    requires Transition(s, e, ctx).Accept?
    ensures HasOneFact(s, e, ctx)
  {}

  lemma OneFactInEndings(s: State, e: Event, ctx: Context)
    requires e.RecipientPickup? || e.Cancel?
    requires Transition(s, e, ctx).Accept?
    ensures HasOneFact(s, e, ctx)
  {}

  /** Every transition appends exactly one custody event, of the kind and with
      the payload its event calls for. */
  lemma OneFact(s: State, e: Event, ctx: Context)
    requires Transition(s, e, ctx).Accept?
    ensures HasOneFact(s, e, ctx)
    ensures Facts(Transition(s, e, ctx).effects) == [Transition(s, e, ctx).effects[FactIndex(s, e, ctx)].custody]
  {
    OneFactFor(s, e, ctx);
    hide Transition, FactIndex;
    FactsAt(Transition(s, e, ctx).effects, FactIndex(s, e, ctx));
  }

  lemma OneFactFor(s: State, e: Event, ctx: Context)
    requires Transition(s, e, ctx).Accept?
    ensures HasOneFact(s, e, ctx)
  {
    hide HasOneFact;
    if !e.Create? {
      hide Transition;
      if e.OriginHubAccept? || e.OriginCheckin? || e.RequestLeg? || e.DepositAccept? {
        OneFactInArrivals(s, e, ctx);
      } else if e.DepositReject? || e.DepositRequestExpired? || e.DepositRequestCancel? || e.HandoffReject? || e.Boost? {
        OneFactInRequests(s, e, ctx);
      } else if e.LegFunded? || e.LegFundingExpired? || e.PickupCheckout? {
        OneFactInBookings(s, e, ctx);
      } else if e.PickupTimeout? || e.TransitTimeout? {
        OneFactInFailures(s, e, ctx);
      } else if e.LegCheckin? {
        OneFactInCheckins(s, e, ctx);
      } else if e.LegReturn? {
        OneFactInReturns(s, e, ctx);
      } else if e.RecipientClaim? || e.ClaimFunded? || e.ClaimFundingExpired? {
        OneFactInClaims(s, e, ctx);
      } else if e.RecipientClaimedPickup? {
        OneFactInCollections(s, e, ctx);
      } else if e.StorageExpiry? {
        OneFactInExpiry(s, e, ctx);
      } else if e.Reroute? {
        OneFactInReroutes(s, e, ctx);
      } else {
        OneFactInEndings(s, e, ctx);
      }
    }
  }

  /** What one executed command adds to the chain. */
  lemma ChainGrows(net: Network, w: World, cmd: Command) returns (x: CustodyEvent)
    requires Execute(net, w, cmd).Ok?
    ensures Execute(net, w, cmd).value.books.chain == w.books.chain + [x]
    ensures FactOf(x, EventOf(cmd), Execute(net, w, cmd).value.state)
  {
    var e, ctx := EventOf(cmd), ContextOf(net, w);
    var outcome := Transition(w.state, e, ctx);
    x := outcome.effects[FactIndex(w.state, e, ctx)].custody by { OneFactFor(w.state, e, ctx); }
    hide Transition, Run, FactIndex, ProjectRows, AdvancePool;
    OneFact(w.state, e, ctx);
    RunAppends(Cursor(w.books, None), ctx, outcome.effects);
  }

  // ----------------------------------------------------------- replay refines the step-by-step state

  function PoolMemory(pool: Pool): Replayed {
    Replayed(pool.boosts, pool.carrierQuota, pool.hubQuota, pool.carrierConsumed, pool.waiting)
  }

  /** What the chain must remember of a world. */
  ghost predicate Remembered(w: World) {
    && 0 <= w.offer
    && ReplayOf(w.offer, w.books.chain) == Some(PoolMemory(w.pool))
    && (w.request.Some? ==> HubBonusIn(w.books.chain, w.request.value.id) == Some(w.request.value.hubBonus))
    && AskedForMinted(w.books.chain, w.minted)
  }

  /** Only minted legs were ever requested. */
  ghost predicate AskedForMinted(chain: seq<CustodyEvent>, minted: set<Ref>) {
    forall x <- chain :: x.kind == DepositRequested && x.leg.Some? ==> LegRef(x.leg.value) in minted
  }

  lemma ReplaySnoc(offer: Msat, chain: seq<CustodyEvent>, x: CustodyEvent)
    requires 0 <= offer && ReplayOf(offer, chain).Some?
    ensures ReplayOf(offer, chain + [x]) == ReplayStep(ReplayOf(offer, chain).value, x)
  {
    assert (chain + [x])[..|chain|] == chain;
  }

  lemma {:induction false} HubBonusSnoc(chain: seq<CustodyEvent>, x: CustodyEvent, legId: Id)
    ensures (exists y <- chain :: Asks(y, legId)) ==> HubBonusIn(chain + [x], legId) == HubBonusIn(chain, legId)
    ensures !(exists y <- chain :: Asks(y, legId)) ==> HubBonusIn(chain + [x], legId) == HubBonusIn([x], legId)
  {
    if chain == [] {
      assert chain + [x] == [x];
    } else {
      HubBonusSnoc(chain[1..], x, legId);
      assert (chain + [x])[1..] == chain[1..] + [x];
    }
  }

  lemma {:induction false} HubBonusFound(chain: seq<CustodyEvent>, legId: Id)
    requires HubBonusIn(chain, legId).Some?
    ensures exists y <- chain :: Asks(y, legId)
  {
    if !Asks(chain[0], legId) {
      HubBonusFound(chain[1..], legId);
    }
  }

  /** The step-by-step pool and the replay advance together. */
  lemma PoolStep(pool: Pool, cmd: Command, next: State, x: CustodyEvent)
    requires FactOf(x, EventOf(cmd), next)
    requires EventOf(cmd).Boost? ==> EventOf(cmd).amount > 0 && EventOf(cmd).atRemaining > 0
    ensures ReplayStep(PoolMemory(pool), x) == Some(PoolMemory(AdvancePool(pool, cmd, next)))
  {}

  lemma AcceptedBoost(s: State, e: Event, ctx: Context)
    requires e.Boost? && Transition(s, e, ctx).Accept?
    ensures e.amount > 0 && e.atRemaining > 0
  {}

  /** What an executed command makes of the aggregate, and where it leads. */
  lemma Projected(net: Network, w: World, cmd: Command, v: World)
    requires Execute(net, w, cmd) == Ok(v)
    ensures var e, ctx := EventOf(cmd), ContextOf(net, w);
      && Transition(w.state, e, ctx).Accept? && Wanted(w, e) <= v.books.idem.Keys && MintedBy(e) * w.minted == {}
      && v.state == Transition(w.state, e, ctx).next && v.minted == w.minted + MintedBy(e)
      && var p := ProjectRows(net, w, e, v.books.idem);
         p.stay == v.stay && p.leg == v.leg && p.request == v.request && p.claim == v.claim
  {
    hide Run, Transition;
  }

  lemma RequestAfter(net: Network, w: World, cmd: Command, v: World)
    requires Execute(net, w, cmd) == Ok(v)
    ensures v.offer == w.offer && v.pool == AdvancePool(w.pool, cmd, v.state)
    ensures v.minted == w.minted + MintedBy(EventOf(cmd))
    ensures var e := EventOf(cmd);
      if e.RequestLeg? then
        LegRef(e.legId) !in w.minted && v.request.Some? && v.request.value.id == e.legId && v.request.value.hubBonus == e.hubBonus
      else v.request.None? || v.request == w.request
  {
    hide Run, Transition, AdvancePool;
    var e := EventOf(cmd);
    if e.RequestLeg? { NotMinted(MintedBy(e), w.minted, LegRef(e.legId)); }
  }

  lemma OthersStillRemembered(chain: seq<CustodyEvent>, x: CustodyEvent, r: LegRequest)
    requires HubBonusIn(chain, r.id) == Some(r.hubBonus)
    ensures HubBonusIn(chain + [x], r.id) == Some(r.hubBonus)
  {
    HubBonusSnoc(chain, x, r.id);
    HubBonusFound(chain, r.id);
  }

  lemma NewRequestRemembered(chain: seq<CustodyEvent>, x: CustodyEvent, minted: set<Ref>, legId: Id, hubBonus: Msat)
    requires AskedForMinted(chain, minted) && LegRef(legId) !in minted
    requires Asks(x, legId) && x.payload == RequestPayload(hubBonus)
    ensures HubBonusIn(chain + [x], legId) == Some(hubBonus)
  {
    HubBonusSnoc(chain, x, legId);
  }

  lemma RememberedStep(net: Network, w: World, cmd: Command, v: World)
    requires Remembered(w) && Execute(net, w, cmd) == Ok(v)
    ensures Remembered(v)
  {
    var e := EventOf(cmd);
    if e.Boost? { AcceptedBoost(w.state, e, ContextOf(net, w)); }
    var x := ChainGrows(net, w, cmd);
    RequestAfter(net, w, cmd, v);
    hide Execute, AdvancePool, HubBonusIn, ReplayOf, ReplayStep, KindOf;
    ReplaySnoc(w.offer, w.books.chain, x);
    PoolStep(w.pool, cmd, v.state, x);
    if e.RequestLeg? {
      RequestFact(x, e, v.state);
      NewRequestRemembered(w.books.chain, x, w.minted, e.legId, e.hubBonus);
    } else {
      NoRequestFact(x, e, v.state);
      if v.request.Some? { OthersStillRemembered(w.books.chain, x, w.request.value); }
    }
  }

  lemma RequestFact(x: CustodyEvent, e: Event, next: State)
    requires FactOf(x, e, next) && e.RequestLeg?
    ensures Asks(x, e.legId) && x.payload == RequestPayload(e.hubBonus)
    ensures MintedBy(e) == {LegRef(e.legId)}
  {}

  lemma NoRequestFact(x: CustodyEvent, e: Event, next: State)
    requires FactOf(x, e, next) && !e.RequestLeg?
    ensures x.kind != DepositRequested
  {}

  lemma RememberedAtBirth(net: Network, x: Birth)
    requires BornAs(net, x).Ok?
    ensures Remembered(BornAs(net, x).value)
  {
    var work := SplitCommitment(x.offer).work;
    var ctx := Context(x.sender, x.senderWallet, x.originHub, net.owner(x.originHub), x.destHub, x.bond, x.offer,
                       work, 0, None, None, None, None, None);
    NothingBooked();
    var d := RunTail(Cursor(EMPTY, None), ctx, OnCreate(ctx).effects);
    ReplaySnoc(x.offer, [], d.books.chain[0]);
    assert d.books.chain == [] + [d.books.chain[0]];
  }

  lemma {:induction false} RememberedOverRuns(net: Network, w: World, cmds: seq<Command>)
    requires Inv(net, w) && Remembered(w)
    ensures Remembered(Play(net, w, cmds))
  {
    hide Inv, Remembered, Execute, Issued;
    if cmds != [] {
      var init, cmd := cmds[..|cmds| - 1], cmds[|cmds| - 1];
      var v := Play(net, w, init);
      RememberedOverRuns(net, w, init);
      PlayKeeps(net, w, init);
      if Issued(v, cmd) {
        if cmd.Fire? { DueTimerFires(net, v, cmd); }
        if Execute(net, v, cmd).Ok? { RememberedStep(net, v, cmd, Execute(net, v, cmd).value); }
      }
    }
  }

  /** After any run the bundle loader rebuilds the segment's boosts, both bonus
      quotas, the waiting work and the request's frozen hub share exactly. */
  lemma ReplayRefines(net: Network, w: World)
    requires Reachable(net, w)
    ensures 0 <= w.offer && ReplayOf(w.offer, w.books.chain) == Some(PoolMemory(w.pool))
    ensures w.request.Some? ==> HubBonusIn(w.books.chain, w.request.value.id) == Some(w.request.value.hubBonus)
  {
    hide Inv, BornAs, Play;
    var x: Birth, cmds: seq<Command> :| BornAs(net, x).Ok? && w == Play(net, BornAs(net, x).value, cmds);
    BirthKeeps(net, x);
    RememberedAtBirth(net, x);
    RememberedOverRuns(net, BornAs(net, x).value, cmds);
  }

  /** And the bonus hold scanned from the payments is the one the aggregate has:
      `FindBonusHold` returns exactly `w.bonus`. */
  lemma BonusHoldRebuilt(net: Network, w: World, r: Option<BonusHold>)
    requires Reachable(net, w)
    requires r.None? ==> forall p <- w.books.payments :: !IsBonusHold(p)
    requires r.Some? ==>
      && r.value.paymentId < |w.books.payments| && IsBonusHold(w.books.payments[r.value.paymentId])
      && r.value.amount == w.books.payments[r.value.paymentId].amount
    ensures r == w.bonus
  {
    ReachableKeeps(net, w);
    hide Reachable, Audited, RefsMinted;
    if w.bonus.Some? {
      assert w.books.payments[w.bonus.value.paymentId] in w.books.payments;
    }
    if r.Some? {
      assert Live(w, r.value.paymentId);
    }
  }
}
