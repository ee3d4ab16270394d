/** The timer sweep among other invocations: it consumes its timer when it runs
    into a conflict. When that costs an armed timer, exactly. */
module Sweeps {
  import opened Economics
  import opened Shipment
  import opened StateMachine
  import opened Books
  import opened Executor
  import opened EffectRuns
  import opened Invariant
  import opened EndSteps
  import opened Runs
  import opened Guarantees
  import opened Snapshots
  import opened Race
  import opened Acceptances
  import opened Misreads

  /** What goes down with a timeout. */
  datatype Dissolved =
    | Nothing
    | AFundingLeg(leg: Id, bonusId: Option<nat>)
    | ABookedLeg(leg: Id, bonus: Option<BonusHold>)
    | ARequest(request: Id)
    | AFundingClaim(claim: Id)
    | AFundedClaim(claim: Id)
    | ABonus(hold: BonusHold)

  function IdOf(seen: Option<BonusHold>): Option<nat> {
    if seen.Some? then Some(seen.value.paymentId) else None
  }

  function Dissolves(w: World, seen: Option<BonusHold>, kind: Timeout): Dissolved {
    match kind
    case LegFundingWindow => if w.leg.Some? then AFundingLeg(w.leg.value.id, IdOf(seen)) else Nothing
    case PickupWindow | TransitWindow => if w.leg.Some? then ABookedLeg(w.leg.value.id, seen) else Nothing
    case ClaimFundingWindow => if w.claim.Some? then AFundingClaim(w.claim.value.id) else Nothing
    case DepositResponse => if w.request.Some? then ARequest(w.request.value.id) else Nothing
    case Storage =>
      if w.leg.Some? then AFundingLeg(w.leg.value.id, IdOf(seen))
      else if w.request.Some? then ARequest(w.request.value.id)
      else if w.claim.Some? then
        if w.state == Claimed then AFundedClaim(w.claim.value.id) else AFundingClaim(w.claim.value.id)
      else if w.state == AwaitingPickup && seen.Some? then ABonus(seen.value)
      else Nothing
  }

  predicate Armed(w: World, cmd: Command) {
    cmd.Fire? && cmd.timer in w.books.timers
  }

  // ----------------------------------------------------------- armed then and now: the same deadline

  /** What the timer is about is the same object in both. */
  predicate SameTarget(o: World, w: World, k: TimerKey) {
    match k.kind
    case Storage => o.stay == w.stay && w.stay.Some? && w.stay.value.id == k.refId
    case LegFundingWindow =>
      o.leg == w.leg && w.leg.Some? && w.leg.value.id == k.refId && o.state == AtHub && w.state == AtHub
    case PickupWindow =>
      && o.leg == w.leg && w.leg.Some? && w.leg.value.id == k.refId && o.stay == w.stay
      && o.state == LegBooked && w.state == LegBooked
    case TransitWindow =>
      o.leg == w.leg && w.leg.Some? && w.leg.value.id == k.refId && o.state == InTransit && w.state == InTransit
    case ClaimFundingWindow =>
      o.claim == w.claim && w.claim.Some? && w.claim.value.id == k.refId && o.state == AtHub && w.state == AtHub
    case DepositResponse =>
      o.request == w.request && w.request.Some? && w.request.value.id == k.refId && o.state == AtHub && w.state == AtHub
  }

  lemma SameArmed(net: Network, o: World, w: World, cmd: Command)
    requires Inv(net, o) && Inv(net, w) && Later(o, w) && Armed(o, cmd) && Armed(w, cmd)
    ensures SameTarget(o, w, cmd.timer)
  {
    hide Audited, OnlyLivePending, RefsMinted, StayOk, BonusOk, KeysLast, PaymentsEvolve;
  }

  function DeadlineOf(w: World, kind: Timeout): Time {
    match kind
    case Storage => if w.stay.Some? then w.stay.value.storageDeadline else 0
    case LegFundingWindow => if w.leg.Some? then w.leg.value.fundingDeadline else 0
    case PickupWindow => if w.leg.Some? && w.leg.value.pickupDeadline.Some? then w.leg.value.pickupDeadline.value else 0
    case TransitWindow => if w.leg.Some? && w.leg.value.transitDeadline.Some? then w.leg.value.transitDeadline.value else 0
    case ClaimFundingWindow => if w.claim.Some? then w.claim.value.fundingDeadline else 0
    case DepositResponse => if w.request.Some? then w.request.value.responseDeadline else 0
  }

  lemma ArmedAt(net: Network, w: World, k: TimerKey)
    requires Inv(net, w) && k in w.books.timers
    ensures w.books.timers[k] == DeadlineOf(w, k.kind)
  {
    hide Audited, OnlyLivePending, RefsMinted, StayOk, LegOk, RequestOk, ClaimOk, BonusOk;
  }

  /** A timer that was due at the snapshot and is armed now is due now. */
  lemma StillIssued(net: Network, o: World, w: World, cmd: Command)
    requires Inv(net, o) && Inv(net, w) && Later(o, w) && Issued(o, cmd) && Armed(w, cmd)
    ensures Issued(w, cmd)
  {
    hide Inv, Later;
    SameArmed(net, o, w, cmd);
    ArmedAt(net, o, cmd.timer);
    ArmedAt(net, w, cmd.timer);
  }

  // ----------------------------------------------------------- the same effects, or not

  lemma SameLegEffects(net: Network, o: World, saw: Option<BonusHold>, w: World, seen: Option<BonusHold>, cmd: Command)
    requires cmd.Fire? && Later(o, w) && SameTarget(o, w, cmd.timer)
    requires cmd.timer.kind == LegFundingWindow || cmd.timer.kind == PickupWindow || cmd.timer.kind == TransitWindow
    requires Judge(net, o, EventOf(cmd), saw).Accept? && Judge(net, w, EventOf(cmd), seen).Accept?
    ensures Dissolves(o, saw, cmd.timer.kind) == Dissolves(w, seen, cmd.timer.kind)
            <==> Judge(net, o, EventOf(cmd), saw).effects == Judge(net, w, EventOf(cmd), seen).effects
  {
    hide LegLasts, StayLasts, KeysLast, PaymentsEvolve;
    var a, b := Judge(net, o, EventOf(cmd), saw).effects, Judge(net, w, EventOf(cmd), seen).effects;
    if a == b && saw.Some? && seen.Some? {
      var at := if cmd.timer.kind == LegFundingWindow then 3 else 6;
      assert a[at] == b[at];
      if cmd.timer.kind != LegFundingWindow { assert a[7] == b[7]; }
    } else if a == b {
      assert |a| == |b|;
    }
  }

  lemma SameNoteEffects(net: Network, o: World, saw: Option<BonusHold>, w: World, seen: Option<BonusHold>, cmd: Command)
    requires Inv(net, o) && Inv(net, w) && cmd.Fire? && Later(o, w) && SameTarget(o, w, cmd.timer)
    requires cmd.timer.kind == ClaimFundingWindow || cmd.timer.kind == DepositResponse
    requires Judge(net, o, EventOf(cmd), saw).Accept? && Judge(net, w, EventOf(cmd), seen).Accept?
    ensures Dissolves(o, saw, cmd.timer.kind) == Dissolves(w, seen, cmd.timer.kind)
            && Judge(net, o, EventOf(cmd), saw).effects == Judge(net, w, EventOf(cmd), seen).effects
  {
    hide LegLasts, StayLasts, KeysLast, PaymentsEvolve, Audited, OnlyLivePending, RefsMinted, StayOk, LegOk, RequestOk, BonusOk,
      ExpectedTimers, HoldIs;
  }

  function Undone(net: Network, w: World, seen: Option<BonusHold>): seq<Effect>
    requires w.stay.Some?
  {
    DissolveAtStorageExpiry(w.state, Seeing(net, w, seen), w.stay.value)
  }

  lemma ExpiryIs(net: Network, w: World, e: Event, seen: Option<BonusHold>)
    requires e.StorageExpiry? && Judge(net, w, e, seen).Accept?
    ensures w.stay.Some? && (w.state == AtHub || w.state == AwaitingPickup || w.state == Claimed)
    ensures Judge(net, w, e, seen).effects ==
            Undone(net, w, seen) + (RefundStayBond(Seeing(net, w, seen), w.stay.value)
                                    + [Note(Expired, None, None, Some(w.stay.value.id))])
  {
    hide DissolveAtStorageExpiry, RefundStayBond;
  }

  lemma CancelRight<T>(a: seq<T>, b: seq<T>, c: seq<T>)
    ensures a + c == b + c <==> a == b
  {
    if a + c == b + c {
      assert |a| == |b|;
      assert a == (a + c)[..|a|] && b == (b + c)[..|b|];
    }
  }

  lemma UndoneSame(net: Network, o: World, saw: Option<BonusHold>, w: World, seen: Option<BonusHold>)
    requires Inv(net, o) && Inv(net, w) && Later(o, w) && o.stay == w.stay && o.stay.Some?
    requires o.state == AtHub || o.state == AwaitingPickup || o.state == Claimed
    requires w.state == AtHub || w.state == AwaitingPickup || w.state == Claimed
    requires Dissolves(o, saw, Storage) == Dissolves(w, seen, Storage)
    ensures Undone(net, o, saw) == Undone(net, w, seen)
  {
    hide StayLasts, KeysLast, PaymentsEvolve, Audited, OnlyLivePending, RefsMinted, StayOk, LegOk, RequestOk, BonusOk,
      ExpectedTimers, HoldIs;
  }

  /** The last effect tells what was dissolved, if anything. */
  lemma UndoneDiffer(net: Network, o: World, saw: Option<BonusHold>, w: World, seen: Option<BonusHold>)
    requires Shape(o) && Shape(w) && o.stay.Some? && w.stay.Some?
    requires o.state == AtHub || o.state == AwaitingPickup || o.state == Claimed
    requires w.state == AtHub || w.state == AwaitingPickup || w.state == Claimed
    requires Undone(net, o, saw) == Undone(net, w, seen)
    ensures Dissolves(o, saw, Storage) == Dissolves(w, seen, Storage)
  {
    UndoneEnds(net, o, saw);
    UndoneEnds(net, w, seen);
    var a, b := Undone(net, o, saw), Undone(net, w, seen);
    hide Undone, Shape;
    if a != [] { assert a[|a| - 1] == b[|b| - 1] && a[0] == b[0]; }
    if |a| >= 4 { assert a[3] == b[3]; }
  }

  lemma UndoneEnds(net: Network, w: World, seen: Option<BonusHold>)
    requires Shape(w) && w.stay.Some? && (w.state == AtHub || w.state == AwaitingPickup || w.state == Claimed)
    ensures var es := Undone(net, w, seen);
      match Dissolves(w, seen, Storage)
      case Nothing => es == []
      case AFundingLeg(l, id) =>
        && es != [] && es[|es| - 1] == Unschedule(LegFundingWindow, l)
        && (|es| == if id.Some? then 5 else 4) && (id.Some? ==> es[3] == RefundPayment(id.value))
      case ARequest(r) => es == [Unschedule(DepositResponse, r)]
      case AFundingClaim(c) => es != [] && es[|es| - 1] == Unschedule(ClaimFundingWindow, c)
      case AFundedClaim(c) => es != [] && es[|es| - 1].PostEntry? && es[|es| - 1].ref == ClaimRef(c)
      case ABonus(h) =>
        |es| == 2 && es[0] == RefundPayment(h.paymentId) && es[1].PostEntry? && es[1].ref == StayRef(w.stay.value.id)
        && es[1].postings == [Posting(Commitment, -h.amount), Posting(Wallet(w.sender), h.amount)]
      case ABookedLeg(_, _) => false
  {}

  lemma ShapeOf(net: Network, w: World)
    requires Inv(net, w)
    ensures Shape(w)
  {}

  lemma SameExpiryEffects(net: Network, o: World, saw: Option<BonusHold>, w: World, seen: Option<BonusHold>, cmd: Command)
    requires Inv(net, o) && Inv(net, w) && cmd.Fire? && Later(o, w) && SameTarget(o, w, cmd.timer)
    requires cmd.timer.kind == Storage
    requires Judge(net, o, EventOf(cmd), saw).Accept? && Judge(net, w, EventOf(cmd), seen).Accept?
    ensures Dissolves(o, saw, cmd.timer.kind) == Dissolves(w, seen, cmd.timer.kind)
            <==> Judge(net, o, EventOf(cmd), saw).effects == Judge(net, w, EventOf(cmd), seen).effects
  {
    ShapeOf(net, o);
    ShapeOf(net, w);
    hide Inv, Judge, Undone, Dissolves, LegLasts, StayLasts, KeysLast, PaymentsEvolve, Shape;
    var e := EventOf(cmd);
    ExpiryIs(net, o, e, saw);
    ExpiryIs(net, w, e, seen);
    var tail := RefundStayBond(Seeing(net, o, saw), o.stay.value) + [Note(Expired, None, None, Some(o.stay.value.id))];
    assert tail == RefundStayBond(Seeing(net, w, seen), w.stay.value) + [Note(Expired, None, None, Some(w.stay.value.id))];
    CancelRight(Undone(net, o, saw), Undone(net, w, seen), tail);
    if Dissolves(o, saw, Storage) == Dissolves(w, seen, Storage) { UndoneSame(net, o, saw, w, seen); }
    if Undone(net, o, saw) == Undone(net, w, seen) { UndoneDiffer(net, o, saw, w, seen); }
  }

  /** The plan of a timeout still agrees if and only if what it dissolves is the same. */
  lemma AgreesExactly(net: Network, o: World, saw: Option<BonusHold>, w: World, seen: Option<BonusHold>, cmd: Command)
    requires Inv(net, o) && Inv(net, w) && Later(o, w) && cmd.Fire? && Issued(o, cmd) && Armed(w, cmd)
    ensures Judge(net, o, EventOf(cmd), saw).Accept? && Judge(net, w, EventOf(cmd), seen).Accept?
    ensures Dissolves(o, saw, cmd.timer.kind) == Dissolves(w, seen, cmd.timer.kind)
            <==> Judge(net, o, EventOf(cmd), saw).effects == Judge(net, w, EventOf(cmd), seen).effects
  {
    SameArmed(net, o, w, cmd);
    StillIssued(net, o, w, cmd);
    hide Inv, Judge, Dissolves, Later, Issued, SameTarget;
    TimeoutNeverRefused(net, o, cmd, saw);
    TimeoutNeverRefused(net, w, cmd, seen);
    match cmd.timer.kind
    case Storage => SameExpiryEffects(net, o, saw, w, seen, cmd);
    case ClaimFundingWindow => SameNoteEffects(net, o, saw, w, seen, cmd);
    case DepositResponse => SameNoteEffects(net, o, saw, w, seen, cmd);
    case _ => SameLegEffects(net, o, saw, w, seen, cmd);
  }

  // ----------------------------------------------------------- dropped exactly when

  lemma SnapshotFacts(net: Network, s: Scene, i: nat)
    requires Coherent(net, s) && i < |s.attempts|
    ensures SnapshotOk(net, s.world, s.attempts[i]) && Inv(net, s.attempts[i].from) && Inv(net, s.world)
  {
    hide Inv, Reachable, Later, Judge, AttemptOk, HoldsExact;
    assert SnapshotOk(net, s.world, s.attempts[i]);
    ReachableKeeps(net, s.world);
    ReachableKeeps(net, s.attempts[i].from);
  }

  /** What a sweep meets under the row lock is not what it saw: its event dissolves
      another leg, request, claim or bonus hold, or the shipment's state is another. */
  predicate Changed(s: Scene, a: Attempt, seen: Option<BonusHold>)
    requires a.cmd.Fire?
  {
    || Dissolves(a.from, a.saw, a.cmd.timer.kind) != Dissolves(s.world, seen, a.cmd.timer.kind)
    || a.from.state != s.world.state
  }

  /** A sweep under the row lock whose timer is armed: it drops it if and only if the
      armed row is the one it came for and something has changed. */
  lemma DroppedExactly(net: Network, s: Scene, i: nat, seen: Option<BonusHold>)
    requires Coherent(net, s) && s.course == OnCourse && Active(s, i) && Armed(s.world, s.attempts[i].cmd)
    requires s.attempts[i].made == SlotsOf(s.attempts[i].planned) && Sees(s, s.attempts[i].made, seen)
    ensures var a := s.attempts[i];
      Act(net, s, Finish(i, seen)).course == TimerDropped <==> RowThere(s, a) && Changed(s, a, seen)
  {
    hide Coherent, Judge, Sees, SlotsOf, Inv, Act, Dissolves, Later, Issued, Reachable, RowThere;
    var a := s.attempts[i];
    SnapshotFacts(net, s, i);
    AgreesExactly(net, a.from, a.saw, s.world, seen, a.cmd);
    FinishDrops(net, s, i, seen);
  }

  lemma FinishDrops(net: Network, s: Scene, i: nat, seen: Option<BonusHold>)
    requires s.course == OnCourse && Active(s, i) && Armed(s.world, s.attempts[i].cmd)
    requires s.attempts[i].made == SlotsOf(s.attempts[i].planned) && Sees(s, s.attempts[i].made, seen)
    requires Judge(net, s.world, EventOf(s.attempts[i].cmd), seen).Accept?
    ensures Act(net, s, Finish(i, seen)).course == TimerDropped <==>
      && RowThere(s, s.attempts[i])
      && (Judge(net, s.world, EventOf(s.attempts[i].cmd), seen).effects != s.attempts[i].planned
          || s.attempts[i].from.state != s.world.state)
  {
    hide Judge, Sees, SlotsOf, Execute, Run, SameDeed, RowThere;
  }

  /** And it ends the shipment with its timer still armed if and only if that row is
      another one, nothing has changed, and it went by the right bonus hold. */
  lemma LeftExactly(net: Network, s: Scene, i: nat, seen: Option<BonusHold>)
    requires Coherent(net, s) && s.course == OnCourse && Active(s, i) && Armed(s.world, s.attempts[i].cmd)
    requires s.attempts[i].made == SlotsOf(s.attempts[i].planned) && Sees(s, s.attempts[i].made, seen)
    ensures var a := s.attempts[i];
      Act(net, s, Finish(i, seen)).course == TimerLeft <==>
        && !RowThere(s, a) && !Changed(s, a, seen)
        && SameDeed(net, s.world, EventOf(a.cmd), seen)
  {
    hide Coherent, Judge, Sees, SlotsOf, Inv, Act, Dissolves, Later, Issued, Reachable, RowThere, SameDeed, Execute;
    var a := s.attempts[i];
    SnapshotFacts(net, s, i);
    AgreesExactly(net, a.from, a.saw, s.world, seen, a.cmd);
    StillIssued(net, a.from, s.world, a.cmd);
    DueTimerFires(net, s.world, a.cmd);
    FinishLeaves(net, s, i, seen);
  }

  lemma FinishLeaves(net: Network, s: Scene, i: nat, seen: Option<BonusHold>)
    requires s.course == OnCourse && Active(s, i) && s.attempts[i].cmd.Fire?
    requires s.attempts[i].made == SlotsOf(s.attempts[i].planned) && Sees(s, s.attempts[i].made, seen)
    requires Judge(net, s.world, EventOf(s.attempts[i].cmd), seen).Accept? && Execute(net, s.world, s.attempts[i].cmd).Ok?
    ensures Act(net, s, Finish(i, seen)).course == TimerLeft <==>
      && !RowThere(s, s.attempts[i])
      && Judge(net, s.world, EventOf(s.attempts[i].cmd), seen).effects == s.attempts[i].planned
      && s.attempts[i].from.state == s.world.state && SameDeed(net, s.world, EventOf(s.attempts[i].cmd), seen)
  {
    hide Judge, Sees, SlotsOf, Execute, Run, SameDeed, RowThere;
  }

  /** The state alone has changed in one case only: a storage timer that fired where
      the parcel had arrived without a bonus hold, rerouted since and only stored. */
  lemma OnlyTheStateChanged(net: Network, o: World, saw: Option<BonusHold>, w: World, seen: Option<BonusHold>, cmd: Command)
    requires Inv(net, o) && Inv(net, w) && Later(o, w) && Armed(o, cmd) && Armed(w, cmd)
    ensures Dissolves(o, saw, cmd.timer.kind) == Dissolves(w, seen, cmd.timer.kind) && o.state != w.state
            <==> cmd.timer.kind == Storage && o.state == AwaitingPickup && saw.None? && OnlyStored(w)
  {
    hide Inv, KeysLast, PaymentsEvolve, RequestLasts, LegLasts;
    SameArmed(net, o, w, cmd);
    if cmd.timer.kind == Storage {
      ArmedStates(net, o, cmd.timer);
      ArmedStates(net, w, cmd.timer);
    }
    ShapeOf(net, o);
    ShapeOf(net, w);
  }

  lemma ArmedStates(net: Network, w: World, k: TimerKey)
    requires Inv(net, w) && k in w.books.timers && k.kind == Storage
    ensures w.state == AtHub || w.state == AwaitingPickup || w.state == Claimed
  {
    Parts(net, w);
    hide Inv;
  }

  // ----------------------------------------------------------- a race in which it happens

  lemma StoredTimers(net: Network, w: World)
    requires Inv(net, w) && OnlyStored(w) && w.stay.Some?
    ensures w.books.timers == map[TimerKey(Storage, w.stay.value.id) := w.stay.value.storageDeadline]
  {
    hide Audited, OnlyLivePending, RefsMinted, StayOk;
  }

  lemma WithdrawalExecutes(net: Network, w: World, cmd: Command)
    requires Inv(net, w) && w.state == AtHub && w.request.Some? && cmd.Handle? && EventOf(cmd).DepositRequestCancel?
    ensures var r := Execute(net, w, cmd);
      && r.Ok? && OnlyStored(r.value) && r.value.stay == w.stay && w.stay.Some?
      && r.value.books.payments == w.books.payments && r.value.books.idem == w.books.idem
  {
    hide Run, Audited, OnlyLivePending, RefsMinted, StayOk, LegOk, RequestOk, BonusOk, ClaimOk, ExpectedTimers;
    var ctx := ContextOf(net, w);
    AuditedOf(net, w);
    var d := RunTail(Cursor(w.books, None), ctx, OnDepositRequestCancel(w.state, ctx).effects);
  }

  lemma WithdrawalPlan(net: Network, w: World, e: Event, seen: Option<BonusHold>)
    requires Shape(w) && w.state == AtHub && w.request.Some? && e.DepositRequestCancel?
    ensures Judge(net, w, e, seen).Accept? && SlotsOf(Judge(net, w, e, seen).effects) == {}
    ensures SameDeed(net, w, e, seen)
  {
    if seen.Some? { Heedless(net, w, e, seen); }
  }

  lemma StartBegins(net: Network, s: Scene, cmd: Command, seen: Option<BonusHold>)
    requires s.course == OnCourse && Issued(s.world, cmd) && MintedBy(EventOf(cmd)) == {} && Sees(s, {}, seen)
    requires Judge(net, s.world, EventOf(cmd), seen).Accept?
    ensures var t := s.(attempts := s.attempts + [Began(net, s, cmd, seen)]);
      Act(net, s, Begin(cmd, seen)) == t && Sees(t, {}, seen)
  {
    hide Judge, Issued, Sees;
    assert Unclaimed(s, EventOf(cmd));
    StillSeen(s, Began(net, s, cmd, seen), {}, seen);
  }

  lemma CommitsWith(net: Network, s: Scene, i: nat, seen: Option<BonusHold>)
    requires Active(s, i) && s.course == OnCourse && s.attempts[i].made == {} && SlotsOf(s.attempts[i].planned) == {}
    requires Sees(s, {}, seen) && SameDeed(net, s.world, EventOf(s.attempts[i].cmd), seen)
    requires var again := Judge(net, s.world, EventOf(s.attempts[i].cmd), seen);
      again.Accept? && again.effects == s.attempts[i].planned
    requires s.attempts[i].from.state == s.world.state && s.attempts[i].cmd.Handle?
    requires Execute(net, s.world, s.attempts[i].cmd).Ok?
    ensures Act(net, s, Finish(i, seen)) ==
            Landed(s, i, Execute(net, s.world, s.attempts[i].cmd).value)
  {
    hide Judge, Execute, SlotsOf, Sees, SameDeed;
  }

  /** A commit that leaves payments alone leaves the view alone. */
  lemma ViewKept(s: Scene, i: nat, v: World, seen: Option<BonusHold>)
    requires i < |s.attempts| && Sees(s, {}, seen)
    requires v.books.payments == s.world.books.payments && v.books.idem == s.world.books.idem
    ensures Sees(Landed(s, i, v), {}, seen)
  {
    var t := Landed(s, i, v);
    assert BonusRows(t, {}) == BonusRows(s, {});
    if seen.Some? {
      var k :| k in BonusRows(s, {}) && RowIs(s, k, seen.value);
      if k !in s.world.books.idem {
        var j: nat :| j < |s.attempts| && AskedBy(s.attempts[j], k, seen.value.amount);
        assert AskedBy(t.attempts[j], k, seen.value.amount);
      }
      assert RowIs(t, k, seen.value);
    }
  }

  lemma StorageNeedsNoHold(net: Network, w: World, e: Event, seen: Option<BonusHold>)
    requires e.StorageExpiry? && Judge(net, w, e, seen).Accept?
    ensures SlotsOf(Judge(net, w, e, seen).effects) == {}
  {
    CreatesItsOwn(w.state, e, Seeing(net, w, seen));
    hide Judge, SlotsOf;
  }

  /** A commit without holds that leaves a parcel only stored. */
  ghost predicate LeavesStored(net: Network, w: World, cmd: Command, seen: Option<BonusHold>) {
    && cmd.Handle? && Issued(w, cmd) && MintedBy(EventOf(cmd)) == {}
    && Judge(net, w, EventOf(cmd), seen).Accept? && SlotsOf(Judge(net, w, EventOf(cmd), seen).effects) == {}
    && SameDeed(net, w, EventOf(cmd), seen)
    && Execute(net, w, cmd).Ok?
    && var v := Execute(net, w, cmd).value;
       OnlyStored(v) && v.stay == w.stay && v.books.payments == w.books.payments && v.books.idem == w.books.idem
  }

  /** The sweep takes its snapshot, something else commits before the row is locked,
      and the parcel, still stored, has lost its only timer. */
  lemma DropRace(net: Network, s: Scene, fire: Command, other: Command, seen: Option<BonusHold>) returns (moves: seq<Move>)
    requires Coherent(net, s) && s.course == OnCourse && Sees(s, {}, seen) && s.world.stay.Some?
    requires fire.Fire? && fire.timer == TimerKey(Storage, s.world.stay.value.id) && Issued(s.world, fire)
    requires LeavesStored(net, s.world, other, seen)
    requires Dissolves(s.world, seen, Storage) != Nothing || s.world.state != AtHub
    ensures var t := Interleave(net, s, moves);
      && t.course == TimerDropped && OnlyStored(t.world) && t.world.stay == s.world.stay
      && t.world.books.timers == map[fire.timer := s.world.stay.value.storageDeadline]
  {
    hide Interleave, Coherent, Judge, Sees, SlotsOf, Inv, Act, Execute, SameDeed, Dissolves, Shape;
    CoherentInv(net, s);
    var i, w := |s.attempts|, s.world;
    TimeoutNeverRefused(net, w, fire, seen);
    StorageNeedsNoHold(net, w, EventOf(fire), seen);
    StartBegins(net, s, fire, seen);
    var s1 := Act(net, s, Begin(fire, seen));
    StartBegins(net, s1, other, seen);
    var s2 := Act(net, s1, Begin(other, seen));
    CommitsWith(net, s2, i + 1, seen);
    var s3 := Act(net, s2, Finish(i + 1, seen));
    ViewKept(s2, i + 1, s3.world, seen);
    moves := [Begin(fire, seen)] + [Begin(other, seen)] + [Finish(i + 1, seen)] + [Finish(i, seen)];
    FourMoves(net, s, Begin(fire, seen), Begin(other, seen), Finish(i + 1, seen), Finish(i, seen));
    ActKeeps(net, s, Begin(fire, seen));
    ActKeeps(net, s1, Begin(other, seen));
    ActKeeps(net, s2, Finish(i + 1, seen));
    CoherentInv(net, s3);
    StoredTimers(net, s3.world);
    StoredDissolvesNothing(s3.world, seen);
    DroppedExactly(net, s3, i, seen);
    DroppedLeavesWorld(net, s3, i, seen);
  }

  /** It happens wherever a request waits and the storage time is over: the request is
      withdrawn in between. */
  lemma ConflictDropsArmedTimer(net: Network, s: Scene, fire: Command, withdraw: Command, seen: Option<BonusHold>)
    returns (moves: seq<Move>)
    requires Coherent(net, s) && s.course == OnCourse && Sees(s, {}, seen)
    requires s.world.state == AtHub && s.world.request.Some? && s.world.stay.Some?
    requires fire.Fire? && fire.timer == TimerKey(Storage, s.world.stay.value.id) && Issued(s.world, fire)
    requires withdraw.Handle? && 0 <= withdraw.frozenWork && EventOf(withdraw).DepositRequestCancel?
    ensures var t := Interleave(net, s, moves);
      && t.course == TimerDropped && OnlyStored(t.world) && t.world.stay == s.world.stay
      && t.world.books.timers == map[fire.timer := s.world.stay.value.storageDeadline]
  {
    hide Interleave, Coherent, Judge, Sees, SlotsOf, Inv, Execute, SameDeed, Shape;
    CoherentInv(net, s);
    ShapeOf(net, s.world);
    WithdrawalPlan(net, s.world, EventOf(withdraw), seen);
    WithdrawalExecutes(net, s.world, withdraw);
    RequestIsDissolved(s.world, seen);
    moves := DropRace(net, s, fire, withdraw, seen);
  }

  lemma RequestIsDissolved(w: World, seen: Option<BonusHold>)
    requires Shape(w) && w.request.Some?
    ensures Dissolves(w, seen, Storage) == ARequest(w.request.value.id)
  {}

  lemma StoredDissolvesNothing(w: World, seen: Option<BonusHold>)
    requires OnlyStored(w)
    ensures Dissolves(w, seen, Storage) == Nothing && w.state == AtHub
  {}

  lemma ReroutePlan(net: Network, w: World, e: Event)
    requires Shape(w) && w.state == AwaitingPickup && w.bonus.None? && w.stay.Some?
    requires e.Reroute? && e.newDest.Some? && e.newDest.value != w.stay.value.hub && 0 < e.newRemaining
    ensures OnReroute(w.state, e, ContextOf(net, w)) == Accept(AtHub, RerouteTail(e, ContextOf(net, w), w.stay.value, false))
    ensures Judge(net, w, e, None) == OnReroute(w.state, e, ContextOf(net, w))
    ensures SlotsOf(Judge(net, w, e, None).effects) == {} && SameDeed(net, w, e, None)
  {
    RerouteIs(w.state, e, ContextOf(net, w));
    var tail := RerouteTail(e, ContextOf(net, w), w.stay.value, false);
    assert [] + tail == tail;
    assert Seeing(net, w, None) == ContextOf(net, w);
  }

  lemma RerouteExecutes(net: Network, w: World, cmd: Command)
    requires Inv(net, w) && w.state == AwaitingPickup && w.bonus.None? && cmd.Handle? && 0 <= cmd.frozenWork
    requires EventOf(cmd).Reroute? && EventOf(cmd).newDest.Some? && 0 < EventOf(cmd).newRemaining
    requires w.stay.Some? && EventOf(cmd).newDest.value != w.stay.value.hub
    ensures LeavesStored(net, w, cmd, None)
  {
    Parts(net, w);
    hide Inv, Run, Audited, OnReroute, RerouteTail, Judge, SameDeed, SlotsOf;
    var e, ctx := EventOf(cmd), ContextOf(net, w);
    ReroutePlan(net, w, e);
    var d := RerouteTailRuns(Cursor(w.books, None), e, ctx, w.stay.value, false);
  }

  /** And, with all effects unchanged, wherever a parcel has arrived without a bonus
      hold and its storage time is over: it is sent on to another destination in
      between. */
  lemma RerouteDropsArmedTimer(net: Network, s: Scene, fire: Command, reroute: Command) returns (moves: seq<Move>)
    requires Coherent(net, s) && s.course == OnCourse && BonusRows(s, {}) == {}
    requires s.world.state == AwaitingPickup && s.world.stay.Some?
    requires fire.Fire? && fire.timer == TimerKey(Storage, s.world.stay.value.id) && Issued(s.world, fire)
    requires reroute.Handle? && 0 <= reroute.frozenWork && EventOf(reroute).Reroute? && 0 < EventOf(reroute).newRemaining
    requires EventOf(reroute).newDest.Some? && EventOf(reroute).newDest.value != s.world.stay.value.hub
    ensures var t := Interleave(net, s, moves);
      && t.course == TimerDropped && OnlyStored(t.world) && t.world.stay == s.world.stay
      && t.world.books.timers == map[fire.timer := s.world.stay.value.storageDeadline]
    ensures Execute(net, s.world, reroute).Ok?
    ensures Dissolves(s.world, None, Storage) == Dissolves(Execute(net, s.world, reroute).value, None, Storage)
  {
    hide Interleave, Coherent, Inv, Execute, LeavesStored;
    CoherentInv(net, s);
    ShapeOf(net, s.world);
    if s.world.bonus.Some? { BonusShows(net, s, {}); }
    RerouteExecutes(net, s.world, reroute);
    moves := DropRace(net, s, fire, reroute, None);
    RerouteDissolvesAlike(net, s.world, reroute);
  }

  lemma RerouteDissolvesAlike(net: Network, w: World, cmd: Command)
    requires Shape(w) && w.state == AwaitingPickup && LeavesStored(net, w, cmd, None)
    ensures Execute(net, w, cmd).Ok?
    ensures Dissolves(w, None, Storage) == Dissolves(Execute(net, w, cmd).value, None, Storage)
  {
    hide Execute, Judge, SlotsOf, SameDeed;
    StoredDissolvesNothing(Execute(net, w, cmd).value, None);
  }

  lemma FourMoves(net: Network, s: Scene, a: Move, b: Move, c: Move, d: Move)
    ensures Interleave(net, s, [a] + [b] + [c] + [d]) == Act(net, Act(net, Act(net, Act(net, s, a), b), c), d)
  {
    hide Act;
    RaceConcat(net, s, [a], [b]);
    RaceConcat(net, s, [a] + [b], [c]);
    RaceConcat(net, s, [a] + [b] + [c], [d]);
    RaceOne(net, s, a);
    RaceOne(net, Act(net, s, a), b);
    RaceOne(net, Act(net, Act(net, s, a), b), c);
    RaceOne(net, Act(net, Act(net, Act(net, s, a), b), c), d);
  }

  lemma DroppedLeavesWorld(net: Network, s: Scene, i: nat, seen: Option<BonusHold>)
    requires s.course == OnCourse && Act(net, s, Finish(i, seen)).course == TimerDropped
    ensures Act(net, s, Finish(i, seen)).world == s.world
  {
    hide Judge, Execute, SlotsOf, Sees, SameDeed;
  }
}
