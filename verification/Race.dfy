/** Invocations of the executor racing on one shipment. Each takes a snapshot,
    creates its holds one by one outside any transaction, and then either
    commits, if the locked row still gives the same effects, or refunds what it
    created. A creation under a known key finds the hold that is already there,
    and the bonus hold of the aggregate is whichever one the payment rows show,
    so invocations do meet. */
module Race {
  import opened Economics
  import opened Shipment
  import opened StateMachine
  import opened Books
  import opened Executor
  import opened EffectRuns
  import opened Invariant
  import opened Runs
  import opened Guarantees
  import opened Snapshots

  /** The key a hold is created under: its purpose and reference. */
  type Slot = (Purpose, Ref)

  datatype Fate = Running | Committed | Compensated | Dead

  /** An invocation: its command, the row of the timer it fires if it does, the
      snapshot it took with the bonus hold it saw, the effects planned on it, and the
      holds it created or found so far. */
  datatype Attempt = Attempt(cmd: Command, row: nat, from: World, saw: Option<BonusHold>, planned: seq<Effect>,
                             made: set<Slot>, fate: Fate)

  /** Three things end what is claimed: a commit that goes by another invocation's
      bonus hold; a sweep that takes a conflict for a sign that its timer is stale,
      and deletes it while it is still armed; and a sweep that commits when the timer
      it came for was disarmed and armed again, as another row. */
  datatype Course = OnCourse | Misled | TimerDropped | TimerLeft

  /** The committed shipment, the holds created so far and whether they still
      stand, the invocations, and for every armed timer which commit inserted its
      row: an upsert keeps the row of an armed timer. */
  datatype Scene = Scene(world: World, holds: map<Slot, bool>, attempts: seq<Attempt>, course: Course,
                         commits: nat, inserted: map<TimerKey, nat>)

  /** A snapshot and a commit each read the aggregate, and with it a bonus hold.
      `Carry` resolves a hold that a commit has decided. */
  datatype Move =
    | Begin(cmd: Command, seen: Option<BonusHold>)
    | Make(i: nat, slot: Slot)
    | Finish(i: nat, seen: Option<BonusHold>)
    | Abort(i: nat)
    | Die(i: nat)
    | Carry(slot: Slot)

  function SlotsOf(es: seq<Effect>): set<Slot> {
    set x | x in es && x.CreatePayment? :: (x.purpose, x.ref)
  }

  // ----------------------------------------------------------- reading

  /** The rows among which the aggregate's bonus hold is looked up. */
  function BonusRows(s: Scene, own: set<Slot>): set<Slot> {
    set k | k in s.holds && s.holds[k] && k.0 == FinalizationBonus && !k.1.ClaimRef? && k !in own
  }

  /** Somebody asked for a hold of this amount under the key. */
  predicate Asked(s: Scene, k: Slot, amount: Msat) {
    exists a <- s.attempts :: AskedBy(a, k, amount)
  }

  predicate AskedBy(a: Attempt, k: Slot, amount: Msat) {
    k in a.made && exists x <- a.planned :: x.CreatePayment? && (x.purpose, x.ref) == k && x.amount == amount
  }

  /** The row under a key, seen as the aggregate's bonus hold; the books do not know
      the id of a hold no commit has registered. */
  predicate RowIs(s: Scene, k: Slot, h: BonusHold) {
    var b := s.world.books;
    if k in b.idem then b.idem[k] < |b.payments| && h == BonusHold(b.idem[k], b.payments[b.idem[k]].amount)
    else h.paymentId >= |b.payments| && Asked(s, k, h.amount)
  }

  /** Any of those rows may be the one that is found. */
  predicate Sees(s: Scene, own: set<Slot>, seen: Option<BonusHold>) {
    if BonusRows(s, own) == {} then seen.None?
    else seen.Some? && exists k <- BonusRows(s, own) :: RowIs(s, k, seen.value)
  }

  function Seeing(net: Network, w: World, seen: Option<BonusHold>): Context {
    ContextOf(net, w).(bonus := seen)
  }

  function Judge(net: Network, w: World, e: Event, seen: Option<BonusHold>): Outcome {
    Transition(w.state, e, Seeing(net, w, seen))
  }

  /** Going by the hold that was seen does what going by the shipment's own does:
      the same outcome, and the same writes, keys of the ledger included. */
  predicate SameDeed(net: Network, w: World, e: Event, seen: Option<BonusHold>) {
    var o, start := Judge(net, w, e, seen), Cursor(w.books, None);
    && o == Judge(net, w, e, w.bonus)
    && (o.Accept? ==> Run(start, Seeing(net, w, seen), o.effects) == Run(start, Seeing(net, w, w.bonus), o.effects))
  }

  // ----------------------------------------------------------- moving

  /** Ids are random: nobody else ever mints the ones of this invocation. */
  predicate Unclaimed(s: Scene, e: Event) {
    && MintedBy(e) * s.world.minted == {}
    && forall a <- s.attempts :: MintedBy(EventOf(a.cmd)) * MintedBy(e) == {}
  }

  predicate Active(s: Scene, i: nat) {
    i < |s.attempts| && s.attempts[i].fate == Running
  }

  function Settle(s: Scene, i: nat, fate: Fate): Scene
    requires i < |s.attempts|
  {
    s.(attempts := s.attempts[i := s.attempts[i].(fate := fate)])
  }

  /** The compensating refunds of everything an invocation created or found. */
  function CallOff(s: Scene, i: nat): Scene
    requires i < |s.attempts|
  {
    var a := s.attempts[i];
    Settle(s, i, Compensated).(holds := map k | k in s.holds :: s.holds[k] && k !in a.made)
  }

  function RowOf(s: Scene, k: TimerKey): nat {
    if k in s.inserted then s.inserted[k] else 0
  }

  /** The very timer row a sweep came for is still there. */
  predicate RowThere(s: Scene, a: Attempt) {
    a.cmd.Fire? && a.cmd.timer in s.world.books.timers && RowOf(s, a.cmd.timer) == a.row
  }

  /** A conflict: compensate; the sweep also deletes its timer's row. */
  function BackOut(s: Scene, i: nat): Scene
    requires i < |s.attempts|
  {
    if RowThere(s, s.attempts[i]) then CallOff(s, i).(course := TimerDropped) else CallOff(s, i)
  }

  /** A commit. */
  function Landed(s: Scene, i: nat, v: World): Scene
    requires i < |s.attempts|
  {
    Settle(s, i, Committed).(
      world := v, commits := s.commits + 1,
      inserted := map k | k in v.books.timers :: if k in s.world.books.timers then RowOf(s, k) else s.commits + 1)
  }

  predicate Decided(b: Books, k: Slot) {
    k in b.idem && b.idem[k] < |b.payments| && b.payments[b.idem[k]].verdict != Pending
  }

  function Act(net: Network, s: Scene, m: Move): Scene {
    if s.course != OnCourse then s
    else
      match m
      case Begin(cmd, seen) => Start(net, s, cmd, seen)
      case Make(i, slot) =>
        if !Active(s, i) || slot !in SlotsOf(s.attempts[i].planned) then s
        else
          var a := s.attempts[i];
          s.(holds := if slot in s.holds then s.holds else s.holds[slot := true],
             attempts := s.attempts[i := a.(made := a.made + {slot})])
      case Finish(i, seen) =>
        if !Active(s, i) || s.attempts[i].made != SlotsOf(s.attempts[i].planned)
           || !Sees(s, s.attempts[i].made, seen) then s
        else Transact(net, s, i, seen)
      case Abort(i) => if Active(s, i) then CallOff(s, i) else s
      case Die(i) => if Active(s, i) then Settle(s, i, Dead) else s
      case Carry(slot) => if Decided(s.world.books, slot) then s.(holds := s.holds[slot := false]) else s
  }

  /** An invocation just after its snapshot. */
  function Began(net: Network, s: Scene, cmd: Command, seen: Option<BonusHold>): Attempt
    requires Judge(net, s.world, EventOf(cmd), seen).Accept?
  {
    Attempt(cmd, if cmd.Fire? then RowOf(s, cmd.timer) else 0, s.world, seen,
            Judge(net, s.world, EventOf(cmd), seen).effects, {}, Running)
  }

  function Start(net: Network, s: Scene, cmd: Command, seen: Option<BonusHold>): Scene {
    var e := EventOf(cmd);
    if Issued(s.world, cmd) && Unclaimed(s, e) && Sees(s, {}, seen) && Judge(net, s.world, e, seen).Accept? then
      s.(attempts := s.attempts + [Began(net, s, cmd, seen)])
    else s
  }

  /** Under the row lock: recompute, compare the effects, and flip a status that must
      still be the snapshot's; or back out. */
  function Transact(net: Network, s: Scene, i: nat, seen: Option<BonusHold>): Scene
    requires i < |s.attempts|
  {
    var a := s.attempts[i];
    var again := Judge(net, s.world, EventOf(a.cmd), seen);
    if !again.Accept? || again.effects != a.planned || s.world.state != a.from.state then BackOut(s, i)
    else if !SameDeed(net, s.world, EventOf(a.cmd), seen) then s.(course := Misled)
    else
      match Execute(net, s.world, a.cmd)
      case Err(_) => CallOff(s, i)
      case Ok(w) => if a.cmd.Fire? && !RowThere(s, a) then s.(course := TimerLeft) else Landed(s, i, w)
  }

  /** The commit writes the status its own snapshot led to. Under the same status and
      with the same effects that is the status the present shipment leads to. */
  lemma SameNext(s: State, e: Event, before: Context, now: Context)
    requires Transition(s, e, before).Accept? && Transition(s, e, now).Accept?
    requires Transition(s, e, before).effects == Transition(s, e, now).effects
    ensures Transition(s, e, before).next == Transition(s, e, now).next
  {
    if e.LegCheckin? {
      hide PayNow, RefundCarrierBond;
      ArrivalShows(s, e, before);
      ArrivalShows(s, e, now);
    }
  }

  lemma ArrivalShows(s: State, e: Event, ctx: Context)
    requires e.LegCheckin? && OnLegCheckin(s, e, ctx).Accept?
    ensures var o := OnLegCheckin(s, e, ctx);
      && |o.effects| >= 2 && (o.effects[|o.effects| - 2] == QueueEmail(ToSender) <==> o.next == AtHub)
      && (o.next == AtHub || o.next == AwaitingPickup)
  {}

  function Interleave(net: Network, s: Scene, moves: seq<Move>): Scene {
    if moves == [] then s else Act(net, Interleave(net, s, moves[..|moves| - 1]), moves[|moves| - 1])
  }

  /** A shipment just created, and nobody at work on it. */
  function Opening(w: World): Scene {
    Scene(w, map[], [], OnCourse, 0, map[])
  }

  // ----------------------------------------------------------- what races keep

  ghost predicate RefDisjoint(attempts: seq<Attempt>) {
    forall i, j :: 0 <= i < j < |attempts| ==>
      MintedBy(EventOf(attempts[i].cmd)) * MintedBy(EventOf(attempts[j].cmd)) == {}
  }

  /** Each hold sits under the key its row remembers. */
  ghost predicate IdemExact(b: Books) {
    && (forall k <- b.idem.Keys :: b.idem[k] < |b.payments| && SlotAt(b, b.idem[k]) == k)
    && (forall p: nat :: p < |b.payments| ==> SlotAt(b, p) in b.idem && b.idem[SlotAt(b, p)] == p)
  }

  function SlotAt(b: Books, p: nat): Slot
    requires p < |b.payments|
  {
    (b.payments[p].purpose, b.payments[p].ref)
  }

  /** An invocation creates holds only for rows it mints, except that an accepted
      deposit creates those of the requested leg; only that one creates a bonus
      hold for a stay. */
  predicate OwnSlot(e: Event, k: Slot) {
    && (k.1 in MintedBy(e) || (e.DepositAccept? && k.1.LegRef?))
    && (k.0 == FinalizationBonus && !k.1.ClaimRef? ==> e.DepositAccept?)
  }

  /** Effects that tell whose timer fired. */
  predicate Names(b: Books, x: Effect, k: TimerKey) {
    match k.kind
    case ClaimFundingWindow =>
      x.RefundPayment? && x.paymentId < |b.payments| && b.payments[x.paymentId].ref == ClaimRef(k.refId)
    case Storage => x.AppendEvent? && x.custody.stay == Some(k.refId)
    case _ => x.AppendEvent? && x.custody.leg == Some(k.refId)
  }

  ghost predicate Mentions(b: Books, es: seq<Effect>, k: TimerKey) {
    exists x <- es :: Names(b, x, k)
  }

  ghost predicate AttemptOk(s: Scene, a: Attempt) {
    && a.made <= SlotsOf(a.planned) && a.made <= s.holds.Keys
    && (forall k <- SlotsOf(a.planned) :: OwnSlot(EventOf(a.cmd), k))
    && (a.fate != Committed ==> MintedBy(EventOf(a.cmd)) * s.world.minted == {})
    && (a.fate == Committed ==> a.made <= s.world.books.idem.Keys)
    && match a.cmd
       case Handle(_, _) => Issued(s.world, a.cmd)
       case Fire(k, _) => Mentions(s.world.books, a.planned, k)
  }

  /** The snapshot is an earlier state of the run, and the plan was made on it. */
  ghost predicate SnapshotOk(net: Network, w: World, a: Attempt) {
    && Reachable(net, a.from) && Later(a.from, w) && Issued(a.from, a.cmd)
    && Judge(net, a.from, EventOf(a.cmd), a.saw).Accept?
    && a.planned == Judge(net, a.from, EventOf(a.cmd), a.saw).effects
  }

  /** A compensating refund reached this key. */
  ghost predicate Reached(s: Scene, k: Slot) {
    exists a <- s.attempts :: a.fate == Compensated && k in a.made
  }

  ghost predicate Made(s: Scene, k: Slot) {
    exists a <- s.attempts :: k in a.made
  }

  ghost predicate HoldsExact(s: Scene) {
    && s.world.books.idem.Keys <= s.holds.Keys
    && (forall k <- s.holds.Keys :: Made(s, k))
    && forall k <- s.holds.Keys :: !Decided(s.world.books, k) ==> (s.holds[k] <==> !Reached(s, k))
  }

  ghost predicate Coherent(net: Network, s: Scene) {
    && Reachable(net, s.world) && IdemExact(s.world.books)
    && RefDisjoint(s.attempts)
    && (forall a <- s.attempts :: AttemptOk(s, a) && SnapshotOk(net, s.world, a))
    && HoldsExact(s)
  }

  // ----------------------------------------------------------- which holds a transition creates

  ghost predicate AllOwn(e: Event, es: seq<Effect>) {
    forall x <- es :: x.CreatePayment? ==> OwnSlot(e, (x.purpose, x.ref))
  }

  lemma OwnInBookings(s: State, e: Event, ctx: Context)
    requires e.OriginHubAccept? || e.RequestLeg? || e.DepositAccept? || e.RecipientClaim?
    requires Transition(s, e, ctx).Accept?
    ensures AllOwn(e, Transition(s, e, ctx).effects)
  {}

  lemma OwnInReturn(s: State, e: Event, ctx: Context)
    requires e.LegReturn? && Transition(s, e, ctx).Accept?
    ensures AllOwn(e, Transition(s, e, ctx).effects)
  {}

  lemma NoneInRequests(s: State, e: Event, ctx: Context)
    requires e.OriginCheckin? || e.DepositReject? || e.DepositRequestExpired? || e.DepositRequestCancel?
             || e.HandoffReject? || e.Boost? || e.Reroute?
    requires Transition(s, e, ctx).Accept?
    ensures AllOwn(e, Transition(s, e, ctx).effects)
  {}

  lemma NoneInFunding(s: State, e: Event, ctx: Context)
    requires (e.LegFunded? || e.LegFundingExpired?) && Transition(s, e, ctx).Accept?
    ensures AllOwn(e, Transition(s, e, ctx).effects)
  {}

  lemma NoneInTravel(s: State, e: Event, ctx: Context)
    requires (e.PickupCheckout? || e.LegCheckin?) && Transition(s, e, ctx).Accept?
    ensures AllOwn(e, Transition(s, e, ctx).effects)
  {}

  lemma NoneInFailures(s: State, e: Event, ctx: Context)
    requires (e.PickupTimeout? || e.TransitTimeout?) && Transition(s, e, ctx).Accept?
    ensures AllOwn(e, Transition(s, e, ctx).effects)
  {}

  lemma NoneInClaims(s: State, e: Event, ctx: Context)
    requires e.RecipientPickup? || e.ClaimFunded? || e.ClaimFundingExpired?
    requires Transition(s, e, ctx).Accept?
    ensures AllOwn(e, Transition(s, e, ctx).effects)
  {}

  lemma NoneInEndings(s: State, e: Event, ctx: Context)
    requires (e.RecipientClaimedPickup? || e.Cancel?) && Transition(s, e, ctx).Accept?
    ensures AllOwn(e, Transition(s, e, ctx).effects)
  {}

  lemma NoneInExpiry(s: State, e: Event, ctx: Context)
    requires e.StorageExpiry? && Transition(s, e, ctx).Accept?
    ensures AllOwn(e, Transition(s, e, ctx).effects)
  {}

  /** A transition creates holds for the rows its event brings along, and
      `deposit_accept` also for the leg that was requested earlier. */
  lemma CreatesItsOwn(s: State, e: Event, ctx: Context)
    requires Transition(s, e, ctx).Accept?
    ensures forall k <- SlotsOf(Transition(s, e, ctx).effects) :: OwnSlot(e, k)
  {
    assert !e.Create?;
    hide Transition, OwnSlot;
    if e.OriginHubAccept? || e.RequestLeg? || e.DepositAccept? || e.RecipientClaim? { OwnInBookings(s, e, ctx); }
    else if e.LegReturn? { OwnInReturn(s, e, ctx); }
    else if e.LegFunded? || e.LegFundingExpired? { NoneInFunding(s, e, ctx); }
    else if e.PickupCheckout? || e.LegCheckin? { NoneInTravel(s, e, ctx); }
    else if e.PickupTimeout? || e.TransitTimeout? { NoneInFailures(s, e, ctx); }
    else if e.StorageExpiry? { NoneInExpiry(s, e, ctx); }
    else if e.RecipientPickup? || e.ClaimFunded? || e.ClaimFundingExpired? { NoneInClaims(s, e, ctx); }
    else if e.RecipientClaimedPickup? || e.Cancel? { NoneInEndings(s, e, ctx); }
    else { NoneInRequests(s, e, ctx); }
  }

  // ----------------------------------------------------------- what the transaction registers

  /** A verdict does not move a hold to another key. */
  lemma DecideKeepsSlots(b: Books, p: nat, v: Verdict)
    requires p < |b.payments| && IdemExact(b)
    ensures IdemExact(Decide(b, p, v))
  {
    var d := Decide(b, p, v);
    assert forall q: nat :: q < |b.payments| ==> SlotAt(d, q) == SlotAt(b, q);
  }

  lemma RegisterKeepsSlots(b: Books, p: Payment)
    requires (p.purpose, p.ref) !in b.idem && IdemExact(b)
    ensures IdemExact(Register(b, p))
  {
    var d := Register(b, p);
    assert forall q: nat :: q < |b.payments| ==> SlotAt(d, q) == SlotAt(b, q);
    assert SlotAt(d, |b.payments|) == (p.purpose, p.ref);
  }

  lemma OtherWritesKeepSlots(b: Books, d: Books)
    requires d.payments == b.payments && d.idem == b.idem && IdemExact(b)
    ensures IdemExact(d)
  {
    assert forall q: nat :: q < |b.payments| ==> SlotAt(d, q) == SlotAt(b, q);
  }

  lemma ApplyRegisters(c: Cursor, ctx: Context, e: Effect, b: Books)
    requires ApplyToBooks(c, ctx, e) == Ok(b) && IdemExact(c.books)
    ensures IdemExact(b)
    ensures b.idem.Keys == c.books.idem.Keys + SlotsOf([e])
    ensures forall k <- c.books.idem.Keys :: b.idem[k] == c.books.idem[k]
  {
    hide DeriveKey, Total, IdemExact;
    if e.CreatePayment? {
      RegisterKeepsSlots(c.books, Payment(e.purpose, e.payer, e.payee, e.amount, e.ref, Pending));
      assert SlotsOf([e]) == {(e.purpose, e.ref)};
    } else {
      assert SlotsOf([e]) == {};
      if e.ReleasePayment? { DecideKeepsSlots(c.books, e.paymentId, Released); }
      else if e.RefundPayment? { DecideKeepsSlots(c.books, e.paymentId, Refunded); }
      else { OtherWritesKeepSlots(c.books, b); }
    }
  }

  lemma NoSlots()
    ensures SlotsOf([]) == {}
  {}

  lemma SlotsSplit(es: seq<Effect>)
    requires es != []
    ensures SlotsOf(es) == SlotsOf([es[0]]) + SlotsOf(es[1..])
  {
    assert es == [es[0]] + es[1..];
    assert forall x :: x in es <==> x == es[0] || x in es[1..];
  }

  /** The creation keys the transaction registers are the ones it created, and
      old keys keep their holds. */
  lemma {:induction false} RunRegisters(c: Cursor, ctx: Context, es: seq<Effect>)
    requires Run(c, ctx, es).Ok? && IdemExact(c.books)
    ensures var d := Run(c, ctx, es).value.books;
      && IdemExact(d)
      && d.idem.Keys == c.books.idem.Keys + SlotsOf(es)
      && forall k <- c.books.idem.Keys :: d.idem[k] == c.books.idem[k]
    decreases |es|
  {
    hide ApplyToBooks, IdemExact, SlotsOf;
    if es == [] {
      NoSlots();
    } else {
      var mid := Apply(c, ctx, es[0]).value;
      ApplyRegisters(c, ctx, es[0], mid.books);
      RunRegisters(mid, ctx, es[1..]);
      SlotsSplit(es);
    }
  }

  // ----------------------------------------------------------- a timer that fired is still due at the commit

  /** What a timeout says in its effects names the timer. */
  lemma TimeoutNames(net: Network, w: World, cmd: Command, seen: Option<BonusHold>)
    requires Inv(net, w) && cmd.Fire? && Issued(w, cmd) && Judge(net, w, EventOf(cmd), seen).Accept?
    ensures Mentions(w.books, Judge(net, w, EventOf(cmd), seen).effects, cmd.timer)
  {
    hide Mentions, Inv, Judge;
    match cmd.timer.kind
    case Storage => StorageNames(net, w, cmd, seen);
    case ClaimFundingWindow => ClaimWindowNames(net, w, cmd, seen);
    case _ => LegTimerNames(net, w, cmd, seen);
  }

  lemma Named(b: Books, es: seq<Effect>, x: Effect, k: TimerKey)
    requires x in es && Names(b, x, k)
    ensures Mentions(b, es, k)
  {}

  lemma StorageNames(net: Network, w: World, cmd: Command, seen: Option<BonusHold>)
    requires Inv(net, w) && cmd.Fire? && cmd.timer.kind == Storage && Issued(w, cmd)
    requires Judge(net, w, EventOf(cmd), seen).Accept?
    ensures Mentions(w.books, Judge(net, w, EventOf(cmd), seen).effects, cmd.timer)
  {
    hide Mentions, Audited, StayOk, LegOk, RequestOk, BonusOk, ClaimOk, OnlyLivePending, RefsMinted,
      DissolveAtStorageExpiry, RefundStayBond;
    var es := Judge(net, w, EventOf(cmd), seen).effects;
    Named(w.books, es, es[|es| - 1], cmd.timer);
  }

  lemma ClaimWindowNames(net: Network, w: World, cmd: Command, seen: Option<BonusHold>)
    requires Inv(net, w) && cmd.Fire? && cmd.timer.kind == ClaimFundingWindow && Issued(w, cmd)
    requires Judge(net, w, EventOf(cmd), seen).Accept?
    ensures Mentions(w.books, Judge(net, w, EventOf(cmd), seen).effects, cmd.timer)
  {
    hide Mentions, Audited, StayOk, LegOk, RequestOk, BonusOk, OnlyLivePending, RefsMinted;
    var es := Judge(net, w, EventOf(cmd), seen).effects;
    Named(w.books, es, es[0], cmd.timer);
  }

  lemma LegTimerNames(net: Network, w: World, cmd: Command, seen: Option<BonusHold>)
    requires Inv(net, w) && cmd.Fire? && cmd.timer.kind != Storage && cmd.timer.kind != ClaimFundingWindow
    requires Issued(w, cmd) && Judge(net, w, EventOf(cmd), seen).Accept?
    ensures Mentions(w.books, Judge(net, w, EventOf(cmd), seen).effects, cmd.timer)
  {
    hide Mentions, Audited, StayOk, LegOk, RequestOk, BonusOk, ClaimOk, OnlyLivePending, RefsMinted,
      RefundPendingLegHolds, SlashCarrierBond, RefundLegPayment, RefundArrivalBond, RefundFinalizationBonus;
    var es := Judge(net, w, EventOf(cmd), seen).effects;
    if cmd.timer.kind == DepositResponse {
      Named(w.books, es, es[0], cmd.timer);
    } else {
      Named(w.books, es, es[|es| - 1], cmd.timer);
    }
  }

  /** A due timer's event is accepted whatever bonus hold is seen: a sweep whose
      snapshot is refused never has to drop an armed timer. */
  lemma TimeoutNeverRefused(net: Network, w: World, cmd: Command, seen: Option<BonusHold>)
    requires Inv(net, w) && cmd.Fire? && Issued(w, cmd)
    ensures Judge(net, w, EventOf(cmd), seen).Accept?
  {
    hide Audited, OnlyLivePending, RefsMinted, StayOk, LegOk, RequestOk, BonusOk, ClaimOk,
      RefundPendingLegHolds, RefundPendingClaimHolds, RefundFinalizationBonus, RefundHeldClaimHolds,
      DissolveAtStorageExpiry, RefundStayBond, SlashCarrierBond, RefundLegPayment, RefundArrivalBond;
  }

  /** And whoever names it and is accepted finds it armed and due. */
  lemma StillDue(net: Network, w: World, cmd: Command, seen: Option<BonusHold>)
    requires Inv(net, w) && cmd.Fire? && Judge(net, w, EventOf(cmd), seen).Accept?
    requires Mentions(w.books, Judge(net, w, EventOf(cmd), seen).effects, cmd.timer)
    ensures Issued(w, cmd)
  {
    hide Inv, Judge, Issued;
    match cmd.timer.kind
    case Storage => StorageStillDue(net, w, cmd, seen);
    case ClaimFundingWindow => ClaimWindowStillDue(net, w, cmd, seen);
    case LegFundingWindow => LegFundingStillDue(net, w, cmd, seen);
    case _ => LegTimerStillDue(net, w, cmd, seen);
  }

  lemma StorageStillDue(net: Network, w: World, cmd: Command, seen: Option<BonusHold>)
    requires Inv(net, w) && cmd.Fire? && cmd.timer.kind == Storage && Judge(net, w, EventOf(cmd), seen).Accept?
    requires Mentions(w.books, Judge(net, w, EventOf(cmd), seen).effects, cmd.timer)
    ensures Issued(w, cmd)
  {
    hide Audited, StayOk, LegOk, RequestOk, BonusOk, ClaimOk, OnlyLivePending, RefsMinted;
  }

  lemma ClaimWindowStillDue(net: Network, w: World, cmd: Command, seen: Option<BonusHold>)
    requires Inv(net, w) && cmd.Fire? && cmd.timer.kind == ClaimFundingWindow
    requires Judge(net, w, EventOf(cmd), seen).Accept?
    requires Mentions(w.books, Judge(net, w, EventOf(cmd), seen).effects, cmd.timer)
    ensures Issued(w, cmd)
  {
    hide Audited, StayOk, LegOk, RequestOk, BonusOk, OnlyLivePending, RefsMinted;
  }

  lemma LegFundingStillDue(net: Network, w: World, cmd: Command, seen: Option<BonusHold>)
    requires Inv(net, w) && cmd.Fire? && cmd.timer.kind == LegFundingWindow && Judge(net, w, EventOf(cmd), seen).Accept?
    requires Mentions(w.books, Judge(net, w, EventOf(cmd), seen).effects, cmd.timer)
    ensures Issued(w, cmd)
  {
    hide Audited, StayOk, LegOk, RequestOk, BonusOk, ClaimOk, OnlyLivePending, RefsMinted;
  }

  lemma LegTimerStillDue(net: Network, w: World, cmd: Command, seen: Option<BonusHold>)
    requires Inv(net, w) && cmd.Fire? && Judge(net, w, EventOf(cmd), seen).Accept?
    requires cmd.timer.kind == PickupWindow || cmd.timer.kind == TransitWindow || cmd.timer.kind == DepositResponse
    requires Mentions(w.books, Judge(net, w, EventOf(cmd), seen).effects, cmd.timer)
    ensures Issued(w, cmd)
  {
    hide Audited, StayOk, LegOk, RequestOk, BonusOk, ClaimOk, OnlyLivePending, RefsMinted;
  }

  // ----------------------------------------------------------- every move keeps the scene coherent

  lemma MentionsLast(b: Books, d: Books, es: seq<Effect>, k: TimerKey)
    requires PaymentsEvolve(b, d) && Mentions(b, es, k)
    ensures Mentions(d, es, k)
  {
    var x :| x in es && Names(b, x, k);
    assert Names(d, x, k);
  }

  lemma AttemptOkLasts(s: Scene, t: Scene, a: Attempt)
    requires AttemptOk(s, a) && s.holds.Keys <= t.holds.Keys
    requires s.world.books.idem.Keys <= t.world.books.idem.Keys
    requires PaymentsEvolve(s.world.books, t.world.books)
    requires a.fate != Committed ==> MintedBy(EventOf(a.cmd)) * t.world.minted == {}
    ensures AttemptOk(t, a)
  {
    hide Mentions, OwnSlot, PaymentsEvolve;
    if a.cmd.Fire? { MentionsLast(s.world.books, t.world.books, a.planned, a.cmd.timer); }
  }

  lemma Evolved(b: Books)
    ensures PaymentsEvolve(b, b)
  {}

  /** A move that touches only one invocation, and leaves its command alone. */
  lemma OneAttemptMoves(net: Network, s: Scene, i: nat, a: Attempt, holds: map<Slot, bool>)
    requires Coherent(net, s) && i < |s.attempts| && a == s.attempts[i].(made := a.made, fate := a.fate)
    requires s.holds.Keys <= holds.Keys
    requires AttemptOk(s.(holds := holds), a)
    requires HoldsExact(s.(holds := holds, attempts := s.attempts[i := a]))
    ensures Coherent(net, s.(holds := holds, attempts := s.attempts[i := a]))
  {
    hide HoldsExact, AttemptOk, Reachable, IdemExact, PaymentsEvolve, Later, Judge, Issued;
    var t := s.(holds := holds, attempts := s.attempts[i := a]);
    forall b <- t.attempts ensures AttemptOk(t, b) && SnapshotOk(net, t.world, b) {
      Evolved(s.world.books);
      assert SnapshotOk(net, s.world, s.attempts[i]);
      if b == a {
        AttemptOkUncommitted(s.(holds := holds), a);
        AttemptOkLasts(s.(holds := holds), t, a);
      } else {
        assert b in s.attempts;
        AttemptOkUncommitted(s, b);
        AttemptOkLasts(s, t, b);
      }
    }
  }

  lemma AttemptOkUncommitted(s: Scene, a: Attempt)
    requires AttemptOk(s, a)
    ensures a.fate != Committed ==> MintedBy(EventOf(a.cmd)) * s.world.minted == {}
  {}

  lemma SameAttempt(s: Scene, i: nat, a: Attempt, holds: map<Slot, bool>)
    requires i < |s.attempts| && AttemptOk(s, s.attempts[i]) && s.holds.Keys <= holds.Keys
    requires a == s.attempts[i].(made := a.made, fate := a.fate)
    requires a.made <= SlotsOf(a.planned) && a.made <= holds.Keys
    requires s.attempts[i].fate == Running && a.fate != Committed
    ensures AttemptOk(s.(holds := holds), a)
  {
    hide SlotsOf, OwnSlot, Mentions, Issued;
  }

  lemma MakeKeeps(net: Network, s: Scene, i: nat, slot: Slot)
    requires Coherent(net, s) && Active(s, i) && slot in SlotsOf(s.attempts[i].planned)
    ensures Coherent(net, s.(holds := if slot in s.holds then s.holds else s.holds[slot := true],
                             attempts := s.attempts[i := s.attempts[i].(made := s.attempts[i].made + {slot})]))
  {
    hide Reachable, IdemExact, SlotsOf, OwnSlot, Mentions, Issued, SnapshotOk;
    var holds := if slot in s.holds then s.holds else s.holds[slot := true];
    var a := s.attempts[i].(made := s.attempts[i].made + {slot});
    var t := s.(holds := holds, attempts := s.attempts[i := a]);
    forall k ensures Reached(t, k) <==> Reached(s, k) {
      assert forall b <- s.attempts :: b.fate == Compensated ==> b in t.attempts by { KeptOthers(s.attempts, i, a); }
    }
    assert !(slot in s.holds) ==> !Reached(s, slot);
    KeptOthers(s.attempts, i, a);
    forall k | Made(s, k) ensures Made(t, k) {}
    assert Made(t, slot);
    SameAttempt(s, i, a, holds);
    OneAttemptMoves(net, s, i, a, holds);
  }

  /** Updating one invocation keeps the others. */
  lemma KeptOthers(attempts: seq<Attempt>, i: nat, a: Attempt)
    requires i < |attempts|
    ensures forall b <- attempts :: b != attempts[i] ==> b in attempts[i := a]
    ensures forall b <- attempts[i := a] :: b == a || b in attempts
    ensures a in attempts[i := a]
  {
    forall b <- attempts | b != attempts[i] ensures b in attempts[i := a] {
      var j :| 0 <= j < |attempts| && attempts[j] == b;
      assert attempts[i := a][j] == b;
    }
    assert attempts[i := a][i] == a;
  }

  lemma DieKeeps(net: Network, s: Scene, i: nat)
    requires Coherent(net, s) && Active(s, i)
    ensures Coherent(net, Settle(s, i, Dead))
  {
    hide Reachable, IdemExact, SlotsOf, OwnSlot, Mentions, Issued, SnapshotOk;
    var a := s.attempts[i].(fate := Dead);
    var t := Settle(s, i, Dead);
    KeptOthers(s.attempts, i, a);
    forall k ensures Reached(t, k) <==> Reached(s, k) {}
    SameAttempt(s, i, a, s.holds);
    OneAttemptMoves(net, s, i, a, s.holds);
  }

  lemma CallOffKeeps(net: Network, s: Scene, i: nat)
    requires Coherent(net, s) && Active(s, i)
    ensures Coherent(net, CallOff(s, i))
  {
    hide Reachable, IdemExact, SlotsOf, OwnSlot, Mentions, Issued, SnapshotOk;
    var a := s.attempts[i].(fate := Compensated);
    var t := CallOff(s, i);
    KeptOthers(s.attempts, i, a);
    forall k ensures Reached(t, k) <==> Reached(s, k) || k in a.made {}
    SameAttempt(s, i, a, t.holds);
    OneAttemptMoves(net, s, i, a, t.holds);
  }

  lemma CarryKeeps(net: Network, s: Scene, slot: Slot)
    requires Coherent(net, s) && Decided(s.world.books, slot)
    ensures Coherent(net, s.(holds := s.holds[slot := false]))
  {
    hide Reachable, IdemExact, SlotsOf, OwnSlot, Mentions, Issued, PaymentsEvolve, SnapshotOk;
    hide Sees, Inv, Judge, Transition;
    var t := s.(holds := s.holds[slot := false]);
    forall k ensures Reached(t, k) <==> Reached(s, k) {}
    forall a <- t.attempts ensures AttemptOk(t, a) {
      Evolved(s.world.books);
      AttemptOkLasts(s, t, a);
    }
  }

  lemma StartKeeps(net: Network, s: Scene, cmd: Command, seen: Option<BonusHold>)
    requires Coherent(net, s)
    ensures Coherent(net, Start(net, s, cmd, seen))
  {
    hide Reachable, IdemExact, Inv, Judge, Transition, SlotsOf, OwnSlot, Mentions, Issued, Sees, PaymentsEvolve,
      SnapshotOk;
    var t := Start(net, s, cmd, seen);
    if t != s {
      var a := t.attempts[|s.attempts|];
      NewAttemptOk(net, s, cmd, seen);
      AttemptOkLasts(s, t, a) by { Evolved(s.world.books); }
      forall b <- s.attempts ensures AttemptOk(t, b) {
        Evolved(s.world.books);
        AttemptOkLasts(s, t, b);
      }
      forall k ensures Reached(t, k) <==> Reached(s, k) {
        assert forall b <- s.attempts :: b in t.attempts;
      }
    }
  }

  lemma NewAttemptOk(net: Network, s: Scene, cmd: Command, seen: Option<BonusHold>)
    requires Reachable(net, s.world) && Issued(s.world, cmd) && Unclaimed(s, EventOf(cmd))
    requires Judge(net, s.world, EventOf(cmd), seen).Accept?
    ensures AttemptOk(s, Began(net, s, cmd, seen)) && SnapshotOk(net, s.world, Began(net, s, cmd, seen))
  {
    hide Reachable, Inv, SlotsOf, OwnSlot, Mentions, Issued, Transition, Later;
    LaterAtOnce(s.world);
    ReachableKeeps(net, s.world);
    CreatesItsOwn(s.world.state, EventOf(cmd), Seeing(net, s.world, seen));
    if cmd.Fire? { TimeoutNames(net, s.world, cmd, seen); }
  }

  /** What a commit makes of the registry. */
  lemma CommitRegisters(net: Network, w: World, cmd: Command, v: World)
    requires Execute(net, w, cmd) == Ok(v) && IdemExact(w.books)
    ensures IdemExact(v.books) && PaymentsEvolve(w.books, v.books)
    ensures v.minted == w.minted + MintedBy(EventOf(cmd))
    ensures v.books.idem.Keys == w.books.idem.Keys + SlotsOf(Judge(net, w, EventOf(cmd), w.bonus).effects)
    ensures forall k <- w.books.idem.Keys :: v.books.idem[k] == w.books.idem[k]
  {
    var ctx := ContextOf(net, w);
    assert ctx.(bonus := w.bonus) == ctx;
    var outcome := Transition(w.state, EventOf(cmd), ctx);
    ExecuteEvolves(net, w, cmd);
    hide Transition, Run, IdemExact, SlotsOf, PaymentsEvolve, ProjectRows, AdvancePool, Wanted;
    RunRegisters(Cursor(w.books, None), ctx, outcome.effects);
    var d := Run(Cursor(w.books, None), ctx, outcome.effects).value.books;
    OtherWritesKeepSlots(d, v.books);
  }

  lemma ReachableNext(net: Network, w: World, cmd: Command, v: World)
    requires Reachable(net, w) && Issued(w, cmd) && Execute(net, w, cmd) == Ok(v)
    ensures Reachable(net, v)
  {
    hide BornAs, Issued, Execute;
    var x: Birth, cmds: seq<Command> :| BornAs(net, x).Ok? && w == Play(net, BornAs(net, x).value, cmds);
    assert (cmds + [cmd])[..|cmds|] == cmds;
    assert v == Play(net, BornAs(net, x).value, cmds + [cmd]);
  }

  /** At the commit the command is one that may be issued on the locked row. */
  lemma IssuedAtCommit(net: Network, s: Scene, a: Attempt)
    requires Reachable(net, s.world) && AttemptOk(s, a)
    requires Judge(net, s.world, EventOf(a.cmd), s.world.bonus).Accept?
    requires Judge(net, s.world, EventOf(a.cmd), s.world.bonus).effects == a.planned
    ensures Issued(s.world, a.cmd)
  {
    hide Reachable, Judge, Issued, Mentions, SlotsOf, OwnSlot, Inv;
    if a.cmd.Fire? {
      ReachableKeeps(net, s.world);
      StillDue(net, s.world, a.cmd, s.world.bonus);
    }
  }

  lemma CommitKeepsHolds(s: Scene, t: Scene, i: nat)
    requires HoldsExact(s) && Active(s, i) && s.attempts[i].made <= s.holds.Keys
    requires t == Landed(s, i, t.world)
    requires IdemExact(s.world.books)
    requires PaymentsEvolve(s.world.books, t.world.books)
    requires t.world.books.idem.Keys == s.world.books.idem.Keys + s.attempts[i].made
    requires forall k <- s.world.books.idem.Keys :: t.world.books.idem[k] == s.world.books.idem[k]
    ensures HoldsExact(t)
  {
    var b, d, a := s.world.books, t.world.books, s.attempts[i].(fate := Committed);
    KeptOthers(s.attempts, i, a);
    forall k ensures Reached(t, k) <==> Reached(s, k) {}
    forall k | Decided(b, k) ensures Decided(d, k) {
      assert k in b.idem.Keys && d.idem[k] == b.idem[k];
    }
  }

  lemma CommitKeeps(net: Network, s: Scene, i: nat, v: World)
    requires Coherent(net, s) && Active(s, i) && s.attempts[i].made == SlotsOf(s.attempts[i].planned)
    requires Judge(net, s.world, EventOf(s.attempts[i].cmd), s.world.bonus).Accept?
    requires Judge(net, s.world, EventOf(s.attempts[i].cmd), s.world.bonus).effects == s.attempts[i].planned
    requires Execute(net, s.world, s.attempts[i].cmd) == Ok(v)
    ensures Coherent(net, Landed(s, i, v))
  {
    hide Reachable, Judge, Issued, Mentions, SlotsOf, OwnSlot, Inv, Execute, IdemExact, PaymentsEvolve, HoldsExact,
      AttemptOk, SnapshotOk;
    var a := s.attempts[i];
    var t := Landed(s, i, v);
    MadeAreHeld(s, a);
    IssuedAtCommit(net, s, a);
    ReachableNext(net, s.world, a.cmd, v);
    CommitRegisters(net, s.world, a.cmd, v);
    CommitKeepsHolds(s, t, i);
    forall j: nat | j < |t.attempts| ensures AttemptOk(t, t.attempts[j]) && SnapshotOk(net, v, t.attempts[j]) {
      AttemptAfterCommit(s, t, i, j);
      SnapshotAfterCommit(net, s, t, i, j, a.cmd);
    }
    forall b <- t.attempts ensures AttemptOk(t, b) && SnapshotOk(net, v, b) {
      var j :| 0 <= j < |t.attempts| && t.attempts[j] == b;
      assert AttemptOk(t, t.attempts[j]);
    }
  }

  lemma MadeAreHeld(s: Scene, a: Attempt)
    requires AttemptOk(s, a)
    ensures a.made <= s.holds.Keys
  {}

  lemma SnapshotAfterCommit(net: Network, s: Scene, t: Scene, i: nat, j: nat, cmd: Command)
    requires Active(s, i) && j < |s.attempts| && t == Landed(s, i, t.world)
    requires SnapshotOk(net, s.world, s.attempts[j]) && Reachable(net, s.world) && Reachable(net, t.world)
    requires Execute(net, s.world, cmd) == Ok(t.world)
    ensures SnapshotOk(net, t.world, t.attempts[j])
  {
    hide Reachable, Judge, Issued, Inv, Execute, Later;
    ReachableKeeps(net, s.attempts[j].from);
    ReachableKeeps(net, s.world);
    ReachableKeeps(net, t.world);
    LaterStill(net, s.attempts[j].from, s.world, cmd, t.world);
  }

  lemma AttemptAfterCommit(s: Scene, t: Scene, i: nat, j: nat)
    requires Active(s, i) && j < |s.attempts| && RefDisjoint(s.attempts)
    requires AttemptOk(s, s.attempts[j])
    requires t == Landed(s, i, t.world)
    requires PaymentsEvolve(s.world.books, t.world.books)
    requires t.world.minted == s.world.minted + MintedBy(EventOf(s.attempts[i].cmd))
    requires t.world.books.idem.Keys == s.world.books.idem.Keys + s.attempts[i].made
    ensures AttemptOk(t, t.attempts[j])
  {
    hide Mentions, SlotsOf, OwnSlot, PaymentsEvolve;
    var b := t.attempts[j];
    if j == i {
      if b.cmd.Fire? { MentionsLast(s.world.books, t.world.books, b.planned, b.cmd.timer); }
    } else {
      if b.fate != Committed {
        AttemptOkUncommitted(s, b);
        Apart(s.attempts, i, j);
      }
      AttemptOkLasts(s, t, b);
    }
  }

  lemma Apart(attempts: seq<Attempt>, i: nat, j: nat)
    requires RefDisjoint(attempts) && i < |attempts| && j < |attempts| && i != j
    ensures MintedBy(EventOf(attempts[j].cmd)) * MintedBy(EventOf(attempts[i].cmd)) == {}
  {
    hide MintedBy;
    if i < j {
      assert MintedBy(EventOf(attempts[i].cmd)) * MintedBy(EventOf(attempts[j].cmd)) == {};
    }
  }

  /** The course is only a mark. */
  lemma MarkedKeeps(net: Network, s: Scene, course: Course)
    requires Coherent(net, s)
    ensures Coherent(net, s.(course := course))
  {
    hide Reachable, IdemExact, SlotsOf, OwnSlot, Mentions, Issued, PaymentsEvolve, SnapshotOk;
    var t := s.(course := course);
    assert forall k :: (Reached(t, k) <==> Reached(s, k)) && (Made(t, k) <==> Made(s, k));
    forall a <- t.attempts ensures AttemptOk(t, a) {
      Evolved(s.world.books);
      AttemptOkLasts(s, t, a);
    }
  }

  lemma TransactKeeps(net: Network, s: Scene, i: nat, seen: Option<BonusHold>)
    requires Coherent(net, s) && Active(s, i) && s.attempts[i].made == SlotsOf(s.attempts[i].planned)
    ensures Coherent(net, Transact(net, s, i, seen))
  {
    hide Coherent, Judge, Execute, SlotsOf;
    MarkedKeeps(net, s, Misled);
    MarkedKeeps(net, s, TimerLeft);
    CallOffKeeps(net, s, i);
    MarkedKeeps(net, CallOff(s, i), TimerDropped);
    var a := s.attempts[i];
    var again := Judge(net, s.world, EventOf(a.cmd), seen);
    if again.Accept? && again.effects == a.planned && SameDeed(net, s.world, EventOf(a.cmd), seen)
       && Execute(net, s.world, a.cmd).Ok? {
      CommitKeeps(net, s, i, Execute(net, s.world, a.cmd).value);
    }
  }

  lemma ActKeeps(net: Network, s: Scene, m: Move)
    requires Coherent(net, s)
    ensures Coherent(net, Act(net, s, m))
  {
    hide Coherent, Start, Transact, Sees, Decided;
    if s.course == OnCourse {
      match m
      case Begin(cmd, seen) => StartKeeps(net, s, cmd, seen);
      case Make(i, slot) =>
        if Active(s, i) && slot in SlotsOf(s.attempts[i].planned) { MakeKeeps(net, s, i, slot); }
      case Finish(i, seen) =>
        if Active(s, i) && s.attempts[i].made == SlotsOf(s.attempts[i].planned) { TransactKeeps(net, s, i, seen); }
      case Abort(i) => if Active(s, i) { CallOffKeeps(net, s, i); }
      case Die(i) => if Active(s, i) { DieKeeps(net, s, i); }
      case Carry(slot) => if Decided(s.world.books, slot) { CarryKeeps(net, s, slot); }
    }
  }

  lemma OpeningCoherent(net: Network, x: Birth)
    requires BornAs(net, x).Ok?
    ensures Coherent(net, Opening(BornAs(net, x).value))
  {
    var w := BornAs(net, x).value;
    assert Play(net, w, []) == w;
    assert Reachable(net, w);
    hide Reachable;
    BornEmpty(net, x);
  }

  lemma BornEmpty(net: Network, x: Birth)
    requires BornAs(net, x).Ok?
    ensures BornAs(net, x).value.books.payments == [] && BornAs(net, x).value.books.idem == map[]
  {
    var work := if x.offer < 0 then 0 else SplitCommitment(x.offer).work;
    var ctx := Context(x.sender, x.senderWallet, x.originHub, net.owner(x.originHub), x.destHub, x.bond, x.offer,
                       work, 0, None, None, None, None, None);
    Run1(Cursor(EMPTY, None), ctx, OnCreate(ctx).effects[0]);
    assert OnCreate(ctx).effects == [OnCreate(ctx).effects[0]];
  }

  lemma {:induction false} RacesKeep(net: Network, s: Scene, moves: seq<Move>)
    requires Coherent(net, s)
    ensures Coherent(net, Interleave(net, s, moves))
  {
    hide Coherent, Act;
    if moves != [] {
      RacesKeep(net, s, moves[..|moves| - 1]);
      ActKeeps(net, Interleave(net, s, moves[..|moves| - 1]), moves[|moves| - 1]);
    }
  }

  /** Every interleaving keeps the scene coherent; in particular some serial run
      of the committed commands leads to the committed shipment. */
  lemma RaceKeeps(net: Network, x: Birth, moves: seq<Move>)
    requires BornAs(net, x).Ok?
    ensures Coherent(net, Interleave(net, Opening(BornAs(net, x).value), moves))
  {
    hide Coherent, Interleave, BornAs;
    OpeningCoherent(net, x);
    RacesKeep(net, Opening(BornAs(net, x).value), moves);
  }

  lemma CoherentInv(net: Network, s: Scene)
    requires Coherent(net, s)
    ensures Inv(net, s.world)
  {
    hide Reachable, Inv, AttemptOk, HoldsExact;
    ReachableKeeps(net, s.world);
  }

  // ----------------------------------------------------------- what races can and cannot do to the holds

  /** An undecided hold of the committed shipment. */
  predicate OpenSlot(b: Books, k: Slot) {
    k in b.idem && b.idem[k] < |b.payments| && b.payments[b.idem[k]].verdict == Pending
  }

  /** Every undecided hold of the committed shipment stands. */
  ghost predicate Standing(s: Scene) {
    forall k :: OpenSlot(s.world.books, k) ==> k in s.holds && s.holds[k]
  }

  /** Exactly the holds that somebody's compensating refund reached are lost. */
  lemma StandingExactly(net: Network, s: Scene)
    requires Coherent(net, s)
    ensures Standing(s) <==> forall k :: OpenSlot(s.world.books, k) ==> !Reached(s, k)
  {
    hide Reachable, IdemExact, AttemptOk, RefDisjoint, Reached, Made;
  }

  /** A lost hold is the payment or the carrier's bond of a leg, and the one who
      called it off is another acceptance of the same request. */
  lemma OnlyTheAcceptedLegLoses(net: Network, s: Scene, k: Slot) returns (a: Attempt)
    requires Coherent(net, s) && OpenSlot(s.world.books, k) && !(k in s.holds && s.holds[k])
    ensures s.world.leg.Some? && k.1 == LegRef(s.world.leg.value.id)
    ensures k == (LegPayment, k.1) || k == (CustodyBond, k.1)
    ensures a in s.attempts && a.fate == Compensated && k in a.made && EventOf(a.cmd).DepositAccept?
  {
    hide Reachable, SlotsOf, Mentions, Issued;
    assert Reached(s, k);
    a :| a in s.attempts && a.fate == Compensated && k in a.made;
    ReachableKeeps(net, s.world);
    assert OwnSlot(EventOf(a.cmd), k);
    OpenIsLive(net, s.world, k);
    if k.1 in MintedBy(EventOf(a.cmd)) {
      NotMinted(MintedBy(EventOf(a.cmd)), s.world.minted, k.1);
    }
  }

  lemma OpenIsLive(net: Network, w: World, k: Slot)
    requires Inv(net, w) && IdemExact(w.books) && OpenSlot(w.books, k)
    ensures k.1 in w.minted
    ensures k.1.LegRef? ==>
      w.leg.Some? && k.1 == LegRef(w.leg.value.id) && (k.0 == LegPayment || k.0 == CustodyBond)
    ensures k.0 == FinalizationBonus && !k.1.ClaimRef? ==>
      w.bonus == Some(BonusHold(w.books.idem[k], w.books.payments[w.books.idem[k]].amount))
  {
    hide Audited, ExpectedTimers;
    assert SlotAt(w.books, w.books.idem[k]) == k;
    assert Live(w, w.books.idem[k]);
  }
}
