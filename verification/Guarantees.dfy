/** The guarantees of a run, read off the invariant. */
module Guarantees {
  import opened Economics
  import opened Shipment
  import opened StateMachine
  import opened Books
  import opened Executor
  import opened EffectRuns
  import opened Invariant
  import opened Runs

  // ----------------------------------------------------------- commitment in closed form

  function BonusAmount(w: World): Msat {
    if w.bonus.Some? then w.bonus.value.amount else 0
  }

  /** What the shipment's commitment account holds in each state. */
  function ClosedForm(w: World): Msat {
    match w.state
    case AwaitingDropoff | AtHub => w.bond
    case LegBooked => if w.leg.Some? then 3 * w.bond + LegHoldAmount(w.leg.value) + BonusAmount(w) else 0
    case InTransit => if w.leg.Some? then 2 * w.bond + LegHoldAmount(w.leg.value) + BonusAmount(w) else 0
    case AwaitingPickup => w.bond + BonusAmount(w)
    case Claimed => if w.claim.Some? then w.bond + w.claim.value.payment + w.claim.value.hubBonus else 0
    case _ => 0
  }

  function Below(b: Books, n: nat, p: nat): Msat
    requires n <= |b.payments|
  {
    if p < n then InFlight(b, p) else 0
  }

  function SumBelow(b: Books, n: nat, ids: seq<nat>): Msat
    requires n <= |b.payments|
  {
    if ids == [] then 0 else Below(b, n, ids[0]) + SumBelow(b, n, ids[1..])
  }

  lemma {:induction false} SumBelowGrows(b: Books, n: nat, ids: seq<nat>)
    requires n < |b.payments|
    requires forall i, j :: 0 <= i < j < |ids| ==> ids[i] != ids[j]
    ensures SumBelow(b, n + 1, ids) == SumBelow(b, n, ids) + (if n in ids then InFlight(b, n) else 0)
  {
    if ids != [] {
      SumBelowGrows(b, n, ids[1..]);
      assert ids == [ids[0]] + ids[1..];
    }
  }

  /** The holds in flight are exactly these: so is the sum. */
  lemma {:induction false} InFlightIsSum(b: Books, n: nat, ids: seq<nat>)
    requires n <= |b.payments|
    requires forall i, j :: 0 <= i < j < |ids| ==> ids[i] != ids[j]
    requires forall p: nat :: p < |b.payments| && p !in ids ==> InFlight(b, p) == 0
    ensures InFlightUpTo(b, n) == SumBelow(b, n, ids)
  {
    if n == 0 {
      SumBelowNone(b, ids);
    } else {
      InFlightIsSum(b, n - 1, ids);
      SumBelowGrows(b, n - 1, ids);
    }
  }

  lemma {:induction false} SumBelowNone(b: Books, ids: seq<nat>)
    ensures SumBelow(b, 0, ids) == 0
  {
    if ids != [] { SumBelowNone(b, ids[1..]); }
  }

  /** The holds the ledger counts, by state. */
  function Counted(w: World): seq<nat> {
    (if w.stay.Some? then [w.stay.value.bondId] else [])
    + (if w.leg.Some? && w.state != AtHub then
         [w.leg.value.paymentId, w.leg.value.carrierBondId, w.leg.value.arrivalBondId] else [])
    + (if w.bonus.Some? && w.state != AtHub then [w.bonus.value.paymentId] else [])
    + (if w.claim.Some? && w.state == Claimed then [w.claim.value.paymentId] else [])
    + (if w.claim.Some? && w.state == Claimed && w.claim.value.hubBonusId.Some? then [w.claim.value.hubBonusId.value] else [])
  }

  lemma CountedDistinct(net: Network, w: World)
    requires Inv(net, w)
    ensures forall i, j :: 0 <= i < j < |Counted(w)| ==> Counted(w)[i] != Counted(w)[j]
  {
    hide Audited, OnlyLivePending, RefsMinted, ExpectedTimers;
  }

  lemma OnlyCountedInFlight(net: Network, w: World)
    requires Inv(net, w)
    ensures forall p: nat :: p < |w.books.payments| && p !in Counted(w) ==> InFlight(w.books, p) == 0
  {
    hide Audited, RefsMinted, ExpectedTimers;
    var ids := Counted(w);
    forall p: nat | p < |w.books.payments| && p !in ids
      ensures InFlight(w.books, p) == 0
    {
      if w.books.payments[p].verdict == Pending {
        assert Live(w, p);
      }
    }
  }

  lemma {:induction false} CountedSum(net: Network, w: World)
    requires Inv(net, w)
    ensures SumBelow(w.books, |w.books.payments|, Counted(w)) == ClosedForm(w)
  {
    hide Audited, OnlyLivePending, RefsMinted, ExpectedTimers;
    var b, n := w.books, |w.books.payments|;
    SumParts(b, n, w);
  }

  lemma {:induction false} SumConcat(b: Books, n: nat, xs: seq<nat>, ys: seq<nat>)
    requires n <= |b.payments|
    ensures SumBelow(b, n, xs + ys) == SumBelow(b, n, xs) + SumBelow(b, n, ys)
  {
    if xs == [] {
      assert xs + ys == ys;
    } else {
      SumConcat(b, n, xs[1..], ys);
      assert (xs + ys)[1..] == xs[1..] + ys;
    }
  }

  lemma SumOne(b: Books, n: nat, p: nat)
    requires n <= |b.payments|
    ensures SumBelow(b, n, [p]) == Below(b, n, p)
  {}

  lemma SumThree(b: Books, n: nat, p: nat, q: nat, r: nat)
    requires n <= |b.payments|
    ensures SumBelow(b, n, [p, q, r]) == Below(b, n, p) + Below(b, n, q) + Below(b, n, r)
  {
    SumConcat(b, n, [p], [q] + [r]);
    SumConcat(b, n, [q], [r]);
    SumOne(b, n, p); SumOne(b, n, q); SumOne(b, n, r);
    assert [p, q, r] == [p] + ([q] + [r]);
  }

  lemma SumParts(b: Books, n: nat, w: World)
    requires n == |b.payments|
    ensures SumBelow(b, n, Counted(w)) ==
            (if w.stay.Some? then Below(b, n, w.stay.value.bondId) else 0)
            + (if w.leg.Some? && w.state != AtHub then
                 Below(b, n, w.leg.value.paymentId) + Below(b, n, w.leg.value.carrierBondId) + Below(b, n, w.leg.value.arrivalBondId)
               else 0)
            + (if w.bonus.Some? && w.state != AtHub then Below(b, n, w.bonus.value.paymentId) else 0)
            + (if w.claim.Some? && w.state == Claimed then Below(b, n, w.claim.value.paymentId) else 0)
            + (if w.claim.Some? && w.state == Claimed && w.claim.value.hubBonusId.Some? then
                 Below(b, n, w.claim.value.hubBonusId.value) else 0)
  {
    var s1 := if w.stay.Some? then [w.stay.value.bondId] else [];
    var s2 := if w.leg.Some? && w.state != AtHub then
                [w.leg.value.paymentId, w.leg.value.carrierBondId, w.leg.value.arrivalBondId] else [];
    var s3 := if w.bonus.Some? && w.state != AtHub then [w.bonus.value.paymentId] else [];
    var s4 := if w.claim.Some? && w.state == Claimed then [w.claim.value.paymentId] else [];
    var s5 := if w.claim.Some? && w.state == Claimed && w.claim.value.hubBonusId.Some? then [w.claim.value.hubBonusId.value] else [];
    SumConcat(b, n, s1 + s2 + s3 + s4, s5);
    SumConcat(b, n, s1 + s2 + s3, s4);
    SumConcat(b, n, s1 + s2, s3);
    SumConcat(b, n, s1, s2);
    if s1 != [] { SumOne(b, n, s1[0]); }
    if s2 != [] { SumThree(b, n, s2[0], s2[1], s2[2]); }
    if s3 != [] { SumOne(b, n, s3[0]); }
    if s4 != [] { SumOne(b, n, s4[0]); }
    if s5 != [] { SumOne(b, n, s5[0]); }
  }

  /** At every reachable state the commitment account holds exactly the closed form. */
  lemma CommitmentInClosedForm(net: Network, w: World)
    requires Reachable(net, w)
    ensures Balance(w.books.ledger) == ClosedForm(w)
  {
    hide Reachable;
    ReachableKeeps(net, w);
    CountedDistinct(net, w);
    OnlyCountedInFlight(net, w);
    InFlightIsSum(w.books, |w.books.payments|, Counted(w));
    CountedSum(net, w);
    hide StayOk, LegOk, RequestOk, BonusOk, ClaimOk, OnlyLivePending, RefsMinted;
  }

  // ----------------------------------------------------------- a bonded custodian

  /** Whoever physically answers for the parcel, and the hold that backs it. */
  function Custodian(w: World): Option<(UserId, nat)> {
    match w.state
    case AwaitingDropoff | AtHub | LegBooked | AwaitingPickup | Claimed =>
      if w.stay.Some? then Some((w.stay.value.user, w.stay.value.bondId)) else None
    case InTransit => if w.leg.Some? then Some((w.leg.value.carrier, w.leg.value.carrierBondId)) else None
    case _ => None
  }

  /** From origin acceptance to closure the custodian's bond is held. */
  lemma CustodianBonded(net: Network, w: World)
    requires Reachable(net, w) && w.state != Draft && !Terminal(w.state)
    ensures Custodian(w).Some?
    ensures var (who, bond) := Custodian(w).value;
      && Open(w.books, bond, true)
      && w.books.payments[bond].purpose == CustodyBond && w.books.payments[bond].payer == who
      && w.books.payments[bond].payee == w.sender && w.books.payments[bond].amount == w.bond
  {
    ReachableKeeps(net, w);
    hide Reachable, Audited, OnlyLivePending, RefsMinted;
  }

  // ----------------------------------------------------------- no hold leaks

  /** When the shipment is over, every conditional payment it ever opened has
      been released or refunded. */
  lemma NothingLeaks(net: Network, w: World, p: nat)
    requires Reachable(net, w) && Terminal(w.state) && p < |w.books.payments|
    ensures w.books.payments[p].verdict != Pending
    ensures PaymentAudit(w.books, p)
  {
    ReachableKeeps(net, w);
    hide Reachable, RefsMinted;
    assert !Live(w, p);
  }

  /** Payments never change but for one verdict. */
  ghost predicate PaymentsEvolve(b: Books, d: Books) {
    && |b.payments| <= |d.payments|
    && (forall p: nat :: p < |b.payments| ==>
          d.payments[p].(verdict := Pending) == b.payments[p].(verdict := Pending))
    && (forall p: nat :: p < |b.payments| && b.payments[p].verdict != Pending ==> d.payments[p] == b.payments[p])
  }

  lemma {:induction false} RunEvolves(c: Cursor, ctx: Context, es: seq<Effect>)
    requires Run(c, ctx, es).Ok?
    ensures PaymentsEvolve(c.books, Run(c, ctx, es).value.books)
    decreases |es|
  {
    if es != [] {
      var d := Apply(c, ctx, es[0]).value;
      assert PaymentsEvolve(c.books, d.books);
      RunEvolves(d, ctx, es[1..]);
    }
  }

  lemma ExecuteEvolves(net: Network, w: World, cmd: Command)
    ensures Execute(net, w, cmd).Ok? ==> PaymentsEvolve(w.books, Execute(net, w, cmd).value.books)
  {
    if Execute(net, w, cmd).Ok? {
      var ctx := ContextOf(net, w);
      var outcome := Transition(w.state, EventOf(cmd), ctx);
      hide Transition, Run;
      RunEvolves(Cursor(w.books, None), ctx, outcome.effects);
    }
  }

  /** Over any continuation of a run a decided payment stays as it was decided:
      each is released or refunded at most once, and never before it exists. */
  lemma {:induction false} DecidedOnce(net: Network, w: World, cmds: seq<Command>)
    ensures PaymentsEvolve(w.books, Play(net, w, cmds).books)
  {
    if cmds != [] {
      hide Execute, Issued;
      var v := Play(net, w, cmds[..|cmds| - 1]);
      DecidedOnce(net, w, cmds[..|cmds| - 1]);
      ExecuteEvolves(net, v, cmds[|cmds| - 1]);
    }
  }

  // ----------------------------------------------------------- two writers, one ledger

  /** On every reachable state a command can only be refused in the ordinary
      ways: every ledger key is derivable, no payment is decided twice, unknown
      or created twice, and what the projection needs was created. */
  lemma NeverUnderivable(net: Network, w: World, cmd: Command)
    requires Reachable(net, w) && Issued(w, cmd) && Execute(net, w, cmd).Err?
    ensures Ordinary(Execute(net, w, cmd).failure)
  {
    ReachableKeeps(net, w);
    StepKeeps(net, w, cmd);
  }

  /** No key was ever derived twice, and every entry under a payment's key is the
      one the coordinator would write. */
  lemma OneLedger(net: Network, w: World)
    requires Reachable(net, w)
    ensures w.books.collisions == 0
    ensures forall i, j :: 0 <= i < j < |w.books.ledger| ==> w.books.ledger[i].key != w.books.ledger[j].key
    ensures forall e <- w.books.ledger :: EntrySound(w.books, e)
  {
    ReachableKeeps(net, w);
  }

  /** So it does not matter which of the two writes first. */
  lemma WritersCommute(b: Books, mine: Entry, theirs: Entry)
    requires mine.key == theirs.key && mine.postings == theirs.postings
    ensures Balance(Post(Post(b, mine), theirs).ledger) == Balance(Post(Post(b, theirs), mine).ledger)
    ensures Post(Post(b, mine), theirs).keys == Post(Post(b, theirs), mine).keys
    ensures |Post(Post(b, mine), theirs).ledger| == |Post(b, mine).ledger|
  {
    if mine.key !in b.keys {
      BalanceSnoc(b.ledger, mine);
      BalanceSnoc(b.ledger, theirs);
    }
  }

  // ----------------------------------------------------------- timers

  lemma TimersExact(net: Network, w: World)
    requires Reachable(net, w)
    ensures w.books.timers == ExpectedTimers(w)
    ensures Terminal(w.state) ==> w.books.timers == map[]
  {
    ReachableKeeps(net, w);
    hide Reachable, Audited;
  }

  predicate InCustody(s: State) {
    s == AtHub || s == LegBooked || s == InTransit || s == AwaitingPickup || s == Claimed
  }

  /** Some timer is always armed while the parcel is in the system's custody. */
  lemma SomeTimerArmed(net: Network, w: World)
    requires Inv(net, w) && InCustody(w.state)
    ensures w.books.timers != map[]
  {
    hide Audited, StayOk, LegOk, RequestOk, BonusOk, ClaimOk, OnlyLivePending, RefsMinted;
    assert exists k :: k in ExpectedTimers(w) by {
      if w.state == AtHub || w.state == AwaitingPickup || w.state == Claimed {
        assert TimerKey(Storage, w.stay.value.id) in ExpectedTimers(w);
      } else if w.state == LegBooked {
        assert TimerKey(PickupWindow, w.leg.value.id) in ExpectedTimers(w);
      } else {
        assert TimerKey(TransitWindow, w.leg.value.id) in ExpectedTimers(w);
      }
    }
  }

  /** A parcel that only waits: at a hub, with nothing pending on it. */
  predicate OnlyStored(w: World) {
    w.state == AtHub && w.leg.None? && w.request.None? && w.claim.None?
  }

  lemma FiringAdvances(net: Network, w: World, cmd: Command)
    requires Inv(net, w) && InCustody(w.state) && Issued(w, cmd) && cmd.Fire?
    ensures Execute(net, w, cmd).Ok?
    ensures var v := Execute(net, w, cmd).value; Terminal(v.state) || (OnlyStored(v) && !OnlyStored(w))
  {
    DueTimerFires(net, w, cmd);
    FiredShape(net, w, cmd, Execute(net, w, cmd).value);
    hide Execute, StayOk, LegOk, RequestOk, BonusOk, ClaimOk, OnlyLivePending, RefsMinted, Audited;
  }

  /** What a fired timer leaves of the aggregate. */
  lemma FiredShape(net: Network, w: World, cmd: Command, v: World)
    requires cmd.Fire? && Execute(net, w, cmd) == Ok(v)
    ensures match cmd.timer.kind
      case Storage => v.state == Forfeited
      case TransitWindow => v.state == Lost
      case LegFundingWindow => w.leg.Some? && v.state == AtHub && v.leg.None? && v.request == w.request && v.claim == w.claim
      case PickupWindow => w.state == LegBooked && v.state == AtHub && v.leg.None? && v.request == w.request && v.claim == w.claim
      case ClaimFundingWindow => w.claim.Some? && v.state == AtHub && v.claim.None? && v.leg == w.leg && v.request == w.request
      case DepositResponse => w.request.Some? && v.state == AtHub && v.request.None? && v.leg == w.leg && v.claim == w.claim
  {
    hide Run, RefundPendingLegHolds, RefundPendingClaimHolds, RefundFinalizationBonus, RefundHeldClaimHolds,
      DissolveAtStorageExpiry, RefundStayBond, SlashCarrierBond, RefundLegPayment, RefundArrivalBond;
  }

  /** Once the parcel is checked in, due timers alone end the shipment: in at
      most two firings, whichever fire and in whichever order. */
  lemma TwoFiringsSuffice(net: Network, w: World, first: Command, second: Command)
    requires Reachable(net, w) && InCustody(w.state)
    requires first.Fire? && Issued(w, first)
    ensures Execute(net, w, first).Ok?
    ensures var v := Execute(net, w, first).value;
      && (!Terminal(v.state) ==> v.books.timers != map[])
      && (!Terminal(v.state) && second.Fire? && Issued(v, second) ==>
            Execute(net, v, second).Ok? && Terminal(Execute(net, v, second).value.state))
  {
    hide Inv, Reachable, Execute, Issued;
    ReachableKeeps(net, w);
    FiringAdvances(net, w, first);
    StepKeeps(net, w, first);
    var v := Execute(net, w, first).value;
    if !Terminal(v.state) {
      SomeTimerArmed(net, v);
      if second.Fire? && Issued(v, second) {
        FiringAdvances(net, v, second);
      }
    }
  }
}
