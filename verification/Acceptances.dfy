/** Two acceptances of one deposit request, which create their holds under the
    same keys. */
module Acceptances {
  import opened Economics
  import opened Shipment
  import opened StateMachine
  import opened Books
  import opened Executor
  import opened EffectRuns
  import opened Invariant
  import opened LegSteps
  import opened Race

  function LegSlot(r: LegRequest): Slot {
    (LegPayment, LegRef(r.id))
  }

  /** A committed acceptance books the leg on the hold under its key. */
  lemma AcceptBooksSlot(net: Network, w: World, cmd: Command, v: World)
    requires Inv(net, w) && Execute(net, w, cmd) == Ok(v) && EventOf(cmd).DepositAccept? && w.request.Some?
    requires Inv(net, v)
    ensures v.request.None? && OpenSlot(v.books, LegSlot(w.request.value))
  {
    hide Run, Audited, OnlyLivePending, RefsMinted, ExpectedTimers, StayOk, RequestOk, BonusOk, ClaimOk;
  }

  predicate CommitsNext(net: Network, s: Scene, i: nat, seen: Option<BonusHold>) {
    var t := Act(net, s, Finish(i, seen));
    i < |t.attempts| && t.attempts[i].fate == Committed
  }

  lemma CommittedAcceptance(net: Network, s: Scene, i: nat, seen: Option<BonusHold>)
    requires Coherent(net, s) && s.course == OnCourse && Active(s, i) && EventOf(s.attempts[i].cmd).DepositAccept?
    requires s.world.request.Some?
    requires CommitsNext(net, s, i, seen)
    ensures var t := Act(net, s, Finish(i, seen));
      && t.attempts == Settle(s, i, Committed).attempts && t.course == OnCourse && Coherent(net, t)
      && t.world.request.None? && OpenSlot(t.world.books, LegSlot(s.world.request.value))
  {
    hide Coherent, Judge, Execute, Sees, SlotsOf, Inv, OpenSlot;
    var t := Act(net, s, Finish(i, seen));
    ActKeeps(net, s, Finish(i, seen));
    assert Execute(net, s.world, s.attempts[i].cmd) == Ok(t.world);
    CoherentInv(net, s);
    CoherentInv(net, t);
    AcceptBooksSlot(net, s.world, s.attempts[i].cmd, t.world);
  }

  /** The later of two acceptances of a request cannot commit, and its
      compensation calls off the hold of the leg the first one booked. */
  lemma LoserTakesTheHold(net: Network, s: Scene, i: nat, j: nat, seen: Option<BonusHold>, again: Option<BonusHold>)
    requires Coherent(net, s) && s.course == OnCourse && Active(s, i) && Active(s, j) && i != j && s.world.request.Some?
    requires EventOf(s.attempts[i].cmd).DepositAccept? && EventOf(s.attempts[j].cmd).DepositAccept?
    requires LegSlot(s.world.request.value) in s.attempts[j].made
    requires CommitsNext(net, s, i, seen)
    ensures var t := Act(net, s, Finish(i, seen));
      && !Standing(Act(net, t, Abort(j)))
      && (s.attempts[j].made == SlotsOf(s.attempts[j].planned) && Sees(t, s.attempts[j].made, again) ==>
            !Standing(Act(net, t, Finish(j, again))))
  {
    hide Coherent, Judge, Execute, Sees, SlotsOf, Inv, OpenSlot, Standing;
    var t := Act(net, s, Finish(i, seen));
    CommittedAcceptance(net, s, i, seen);
    assert t.attempts[j] == s.attempts[j];
    LateAcceptRefused(net, t.world, EventOf(t.attempts[j].cmd), again);
    CalledOffIsLost(net, t, j, LegSlot(s.world.request.value));
    assert Act(net, t, Abort(j)) == CallOff(t, j);
  }

  lemma LateAcceptRefused(net: Network, w: World, e: Event, seen: Option<BonusHold>)
    requires e.DepositAccept? && w.request.None?
    ensures !Judge(net, w, e, seen).Accept?
  {}

  lemma CalledOffIsLost(net: Network, s: Scene, j: nat, k: Slot)
    requires Coherent(net, s) && Active(s, j) && k in s.attempts[j].made && OpenSlot(s.world.books, k)
    ensures !Standing(CallOff(s, j))
  {
    hide Coherent, OpenSlot;
    var t := CallOff(s, j);
    assert k !in t.holds || !t.holds[k];
  }

  /** And an acceptance after a compensated one books a leg on a hold that is
      already called off. */
  lemma RetryBooksADeadHold(net: Network, s: Scene, i: nat, seen: Option<BonusHold>)
    requires Coherent(net, s) && s.course == OnCourse && Active(s, i) && s.world.request.Some?
    requires EventOf(s.attempts[i].cmd).DepositAccept? && Reached(s, LegSlot(s.world.request.value))
    requires CommitsNext(net, s, i, seen)
    ensures !Standing(Act(net, s, Finish(i, seen)))
  {
    hide Coherent, Judge, Execute, Sees, SlotsOf, Inv, OpenSlot, Act;
    var t, k := Act(net, s, Finish(i, seen)), LegSlot(s.world.request.value);
    CommittedAcceptance(net, s, i, seen);
    var a :| a in s.attempts && a.fate == Compensated && k in a.made;
    KeptOthers(s.attempts, i, s.attempts[i].(fate := Committed));
    assert a in t.attempts;
    StandingExactly(net, t);
  }

  // ----------------------------------------------------------- the run in which it happens

  lemma {:induction false} RaceConcat(net: Network, s: Scene, xs: seq<Move>, ys: seq<Move>)
    ensures Interleave(net, s, xs + ys) == Interleave(net, Interleave(net, s, xs), ys)
    decreases |ys|
  {
    hide Act;
    if ys == [] {
      assert xs + ys == xs;
    } else {
      RaceConcat(net, s, xs, ys[..|ys| - 1]);
      assert (xs + ys)[..|xs + ys| - 1] == xs + ys[..|ys| - 1];
    }
  }

  lemma RaceOne(net: Network, s: Scene, m: Move)
    ensures Interleave(net, s, [m]) == Act(net, s, m)
  {
    hide Act;
    assert [m][..0] == [];
    assert Interleave(net, s, [m][..0]) == s;
  }

  function MakeMoves(i: nat, ks: seq<Slot>): seq<Move> {
    if ks == [] then [] else MakeMoves(i, ks[..|ks| - 1]) + [Make(i, ks[|ks| - 1])]
  }

  function Elements(ks: seq<Slot>): set<Slot> {
    set k | k in ks
  }

  /** The scene once an invocation has these holds in hand. */
  function Taken(s: Scene, i: nat, made: set<Slot>): Scene
    requires i < |s.attempts|
  {
    var a := s.attempts[i];
    s.(holds := map k | k in s.holds.Keys + made :: if k in s.holds then s.holds[k] else true,
       attempts := s.attempts[i := a.(made := a.made + made)])
  }

  lemma {:induction false} MakesAll(net: Network, s: Scene, i: nat, ks: seq<Slot>)
    requires Active(s, i) && s.course == OnCourse && Elements(ks) <= SlotsOf(s.attempts[i].planned)
    ensures Interleave(net, s, MakeMoves(i, ks)) == Taken(s, i, Elements(ks))
  {
    hide SlotsOf, Act;
    if ks == [] {
      NothingTaken(s, i);
      assert Elements([]) == {};
    } else {
      var rest, k := ks[..|ks| - 1], ks[|ks| - 1];
      assert Elements(ks) == Elements(rest) + {k} by { assert ks == rest + [k]; }
      MakesAll(net, s, i, rest);
      RaceConcat(net, s, MakeMoves(i, rest), [Make(i, k)]);
      RaceOne(net, Taken(s, i, Elements(rest)), Make(i, k));
      TakesOneMore(net, s, i, Elements(rest), k);
    }
  }

  lemma NothingTaken(s: Scene, i: nat)
    requires i < |s.attempts|
    ensures Taken(s, i, {}) == s
  {
    var t := Taken(s, i, {});
    assert t.holds == s.holds;
    assert s.attempts[i].made + {} == s.attempts[i].made;
    assert t.attempts == s.attempts;
  }

  lemma TakesOneMore(net: Network, s: Scene, i: nat, made: set<Slot>, k: Slot)
    requires Active(s, i) && s.course == OnCourse && k in SlotsOf(s.attempts[i].planned)
    ensures Act(net, Taken(s, i, made), Make(i, k)) == Taken(s, i, made + {k})
  {
    hide SlotsOf;
    var t, u := Act(net, Taken(s, i, made), Make(i, k)), Taken(s, i, made + {k});
    assert t.holds == u.holds;
    assert t.attempts[i].made == u.attempts[i].made;
    assert t.attempts == u.attempts;
  }

  /** A deposit request that could be accepted right now. */
  predicate Acceptable(w: World, e: Event) {
    && w.state == AtHub && w.request.Some? && w.leg.None? && w.bonus.None? && w.stay.Some?
    && e.DepositAccept? && e.arrivalWallet && e.now <= w.request.value.responseDeadline
    && PricingConsistent(w.request.value.pricing)
    && w.request.value.carrier != w.sender && w.request.value.toUser != w.sender
  }

  function BonusSlot(e: Event): Slot
    requires e.DepositAccept?
  {
    (FinalizationBonus, StayRef(e.arrivalStay))
  }

  function AcceptSlots(r: LegRequest, e: Event): seq<Slot>
    requires e.DepositAccept?
  {
    [LegSlot(r), (CustodyBond, LegRef(r.id)), (CustodyBond, StayRef(e.arrivalStay))]
    + (if r.hubBonus > 0 then [BonusSlot(e)] else [])
  }

  lemma AcceptanceExecutes(net: Network, w: World, cmd: Command)
    requires Inv(net, w) && cmd.Handle? && Issued(w, cmd) && Acceptable(w, EventOf(cmd))
    requires MintedBy(EventOf(cmd)) * w.minted == {}
    ensures Execute(net, w, cmd).Ok?
  {
    var e, ctx, r := EventOf(cmd), ContextOf(net, w), w.request.value;
    DepositAcceptKeeps(net, w, cmd);
    AcceptEffects(w.state, e, ctx);
    if StayRef(e.arrivalStay) in w.minted { NotMinted(MintedBy(e), w.minted, StayRef(e.arrivalStay)); }
    AcceptRefsFree(net, w, r, e.arrivalStay);
    InvParts(net, w);
    hide Inv, Run, CreationsFor, AcceptTail, Transition;
    var f := AcceptBooks(Cursor(w.books, None), ctx, r, e.arrivalStay, e.fundingDeadline);
    AcceptIs(net, w, e);
  }

  lemma InvParts(net: Network, w: World)
    requires Inv(net, w)
    ensures Audited(w.books) && 0 < w.bond
  {}

  lemma AcceptIs(net: Network, w: World, e: Event)
    requires Acceptable(w, e)
    ensures Judge(net, w, e, None).Accept?
    ensures Transition(w.state, e, ContextOf(net, w)) == Judge(net, w, e, None)
    ensures Judge(net, w, e, None) ==
      Accept(AtHub, CreationsFor(ContextOf(net, w), w.request.value, e.arrivalStay)
                    + AcceptTail(w.request.value, e.fundingDeadline))
  {}

  lemma AcceptSlotsAre(net: Network, w: World, e: Event)
    requires Acceptable(w, e)
    ensures SlotsOf(Judge(net, w, e, None).effects) == Elements(AcceptSlots(w.request.value, e))
  {
    AcceptIs(net, w, e);
    var r, ctx := w.request.value, ContextOf(net, w);
    var es := CreationsFor(ctx, r, e.arrivalStay) + AcceptTail(r, e.fundingDeadline);
    assert es[0].CreatePayment? && es[0] in es && es[1] in es && es[2] in es && es[3] in es;
  }

  /** Two acceptances have begun, the first one has committed. */
  ghost predicate OneWon(net: Network, s: Scene, t: Scene, c: Command, d: Command, planned: seq<Effect>) {
    && t.course == OnCourse && Execute(net, s.world, c) == Ok(t.world) && |t.attempts| == |s.attempts| + 2
    && t.attempts[|s.attempts| + 1] == Attempt(d, 0, s.world, None, planned, {}, Running)
  }

  ghost predicate TwoMayAccept(net: Network, s: Scene, c: Command, d: Command) {
    && Coherent(net, s) && s.course == OnCourse && BonusRows(s, {}) == {}
    && c.Handle? && d.Handle? && Issued(s.world, c) && Issued(s.world, d)
    && Acceptable(s.world, EventOf(c)) && Acceptable(s.world, EventOf(d))
    && Unclaimed(s, EventOf(c)) && Unclaimed(s, EventOf(d)) && MintedBy(EventOf(c)) * MintedBy(EventOf(d)) == {}
  }

  lemma Begun(net: Network, s: Scene, cmd: Command)
    requires Issued(s.world, cmd) && Unclaimed(s, EventOf(cmd)) && Judge(net, s.world, EventOf(cmd), None).Accept?
    requires s.course == OnCourse && BonusRows(s, {}) == {}
    ensures var t := Act(net, s, Begin(cmd, None));
      && t == s.(attempts := s.attempts + [Began(net, s, cmd, None)])
      && BonusRows(t, {}) == {}
  {
    hide Judge, Issued, Unclaimed;
    var t := Act(net, s, Begin(cmd, None));
    assert BonusRows(t, {}) == BonusRows(s, {});
  }

  lemma FinishCommits(net: Network, s: Scene, i: nat)
    requires Active(s, i) && s.course == OnCourse && BonusRows(s, s.attempts[i].made) == {} && s.world.bonus == None
    requires var a := s.attempts[i];
      && Judge(net, s.world, EventOf(a.cmd), None).Accept?
      && a.planned == Judge(net, s.world, EventOf(a.cmd), None).effects
      && a.made == SlotsOf(a.planned) && Execute(net, s.world, a.cmd).Ok?
      && a.from.state == s.world.state && (a.cmd.Fire? ==> RowThere(s, a))
    ensures Act(net, s, Finish(i, None)) ==
            Landed(s, i, Execute(net, s.world, s.attempts[i].cmd).value)
  {
    hide Judge, Execute, SlotsOf;
  }

  lemma FirstWins(net: Network, s: Scene, c: Command, d: Command) returns (moves: seq<Move>)
    requires TwoMayAccept(net, s, c, d)
    ensures Judge(net, s.world, EventOf(d), None).Accept?
    ensures OneWon(net, s, Interleave(net, s, moves), c, d, Judge(net, s.world, EventOf(d), None).effects)
  {
    hide Interleave, Judge, SlotsOf, Coherent, Act, Execute, Inv, Issued, Acceptable, Unclaimed, Elements, MintedBy, AcceptSlots;
    var i, w, e := |s.attempts|, s.world, EventOf(c);
    AcceptanceFacts(net, w, c);
    AcceptanceFacts(net, w, d);
    CoherentInv(net, s);
    UnclaimedAfter(s, c, d, Began(net, s, c, None));
    AcceptanceExecutes(net, w, c) by { NewIds(s, e); }
    Begun(net, s, c);
    var s1 := Act(net, s, Begin(c, None));
    Begun(net, s1, d);
    var s2 := Act(net, s1, Begin(d, None));
    var ks := AcceptSlots(w.request.value, e);
    AcceptSlotsAre(net, w, e);
    MakesAll(net, s2, i, ks);
    var s3 := Taken(s2, i, Elements(ks));
    OnlyOwnTaken(s2, i, Elements(ks));
    FinishCommits(net, s3, i);
    RaceOne(net, s, Begin(c, None));
    RaceOne(net, s1, Begin(d, None));
    RaceOne(net, s3, Finish(i, None));
    moves := [Begin(c, None)] + [Begin(d, None)] + MakeMoves(i, ks) + [Finish(i, None)];
    RaceConcat(net, s, [Begin(c, None)], [Begin(d, None)]);
    RaceConcat(net, s, [Begin(c, None)] + [Begin(d, None)], MakeMoves(i, ks));
    RaceConcat(net, s, [Begin(c, None)] + [Begin(d, None)] + MakeMoves(i, ks), [Finish(i, None)]);
  }

  lemma OnlyOwnTaken(s: Scene, i: nat, made: set<Slot>)
    requires i < |s.attempts| && BonusRows(s, {}) == {} && s.attempts[i].made == {}
    ensures BonusRows(Taken(s, i, made), made) == {} && Taken(s, i, made).attempts[i].made == made
  {
    assert forall k :: k in BonusRows(Taken(s, i, made), made) ==> k in BonusRows(s, {});
  }

  lemma NewIds(s: Scene, e: Event)
    requires Unclaimed(s, e)
    ensures MintedBy(e) * s.world.minted == {}
  {}

  lemma UnclaimedAfter(s: Scene, c: Command, d: Command, a: Attempt)
    requires Unclaimed(s, EventOf(d)) && MintedBy(EventOf(c)) * MintedBy(EventOf(d)) == {} && a.cmd == c
    ensures Unclaimed(s.(attempts := s.attempts + [a]), EventOf(d))
  {
    hide MintedBy;
  }

  lemma AcceptanceFacts(net: Network, w: World, cmd: Command)
    requires Acceptable(w, EventOf(cmd))
    ensures w.bonus == None && w.request.Some? && EventOf(cmd).DepositAccept?
    ensures Judge(net, w, EventOf(cmd), None).Accept?
  {
    AcceptIs(net, w, EventOf(cmd));
  }

  /** Such a race exists wherever a request waits: two acceptances of it begin,
      one gets its holds and commits, the other finds the leg's payment under its
      key, backs out, and the booked leg's payment is gone. */
  lemma TwoAcceptancesClash(net: Network, s: Scene, c: Command, d: Command) returns (moves: seq<Move>)
    requires TwoMayAccept(net, s, c, d)
    ensures !Standing(Interleave(net, s, moves))
  {
    hide Interleave, Judge, SlotsOf, Coherent, Act, Standing, Execute, Inv, Issued, Acceptable, Unclaimed, Elements;
    AcceptanceFacts(net, s.world, c);
    AcceptanceFacts(net, s.world, d);
    var j, k := |s.attempts| + 1, LegSlot(s.world.request.value);
    var first := FirstWins(net, s, c, d);
    var t := Interleave(net, s, first);
    RacesKeep(net, s, first);
    CoherentInv(net, s);
    CoherentInv(net, t);
    AcceptBooksSlot(net, s.world, c, t.world);
    AcceptSlotsAre(net, s.world, EventOf(d));
    LegSlotIsOne(s.world.request.value, EventOf(d));
    MakesAll(net, t, j, [k]);
    var u := Taken(t, j, Elements([k]));
    RacesKeep(net, t, MakeMoves(j, [k]));
    CalledOffIsLost(net, u, j, k);
    AbortCallsOff(net, u, j);
    RaceOne(net, u, Abort(j));
    moves := first + MakeMoves(j, [k]) + [Abort(j)];
    RaceConcat(net, s, first, MakeMoves(j, [k]));
    RaceConcat(net, s, first + MakeMoves(j, [k]), [Abort(j)]);
  }

  lemma LegSlotIsOne(r: LegRequest, e: Event)
    requires e.DepositAccept?
    ensures LegSlot(r) in Elements([LegSlot(r)]) && Elements([LegSlot(r)]) <= Elements(AcceptSlots(r, e))
  {
    assert AcceptSlots(r, e)[0] == LegSlot(r);
  }

  lemma AbortCallsOff(net: Network, s: Scene, j: nat)
    requires Active(s, j) && s.course == OnCourse
    ensures Act(net, s, Abort(j)) == CallOff(s, j)
  {}
}
