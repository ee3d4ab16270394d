/** Everything a race can do to a shipment, and who is to blame. */
module Hazards {
  import opened Economics
  import opened Shipment
  import opened StateMachine
  import opened Books
  import opened Executor
  import opened Invariant
  import opened Runs
  import opened Guarantees
  import opened Snapshots
  import opened Race
  import opened Acceptances
  import opened Misreads
  import opened Sweeps
  import Tables

  /** An acceptance that created or found holds and has not committed. */
  predicate Spoils(a: Attempt) {
    EventOf(a.cmd).DepositAccept? && a.made != {} && a.fate != Committed
  }

  // ----------------------------------------------------------- decided bonus holds do not linger while one is needed

  /** States in which events heed a bonus hold. */
  predicate OnTheWay(w: World) {
    w.leg.Some? || w.state == AwaitingPickup
  }

  ghost predicate NoLinger(s: Scene) {
    OnTheWay(s.world) ==> forall k <- BonusRows(s, {}) :: !Decided(s.world.books, k)
  }

  lemma BonusProjected(net: Network, w: World, cmd: Command, v: World)
    requires Execute(net, w, cmd) == Ok(v)
    ensures var e := EventOf(cmd);
      && Transition(w.state, e, ContextOf(net, w)).Accept? && Tables.Moves(w.state, e, ContextOf(net, w), v.state)
      && v.state == Transition(w.state, e, ContextOf(net, w)).next && Wanted(w, e) <= v.books.idem.Keys
      && v.bonus == ProjectRows(net, w, e, v.books.idem).bonus && v.leg == ProjectRows(net, w, e, v.books.idem).leg
  {
    hide Run, Transition, Tables.Moves;
    Tables.MovesAsAccepted(w.state, EventOf(cmd), ContextOf(net, w));
  }

  /** A shipment on its way keeps its bonus hold, except that an acceptance gives it
      one. */
  lemma BonusStays(net: Network, w: World, cmd: Command, v: World)
    requires Inv(net, w) && Execute(net, w, cmd) == Ok(v) && OnTheWay(v) && !EventOf(cmd).DepositAccept?
    ensures OnTheWay(w) && v.bonus == w.bonus
  {
    hide Execute, Transition, Inv, ProjectRows, Tables.Moves, OnTheWay, Wanted, Shape;
    var e := EventOf(cmd);
    ShapeOf(net, w);
    BonusProjected(net, w, cmd, v);
    BonusStep(net, w, e, v);
  }

  lemma BonusStep(net: Network, w: World, e: Event, v: World)
    requires Shape(w) && OnTheWay(v) && !e.DepositAccept?
    requires Transition(w.state, e, ContextOf(net, w)).Accept? && Wanted(w, e) <= v.books.idem.Keys
    requires Tables.Moves(w.state, e, ContextOf(net, w), v.state)
    requires v.bonus == ProjectRows(net, w, e, v.books.idem).bonus && v.leg == ProjectRows(net, w, e, v.books.idem).leg
    ensures OnTheWay(w) && v.bonus == w.bonus
  {
    hide Transition;
  }

  lemma AcceptedBonus(net: Network, w: World, cmd: Command, v: World)
    requires Execute(net, w, cmd) == Ok(v) && EventOf(cmd).DepositAccept?
    ensures w.request.Some? && w.leg.None? && w.state == AtHub
    ensures w.request.value.hubBonus > 0 ==>
      && BonusSlot(EventOf(cmd)) in v.books.idem && v.bonus.Some?
      && v.bonus.value.paymentId == v.books.idem[BonusSlot(EventOf(cmd))]
  {
    BonusProjected(net, w, cmd, v);
    hide Execute, Transition;
  }

  /** Acceptances see no bonus hold. */
  lemma AcceptSeesNone(net: Network, w: World, e: Event, seen: Option<BonusHold>)
    requires e.DepositAccept? && Judge(net, w, e, seen).Accept?
    ensures seen.None? && w.request.Some?
    ensures forall k <- SlotsOf(Judge(net, w, e, seen).effects) ::
      k.0 == FinalizationBonus ==> k == BonusSlot(e) && w.request.value.hubBonus > 0
  {}

  lemma OpenHold(net: Network, w: World, k: Slot)
    requires Inv(net, w) && IdemExact(w.books) && w.bonus.Some?
    requires k in w.books.idem && w.bonus.value.paymentId == w.books.idem[k]
    ensures !Decided(w.books, k)
  {
    hide Inv;
    BonusIsOpen(net, w);
  }

  lemma CommitLeavesNoLinger(net: Network, s: Scene, i: nat, seen: Option<BonusHold>, v: World)
    requires Coherent(net, s) && NoLinger(s) && Active(s, i) && Sees(s, s.attempts[i].made, seen)
    requires s.attempts[i].made == SlotsOf(s.attempts[i].planned)
    requires var again := Judge(net, s.world, EventOf(s.attempts[i].cmd), seen);
      && again.Accept? && again.effects == s.attempts[i].planned
      && again == Judge(net, s.world, EventOf(s.attempts[i].cmd), s.world.bonus)
    requires Execute(net, s.world, s.attempts[i].cmd) == Ok(v)
    ensures NoLinger(Landed(s, i, v))
  {
    var t, a := Landed(s, i, v), s.attempts[i];
    hide Judge, Execute, SlotsOf, Inv, Coherent, OnTheWay, BonusRows;
    CommitKeeps(net, s, i, v);
    CoherentInv(net, s);
    CoherentInv(net, t);
    if OnTheWay(v) {
      forall k | k in BonusRows(t, {}) ensures !Decided(v.books, k) {
        RowsOfCommit(s, i, v, k);
        if EventOf(a.cmd).DepositAccept? {
          RowAfterAccept(net, s, i, seen, v, t, k);
        } else {
          RowAfterOther(net, s, i, v, t, k);
        }
      }
    }
  }

  lemma RowsOfCommit(s: Scene, i: nat, v: World, k: Slot)
    requires i < |s.attempts| && k in BonusRows(Landed(s, i, v), {})
    ensures k in BonusRows(s, {}) && k.0 == FinalizationBonus && !k.1.ClaimRef?
    ensures k !in s.attempts[i].made ==> k in BonusRows(s, s.attempts[i].made)
  {}

  lemma RowAfterAccept(net: Network, s: Scene, i: nat, seen: Option<BonusHold>, v: World, t: Scene, k: Slot)
    requires Active(s, i) && Sees(s, s.attempts[i].made, seen) && s.attempts[i].made == SlotsOf(s.attempts[i].planned)
    requires EventOf(s.attempts[i].cmd).DepositAccept? && k.0 == FinalizationBonus
    requires var again := Judge(net, s.world, EventOf(s.attempts[i].cmd), seen);
      again.Accept? && again.effects == s.attempts[i].planned
    requires Execute(net, s.world, s.attempts[i].cmd) == Ok(v) && Inv(net, v) && IdemExact(v.books)
    requires k !in s.attempts[i].made ==> k in BonusRows(s, s.attempts[i].made)
    ensures !Decided(v.books, k)
  {
    hide Judge, Execute, SlotsOf, Inv, BonusRows, IdemExact;
    AcceptSeesNone(net, s.world, EventOf(s.attempts[i].cmd), seen);
    AcceptedBonus(net, s.world, s.attempts[i].cmd, v);
    assert k in s.attempts[i].made;
    OpenHold(net, v, k);
  }

  lemma OnlyAcceptancesAsk(s: Scene, a: Attempt, k: Slot)
    requires AttemptOk(s, a) && k.0 == FinalizationBonus && !k.1.ClaimRef? && !EventOf(a.cmd).DepositAccept?
    ensures k !in SlotsOf(a.planned)
  {
    hide SlotsOf;
  }

  lemma RowAfterOther(net: Network, s: Scene, i: nat, v: World, t: Scene, k: Slot)
    requires Coherent(net, s) && NoLinger(s) && Active(s, i) && s.attempts[i].made == SlotsOf(s.attempts[i].planned)
    requires Coherent(net, t) && t == Landed(s, i, v) && OnTheWay(v)
    requires !EventOf(s.attempts[i].cmd).DepositAccept? && k in BonusRows(s, {}) && k.0 == FinalizationBonus && !k.1.ClaimRef?
    requires var own := Judge(net, s.world, EventOf(s.attempts[i].cmd), s.world.bonus);
      own.Accept? && own.effects == s.attempts[i].planned
    requires Execute(net, s.world, s.attempts[i].cmd) == Ok(v)
    ensures !Decided(v.books, k)
  {
    hide Judge, Execute, SlotsOf, Inv, BonusRows, OnTheWay, Reachable, HoldsExact, RefDisjoint, SnapshotOk;
    var w, a := s.world, s.attempts[i];
    CoherentInv(net, s);
    CoherentInv(net, t);
    BonusStays(net, w, a.cmd, v);
    CommitRegisters(net, w, a.cmd, v);
    if k in v.books.idem {
      OnlyAcceptancesAsk(s, a, k);
      assert k in w.books.idem;
      if Decided(v.books, k) {
        OpenIsLive(net, w, k);
        OpenHold(net, v, k);
      }
    }
  }

  lemma ActLeavesNoLinger(net: Network, s: Scene, m: Move)
    requires Coherent(net, s) && NoLinger(s)
    ensures NoLinger(Act(net, s, m))
  {
    hide Coherent, Judge, Execute, SlotsOf, Sees, OnTheWay, Issued, Unclaimed, SameDeed;
    var t := Act(net, s, m);
    if t.world == s.world {
      RowsGrowUndecided(net, s, m);
    } else {
      var a := s.attempts[m.i];
      SameDeedJudges(net, s.world, EventOf(a.cmd), m.seen);
      CommitLeavesNoLinger(net, s, m.i, m.seen, t.world);
    }
  }

  lemma SameDeedJudges(net: Network, w: World, e: Event, seen: Option<BonusHold>)
    requires SameDeed(net, w, e, seen)
    ensures Judge(net, w, e, seen) == Judge(net, w, e, w.bonus)
  {}

  /** Without a commit, a row that comes to stand is a new one. */
  lemma RowsGrowUndecided(net: Network, s: Scene, m: Move)
    requires Coherent(net, s) && NoLinger(s) && Act(net, s, m).world == s.world
    ensures NoLinger(Act(net, s, m))
  {
    hide Judge, Execute, SlotsOf, Sees, OnTheWay, Issued, Unclaimed, SameDeed, Reachable, AttemptOk, RefDisjoint,
      SnapshotOk, Made, Reached;
    var t := Act(net, s, m);
    forall k | k in BonusRows(t, {}) && k !in BonusRows(s, {}) ensures !Decided(s.world.books, k) {
      assert k !in s.holds;
      assert s.world.books.idem.Keys <= s.holds.Keys;
    }
  }

  // ----------------------------------------------------------- why a scene is off course

  /** An invocation met another bonus hold than the shipment's, and heeded it. */
  ghost predicate Misreading(net: Network, s: Scene, a: Attempt) {
    && a.fate == Running && Heeds(s.world, EventOf(a.cmd))
    && exists seen ::
         Sees(s, a.made, seen) && seen != s.world.bonus && Judge(net, s.world, EventOf(a.cmd), seen).Accept?
  }

  /** A sweep found its timer's row there, but not what it saw. */
  ghost predicate Drops(s: Scene, a: Attempt) {
    && a.cmd.Fire? && a.fate == Compensated && RowThere(s, a)
    && exists seen :: Sees(s, {}, seen) && Changed(s, a, seen)
  }

  /** A sweep found everything as it saw it, but its timer armed anew. */
  ghost predicate Leaves(s: Scene, a: Attempt) {
    && a.cmd.Fire? && a.fate == Running && Armed(s.world, a.cmd) && !RowThere(s, a)
    && exists seen :: Sees(s, a.made, seen) && !Changed(s, a, seen)
  }

  ghost predicate Explained(net: Network, s: Scene) {
    && (s.course == Misled ==> exists a <- s.attempts :: Misreading(net, s, a))
    && (s.course == TimerDropped ==> exists a <- s.attempts :: Drops(s, a))
    && (s.course == TimerLeft ==> exists a <- s.attempts :: Leaves(s, a))
  }

  lemma MisledExplained(net: Network, s: Scene, i: nat, seen: Option<BonusHold>)
    requires Coherent(net, s) && s.course == OnCourse && Act(net, s, Finish(i, seen)).course == Misled
    ensures Explained(net, Act(net, s, Finish(i, seen)))
  {
    hide Coherent, Judge, Execute, SlotsOf, Run, Heeds, SameDeed, BonusRows;
    var t := Act(net, s, Finish(i, seen));
    assert t == s.(course := Misled) && Active(s, i);
    MarkedSees(s, s.attempts[i].made, seen, Misled);
    MisledExactly(net, s, i, seen);
    assert Misreading(net, t, t.attempts[i]);
  }

  lemma MarkedSees(s: Scene, own: set<Slot>, seen: Option<BonusHold>, course: Course)
    requires Sees(s, own, seen)
    ensures Sees(s.(course := course), own, seen)
  {
    var t := s.(course := course);
    assert BonusRows(t, own) == BonusRows(s, own);
    if seen.Some? {
      var k :| k in BonusRows(s, own) && RowIs(s, k, seen.value);
      assert Asked(s, k, seen.value.amount) ==> Asked(t, k, seen.value.amount);
      assert RowIs(t, k, seen.value);
    }
  }

  lemma SweepsMakeNothing(net: Network, s: Scene, i: nat)
    requires Coherent(net, s) && i < |s.attempts| && s.attempts[i].cmd.Fire?
    ensures s.attempts[i].made == {}
  {
    hide Reachable, SlotsOf, SnapshotOk, HoldsExact, Mentions;
    var a := s.attempts[i];
    assert AttemptOk(s, a);
    forall k: Slot ensures !OwnSlot(EventOf(a.cmd), k) {}
    assert forall k :: k in a.made ==> OwnSlot(EventOf(a.cmd), k);
    assert a.made <= {};
  }

  /** Backing out of nothing leaves the view alone. */
  lemma BackOutSees(s: Scene, i: nat, seen: Option<BonusHold>)
    requires Active(s, i) && s.attempts[i].made == {} && Sees(s, {}, seen)
    ensures Sees(BackOut(s, i), {}, seen)
  {
    var t := BackOut(s, i);
    assert BonusRows(t, {}) == BonusRows(s, {});
    if seen.Some? {
      var k :| k in BonusRows(s, {}) && RowIs(s, k, seen.value);
      if k !in s.world.books.idem {
        var j: nat :| j < |s.attempts| && AskedBy(s.attempts[j], k, seen.value.amount);
        assert AskedBy(t.attempts[j], k, seen.value.amount);
      }
      assert RowIs(t, k, seen.value);
    }
  }

  lemma DropExplained(net: Network, s: Scene, i: nat, seen: Option<BonusHold>)
    requires Coherent(net, s) && s.course == OnCourse && Act(net, s, Finish(i, seen)).course == TimerDropped
    ensures Explained(net, Act(net, s, Finish(i, seen)))
  {
    hide Coherent, Judge, Execute, SlotsOf, Run, SameDeed, BonusRows, Dissolves, Sees;
    assert RowThere(s, s.attempts[i]);
    var t := Act(net, s, Finish(i, seen));
    SweepsMakeNothing(net, s, i);
    DroppedExactly(net, s, i, seen);
    BackOutSees(s, i, seen);
    assert t == BackOut(s, i);
    assert Drops(t, t.attempts[i]);
  }

  lemma LeftExplained(net: Network, s: Scene, i: nat, seen: Option<BonusHold>)
    requires Coherent(net, s) && s.course == OnCourse && Act(net, s, Finish(i, seen)).course == TimerLeft
    ensures Explained(net, Act(net, s, Finish(i, seen)))
  {
    hide Coherent, Judge, Execute, SlotsOf, Run, SameDeed, BonusRows, Dissolves, Sees, Issued;
    var t, a := Act(net, s, Finish(i, seen)), s.attempts[i];
    assert Active(s, i) && a.cmd.Fire? && !RowThere(s, a);
    LeftIsDue(net, s, i, seen);
    LeftExactly(net, s, i, seen);
    MarkedSees(s, a.made, seen, TimerLeft);
    assert t == s.(course := TimerLeft);
    assert Leaves(t, t.attempts[i]);
  }

  /** A sweep that would commit finds its timer armed. */
  lemma LeftIsDue(net: Network, s: Scene, i: nat, seen: Option<BonusHold>)
    requires Coherent(net, s) && Active(s, i) && s.attempts[i].cmd.Fire?
    requires var again := Judge(net, s.world, EventOf(s.attempts[i].cmd), seen);
      again.Accept? && again.effects == s.attempts[i].planned
    ensures Armed(s.world, s.attempts[i].cmd)
  {
    hide Reachable, Judge, Mentions, SlotsOf, OwnSlot, Inv, SnapshotOk, HoldsExact, RefDisjoint, IdemExact;
    assert AttemptOk(s, s.attempts[i]);
    ReachableKeeps(net, s.world);
    StillDue(net, s.world, s.attempts[i].cmd, seen);
  }

  lemma ActExplained(net: Network, s: Scene, m: Move)
    requires Coherent(net, s) && Explained(net, s)
    ensures Explained(net, Act(net, s, m))
  {
    hide Coherent, Judge, Sees, Execute, SlotsOf, Issued, Unclaimed, SameDeed, Misreading, Drops, Leaves;
    var t := Act(net, s, m);
    if s.course == OnCourse && t.course == Misled { MisledExplained(net, s, m.i, m.seen); }
    if s.course == OnCourse && t.course == TimerDropped { DropExplained(net, s, m.i, m.seen); }
    if s.course == OnCourse && t.course == TimerLeft { LeftExplained(net, s, m.i, m.seen); }
  }

  lemma {:induction false} RaceExplained(net: Network, x: Birth, moves: seq<Move>)
    requires BornAs(net, x).Ok?
    ensures var s := Interleave(net, Opening(BornAs(net, x).value), moves); Explained(net, s) && NoLinger(s)
  {
    hide Act, BornAs;
    if moves != [] {
      hide Explained, NoLinger;
      var s := Interleave(net, Opening(BornAs(net, x).value), moves[..|moves| - 1]);
      RaceExplained(net, x, moves[..|moves| - 1]);
      RaceKeeps(net, x, moves[..|moves| - 1]);
      ActExplained(net, s, moves[|moves| - 1]);
      ActLeavesNoLinger(net, s, moves[|moves| - 1]);
    }
  }

  /** What is heeded is heeded on the way. */
  lemma HeededOnTheWay(net: Network, w: World, e: Event, seen: Option<BonusHold>)
    requires Heeds(w, e) && Judge(net, w, e, seen).Accept?
    ensures OnTheWay(w)
  {
    hide RefundPendingLegHolds, RefundFinalizationBonus, RefundHeldClaimHolds, RefundPendingClaimHolds, RefundStayBond,
      RefundCarrierBond, SlashCarrierBond, RefundLegPayment, RefundArrivalBond, DissolveAtStorageExpiry;
  }

  lemma StrayIsSpoil(net: Network, s: Scene, own: set<Slot>)
    requires Coherent(net, s) && Stray(s, own) && OnTheWay(s.world) && NoLinger(s)
    ensures exists b <- s.attempts :: Spoils(b)
  {
    hide Reachable, SlotsOf, SnapshotOk, Mentions, Issued, RefDisjoint, OnTheWay;
    var k :| k in BonusRows(s, own) && !OpenSlot(s.world.books, k);
    assert k in BonusRows(s, {});
    assert Made(s, k);
    var b :| b in s.attempts && k in b.made;
    assert AttemptOk(s, b) && OwnSlot(EventOf(b.cmd), k);
    assert k !in s.world.books.idem;
    assert Spoils(b);
  }

  lemma MisreadingIsSpoilt(net: Network, s: Scene, a: Attempt)
    requires Coherent(net, s) && a in s.attempts && Misreading(net, s, a) && NoLinger(s)
    ensures exists b <- s.attempts :: Spoils(b)
  {
    hide Coherent, Inv, BonusRows, Judge, Heeds, OnTheWay, NoLinger, Sees, Stray, Spoils;
    var i: nat :| i < |s.attempts| && s.attempts[i] == a;
    assert Viewer(s, a.made);
    var seen :| Sees(s, a.made, seen) && seen != s.world.bonus && Judge(net, s.world, EventOf(a.cmd), seen).Accept?;
    HeededOnTheWay(net, s.world, EventOf(a.cmd), seen);
    if !Stray(s, a.made) { ClearView(net, s, a.made, seen); }
    StrayIsSpoil(net, s, a.made);
  }

  lemma LossSource(net: Network, s: Scene)
    requires Coherent(net, s)
    ensures Reachable(net, s.world)
    ensures !Standing(s) ==> exists a <- s.attempts :: Spoils(a)
  {
    hide Reachable, AttemptOk, RefDisjoint, HoldsExact, SnapshotOk;
    if !Standing(s) {
      var k :| OpenSlot(s.world.books, k) && !(k in s.holds && s.holds[k]);
      var a := OnlyTheAcceptedLegLoses(net, s, k);
      assert Spoils(a);
    }
  }

  /** Every race from a creation, up to the point where it leaves its course if it
      does. The committed shipment is one that a serial run of commands leads to, so
      everything proved of runs holds of it. It loses a hold, and an invocation goes
      by a foreign bonus hold, only if a deposit acceptance with holds in hand has
      not committed; an armed timer is dropped only by a sweep that came for its row
      and whose event would now dissolve something else than at its snapshot, or that
      finds another state; and a sweep ends the shipment with a timer still armed
      only if that timer was disarmed and armed again in between. */
  lemma OnlyAcceptancesSpoil(net: Network, x: Birth, moves: seq<Move>)
    requires BornAs(net, x).Ok?
    ensures var s := Interleave(net, Opening(BornAs(net, x).value), moves);
      && Reachable(net, s.world)
      && (!Standing(s) || s.course == Misled ==> exists a <- s.attempts :: Spoils(a))
      && (s.course == Misled ==> exists a <- s.attempts :: Misreading(net, s, a))
      && (s.course == TimerDropped ==> exists a <- s.attempts :: Drops(s, a))
      && (s.course == TimerLeft ==> exists a <- s.attempts :: Leaves(s, a))
  {
    hide Interleave, BornAs, Coherent, Spoils, Reachable, Misreading, Drops, Leaves, NoLinger;
    var s := Interleave(net, Opening(BornAs(net, x).value), moves);
    RaceKeeps(net, x, moves);
    RaceExplained(net, x, moves);
    LossSource(net, s);
    if s.course == Misled {
      var a :| a in s.attempts && Misreading(net, s, a);
      MisreadingIsSpoilt(net, s, a);
    }
  }
}
