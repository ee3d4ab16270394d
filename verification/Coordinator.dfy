/** The non-custodial escrow coordinator, await by await. Before every await the
    process may die, and while it waits the users' wallets move on their own;
    every contract here holds wherever a call stops. */
module Coordinator {
  import opened Economics
  import opened Vault
  import Books
  import Shipment

  datatype Outcome = Done | Nothing | Crashed | InvalidState | IdemConflict | NotFound | WalletFailed

  const EXPIRY_GRACE: Time := 5

  class PreimageCoordinator {
    var rows: seq<Row>
    var keys: set<Key>
    var ledger: seq<Entry>
    var wallets: seq<Invoice>
    var revealed: set<nat>
    var decided: map<nat, Verb>
    var intents: set<nat>
    /** How many awaits this process still lives to see. */
    var lifetime: nat

    constructor ()
      ensures Valid() && rows == []
    {
      rows, keys, ledger, wallets, revealed := [], {}, [], [], {};
      decided, intents, lifetime := map[], {}, 0;
    }

    function Stored(): Vault
      reads this
    {
      Vault(rows, keys, ledger, wallets, revealed, decided, intents)
    }

    ghost predicate Valid()
      reads this
    {
      Sound(Stored()) && Decisive(Stored())
    }

    /** A new process takes over what the old one left. */
    method Restart(lifetime: nat)
      requires Valid()
      modifies this
      ensures Valid() && Stored() == old(Stored())
    {
      this.lifetime := lifetime;
    }

    /** An await: the process may end here, and the wallets may have moved. */
    method Await() returns (alive: bool)
      requires Valid()
      modifies this`lifetime, this`wallets
      ensures Valid() && Drifted(old(wallets), wallets, revealed)
      ensures Onward(old(Stored()), Stored())
    {
      assert Drifted(wallets, wallets, revealed);
      var moved :| Drifted(wallets, moved, revealed);
      DriftKeeps(Stored(), moved);
      wallets := moved;
      alive := lifetime > 0;
      if alive { lifetime := lifetime - 1; }
    }
  
    // --------------------------------------------------------- one write at a time

    /** Post one recognition, in its own transaction. */
    method Record(p: nat, how: Books.Recognition) returns (alive: bool)
      requires Valid() && p < |rows| && (rows[p].state == Created || rows[p].state == Held)
      requires how == Books.Held ==> wallets[p] != Absent && wallets[p] != Open
      requires how != Books.Held ==> Has(Stored(), p, Books.Held)
      requires how == Books.Settled ==> p in decided && decided[p] == Verb.Release
      requires how == Books.GivenBack ==> (p in decided && decided[p] == Verb.Refund) || Dead(wallets[p])
      modifies this`keys, this`ledger, this`lifetime, this`wallets
      ensures Valid() && Onward(old(Stored()), Stored()) && Drifted(old(wallets), wallets, revealed)
      ensures keys == if alive then old(keys) + {Key(p, how)} else old(keys)
    {
      alive := Await();
      if alive {
        ghost var v := Stored();
        assert RowSound(v, p);
        PostKeeps(v, p, how);
        if Key(p, how) !in keys {
          keys := keys + {Key(p, how)};
          ledger := ledger + [Entry(Key(p, how), rows[p].shipment, PostingsFor(rows[p], how))];
        }
        assert Stored() == Post(v, p, how);
      }
    }

    /** Move the row if it still is where this process saw it. */
    method FlipState(p: nat, from: set<RowState>, to: RowState) returns (alive: bool)
      requires Valid() && p < |rows| && rows[p].state in from && from <= {Created, Held}
      requires to == Held ==> Has(Stored(), p, Books.Held)
      requires to == Settled ==> Has(Stored(), p, Books.Settled) && wallets[p] == Paid
      requires to == Cancelled || to == Expired ==>
                 && (Has(Stored(), p, Books.Held) <==> Has(Stored(), p, Books.GivenBack))
                 && (Dead(wallets[p]) || !Has(Stored(), p, Books.Held))
      requires to != Created
      modifies this`rows, this`lifetime, this`wallets
      ensures Valid() && Onward(old(Stored()), Stored()) && Drifted(old(wallets), wallets, revealed)
      ensures rows == if alive then old(rows)[p := old(rows)[p].(state := to)] else old(rows)
    {
      alive := Await();
      if alive {
        ghost var v := Stored();
        assert RowSound(v, p);
        FlipKeeps(v, p, from, to);
        rows := rows[p := rows[p].(state := to)];
        assert Stored() == Flip(v, p, from, to);
      }
    }
  
    // --------------------------------------------------------- transitions: entry first, then the row

    method MarkHeld(p: nat) returns (outcome: Outcome)
      requires Valid() && p < |rows| && rows[p].state == Created && wallets[p] != Absent && wallets[p] != Open
      modifies this
      ensures Valid() && Onward(old(Stored()), Stored()) && Only(old(Stored()), Stored(), p)
      ensures outcome == Crashed || (outcome == Done && rows[p].state == Held)
      ensures Key(p, Books.GivenBack) in keys <==> Key(p, Books.GivenBack) in old(keys)
    {
      var alive := Record(p, Books.Held);
      if !alive { return Crashed; }
      alive := FlipState(p, {Created}, Held);
      return if alive then Done else Crashed;
    }

    method MarkSettled(p: nat) returns (outcome: Outcome)
      requires Valid() && p < |rows| && (rows[p].state == Created || rows[p].state == Held) && wallets[p] == Paid
      modifies this
      ensures Valid() && Onward(old(Stored()), Stored()) && Only(old(Stored()), Stored(), p)
      ensures outcome == Crashed || (outcome == Done && rows[p].state == Settled)
    {
      assert RowSound(Stored(), p);
      var alive := Record(p, Books.Held);
      if !alive { return Crashed; }
      alive := Record(p, Books.Settled);
      if !alive { return Crashed; }
      alive := FlipState(p, {Created, Held}, Settled);
      return if alive then Done else Crashed;
    }

    method MarkResolved(p: nat, to: RowState) returns (outcome: Outcome)
      requires Valid() && p < |rows| && (rows[p].state == Created || rows[p].state == Held)
      requires to == Cancelled || to == Expired
      requires Dead(wallets[p]) || !Has(Stored(), p, Books.Held)
      modifies this
      ensures Valid() && Onward(old(Stored()), Stored()) && Only(old(Stored()), Stored(), p)
      ensures outcome == Crashed || (outcome == Done && rows[p].state == to)
    {
      hide Sound, Decisive;
      OpenRow(Stored(), p);
      var wasHeld := rows[p].state == Held;
      var alive;
      if !wasHeld {
        alive := Await();
        if !alive { return Crashed; }
        wasHeld := Key(p, Books.Held) in keys;
      }
      if wasHeld {
        alive := Record(p, Books.GivenBack);
        if !alive { return Crashed; }
      } else {
        OpenRow(Stored(), p);
      }
      alive := FlipState(p, {Created, Held}, to);
      return if alive then Done else Crashed;
    }

    // --------------------------------------------------------- observation

    /** Ask the payee's wallet to cancel; it may refuse or not answer. */
    method CancelInvoice(p: nat) returns (outcome: Outcome)
      requires Valid() && p < |rows|
      modifies this`lifetime, this`wallets
      ensures Valid() && Onward(old(Stored()), Stored()) && |wallets| == |old(wallets)|
      ensures forall q: nat :: q < |wallets| && old(wallets)[q] != Absent && old(wallets)[q] != Open
                ==> wallets[q] != Absent && wallets[q] != Open
      ensures outcome == Done || outcome == WalletFailed || outcome == Crashed
      ensures outcome == Done ==> Dead(wallets[p])
    {
      var alive := Await();
      if !alive { return Crashed; }
      var answers: bool := *;
      if !answers || wallets[p] == Absent || wallets[p] == Paid { return WalletFailed; }
      if wallets[p] == Open || wallets[p] == Locked {
        DriftKeeps(Stored(), wallets[p := Dropped]);
        wallets := wallets[p := Dropped];
      }
      return Done;
    }

    /** One row against its wallet, which answers in the state `saw`. */
    method Observe(p: nat, now: Time) returns (outcome: Outcome, saw: Invoice)
      requires Valid() && p < |rows| && (rows[p].state == Created || rows[p].state == Held)
      modifies this
      ensures Valid() && Onward(old(Stored()), Stored()) && Only(old(Stored()), Stored(), p)
      ensures outcome == Done || outcome == Nothing ==>
                && Caught(Stored(), p)
                && (Conflicted(Stored(), p) <==> p in decided && decided[p] == Verb.Release && Dead(saw))
      ensures outcome == Done ==> rows[p].state != old(rows)[p].state
      ensures outcome == Nothing ==> rows == old(rows) && keys == old(keys)
    {
      hide Sound, Decisive, Conflicted, RowSound;
      saw := Absent;
      var alive := Await();
      if !alive { return Crashed, saw; }
      OpenRow(Stored(), p);
      saw := wallets[p];
      var answers: bool := *;
      if !answers { return WalletFailed, saw; }
      if saw == Open || saw == Absent { UnpaidNotReleased(Stored(), p); }
      var windowClosed := now >= rows[p].createdAt + rows[p].holdWindow + EXPIRY_GRACE;
      match saw {
        case Locked =>
          outcome := Nothing;
          if rows[p].state == Created { outcome := MarkHeld(p); }
        case Paid => outcome := MarkSettled(p);
        case Lapsed => outcome := MarkResolved(p, Expired);
        case Dropped => outcome := MarkResolved(p, if windowClosed then Expired else Cancelled);
        case Open =>
          if windowClosed {
            var closed := CancelInvoice(p);
            if closed == Crashed { return Crashed, saw; }
            outcome := MarkResolved(p, Expired);
          } else {
            outcome := Nothing;
          }
        case Absent => outcome := Nothing;
      }
      ConflictExactly(Stored(), p);
    }

    /** One sweep over the open rows; a wallet that does not answer stalls nobody else. */
    method PollOnce(now: Time) returns (outcome: Outcome, allAnswered: bool)
      requires Valid()
      modifies this
      ensures Valid() && Onward(old(Stored()), Stored()) && |rows| == |old(rows)| && decided == old(decided) && intents == old(intents)
      ensures outcome == Done || outcome == Crashed
      ensures outcome == Done && allAnswered ==> forall p: nat :: p < |rows| ==> Caught(Stored(), p)
    {
      allAnswered := true;
      var n := |rows|;
      for p: nat := 0 to n
        invariant Valid() && Onward(old(Stored()), Stored()) && |rows| == n && decided == old(decided) && intents == old(intents)
        invariant allAnswered ==> forall q: nat :: q < p ==> Caught(Stored(), q)
      {
        if rows[p].state == Created || rows[p].state == Held {
          ghost var before := Stored();
          var seen, _ := Observe(p, now);
          if seen == Crashed { return Crashed, allAnswered; }
          OnwardTwice(old(Stored()), before, Stored());
          if allAnswered { OthersStayCaught(before, Stored(), p, p); }
          if seen != Done && seen != Nothing { allAnswered := false; }
        }
      }
      return Done, allAnswered;
    }

    // --------------------------------------------------------- the two verbs

    /** Reveal the preimage to the payee's wallet, which collects. */
    method Release(p: nat) returns (outcome: Outcome)
      requires Valid() && (p < |rows| ==> p in decided && decided[p] == Verb.Release)
      modifies this
      ensures Valid() && Onward(old(Stored()), Stored()) && decided == old(decided) && intents == old(intents)
      ensures outcome == NotFound <==> p >= |rows|
      ensures outcome == Done ==> rows[p].state == Settled
      ensures outcome == InvalidState <==> p < |old(rows)| && old(rows)[p].state !in {Settled, Held}
      ensures outcome == InvalidState ==> Stored() == old(Stored())
      ensures p in revealed && p !in old(revealed) ==> p < |old(rows)| && old(rows)[p].state == Held
    {
      if p >= |rows| { return NotFound; }
      if rows[p].state == Settled { return Done; }
      if rows[p].state != Held { return InvalidState; }
      var alive := Await();
      if !alive { return Crashed; }
      var answers: bool := *;
      RevealKeeps(Stored(), p, answers && wallets[p] == Locked);
      revealed := revealed + {p};
      if answers && wallets[p] == Locked { wallets := wallets[p := Paid]; }
      if !answers || wallets[p] != Paid { return WalletFailed; }
      ghost var before := Stored();
      outcome := MarkSettled(p);
      OnwardTwice(old(Stored()), before, Stored());
    }

    /** Have the payee's wallet cancel, then give the payer's hold back. */
    method Refund(p: nat) returns (outcome: Outcome)
      requires Valid() && (p in decided ==> decided[p] == Verb.Refund)
      modifies this
      ensures Valid() && Onward(old(Stored()), Stored()) && decided == old(decided) && intents == old(intents)
      ensures outcome == NotFound <==> p >= |rows|
      ensures outcome == Done ==> rows[p].state == Cancelled || rows[p].state == Expired
      ensures outcome != InvalidState && revealed == old(revealed)
    {
      if p >= |rows| { return NotFound; }
      assert RowSound(Stored(), p);
      if rows[p].state == Cancelled || rows[p].state == Expired { return Done; }
      outcome := CancelInvoice(p);
      if outcome != Done { return; }
      ghost var before := Stored();
      outcome := MarkResolved(p, Cancelled);
      OnwardTwice(old(Stored()), before, Stored());
    }
  
    // --------------------------------------------------------- the executor's side

    /** The executor commits a verb, with its journal entry if the machine had
        recognised the hold; each payment is decided once. */
    method Decide(p: nat, verb: Verb, recognised: bool)
      requires Valid() && p < |rows| && p !in decided
      requires recognised ==> Has(Stored(), p, Books.Held)
      requires verb == Verb.Release ==> recognised
      modifies this`keys, this`ledger, this`decided, this`intents
      ensures Valid() && decided == old(decided)[p := verb] && intents == old(intents) + {p}
      ensures keys == if recognised then
                        old(keys) + {Key(p, if verb == Verb.Release then Books.Settled else Books.GivenBack)}
                      else old(keys)
    {
      ghost var v := Stored();
      assert RowSound(v, p);
      DecidedKeeps(v, p, verb, recognised);
      decided := decided[p := verb];
      intents := intents + {p};
      if recognised {
        var how := if verb == Verb.Release then Books.Settled else Books.GivenBack;
        if Key(p, how) !in keys {
          keys := keys + {Key(p, how)};
          ledger := ledger + [Entry(Key(p, how), rows[p].shipment, PostingsFor(rows[p], how))];
        }
      }
      assert Stored() == Decided(v, p, verb, recognised);
    }

    /** Execute one pending verb and strike it off if it took effect. */
    method CarryOut(p: nat) returns (outcome: Outcome)
      requires Valid() && p in intents
      modifies this
      ensures Valid() && Onward(old(Stored()), Stored()) && decided == old(decided)
      ensures intents == if outcome == Done then old(intents) - {p} else old(intents)
    {
      if decided[p] == Verb.Release { outcome := Release(p); } else { outcome := Refund(p); }
      if outcome == Done {
        ghost var after := Stored();
        CarriedOutKeeps(after, p);
        intents := intents - {p};
        assert Stored() == after.(intents := after.intents - {p});
        OnwardTwice(old(Stored()), after, Stored());
      }
    }

    /** Retry pending verbs; what succeeds is struck off, and by `Sound` its row
        has been closed the way it was decided. */
    method RetryEscrowIntents() returns (executed: nat, failed: nat)
      requires Valid()
      modifies this
      ensures Valid() && Onward(old(Stored()), Stored()) && decided == old(decided)
      ensures |intents| + executed == |old(intents)|
    {
      executed, failed := 0, 0;
      var todo := intents;
      while todo != {}
        invariant Valid() && Onward(old(Stored()), Stored()) && decided == old(decided)
        invariant todo <= intents && |intents| + executed == |old(intents)|
        decreases |todo|
      {
        var p :| p in todo;
        todo := todo - {p};
        ghost var before := Stored();
        var outcome := CarryOut(p);
        OnwardTwice(old(Stored()), before, Stored());
        if outcome == Crashed { return; }
        if outcome == Done { executed := executed + 1; } else { failed := failed + 1; }
      }
    }

    // --------------------------------------------------------- creation

    method FindByIdem(idem: string) returns (found: Shipment.Option<nat>)
      requires Valid()
      ensures found.Some? ==> found.value < |rows| && rows[found.value].idem == idem
      ensures found.None? ==> forall p: nat :: p < |rows| ==> rows[p].idem != idem
    {
      for p: nat := 0 to |rows|
        invariant forall q: nat :: q < p ==> rows[q].idem != idem
      {
        if rows[p].idem == idem { return Shipment.Some(p); }
      }
      return Shipment.None;
    }

    /** Whether the row is the same intent as the terms asked for. */
    predicate Agrees(r: Row, terms: Row) {
      r.shipment == terms.shipment && r.payer == terms.payer && r.payee == terms.payee && r.amount == terms.amount
    }

    /** The key is taken by a payment with other terms. */
    ghost predicate Conflicts(taken: seq<Row>, terms: Row) {
      exists p: nat :: p < |taken| && taken[p].idem == terms.idem && !Agrees(taken[p], terms)
    }

    method InsertRow(row: Row) returns (alive: bool)
      requires Valid() && 0 < row.amount && row.payer != row.payee && row.state == Created
      requires forall p: nat :: p < |rows| ==> rows[p].idem != row.idem
      modifies this`rows, this`wallets, this`lifetime
      ensures Valid() && Onward(old(Stored()), Stored())
      ensures rows == if alive then old(rows) + [row] else old(rows)
    {
      alive := Await();
      if alive {
        ghost var before := Stored();
        InsertKeeps(before, row);
        rows := rows + [row];
        wallets := wallets + [Absent];
        assert Stored() == Insert(before, row);
        OnwardTwice(old(Stored()), before, Stored());
      }
    }

    /** The row under the key, inserted if there is none. */
    method FindOrInsert(terms: Row) returns (outcome: Outcome, id: nat)
      requires Valid() && 0 < terms.amount && terms.payer != terms.payee && terms.state == Created
      modifies this`rows, this`wallets, this`lifetime
      ensures Valid() && Onward(old(Stored()), Stored())
      ensures outcome == Done || outcome == Crashed || outcome == IdemConflict
      ensures outcome == Done ==> id < |rows| && rows[id].idem == terms.idem && Agrees(rows[id], terms)
      ensures outcome == IdemConflict ==> Conflicts(old(rows), terms)
      ensures Conflicts(old(rows), terms) ==> outcome != Done
      ensures rows == old(rows) || (rows == old(rows) + [terms] && forall p: nat :: p < |old(rows)| ==> old(rows)[p].idem != terms.idem)
      ensures outcome == IdemConflict ==> rows == old(rows)
    {
      id := 0;
      var alive := Await();
      if !alive { return Crashed, id; }
      var found := FindByIdem(terms.idem);
      if found.Some? {
        id := found.value;
        return if Agrees(rows[id], terms) then Done else IdemConflict, id;
      }
      id := |rows|;
      alive := InsertRow(terms);
      return if alive then Done else Crashed, id;
    }

    /** Create, or resume the creation of, the payment under an idempotency key. */
    method CreateConditionalPayment(terms: Row) returns (outcome: Outcome, id: nat)
      requires Valid() && terms.state == Created && !terms.invoiced
      modifies this
      ensures Valid() && Onward(old(Stored()), Stored()) && decided == old(decided) && intents == old(intents)
      ensures keys == old(keys) && revealed == old(revealed)
      ensures outcome == InvalidState <==> terms.amount <= 0 || terms.payer == terms.payee
      ensures outcome == InvalidState || outcome == IdemConflict ==> rows == old(rows)
      ensures outcome == IdemConflict ==> Conflicts(old(rows), terms)
      ensures Conflicts(old(rows), terms) ==> outcome in {InvalidState, IdemConflict, Crashed}
      ensures outcome == Done ==> id < |rows| && rows[id].idem == terms.idem && Agrees(rows[id], terms) && rows[id].invoiced
      ensures |old(rows)| <= |rows| <= |old(rows)| + 1
      ensures (exists p: nat :: p < |old(rows)| && old(rows)[p].idem == terms.idem) ==> |rows| == |old(rows)|
    {
      hide Sound;
      if terms.amount <= 0 || terms.payer == terms.payee { return InvalidState, 0; }
      outcome, id := FindOrInsert(terms);
      if outcome != Done { return; }
      ghost var before := Stored();
      outcome := Dispatch(id);
      OnwardTwice(old(Stored()), before, Stored());
    }

    /** The payee's wallet issues the hold invoice; once only per hash. */
    method Issue(p: nat) returns (outcome: Outcome)
      requires Valid() && p < |rows|
      modifies this`wallets, this`lifetime
      ensures Valid() && Onward(old(Stored()), Stored())
      ensures outcome == Crashed || outcome == WalletFailed || outcome == Done
    {
      var alive := Await();
      if !alive { return Crashed; }
      var answers: bool := *;
      if answers && wallets[p] == Absent {
        ghost var before := Stored();
        IssueKeeps(before, p);
        wallets := wallets[p := Open];
        OnwardTwice(old(Stored()), before, Stored());
      }
      return if answers then Done else WalletFailed;
    }

    /** The resumable steps: have the invoice issued, note it on the row, and ask
        the payer's wallet to pay it. */
    method Dispatch(p: nat) returns (outcome: Outcome)
      requires Valid() && p < |rows|
      modifies this`rows, this`wallets, this`lifetime
      ensures Valid() && Onward(old(Stored()), Stored()) && |rows| == |old(rows)|
      ensures rows[p] == old(rows)[p].(invoiced := rows[p].invoiced)
      ensures outcome == Crashed || outcome == WalletFailed || (outcome == Done && rows[p].invoiced)
    {
      if !rows[p].invoiced {
        outcome := Issue(p);
        if outcome != Done { return; }
        var alive := Await();
        if !alive { return Crashed; }
        ghost var before := Stored();
        NoteInvoiceKeeps(before, p);
        rows := rows[p := rows[p].(invoiced := true)];
        OnwardTwice(old(Stored()), before, Stored());
      }
      if rows[p].state == Created {
        var reached: bool := *;
        if !reached { return WalletFailed; }
        var alive := Await();  // a failed payment is not an error: the hold just never comes
        if !alive { return Crashed; }
      }
      return Done;
    }

    // --------------------------------------------------------- reconciliation

    /** Per-payment audit, and what each shipment should have in flight. */
    method AuditPayments() returns (unclean: set<nat>, expected: map<ShipmentId, Msat>)
      ensures unclean == set p: nat | p < |rows| && !PaymentClean(Stored(), p)
      ensures expected.Keys == set p: nat | p < |rows| :: rows[p].shipment
      ensures forall s <- expected.Keys :: expected[s] == InFlight(Stored(), s, |rows|)
    {
      unclean, expected := {}, map[];
      ghost var v := Stored();
      for p: nat := 0 to |rows|
        invariant unclean == set q: nat | q < p && !PaymentClean(v, q)
        invariant expected.Keys == set q: nat | q < p :: rows[q].shipment
        invariant forall s <- expected.Keys :: expected[s] == InFlight(v, s, p)
        invariant forall s: ShipmentId :: s !in expected ==> InFlight(v, s, p) == 0
      {
        if !PaymentClean(Stored(), p) { unclean := unclean + {p}; }
        var s := rows[p].shipment;
        var held := if rows[p].state == Held then rows[p].amount else 0;
        expected := expected[s := (if s in expected then expected[s] else 0) + held];
      }
    }

    method AuditShipments(expected: map<ShipmentId, Msat>) returns (unbalanced: set<ShipmentId>)
      ensures unbalanced == set s | s in expected.Keys && Balance(ledger, s) != expected[s]
    {
      unbalanced := {};
      var todo := expected.Keys;
      while todo != {}
        invariant todo <= expected.Keys
        invariant unbalanced == set s | s in expected.Keys - todo && Balance(ledger, s) != expected[s]
        decreases |todo|
      {
        var s :| s in todo;
        todo := todo - {s};
        if Balance(ledger, s) != expected[s] { unbalanced := unbalanced + {s}; }
      }
    }

    /** Observe everything, then audit payments and commitment accounts. */
    method Reconcile(now: Time) returns (outcome: Outcome, allAnswered: bool, unclean: set<nat>, unbalanced: set<ShipmentId>)
      requires Valid()
      modifies this
      ensures Valid() && Onward(old(Stored()), Stored())
      ensures outcome == Done ==> forall p: nat :: p in unclean <==> p < |rows| && !PaymentClean(Stored(), p)
      ensures outcome == Done ==> forall p: nat :: p < |rows| ==>
                (rows[p].shipment in unbalanced <==> !ShipmentClean(Stored(), rows[p].shipment))
      ensures outcome == Done && allAnswered && old(intents) == {} ==> unclean == {} && unbalanced == {}
    {
      unclean, unbalanced := {}, {};
      outcome, allAnswered := PollOnce(now);
      if outcome == Crashed { return; }
      var expected;
      unclean, expected := AuditPayments();
      unbalanced := AuditShipments(expected);
      hide Sound, Onward;
      if allAnswered && intents == {} { Heals(Stored()); }
    }
  }
}
