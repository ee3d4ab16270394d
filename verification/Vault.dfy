/** What the escrow coordinator's process leaves behind when it dies: payment
    rows, journal, and the payees' wallets it only talks to; and what must hold
    of them at every moment. */
module Vault {
  import opened Economics
  import Shipment
  import Books

  type ShipmentId = nat
  type User = Shipment.UserId
  type Time = int

  datatype RowState = Created | Held | Settled | Cancelled | Expired

  datatype Row = Row(shipment: ShipmentId, payer: User, payee: User, amount: Msat, idem: string,
                     invoiced: bool, state: RowState, createdAt: Time, holdWindow: nat)

  /** The payee's hold invoice. */
  datatype Invoice = Absent | Open | Locked | Paid | Dropped | Lapsed

  datatype Verb = Release | Refund

  /** `cp:<payment>:<how>` */
  datatype Key = Key(payment: nat, how: Books.Recognition)

  datatype Entry = Entry(key: Key, shipment: ShipmentId, postings: seq<Shipment.Posting>)

  /** `decided` and `intents` are the executor's: what it has resolved in its own
      transactions, and which of those verbs are still to be executed. */
  datatype Vault = Vault(
    rows: seq<Row>, keys: set<Key>, ledger: seq<Entry>, wallets: seq<Invoice>,
    revealed: set<nat>, decided: map<nat, Verb>, intents: set<nat>)

  predicate Dead(i: Invoice) {
    i == Dropped || i == Lapsed
  }

  predicate Closed(s: RowState) {
    s == Settled || s == Cancelled || s == Expired
  }

  predicate Has(v: Vault, p: nat, how: Books.Recognition) {
    Key(p, how) in v.keys
  }

  function AsPayment(r: Row): Books.Payment {
    Books.Payment(Shipment.LegPayment, r.payer, r.payee, r.amount, Shipment.ShipmentRef, Books.Pending)
  }

  /** The postings of one recognition, the same for both writers. */
  function PostingsFor(r: Row, how: Books.Recognition): seq<Shipment.Posting> {
    Books.PaymentPostings(AsPayment(r), how)
  }

  /** Balance of a shipment's commitment account: always summed, never stored. */
  function Balance(ledger: seq<Entry>, s: ShipmentId): Msat {
    if ledger == [] then 0
    else
      var last := ledger[|ledger| - 1];
      Balance(ledger[..|ledger| - 1], s) + (if last.shipment == s then Books.OnCommitment(last.postings) else 0)
  }

  function Flag(b: bool): int { if b then 1 else 0 }

  /** What the journal says a payment still commits. */
  function Recorded(v: Vault, p: nat): Msat
    requires p < |v.rows|
  {
    v.rows[p].amount * (Flag(Has(v, p, Books.Held)) - Flag(Has(v, p, Books.Settled)) - Flag(Has(v, p, Books.GivenBack)))
  }

  function RecordedUpTo(v: Vault, s: ShipmentId, n: nat): Msat
    requires n <= |v.rows|
  {
    if n == 0 then 0 else RecordedUpTo(v, s, n - 1) + (if v.rows[n - 1].shipment == s then Recorded(v, n - 1) else 0)
  }

  /** The crash-safe escrow, payment by payment. */
  predicate RowSound(v: Vault, p: nat)
    requires p < |v.rows| && |v.wallets| == |v.rows|
  {
    var r, i := v.rows[p], v.wallets[p];
    var h, s, g := Has(v, p, Books.Held), Has(v, p, Books.Settled), Has(v, p, Books.GivenBack);
    && 0 < r.amount && r.payer != r.payee
    // a recognised hold was seen at the wallet
    && (h ==> i != Absent && i != Open)
    // a preimage leaves only for a recognised hold that was decided to be released
    && (p in v.revealed ==> h && p in v.decided && v.decided[p] == Release)
    && (i == Paid ==> p in v.revealed)
    // the journal never resolves what it did not recognise, nor against the decision or the wallet
    && (s ==> h && p in v.decided && v.decided[p] == Release)
    && (g ==> h && ((p in v.decided && v.decided[p] == Refund) || Dead(i)))
    // the journal is never behind the row
    && (r.state == Held ==> h)
    && (r.state == Settled ==> h && s && i == Paid)
    && (r.state == Cancelled || r.state == Expired ==> (h <==> g) && (Dead(i) || !h))
    // an executed intent has closed its row accordingly
    && (p in v.decided && p !in v.intents ==>
          if v.decided[p] == Release then r.state == Settled else r.state == Cancelled || r.state == Expired)
  }

  ghost predicate JournalSound(v: Vault) {
    && (forall k <- v.keys :: k.payment < |v.rows|)
    && (forall e <- v.ledger :: e.key in v.keys && EntrySound(v, e))
    && (forall a, b :: 0 <= a < b < |v.ledger| ==> v.ledger[a].key != v.ledger[b].key)
    && (forall s: ShipmentId :: Balance(v.ledger, s) == RecordedUpTo(v, s, |v.rows|))
  }

  predicate EntrySound(v: Vault, e: Entry) {
    && e.key.payment < |v.rows|
    && e.shipment == v.rows[e.key.payment].shipment
    && e.postings == PostingsFor(v.rows[e.key.payment], e.key.how)
  }

  ghost predicate Sound(v: Vault) {
    && |v.wallets| == |v.rows|
    && (forall p: nat :: p < |v.rows| ==> RowSound(v, p))
    && (forall p <- v.decided.Keys :: p < |v.rows|)
    && v.intents <= v.decided.Keys
    && (forall p <- v.revealed :: p < |v.rows|)
    && (forall a, b :: 0 <= a < b < |v.rows| ==> v.rows[a].idem != v.rows[b].idem)
    && JournalSound(v)
  }

  // ----------------------------------------------------------- elementary writes

  /** Idempotent by key. */
  function Post(v: Vault, p: nat, how: Books.Recognition): Vault
    requires p < |v.rows|
  {
    if Has(v, p, how) then v
    else v.(keys := v.keys + {Key(p, how)},
            ledger := v.ledger + [Entry(Key(p, how), v.rows[p].shipment, PostingsFor(v.rows[p], how))])
  }

  /** The guarded flip. */
  function Flip(v: Vault, p: nat, from: set<RowState>, to: RowState): Vault
    requires p < |v.rows|
  {
    if v.rows[p].state in from then v.(rows := v.rows[p := v.rows[p].(state := to)]) else v
  }

  predicate MayBecome(a: Invoice, b: Invoice, revealed: bool) {
    || a == b
    || (a == Open && (b == Locked || Dead(b)))
    || (a == Locked && (Dead(b) || (b == Paid && revealed)))
  }

  /** Wallets move on their own: payers pay, payees drop, holds lapse, and a payee
      that knows the preimage collects. */
  predicate Drifted(a: seq<Invoice>, b: seq<Invoice>, revealed: set<nat>) {
    |a| == |b| && forall p: nat :: p < |a| ==> MayBecome(a[p], b[p], p in revealed)
  }

  // ----------------------------------------------------------- what they keep

  lemma {:induction false} RecordedFrame(v: Vault, w: Vault, s: ShipmentId, n: nat, except: nat, delta: Msat)
    requires n <= |v.rows| && n <= |w.rows|
    requires forall p: nat :: p < n ==> v.rows[p].shipment == w.rows[p].shipment && v.rows[p].amount == w.rows[p].amount
    requires forall p: nat :: p < n && p != except ==> Recorded(v, p) == Recorded(w, p)
    requires except < n ==> Recorded(w, except) == Recorded(v, except) + delta
    ensures RecordedUpTo(w, s, n) == RecordedUpTo(v, s, n) + (if except < n && v.rows[except].shipment == s then delta else 0)
  {
    hide Recorded;
    if n > 0 { RecordedFrame(v, w, s, n - 1, except, delta); }
  }

  lemma PostRecords(v: Vault, p: nat, how: Books.Recognition)
    requires Sound(v) && p < |v.rows| && !Has(v, p, how)
    ensures JournalSound(Post(v, p, how))
  {
    var w, amount := Post(v, p, how), if how == Books.Held then v.rows[p].amount else -v.rows[p].amount;
    var e := w.ledger[|v.ledger|];
    hide RowSound;
    forall s: ShipmentId
      ensures Balance(w.ledger, s) == RecordedUpTo(w, s, |w.rows|)
    {
      assert w.ledger[..|v.ledger|] == v.ledger;
      Books.PostingsOnCommitment(AsPayment(v.rows[p]), how);
      RecordedOnce(v, p, how);
      RecordedFrame(v, w, s, |v.rows|, p, amount);
    }
  }

  lemma RecordedOnce(v: Vault, p: nat, how: Books.Recognition)
    requires p < |v.rows| && !Has(v, p, how)
    ensures forall q: nat :: q < |v.rows| && q != p ==> Recorded(Post(v, p, how), q) == Recorded(v, q)
    ensures Recorded(Post(v, p, how), p) == Recorded(v, p) + (if how == Books.Held then v.rows[p].amount else -v.rows[p].amount)
  {
    var a, x := v.rows[p].amount, Flag(Has(v, p, Books.Held)) - Flag(Has(v, p, Books.Settled)) - Flag(Has(v, p, Books.GivenBack));
    assert a * (x + 1) == a * x + a && a * (x - 1) == a * x - a;
  }

  /** Writing one recognition keeps the vault sound if it suits the payment. */
  lemma PostKeeps(v: Vault, p: nat, how: Books.Recognition)
    requires Sound(v) && p < |v.rows|
    requires RowSound(Post(v, p, how), p)
    ensures Sound(Post(v, p, how))
  {
    if !Has(v, p, how) {
      PostRecords(v, p, how);
      hide JournalSound;
      forall q: nat | q < |v.rows|
        ensures RowSound(Post(v, p, how), q)
      {
        assert RowSound(v, q);
      }
    }
  }

  /** Rows may change their state, nothing else is recorded of it. */
  lemma RowsMayMove(v: Vault, w: Vault)
    requires JournalSound(v) && w.keys == v.keys && w.ledger == v.ledger && |w.rows| == |v.rows|
    requires forall p: nat :: p < |v.rows| ==> w.rows[p].(state := v.rows[p].state, invoiced := v.rows[p].invoiced) == v.rows[p]
    ensures JournalSound(w)
  {
    forall e | e in w.ledger
      ensures EntrySound(w, e)
    {
      assert EntrySound(v, e);
    }
    forall s: ShipmentId
      ensures Balance(w.ledger, s) == RecordedUpTo(w, s, |w.rows|)
    {
      RecordedFrame(v, w, s, |v.rows|, |v.rows|, 0);
    }
  }

  lemma FlipKeeps(v: Vault, p: nat, from: set<RowState>, to: RowState)
    requires Sound(v) && p < |v.rows| && RowSound(Flip(v, p, from, to), p)
    ensures Sound(Flip(v, p, from, to))
  {
    var w := Flip(v, p, from, to);
    RowsMayMove(v, w);
    hide JournalSound;
    forall q: nat | q < |v.rows|
      ensures RowSound(w, q)
    {
      assert RowSound(v, q);
    }
  }

  /** Whatever the wallets do on their own, the vault stays sound. */
  lemma DriftKeeps(v: Vault, wallets: seq<Invoice>)
    requires Sound(v) && Drifted(v.wallets, wallets, v.revealed)
    ensures Sound(v.(wallets := wallets))
  {
    var w := v.(wallets := wallets);
    RowsMayMove(v, w);
    hide JournalSound;
    forall p: nat | p < |v.rows|
      ensures RowSound(w, p)
    {
      assert RowSound(v, p);
    }
  }

  // ----------------------------------------------------------- the audit

  /** Pass 2 of the reconciliation: a payment's entries match its row. */
  predicate PaymentClean(v: Vault, p: nat)
    requires p < |v.rows|
  {
    var h, s, g := Has(v, p, Books.Held), Has(v, p, Books.Settled), Has(v, p, Books.GivenBack);
    match v.rows[p].state
    case Created => !h && !s && !g
    case Held => h && !s && !g
    case Settled => h && s && !g
    case Cancelled | Expired => !s && h == g
  }

  function InFlight(v: Vault, s: ShipmentId, n: nat): Msat
    requires n <= |v.rows|
  {
    if n == 0 then 0
    else InFlight(v, s, n - 1) + (if v.rows[n - 1].shipment == s && v.rows[n - 1].state == Held then v.rows[n - 1].amount else 0)
  }

  /** Pass 3: the commitment account holds exactly what is in flight. */
  predicate ShipmentClean(v: Vault, s: ShipmentId) {
    Balance(v.ledger, s) == InFlight(v, s, |v.rows|)
  }

  lemma {:induction false} CleanPaymentsBalance(v: Vault, s: ShipmentId, n: nat)
    requires n <= |v.rows| && forall p: nat :: p < n ==> PaymentClean(v, p)
    ensures RecordedUpTo(v, s, n) == InFlight(v, s, n)
  {
    if n > 0 {
      CleanPaymentsBalance(v, s, n - 1);
      var a := v.rows[n - 1].amount;
      assert PaymentClean(v, n - 1);
      assert a * (1 - 0 - 0) == a && a * (1 - 1 - 0) == 0 && a * (1 - 0 - 1) == 0 && a * (0 - 0 - 0) == 0;
    }
  }

  /** What a poll that heard from its wallet leaves of a payment: nothing of an
      interrupted write. */
  predicate Caught(v: Vault, p: nat)
    requires p < |v.rows|
  {
    && (v.rows[p].state == Created ==> !Has(v, p, Books.Held))
    && (v.rows[p].state == Held && Has(v, p, Books.GivenBack) ==> p in v.decided && v.decided[p] == Refund)
  }

  /** Once caught up, a payment's audit is clean exactly when the executor's
      decision on it, if any, has been carried out. */
  lemma CleanWhenCarriedOut(v: Vault, p: nat)
    requires Sound(v) && p < |v.rows| && Caught(v, p) && p !in v.intents
    ensures PaymentClean(v, p)
  {
    assert RowSound(v, p);
  }

  /** Self-healing: caught up and with no verb pending, the whole audit is clean. */
  lemma Heals(v: Vault)
    requires Sound(v) && v.intents == {} && forall p: nat :: p < |v.rows| ==> Caught(v, p)
    ensures forall p: nat :: p < |v.rows| ==> PaymentClean(v, p)
    ensures forall s: ShipmentId :: ShipmentClean(v, s)
  {
    forall p: nat | p < |v.rows|
      ensures PaymentClean(v, p)
    {
      CleanWhenCarriedOut(v, p);
    }
    forall s: ShipmentId
      ensures ShipmentClean(v, s)
    {
      CleanPaymentsBalance(v, s, |v.rows|);
    }
  }

  // ----------------------------------------------------------- settled and given back

  /** A release goes on record together with its journal entry. */
  ghost predicate Decisive(v: Vault) {
    forall p <- v.decided.Keys :: v.decided[p] == Release ==> Has(v, p, Books.Settled)
  }

  /** The journal says of one payment both that the payee collected it and that the
      payer has it back. */
  predicate Conflicted(v: Vault, p: nat) {
    Has(v, p, Books.Settled) && Has(v, p, Books.GivenBack)
  }

  /** When that is so. A settled payment is never given back; of one that is over
      otherwise, both stand if and only if it had been decided to be released, and
      then its wallet had let the hold die; and of one that is still open only
      within an observation that was interrupted. */
  lemma ConflictExactly(v: Vault, p: nat)
    requires Sound(v) && Decisive(v) && p < |v.rows|
    ensures v.rows[p].state == Settled ==> !Conflicted(v, p)
    ensures v.rows[p].state == Cancelled || v.rows[p].state == Expired ==>
              (Conflicted(v, p) <==> p in v.decided && v.decided[p] == Release)
    ensures (v.rows[p].state == Created || v.rows[p].state == Held) && Caught(v, p) ==> !Conflicted(v, p)
    ensures Conflicted(v, p) ==>
              p in v.decided && v.decided[p] == Release && Dead(v.wallets[p]) && v.rows[p].state != Settled && p in v.intents
  {
    hide JournalSound;
    assert RowSound(v, p);
  }

  /** An invoice nobody paid is of no decided release. */
  lemma UnpaidNotReleased(v: Vault, p: nat)
    requires Sound(v) && Decisive(v) && p < |v.rows| && (v.wallets[p] == Open || v.wallets[p] == Absent)
    ensures !(p in v.decided && v.decided[p] == Release) && !Has(v, p, Books.Held)
  {
    hide JournalSound;
    assert RowSound(v, p);
  }

  /** What a row that is still open says of the journal. */
  lemma OpenRow(v: Vault, p: nat)
    requires Sound(v) && p < |v.rows| && (v.rows[p].state == Created || v.rows[p].state == Held)
    ensures |v.wallets| == |v.rows|
    ensures v.rows[p].state == Held ==> Has(v, p, Books.Held)
    ensures !Has(v, p, Books.Held) ==> !Has(v, p, Books.GivenBack) && !Has(v, p, Books.Settled)
    ensures v.rows[p].state == Held ==> v.wallets[p] != Open && v.wallets[p] != Absent
    ensures v.wallets[p] == Locked && Has(v, p, Books.GivenBack) ==> p in v.decided && v.decided[p] == Refund
    ensures v.wallets[p] == Paid ==> Has(v, p, Books.Held) && p in v.decided && v.decided[p] == Release
  {
    hide JournalSound;
    assert RowSound(v, p);
  }

  /** Without a recognised release, settled and given back never coexist. */
  lemma NoReleaseNoConflict(v: Vault, p: nat)
    requires Sound(v) && p < |v.rows| && (forall q <- v.decided.Keys :: v.decided[q] != Release)
    ensures !Conflicted(v, p)
  {
    hide JournalSound;
    assert RowSound(v, p);
  }

  // ----------------------------------------------------------- what never moves back

  /** What no step ever undoes: rows keep their terms and their end, the journal
      and the revealed preimages only grow, a wallet's final state stays. */
  ghost predicate Onward(v: Vault, w: Vault) {
    && |v.rows| <= |w.rows| && |v.wallets| <= |w.wallets|
    && (forall p: nat :: p < |v.rows| ==> w.rows[p].(state := v.rows[p].state, invoiced := v.rows[p].invoiced) == v.rows[p])
    && (forall p: nat :: p < |v.rows| && Closed(v.rows[p].state) ==> w.rows[p].state == v.rows[p].state)
    && v.keys <= w.keys && v.ledger <= w.ledger && v.revealed <= w.revealed
    && w.decided == v.decided && w.intents <= v.intents
    && (forall p: nat :: p < |v.wallets| && (Dead(v.wallets[p]) || v.wallets[p] == Paid) ==> w.wallets[p] == v.wallets[p])
  }

  lemma OnwardTwice(u: Vault, v: Vault, w: Vault)
    requires Onward(u, v) && Onward(v, w)
    ensures Onward(u, w)
  {
    forall p: nat | p < |u.rows|
      ensures w.rows[p].(state := u.rows[p].state, invoiced := u.rows[p].invoiced) == u.rows[p]
    {
      assert v.rows[p].(state := u.rows[p].state, invoiced := u.rows[p].invoiced) == u.rows[p];
      assert w.rows[p].(state := v.rows[p].state, invoiced := v.rows[p].invoiced) == v.rows[p];
    }
  }

  /** Nothing was written about any payment but `p`. */
  ghost predicate Only(v: Vault, w: Vault, p: nat) {
    && |w.rows| == |v.rows| && w.decided == v.decided && w.intents == v.intents && w.revealed == v.revealed
    && (forall q: nat :: q < |v.rows| && q != p ==> w.rows[q] == v.rows[q])
    && (forall k <- w.keys :: k in v.keys || k.payment == p)
  }

  lemma OthersStayCaught(v: Vault, w: Vault, p: nat, n: nat)
    requires Only(v, w, p) && n <= |v.rows| && n <= p && forall q: nat :: q < n ==> Caught(v, q)
    ensures forall q: nat :: q < n ==> Caught(w, q)
  {
    forall q: nat | q < n
      ensures Caught(w, q)
    {
      assert Caught(v, q);
    }
  }

  // ----------------------------------------------------------- new payments, and the executor's decisions

  function Insert(v: Vault, r: Row): Vault {
    v.(rows := v.rows + [r], wallets := v.wallets + [Absent])
  }

  lemma InsertKeeps(v: Vault, r: Row)
    requires Sound(v) && 0 < r.amount && r.payer != r.payee && r.state == Created
    requires forall p: nat :: p < |v.rows| ==> v.rows[p].idem != r.idem
    ensures Sound(Insert(v, r)) && Onward(v, Insert(v, r))
  {
    var w, n := Insert(v, r), |v.rows|;
    forall p: nat | p < |w.rows|
      ensures RowSound(w, p)
    {
      if p < n { assert RowSound(v, p); }
    }
    forall e | e in w.ledger
      ensures EntrySound(w, e)
    {
      assert EntrySound(v, e);
    }
    forall s: ShipmentId
      ensures Balance(w.ledger, s) == RecordedUpTo(w, s, n + 1)
    {
      RecordedFrame(v, w, s, n, n, 0);
      assert Recorded(w, n) == r.amount * (0 - 0 - 0);
      assert r.amount * 0 == 0;
    }
  }

  /** The payee's wallet issues the invoice. */
  lemma IssueKeeps(v: Vault, p: nat)
    requires Sound(v) && p < |v.rows| && v.wallets[p] == Absent
    ensures Sound(v.(wallets := v.wallets[p := Open])) && Onward(v, v.(wallets := v.wallets[p := Open]))
  {
    var w := v.(wallets := v.wallets[p := Open]);
    RowsMayMove(v, w);
    hide JournalSound;
    forall q: nat | q < |v.rows|
      ensures RowSound(w, q)
    {
      assert RowSound(v, q);
    }
  }

  lemma NoteInvoiceKeeps(v: Vault, p: nat)
    requires Sound(v) && p < |v.rows|
    ensures var w := v.(rows := v.rows[p := v.rows[p].(invoiced := true)]); Sound(w) && Onward(v, w)
  {
    var w := v.(rows := v.rows[p := v.rows[p].(invoiced := true)]);
    RowsMayMove(v, w);
    hide JournalSound;
    forall q: nat | q < |v.rows|
      ensures RowSound(w, q)
    {
      assert RowSound(v, q);
    }
  }

  /** Revealing the preimage of a hold that is to be released; the wallet may
      settle at once. */
  lemma RevealKeeps(v: Vault, p: nat, settles: bool)
    requires Sound(v) && p < |v.rows| && v.rows[p].state == Held && p in v.decided && v.decided[p] == Release
    requires settles ==> v.wallets[p] == Locked
    ensures var w := v.(revealed := v.revealed + {p}, wallets := if settles then v.wallets[p := Paid] else v.wallets);
      Sound(w) && Onward(v, w)
  {
    var w := v.(revealed := v.revealed + {p}, wallets := if settles then v.wallets[p := Paid] else v.wallets);
    RowsMayMove(v, w);
    hide JournalSound;
    forall q: nat | q < |v.rows|
      ensures RowSound(w, q)
    {
      assert RowSound(v, q);
    }
  }

  /** The executor's transaction: the verb goes on record, with its journal entry
      if the machine had recognised the hold. */
  function Decided(v: Vault, p: nat, verb: Verb, recognised: bool): Vault
    requires p < |v.rows|
  {
    var w := v.(decided := v.decided[p := verb], intents := v.intents + {p});
    if !recognised then w else Post(w, p, if verb == Release then Books.Settled else Books.GivenBack)
  }

  lemma DecidedKeeps(v: Vault, p: nat, verb: Verb, recognised: bool)
    requires Sound(v) && p < |v.rows| && p !in v.decided
    requires recognised ==> Has(v, p, Books.Held)
    requires verb == Release ==> recognised
    requires verb == Refund && recognised ==> v.rows[p].state != Settled
    ensures Sound(Decided(v, p, verb, recognised))
  {
    var w := v.(decided := v.decided[p := verb], intents := v.intents + {p});
    RowsMayMove(v, w);
    assert RowSound(v, p);
    assert Sound(w) by {
      hide JournalSound;
      forall q: nat | q < |v.rows|
        ensures RowSound(w, q)
      {
        assert RowSound(v, q);
      }
    }
    if recognised { PostKeeps(w, p, if verb == Release then Books.Settled else Books.GivenBack); }
  }

  /** A verb that took effect is no longer pending. */
  lemma CarriedOutKeeps(v: Vault, p: nat)
    requires Sound(v) && p < |v.rows| && p in v.decided
    requires if v.decided[p] == Release then v.rows[p].state == Settled else v.rows[p].state == Cancelled || v.rows[p].state == Expired
    ensures var w := v.(intents := v.intents - {p}); Sound(w) && Onward(v, w)
  {
    var w := v.(intents := v.intents - {p});
    RowsMayMove(v, w);
    hide JournalSound;
    forall q: nat | q < |v.rows|
      ensures RowSound(w, q)
    {
      assert RowSound(v, q);
    }
  }

  // ----------------------------------------------------------- a run into the conflict

  const EMPTY: Vault := Vault([], {}, [], [], {}, map[], {})

  lemma EmptySound()
    ensures Sound(EMPTY)
  {}

  /** One payment's row and wallet from its creation to a recognised hold. */
  lemma HeldVault(r: Row) returns (v: Vault)
    requires 0 < r.amount && r.payer != r.payee && r.state == Created
    ensures Sound(v) && |v.rows| == 1 && v.rows[0] == r.(state := Held) && v.wallets == [Locked]
    ensures v.keys == {Key(0, Books.Held)} && v.decided == map[] && v.intents == {}
  {
    EmptySound();
    InsertKeeps(EMPTY, r);
    var a := Insert(EMPTY, r);
    IssueKeeps(a, 0);
    var b := a.(wallets := a.wallets[0 := Open]);
    DriftKeeps(b, [Locked]);
    var c := b.(wallets := [Locked]);
    assert RowSound(c, 0);
    PostKeeps(c, 0, Books.Held);
    var d := Post(c, 0, Books.Held);
    FlipKeeps(d, 0, {Created}, Held);
    v := Flip(d, 0, {Created}, Held);
    assert v.rows == [r.(state := Held)];
  }

  /** It happens. From any vault with a held payment that nobody has decided: the
      executor commits its release, the wallet lets the hold die before the preimage
      leaves, and the next observation, entry first and then the row, gives back
      what the journal calls settled. */
  lemma ConflictHappens(v: Vault, p: nat) returns (decided: Vault, died: Vault, noted: Vault, observed: Vault)
    requires Sound(v) && Decisive(v) && p < |v.rows| && v.rows[p].state == Held && v.wallets[p] == Locked && p !in v.decided
    ensures decided == Decided(v, p, Release, true)
    ensures died == decided.(wallets := v.wallets[p := Dropped]) && Drifted(decided.wallets, died.wallets, died.revealed)
    ensures noted == Post(died, p, Books.GivenBack) && observed == Flip(noted, p, {Created, Held}, Cancelled)
    ensures Sound(decided) && Sound(died) && Sound(noted) && Sound(observed)
    ensures Conflicted(observed, p) && observed.rows[p].state == Cancelled && p in observed.intents
  {
    assert RowSound(v, p);
    DecidedKeeps(v, p, Release, true);
    decided := Decided(v, p, Release, true);
    DriftKeeps(decided, v.wallets[p := Dropped]);
    died := decided.(wallets := v.wallets[p := Dropped]);
    assert RowSound(died, p);
    PostKeeps(died, p, Books.GivenBack);
    noted := Post(died, p, Books.GivenBack);
    assert RowSound(noted, p);
    FlipKeeps(noted, p, {Created, Held}, Cancelled);
    observed := Flip(noted, p, {Created, Held}, Cancelled);
  }

  /** The whole run, from the row's insertion on. */
  lemma ConflictFromScratch(r: Row) returns (v: Vault)
    requires 0 < r.amount && r.payer != r.payee && r.state == Created
    ensures Sound(v) && |v.rows| == 1 && Conflicted(v, 0)
  {
    var held := HeldVault(r);
    var _, _, _, observed := ConflictHappens(held, 0);
    v := observed;
  }
}
