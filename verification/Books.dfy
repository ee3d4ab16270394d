/** What the executor's transaction writes besides the aggregate's rows: the
    registry of conditional payments with the verbs issued on them, the shadow
    ledger, the armed timers and the custody chain; and the audit that the
    nightly reconciliation runs over the first two. */
module Books {
  import opened Economics
  import opened Shipment

  datatype Verdict = Pending | Released | Refunded

  datatype Payment = Payment(
    purpose: Purpose, payer: UserId, payee: UserId, amount: Msat, ref: Ref, verdict: Verdict)

  datatype Recognition = Held | Settled | GivenBack

  /** Deterministic idempotency keys: one per payment and recognition, one per fee. */
  datatype Key = PaymentKey(payment: nat, how: Recognition) | FeeKey(ref: Ref, reason: FeeReason)

  datatype Entry = Entry(key: Key, event: LedgerEvent, ref: Ref, postings: seq<Posting>)

  datatype TimerKey = TimerKey(kind: Timeout, refId: Id)

  datatype Books = Books(
    payments: seq<Payment>,
    keys: set<Key>,
    ledger: seq<Entry>,
    collisions: nat,
    idem: map<(Purpose, Ref), nat>,
    timers: map<TimerKey, Time>,
    chain: seq<CustodyEvent>)

  const EMPTY: Books := Books([], {}, [], 0, map[], map[], [])

  /** The postings the coordinator writes for a payment when its wallet reports
      the hold held, settled, or given back to the payer. */
  function PaymentPostings(p: Payment, how: Recognition): seq<Posting> {
    match how
    case Held => [Posting(Wallet(p.payer), -p.amount), Posting(Commitment, p.amount)]
    case Settled => [Posting(Commitment, -p.amount), Posting(Wallet(p.payee), p.amount)]
    case GivenBack => [Posting(Commitment, -p.amount), Posting(Wallet(p.payer), p.amount)]
  }

  function Total(postings: seq<Posting>): Msat {
    if postings == [] then 0 else postings[0].amount + Total(postings[1..])
  }

  function OnCommitment(postings: seq<Posting>): Msat {
    if postings == [] then 0
    else (if postings[0].account == Commitment then postings[0].amount else 0) + OnCommitment(postings[1..])
  }

  /** Balance of the shipment's commitment account: the sum of its postings. */
  function Balance(ledger: seq<Entry>): Msat {
    if ledger == [] then 0
    else Balance(ledger[..|ledger| - 1]) + OnCommitment(ledger[|ledger| - 1].postings)
  }

  predicate Recognised(b: Books, p: nat, how: Recognition) {
    PaymentKey(p, how) in b.keys
  }

  /** The per-payment audit: the entries of a payment match its fate. */
  predicate PaymentAudit(b: Books, p: nat)
    requires p < |b.payments|
  {
    match b.payments[p].verdict
    case Pending => !Recognised(b, p, Settled) && !Recognised(b, p, GivenBack)
    case Released => Recognised(b, p, Held) && Recognised(b, p, Settled) && !Recognised(b, p, GivenBack)
    case Refunded => !Recognised(b, p, Settled) && (Recognised(b, p, Held) <==> Recognised(b, p, GivenBack))
  }

  /** What payment `p` keeps committed: its amount while held and undecided. */
  function InFlight(b: Books, p: nat): Msat
    requires p < |b.payments|
  {
    if b.payments[p].verdict == Pending && Recognised(b, p, Held) then b.payments[p].amount else 0
  }

  function InFlightUpTo(b: Books, n: nat): Msat
    requires n <= |b.payments|
  {
    if n == 0 then 0 else InFlightUpTo(b, n - 1) + InFlight(b, n - 1)
  }

  /** The whole audit, with what makes two writers of one ledger safe: every
      entry under a payment's key says what the coordinator would say, no key
      ever came up twice, and the commitment account balances to the holds in
      flight. */
  ghost predicate Audited(b: Books) {
    && PaymentsAudited(b)
    && LedgerSound(b)
    && b.collisions == 0
    && Balance(b.ledger) == InFlightUpTo(b, |b.payments|)
  }

  ghost predicate PaymentsAudited(b: Books) {
    forall p: nat :: p < |b.payments| ==> PaymentAudit(b, p)
  }

  ghost predicate LedgerSound(b: Books) {
    && (forall k <- b.keys :: k.PaymentKey? ==> k.payment < |b.payments|)
    && (forall e <- b.ledger :: e.key in b.keys && EntrySound(b, e))
    && (forall i, j :: 0 <= i < j < |b.ledger| ==> b.ledger[i].key != b.ledger[j].key)
  }

  predicate EntrySound(b: Books, e: Entry) {
    e.key.PaymentKey? ==>
      e.key.payment < |b.payments| && e.postings == PaymentPostings(b.payments[e.key.payment], e.key.how)
  }

  // ----------------------------------------------------------- elementary writes

  function Register(b: Books, p: Payment): Books {
    b.(payments := b.payments + [p], idem := b.idem[(p.purpose, p.ref) := |b.payments|])
  }

  function Decide(b: Books, p: nat, v: Verdict): Books
    requires p < |b.payments|
  {
    b.(payments := b.payments[p := b.payments[p].(verdict := v)])
  }

  /** Idempotent by key: a key already posted under is a no-op, counted here. */
  function Post(b: Books, e: Entry): Books {
    if e.key in b.keys then b.(collisions := b.collisions + 1)
    else b.(keys := b.keys + {e.key}, ledger := b.ledger + [e])
  }

  // ----------------------------------------------------------- their effect on the audit

  lemma {:induction false} InFlightFrame(b: Books, c: Books, n: nat, except: nat, delta: Msat)
    requires n <= |b.payments| && n <= |c.payments|
    requires forall p: nat :: p < n && p != except ==> InFlight(b, p) == InFlight(c, p)
    requires except < n ==> InFlight(c, except) == InFlight(b, except) + delta
    ensures InFlightUpTo(c, n) == InFlightUpTo(b, n) + (if except < n then delta else 0)
  {
    if n > 0 {
      InFlightFrame(b, c, n - 1, except, delta);
    }
  }

  lemma BalanceSnoc(ledger: seq<Entry>, e: Entry)
    ensures Balance(ledger + [e]) == Balance(ledger) + OnCommitment(e.postings)
  {
    assert (ledger + [e])[..|ledger|] == ledger;
  }

  lemma TwoPostings(x: Posting, y: Posting)
    ensures Total([x, y]) == x.amount + y.amount
    ensures OnCommitment([x, y]) ==
            (if x.account == Commitment then x.amount else 0) + (if y.account == Commitment then y.amount else 0)
  {
    assert [x, y][1..] == [y] && [y][1..] == [];
    assert Total([y]) == y.amount;
    assert OnCommitment([y]) == if y.account == Commitment then y.amount else 0;
  }

  lemma PostingsOnCommitment(p: Payment, how: Recognition)
    ensures OnCommitment(PaymentPostings(p, how)) == if how == Held then p.amount else -p.amount
    ensures Total(PaymentPostings(p, how)) == 0
  {
    var ps := PaymentPostings(p, how);
    TwoPostings(ps[0], ps[1]);
    assert ps == [ps[0], ps[1]];
  }

  lemma RegisterKeepsAudit(b: Books, p: Payment)
    requires Audited(b) && p.verdict == Pending
    ensures Audited(Register(b, p))
    ensures forall how :: !Recognised(b, |b.payments|, how)
  {
    var c := Register(b, p);
    forall q: nat | q < |c.payments|
      ensures PaymentAudit(c, q)
    {
      assert q < |b.payments| ==> PaymentAudit(b, q);
    }
    InFlightFrame(b, c, |b.payments|, |b.payments|, 0);
  }

  /** A fee entry moves wallets only. */
  lemma PostFeeKeepsAudit(b: Books, e: Entry)
    requires Audited(b) && e.key.FeeKey? && e.key !in b.keys && OnCommitment(e.postings) == 0
    ensures Audited(Post(b, e))
  {
    var c := Post(b, e);
    forall q: nat | q < |c.payments|
      ensures PaymentAudit(c, q)
    {
      assert PaymentAudit(b, q);
    }
    BalanceSnoc(b.ledger, e);
    InFlightFrame(b, c, |b.payments|, |b.payments|, 0);
  }

  lemma PostHeldKeepsAudit(b: Books, p: nat, e: Entry)
    requires Audited(b) && p < |b.payments| && b.payments[p].verdict == Pending && !Recognised(b, p, Held)
    requires e.key == PaymentKey(p, Held) && e.postings == PaymentPostings(b.payments[p], Held)
    ensures Audited(Post(b, e))
  {
    var c := Post(b, e);
    forall q: nat | q < |c.payments|
      ensures PaymentAudit(c, q)
    {
      assert PaymentAudit(b, q);
    }
    BalanceSnoc(b.ledger, e);
    PostingsOnCommitment(b.payments[p], Held);
    InFlightFrame(b, c, |b.payments|, p, b.payments[p].amount);
  }

  /** The ledger says nothing about verdicts. */
  lemma VerdictsDoNotMatter(b: Books, p: nat, v: Verdict)
    requires LedgerSound(b) && p < |b.payments|
    ensures LedgerSound(Decide(b, p, v))
  {
    forall e | e in b.ledger
      ensures EntrySound(Decide(b, p, v), e)
    {
      assert EntrySound(b, e);
    }
  }

  /** A verb and the entry that goes with it. */
  ghost predicate Resolves(b: Books, p: nat, v: Verdict, e: Entry) {
    && p < |b.payments| && b.payments[p].verdict == Pending && Recognised(b, p, Held)
    && (v == Released || v == Refunded)
    && e.key == PaymentKey(p, if v == Released then Settled else GivenBack)
    && e.postings == PaymentPostings(b.payments[p], e.key.how)
  }

  lemma ResolvedPayments(b: Books, p: nat, v: Verdict, e: Entry)
    requires PaymentsAudited(b) && Resolves(b, p, v, e)
    ensures e.key !in b.keys && PaymentsAudited(Post(Decide(b, p, v), e))
  {
    assert PaymentAudit(b, p);
    var c := Post(Decide(b, p, v), e);
    forall q: nat | q < |c.payments|
      ensures PaymentAudit(c, q)
    {
      assert PaymentAudit(b, q);
    }
  }

  lemma ResolvedBalance(b: Books, p: nat, v: Verdict, e: Entry)
    requires Resolves(b, p, v, e) && e.key !in b.keys && Balance(b.ledger) == InFlightUpTo(b, |b.payments|)
    ensures var c := Post(Decide(b, p, v), e); Balance(c.ledger) == InFlightUpTo(c, |c.payments|)
  {
    var c := Post(Decide(b, p, v), e);
    BalanceSnoc(b.ledger, e);
    PostingsOnCommitment(b.payments[p], e.key.how);
    InFlightFrame(b, c, |b.payments|, p, -b.payments[p].amount);
  }

  lemma ResolvedLedger(b: Books, p: nat, v: Verdict, e: Entry)
    requires LedgerSound(b) && Resolves(b, p, v, e) && e.key !in b.keys
    ensures LedgerSound(Post(Decide(b, p, v), e))
  {
    VerdictsDoNotMatter(b, p, v);
    hide PaymentPostings;
  }

  /** A verb together with its entry: the commitment of a held payment dissolves. */
  lemma ResolveKeepsAudit(b: Books, p: nat, v: Verdict, e: Entry)
    requires Audited(b) && Resolves(b, p, v, e)
    ensures e.key !in b.keys
    ensures Audited(Post(Decide(b, p, v), e))
  {
    hide PaymentsAudited, LedgerSound, Resolves, Balance, InFlightUpTo;
    ResolvedPayments(b, p, v, e);
    ResolvedLedger(b, p, v, e);
    ResolvedBalance(b, p, v, e);
  }

  /** Cancelling a hold that was never recognised needs no entry. */
  lemma DropKeepsAudit(b: Books, p: nat)
    requires Audited(b) && p < |b.payments| && b.payments[p].verdict == Pending && !Recognised(b, p, Held)
    ensures Audited(Decide(b, p, Refunded))
  {
    assert PaymentAudit(b, p);
    var c := Decide(b, p, Refunded);
    forall q: nat | q < |c.payments|
      ensures PaymentAudit(c, q)
    {
      assert PaymentAudit(b, q);
    }
    InFlightFrame(b, c, |b.payments|, p, 0);
  }

  /** Timers and chain are not audited. */
  lemma OtherWritesKeepAudit(b: Books, c: Books)
    requires Audited(b)
    requires c == b.(timers := c.timers, chain := c.chain)
    ensures Audited(c)
  {
    forall q: nat | q < |c.payments|
      ensures PaymentAudit(c, q)
    {
      assert PaymentAudit(b, q);
    }
    InFlightFrame(b, c, |b.payments|, |b.payments|, 0);
  }
}
