/** How the effect loop treats the groups of effects the machine emits. */
module EffectRuns {
  import opened Economics
  import opened Shipment
  import opened StateMachine
  import opened Books
  import opened Executor

  lemma {:induction false} RunConcat(c: Cursor, ctx: Context, xs: seq<Effect>, ys: seq<Effect>)
    ensures Run(c, ctx, xs + ys) ==
            match Run(c, ctx, xs) case Err(f) => Err(f) case Ok(d) => Run(d, ctx, ys)
    decreases |xs|
  {
    if xs == [] {
      assert xs + ys == ys;
    } else {
      assert (xs + ys)[1..] == xs[1..] + ys;
      match Apply(c, ctx, xs[0])
      case Err(_) =>
      case Ok(d) => RunConcat(d, ctx, xs[1..], ys);
    }
  }

  lemma Run1(c: Cursor, ctx: Context, e: Effect)
    ensures Run(c, ctx, [e]) == Apply(c, ctx, e)
  {
    match Apply(c, ctx, e)
    case Err(_) =>
    case Ok(d) => assert Run(d, ctx, [e][1..]) == Ok(d);
  }

  lemma RunCons(c: Cursor, ctx: Context, e: Effect, rest: seq<Effect>, d: Cursor)
    requires Apply(c, ctx, e) == Ok(d)
    ensures Run(c, ctx, [e] + rest) == Run(d, ctx, rest)
  {
    assert ([e] + rest)[1..] == rest;
  }

  /** An undecided hold whose commitment the ledger has (or has not) recognised. */
  ghost predicate Open(b: Books, p: nat, recognised: bool) {
    && p < |b.payments| && b.payments[p].verdict == Pending
    && (Recognised(b, p, Held) <==> recognised)
  }

  /** A release or refund paired with its entry. */
  lemma RunResolve(c: Cursor, ctx: Context, p: nat, v: Verdict, event: LedgerEvent, ref: Ref, who: UserId, amount: Msat)
    returns (d: Cursor)
    requires Audited(c.books) && Open(c.books, p, true) && amount == c.books.payments[p].amount
    requires v == Released ==> LedgerKind(event) == Some(Settled) && who == c.books.payments[p].payee
    requires v == Refunded ==> LedgerKind(event) == Some(GivenBack) && who == c.books.payments[p].payer
    requires v != Pending
    ensures Run(c, ctx, [if v == Released then ReleasePayment(p) else RefundPayment(p),
                         PostEntry(event, ref, [Posting(Commitment, -amount), Posting(Wallet(who), amount)])]) == Ok(d)
    ensures Audited(d.books)
    ensures d.books.payments == c.books.payments[p := c.books.payments[p].(verdict := v)]
    ensures d.books.keys == c.books.keys + {PaymentKey(p, if v == Released then Settled else GivenBack)}
    ensures d.books.idem == c.books.idem && d.books.timers == c.books.timers && d.books.chain == c.books.chain
  {
    var verb := if v == Released then ReleasePayment(p) else RefundPayment(p);
    var how := if v == Released then Settled else GivenBack;
    var postings := [Posting(Commitment, -amount), Posting(Wallet(who), amount)];
    var entry := Entry(PaymentKey(p, how), event, ref, postings);
    assert postings == PaymentPostings(c.books.payments[p], how);
    ResolveKeepsAudit(c.books, p, v, entry);
    PostingsOnCommitment(c.books.payments[p], how);
    var mid := Cursor(Decide(c.books, p, v), Some(verb));
    d := Cursor(Post(mid.books, entry), Some(PostEntry(event, ref, postings)));
    RunCons(c, ctx, verb, [PostEntry(event, ref, postings)], mid);
    Run1(mid, ctx, PostEntry(event, ref, postings));
    assert [verb] + [PostEntry(event, ref, postings)] == [verb, PostEntry(event, ref, postings)];
  }

  /** One hold's end: the verb, and the entry that goes with it. */
  datatype Resolution = Resolution(p: nat, verdict: Verdict, event: LedgerEvent, ref: Ref, who: UserId, amount: Msat)

  function PairOf(r: Resolution): seq<Effect> {
    [if r.verdict == Released then ReleasePayment(r.p) else RefundPayment(r.p),
     PostEntry(r.event, r.ref, [Posting(Commitment, -r.amount), Posting(Wallet(r.who), r.amount)])]
  }

  function HowOf(r: Resolution): Recognition {
    if r.verdict == Released then Settled else GivenBack
  }

  ghost predicate Resolvable(b: Books, r: Resolution) {
    && Open(b, r.p, true) && r.amount == b.payments[r.p].amount && r.verdict != Pending
    && LedgerKind(r.event) == Some(HowOf(r))
    && r.who == if r.verdict == Released then b.payments[r.p].payee else b.payments[r.p].payer
  }

  lemma RunTwo(c: Cursor, ctx: Context, q: Resolution, r: Resolution) returns (d: Cursor)
    requires Audited(c.books) && Resolvable(c.books, q) && Resolvable(c.books, r) && q.p != r.p
    ensures Run(c, ctx, PairOf(q) + PairOf(r)) == Ok(d)
    ensures Audited(d.books)
    ensures d.books.payments == c.books.payments[q.p := c.books.payments[q.p].(verdict := q.verdict)]
                                                [r.p := c.books.payments[r.p].(verdict := r.verdict)]
    ensures d.books.keys == c.books.keys + {PaymentKey(q.p, HowOf(q)), PaymentKey(r.p, HowOf(r))}
    ensures d.books.idem == c.books.idem && d.books.timers == c.books.timers && d.books.chain == c.books.chain
  {
    hide Audited, Run;
    var mid := RunResolve(c, ctx, q.p, q.verdict, q.event, q.ref, q.who, q.amount);
    d := RunResolve(mid, ctx, r.p, r.verdict, r.event, r.ref, r.who, r.amount);
    RunConcat(c, ctx, PairOf(q), PairOf(r));
  }

  lemma RunThree(c: Cursor, ctx: Context, q: Resolution, r: Resolution, s: Resolution) returns (d: Cursor)
    requires Audited(c.books) && Resolvable(c.books, q) && Resolvable(c.books, r) && Resolvable(c.books, s)
    requires q.p != r.p && r.p != s.p && q.p != s.p
    ensures Run(c, ctx, PairOf(q) + PairOf(r) + PairOf(s)) == Ok(d)
    ensures Audited(d.books)
    ensures d.books.payments == c.books.payments[q.p := c.books.payments[q.p].(verdict := q.verdict)]
                                                [r.p := c.books.payments[r.p].(verdict := r.verdict)]
                                                [s.p := c.books.payments[s.p].(verdict := s.verdict)]
    ensures d.books.keys == c.books.keys + {PaymentKey(q.p, HowOf(q)), PaymentKey(r.p, HowOf(r)), PaymentKey(s.p, HowOf(s))}
    ensures d.books.idem == c.books.idem && d.books.timers == c.books.timers && d.books.chain == c.books.chain
  {
    hide Audited, Run;
    var mid := RunTwo(c, ctx, q, r);
    d := RunResolve(mid, ctx, s.p, s.verdict, s.event, s.ref, s.who, s.amount);
    RunConcat(c, ctx, PairOf(q) + PairOf(r), PairOf(s));
  }

  /** A refund of a hold that never became a commitment. */
  lemma RunDrop(c: Cursor, ctx: Context, p: nat) returns (d: Cursor)
    requires Audited(c.books) && Open(c.books, p, false)
    ensures Run(c, ctx, [RefundPayment(p)]) == Ok(d)
    ensures Audited(d.books)
    ensures d.books == Decide(c.books, p, Refunded)
  {
    Run1(c, ctx, RefundPayment(p));
    DropKeepsAudit(c.books, p);
    d := Cursor(Decide(c.books, p, Refunded), Some(RefundPayment(p)));
  }

  /** A held entry for a payment created by an earlier transition. */
  lemma RunHeld(c: Cursor, ctx: Context, p: nat, event: LedgerEvent, ref: Ref, payer: UserId, amount: Msat)
    returns (d: Cursor)
    requires Audited(c.books) && Open(c.books, p, false)
    requires amount == c.books.payments[p].amount && payer == c.books.payments[p].payer
    requires DeriveKey(c, ctx, event) == Some(PaymentKey(p, Held))
    ensures Run(c, ctx, [HeldEntry(event, ref, payer, amount)]) == Ok(d)
    ensures Audited(d.books)
    ensures d.prev.Some? && d.prev.value.PostEntry?
    ensures d.books.keys == c.books.keys + {PaymentKey(p, Held)}
    ensures d.books.payments == c.books.payments && d.books.idem == c.books.idem
    ensures d.books.timers == c.books.timers && d.books.chain == c.books.chain
  {
    var e := HeldEntry(event, ref, payer, amount);
    var entry := Entry(PaymentKey(p, Held), event, ref, e.postings);
    assert e.postings == PaymentPostings(c.books.payments[p], Held);
    PostHeldKeepsAudit(c.books, p, entry);
    PostingsOnCommitment(c.books.payments[p], Held);
    Run1(c, ctx, e);
    d := Cursor(Post(c.books, entry), Some(e));
  }

  lemma RunCreate(c: Cursor, ctx: Context, purpose: Purpose, payer: UserId, payee: UserId, amount: Msat, ref: Ref)
    returns (d: Cursor)
    requires Audited(c.books) && 0 < amount && payer != payee && (purpose, ref) !in c.books.idem
    ensures Run(c, ctx, [CreatePayment(purpose, payer, payee, amount, ref)]) == Ok(d)
    ensures Audited(d.books)
    ensures d.prev == Some(CreatePayment(purpose, payer, payee, amount, ref))
    ensures d.books == Register(c.books, Payment(purpose, payer, payee, amount, ref, Pending))
    ensures Open(d.books, |c.books.payments|, false)
  {
    var e := CreatePayment(purpose, payer, payee, amount, ref);
    Run1(c, ctx, e);
    var p := Payment(purpose, payer, payee, amount, ref, Pending);
    RegisterKeepsAudit(c.books, p);
    d := Cursor(Register(c.books, p), Some(e));
  }

  /** The escrow refuses a hold that would pay its own payer, and with it the
      whole transition. */
  lemma RunRefused(c: Cursor, ctx: Context, purpose: Purpose, payer: UserId, payee: UserId, amount: Msat, ref: Ref,
                   rest: seq<Effect>)
    requires payer == payee
    ensures Run(c, ctx, [CreatePayment(purpose, payer, payee, amount, ref)] + rest) == Err(EscrowRefused)
  {
    assert Apply(c, ctx, CreatePayment(purpose, payer, payee, amount, ref)) == Err(EscrowRefused);
  }

  /** A hold created and recognised by the same transition. */
  lemma RunCreateHeld(c: Cursor, ctx: Context, event: LedgerEvent, purpose: Purpose, payer: UserId, payee: UserId,
                      amount: Msat, ref: Ref)
    returns (d: Cursor)
    requires Audited(c.books) && 0 < amount && payer != payee && (purpose, ref) !in c.books.idem
    requires LedgerKind(event) == Some(Held)
    ensures Run(c, ctx, [CreatePayment(purpose, payer, payee, amount, ref), HeldEntry(event, ref, payer, amount)]) == Ok(d)
    ensures Audited(d.books)
    ensures d.books.payments == c.books.payments + [Payment(purpose, payer, payee, amount, ref, Pending)]
    ensures d.books.keys == c.books.keys + {PaymentKey(|c.books.payments|, Held)}
    ensures d.books.idem == c.books.idem[(purpose, ref) := |c.books.payments|]
    ensures d.books.timers == c.books.timers && d.books.chain == c.books.chain
    ensures Open(d.books, |c.books.payments|, true)
  {
    var create := CreatePayment(purpose, payer, payee, amount, ref);
    var mid := RunCreate(c, ctx, purpose, payer, payee, amount, ref);
    Run1(c, ctx, create);
    d := RunHeld(mid, ctx, |c.books.payments|, event, ref, payer, amount);
    RunCons(c, ctx, create, [HeldEntry(event, ref, payer, amount)], mid);
    assert [create] + [HeldEntry(event, ref, payer, amount)] == [create, HeldEntry(event, ref, payer, amount)];
  }

  lemma RunFee(c: Cursor, ctx: Context, reason: FeeReason, event: LedgerEvent, ref: Ref, payer: UserId,
               payee: UserId, amount: Msat)
    returns (d: Cursor)
    requires Audited(c.books) && FeeKey(ref, reason) !in c.books.keys
    ensures Run(c, ctx, PayNow(reason, event, ref, payer, payee, amount)) == Ok(d)
    ensures Audited(d.books)
    ensures d.books.keys == c.books.keys + (if amount == 0 then {} else {FeeKey(ref, reason)})
    ensures d.books.payments == c.books.payments && d.books.idem == c.books.idem
    ensures d.books.timers == c.books.timers && d.books.chain == c.books.chain
  {
    hide Audited, Run;
    if amount == 0 {
      d := RunTail(c, ctx, []);
    } else {
      var pay := InstantPayment(payer, payee, amount, reason, ref);
      var post := InstantEntry(event, ref, payer, payee, amount);
      var mid := Cursor(c.books, Some(pay));
      var entry := Entry(FeeKey(ref, reason), event, ref, post.postings);
      TwoPostings(post.postings[0], post.postings[1]);
      assert post.postings == [post.postings[0], post.postings[1]];
      PostFeeKeepsAudit(c.books, entry);
      d := Cursor(Post(c.books, entry), Some(post));
      RunCons(c, ctx, pay, [post], mid);
      Run1(mid, ctx, post);
      assert [pay] + [post] == [pay, post];
    }
  }

  /** Effects that touch neither payments nor ledger. */
  predicate Quiet(e: Effect) {
    e.AppendEvent? || e.QueueEmail? || e.Schedule? || e.Unschedule? || e.RotatePickupOtp? || e.RotateClaimToken?
  }

  function TimerStep(timers: map<TimerKey, Time>, e: Effect): map<TimerKey, Time> {
    match e
    case Schedule(k, id, at) => timers[TimerKey(k, id) := at]
    case Unschedule(k, id) => timers - {TimerKey(k, id)}
    case _ => timers
  }

  function ChainStep(chain: seq<CustodyEvent>, e: Effect): seq<CustodyEvent> {
    if e.AppendEvent? then chain + [e.custody] else chain
  }

  function TimersAfter(timers: map<TimerKey, Time>, es: seq<Effect>): map<TimerKey, Time>
    decreases |es|
  {
    if es == [] then timers else TimersAfter(TimerStep(timers, es[0]), es[1..])
  }

  function ChainAfter(chain: seq<CustodyEvent>, es: seq<Effect>): seq<CustodyEvent>
    decreases |es|
  {
    if es == [] then chain else ChainAfter(ChainStep(chain, es[0]), es[1..])
  }

  lemma {:induction false} RunQuietEffects(c: Cursor, ctx: Context, es: seq<Effect>) returns (d: Cursor)
    requires Audited(c.books) && forall e <- es :: Quiet(e)
    ensures Run(c, ctx, es) == Ok(d)
    ensures Audited(d.books)
    ensures d.books == c.books.(timers := TimersAfter(c.books.timers, es), chain := ChainAfter(c.books.chain, es))
    decreases |es|
  {
    if es == [] {
      d := c;
    } else {
      assert Quiet(es[0]);
      var b := c.books.(timers := TimerStep(c.books.timers, es[0]), chain := ChainStep(c.books.chain, es[0]));
      assert ApplyToBooks(c, ctx, es[0]) == Ok(b);
      OtherWritesKeepAudit(c.books, b);
      d := RunQuietEffects(Cursor(b, Some(es[0])), ctx, es[1..]);
    }
  }

  /** The quiet tail of a transition, spelled out for up to five effects. */
  lemma RunTail(c: Cursor, ctx: Context, es: seq<Effect>) returns (d: Cursor)
    requires Audited(c.books) && |es| <= 5 && forall e <- es :: Quiet(e)
    ensures Run(c, ctx, es) == Ok(d)
    ensures Audited(d.books)
    ensures d.books == c.books.(timers := d.books.timers, chain := d.books.chain)
    ensures d.books.timers ==
            var t1 := if |es| > 0 then TimerStep(c.books.timers, es[0]) else c.books.timers;
            var t2 := if |es| > 1 then TimerStep(t1, es[1]) else t1;
            var t3 := if |es| > 2 then TimerStep(t2, es[2]) else t2;
            var t4 := if |es| > 3 then TimerStep(t3, es[3]) else t3;
            if |es| > 4 then TimerStep(t4, es[4]) else t4
    ensures d.books.chain ==
            var t1 := if |es| > 0 then ChainStep(c.books.chain, es[0]) else c.books.chain;
            var t2 := if |es| > 1 then ChainStep(t1, es[1]) else t1;
            var t3 := if |es| > 2 then ChainStep(t2, es[2]) else t2;
            var t4 := if |es| > 3 then ChainStep(t3, es[3]) else t3;
            if |es| > 4 then ChainStep(t4, es[4]) else t4
  {
    d := RunQuietEffects(c, ctx, es);
    UnrollTail(c.books.timers, c.books.chain, es);
  }

  lemma UnrollTail(timers: map<TimerKey, Time>, chain: seq<CustodyEvent>, es: seq<Effect>)
    requires |es| <= 5
    ensures TimersAfter(timers, es) == if es == [] then timers else TimersAfter(TimerStep(timers, es[0]), es[1..])
    ensures TimersAfter(timers, es) ==
            var t1 := if |es| > 0 then TimerStep(timers, es[0]) else timers;
            var t2 := if |es| > 1 then TimerStep(t1, es[1]) else t1;
            var t3 := if |es| > 2 then TimerStep(t2, es[2]) else t2;
            var t4 := if |es| > 3 then TimerStep(t3, es[3]) else t3;
            if |es| > 4 then TimerStep(t4, es[4]) else t4
    ensures ChainAfter(chain, es) ==
            var t1 := if |es| > 0 then ChainStep(chain, es[0]) else chain;
            var t2 := if |es| > 1 then ChainStep(t1, es[1]) else t1;
            var t3 := if |es| > 2 then ChainStep(t2, es[2]) else t2;
            var t4 := if |es| > 3 then ChainStep(t3, es[3]) else t3;
            if |es| > 4 then ChainStep(t4, es[4]) else t4
    decreases |es|
  {
    if es != [] {
      UnrollTail(TimerStep(timers, es[0]), ChainStep(chain, es[0]), es[1..]);
    }
  }
}
