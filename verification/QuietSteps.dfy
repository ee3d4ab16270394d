/** Events that move no money: they only touch rows, timers and the chain. */
module QuietSteps {
  import opened Economics
  import opened Shipment
  import opened StateMachine
  import opened Books
  import opened Executor
  import opened EffectRuns
  import opened Invariant

  /** Nothing about payments, keys or ledger differs. */
  predicate SameHolds(b: Books, d: Books) {
    d == b.(timers := d.timers, chain := d.chain)
  }

  /** A request may replace nothing, or disappear. */
  lemma RequestInv(net: Network, w: World, w': World)
    requires Inv(net, w) && w.state == AtHub && SameHolds(w.books, w'.books)
    requires w' == w.(request := w'.request, pool := w'.pool, minted := w'.minted, books := w'.books)
    requires (w'.request.None? && w'.minted == w.minted)
          || (w'.request.Some? && w.leg.None? && w.claim.None? && RequestOk(net, w', w'.request.value)
              && w'.minted == w.minted + {LegRef(w'.request.value.id)})
    requires w'.books.timers == ExpectedTimers(w')
    ensures Inv(net, w')
  {
    OtherWritesKeepAudit(w.books, w'.books);
    hide Audited;
  }

  lemma OriginCheckinInv(net: Network, w: World, w': World, deadline: Time)
    requires Inv(net, w) && w.state == AwaitingDropoff && SameHolds(w.books, w'.books)
    requires w' == w.(state := AtHub, stay := Some(w.stay.value.(storageDeadline := deadline)),
                      pool := w'.pool, books := w'.books)
    requires w'.books.timers == ExpectedTimers(w')
    ensures Inv(net, w')
  {
    OtherWritesKeepAudit(w.books, w'.books);
    hide Audited;
  }

  lemma OriginCheckinKeeps(net: Network, w: World, cmd: Command)
    requires Inv(net, w) && Issued(w, cmd) && EventOf(cmd).OriginCheckin?
    ensures Kept(net, Execute(net, w, cmd))
    ensures Transition(w.state, EventOf(cmd), ContextOf(net, w)).Accept? ==> Execute(net, w, cmd).Ok?
  {
    hide Audited, Run, OnlyLivePending, LegOk, BonusOk, ClaimOk, RequestOk, StayOk, RefsMinted;
    var e, ctx := EventOf(cmd), ContextOf(net, w);
    var outcome := OnOriginCheckin(w.state, e, ctx);
    if outcome.Accept? {
      var d := RunTail(Cursor(w.books, None), ctx, outcome.effects);
      var w' := Execute(net, w, cmd).value;
      assert w'.books.timers == ExpectedTimers(w');
      OriginCheckinInv(net, w, w', e.storageDeadline);
    }
  }

  lemma RequestLegKeeps(net: Network, w: World, cmd: Command)
    requires Inv(net, w) && Issued(w, cmd) && EventOf(cmd).RequestLeg?
    ensures Kept(net, Execute(net, w, cmd))
    ensures Transition(w.state, EventOf(cmd), ContextOf(net, w)).Accept? && LegRef(EventOf(cmd).legId) !in w.minted
        ==> Execute(net, w, cmd).Ok?
  {
    hide Audited, Run, OnlyLivePending, LegOk, BonusOk, ClaimOk, StayOk;
    var e, ctx := EventOf(cmd), ContextOf(net, w);
    var outcome := OnRequestLeg(w.state, e, ctx);
    if outcome.Accept? {
      if LegRef(e.legId) in w.minted {
        assert LegRef(e.legId) in MintedBy(e) * w.minted;
      } else {
        var d := RunTail(Cursor(w.books, None), ctx, outcome.effects);
        var w' := Execute(net, w, cmd).value;
        assert w'.books.timers == ExpectedTimers(w');
        RequestInv(net, w, w');
      }
    }
  }

  lemma RequestRejectedKeeps(net: Network, w: World, cmd: Command)
    requires Inv(net, w) && Issued(w, cmd) && EventOf(cmd).DepositReject?
    ensures Kept(net, Execute(net, w, cmd))
  {
    hide Audited, Run, OnlyLivePending, LegOk, BonusOk, ClaimOk, RequestOk, StayOk, RefsMinted;
    var e, ctx := EventOf(cmd), ContextOf(net, w);
    var outcome := OnDepositReject(w.state, e, ctx);
    if outcome.Accept? {
      var d := RunTail(Cursor(w.books, None), ctx, outcome.effects);
      var w' := Execute(net, w, cmd).value;
      assert w'.books.timers == ExpectedTimers(w');
      RequestInv(net, w, w');
    }
  }

  lemma RequestWithdrawnKeeps(net: Network, w: World, cmd: Command)
    requires Inv(net, w) && Issued(w, cmd) && EventOf(cmd).DepositRequestCancel?
    ensures Kept(net, Execute(net, w, cmd))
  {
    hide Audited, Run, OnlyLivePending, LegOk, BonusOk, ClaimOk, RequestOk, StayOk, RefsMinted;
    var e, ctx := EventOf(cmd), ContextOf(net, w);
    var outcome := OnDepositRequestCancel(w.state, ctx);
    if outcome.Accept? {
      var d := RunTail(Cursor(w.books, None), ctx, outcome.effects);
      var w' := Execute(net, w, cmd).value;
      assert w'.books.timers == ExpectedTimers(w');
      RequestInv(net, w, w');
    }
  }

  lemma RequestExpiredKeeps(net: Network, w: World, cmd: Command)
    requires Inv(net, w) && Issued(w, cmd) && EventOf(cmd).DepositRequestExpired?
    ensures Kept(net, Execute(net, w, cmd))
    ensures Transition(w.state, EventOf(cmd), ContextOf(net, w)).Accept? ==> Execute(net, w, cmd).Ok?
  {
    hide Audited, Run, OnlyLivePending, LegOk, BonusOk, ClaimOk, RequestOk, StayOk, RefsMinted;
    var e, ctx := EventOf(cmd), ContextOf(net, w);
    var outcome := OnDepositRequestExpired(w.state, e, ctx);
    if outcome.Accept? {
      var d := RunTail(Cursor(w.books, None), ctx, outcome.effects);
      var w' := Execute(net, w, cmd).value;
      assert w'.books.timers == ExpectedTimers(w');
      RequestInv(net, w, w');
    }
  }

  /** Nothing but the pool and the chain changes. */
  lemma NotedInv(net: Network, w: World, w': World)
    requires Inv(net, w) && SameHolds(w.books, w'.books) && w'.books.timers == w.books.timers
    requires w' == w.(pool := w'.pool, books := w'.books)
    ensures Inv(net, w')
  {
    OtherWritesKeepAudit(w.books, w'.books);
    hide Audited;
  }

  lemma NotedKeeps(net: Network, w: World, cmd: Command)
    requires Inv(net, w) && Issued(w, cmd)
    requires EventOf(cmd).HandoffReject? || EventOf(cmd).Boost?
    ensures Kept(net, Execute(net, w, cmd))
  {
    hide Audited, Run, OnlyLivePending, LegOk, BonusOk, ClaimOk, RequestOk, StayOk, RefsMinted;
    var e, ctx := EventOf(cmd), ContextOf(net, w);
    var outcome := Transition(w.state, e, ctx);
    if outcome.Accept? {
      var d := RunTail(Cursor(w.books, None), ctx, outcome.effects);
      var w' := Execute(net, w, cmd).value;
      NotedInv(net, w, w');
    }
  }
}
