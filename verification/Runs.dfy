/** Whole runs of one shipment: from its creation, through any sequence of
    commands, every guarantee the protocol makes. */
module Runs {
  import opened Economics
  import opened Shipment
  import opened StateMachine
  import opened Books
  import opened Executor
  import opened EffectRuns
  import opened Invariant
  import opened QuietSteps
  import opened LegSteps
  import opened ClaimSteps
  import opened EndSteps

  /** Any issued command keeps the invariant; it never trips over itself. */
  lemma StepKeeps(net: Network, w: World, cmd: Command)
    requires Inv(net, w) && Issued(w, cmd)
    ensures Kept(net, Execute(net, w, cmd))
  {
    hide Inv, Kept, Issued;
    match EventOf(cmd)
    case Create => CreateRefused(net, w, cmd);
    case OriginHubAccept(_, _) => OriginHubAcceptKeeps(net, w, cmd);
    case OriginCheckin(_, _) => OriginCheckinKeeps(net, w, cmd);
    case RequestLeg(_, _, _, _, _, _, _, _, _) => RequestLegKeeps(net, w, cmd);
    case DepositAccept(_, _, _, _) => DepositAcceptKeeps(net, w, cmd);
    case DepositReject(_, _) => RequestRejectedKeeps(net, w, cmd);
    case DepositRequestExpired(_) => RequestExpiredKeeps(net, w, cmd);
    case DepositRequestCancel => RequestWithdrawnKeeps(net, w, cmd);
    case LegFunded(_, _) => LegFundedKeeps(net, w, cmd);
    case LegFundingExpired(_) => LegFundingExpiredKeeps(net, w, cmd);
    case PickupCheckout(_, _, _, _, _) => PickupCheckoutKeeps(net, w, cmd);
    case PickupTimeout(_) => PickupTimeoutKeeps(net, w, cmd);
    case LegCheckin(_, _, _, _, _) => LegCheckinKeeps(net, w, cmd);
    case LegReturn(_, _, _, _, _) => LegReturnKeeps(net, w, cmd);
    case RecipientPickup(_) => RecipientPickupKeeps(net, w, cmd);
    case RecipientClaim(_, _, _, _, _, _, _) => RecipientClaimKeeps(net, w, cmd);
    case ClaimFunded(_) => ClaimFundedKeeps(net, w, cmd);
    case ClaimFundingExpired(_) => ClaimFundingExpiredKeeps(net, w, cmd);
    case RecipientClaimedPickup(_) => RecipientClaimedPickupKeeps(net, w, cmd);
    case HandoffReject(_, _, _, _) => NotedKeeps(net, w, cmd);
    case StorageExpiry(_) => StorageExpiryKeeps(net, w, cmd);
    case TransitTimeout(_) => TransitTimeoutKeeps(net, w, cmd);
    case Boost(_, _) => NotedKeeps(net, w, cmd);
    case Reroute(_, _, _) => RerouteKeeps(net, w, cmd);
    case Cancel => CancelKeeps(net, w, cmd);
  }

  lemma CreateRefused(net: Network, w: World, cmd: Command)
    requires EventOf(cmd).Create?
    ensures Kept(net, Execute(net, w, cmd))
  {
    hide Inv;
  }

  /** How a shipment is created. */
  datatype Birth = Birth(sender: UserId, senderWallet: bool, originHub: HubId, destHub: HubId,
                         bond: Msat, offer: Msat, distance: Metres)

  function BornAs(net: Network, x: Birth): Result<World> {
    Genesis(net, x.sender, x.senderWallet, x.originHub, x.destHub, x.bond, x.offer, x.distance)
  }

  lemma BirthKeeps(net: Network, x: Birth)
    ensures Kept(net, BornAs(net, x))
  {
    var work := if x.offer < 0 then 0 else SplitCommitment(x.offer).work;
    var ctx := Context(x.sender, x.senderWallet, x.originHub, net.owner(x.originHub), x.destHub, x.bond, x.offer,
                       work, 0, None, None, None, None, None);
    if OnCreate(ctx).Accept? {
      NothingBooked();
      var d := RunTail(Cursor(EMPTY, None), ctx, OnCreate(ctx).effects);
      OtherWritesKeepAudit(EMPTY, d.books);
    }
  }

  lemma NothingBooked()
    ensures Audited(EMPTY)
  {}

  /** What a command makes of the world: a failed one changes nothing, except
      that the sweep deletes a timer whose event the machine rejects. */
  function Next(net: Network, w: World, cmd: Command): World {
    if !Issued(w, cmd) then w
    else
      match Execute(net, w, cmd)
      case Ok(v) => v
      case Err(f) =>
        if cmd.Fire? && f.Rejected? then w.(books := w.books.(timers := w.books.timers - {cmd.timer})) else w
  }

  function Play(net: Network, w: World, cmds: seq<Command>): World {
    if cmds == [] then w else Next(net, Play(net, w, cmds[..|cmds| - 1]), cmds[|cmds| - 1])
  }

  /** The worlds some run leads to. */
  ghost predicate Reachable(net: Network, w: World) {
    exists x: Birth, cmds: seq<Command> :: BornAs(net, x).Ok? && w == Play(net, BornAs(net, x).value, cmds)
  }

  /** A due timer's event is never stale: the machine accepts it, and nothing
      on the way can fail. */
  lemma DueTimerFires(net: Network, w: World, cmd: Command)
    requires Inv(net, w) && Issued(w, cmd) && cmd.Fire?
    ensures Execute(net, w, cmd).Ok?
  {
    DueTimerAccepted(net, w, cmd);
    hide Inv, Transition, Issued, Execute;
    match cmd.timer.kind
    case LegFundingWindow => LegFundingExpiredKeeps(net, w, cmd);
    case PickupWindow => PickupTimeoutKeeps(net, w, cmd);
    case TransitWindow => TransitTimeoutKeeps(net, w, cmd);
    case Storage => StorageExpiryKeeps(net, w, cmd);
    case ClaimFundingWindow => ClaimFundingExpiredKeeps(net, w, cmd);
    case DepositResponse => RequestExpiredKeeps(net, w, cmd);
  }

  lemma DueTimerAccepted(net: Network, w: World, cmd: Command)
    requires Inv(net, w) && Issued(w, cmd) && cmd.Fire?
    ensures Transition(w.state, EventOf(cmd), ContextOf(net, w)).Accept?
  {
    hide Audited, OnlyLivePending, RefsMinted, StayOk, LegOk, RequestOk, BonusOk, ClaimOk,
      RefundPendingLegHolds, RefundPendingClaimHolds, RefundFinalizationBonus, RefundHeldClaimHolds,
      DissolveAtStorageExpiry, RefundStayBond, SlashCarrierBond, RefundLegPayment, RefundArrivalBond;
  }

  lemma NextKeeps(net: Network, w: World, cmd: Command)
    requires Inv(net, w)
    ensures Inv(net, Next(net, w, cmd))
  {
    hide Inv, Issued, Execute;
    if Issued(w, cmd) {
      StepKeeps(net, w, cmd);
      if cmd.Fire? { DueTimerFires(net, w, cmd); }
    }
  }

  /** The invariant holds over every run. */
  lemma {:induction false} PlayKeeps(net: Network, w: World, cmds: seq<Command>)
    requires Inv(net, w)
    ensures Inv(net, Play(net, w, cmds))
  {
    hide Inv, Next;
    if cmds != [] {
      PlayKeeps(net, w, cmds[..|cmds| - 1]);
      NextKeeps(net, Play(net, w, cmds[..|cmds| - 1]), cmds[|cmds| - 1]);
    }
  }

  lemma ReachableKeeps(net: Network, w: World)
    requires Reachable(net, w)
    ensures Inv(net, w)
  {
    hide Inv, BornAs, Play;
    var x: Birth, cmds: seq<Command> :| BornAs(net, x).Ok? && w == Play(net, BornAs(net, x).value, cmds);
    BirthKeeps(net, x);
    PlayKeeps(net, BornAs(net, x).value, cmds);
  }
}
