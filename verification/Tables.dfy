/** The aggregate as rows with statuses: what each event writes to the stay, leg
    and claim tables, and how the bundle loader finds the live rows again. */
module Tables {
  import opened Economics
  import opened Shipment
  import opened StateMachine
  import opened Books
  import opened Executor
  import opened Invariant
  import opened Runs
  import opened Replay

  datatype Status =
    | Reserved | Active | Vacated | Lapsed
    | Requested | PendingFunding | Booked | PickedUp | Completed | Returned | Failed | Funded

  datatype Row<+T> = Row(id: Id, status: Status, data: T)

  datatype StayData = StayData(hub: HubId, bondId: nat, storageDeadline: Option<Time>)

  datatype LegData = LegData(
    carrier: UserId, fromHub: HubId, toHub: HubId, pricing: LegPricing, responseDeadline: Time,
    fundingDeadline: Option<Time>, paymentId: Option<nat>, bondId: Option<nat>,
    pickupDeadline: Option<Time>, transitDeadline: Option<Time>)

  datatype ClaimData = ClaimData(
    claimant: UserId, stay: Id, payment: Msat, hubBonus: Msat, paymentId: nat, hubBonusId: Option<nat>, fundingDeadline: Time)

  /** Rows in insertion order, which is the order of their sequence numbers. */
  datatype Tables = Tables(stays: seq<Row<StayData>>, legs: seq<Row<LegData>>, claims: seq<Row<ClaimData>>)

  const LIVE_LEG: set<Status> := {PendingFunding, Booked, PickedUp}
  const LIVE_CLAIM: set<Status> := {PendingFunding, Status.Funded}

  // ----------------------------------------------------------- one table

  function Insert<T>(rows: seq<Row<T>>, r: Row<T>): seq<Row<T>> {
    rows + [r]
  }

  /** `update ... set ... where id = r.id` */
  function Set<T>(rows: seq<Row<T>>, r: Row<T>): seq<Row<T>> {
    seq(|rows|, i requires 0 <= i < |rows| => if rows[i].id == r.id then r else rows[i])
  }

  /** The last row in one of the statuses. */
  function LastIn<T>(rows: seq<Row<T>>, statuses: set<Status>): Option<Row<T>> {
    if rows == [] then None
    else if rows[|rows| - 1].status in statuses then Some(rows[|rows| - 1])
    else LastIn(rows[..|rows| - 1], statuses)
  }

  /** The first row in one of the statuses. */
  function FirstIn<T>(rows: seq<Row<T>>, statuses: set<Status>): Option<Row<T>> {
    if rows == [] then None
    else if rows[0].status in statuses then Some(rows[0])
    else FirstIn(rows[1..], statuses)
  }

  method FindLast<T>(rows: seq<Row<T>>, statuses: set<Status>) returns (r: Option<Row<T>>)
    ensures r == LastIn(rows, statuses)
  {
    var i := |rows|;
    assert rows[..i] == rows;
    while i > 0
      invariant 0 <= i <= |rows|
      invariant LastIn(rows, statuses) == LastIn(rows[..i], statuses)
    {
      assert rows[..i][..i - 1] == rows[..i - 1];
      i := i - 1;
      if rows[i].status in statuses { return Some(rows[i]); }
    }
    return None;
  }

  method FindFirst<T>(rows: seq<Row<T>>, statuses: set<Status>) returns (r: Option<Row<T>>)
    ensures r == FirstIn(rows, statuses)
  {
    for i := 0 to |rows|
      invariant FirstIn(rows, statuses) == FirstIn(rows[i..], statuses)
    {
      assert rows[i..][1..] == rows[i + 1..];
      if rows[i].status in statuses { return Some(rows[i]); }
    }
    return None;
  }

  /** The rows in those statuses are exactly the wanted one, if any. */
  ghost predicate Only<T(!new)>(rows: seq<Row<T>>, statuses: set<Status>, want: Option<Row<T>>) {
    && (forall r <- rows :: r.status in statuses ==> want == Some(r))
    && (want.Some? ==> want.value in rows && want.value.status in statuses)
  }

  ghost predicate Keyed<T(!new)>(rows: seq<Row<T>>) {
    forall r, s :: r in rows && s in rows && r.id == s.id ==> r == s
  }

  lemma {:induction false} OnlyIsLast<T(!new)>(rows: seq<Row<T>>, statuses: set<Status>, want: Option<Row<T>>)
    requires Only(rows, statuses, want)
    ensures LastIn(rows, statuses) == want
  {
    if rows != [] {
      var init, last := rows[..|rows| - 1], rows[|rows| - 1];
      assert rows == init + [last];
      if last.status !in statuses { OnlyIsLast(init, statuses, want); }
    }
  }

  lemma {:induction false} OnlyIsFirst<T(!new)>(rows: seq<Row<T>>, statuses: set<Status>, want: Option<Row<T>>)
    requires Only(rows, statuses, want)
    ensures FirstIn(rows, statuses) == want
  {
    if rows != [] {
      assert rows == [rows[0]] + rows[1..];
      if rows[0].status !in statuses { OnlyIsFirst(rows[1..], statuses, want); }
    }
  }

  /** At most one row is in those statuses. */
  ghost predicate Single<T(!new)>(rows: seq<Row<T>>, statuses: set<Status>) {
    Only(rows, statuses, LastIn(rows, statuses))
  }

  lemma FirstIsLast<T(!new)>(rows: seq<Row<T>>, statuses: set<Status>)
    requires Single(rows, statuses)
    ensures FirstIn(rows, statuses) == LastIn(rows, statuses)
  {
    OnlyIsFirst(rows, statuses, LastIn(rows, statuses));
  }

  lemma InsertSingle<T(!new)>(rows: seq<Row<T>>, r: Row<T>, statuses: set<Status>)
    requires Single(rows, statuses) && (r.status in statuses ==> LastIn(rows, statuses) == None)
    ensures Single(Insert(rows, r), statuses)
    ensures LastIn(Insert(rows, r), statuses) == if r.status in statuses then Some(r) else LastIn(rows, statuses)
  {
    assert Insert(rows, r)[..|rows|] == rows;
  }

  lemma InsertKeyed<T(!new)>(rows: seq<Row<T>>, r: Row<T>)
    requires Keyed(rows) && forall s <- rows :: s.id != r.id
    ensures Keyed(Insert(rows, r))
  {}

  lemma SetMembers<T(!new)>(rows: seq<Row<T>>, was: Row<T>, r: Row<T>)
    requires Keyed(rows) && was in rows && was.id == r.id
    ensures forall s :: s in Set(rows, r) <==> s == r || (s in rows && s != was)
  {
    var after := Set(rows, r);
    var k :| 0 <= k < |rows| && rows[k] == was;
    assert after[k] == r;
    forall s
      ensures s in after <==> s == r || (s in rows && s != was)
    {
      if s in rows && s != was {
        var i :| 0 <= i < |rows| && rows[i] == s;
        assert after[i] == s;
      }
      if s in after {
        var i :| 0 <= i < |after| && after[i] == s;
        assert rows[i] in rows;
      }
    }
  }

  lemma SetKeyed<T(!new)>(rows: seq<Row<T>>, was: Row<T>, r: Row<T>)
    requires Keyed(rows) && was in rows && was.id == r.id
    ensures Keyed(Set(rows, r))
  {
    SetMembers(rows, was, r);
  }

  lemma SetSingle<T(!new)>(rows: seq<Row<T>>, was: Row<T>, r: Row<T>, statuses: set<Status>)
    requires Keyed(rows) && was in rows && was.id == r.id && Single(rows, statuses)
    requires r.status in statuses ==> was.status in statuses || LastIn(rows, statuses) == None
    ensures Single(Set(rows, r), statuses)
    ensures LastIn(Set(rows, r), statuses) ==
            if r.status in statuses then Some(r)
            else if LastIn(rows, statuses) == Some(was) then None
            else LastIn(rows, statuses)
  {
    SetMembers(rows, was, r);
    var want := if r.status in statuses then Some(r)
                else if LastIn(rows, statuses) == Some(was) then None
                else LastIn(rows, statuses);
    assert Only(Set(rows, r), statuses, want);
    OnlyIsLast(Set(rows, r), statuses, want);
  }

  // ----------------------------------------------------------- the loader

  datatype Bundle = Bundle(
    current: Option<Row<StayData>>, arrival: Option<Row<StayData>>,
    leg: Option<Row<LegData>>, requested: Option<Row<LegData>>, claim: Option<Row<ClaimData>>)

  predicate AtSomeHub(s: State) {
    s == AtHub || s == LegBooked || s == AwaitingPickup || s == Claimed
  }

  function Load(s: State, t: Tables): Bundle {
    var active, reserved := LastIn(t.stays, {Active}), LastIn(t.stays, {Reserved});
    var leg := FirstIn(t.legs, LIVE_LEG);
    Bundle(if s == AwaitingDropoff then reserved else if AtSomeHub(s) then active else None,
           if leg.Some? then reserved else None,
           leg, FirstIn(t.legs, {Requested}), FirstIn(t.claims, LIVE_CLAIM))
  }

  method LoadBundle(s: State, t: Tables) returns (b: Bundle)
    ensures b == Load(s, t)
  {
    var active := FindLast(t.stays, {Active});
    var reserved := FindLast(t.stays, {Reserved});
    var leg := FindFirst(t.legs, LIVE_LEG);
    var requested := FindFirst(t.legs, {Requested});
    var claim := FindFirst(t.claims, LIVE_CLAIM);
    var current := None;
    match s {
      case AwaitingDropoff => current := reserved;
      case AtHub | LegBooked | AwaitingPickup | Claimed => current := active;
      case _ =>
    }
    b := Bundle(current, if leg.Some? then reserved else None, leg, requested, claim);
  }

  function StayOf(net: Network, r: Row<StayData>): HubStay {
    HubStay(r.id, r.data.hub, net.owner(r.data.hub), r.data.bondId,
            if r.data.storageDeadline.Some? then r.data.storageDeadline.value else 0)
  }

  predicate FullyBooked(r: Row<LegData>) {
    r.data.paymentId.Some? && r.data.bondId.Some? && r.data.fundingDeadline.Some?
  }

  function LegOf(net: Network, r: Row<LegData>, arrival: Row<StayData>): Leg
    requires FullyBooked(r)
  {
    var d := r.data;
    Leg(r.id, d.carrier, d.fromHub, net.owner(d.fromHub), d.toHub, net.owner(d.toHub), arrival.id, d.pricing,
        d.paymentId.value, d.bondId.value, arrival.data.bondId, d.fundingDeadline.value, d.pickupDeadline, d.transitDeadline)
  }

  function RequestOf(net: Network, r: Row<LegData>, hubBonus: Msat): LegRequest {
    var d := r.data;
    LegRequest(r.id, d.carrier, d.fromHub, net.owner(d.fromHub), d.toHub, net.owner(d.toHub), d.pricing, hubBonus,
               d.responseDeadline)
  }

  function ClaimOf(r: Row<ClaimData>): Claim {
    var d := r.data;
    Claim(r.id, d.claimant, d.stay, d.payment, d.hubBonus, d.paymentId, d.hubBonusId, d.fundingDeadline)
  }

  // ----------------------------------------------------------- the projection

  function WithStatus<T>(r: Row<T>, s: Status): Row<T> {
    r.(status := s)
  }

  function NewStay(id: Id, hub: HubId, bondId: nat, deadline: Option<Time>, s: Status): Row<StayData> {
    Row(id, s, StayData(hub, bondId, deadline))
  }

  /** The leg that fell through, and its reserved arrival. */
  function DropLeg(t: Tables, b: Bundle, s: Status): Tables {
    if b.leg.None? then t
    else
      t.(legs := Set(t.legs, WithStatus(b.leg.value, s)),
         stays := if b.arrival.Some? then Set(t.stays, WithStatus(b.arrival.value, Lapsed)) else t.stays)
  }

  function Vacate(t: Tables, b: Bundle, s: Status): Tables {
    if b.current.None? then t else t.(stays := Set(t.stays, WithStatus(b.current.value, s)))
  }

  function EndRequest(t: Tables, b: Bundle): Tables {
    if b.requested.None? then t else t.(legs := Set(t.legs, WithStatus(b.requested.value, Lapsed)))
  }

  function EndClaim(t: Tables, b: Bundle, s: Status): Tables {
    if b.claim.None? then t else t.(claims := Set(t.claims, WithStatus(b.claim.value, s)))
  }

  /** What the event writes, given the rows the loader found. */
  function Project(net: Network, w: World, t: Tables, b: Bundle, e: Event, idem: map<(Purpose, Ref), nat>): Tables
    requires Wanted(w, e) <= idem.Keys
    requires e.DepositAccept? ==> w.request.Some? && b.requested.Some? && b.requested.value.id == w.request.value.id
    requires e.LegReturn? ==> b.leg.Some?
  {
    match e
    case OriginHubAccept(stayId, _) =>
      t.(stays := Insert(t.stays, NewStay(stayId, w.originHub, idem[(CustodyBond, StayRef(stayId))], None, Reserved)))
    case OriginCheckin(_, deadline) =>
      if b.current.None? then t
      else
        var r := b.current.value;
        t.(stays := Set(t.stays, r.(status := Active, data := r.data.(storageDeadline := Some(deadline)))))
    case RequestLeg(legId, carrier, _, _, toHub, _, pricing, _, deadline) =>
      if b.current.None? then t
      else
        t.(legs := Insert(t.legs, Row(legId, Requested,
             LegData(carrier, b.current.value.data.hub, toHub, pricing, deadline, None, None, None, None, None))))
    case DepositAccept(_, arrivalStay, _, deadline) =>
      var r := b.requested.value;
      t.(legs := Set(t.legs, r.(status := PendingFunding,
           data := r.data.(fundingDeadline := Some(deadline), paymentId := Some(idem[(LegPayment, LegRef(r.id))]),
                           bondId := Some(idem[(CustodyBond, LegRef(r.id))])))),
         stays := Insert(t.stays, NewStay(arrivalStay, r.data.toHub, idem[(CustodyBond, StayRef(arrivalStay))], None, Reserved)))
    case DepositReject(_, _) => EndRequest(t, b)
    case DepositRequestExpired(_) => EndRequest(t, b)
    case DepositRequestCancel => EndRequest(t, b)
    case LegFunded(_, deadline) =>
      if b.leg.None? then t
      else
        var r := b.leg.value;
        t.(legs := Set(t.legs, r.(status := Booked, data := r.data.(pickupDeadline := Some(deadline)))))
    case LegFundingExpired(_) => DropLeg(t, b, Lapsed)
    case PickupCheckout(_, _, _, _, deadline) =>
      if b.leg.None? then t
      else
        var r := b.leg.value;
        Vacate(t.(legs := Set(t.legs, r.(status := PickedUp, data := r.data.(transitDeadline := Some(deadline))))), b, Vacated)
    case PickupTimeout(_) => DropLeg(t, b, Failed)
    case LegCheckin(_, _, _, _, deadline) =>
      if b.leg.None? || b.arrival.None? then t
      else
        var a := b.arrival.value;
        t.(legs := Set(t.legs, WithStatus(b.leg.value, Completed)),
           stays := Set(t.stays, a.(status := Active, data := a.data.(storageDeadline := Some(deadline)))))
    case LegReturn(_, _, returnStay, _, deadline) =>
      var dropped := DropLeg(t, b, Returned);
      dropped.(stays := Insert(dropped.stays, NewStay(returnStay, b.leg.value.data.fromHub,
                 idem[(CustodyBond, StayRef(returnStay))], Some(deadline), Active)))
    case RecipientPickup(_) => Vacate(t, b, Vacated)
    case RecipientClaim(claimId, claimant, _, _, payment, hubBonus, deadline) =>
      if b.current.None? then t
      else
        t.(claims := Insert(t.claims, Row(claimId, PendingFunding,
             ClaimData(claimant, b.current.value.id, payment, hubBonus, idem[(ClaimPayment, ClaimRef(claimId))],
                       if hubBonus > 0 then Some(idem[(FinalizationBonus, ClaimRef(claimId))]) else None, deadline))))
    case ClaimFunded(_) => EndClaim(t, b, Status.Funded)
    case ClaimFundingExpired(_) => EndClaim(t, b, Lapsed)
    case RecipientClaimedPickup(_) => Vacate(EndClaim(t, b, Completed), b, Vacated)
    case StorageExpiry(_) => EndRequest(EndClaim(DropLeg(Vacate(t, b, Lapsed), b, Lapsed), b, Lapsed), b)
    case TransitTimeout(_) => DropLeg(t, b, Failed)
    case Cancel => Vacate(t, b, Vacated)
    case Create => t
    case HandoffReject(_, _, _, _) => t
    case Boost(_, _) => t
    case Reroute(_, _, _) => t
  }

  // ----------------------------------------------------------- the rows back the aggregate

  /** Unique ids, and at most one row in either of two groups of statuses. */
  ghost predicate Indexed<T(!new)>(rows: seq<Row<T>>, a: set<Status>, b: set<Status>) {
    Keyed(rows) && Single(rows, a) && Single(rows, b)
  }

  lemma Added<T(!new)>(rows: seq<Row<T>>, r: Row<T>, a: set<Status>, b: set<Status>)
    requires Indexed(rows, a, b) && forall s <- rows :: s.id != r.id
    requires (r.status in a ==> LastIn(rows, a) == None) && (r.status in b ==> LastIn(rows, b) == None)
    ensures Indexed(Insert(rows, r), a, b)
    ensures LastIn(Insert(rows, r), a) == if r.status in a then Some(r) else LastIn(rows, a)
    ensures LastIn(Insert(rows, r), b) == if r.status in b then Some(r) else LastIn(rows, b)
    ensures forall s <- Insert(rows, r) :: s == r || s in rows
  {
    InsertKeyed(rows, r);
    InsertSingle(rows, r, a);
    InsertSingle(rows, r, b);
  }

  lemma Changed<T(!new)>(rows: seq<Row<T>>, was: Row<T>, r: Row<T>, a: set<Status>, b: set<Status>)
    requires Indexed(rows, a, b) && was in rows && was.id == r.id
    requires r.status in a ==> was.status in a || LastIn(rows, a) == None
    requires r.status in b ==> was.status in b || LastIn(rows, b) == None
    ensures Indexed(Set(rows, r), a, b)
    ensures LastIn(Set(rows, r), a) ==
            if r.status in a then Some(r) else if LastIn(rows, a) == Some(was) then None else LastIn(rows, a)
    ensures LastIn(Set(rows, r), b) ==
            if r.status in b then Some(r) else if LastIn(rows, b) == Some(was) then None else LastIn(rows, b)
    ensures forall s <- Set(rows, r) :: s == r || s in rows
  {
    SetKeyed(rows, was, r);
    SetSingle(rows, was, r, a);
    SetSingle(rows, was, r, b);
    SetMembers(rows, was, r);
  }

  lemma Found<T(!new)>(rows: seq<Row<T>>, a: set<Status>, b: set<Status>)
    requires Indexed(rows, a, b)
    ensures FirstIn(rows, a) == LastIn(rows, a) && FirstIn(rows, b) == LastIn(rows, b)
    ensures LastIn(rows, a).Some? ==> LastIn(rows, a).value in rows && LastIn(rows, a).value.status in a
    ensures LastIn(rows, b).Some? ==> LastIn(rows, b).value in rows && LastIn(rows, b).value.status in b
  {
    FirstIsLast(rows, a);
    FirstIsLast(rows, b);
  }

  ghost predicate InTables(w: World, t: Tables) {
    && Indexed(t.stays, {Active}, {Reserved}) && Indexed(t.legs, LIVE_LEG, {Requested}) && Indexed(t.claims, LIVE_CLAIM, {})
    && (forall r <- t.stays :: StayRef(r.id) in w.minted)
    && (forall r <- t.legs :: LegRef(r.id) in w.minted)
    && (forall r <- t.claims :: ClaimRef(r.id) in w.minted)
    && (LastIn(t.stays, {Active}).Some? ==> AtSomeHub(w.state))
    && (LastIn(t.stays, {Reserved}).Some? ==> w.state == AwaitingDropoff || w.leg.Some?)
  }

  /** What the loader makes of the rows is the aggregate. */
  ghost predicate Rebuilt(net: Network, w: World, b: Bundle) {
    && w.stay == (if b.current.None? then None else Some(StayOf(net, b.current.value)))
    && (if w.leg.None? then b.leg.None?
        else
          && b.leg.Some? && b.arrival.Some? && FullyBooked(b.leg.value) && w.leg.value == LegOf(net, b.leg.value, b.arrival.value)
          && b.arrival.value.data.hub == b.leg.value.data.toHub)
    && (if w.request.None? then b.requested.None?
        else
          && b.requested.Some? && w.request.value == RequestOf(net, b.requested.value, w.request.value.hubBonus)
          && b.requested.value.data.pickupDeadline.None? && b.requested.value.data.transitDeadline.None?)
    && w.claim == (if b.claim.None? then None else Some(ClaimOf(b.claim.value)))
  }

  ghost predicate Backed(net: Network, w: World, t: Tables) {
    InTables(w, t) && Rebuilt(net, w, Load(w.state, t))
  }

  /** Where an accepted event comes from and leads to, and which parts it is about. */
  predicate Moves(s: State, e: Event, ctx: Context, next: State) {
    match e
    case Create => false
    case OriginHubAccept(_, _) => s == Draft && next == AwaitingDropoff
    case OriginCheckin(_, _) => s == AwaitingDropoff && next == AtHub && ctx.stay.Some?
    case RequestLeg(_, _, _, _, _, _, _, _, _) =>
      s == AtHub && next == AtHub && ctx.stay.Some? && ctx.request.None? && ctx.leg.None? && ctx.claim.None?
    case DepositAccept(_, _, _, _) => s == AtHub && next == AtHub && ctx.request.Some? && ctx.leg.None?
    case DepositReject(_, _) => s == AtHub && next == AtHub && ctx.request.Some?
    case DepositRequestExpired(_) => s == AtHub && next == AtHub && ctx.request.Some?
    case DepositRequestCancel => s == AtHub && next == AtHub && ctx.request.Some?
    case LegFunded(_, _) => s == AtHub && next == LegBooked && ctx.leg.Some?
    case LegFundingExpired(_) => s == AtHub && next == AtHub && ctx.leg.Some?
    case PickupCheckout(_, _, _, _, _) => s == LegBooked && next == InTransit && ctx.stay.Some? && ctx.leg.Some?
    case PickupTimeout(_) => s == LegBooked && next == AtHub && ctx.leg.Some?
    case LegCheckin(_, _, _, _, _) => s == InTransit && (next == AtHub || next == AwaitingPickup) && ctx.leg.Some?
    case LegReturn(_, _, _, _, _) => s == InTransit && next == AtHub && ctx.leg.Some?
    case RecipientPickup(_) => s == AwaitingPickup && next == Delivered && ctx.stay.Some?
    case RecipientClaim(_, _, _, _, _, _, _) => s == AtHub && next == AtHub && ctx.stay.Some? && ctx.claim.None?
    case ClaimFunded(_) => s == AtHub && next == Claimed && ctx.claim.Some?
    case ClaimFundingExpired(_) => s == AtHub && next == AtHub && ctx.claim.Some?
    case RecipientClaimedPickup(_) => s == Claimed && next == Delivered && ctx.stay.Some? && ctx.claim.Some?
    case HandoffReject(_, _, _, _) => next == s
    case StorageExpiry(_) => (s == AtHub || s == AwaitingPickup || s == Claimed) && next == Forfeited && ctx.stay.Some?
    case TransitTimeout(_) => s == InTransit && next == Lost && ctx.leg.Some?
    case Boost(_, _) => next == s
    case Reroute(newDest, _, _) =>
      && (s == AtHub || s == AwaitingPickup)
      && next == (if s == AwaitingPickup && newDest.None? then AwaitingPickup else AtHub)
    case Cancel =>
      && next == Cancelled && (s == Draft || s == AwaitingDropoff || s == AtHub)
      && (s == AtHub ==> ctx.stay.Some? && ctx.leg.None? && ctx.claim.None? && ctx.request.None?)
  }

  lemma MovesAsAccepted(s: State, e: Event, ctx: Context)
    requires Transition(s, e, ctx).Accept?
    ensures Moves(s, e, ctx, Transition(s, e, ctx).next)
  {
    hide PayNow, RefundPendingLegHolds, RefundPendingClaimHolds, RefundFinalizationBonus, RefundHeldClaimHolds,
      RefundStayBond, RefundCarrierBond, SlashCarrierBond, RefundLegPayment, RefundArrivalBond, DissolveAtStorageExpiry;
  }

  predicate WritesNoRows(e: Event) {
    e.HandoffReject? || e.Boost? || e.Reroute?
  }

  /** A step over the rows, with what it needs to know of the command. */
  ghost predicate Step(net: Network, w: World, e: Event, v: World) {
    && Shape(w) && Shape(v)
    && Transition(w.state, e, ContextOf(net, w)).Accept? && Moves(w.state, e, ContextOf(net, w), v.state)
    && Wanted(w, e) <= v.books.idem.Keys && MintedBy(e) * w.minted == {} && v.minted == w.minted + MintedBy(e)
    && var p := ProjectRows(net, w, e, v.books.idem);
       p.stay == v.stay && p.leg == v.leg && p.request == v.request && p.claim == v.claim
  }

  lemma StepOf(net: Network, w: World, cmd: Command, v: World)
    requires Execute(net, w, cmd) == Ok(v) && Inv(net, w) && Inv(net, v)
    ensures Step(net, w, EventOf(cmd), v)
  {
    Projected(net, w, cmd, v);
    MovesAsAccepted(w.state, EventOf(cmd), ContextOf(net, w));
    hide Execute, Transition, Moves, Wanted, MintedBy, ProjectRows, Audited, OnlyLivePending, RefsMinted, StayOk, LegOk,
      RequestOk, BonusOk, ClaimOk, ExpectedTimers;
  }

  lemma NoRowsBacked(net: Network, w: World, e: Event, v: World, t: Tables)
    requires Backed(net, w, t) && Step(net, w, e, v) && WritesNoRows(e)
    ensures Backed(net, v, Project(net, w, t, Load(w.state, t), e, v.books.idem))
  {
    hide Transition, Step, Project, Indexed, FirstIn, LastIn;
    PartsStay(net, w, e, v, t);
  }

  lemma PartsStay(net: Network, w: World, e: Event, v: World, t: Tables)
    requires Step(net, w, e, v) && WritesNoRows(e)
    ensures v.stay == w.stay && v.leg == w.leg && v.request == w.request && v.claim == w.claim && v.minted == w.minted
    ensures (v.state == AwaitingDropoff <==> w.state == AwaitingDropoff) && (AtSomeHub(v.state) <==> AtSomeHub(w.state))
    ensures Project(net, w, t, Load(w.state, t), e, v.books.idem) == t
  {
    hide Transition, Load;
    assert w.minted + {} == w.minted;
  }

  lemma ArrivalsBacked(net: Network, w: World, e: Event, v: World, t: Tables)
    requires Backed(net, w, t) && Step(net, w, e, v) && (e.OriginHubAccept? || e.OriginCheckin?)
    ensures Backed(net, v, Project(net, w, t, Load(w.state, t), e, v.books.idem))
  {
    hide Transition, Indexed, FirstIn, LastIn;
    Found(t.stays, {Active}, {Reserved});
    if e.OriginHubAccept? {
      NotMinted(MintedBy(e), w.minted, StayRef(e.stayId));
      Added(t.stays, NewStay(e.stayId, w.originHub, v.books.idem[(CustodyBond, StayRef(e.stayId))], None, Reserved), {Active}, {Reserved});
    } else {
      var r := Load(w.state, t).current.value;
      Changed(t.stays, r, r.(status := Active, data := r.data.(storageDeadline := Some(e.storageDeadline))), {Active}, {Reserved});
    }
  }

  lemma RequestsBacked(net: Network, w: World, e: Event, v: World, t: Tables)
    requires Backed(net, w, t) && Step(net, w, e, v)
    requires e.RequestLeg? || e.DepositReject? || e.DepositRequestExpired? || e.DepositRequestCancel?
    ensures Backed(net, v, Project(net, w, t, Load(w.state, t), e, v.books.idem))
  {
    hide Transition, Indexed, FirstIn, LastIn;
    var b := Load(w.state, t);
    Found(t.legs, LIVE_LEG, {Requested});
    if e.RequestLeg? {
      NotMinted(MintedBy(e), w.minted, LegRef(e.legId));
      var r := Row(e.legId, Requested, LegData(e.carrier, b.current.value.data.hub, e.toHub, e.pricing, e.responseDeadline,
                                               None, None, None, None, None));
      Added(t.legs, r, LIVE_LEG, {Requested});
      Found(Insert(t.legs, r), LIVE_LEG, {Requested});
    } else {
      var r := WithStatus(b.requested.value, Lapsed);
      Changed(t.legs, b.requested.value, r, LIVE_LEG, {Requested});
      Found(Set(t.legs, r), LIVE_LEG, {Requested});
    }
  }

  lemma DepositAcceptBacked(net: Network, w: World, e: Event, v: World, t: Tables)
    requires Backed(net, w, t) && Step(net, w, e, v) && e.DepositAccept?
    ensures Backed(net, v, Project(net, w, t, Load(w.state, t), e, v.books.idem))
  {
    hide Transition, Indexed, FirstIn, LastIn;
    var b, idem := Load(w.state, t), v.books.idem;
    var was := b.requested.value;
    Found(t.legs, LIVE_LEG, {Requested});
    NotMinted(MintedBy(e), w.minted, StayRef(e.arrivalStay));
    var r := was.(status := PendingFunding,
                  data := was.data.(fundingDeadline := Some(e.fundingDeadline), paymentId := Some(idem[(LegPayment, LegRef(was.id))]),
                                    bondId := Some(idem[(CustodyBond, LegRef(was.id))])));
    Changed(t.legs, was, r, LIVE_LEG, {Requested});
    Found(Set(t.legs, r), LIVE_LEG, {Requested});
    Added(t.stays, NewStay(e.arrivalStay, was.data.toHub, idem[(CustodyBond, StayRef(e.arrivalStay))], None, Reserved),
          {Active}, {Reserved});
  }

  lemma LegUpdatesBacked(net: Network, w: World, e: Event, v: World, t: Tables)
    requires Backed(net, w, t) && Step(net, w, e, v) && (e.LegFunded? || e.PickupCheckout?)
    ensures Backed(net, v, Project(net, w, t, Load(w.state, t), e, v.books.idem))
  {
    hide Transition, Indexed, FirstIn, LastIn;
    var b := Load(w.state, t);
    Found(t.legs, LIVE_LEG, {Requested});
    Found(t.stays, {Active}, {Reserved});
    var was := b.leg.value;
    var r := if e.LegFunded? then was.(status := Booked, data := was.data.(pickupDeadline := Some(e.pickupDeadline)))
             else was.(status := PickedUp, data := was.data.(transitDeadline := Some(e.transitDeadline)));
    Changed(t.legs, was, r, LIVE_LEG, {Requested});
    Found(Set(t.legs, r), LIVE_LEG, {Requested});
    if e.PickupCheckout? { Changed(t.stays, b.current.value, WithStatus(b.current.value, Vacated), {Active}, {Reserved}); }
  }

  /** A leg falls through, and its reserved arrival with it. */
  lemma LegDropped(net: Network, w: World, t: Tables, s: Status)
    requires Backed(net, w, t) && w.leg.Some? && s !in LIVE_LEG && s != Requested
    ensures var b := Load(w.state, t);
      var d := DropLeg(t, b, s);
      && d.claims == t.claims
      && Indexed(d.stays, {Active}, {Reserved}) && Indexed(d.legs, LIVE_LEG, {Requested})
      && (forall r <- d.stays :: StayRef(r.id) in w.minted) && (forall r <- d.legs :: LegRef(r.id) in w.minted)
      && LastIn(d.stays, {Active}) == LastIn(t.stays, {Active}) && LastIn(d.stays, {Reserved}) == None
      && FirstIn(d.legs, LIVE_LEG) == None && FirstIn(d.legs, {Requested}) == b.requested
  {
    hide Indexed, FirstIn, LastIn;
    var b := Load(w.state, t);
    Found(t.legs, LIVE_LEG, {Requested});
    Found(t.stays, {Active}, {Reserved});
    var r := WithStatus(b.leg.value, s);
    Changed(t.legs, b.leg.value, r, LIVE_LEG, {Requested});
    Found(Set(t.legs, r), LIVE_LEG, {Requested});
    Changed(t.stays, b.arrival.value, WithStatus(b.arrival.value, Lapsed), {Active}, {Reserved});
  }

  lemma LegFailuresBacked(net: Network, w: World, e: Event, v: World, t: Tables)
    requires Backed(net, w, t) && Step(net, w, e, v) && (e.LegFundingExpired? || e.PickupTimeout? || e.TransitTimeout?)
    ensures Backed(net, v, Project(net, w, t, Load(w.state, t), e, v.books.idem))
  {
    hide Transition, Step, ProjectRows, Backed, Project;
    var s := if e.LegFundingExpired? then Lapsed else Failed;
    var b := Load(w.state, t);
    FailedLegRows(net, w, e, v);
    FailedLegWrites(net, w, t, b, e, v.books.idem);
    LegDropped(net, w, t, s);
    hide DropLeg, Load, Indexed;
    WithoutLeg(net, w, v, t, DropLeg(t, b, s));
  }

  lemma WithoutLeg(net: Network, w: World, v: World, t: Tables, d: Tables)
    requires Backed(net, w, t)
    requires v.leg.None? && v.stay == w.stay && v.request == w.request && v.claim == w.claim && v.minted == w.minted
    requires (AtSomeHub(w.state) <==> AtSomeHub(v.state)) && w.state != AwaitingDropoff && v.state != AwaitingDropoff
    requires d.claims == t.claims && Indexed(d.stays, {Active}, {Reserved}) && Indexed(d.legs, LIVE_LEG, {Requested})
    requires (forall r <- d.stays :: StayRef(r.id) in w.minted) && (forall r <- d.legs :: LegRef(r.id) in w.minted)
    requires LastIn(d.stays, {Active}) == LastIn(t.stays, {Active}) && LastIn(d.stays, {Reserved}) == None
    requires FirstIn(d.legs, LIVE_LEG) == None && FirstIn(d.legs, {Requested}) == FirstIn(t.legs, {Requested})
    ensures Backed(net, v, d)
  {
    hide Indexed, FirstIn, LastIn, StayOf, LegOf, ClaimOf, RequestOf;
  }

  lemma FailedLegWrites(net: Network, w: World, t: Tables, b: Bundle, e: Event, idem: map<(Purpose, Ref), nat>)
    requires e.LegFundingExpired? || e.PickupTimeout? || e.TransitTimeout?
    ensures Wanted(w, e) <= idem.Keys
    ensures Project(net, w, t, b, e, idem) == DropLeg(t, b, if e.LegFundingExpired? then Lapsed else Failed)
  {}

  lemma FailedLegRows(net: Network, w: World, e: Event, v: World)
    requires Step(net, w, e, v) && (e.LegFundingExpired? || e.PickupTimeout? || e.TransitTimeout?)
    ensures v.leg.None? && v.stay == w.stay && v.request == w.request && v.claim == w.claim && v.minted == w.minted && w.leg.Some?
    ensures v.state == (if e.TransitTimeout? then Lost else AtHub)
    ensures w.state == (if e.TransitTimeout? then InTransit else if e.PickupTimeout? then LegBooked else AtHub)
  {
    hide Transition;
  }

  lemma LegCheckinBacked(net: Network, w: World, e: Event, v: World, t: Tables)
    requires Backed(net, w, t) && Step(net, w, e, v) && e.LegCheckin?
    ensures Backed(net, v, Project(net, w, t, Load(w.state, t), e, v.books.idem))
  {
    hide Transition, Indexed, FirstIn, LastIn;
    var b := Load(w.state, t);
    Found(t.legs, LIVE_LEG, {Requested});
    Found(t.stays, {Active}, {Reserved});
    var r, a := WithStatus(b.leg.value, Completed), b.arrival.value;
    Changed(t.legs, b.leg.value, r, LIVE_LEG, {Requested});
    Found(Set(t.legs, r), LIVE_LEG, {Requested});
    Changed(t.stays, a, a.(status := Active, data := a.data.(storageDeadline := Some(e.storageDeadline))), {Active}, {Reserved});
  }

  lemma LegReturnBacked(net: Network, w: World, e: Event, v: World, t: Tables)
    requires Backed(net, w, t) && Step(net, w, e, v) && e.LegReturn?
    ensures Backed(net, v, Project(net, w, t, Load(w.state, t), e, v.books.idem))
  {
    var b := Load(w.state, t);
    LegDropped(net, w, t, Returned);
    ReturnRows(net, w, e, v);
    var returned := NewStay(e.returnStay, b.leg.value.data.fromHub, v.books.idem[(CustodyBond, StayRef(e.returnStay))],
                          Some(e.storageDeadline), Active);
    var d := DropLeg(t, b, Returned);
    assert Project(net, w, t, b, e, v.books.idem) == d.(stays := Insert(d.stays, returned));
    assert LastIn(t.stays, {Active}) == None;
    hide Project, Step, DropLeg, Indexed, Load, LastIn, FirstIn;
    Added(d.stays, returned, {Active}, {Reserved});
    StoredAgain(net, v, d.(stays := Insert(d.stays, returned)), returned);
  }

  lemma StoredAgain(net: Network, v: World, d: Tables, r: Row<StayData>)
    requires v.state == AtHub && v.stay == Some(StayOf(net, r)) && v.leg.None? && v.request.None? && v.claim.None?
    requires Indexed(d.stays, {Active}, {Reserved}) && Indexed(d.legs, LIVE_LEG, {Requested}) && Indexed(d.claims, LIVE_CLAIM, {})
    requires (forall r <- d.stays :: StayRef(r.id) in v.minted) && (forall r <- d.legs :: LegRef(r.id) in v.minted)
    requires forall r <- d.claims :: ClaimRef(r.id) in v.minted
    requires LastIn(d.stays, {Active}) == Some(r) && LastIn(d.stays, {Reserved}) == None
    requires FirstIn(d.legs, LIVE_LEG) == None && FirstIn(d.legs, {Requested}) == None && FirstIn(d.claims, LIVE_CLAIM) == None
    ensures Backed(net, v, d)
  {
    hide Indexed, FirstIn, LastIn, StayOf, LegOf, ClaimOf, RequestOf;
  }

  lemma ReturnRows(net: Network, w: World, e: Event, v: World)
    requires Step(net, w, e, v) && e.LegReturn?
    ensures w.leg.Some? && (CustodyBond, StayRef(e.returnStay)) in v.books.idem
    ensures v.stay == Some(HubStay(e.returnStay, w.leg.value.fromHub, w.leg.value.fromUser,
                                   v.books.idem[(CustodyBond, StayRef(e.returnStay))], e.storageDeadline))
    ensures v.leg.None? && v.request.None? && v.claim.None? && w.request.None? && w.claim.None?
    ensures v.state == AtHub && w.state == InTransit
    ensures StayRef(e.returnStay) !in w.minted && v.minted == w.minted + {StayRef(e.returnStay)}
  {
    hide Transition;
    NotMinted(MintedBy(e), w.minted, StayRef(e.returnStay));
  }

  lemma ClaimsBacked(net: Network, w: World, e: Event, v: World, t: Tables)
    requires Backed(net, w, t) && Step(net, w, e, v) && (e.RecipientClaim? || e.ClaimFunded? || e.ClaimFundingExpired?)
    ensures Backed(net, v, Project(net, w, t, Load(w.state, t), e, v.books.idem))
  {
    hide Transition, Indexed, FirstIn, LastIn;
    var b, idem := Load(w.state, t), v.books.idem;
    Found(t.claims, LIVE_CLAIM, {});
    if e.RecipientClaim? {
      NotMinted(MintedBy(e), w.minted, ClaimRef(e.claimId));
      var r := Row(e.claimId, PendingFunding,
                   ClaimData(e.claimant, b.current.value.id, e.payment, e.hubBonus, idem[(ClaimPayment, ClaimRef(e.claimId))],
                             if e.hubBonus > 0 then Some(idem[(FinalizationBonus, ClaimRef(e.claimId))]) else None, e.fundingDeadline));
      Added(t.claims, r, LIVE_CLAIM, {});
      Found(Insert(t.claims, r), LIVE_CLAIM, {});
    } else {
      var r := WithStatus(b.claim.value, if e.ClaimFunded? then Status.Funded else Lapsed);
      Changed(t.claims, b.claim.value, r, LIVE_CLAIM, {});
      Found(Set(t.claims, r), LIVE_CLAIM, {});
    }
  }

  /** The custodian's row is closed, the claim's row too if there is one. */
  lemma Closing(net: Network, w: World, t: Tables, s: Status, c: Status)
    requires Backed(net, w, t) && s in {Vacated, Lapsed} && c !in LIVE_CLAIM
    ensures var b := Load(w.state, t);
      var d := Vacate(EndClaim(t, b, c), b, s);
      && d == EndClaim(Vacate(t, b, s), b, c)
      && d.legs == t.legs
      && Indexed(d.stays, {Active}, {Reserved}) && Indexed(d.claims, LIVE_CLAIM, {})
      && (forall r <- d.stays :: StayRef(r.id) in w.minted) && (forall r <- d.claims :: ClaimRef(r.id) in w.minted)
      && LastIn(d.stays, {Active}) == None && FirstIn(d.claims, LIVE_CLAIM) == None
      && LastIn(d.stays, {Reserved}) == (if w.state == AwaitingDropoff then None else LastIn(t.stays, {Reserved}))
  {
    hide Indexed, FirstIn, LastIn, Set, Rebuilt;
    var b := Load(w.state, t);
    Found(t.stays, {Active}, {Reserved});
    Found(t.claims, LIVE_CLAIM, {});
    if b.current.Some? { Changed(t.stays, b.current.value, WithStatus(b.current.value, s), {Active}, {Reserved}); }
    if b.claim.Some? {
      var r := WithStatus(b.claim.value, c);
      Changed(t.claims, b.claim.value, r, LIVE_CLAIM, {});
      Found(Set(t.claims, r), LIVE_CLAIM, {});
    }
  }

  /** Nothing live is left. */
  lemma EndedBacked(net: Network, v: World, d: Tables)
    requires Terminal(v.state) && v.stay.None? && v.leg.None? && v.request.None? && v.claim.None?
    requires Indexed(d.stays, {Active}, {Reserved}) && Indexed(d.legs, LIVE_LEG, {Requested}) && Indexed(d.claims, LIVE_CLAIM, {})
    requires (forall r <- d.stays :: StayRef(r.id) in v.minted) && (forall r <- d.legs :: LegRef(r.id) in v.minted)
    requires forall r <- d.claims :: ClaimRef(r.id) in v.minted
    requires LastIn(d.stays, {Active}) == None && LastIn(d.stays, {Reserved}) == None
    requires FirstIn(d.legs, LIVE_LEG) == None && FirstIn(d.legs, {Requested}) == None && FirstIn(d.claims, LIVE_CLAIM) == None
    ensures Backed(net, v, d)
  {
    hide Indexed, FirstIn, LastIn, StayOf, LegOf, ClaimOf, RequestOf;
  }

  lemma EndRows(net: Network, w: World, e: Event, v: World)
    requires Step(net, w, e, v) && (e.RecipientPickup? || e.RecipientClaimedPickup? || e.Cancel? || e.StorageExpiry?)
    ensures Terminal(v.state) && v.stay.None? && v.leg.None? && v.request.None? && v.claim.None? && v.minted == w.minted
    ensures !e.StorageExpiry? ==> w.leg.None? && w.request.None? && (!e.RecipientClaimedPickup? ==> w.claim.None?)
    ensures e.StorageExpiry? ==> w.state != AwaitingDropoff
  {
    hide Transition;
  }

  lemma EndingsBacked(net: Network, w: World, e: Event, v: World, t: Tables)
    requires Backed(net, w, t) && Step(net, w, e, v) && (e.RecipientPickup? || e.RecipientClaimedPickup? || e.Cancel?)
    ensures Backed(net, v, Project(net, w, t, Load(w.state, t), e, v.books.idem))
  {
    hide Transition, Project, Step, Backed, Vacate, EndClaim, Indexed, LastIn, FirstIn, Load;
    var b := Load(w.state, t);
    EndRows(net, w, e, v);
    Closing(net, w, t, Vacated, Completed);
    NoLegRows(net, w, t);
    EndingWrites(net, w, e, v, t);
    EndedBacked(net, v, Vacate(EndClaim(t, b, Completed), b, Vacated));
  }

  /** Without leg and request there are no such rows, and no reserved one but the origin's. */
  lemma NoLegRows(net: Network, w: World, t: Tables)
    requires Backed(net, w, t) && w.leg.None? && w.request.None?
    ensures FirstIn(t.legs, LIVE_LEG) == None && FirstIn(t.legs, {Requested}) == None
    ensures Indexed(t.legs, LIVE_LEG, {Requested}) && forall r <- t.legs :: LegRef(r.id) in w.minted
    ensures w.state != AwaitingDropoff ==> LastIn(t.stays, {Reserved}) == None
  {
    hide Indexed, LastIn, FirstIn;
  }

  lemma EndingWrites(net: Network, w: World, e: Event, v: World, t: Tables)
    requires Backed(net, w, t) && Step(net, w, e, v) && (e.RecipientPickup? || e.RecipientClaimedPickup? || e.Cancel?)
    ensures var b := Load(w.state, t);
      Project(net, w, t, b, e, v.books.idem) == Vacate(EndClaim(t, b, Completed), b, Vacated)
  {
    EndRows(net, w, e, v);
    hide Transition, Indexed, LastIn, FirstIn, Set;
  }

  /** The storage takes everything pending down with it. */
  lemma StorageExpiryBacked(net: Network, w: World, e: Event, v: World, t: Tables)
    requires Backed(net, w, t) && Step(net, w, e, v) && e.StorageExpiry?
    ensures Backed(net, v, Project(net, w, t, Load(w.state, t), e, v.books.idem))
  {
    hide Transition, Project, Step, Backed, Load, Vacate, EndClaim, Indexed, LastIn, FirstIn, DropLeg, EndRequest;
    var b := Load(w.state, t);
    EndRows(net, w, e, v);
    Closing(net, w, t, Lapsed, Lapsed);
    var d := Vacate(EndClaim(t, b, Lapsed), b, Lapsed);
    LegAndRequestEnd(net, w, t, d);
    ExpiryWrites(net, w, t, b, e, v.books.idem);
    EndedBacked(net, v, EndRequest(DropLeg(d, b, Lapsed), b));
  }

  lemma ExpiryWrites(net: Network, w: World, t: Tables, b: Bundle, e: Event, idem: map<(Purpose, Ref), nat>)
    requires e.StorageExpiry?
    ensures Project(net, w, t, b, e, idem) == EndRequest(DropLeg(Vacate(EndClaim(t, b, Lapsed), b, Lapsed), b, Lapsed), b)
  {
    EndsCommute(t, b);
    hide Vacate, EndClaim, DropLeg, EndRequest;
  }

  lemma EndsCommute(t: Tables, b: Bundle)
    ensures EndClaim(DropLeg(Vacate(t, b, Lapsed), b, Lapsed), b, Lapsed) == DropLeg(Vacate(EndClaim(t, b, Lapsed), b, Lapsed), b, Lapsed)
  {}

  lemma LegAndRequestEnd(net: Network, w: World, t: Tables, d: Tables)
    requires Backed(net, w, t) && d.legs == t.legs && w.state != AwaitingDropoff
    requires Indexed(d.stays, {Active}, {Reserved}) && LastIn(d.stays, {Active}) == None
    requires LastIn(d.stays, {Reserved}) == LastIn(t.stays, {Reserved})
    requires forall r <- d.stays :: StayRef(r.id) in w.minted
    ensures var b := Load(w.state, t);
      var x := EndRequest(DropLeg(d, b, Lapsed), b);
      && x.claims == d.claims && Indexed(x.stays, {Active}, {Reserved}) && Indexed(x.legs, LIVE_LEG, {Requested})
      && (forall r <- x.stays :: StayRef(r.id) in w.minted) && (forall r <- x.legs :: LegRef(r.id) in w.minted)
      && LastIn(x.stays, {Active}) == None && LastIn(x.stays, {Reserved}) == None
      && FirstIn(x.legs, LIVE_LEG) == None && FirstIn(x.legs, {Requested}) == None
  {
    hide Indexed, FirstIn, LastIn;
    var b := Load(w.state, t);
    Found(t.legs, LIVE_LEG, {Requested});
    Found(d.stays, {Active}, {Reserved});
    var legs := t.legs;
    if b.leg.Some? {
      var r := WithStatus(b.leg.value, Lapsed);
      Changed(t.legs, b.leg.value, r, LIVE_LEG, {Requested});
      Changed(d.stays, b.arrival.value, WithStatus(b.arrival.value, Lapsed), {Active}, {Reserved});
      legs := Set(t.legs, r);
      Found(legs, LIVE_LEG, {Requested});
    }
    if b.requested.Some? {
      var r := WithStatus(b.requested.value, Lapsed);
      Changed(legs, b.requested.value, r, LIVE_LEG, {Requested});
      Found(Set(legs, r), LIVE_LEG, {Requested});
    }
  }

  // ----------------------------------------------------------- over whole runs

  lemma StepBacked(net: Network, w: World, cmd: Command, v: World, t: Tables)
    requires Backed(net, w, t) && Inv(net, w) && Inv(net, v) && Execute(net, w, cmd) == Ok(v)
    ensures Step(net, w, EventOf(cmd), v)
    ensures Backed(net, v, Project(net, w, t, Load(w.state, t), EventOf(cmd), v.books.idem))
  {
    StepOf(net, w, cmd, v);
    var e := EventOf(cmd);
    hide Execute, Inv, Backed, Project, Load;
    if WritesNoRows(e) { NoRowsBacked(net, w, e, v, t); }
    else if e.OriginHubAccept? || e.OriginCheckin? { ArrivalsBacked(net, w, e, v, t); }
    else if e.RequestLeg? || e.DepositReject? || e.DepositRequestExpired? || e.DepositRequestCancel? { RequestsBacked(net, w, e, v, t); }
    else if e.DepositAccept? { DepositAcceptBacked(net, w, e, v, t); }
    else if e.LegFunded? || e.PickupCheckout? { LegUpdatesBacked(net, w, e, v, t); }
    else if e.LegFundingExpired? || e.PickupTimeout? || e.TransitTimeout? { LegFailuresBacked(net, w, e, v, t); }
    else if e.LegCheckin? { LegCheckinBacked(net, w, e, v, t); }
    else if e.LegReturn? { LegReturnBacked(net, w, e, v, t); }
    else if e.RecipientClaim? || e.ClaimFunded? || e.ClaimFundingExpired? { ClaimsBacked(net, w, e, v, t); }
    else if e.StorageExpiry? { StorageExpiryBacked(net, w, e, v, t); }
    else { EndingsBacked(net, w, e, v, t); }
  }

  const NO_ROWS: Tables := Tables([], [], [])

  /** What a command makes of the tables. */
  function NextTables(net: Network, w: World, t: Tables, cmd: Command): Tables {
    var e, b := EventOf(cmd), Load(w.state, t);
    if !Issued(w, cmd) || Execute(net, w, cmd).Err? then t
    else
      var idem := Execute(net, w, cmd).value.books.idem;
      if !(Wanted(w, e) <= idem.Keys) || (e.LegReturn? && b.leg.None?)
         || (e.DepositAccept? && (w.request.None? || b.requested.None? || b.requested.value.id != w.request.value.id)) then t
      else Project(net, w, t, b, e, idem)
  }

  function PlayTables(net: Network, w: World, cmds: seq<Command>): Tables {
    if cmds == [] then NO_ROWS
    else
      var init := cmds[..|cmds| - 1];
      NextTables(net, Play(net, w, init), PlayTables(net, w, init), cmds[|cmds| - 1])
  }

  lemma BornBacked(net: Network, x: Birth)
    requires BornAs(net, x).Ok?
    ensures Backed(net, BornAs(net, x).value, NO_ROWS)
  {
    hide Run;
  }

  lemma NextBacked(net: Network, w: World, cmd: Command, t: Tables)
    requires Inv(net, w) && Backed(net, w, t)
    ensures Backed(net, Next(net, w, cmd), NextTables(net, w, t, cmd))
  {
    hide Inv, Execute, Issued, Project, Step, Backed;
    if Issued(w, cmd) {
      if cmd.Fire? { DueTimerFires(net, w, cmd); }
      if Execute(net, w, cmd).Ok? {
        StepKeeps(net, w, cmd);
        var v := Execute(net, w, cmd).value;
        StepBacked(net, w, cmd, v, t);
        ProjectApplies(net, w, EventOf(cmd), v, t);
      }
    }
  }

  lemma ProjectApplies(net: Network, w: World, e: Event, v: World, t: Tables)
    requires Step(net, w, e, v) && Backed(net, w, t)
    ensures Wanted(w, e) <= v.books.idem.Keys && (e.LegReturn? ==> Load(w.state, t).leg.Some?)
    ensures e.DepositAccept? ==> w.request.Some? && Load(w.state, t).requested.Some?
    ensures e.DepositAccept? ==> Load(w.state, t).requested.value.id == w.request.value.id
  {
    hide Transition, Indexed, LastIn, FirstIn;
  }

  lemma {:induction false} PlayBacked(net: Network, w: World, cmds: seq<Command>)
    requires Inv(net, w) && Backed(net, w, NO_ROWS)
    ensures Backed(net, Play(net, w, cmds), PlayTables(net, w, cmds))
  {
    hide Inv, Next, NextTables, Backed;
    if cmds != [] {
      var init := cmds[..|cmds| - 1];
      PlayBacked(net, w, init);
      PlayKeeps(net, w, init);
      NextBacked(net, Play(net, w, init), cmds[|cmds| - 1], PlayTables(net, w, init));
    }
  }

  /** After any run the rows and the chain rebuild the aggregate exactly: stay,
      leg, claim, and the request with the hub share frozen in the chain. */
  lemma BundleRebuilt(net: Network, x: Birth, cmds: seq<Command>)
    requires BornAs(net, x).Ok?
    ensures var w := Play(net, BornAs(net, x).value, cmds);
      var b := Load(w.state, PlayTables(net, BornAs(net, x).value, cmds));
      && w.stay == (if b.current.None? then None else Some(StayOf(net, b.current.value)))
      && w.claim == (if b.claim.None? then None else Some(ClaimOf(b.claim.value)))
      && (b.leg.Some? ==> b.arrival.Some? && FullyBooked(b.leg.value))
      && w.leg == (if b.leg.None? then None else Some(LegOf(net, b.leg.value, b.arrival.value)))
      && (b.requested.Some? ==> HubBonusIn(w.books.chain, b.requested.value.id).Some?)
      && w.request == (if b.requested.None? then None
                       else Some(RequestOf(net, b.requested.value, HubBonusIn(w.books.chain, b.requested.value.id).value)))
  {
    BirthKeeps(net, x);
    BornBacked(net, x);
    var w := Play(net, BornAs(net, x).value, cmds);
    assert Reachable(net, w);
    ReplayRefines(net, w);
    hide Inv, Play, BornAs, PlayTables, ReplayOf, HubBonusIn, InTables, Reachable;
    PlayBacked(net, BornAs(net, x).value, cmds);
  }
}
