/** The carrier's board: every hub that could take a parcel is priced as a drop,
    the best one within the declared deviation is proposed, and the cards are
    sorted. Distances are whole metres; a provider may not know a pair. */
module Ranking {
  import opened Economics
  import opened Sorting

  type Point = (int, int)

  datatype Option<+T> = None | Some(value: T)

  datatype Dims = Dims(length: int, width: int, height: int)

  /** Hubs and shipments by the rank of their identifiers. */
  datatype Hub = Hub(id: nat, location: Point, active: bool, wallet: bool, maxWeight: int, maxDims: Dims,
                     acceptsUndeclared: bool, feeBp: int, autoAccept: bool)

  datatype Parcel = Parcel(id: nat, currentHub: nat, destHub: nat, total: Metres, remaining: Metres, pool: Msat,
                           carrierBonus: Msat, weight: int, dims: Dims, undeclared: bool)

  datatype Trip = Trip(origin: Point, destination: Point, maxDeviation: Metres, minRate: Msat)

  type Provider = (Point, Point) -> Option<Metres>

  datatype DropOption = DropOption(hub: nat, detour: Metres, net: Msat, bonus: Msat, surplus: Msat, confirmation: bool)

  datatype Card = Card(shipment: nat, best: DropOption, alternatives: seq<DropOption>, isMatch: bool)

  datatype Board = BadTrip | Threw | Ranked(cards: seq<Card>)

  const MAX_ALTERNATIVE_DROP_HUBS: nat := 3

  // ----------------------------------------------------------- which hubs take the parcel

  function Sorted3(d: Dims): Dims {
    var (a, b) := if d.length <= d.width then (d.length, d.width) else (d.width, d.length);
    if d.height <= a then Dims(d.height, a, b) else if d.height <= b then Dims(a, d.height, b) else Dims(a, b, d.height)
  }

  predicate Inside(d: Dims, limit: Dims) {
    d.length <= limit.length && d.width <= limit.width && d.height <= limit.height
  }

  predicate FitsDims(parcel: Dims, limit: Dims) {
    Inside(Sorted3(parcel), Sorted3(limit))
  }

  /** A box turned on any of its sides. */
  function Turned(d: Dims, way: nat): Dims
    requires way < 6
  {
    match way
    case 0 => d
    case 1 => Dims(d.length, d.height, d.width)
    case 2 => Dims(d.width, d.length, d.height)
    case 3 => Dims(d.width, d.height, d.length)
    case 4 => Dims(d.height, d.length, d.width)
    case _ => Dims(d.height, d.width, d.length)
  }

  /** Comparing sorted sides is trying every way to turn the box. */
  lemma FitsMeansSomeWay(parcel: Dims, limit: Dims)
    ensures FitsDims(parcel, limit) <==> exists way: nat :: way < 6 && Inside(Turned(parcel, way), limit)
  {
    if FitsDims(parcel, limit) {
      assert Inside(Turned(parcel, 0), limit) || Inside(Turned(parcel, 1), limit) || Inside(Turned(parcel, 2), limit)
          || Inside(Turned(parcel, 3), limit) || Inside(Turned(parcel, 4), limit) || Inside(Turned(parcel, 5), limit);
    }
  }

  predicate HubAccepts(hub: Hub, p: Parcel) {
    hub.active && hub.wallet && p.weight <= hub.maxWeight && FitsDims(p.dims, hub.maxDims)
    && (!p.undeclared || hub.acceptsUndeclared)
  }

  // ----------------------------------------------------------- one drop option

  predicate Rankable(p: Parcel) {
    0 < p.remaining <= p.total && 0 <= p.pool && 0 <= p.carrierBonus
  }

  /** What dropping at this hub would bring, if it is a candidate at all. */
  function OptionAt(trip: Trip, p: Parcel, current: Hub, dest: Hub, km: Provider, direct: Metres, toCurrent: Metres,
                    hub: Hub): Option<DropOption>
  {
    var left := if hub.id == p.destHub then Some(0) else km(hub.location, dest.location);
    if !HubAccepts(hub, p) || left.None? then None
    else
      var progress := p.remaining - left.value;
      if progress <= 0 || (hub.id != p.destHub && !LongEnough(progress, p.total)) then None
      else
        match PriceLeg(p.pool, p.total, p.remaining, progress, current.feeBp, hub.feeBp, p.carrierBonus)
        case Refused(_) => None
        case Price(pricing) =>
          var there, home := km(current.location, hub.location), km(hub.location, trip.destination);
          if there.None? || home.None? then None
          else
            var detour := toCurrent + there.value + home.value - direct;
            var paid := if detour < 0 then 0 else detour;
            var net := pricing.net + pricing.bonus;
            Some(DropOption(hub.id, paid, net, pricing.bonus, net - trip.minRate * paid / 1000, !hub.autoAccept))
  }

  predicate OptionAtMost(a: DropOption, b: DropOption) {
    if a.surplus != b.surplus then a.surplus > b.surplus
    else if a.detour != b.detour then a.detour < b.detour
    else a.hub <= b.hub
  }

  predicate CardAtMost(a: Card, b: Card) {
    if a.isMatch != b.isMatch then a.isMatch
    else if a.best.surplus != b.best.surplus then a.best.surplus > b.best.surplus
    else a.shipment <= b.shipment
  }

  // ----------------------------------------------------------- loops that collect

  function Collected<T, U>(f: T -> Option<U>, xs: seq<T>): seq<U> {
    if xs == [] then []
    else Collected(f, xs[..|xs| - 1]) + (match f(xs[|xs| - 1]) case None => [] case Some(u) => [u])
  }

  lemma {:induction false} CollectedConcat<T, U>(f: T -> Option<U>, xs: seq<T>, ys: seq<T>)
    ensures Collected(f, xs + ys) == Collected(f, xs) + Collected(f, ys)
    decreases |ys|
  {
    if ys == [] {
      assert xs + ys == xs;
    } else {
      CollectedConcat(f, xs, ys[..|ys| - 1]);
      assert (xs + ys)[..|xs + ys| - 1] == xs + ys[..|ys| - 1];
    }
  }

  lemma {:induction false} CollectedIn<T, U>(f: T -> Option<U>, xs: seq<T>)
    ensures forall u :: u in Collected(f, xs) <==> exists x :: x in xs && f(x) == Some(u)
  {
    if xs != [] {
      var init, last := xs[..|xs| - 1], xs[|xs| - 1];
      CollectedIn(f, init);
      assert xs == init + [last];
    }
  }

  lemma CollectedMiddle<T, U>(f: T -> Option<U>, l: seq<T>, x: T, r: seq<T>)
    ensures multiset(Collected(f, l + [x] + r)) == multiset(Collected(f, l + r)) + multiset(Collected(f, [x]))
  {
    CollectedConcat(f, l + [x], r);
    CollectedConcat(f, l, [x]);
    CollectedConcat(f, l, r);
  }

  /** Some occurrence of `x`, and what is left without it. */
  lemma Without<T>(ys: seq<T>, x: T) returns (l: seq<T>, r: seq<T>)
    requires x in ys
    ensures ys == l + [x] + r
  {
    var k :| 0 <= k < |ys| && ys[k] == x;
    l, r := ys[..k], ys[k + 1..];
  }

  /** A shuffled input collects the same elements. */
  lemma {:induction false} CollectedShuffled<T, U>(f: T -> Option<U>, xs: seq<T>, ys: seq<T>)
    requires multiset(xs) == multiset(ys)
    ensures multiset(Collected(f, xs)) == multiset(Collected(f, ys))
    decreases |xs|
  {
    SameElements(xs, ys);
    hide Collected;
    if xs == [] {
      assert ys == [];
    } else {
      var rest, x := xs[1..], xs[0];
      assert x in ys;
      var l, r := Without(ys, x);
      Middle([], x, rest);
      Middle(l, x, r);
      assert xs == [] + [x] + rest && [] + rest == rest;
      CancelOne(multiset(rest), multiset(l + r), x);
      CollectedShuffled(f, rest, l + r);
      CollectedMiddle(f, [], x, rest);
      CollectedMiddle(f, l, x, r);
    }
  }

  // ----------------------------------------------------------- one card

  function HubById(hubs: seq<Hub>, id: nat): Option<Hub> {
    if hubs == [] then None
    else if hubs[|hubs| - 1].id == id then Some(hubs[|hubs| - 1])
    else HubById(hubs[..|hubs| - 1], id)
  }

  function Within(options: seq<DropOption>, maxDeviation: Metres): seq<DropOption> {
    Collected((o: DropOption) => if o.detour <= maxDeviation then Some(o) else None, options)
  }

  /** The options the proposal is chosen from. */
  function ChosenFrom(options: seq<DropOption>, maxDeviation: Metres): seq<DropOption> {
    if Within(options, maxDeviation) != [] then Within(options, maxDeviation) else options
  }

  function Choose(shipment: nat, options: seq<DropOption>, maxDeviation: Metres): Option<Card> {
    var pool := SortBy(ChosenFrom(options, maxDeviation), OptionAtMost);
    if pool == [] then None
    else
      Some(Card(shipment, pool[0], pool[1..if 1 + MAX_ALTERNATIVE_DROP_HUBS < |pool| then 1 + MAX_ALTERNATIVE_DROP_HUBS else |pool|],
                Within(options, maxDeviation) != [] && pool[0].surplus >= 0))
  }

  /** A shipment's card; the outer level is the throw on an unknown way to its hub. */
  function CardOf(trip: Trip, p: Parcel, hubs: seq<Hub>, km: Provider, direct: Metres): Option<Option<Card>> {
    var current, dest := HubById(hubs, p.currentHub), HubById(hubs, p.destHub);
    if current.None? || dest.None? || !Rankable(p) then Some(None)
    else
      match km(trip.origin, current.value.location)
      case None => None
      case Some(toCurrent) =>
        Some(Choose(p.id,
                    Collected(hub => OptionAt(trip, p, current.value, dest.value, km, direct, toCurrent, hub), hubs),
                    trip.maxDeviation))
  }

  method EvaluateShipment(trip: Trip, p: Parcel, hubs: seq<Hub>, km: Provider, direct: Metres) returns (r: Option<Option<Card>>)
    ensures r == CardOf(trip, p, hubs, km, direct)
  {
    var current, dest := HubById(hubs, p.currentHub), HubById(hubs, p.destHub);
    if current.None? || dest.None? || !Rankable(p) { return Some(None); }
    var toCurrent := km(trip.origin, current.value.location);
    if toCurrent.None? { return None; }
    var f := hub => OptionAt(trip, p, current.value, dest.value, km, direct, toCurrent.value, hub);
    var options: seq<DropOption> := [];
    for i := 0 to |hubs|
      invariant options == Collected(f, hubs[..i])
    {
      assert hubs[..i + 1][..i] == hubs[..i];
      match f(hubs[i])
      case None =>
      case Some(o) => options := options + [o];
    }
    assert hubs[..|hubs|] == hubs;
    return Some(Choose(p.id, options, trip.maxDeviation));
  }

  // ----------------------------------------------------------- the board

  predicate Throws(trip: Trip, parcels: seq<Parcel>, hubs: seq<Hub>, km: Provider) {
    || km(trip.origin, trip.destination).None?
    || exists p <- parcels :: CardOf(trip, p, hubs, km, km(trip.origin, trip.destination).value).None?
  }

  function Cards(trip: Trip, parcels: seq<Parcel>, hubs: seq<Hub>, km: Provider, direct: Metres): seq<Card> {
    Collected(p => var c := CardOf(trip, p, hubs, km, direct); if c.None? then None else c.value, parcels)
  }

  function BoardOf(trip: Trip, parcels: seq<Parcel>, hubs: seq<Hub>, km: Provider): Board {
    if trip.maxDeviation < 0 || trip.minRate < 0 then BadTrip
    else if Throws(trip, parcels, hubs, km) then Threw
    else Ranked(SortBy(Cards(trip, parcels, hubs, km, km(trip.origin, trip.destination).value), CardAtMost))
  }

  method RankBoard(trip: Trip, parcels: seq<Parcel>, hubs: seq<Hub>, km: Provider) returns (board: Board)
    ensures board == BoardOf(trip, parcels, hubs, km)
  {
    if trip.maxDeviation < 0 || trip.minRate < 0 { return BadTrip; }
    var direct := km(trip.origin, trip.destination);
    if direct.None? { return Threw; }
    var cards: seq<Card> := [];
    for i := 0 to |parcels|
      invariant cards == Cards(trip, parcels[..i], hubs, km, direct.value)
      invariant forall p <- parcels[..i] :: CardOf(trip, p, hubs, km, direct.value).Some?
    {
      assert parcels[..i + 1][..i] == parcels[..i];
      var card := EvaluateShipment(trip, parcels[i], hubs, km, direct.value);
      if card.None? { return Threw; }
      if card.value.Some? { cards := cards + [card.value.value]; }
    }
    assert parcels[..|parcels|] == parcels;
    return Ranked(SortBy(cards, CardAtMost));
  }

  // ----------------------------------------------------------- what the board promises

  lemma OptionOrderTotal()
    ensures TotalOrder(OptionAtMost)
  {}

  lemma CardOrderTotal()
    ensures TotalOrder(CardAtMost)
  {}

  lemma SortedHead<T(!new)>(s: seq<T>, le: Order<T>)
    requires TotalOrder(le) && s != []
    ensures SortBy(s, le) != [] && SortBy(s, le)[0] in s && forall x <- s :: le(SortBy(s, le)[0], x)
  {
    SortSorts(s, le);
    SameElements(s, SortBy(s, le));
    var t := SortBy(s, le);
    assert t[0] in t;
    forall x | x in s
      ensures le(t[0], x)
    {
      assert x in t;
      var k :| 0 <= k < |t| && t[k] == x;
    }
  }

  lemma WithinAre(options: seq<DropOption>, maxDeviation: Metres)
    ensures forall o :: o in Within(options, maxDeviation) <==> o in options && o.detour <= maxDeviation
  {
    var f := (o: DropOption) => if o.detour <= maxDeviation then Some(o) else None;
    CollectedIn(f, options);
    forall o: DropOption
      ensures o in Within(options, maxDeviation) <==> o in options && o.detour <= maxDeviation
    {
      if o in options && o.detour <= maxDeviation { assert f(o) == Some(o); }
    }
  }

  /** There is a card exactly if there is an option; its proposal is the surplus
      maximum among the options within the deviation, or among all if none is;
      ties go to the shorter detour, then to the lower hub. And it is a match
      exactly if some option within the deviation is worth taking. */
  lemma ProposalIsBest(shipment: nat, options: seq<DropOption>, maxDeviation: Metres)
    ensures Choose(shipment, options, maxDeviation).Some? <==> options != []
    ensures Choose(shipment, options, maxDeviation).Some? ==>
      var c := Choose(shipment, options, maxDeviation).value;
      && c.best in ChosenFrom(options, maxDeviation)
      && (forall o <- ChosenFrom(options, maxDeviation) :: o.surplus <= c.best.surplus && OptionAtMost(c.best, o))
      && (c.isMatch <==> exists o <- options :: o.detour <= maxDeviation && 0 <= o.surplus)
  {
    OptionOrderTotal();
    WithinAre(options, maxDeviation);
    var from := ChosenFrom(options, maxDeviation);
    if options != [] {
      SortedHead(from, OptionAtMost);
      var best := SortBy(from, OptionAtMost)[0];
      if Within(options, maxDeviation) == [] {
        forall o | o in options
          ensures !(o.detour <= maxDeviation)
        {
          assert o !in Within(options, maxDeviation);
        }
      }
    }
  }

  ghost predicate DistinctHubs(hubs: seq<Hub>) {
    forall a, b :: a in hubs && b in hubs && a.id == b.id ==> a == b
  }

  ghost predicate DistinctParcels(parcels: seq<Parcel>) {
    forall a, b :: a in parcels && b in parcels && a.id == b.id ==> a == b
  }

  lemma {:induction false} HubByIdIs(hubs: seq<Hub>, id: nat)
    ensures match HubById(hubs, id) case None => forall h <- hubs :: h.id != id case Some(h) => h in hubs && h.id == id
  {
    if hubs != [] {
      HubByIdIs(hubs[..|hubs| - 1], id);
      assert hubs == hubs[..|hubs| - 1] + [hubs[|hubs| - 1]];
    }
  }

  lemma LookupShuffled(hubs: seq<Hub>, more: seq<Hub>, id: nat)
    requires multiset(hubs) == multiset(more) && DistinctHubs(hubs)
    ensures HubById(hubs, id) == HubById(more, id)
  {
    HubByIdIs(hubs, id);
    HubByIdIs(more, id);
    SameElements(hubs, more);
  }

  /** Options of different hubs never tie. */
  lemma OptionsUntied(options: seq<DropOption>)
    requires forall a, b :: a in options && b in options && a.hub == b.hub ==> a == b
    ensures Untied(options, OptionAtMost)
  {}

  lemma OptionNamesItsHub(trip: Trip, p: Parcel, current: Hub, dest: Hub, km: Provider, direct: Metres, toCurrent: Metres, hub: Hub)
    ensures OptionAt(trip, p, current, dest, km, direct, toCurrent, hub).Some? ==>
              OptionAt(trip, p, current, dest, km, direct, toCurrent, hub).value.hub == hub.id
  {
    hide PriceLeg, HubAccepts, LongEnough;
  }

  /** The order of the hubs makes no difference to a card. */
  lemma CardOfShuffledHubs(trip: Trip, p: Parcel, hubs: seq<Hub>, more: seq<Hub>, km: Provider, direct: Metres)
    requires multiset(hubs) == multiset(more) && DistinctHubs(hubs)
    ensures CardOf(trip, p, hubs, km, direct) == CardOf(trip, p, more, km, direct)
  {
    LookupShuffled(hubs, more, p.currentHub);
    LookupShuffled(hubs, more, p.destHub);
    var current, dest := HubById(hubs, p.currentHub), HubById(hubs, p.destHub);
    if current.Some? && dest.Some? && Rankable(p) && km(trip.origin, current.value.location).Some? {
      var toCurrent := km(trip.origin, current.value.location).value;
      var f := hub => OptionAt(trip, p, current.value, dest.value, km, direct, toCurrent, hub);
      CollectedShuffled(f, hubs, more);
      CollectedIn(f, hubs);
      forall h: Hub ensures f(h).Some? ==> f(h).value.hub == h.id {
        OptionNamesItsHub(trip, p, current.value, dest.value, km, direct, toCurrent, h);
      }
      hide OptionAt;
      ChooseShuffled(p.id, Collected(f, hubs), Collected(f, more), trip.maxDeviation);
    }
  }

  lemma ChooseShuffled(shipment: nat, options: seq<DropOption>, more: seq<DropOption>, maxDeviation: Metres)
    requires multiset(options) == multiset(more)
    requires forall a, b :: a in options && b in options && a.hub == b.hub ==> a == b
    ensures Choose(shipment, options, maxDeviation) == Choose(shipment, more, maxDeviation)
  {
    hide OptionAtMost;
    OptionOrderTotal();
    ChosenFromShuffled(options, more, maxDeviation);
    OptionsUntied(ChosenFrom(options, maxDeviation));
    ShuffleSorts(ChosenFrom(options, maxDeviation), ChosenFrom(more, maxDeviation), OptionAtMost);
    hide ChosenFrom, Within, SortBy;
  }

  lemma ChosenFromShuffled(options: seq<DropOption>, more: seq<DropOption>, maxDeviation: Metres)
    requires multiset(options) == multiset(more)
    ensures multiset(ChosenFrom(options, maxDeviation)) == multiset(ChosenFrom(more, maxDeviation))
    ensures (Within(options, maxDeviation) == []) == (Within(more, maxDeviation) == [])
    ensures forall o <- ChosenFrom(options, maxDeviation) :: o in options
  {
    CollectedShuffled((o: DropOption) => if o.detour <= maxDeviation then Some(o) else None, options, more);
    WithinAre(options, maxDeviation);
    SameElements(Within(options, maxDeviation), Within(more, maxDeviation));
  }

  /** A shipment has at most one card, under its own id. */
  lemma CardsUntied(trip: Trip, parcels: seq<Parcel>, hubs: seq<Hub>, km: Provider, direct: Metres)
    requires DistinctParcels(parcels)
    ensures Untied(Cards(trip, parcels, hubs, km, direct), CardAtMost)
  {
    var f := p => var c := CardOf(trip, p, hubs, km, direct); if c.None? then None else c.value;
    forall p: Parcel ensures f(p).Some? ==> f(p).value.shipment == p.id {
      CardNamesItsShipment(trip, p, hubs, km, direct);
    }
    UntiedByShipment(f, parcels);
  }

  lemma UntiedByShipment(f: Parcel -> Option<Card>, parcels: seq<Parcel>)
    requires DistinctParcels(parcels) && forall p: Parcel :: f(p).Some? ==> f(p).value.shipment == p.id
    ensures Untied(Collected(f, parcels), CardAtMost)
  {
    CollectedIn(f, parcels);
  }

  lemma CardNamesItsShipment(trip: Trip, p: Parcel, hubs: seq<Hub>, km: Provider, direct: Metres)
    ensures var c := CardOf(trip, p, hubs, km, direct); c.Some? && c.value.Some? ==> c.value.value.shipment == p.id
  {
    hide OptionAt;
  }

  /** The board does not depend on the order of its shipments. */
  lemma BoardShuffledParcels(trip: Trip, parcels: seq<Parcel>, more: seq<Parcel>, hubs: seq<Hub>, km: Provider)
    requires multiset(parcels) == multiset(more) && DistinctParcels(parcels)
    ensures BoardOf(trip, parcels, hubs, km) == BoardOf(trip, more, hubs, km)
  {
    hide CardOf, Cards, SortBy, CardAtMost;
    SameElements(parcels, more);
    if km(trip.origin, trip.destination).Some? {
      var direct := km(trip.origin, trip.destination).value;
      CardsShuffled(trip, parcels, more, hubs, km, direct);
      CardsUntied(trip, parcels, hubs, km, direct);
      CardOrderTotal();
      ShuffleSorts(Cards(trip, parcels, hubs, km, direct), Cards(trip, more, hubs, km, direct), CardAtMost);
    }
  }

  lemma CardsShuffled(trip: Trip, parcels: seq<Parcel>, more: seq<Parcel>, hubs: seq<Hub>, km: Provider, direct: Metres)
    requires multiset(parcels) == multiset(more)
    ensures multiset(Cards(trip, parcels, hubs, km, direct)) == multiset(Cards(trip, more, hubs, km, direct))
  {
    hide CardOf;
    CollectedShuffled(p => var c := CardOf(trip, p, hubs, km, direct); if c.None? then None else c.value, parcels, more);
  }

  // ----------------------------------------------------------- the board of a trip

  /** What a shipment is ranked by: the hubs resolved for it, and its metric. */
  datatype View = View(hubs: seq<Hub>, km: Provider)

  /** A shipment's card under its own view. */
  function CardUnder(trip: Trip, p: Parcel, v: View): Option<Card> {
    match v.km(trip.origin, trip.destination)
    case None => None
    case Some(direct) =>
      var c := CardOf(trip, p, v.hubs, v.km, direct);
      if c.None? then None else c.value
  }

  function EachCard(trip: Trip, parcels: seq<Parcel>, view: Parcel -> View): seq<Card> {
    Collected(p => CardUnder(trip, p, view(p)), parcels)
  }

  /** Ranking each shipment on its own. */
  method RankEach(trip: Trip, parcels: seq<Parcel>, view: Parcel -> View) returns (cards: seq<Card>)
    requires 0 <= trip.maxDeviation && 0 <= trip.minRate
    requires forall p <- parcels :: !Throws(trip, [p], view(p).hubs, view(p).km)
    ensures cards == EachCard(trip, parcels, view)
  {
    cards := [];
    for i := 0 to |parcels|
      invariant cards == EachCard(trip, parcels[..i], view)
    {
      assert parcels[..i + 1][..i] == parcels[..i];
      var p := parcels[i];
      assert p in parcels;
      var board := RankBoard(trip, [p], view(p).hubs, view(p).km);
      OwnBoard(trip, p, view(p));
      if board.cards != [] { cards := cards + [board.cards[0]]; }
    }
    assert parcels[..|parcels|] == parcels;
  }

  lemma OwnBoard(trip: Trip, p: Parcel, v: View)
    requires 0 <= trip.maxDeviation && 0 <= trip.minRate && !Throws(trip, [p], v.hubs, v.km)
    ensures BoardOf(trip, [p], v.hubs, v.km) ==
            Ranked(match CardUnder(trip, p, v) case None => [] case Some(c) => [c])
  {
    hide CardOf;
    assert p in [p] && [p][..0] == [];
    var direct := v.km(trip.origin, trip.destination).value;
    OneCard(trip, p, v.hubs, v.km, direct);
  }

  lemma OneCard(trip: Trip, p: Parcel, hubs: seq<Hub>, km: Provider, direct: Metres)
    ensures var c := CardOf(trip, p, hubs, km, direct);
      SortBy(Cards(trip, [p], hubs, km, direct), CardAtMost) ==
      if c.None? || c.value.None? then [] else [c.value.value]
  {
    hide CardOf;
    var f := p => var c := CardOf(trip, p, hubs, km, direct); if c.None? then None else c.value;
    CollectedOne(f, p);
    if f(p).Some? { SortOne(f(p).value, CardAtMost); }
  }

  lemma CollectedOne<T, U>(f: T -> Option<U>, x: T)
    ensures Collected(f, [x]) == match f(x) case None => [] case Some(u) => [u]
  {
    assert [x][..0] == [];
  }

  lemma SortOne<T(!new)>(x: T, le: Order<T>)
    ensures SortBy([x], le) == [x]
  {}

  lemma {:induction false} CollectedSame<T, U>(f: T -> Option<U>, g: T -> Option<U>, xs: seq<T>)
    requires forall x <- xs :: f(x) == g(x)
    ensures Collected(f, xs) == Collected(g, xs)
  {
    if xs != [] {
      assert xs[|xs| - 1] in xs && forall x <- xs[..|xs| - 1] :: x in xs;
      CollectedSame(f, g, xs[..|xs| - 1]);
    }
  }

  /** One group ranked together, every shipment of another on its own and by its own
      hubs and metric, and all cards sorted: that is one ranking of all shipments,
      each under its view. With one view for all it is the board of the union. */
  lemma MergedBoards(trip: Trip, a: seq<Parcel>, b: seq<Parcel>, common: View, view: Parcel -> View)
    requires DistinctParcels(a + b) && (forall p <- a :: view(p) == common)
    requires BoardOf(trip, a, common.hubs, common.km).Ranked?
    ensures SortBy(BoardOf(trip, a, common.hubs, common.km).cards + EachCard(trip, b, view), CardAtMost)
         == SortBy(EachCard(trip, a + b, view), CardAtMost)
    ensures (forall p <- b :: view(p) == common) ==>
      SortBy(EachCard(trip, a + b, view), CardAtMost) ==
      SortBy(Cards(trip, a + b, common.hubs, common.km, common.km(trip.origin, trip.destination).value), CardAtMost)
  {
    hide CardOf, CardAtMost, SortBy;
    var direct := common.km(trip.origin, trip.destination).value;
    var f := p => CardUnder(trip, p, view(p));
    var g := p => var c := CardOf(trip, p, common.hubs, common.km, direct); if c.None? then None else c.value;
    CollectedSame(f, g, a);
    CollectedConcat(f, a, b);
    if forall p <- b :: view(p) == common { CollectedSame(f, g, a + b); }
    forall p: Parcel ensures f(p).Some? ==> f(p).value.shipment == p.id {
      if view(p).km(trip.origin, trip.destination).Some? {
        CardNamesItsShipment(trip, p, view(p).hubs, view(p).km, view(p).km(trip.origin, trip.destination).value);
      }
    }
    UntiedByShipment(f, a + b);
    CardOrderTotal();
    SortSorts(Collected(g, a), CardAtMost);
    ShuffleSorts(EachCard(trip, a + b, view), SortBy(Collected(g, a), CardAtMost) + EachCard(trip, b, view), CardAtMost);
  }

  /** So the board of a trip does not depend on the order of its shipments, whatever
      their metrics. */
  lemma TripBoardShuffled(trip: Trip, parcels: seq<Parcel>, more: seq<Parcel>, view: Parcel -> View)
    requires multiset(parcels) == multiset(more) && DistinctParcels(parcels)
    ensures SortBy(EachCard(trip, parcels, view), CardAtMost) == SortBy(EachCard(trip, more, view), CardAtMost)
  {
    hide CardOf, CardAtMost, SortBy;
    var f := p => CardUnder(trip, p, view(p));
    CollectedShuffled(f, parcels, more);
    forall p: Parcel ensures f(p).Some? ==> f(p).value.shipment == p.id {
      if view(p).km(trip.origin, trip.destination).Some? {
        CardNamesItsShipment(trip, p, view(p).hubs, view(p).km, view(p).km(trip.origin, trip.destination).value);
      }
    }
    UntiedByShipment(f, parcels);
    CardOrderTotal();
    ShuffleSorts(EachCard(trip, parcels, view), EachCard(trip, more, view), CardAtMost);
  }
}
