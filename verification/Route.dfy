/** The carrier's route: a subset dynamic programme over at most nine stops,
    against "the cheapest of all orders with every pickup before its drops". */
module Route {
  import opened Masks
  import opened Sorting

  const MAX_ROUTE_WAYPOINTS: nat := 9

  type Point = (int, int)

  datatype Kind = Pickup | Drop

  /** Shipments and hubs by the rank of their identifiers. */
  datatype Stop = Stop(shipment: nat, kind: Kind, hub: nat, point: Point)

  datatype Tour = Tour(origin: Point, destination: Point, stops: seq<Stop>, metres: (Point, Point) -> int)

  datatype Cost = Infinite | Finite(metres: int)

  datatype Cell = Cell(cost: Cost, parent: int)

  datatype Answer = TooMany | Unroutable | Routed(stops: seq<Stop>)

  predicate Less(a: Cost, b: Cost) {
    a.Finite? && (b.Finite? ==> a.metres < b.metres)
  }

  function Plus(a: Cost, metres: int): Cost {
    if a.Finite? then Finite(a.metres + metres) else Infinite
  }

  // ----------------------------------------------------------- canonical order

  function Compare(a: Stop, b: Stop): int {
    if a.shipment != b.shipment then if a.shipment < b.shipment then -1 else 1
    else if a.kind != b.kind then if a.kind == Pickup then -1 else 1
    else if a.hub < b.hub then -1 else if a.hub > b.hub then 1 else 0
  }

  predicate AtMost(a: Stop, b: Stop) {
    Compare(a, b) <= 0
  }

  /** The stops sorted, equal ones kept in their order. */
  function Canonical(s: seq<Stop>): seq<Stop> {
    SortBy(s, AtMost)
  }

  predicate Ascending(s: seq<Stop>) {
    SortedBy(s, AtMost)
  }

  lemma CanonicalSorts(s: seq<Stop>)
    ensures Ascending(Canonical(s)) && multiset(Canonical(s)) == multiset(s)
  {
    SortSorts(s, AtMost);
  }

  // ----------------------------------------------------------- what a route is worth

  /** Metres from the origin along the stops, up to the last of them. */
  function Travelled(origin: Point, route: seq<Stop>, metres: (Point, Point) -> int): int
    requires route != []
  {
    var last := route[|route| - 1];
    if |route| == 1 then metres(origin, last.point)
    else Travelled(origin, route[..|route| - 1], metres) + metres(route[|route| - 2].point, last.point)
  }

  /** Length of the open path origin → stops → destination. */
  function Length(t: Tour, route: seq<Stop>): int {
    if route == [] then t.metres(t.origin, t.destination)
    else Travelled(t.origin, route, t.metres) + t.metres(route[|route| - 1].point, t.destination)
  }

  /** No pickup after a drop of its shipment. */
  predicate Ordered(route: seq<Stop>) {
    forall i, j :: 0 <= i < j < |route| && route[i].shipment == route[j].shipment ==>
      !(route[i].kind == Drop && route[j].kind == Pickup)
  }

  /** The orders a carrier may drive. */
  predicate Drivable(t: Tour, route: seq<Stop>) {
    multiset(route) == multiset(t.stops) && Ordered(route)
  }

  // ----------------------------------------------------------- the recurrence

  predicate MustPrecede(t: Tour, j: nat, i: nat)
    requires i < |t.stops| && j < |t.stops|
  {
    t.stops[i].kind == Drop && t.stops[j].kind == Pickup && t.stops[j].shipment == t.stops[i].shipment
  }

  /** Everything stop `i` waits for is in the mask. */
  predicate Allowed(t: Tour, m: nat, i: nat)
    requires i < |t.stops|
  {
    forall j: nat :: j < |t.stops| && MustPrecede(t, j, i) ==> Has(m, j)
  }

  function From(t: Tour, i: nat): int
    requires i < |t.stops|
  {
    t.metres(t.origin, t.stops[i].point)
  }

  function Hop(t: Tour, l: nat, i: nat): int
    requires l < |t.stops| && i < |t.stops|
  {
    t.metres(t.stops[l].point, t.stops[i].point)
  }

  function To(t: Tour, i: nat): int
    requires i < |t.stops|
  {
    t.metres(t.stops[i].point, t.destination)
  }

  /** Cheapest way to reach stop `i` having visited exactly the stops of the
      mask, and the stop before it on that way. */
  function Best(t: Tour, m: nat, i: nat): Cell
    requires i < |t.stops|
    decreases m, 0
  {
    if !Has(m, i) then Cell(Infinite, -1)
    else
      Without(m, i);
      var p := m - Bit(i);
      if !Allowed(t, p, i) then Cell(Infinite, -1)
      else if p == 0 then Cell(Finite(From(t, i)), -1)
      else Scan(t, p, i, |t.stops|)
  }

  /** The best of the first `upto` predecessors, the lowest on a tie. */
  function Scan(t: Tour, p: nat, i: nat, upto: nat): Cell
    requires i < |t.stops| && upto <= |t.stops|
    decreases p, 1 + upto
  {
    if upto == 0 then Cell(Infinite, -1)
    else
      var sofar := Scan(t, p, i, upto - 1);
      var l := upto - 1;
      var through := Plus(Best(t, p, l).cost, Hop(t, l, i));
      if Has(p, l) && Less(through, sofar.cost) then Cell(through, l) else sofar
  }

  lemma {:induction false} ScanFinds(t: Tour, p: nat, i: nat, upto: nat)
    requires i < |t.stops| && upto <= |t.stops|
    ensures var c := Scan(t, p, i, upto);
      if c.cost.Infinite? then c.parent == -1
      else 0 <= c.parent < upto && Has(p, c.parent) && Best(t, p, c.parent).cost.Finite?
           && c.cost == Plus(Best(t, p, c.parent).cost, Hop(t, c.parent, i))
    ensures forall l: nat :: l < upto && Has(p, l) ==> !Less(Plus(Best(t, p, l).cost, Hop(t, l, i)), Scan(t, p, i, upto).cost)
  {
    if upto > 0 { ScanFinds(t, p, i, upto - 1); }
  }

  // ----------------------------------------------------------- orders of indices

  predicate InRange(t: Tour, order: seq<nat>) {
    forall k :: 0 <= k < |order| ==> order[k] < |t.stops|
  }

  /** The stops of an order of indices. */
  function Visit(t: Tour, order: seq<nat>): seq<Stop>
    requires InRange(t, order)
  {
    seq(|order|, k requires 0 <= k < |order| => t.stops[order[k]])
  }

  /** An order of exactly the stops of the mask in which nobody is visited too early. */
  predicate Walk(t: Tour, order: seq<nat>, m: nat)
    requires InRange(t, order)
    decreases |order|
  {
    if order == [] then m == 0
    else
      var i, init := order[|order| - 1], order[..|order| - 1];
      && Has(m, i)
      && (Without(m, i); Allowed(t, m - Bit(i), i) && Walk(t, init, m - Bit(i)))
  }

  lemma WalkLonger(t: Tour, order: seq<nat>, m: nat, i: nat)
    requires InRange(t, order) && Walk(t, order, m) && i < |t.stops| && !Has(m, i) && Allowed(t, m, i)
    ensures Walk(t, order + [i], m + Bit(i))
  {
    With(m, i);
    assert (order + [i])[..|order|] == order;
  }

  lemma TravelledLonger(t: Tour, order: seq<nat>, i: nat)
    requires order != [] && i < |t.stops| && InRange(t, order)
    ensures Travelled(t.origin, Visit(t, order + [i]), t.metres)
         == Travelled(t.origin, Visit(t, order), t.metres) + Hop(t, order[|order| - 1], i)
  {
    var longer := Visit(t, order + [i]);
    assert longer[..|longer| - 1] == Visit(t, order);
  }

  /** The recurrence's answer, followed back through the parents. */
  function Rebuild(t: Tour, m: nat, i: nat): seq<nat>
    requires i < |t.stops|
    decreases m
  {
    ScanFinds(t, if Has(m, i) && Bit(i) <= m then m - Bit(i) else 0, i, |t.stops|);
    var parent := Best(t, m, i).parent;
    if parent < 0 then [i]
    else
      Without(m, i);
      Rebuild(t, m - Bit(i), parent) + [i]
  }

  /** A finite entry is the length of the order it is followed back to. */
  lemma {:induction false} BestIsAWalk(t: Tour, m: nat, i: nat)
    requires i < |t.stops| && Best(t, m, i).cost.Finite?
    ensures var order := Rebuild(t, m, i);
      && InRange(t, order) && Walk(t, order, m) && order != [] && order[|order| - 1] == i
      && Travelled(t.origin, Visit(t, order), t.metres) == Best(t, m, i).cost.metres
    decreases m
  {
    hide Walk, Bit;
    Without(m, i);
    var p := m - Bit(i);
    if p == 0 {
      WalkLonger(t, [], 0, i);
      assert [] + [i] == [i];
    } else {
      ScanFinds(t, p, i, |t.stops|);
      var l := Best(t, m, i).parent;
      BestIsAWalk(t, p, l);
      WalkLonger(t, Rebuild(t, p, l), p, i);
      TravelledLonger(t, Rebuild(t, p, l), i);
    }
  }

  /** No order of the same stops with the same end is shorter. */
  lemma {:induction false} NoWalkIsShorter(t: Tour, m: nat, order: seq<nat>)
    requires order != [] && InRange(t, order) && Walk(t, order, m)
    ensures var c := Best(t, m, order[|order| - 1]).cost;
      c.Finite? && c.metres <= Travelled(t.origin, Visit(t, order), t.metres)
    decreases |order|
  {
    var i, init := order[|order| - 1], order[..|order| - 1];
    Without(m, i);
    if init != [] {
      var p, l := m - Bit(i), init[|init| - 1];
      ZeroHasNone(l);
      NoWalkIsShorter(t, p, init);
      ScanFinds(t, p, i, |t.stops|);
      assert init + [i] == order;
      TravelledLonger(t, init, i);
    }
  }

  /** What a walk visits, and how often. */
  lemma {:induction false} WalkMembers(t: Tour, order: seq<nat>, m: nat)
    requires InRange(t, order) && Walk(t, order, m)
    ensures forall j: nat :: Has(m, j) <==> j in order
    ensures forall a, b :: 0 <= a < b < |order| ==> order[a] != order[b]
    decreases |order|
  {
    if order == [] {
      forall j: nat ensures !Has(0, j) { ZeroHasNone(j); }
    } else {
      var i, init := order[|order| - 1], order[..|order| - 1];
      Without(m, i);
      WalkMembers(t, init, m - Bit(i));
      assert order == init + [i];
    }
  }
  // ----------------------------------------------------------- the best end

  /** Scan of the last stops, the lowest on a tie. */
  function Finish(t: Tour, upto: nat): Cell
    requires upto <= |t.stops|
  {
    if upto == 0 then Cell(Infinite, -1)
    else
      var sofar, i := Finish(t, upto - 1), upto - 1;
      var whole := Plus(Best(t, Bit(|t.stops|) - 1, i).cost, To(t, i));
      if Less(whole, sofar.cost) then Cell(whole, i) else sofar
  }

  lemma {:induction false} FinishFinds(t: Tour, upto: nat)
    requires upto <= |t.stops|
    ensures var c, full := Finish(t, upto), Bit(|t.stops|) - 1;
      && (c.parent < 0 <==> c.cost.Infinite?)
      && (c.cost.Finite? ==> c.parent < upto && c.cost == Plus(Best(t, full, c.parent).cost, To(t, c.parent)))
      && forall i: nat :: i < upto ==> !Less(Plus(Best(t, full, i).cost, To(t, i)), c.cost)
  {
    if upto > 0 { FinishFinds(t, upto - 1); }
  }

  /** The route as a function of the sorted stops. */
  function BestOrder(t: Tour): Answer {
    if |t.stops| > MAX_ROUTE_WAYPOINTS then TooMany
    else if t.stops == [] then Routed([])
    else
      FinishFinds(t, |t.stops|);
      var last := Finish(t, |t.stops|).parent;
      if last < 0 then Unroutable else Routed(RouteTo(t, last))
  }

  /** The stops in the order the table keeps for all of them with this end. */
  function RouteTo(t: Tour, last: nat): seq<Stop>
    requires last < |t.stops|
  {
    IndicesInRange(t, Bit(|t.stops|) - 1, last);
    Visit(t, Rebuild(t, Bit(|t.stops|) - 1, last))
  }

  lemma {:induction false} IndicesInRange(t: Tour, m: nat, i: nat)
    requires i < |t.stops|
    ensures InRange(t, Rebuild(t, m, i))
    decreases m
  {
    ScanFinds(t, if Has(m, i) && Bit(i) <= m then m - Bit(i) else 0, i, |t.stops|);
    var parent := Best(t, m, i).parent;
    if parent >= 0 {
      Without(m, i);
      IndicesInRange(t, m - Bit(i), parent);
    }
  }

  // ----------------------------------------------------------- walks are drivable routes

  lemma {:induction false} VisitedBefore(t: Tour, order: seq<nat>, m: nat, a: nat, j: nat)
    requires InRange(t, order) && Walk(t, order, m) && a < |order| && j < |t.stops| && MustPrecede(t, j, order[a])
    ensures j in order[..a]
    decreases |order|
  {
    var i, init := order[|order| - 1], order[..|order| - 1];
    Without(m, i);
    if a == |order| - 1 {
      WalkMembers(t, init, m - Bit(i));
    } else {
      VisitedBefore(t, init, m - Bit(i), a, j);
      assert init[..a] == order[..a];
    }
  }

  lemma WalkIsOrdered(t: Tour, order: seq<nat>, m: nat)
    requires InRange(t, order) && Walk(t, order, m)
    ensures Ordered(Visit(t, order))
  {
    WalkMembers(t, order, m);
    var route := Visit(t, order);
    forall a, b | 0 <= a < b < |route| && route[a].shipment == route[b].shipment
      ensures !(route[a].kind == Drop && route[b].kind == Pickup)
    {
      if route[a].kind == Drop && route[b].kind == Pickup { VisitedBefore(t, order, m, a, order[b]); }
    }
  }

  ghost predicate Permutation(n: nat, order: seq<nat>) {
    && (forall k :: 0 <= k < |order| ==> order[k] < n)
    && (forall a, b :: 0 <= a < b < |order| ==> order[a] != order[b])
    && (forall j: nat :: j < n ==> j in order)
  }

  function Pick(stops: seq<Stop>, order: seq<nat>): seq<Stop>
    requires forall k :: 0 <= k < |order| ==> order[k] < |stops|
  {
    seq(|order|, k requires 0 <= k < |order| => stops[order[k]])
  }

  lemma SomeIndex(order: seq<nat>)
    requires order != []
    ensures exists k :: 0 <= k < |order| && order[k] >= 0
  {
    assert order[0] >= 0;
  }

  lemma {:induction false} PickIsPermutation(stops: seq<Stop>, order: seq<nat>)
    requires Permutation(|stops|, order)
    ensures multiset(Pick(stops, order)) == multiset(stops)
    decreases |stops|
  {
    if stops == [] {
      if order != [] { SomeIndex(order); }
    } else {
      var n := |stops| - 1;
      var k := PositionOf(n, order);
      RestIsPermutation(n, order, k);
      PickIsPermutation(stops[..n], order[..k] + order[k + 1..]);
      PickSplits(stops, order, k);
    }
  }

  lemma PositionOf(j: nat, order: seq<nat>) returns (k: nat)
    requires j in order
    ensures k < |order| && order[k] == j
  {
    k :| 0 <= k < |order| && order[k] == j;
  }

  /** Taking the last stop out of a picked order. */
  lemma PickSplits(stops: seq<Stop>, order: seq<nat>, k: nat)
    requires stops != [] && Permutation(|stops|, order) && k < |order| && order[k] == |stops| - 1
    requires Permutation(|stops| - 1, order[..k] + order[k + 1..])
    ensures multiset(Pick(stops, order))
         == multiset(Pick(stops[..|stops| - 1], order[..k] + order[k + 1..])) + multiset{stops[|stops| - 1]}
    ensures multiset(stops) == multiset(stops[..|stops| - 1]) + multiset{stops[|stops| - 1]}
  {
    var n, rest := |stops| - 1, order[..k] + order[k + 1..];
    var l, r := Pick(stops, order)[..k], Pick(stops, order)[k + 1..];
    Middle(l, stops[n], r);
    assert Pick(stops, order) == l + [stops[n]] + r;
    assert Pick(stops[..n], rest) == l + r;
    Middle(stops[..n], stops[n], []);
    assert stops == stops[..n] + [stops[n]] + [];
    assert stops[..n] + [] == stops[..n];
  }

  lemma RestIsPermutation(n: nat, order: seq<nat>, k: nat)
    requires Permutation(n + 1, order) && k < |order| && order[k] == n
    ensures Permutation(n, order[..k] + order[k + 1..])
  {
    var rest := order[..k] + order[k + 1..];
    forall j: nat | j < n
      ensures j in rest
    {
      assert j in order;
      assert order == order[..k] + [order[k]] + order[k + 1..];
    }
  }

  /** Any rearrangement of the stops is an order of their indices. */
  lemma {:induction false} OrderOf(stops: seq<Stop>, route: seq<Stop>) returns (order: seq<nat>)
    requires multiset(route) == multiset(stops)
    ensures Permutation(|stops|, order) && Pick(stops, order) == route
    decreases |stops|
  {
    if stops == [] {
      assert |multiset(route)| == 0;
      order := [];
    } else {
      var n := |stops| - 1;
      var k := Extracted(stops, route);
      var rest := route[..k] + route[k + 1..];
      var inner := OrderOf(stops[..n], rest);
      assert |inner| == |rest|;
      order := inner[..k] + [n] + inner[k..];
      GrownIsPermutation(n, inner, k);
      PickGrown(stops, inner, k, route);
    }
  }

  /** The last stop is somewhere in the rearrangement; the rest match up. */
  lemma Extracted(stops: seq<Stop>, route: seq<Stop>) returns (k: nat)
    requires stops != [] && multiset(route) == multiset(stops)
    ensures k < |route| && route[k] == stops[|stops| - 1]
    ensures multiset(route[..k] + route[k + 1..]) == multiset(stops[..|stops| - 1])
  {
    var n := |stops| - 1;
    assert stops[n] in multiset(route);
    k :| 0 <= k < |route| && route[k] == stops[n];
    Middle(route[..k], route[k], route[k + 1..]);
    assert route == route[..k] + [route[k]] + route[k + 1..];
    Middle(stops[..n], stops[n], []);
    assert stops == stops[..n] + [stops[n]] + [];
    assert stops[..n] + [] == stops[..n];
    CancelOne(multiset(route[..k] + route[k + 1..]), multiset(stops[..n]), stops[n]);
  }

  lemma GrownIsPermutation(n: nat, inner: seq<nat>, k: nat)
    requires Permutation(n, inner) && k <= |inner|
    ensures Permutation(n + 1, inner[..k] + [n] + inner[k..])
  {
    var order := inner[..k] + [n] + inner[k..];
    forall j: nat | j < n + 1
      ensures j in order
    {
      if j < n {
        assert j in inner;
        var p :| 0 <= p < |inner| && inner[p] == j;
        assert order[if p < k then p else p + 1] == j;
      } else {
        assert order[k] == n;
      }
    }
    forall a, b | 0 <= a < b < |order|
      ensures order[a] != order[b]
    {
      var x, y := if a <= k then a else a - 1, if b <= k then b else b - 1;
      assert a != k ==> order[a] == inner[x];
      assert b != k ==> order[b] == inner[y];
    }
  }

  lemma PickGrown(stops: seq<Stop>, inner: seq<nat>, k: nat, route: seq<Stop>)
    requires stops != [] && Permutation(|stops| - 1, inner) && k < |route| && k <= |inner| && route[k] == stops[|stops| - 1]
    requires Pick(stops[..|stops| - 1], inner) == route[..k] + route[k + 1..]
    ensures var order := inner[..k] + [|stops| - 1] + inner[k..];
      (forall p :: 0 <= p < |order| ==> order[p] < |stops|) && Pick(stops, order) == route
  {
    var order := inner[..k] + [|stops| - 1] + inner[k..];
    var short := Pick(stops[..|stops| - 1], inner);
    forall p | 0 <= p < |route|
      ensures |order| == |route| && stops[order[p]] == route[p]
    {
      if p < k { assert short[p] == route[p]; } else if p > k { assert short[p - 1] == route[p]; }
    }
  }

  function MaskOf(order: seq<nat>): nat {
    if order == [] then 0 else MaskOf(order[..|order| - 1]) + Bit(order[|order| - 1])
  }

  /** A permutation whose stops come in a drivable order is a walk. */
  lemma {:induction false} OrderedIsWalk(t: Tour, order: seq<nat>, k: nat)
    requires Permutation(|t.stops|, order) && k <= |order| && Ordered(Pick(t.stops, order))
    ensures InRange(t, order[..k]) && Walk(t, order[..k], MaskOf(order[..k])) && MaskOf(order[..k]) < Bit(|t.stops|)
  {
    if k > 0 {
      var i, init := order[k - 1], order[..k - 1];
      OrderedIsWalk(t, order, k - 1);
      var m := MaskOf(init);
      WalkMembers(t, init, m);
      assert order[..k] == init + [i];
      assert order[..k][..k - 1] == init;
      assert !Has(m, i);
      AllowedInOrder(t, order, k - 1, m);
      WalkLonger(t, init, m, i);
      WithInRange(m, i, |t.stops|);
    }
  }

  lemma AllowedInOrder(t: Tour, order: seq<nat>, k: nat, m: nat)
    requires Permutation(|t.stops|, order) && k < |order| && Ordered(Pick(t.stops, order))
    requires forall j: nat :: Has(m, j) <==> j in order[..k]
    ensures Allowed(t, m, order[k])
  {
    var route := Pick(t.stops, order);
    forall j: nat | j < |t.stops| && MustPrecede(t, j, order[k])
      ensures Has(m, j)
    {
      assert j in order;
      var b :| 0 <= b < |order| && order[b] == j;
      assert route[b] == t.stops[j] && route[k] == t.stops[order[k]];
      assert b < k;
      assert order[..k][b] == j;
    }
  }

  /** The drivable routes are the walks of the full mask. */
  lemma DrivableIsWalk(t: Tour, route: seq<Stop>) returns (order: seq<nat>)
    requires Drivable(t, route)
    ensures InRange(t, order) && Walk(t, order, Bit(|t.stops|) - 1) && Visit(t, order) == route
  {
    order := OrderOf(t.stops, route);
    OrderedIsWalk(t, order, |order|);
    assert order[..|order|] == order;
    var m, full := MaskOf(order), Bit(|t.stops|) - 1;
    WalkMembers(t, order, m);
    forall i: nat | i < |t.stops|
      ensures Has(m, i) == Has(full, i)
    {
      FullHasAll(|t.stops|, i);
      assert i in order;
    }
    MaskExt(m, full, |t.stops|);
  }

  lemma WalkIsDrivable(t: Tour, order: seq<nat>)
    requires InRange(t, order) && Walk(t, order, Bit(|t.stops|) - 1)
    ensures Drivable(t, Visit(t, order))
  {
    var full := Bit(|t.stops|) - 1;
    WalkMembers(t, order, full);
    WalkIsOrdered(t, order, full);
    forall j: nat | j < |t.stops|
      ensures j in order
    {
      FullHasAll(|t.stops|, j);
    }
    PickIsPermutation(t.stops, order);
    assert Pick(t.stops, order) == Visit(t, order);
  }

  /** Sorted stops are themselves a drivable route: one always exists. */
  lemma SortedIsDrivable(t: Tour)
    requires Ascending(t.stops)
    ensures Drivable(t, t.stops)
  {}

  /** At most nine stops always get a route: a drivable one, and none is shorter. */
  lemma BestOrderIsOptimal(t: Tour)
    requires Ascending(t.stops) && |t.stops| <= MAX_ROUTE_WAYPOINTS
    ensures BestOrder(t).Routed? && Drivable(t, BestOrder(t).stops)
    ensures forall other: seq<Stop> :: Drivable(t, other) ==> Length(t, BestOrder(t).stops) <= Length(t, other)
  {
    if t.stops != [] {
      var n, full := |t.stops|, Bit(|t.stops|) - 1;
      FinishFinds(t, n);
      SortedIsDrivable(t);
      SomeFinish(t, t.stops);
      var last := Finish(t, n).parent;
      BestIsAWalk(t, full, last);
      WalkIsDrivable(t, Rebuild(t, full, last));
      forall other: seq<Stop> | Drivable(t, other)
        ensures Length(t, BestOrder(t).stops) <= Length(t, other)
      {
        SomeFinish(t, other);
      }
    } else {
      forall other: seq<Stop> | Drivable(t, other)
        ensures other == []
      {
        assert |multiset(other)| == |multiset(t.stops)|;
      }
    }
  }

  /** Every drivable route has an end whose entry is no longer than it. */
  lemma SomeFinish(t: Tour, route: seq<Stop>)
    requires t.stops != [] && Drivable(t, route)
    ensures var c := Finish(t, |t.stops|).cost; c.Finite? && c.metres <= Length(t, route)
  {
    var full := Bit(|t.stops|) - 1;
    var order := DrivableIsWalk(t, route);
    assert |multiset(route)| == |t.stops|;
    var i := order[|order| - 1];
    NoWalkIsShorter(t, full, order);
    FinishFinds(t, |t.stops|);
  }

  // ----------------------------------------------------------- independence of the caller's order

  /** Stops that compare equal are the same stop: a hub has one location. */
  ghost predicate Identified(stops: seq<Stop>) {
    forall a, b :: a in stops && b in stops && Compare(a, b) == 0 ==> a == b
  }

  /** Shuffling the stops never changes the answer. */
  lemma ShuffleInvariant(origin: Point, destination: Point, a: seq<Stop>, b: seq<Stop>, metres: (Point, Point) -> int)
    requires multiset(a) == multiset(b) && Identified(a)
    ensures BestOrder(Tour(origin, destination, Canonical(a), metres)) == BestOrder(Tour(origin, destination, Canonical(b), metres))
  {
    assert Untied(a, AtMost);
    ShuffleSorts(a, b, AtMost);
  }

  // ----------------------------------------------------------- the table

  /** What the cell (m, i) holds while the loop extends mask `at`: its
      predecessors before `last` are in, and `last` itself for the stops below
      `next`. */
  function Pending(t: Tour, m: nat, i: nat, at: nat, last: nat, next: nat): Cell
    requires i < |t.stops| && last < |t.stops|
  {
    if !Has(m, i) then Cell(Infinite, -1)
    else
      Without(m, i);
      var p := m - Bit(i);
      if !Allowed(t, p, i) then Cell(Infinite, -1)
      else if p == 0 then Cell(Finite(From(t, i)), -1)
      else if p < at then Scan(t, p, i, |t.stops|)
      else if p == at then Scan(t, p, i, if i < next then last + 1 else last)
      else Cell(Infinite, -1)
  }

  ghost predicate Filled(t: Tour, dp: array2<Cost>, parent: array2<int>, at: nat, last: nat, next: nat)
    requires last < |t.stops|
    reads dp, parent
  {
    var n, size := |t.stops|, Bit(|t.stops|);
    && dp.Length0 == size && dp.Length1 == n && parent.Length0 == size && parent.Length1 == n
    && forall m, i | 0 <= m < size && 0 <= i < n :: Cell(dp[m, i], parent[m, i]) == Pending(t, m, i, at, last, next)
  }

  /** Row i holds the mask of what stop i waits for. */
  ghost predicate WaitTable(t: Tour, must: seq<nat>) {
    |must| == |t.stops| && forall i: nat :: i < |must| ==> must[i] < Bit(|t.stops|) && Waits(t, must[i], i)
  }

  ghost predicate Waits(t: Tour, mask: nat, i: nat)
    requires i < |t.stops|
  {
    forall j: nat :: Has(mask, j) <==> j < |t.stops| && MustPrecede(t, j, i)
  }

  predicate HopTable(t: Tour, between: seq<seq<int>>) {
    && |between| == |t.stops|
    && (forall l: nat :: l < |t.stops| ==> |between[l]| == |t.stops|)
    && (forall l: nat, i: nat :: l < |t.stops| && i < |t.stops| ==> between[l][i] == Hop(t, l, i))
  }

  /** The masks of what each stop waits for. */
  method WaitMasks(t: Tour) returns (must: seq<nat>)
    ensures WaitTable(t, must)
  {
    must := [];
    for i: nat := 0 to |t.stops|
      invariant |must| == i && forall k: nat :: k < i ==> must[k] < Bit(|t.stops|) && Waits(t, must[k], k)
    {
      var mask: nat := 0;
      forall j: nat ensures !Has(0, j) { ZeroHasNone(j); }
      if t.stops[i].kind == Drop {
        for j: nat := 0 to |t.stops|
          invariant mask < Bit(|t.stops|)
          invariant forall k: nat :: Has(mask, k) <==> k < j && MustPrecede(t, k, i)
        {
          if t.stops[j].kind == Pickup && t.stops[j].shipment == t.stops[i].shipment {
            OrAdds(mask, j);
            WithInRange(mask, j, |t.stops|);
            ghost var before := mask;
            mask := Or(mask, Bit(j));
            forall k: nat ensures Has(mask, k) <==> Has(before, k) || k == j {
              OrHas(before, Bit(j), k);
              BitHas(j, k);
            }
          }
        }
      }
      must := must + [mask];
    }
  }

  /** Setting bit `next` in the mask being extended: the one cell this step may touch. */
  lemma OnlyThisCell(t: Tour, m: nat, i: nat, at: nat, last: nat, next: nat)
    requires i < |t.stops| && last < |t.stops| && next < |t.stops|
    requires m != at + Bit(next) || i != next || Has(at, next)
    ensures Pending(t, m, i, at, last, next + 1) == Pending(t, m, i, at, last, next)
  {
    if Has(m, i) { Without(m, i); }
  }

  lemma ThisCell(t: Tour, at: nat, last: nat, next: nat)
    requires last < |t.stops| && next < |t.stops| && !Has(at, next) && 0 < at
    ensures Has(at + Bit(next), next)
    ensures var m := at + Bit(next);
      if !Allowed(t, at, next) then
        Pending(t, m, next, at, last, next + 1) == Pending(t, m, next, at, last, next)
      else
        var sofar, through := Pending(t, m, next, at, last, next), Plus(Best(t, at, last).cost, Hop(t, last, next));
        Pending(t, m, next, at, last, next + 1) == if Has(at, last) && Less(through, sofar.cost) then Cell(through, last) else sofar
  {
    With(at, next);
  }

  /** The bitwise guard says that everything the stop waits for is visited. */
  lemma GuardIsAllowed(t: Tour, wait: nat, mask: nat, i: nat)
    requires i < |t.stops| && wait < Bit(|t.stops|) && Waits(t, wait, i)
    ensures And(wait, mask) == wait <==> Allowed(t, mask, i)
  {
    AndIsInclusion(wait, mask, |t.stops|);
  }

  /** The whole next row is pending once all predecessors of this one are in. */
  lemma NextLast(t: Tour, m: nat, i: nat, at: nat, last: nat)
    requires i < |t.stops| && last < |t.stops|
    ensures last + 1 < |t.stops| ==> Pending(t, m, i, at, last, |t.stops|) == Pending(t, m, i, at, last + 1, 0)
    ensures last + 1 == |t.stops| ==> Pending(t, m, i, at, last, |t.stops|) == Pending(t, m, i, at + 1, 0, 0)
  {}

  /** A predecessor that is not in the mask, or not reached, adds nothing. */
  lemma SkippedLast(t: Tour, m: nat, i: nat, at: nat, last: nat)
    requires i < |t.stops| && last < |t.stops| && (!Has(at, last) || Best(t, at, last).cost.Infinite?)
    ensures Pending(t, m, i, at, last, |t.stops|) == Pending(t, m, i, at, last, 0)
  {}

  lemma RowIsFinal(t: Tour, at: nat, i: nat, last: nat, next: nat)
    requires i < |t.stops| && last < |t.stops|
    ensures Pending(t, at, i, at, last, next) == Best(t, at, i)
  {}

  /** Extend the walks that end at `last` by every stop that may come next. */
  method Extend(t: Tour, must: seq<nat>, between: seq<seq<int>>, dp: array2<Cost>, parent: array2<int>, mask: nat, last: nat)
    requires last < |t.stops| && 0 < mask < Bit(|t.stops|)
    requires WaitTable(t, must)
    requires HopTable(t, between)
    requires Filled(t, dp, parent, mask, last, 0) && Has(mask, last) && dp[mask, last].Finite?
    modifies dp, parent
    ensures Filled(t, dp, parent, mask, last, |t.stops|)
  {
    hide Allowed, Waits, And, Or, Best, Scan, Bit, Has;
    var n := |t.stops|;
    var cost := dp[mask, last];
    RowIsFinal(t, mask, last, last, 0);
    for next: nat := 0 to n
      invariant Filled(t, dp, parent, mask, last, next)
    {
      forall m: nat, i: nat | m < Bit(n) && i < n && (m != mask + Bit(next) || i != next || Has(mask, next))
        ensures Pending(t, m, i, mask, last, next + 1) == Pending(t, m, i, mask, last, next)
      {
        OnlyThisCell(t, m, i, mask, last, next);
      }
      if !Has(mask, next) {
        ThisCell(t, mask, last, next);
        GuardIsAllowed(t, must[next], mask, next);
        if And(must[next], mask) == must[next] {
          OrAdds(mask, next);
          WithInRange(mask, next, n);
          var nextMask, nextCost := Or(mask, Bit(next)), Plus(cost, between[last][next]);
          if Less(nextCost, dp[nextMask, next]) {
            dp[nextMask, next] := nextCost;
            parent[nextMask, next] := last;
          }
        }
      }
    }
  }

  /** The start: the walks of one stop. */
  method Start(t: Tour, must: seq<nat>, fromOrigin: seq<int>) returns (dp: array2<Cost>, parent: array2<int>)
    requires t.stops != []
    requires WaitTable(t, must)
    requires |fromOrigin| == |t.stops| && forall i :: 0 <= i < |t.stops| ==> fromOrigin[i] == From(t, i)
    ensures fresh(dp) && fresh(parent) && Filled(t, dp, parent, 1, 0, 0)
  {
    var n := |t.stops|;
    dp := new Cost[Bit(n), n]((m, i) => Infinite);
    parent := new int[Bit(n), n]((m, i) => -1);
    for i: nat := 0 to n
      invariant forall m: nat, k: nat | m < Bit(n) && k < n ::
                  parent[m, k] == -1
                  && dp[m, k] == if k < i && m == Bit(k) && must[k] == 0 then Finite(From(t, k)) else Infinite
    {
      BitOrder(i, n);
      if must[i] == 0 { dp[Bit(i), i] := Finite(fromOrigin[i]); }
    }
    forall m: nat, i: nat | m < Bit(n) && i < n
      ensures Cell(dp[m, i], parent[m, i]) == Pending(t, m, i, 1, 0, 0)
    {
      StartCell(t, must[i], m, i);
    }
  }

  /** Before any extension only the walks of one unconstrained stop are in. */
  lemma StartCell(t: Tour, must: nat, m: nat, i: nat)
    requires i < |t.stops| && must < Bit(|t.stops|)
    requires forall j: nat :: Has(must, j) <==> j < |t.stops| && MustPrecede(t, j, i)
    ensures Pending(t, m, i, 1, 0, 0)
         == Cell(if m == Bit(i) && must == 0 then Finite(From(t, i)) else Infinite, -1)
  {
    BitHas(i, i);
    forall j: nat ensures !Has(0, j) { ZeroHasNone(j); }
    if must != 0 { var j := SomeBit(must); }
    if Has(m, i) { Without(m, i); }
  }

  /** Extend every mask in increasing order. */
  method FillTable(t: Tour, must: seq<nat>, between: seq<seq<int>>, dp: array2<Cost>, parent: array2<int>)
    requires t.stops != []
    requires WaitTable(t, must)
    requires HopTable(t, between)
    requires Filled(t, dp, parent, 1, 0, 0)
    modifies dp, parent
    ensures Filled(t, dp, parent, Bit(|t.stops|), 0, 0)
  {
    var n := |t.stops|;
    for mask: nat := 1 to Bit(n)
      invariant Filled(t, dp, parent, mask, 0, 0)
    {
      for last: nat := 0 to n
        invariant if last < n then Filled(t, dp, parent, mask, last, 0) else Filled(t, dp, parent, mask + 1, 0, 0)
      {
        RowIsFinal(t, mask, last, last, 0);
        if Has(mask, last) && dp[mask, last].Finite? {
          Extend(t, must, between, dp, parent, mask, last);
        } else {
          forall m: nat, i: nat | m < Bit(n) && i < n
            ensures Pending(t, m, i, mask, last, n) == Pending(t, m, i, mask, last, 0)
          {
            SkippedLast(t, m, i, mask, last);
          }
        }
        forall m: nat, i: nat | m < Bit(n) && i < n
          ensures last + 1 < n ==> Pending(t, m, i, mask, last, n) == Pending(t, m, i, mask, last + 1, 0)
          ensures last + 1 == n ==> Pending(t, m, i, mask, last, n) == Pending(t, m, i, mask + 1, 0, 0)
        {
          NextLast(t, m, i, mask, last);
        }
      }
    }
  }

  /** In the finished table every cell is the recurrence's. */
  lemma Finished(t: Tour, m: nat, i: nat)
    requires i < |t.stops| && m < Bit(|t.stops|)
    ensures Pending(t, m, i, Bit(|t.stops|), 0, 0) == Best(t, m, i)
  {}

  /** One step back from a reached stop. */
  lemma StepBack(t: Tour, m: nat, i: nat)
    requires i < |t.stops| && m < Bit(|t.stops|) && Has(m, i)
    ensures AndNot(m, Bit(i)) == m - Bit(i) && 0 <= m - Bit(i) < m
    ensures var parent := Best(t, m, i).parent;
      if parent < 0 then Rebuild(t, m, i) == [i]
      else parent < |t.stops| && Has(m - Bit(i), parent) && Rebuild(t, m, i) == Rebuild(t, m - Bit(i), parent) + [i]
  {
    AndNotSubtracts(m, i);
    Without(m, i);
    ScanFinds(t, m - Bit(i), i, |t.stops|);
  }

  /** Follow the parents back; each step takes one stop out of the mask. */
  method FollowBack(t: Tour, dp: array2<Cost>, parent: array2<int>, end: nat) returns (order: seq<nat>)
    requires end < |t.stops| && Filled(t, dp, parent, Bit(|t.stops|), 0, 0)
    requires Has(Bit(|t.stops|) - 1, end)
    ensures order == Rebuild(t, Bit(|t.stops|) - 1, end)
  {
    hide Rebuild, Best, Has, And, AndNot;
    var n := |t.stops|;
    var mask: nat, last: int := Bit(n) - 1, end;
    order := [];
    while last >= 0
      invariant mask < Bit(n) && last < n
      invariant last >= 0 ==> Has(mask, last) && Rebuild(t, Bit(n) - 1, end) == Rebuild(t, mask, last) + order
      invariant last < 0 ==> Rebuild(t, Bit(n) - 1, end) == order
      decreases mask, last
    {
      Finished(t, mask, last);
      StepBack(t, mask, last);
      var prev := parent[mask, last];
      order := [last] + order;
      mask := AndNot(mask, Bit(last));
      last := prev;
    }
  }

  /** The best stop to end at, the lowest on a tie. */
  method BestEnd(t: Tour, toDest: seq<int>, dp: array2<Cost>, parent: array2<int>) returns (bestLast: int)
    requires t.stops != [] && Filled(t, dp, parent, Bit(|t.stops|), 0, 0)
    requires |toDest| == |t.stops| && forall i: nat :: i < |t.stops| ==> toDest[i] == To(t, i)
    ensures bestLast == Finish(t, |t.stops|).parent
  {
    var n := |t.stops|;
    var bestCost := Infinite;
    bestLast := -1;
    for i: nat := 0 to n
      invariant Finish(t, i) == Cell(bestCost, bestLast)
    {
      Finished(t, Bit(n) - 1, i);
      var cost := Plus(dp[Bit(n) - 1, i], toDest[i]);
      if Less(cost, bestCost) {
        bestCost := cost;
        bestLast := i;
      }
    }
  }

  function FromOrigin(t: Tour): (d: seq<int>)
    ensures |d| == |t.stops| && forall i: nat :: i < |t.stops| ==> d[i] == From(t, i)
  {
    seq(|t.stops|, i requires 0 <= i < |t.stops| => From(t, i))
  }

  function ToDestination(t: Tour): (d: seq<int>)
    ensures |d| == |t.stops| && forall i: nat :: i < |t.stops| ==> d[i] == To(t, i)
  {
    seq(|t.stops|, i requires 0 <= i < |t.stops| => To(t, i))
  }

  function Between(t: Tour): (d: seq<seq<int>>)
    ensures HopTable(t, d)
  {
    seq(|t.stops|, l requires 0 <= l < |t.stops| => seq(|t.stops|, i requires 0 <= i < |t.stops| => Hop(t, l, i)))
  }

  /** The search over sorted stops. */
  method Solve(t: Tour) returns (answer: Answer)
    requires Ascending(t.stops)
    ensures answer == BestOrder(t)
  {
    hide HopTable, WaitTable, Filled, Rebuild, Finish, Best, Ascending;
    var n := |t.stops|;
    if n > MAX_ROUTE_WAYPOINTS { return TooMany; }
    if n == 0 { return Routed([]); }
    var must := WaitMasks(t);
    var dp, parent := Start(t, must, FromOrigin(t));
    FillTable(t, must, Between(t), dp, parent);
    var bestLast := BestEnd(t, ToDestination(t), dp, parent);
    FinishFinds(t, n);
    if bestLast < 0 { return Unroutable; }
    FullHasAll(n, bestLast);
    var order := FollowBack(t, dp, parent, bestLast);
    IndicesInRange(t, Bit(n) - 1, bestLast);
    answer := Routed(Visit(t, order));
  }

  /** The shortest open path from origin to destination over all the stops, every
      pickup before the drops of its shipment. */
  method OrderRouteWaypoints(origin: Point, destination: Point, stops: seq<Stop>, metres: (Point, Point) -> int)
    returns (answer: Answer)
    ensures answer == BestOrder(Tour(origin, destination, Canonical(stops), metres))
    ensures answer == TooMany <==> |stops| > MAX_ROUTE_WAYPOINTS
    ensures |stops| <= MAX_ROUTE_WAYPOINTS ==>
      && answer.Routed? && multiset(answer.stops) == multiset(stops) && Ordered(answer.stops)
      && forall other: seq<Stop> :: multiset(other) == multiset(stops) && Ordered(other) ==>
           Length(Tour(origin, destination, stops, metres), answer.stops) <= Length(Tour(origin, destination, stops, metres), other)
  {
    CanonicalSorts(stops);
    var t := Tour(origin, destination, Canonical(stops), metres);
    assert |multiset(t.stops)| == |multiset(stops)|;
    answer := Solve(t);
    if |stops| <= MAX_ROUTE_WAYPOINTS {
      BestOrderIsOptimal(t);
      ghost var asked := Tour(origin, destination, stops, metres);
      forall other: seq<Stop> | multiset(other) == multiset(stops) && Ordered(other)
        ensures Length(asked, answer.stops) <= Length(asked, other)
      {
        assert Drivable(t, other);
        assert Length(t, answer.stops) <= Length(t, other);
      }
    }
  }
}
