// The waypoint layouts of here.service.ts: the nested pickup/delivery order of
// a trip (calculateRouteTrip) and of a hand-made list (getDistance).
module Routing {
  import opened Prelude

  // What calculateRouteTrip reads of an order.
  datatype Load = Load(
    pickPoint: string,
    deliveryPoint: string,
    pickLocationId: Option<int>,
    deliveryLocationId: Option<int>,
    salePrice: Money)

  // One location of a calculateTrip request: a pickup and a delivery.
  datatype Leg = Leg(
    origin: string,
    originPoint: string,
    destination: string,
    destinationPoint: string,
    key: int,
    isStartPoint: bool,
    isEndPoint: bool,
    isVirtual: bool)

  // An entry of the `locationsOrdered` answer.
  datatype Place = Place(point: string, origin: string, key: int)

  // A visit of order `job`: its pickup or its delivery.
  datatype Visit = Pick(job: nat) | Drop(job: nat)

  // ------------------------------------------------------------------------
  // The reference: jobs first..n-1 nested inside each other, last in first out.

  function Nested(first: nat, n: nat): (visits: seq<Visit>)
    requires first <= n
    ensures |visits| == 2 * (n - first)
    decreases n - first
  {
    if first == n then [] else [Pick(first)] + Nested(first + 1, n) + [Drop(first)]
  }

  // Loading pushes a job, unloading must find its job on top; None is a wrong pop.
  function Replay(visits: seq<Visit>, stack: seq<nat>): Option<seq<nat>> {
    if visits == [] then Some(stack)
    else match visits[0]
      case Pick(job) => Replay(visits[1..], stack + [job])
      case Drop(job) =>
        if stack != [] && stack[|stack| - 1] == job
        then Replay(visits[1..], stack[..|stack| - 1])
        else None
  }

  lemma {:induction false} NestedAt(first: nat, n: nat, i: nat)
    requires first <= i < n
    ensures Nested(first, n)[i - first] == Pick(i)
    ensures Nested(first, n)[2 * n - first - 1 - i] == Drop(i)
    decreases n - first
  {
    var inner := Nested(first + 1, n);
    assert Nested(first, n) == [Pick(first)] + inner + [Drop(first)];
    if first < i {
      NestedAt(first + 1, n, i);
      assert inner[i - first - 1] == Pick(i) && inner[2 * n - first - 2 - i] == Drop(i);
    }
  }

  lemma NestedVisit(n: nat, k: nat)
    requires k < 2 * n
    ensures Nested(0, n)[k] == if k < n then Pick(k) else Drop(2 * n - 1 - k)
  {
    NestedAt(0, n, if k < n then k else 2 * n - 1 - k);
  }

  lemma {:induction false} ReplayNested(first: nat, n: nat, rest: seq<Visit>, stack: seq<nat>)
    requires first <= n
    ensures Replay(Nested(first, n) + rest, stack) == Replay(rest, stack)
    decreases n - first
  {
    if first == n {
      assert Nested(first, n) + rest == rest;
    } else {
      var visits := Nested(first, n) + rest;
      var inner := [Drop(first)] + rest;
      assert visits[1..] == Nested(first + 1, n) + inner;
      ReplayNested(first + 1, n, inner, stack + [first]);
      assert inner[1..] == rest;
      assert (stack + [first])[..|stack|] == stack;
    }
  }

  // The nested order of any number of jobs is a run of a stack that starts and
  // ends empty and never unloads a job that is not on top.
  lemma NestedIsAStackRun(n: nat)
    ensures Replay(Nested(0, n), []) == Some([])
  {
    ReplayNested(0, n, [], []);
    assert Nested(0, n) + [] == Nested(0, n);
  }

  // ------------------------------------------------------------------------
  // The waypoint query that both calls build, from the two ends of each job.

  datatype Ends = Ends(pick: string, drop: string)

  function PointAt(jobs: seq<Ends>, visit: Visit): string
    requires visit.job < |jobs|
  {
    match visit case Pick(j) => jobs[j].pick case Drop(j) => jobs[j].drop
  }

  // The query after the first i rounds of the loop; `start` is the point of a
  // virtual start, which only getDistance has.
  function QueryPrefix(start: Option<string>, jobs: seq<Ends>, i: nat): map<int, string>
    requires i <= |jobs|
  {
    if i == 0 then (if start.Some? then map[0 := start.value] else map[])
    else
      var waypoint := if start.Some? then i else i - 1;
      QueryPrefix(start, jobs, i - 1)[waypoint := jobs[i - 1].pick][2 * |jobs| - 1 - waypoint := jobs[i - 1].drop]
  }

  function Query(start: Option<string>, jobs: seq<Ends>): map<int, string> {
    QueryPrefix(start, jobs, |jobs|)
  }

  // What the query should hold: the virtual start first, then the nested
  // visits, one key each and no key besides.
  ghost predicate LaysOut(query: map<int, string>, start: Option<string>, jobs: seq<Ends>) {
    var shift := if start.Some? then 1 else 0;
    && (forall k :: k in query <==> 0 <= k < 2 * |jobs| + shift)
    && (start.Some? ==> query[0] == start.value)
    && (forall k :: shift <= k < 2 * |jobs| + shift ==>
      Nested(0, |jobs|)[k - shift].job < |jobs| && query[k] == PointAt(jobs, Nested(0, |jobs|)[k - shift]))
  }

  ghost predicate DirectRounds(q: map<int, string>, jobs: seq<Ends>, i: nat)
    requires i <= |jobs|
  {
    var last := 2 * |jobs| - 1;
    && (forall k :: k in q ==> 0 <= k < i || last - i < k <= last)
    && (forall k :: 0 <= k < i ==> k in q && q[k] == jobs[k].pick)
    && (forall k :: last - i < k <= last ==> k in q && q[k] == jobs[last - k].drop)
  }

  lemma DirectRound(q: map<int, string>, jobs: seq<Ends>, i: nat)
    requires i < |jobs| && DirectRounds(q, jobs, i)
    ensures DirectRounds(q[i := jobs[i].pick][2 * |jobs| - 1 - i := jobs[i].drop], jobs, i + 1)
  {
  }

  lemma {:induction false} DirectPrefix(jobs: seq<Ends>, i: nat)
    requires i <= |jobs|
    ensures DirectRounds(QueryPrefix(None, jobs, i), jobs, i)
  {
    if i > 0 {
      DirectPrefix(jobs, i - 1);
      NextRound(jobs, i - 1);
    }
  }

  lemma NextRound(jobs: seq<Ends>, i: nat)
    requires i < |jobs| && DirectRounds(QueryPrefix(None, jobs, i), jobs, i)
    ensures DirectRounds(QueryPrefix(None, jobs, i + 1), jobs, i + 1)
  {
    var q := QueryPrefix(None, jobs, i);
    DirectRound(q, jobs, i);
    assert QueryPrefix(None, jobs, i + 1) == q[i := jobs[i].pick][2 * |jobs| - 1 - i := jobs[i].drop];
  }

  // Without a virtual start the query is the nested order, key by key.
  lemma DirectQueryIsNested(jobs: seq<Ends>)
    ensures LaysOut(Query(None, jobs), None, jobs)
  {
    var q := Query(None, jobs);
    DirectPrefix(jobs, |jobs|);
    forall k | 0 <= k < 2 * |jobs|
      ensures Nested(0, |jobs|)[k].job < |jobs| && q[k] == PointAt(jobs, Nested(0, |jobs|)[k])
    {
      NestedVisit(|jobs|, k);
    }
  }

  // With a virtual start the forward keys move up by one but the backward keys
  // do not make room, so after i rounds the two runs are 1..i and 2n-1-i..2n-2.
  ghost predicate ShiftedRounds(q: map<int, string>, start: string, jobs: seq<Ends>, i: nat)
    requires i < |jobs|
  {
    var last := 2 * |jobs| - 1;
    && (forall k :: k in q ==> 0 <= k <= i || last - i <= k < last)
    && 0 in q && q[0] == start
    && (forall k :: 1 <= k <= i ==> k in q && q[k] == jobs[k - 1].pick)
    && (forall k :: last - i <= k < last ==> k in q && q[k] == jobs[last - 1 - k].drop)
  }

  lemma ShiftedRound(q: map<int, string>, start: string, jobs: seq<Ends>, i: nat)
    requires i + 1 < |jobs| && ShiftedRounds(q, start, jobs, i)
    ensures ShiftedRounds(q[i + 1 := jobs[i].pick][2 * |jobs| - 2 - i := jobs[i].drop], start, jobs, i + 1)
  {
  }

  lemma {:induction false} ShiftedPrefix(start: string, jobs: seq<Ends>, i: nat)
    requires i < |jobs|
    ensures ShiftedRounds(QueryPrefix(Some(start), jobs, i), start, jobs, i)
  {
    if i > 0 {
      ShiftedPrefix(start, jobs, i - 1);
      ShiftedRound(QueryPrefix(Some(start), jobs, i - 1), start, jobs, i - 1);
    }
  }

  // The keys meet in the middle: the last location's delivery takes the key of
  // the pickup before it, and its pickup takes the key of that delivery, so the
  // last location is delivered before it is picked up and the one before it is
  // not visited at all.
  lemma VirtualStartQuery(start: string, jobs: seq<Ends>)
    requires 2 <= |jobs|
    ensures var n, q := |jobs|, Query(Some(start), jobs);
      && (forall k :: k in q <==> 0 <= k <= 2 * n - 2)
      && q[0] == start
      && (forall k :: 1 <= k <= n - 2 ==> q[k] == jobs[k - 1].pick)
      && (forall k :: n < k <= 2 * n - 2 ==> q[k] == jobs[2 * n - 2 - k].drop)
      && q[n - 1] == jobs[n - 1].drop && q[n] == jobs[n - 1].pick
  {
    ShiftedPrefix(start, jobs, |jobs| - 1);
  }

  // So a list with a virtual start is laid out as intended exactly when it has
  // no other location at all.
  lemma VirtualStartCollides(start: string, jobs: seq<Ends>)
    ensures LaysOut(Query(Some(start), jobs), Some(start), jobs) <==> jobs == []
  {
    var q := Query(Some(start), jobs);
    if |jobs| == 1 {
      assert QueryPrefix(Some(start), jobs, 0) == map[0 := start];
      assert 2 !in q;
    } else if 2 <= |jobs| {
      VirtualStartQuery(start, jobs);
      assert 2 * |jobs| !in q;
    }
  }

  // ------------------------------------------------------------------------
  // calculateRouteTrip

  function LoadEnds(loads: seq<Load>): (jobs: seq<Ends>) {
    seq(|loads|, i requires 0 <= i < |loads| => Ends(loads[i].pickPoint, loads[i].deliveryPoint))
  }

  function PriceTotal(loads: seq<Load>): Money {
    if loads == [] then ZERO
    else Add(PriceTotal(loads[..|loads| - 1]), loads[|loads| - 1].salePrice)
  }

  datatype TripRoute = TripRoute(
    query: map<int, string>,
    totalPrice: Money,
    pickLocationId: Option<int>,
    deliveryLocationId: Option<int>)

  ghost predicate IsRouteOf(route: TripRoute, orders: seq<Load>)
    requires orders != []
  {
    && LaysOut(route.query, None, LoadEnds(orders))
    && route.totalPrice == PriceTotal(orders)
    && route.pickLocationId == orders[0].pickLocationId
    && route.deliveryLocationId == orders[|orders| - 1].deliveryLocationId
  }

  // The keys assigned by the first i rounds, none of them twice.
  ghost predicate WrittenBy(written: seq<int>, i: nat, inverse: int) {
    NoDuplicates(written) && forall k :: k in written <==> 0 <= k < i || inverse - i < k <= inverse
  }

  lemma WriteBoth(written: seq<int>, i: nat, inverse: int)
    requires WrittenBy(written, i, inverse) && 2 * i < inverse
    ensures WrittenBy(written + [i] + [inverse - i], i + 1, inverse)
  {
    AppendFresh(written, i);
    AppendFresh(written + [i], inverse - i);
  }

  // `written` lists the waypoint numbers in the order the loop assigns them.
  // An empty list makes the service read a field of `undefined`: None.
  method CalculateRouteTrip(orders: seq<Load>) returns (result: Option<TripRoute>, written: seq<int>)
    ensures result.None? <==> orders == []
    ensures result.Some? ==> IsRouteOf(result.value, orders)
    ensures NoDuplicates(written) && forall k :: k in written <==> 0 <= k < 2 * |orders|
  {
    var inverse := |orders| * 2 - 1;
    var query: map<int, string> := map[];
    var totalPrice := ZERO;
    ghost var jobs := LoadEnds(orders);
    written := [];
    for i := 0 to |orders|
      invariant query == QueryPrefix(None, jobs, i)
      invariant totalPrice == PriceTotal(orders[..i])
      invariant WrittenBy(written, i, inverse)
    {
      WriteBoth(written, i, inverse);
      query := query[i := orders[i].pickPoint];
      written := written + [i];
      query := query[inverse - i := orders[i].deliveryPoint];
      written := written + [inverse - i];
      assert orders[..i + 1][..i] == orders[..i];
      totalPrice := Add(totalPrice, orders[i].salePrice);
    }
    if |orders| == 0 {
      return None, written;
    }
    assert orders[..|orders|] == orders;
    DirectQueryIsNested(jobs);
    var first, last := orders[0], orders[|orders| - 1];
    return Some(TripRoute(query, totalPrice, first.pickLocationId, last.deliveryLocationId)), written;
  }

  // `pointOf` is the point of a stored location, which the orders carry along.
  ghost predicate Located(orders: seq<Load>, pointOf: Option<int> -> string) {
    forall i :: 0 <= i < |orders| ==>
      && orders[i].pickPoint == pointOf(orders[i].pickLocationId)
      && orders[i].deliveryPoint == pointOf(orders[i].deliveryLocationId)
  }

  // The pickup location stored with the trip is where its query starts; the
  // delivery location is where it ends exactly when the first and the last order
  // of the list are delivered to the same point.
  lemma StoredDeliveryIsTheLastStopExactlyWhen(orders: seq<Load>, route: TripRoute, pointOf: Option<int> -> string)
    requires orders != [] && IsRouteOf(route, orders) && Located(orders, pointOf)
    ensures 0 in route.query && pointOf(route.pickLocationId) == route.query[0]
    ensures var last := 2 * |orders| - 1;
      && last in route.query
      && (pointOf(route.deliveryLocationId) == route.query[last]
          <==> orders[|orders| - 1].deliveryPoint == orders[0].deliveryPoint)
  {
    NestedAt(0, |orders|, 0);
  }

  // ------------------------------------------------------------------------
  // getDistance

  function VisitPlace(legs: seq<Leg>, visit: Visit): Place
    requires visit.job < |legs|
  {
    match visit
    case Pick(j) => Place(legs[j].originPoint, legs[j].origin, legs[j].key)
    case Drop(j) => Place(legs[j].destinationPoint, legs[j].destination, legs[j].key)
  }

  function LegEnds(legs: seq<Leg>): (jobs: seq<Ends>) {
    seq(|legs|, i requires 0 <= i < |legs| => Ends(legs[i].originPoint, legs[i].destinationPoint))
  }

  // Array.find of the virtual start point.
  function VirtualStart(legs: seq<Leg>): (start: Option<string>)
    ensures start.None? <==> forall i :: 0 <= i < |legs| ==> !(legs[i].isStartPoint && legs[i].isVirtual)
  {
    if legs == [] then None
    else if legs[0].isStartPoint && legs[0].isVirtual then Some(legs[0].originPoint)
    else VirtualStart(legs[1..])
  }

  function NonVirtual(legs: seq<Leg>): seq<Leg> {
    if legs == [] then []
    else (if legs[0].isVirtual then [] else [legs[0]]) + NonVirtual(legs[1..])
  }

  // The legs that getDistance lays out.
  function Routed(legs: seq<Leg>): seq<Leg> {
    if VirtualStart(legs).Some? then NonVirtual(legs) else legs
  }

  // A list of places is the nested order of the legs.
  ghost predicate NestedPlaces(legs: seq<Leg>, ordered: seq<Place>) {
    && |ordered| == 2 * |legs|
    && forall k :: 0 <= k < |ordered| ==>
      Nested(0, |legs|)[k].job < |legs| && ordered[k] == VisitPlace(legs, Nested(0, |legs|)[k])
  }

  // The places written by the first i rounds.
  ghost predicate PlacedBy(legs: seq<Leg>, places: seq<Place>, i: nat)
    requires i <= |legs|
  {
    var last := 2 * |legs| - 1;
    && |places| == 2 * |legs|
    && (forall k :: 0 <= k < i ==> places[k] == VisitPlace(legs, Pick(k)))
    && (forall k :: last - i < k <= last ==> places[k] == VisitPlace(legs, Drop(last - k)))
  }

  // The answer's list is the nested order of the routed legs with or without a
  // virtual start; the query is the one studied above.
  method GetDistance(locations: seq<Leg>) returns (query: map<int, string>, ordered: seq<Place>)
    ensures query == Query(VirtualStart(locations), LegEnds(Routed(locations)))
    ensures NestedPlaces(Routed(locations), ordered)
  {
    query := map[];
    var start := VirtualStart(locations);
    var legs := locations;
    if start.Some? {
      query := query[0 := start.value];
      legs := NonVirtual(legs);
    }
    var inverse := |legs| * 2 - 1;
    ordered := seq(2 * |legs|, _ => Place("", "", 0));
    for i := 0 to |legs|
      invariant query == QueryPrefix(start, LegEnds(legs), i)
      invariant PlacedBy(legs, ordered, i)
    {
      var waypoint := if start.Some? then i + 1 else i;
      query := query[waypoint := legs[i].originPoint];
      query := query[inverse - waypoint := legs[i].destinationPoint];
      ordered := PlaceBoth(legs, ordered, i);
    }
    AllPlaced(legs, ordered);
  }

  // The two entries of locationsOrdered that one round writes.
  method PlaceBoth(legs: seq<Leg>, places: seq<Place>, i: nat) returns (ordered: seq<Place>)
    requires i < |legs| && PlacedBy(legs, places, i)
    ensures PlacedBy(legs, ordered, i + 1)
  {
    var inverse := |legs| * 2 - 1;
    ordered := places[i := Place(legs[i].originPoint, legs[i].origin, legs[i].key)];
    ordered := ordered[inverse - i := Place(legs[i].destinationPoint, legs[i].destination, legs[i].key)];
  }

  lemma AllPlaced(legs: seq<Leg>, ordered: seq<Place>)
    requires PlacedBy(legs, ordered, |legs|)
    ensures NestedPlaces(legs, ordered)
  {
    forall k | 0 <= k < |ordered|
      ensures Nested(0, |legs|)[k].job < |legs| && ordered[k] == VisitPlace(legs, Nested(0, |legs|)[k])
    {
      NestedVisit(|legs|, k);
    }
  }

  // Without a virtual start the query and the answer's list agree index by index.
  lemma QueryMatchesPlaces(locations: seq<Leg>, ordered: seq<Place>)
    requires VirtualStart(locations).None? && NestedPlaces(Routed(locations), ordered)
    ensures var query := Query(VirtualStart(locations), LegEnds(Routed(locations)));
      && (forall k :: k in query <==> 0 <= k < |ordered|)
      && (forall k :: 0 <= k < |ordered| ==> query[k] == ordered[k].point)
  {
    DirectQueryIsNested(LegEnds(locations));
    LaidOutMatchesPlaces(Query(None, LegEnds(locations)), locations, ordered);
  }

  lemma LaidOutMatchesPlaces(query: map<int, string>, legs: seq<Leg>, ordered: seq<Place>)
    requires LaysOut(query, None, LegEnds(legs)) && NestedPlaces(legs, ordered)
    ensures forall k :: k in query <==> 0 <= k < |ordered|
    ensures forall k :: 0 <= k < |ordered| ==> query[k] == ordered[k].point
  {
    forall k | 0 <= k < |ordered|
      ensures query[k] == ordered[k].point
    {
      PointOfPlace(legs, Nested(0, |legs|)[k]);
    }
  }

  lemma PointOfPlace(legs: seq<Leg>, visit: Visit)
    requires visit.job < |legs|
    ensures PointAt(LegEnds(legs), visit) == VisitPlace(legs, visit).point
  {
  }

  // ------------------------------------------------------------------------
  // Key by key and entry by entry

  // A trip's query: the i-th pickup forwards, the i-th delivery from the end.
  lemma RouteQueryIs(orders: seq<Load>, route: TripRoute, i: nat)
    requires i < |orders| && IsRouteOf(route, orders)
    ensures i in route.query && route.query[i] == orders[i].pickPoint
    ensures 2 * |orders| - 1 - i in route.query && route.query[2 * |orders| - 1 - i] == orders[i].deliveryPoint
  {
    LaidOutAt(route.query, LoadEnds(orders), i);
  }

  // Without a virtual start the query of a hand-made list is laid out likewise.
  lemma DistanceQueryIs(legs: seq<Leg>, i: nat)
    requires i < |legs|
    ensures var query := Query(None, LegEnds(legs));
      && i in query && query[i] == legs[i].originPoint
      && 2 * |legs| - 1 - i in query && query[2 * |legs| - 1 - i] == legs[i].destinationPoint
  {
    DirectQueryIsNested(LegEnds(legs));
    LaidOutAt(Query(None, LegEnds(legs)), LegEnds(legs), i);
  }

  lemma LaidOutAt(query: map<int, string>, jobs: seq<Ends>, i: nat)
    requires i < |jobs| && LaysOut(query, None, jobs)
    ensures i in query && query[i] == jobs[i].pick
    ensures 2 * |jobs| - 1 - i in query && query[2 * |jobs| - 1 - i] == jobs[i].drop
  {
    NestedAt(0, |jobs|, i);
  }

  // And so are the entries of the answer's list, with or without one.
  lemma PlacesAre(legs: seq<Leg>, ordered: seq<Place>, i: nat)
    requires i < |legs| && NestedPlaces(legs, ordered)
    ensures ordered[i] == Place(legs[i].originPoint, legs[i].origin, legs[i].key)
    ensures ordered[2 * |legs| - 1 - i] == Place(legs[i].destinationPoint, legs[i].destination, legs[i].key)
  {
    NestedAt(0, |legs|, i);
  }

  // The virtual start is the origin of the first location with both flags.
  lemma {:induction false} VirtualStartIs(legs: seq<Leg>, i: nat)
    requires i < |legs| && legs[i].isStartPoint && legs[i].isVirtual
    requires forall j :: 0 <= j < i ==> !(legs[j].isStartPoint && legs[j].isVirtual)
    ensures VirtualStart(legs) == Some(legs[i].originPoint)
  {
    if i > 0 {
      VirtualStartIs(legs[1..], i - 1);
    }
  }

  // With a virtual start exactly the locations that are not virtual are laid out, in
  // their order; without one all of them are.
  lemma {:induction false} NonVirtualIsAFilter(a: seq<Leg>, b: seq<Leg>, leg: Leg)
    ensures NonVirtual([]) == [] && NonVirtual([leg]) == if leg.isVirtual then [] else [leg]
    ensures NonVirtual(a + b) == NonVirtual(a) + NonVirtual(b)
  {
    assert [leg][1..] == [];
    if a == [] {
      assert a + b == b;
    } else {
      NonVirtualIsAFilter(a[1..], b, leg);
      assert (a + b)[1..] == a[1..] + b;
    }
  }

  lemma RoutedIs(legs: seq<Leg>)
    ensures (exists i :: 0 <= i < |legs| && legs[i].isStartPoint && legs[i].isVirtual) ==>
      Routed(legs) == NonVirtual(legs)
    ensures (forall i :: 0 <= i < |legs| ==> !(legs[i].isStartPoint && legs[i].isVirtual)) ==> Routed(legs) == legs
  {
  }
}
