// Which orders ride on which trip, and the price each trip caches: the
// operations of order.service.ts that move orders on and off trips.
module Trips {
  import opened Prelude
  import opened Store
  import opened Orders
  import Routing

  // ------------------------------------------------------------------------
  // The reference: what a trip's orders are worth.

  // getOrdersByTrip leaves out these two statuses.
  predicate Counts(status: OrderStatus) {
    status != Canceled && status != Archived
  }

  predicate Rides(links: map<int, Link>, orderId: int, tripId: int) {
    exists l :: l in links && links[l] == Link(tripId, orderId)
  }

  // The sale price of each order the trip's query returns.
  function Fares(orders: map<int, Order>, links: map<int, Link>, tripId: int): map<int, Money> {
    map o | o in orders && Rides(links, o, tripId) && Counts(orders[o].status) :: orders[o].salePrice
  }

  ghost function AnyKey(fares: map<int, Money>): (o: int)
    requires fares != map[]
    ensures o in fares
  {
    HasKey(fares);
    var o :| o in fares;
    o
  }

  lemma HasKey(fares: map<int, Money>)
    requires fares != map[]
    ensures exists o :: o in fares
  {
    assert fares.Keys != {};
    var _ := Member(fares.Keys);
  }

  ghost function Sum(fares: map<int, Money>): Money
    decreases |fares|
  {
    if fares == map[] then ZERO
    else
      var o := AnyKey(fares);
      Add(fares[o], Sum(fares - {o}))
  }

  // The sum does not depend on the order of summation.
  lemma {:induction false} SumWithout(fares: map<int, Money>, o: int)
    requires o in fares
    ensures Sum(fares) == Add(fares[o], Sum(fares - {o}))
    decreases |fares|
  {
    var k := AnyKey(fares);
    if k != o {
      SumWithout(fares - {k}, o);
      SumWithout(fares - {o}, k);
      assert fares - {k} - {o} == fares - {o} - {k};
      var rest := Sum(fares - {k} - {o});
      AddLaws(fares[k], fares[o], rest);
      AddLaws(fares[o], fares[k], rest);
    }
  }

  lemma SumWith(fares: map<int, Money>, o: int, price: Money)
    requires o !in fares
    ensures Sum(fares[o := price]) == Add(price, Sum(fares))
  {
    SumWithout(fares[o := price], o);
    assert fares[o := price] - {o} == fares;
  }

  // ------------------------------------------------------------------------
  // recalculateRoute

  ghost function Recalculated(t: Tables, tripId: int): Tables {
    if tripId !in t.trips then t
    else t.(trips := t.trips[tripId := t.trips[tripId].(totalPrice := Sum(Fares(t.orders, t.links, tripId)))])
  }

  ghost function RecalculatedAll(t: Tables, tripIds: seq<int>): Tables {
    if tripIds == [] then t
    else Recalculated(RecalculatedAll(t, tripIds[..|tripIds| - 1]), tripIds[|tripIds| - 1])
  }

  // A list of different orders, in whatever order the query returns them.
  ghost predicate Lists(ids: seq<int>, fares: map<int, Money>) {
    && NoDuplicates(ids)
    && (forall i :: 0 <= i < |ids| ==> ids[i] in fares)
    && (forall o :: o in fares ==> o in ids)
  }

  function LoadsOf(t: Tables, ids: seq<int>, places: int -> Routing.Load): (loads: seq<Routing.Load>)
    requires forall i :: 0 <= i < |ids| ==> ids[i] in t.orders
    ensures |loads| == |ids|
  {
    seq(|ids|, i requires 0 <= i < |ids| => places(ids[i]).(salePrice := t.orders[ids[i]].salePrice))
  }

  // The running total of calculateRouteTrip over any such list is the sum.
  lemma {:induction false} RunningTotalIsSum(loads: seq<Routing.Load>, ids: seq<int>, fares: map<int, Money>)
    requires |loads| == |ids| && Lists(ids, fares)
    requires forall i :: 0 <= i < |ids| ==> loads[i].salePrice == fares[ids[i]]
    ensures Routing.PriceTotal(loads) == Sum(fares)
  {
    if ids == [] {
      if fares != map[] {
        HasKey(fares);
      }
    } else {
      var n := |ids| - 1;
      var rest := fares - {ids[n]};
      LastIsOut(ids, fares);
      RunningTotalIsSum(loads[..n], ids[..n], rest);
      SumWithout(fares, ids[n]);
    }
  }

  lemma LastIsOut(ids: seq<int>, fares: map<int, Money>)
    requires Lists(ids, fares) && ids != []
    ensures Lists(ids[..|ids| - 1], fares - {ids[|ids| - 1]})
  {
    assert ids == ids[..|ids| - 1] + [ids[|ids| - 1]];
  }

  // getOrdersByTrip
  method OrdersByTrip(t: Tables, tripId: int) returns (ids: seq<int>)
    ensures Lists(ids, Fares(t.orders, t.links, tripId))
  {
    ids := [];
    var fares := Fares(t.orders, t.links, tripId);
    var rest := fares.Keys;
    while rest != {}
      invariant NoDuplicates(ids)
      invariant forall i :: 0 <= i < |ids| ==> ids[i] in fares && ids[i] !in rest
      invariant forall o :: o in fares ==> o in ids || o in rest
    {
      var o := AnyOf(rest);
      AppendFresh(ids, o);
      ids := ids + [o];
      rest := rest - {o};
    }
  }

  // `places` are the location columns of the orders.
  method RecalculateRoute(t: Tables, tripIds: seq<int>, places: int -> Routing.Load) returns (tx: Tables)
    ensures tx == RecalculatedAll(t, tripIds)
  {
    tx := t;
    for i := 0 to |tripIds|
      invariant tx == RecalculatedAll(t, tripIds[..i])
    {
      var ids := OrdersByTrip(tx, tripIds[i]);
      var total := ZERO;
      var loads := LoadsOf(tx, ids, places);
      RunningTotalIsSum(loads, ids, Fares(tx.orders, tx.links, tripIds[i]));
      if |ids| > 0 {
        var result, _ := Routing.CalculateRouteTrip(loads);
        total := result.value.totalPrice;
      }
      assert tripIds[..i + 1][..i] == tripIds[..i];
      if tripIds[i] in tx.trips {
        tx := tx.(trips := tx.trips[tripIds[i] := tx.trips[tripIds[i]].(totalPrice := total)]);
      }
    }
    assert tripIds[..|tripIds|] == tripIds;
  }

  // ------------------------------------------------------------------------
  // assignOrder

  // The database and routing calls of a transaction that can fail.
  const ORDER_WRITE := 1
  const LINK_WRITE := 2
  const TRIP_WRITE := 3
  const COMMIT := 4

  // `first` is the link that the order comes back with, if it has any.
  predicate FirstLink(t: Tables, orderId: int, first: int) {
    OnTrip(t, orderId) ==> first in t.links && t.links[first].orderId == orderId
  }

  function Reassigned(order: Order, trip: Trip): Order {
    order.(dispatcherId := trip.dispatcherId, status := if order.status == Declined then Dispatched else order.status)
  }

  predicate MayAssign(t: Tables, orderId: int, tripId: int, newLink: int, first: int) {
    tripId in t.trips && orderId in t.orders && FirstLink(t, orderId, first) && newLink !in t.links
  }

  function Relinked(t: Tables, orderId: int, tripId: int, newLink: int, first: int): map<int, Link> {
    t.links[(if OnTrip(t, orderId) then first else newLink) := Link(tripId, orderId)]
  }

  function TripsToUpdate(t: Tables, orderId: int, tripId: int, first: int): seq<int>
    requires FirstLink(t, orderId, first)
  {
    if OnTrip(t, orderId) then [tripId, t.links[first].tripId] else [tripId]
  }

  ghost function Assigned(t: Tables, orderId: int, tripId: int, newLink: int, first: int, fault: int): (Tables, bool) {
    if !MayAssign(t, orderId, tripId, newLink, first) || ORDER_WRITE <= fault <= COMMIT then (t, false)
    else
      (RecalculatedAll(
        t.(orders := t.orders[orderId := Reassigned(t.orders[orderId], t.trips[tripId])],
          links := Relinked(t, orderId, tripId, newLink, first)),
        TripsToUpdate(t, orderId, tripId, first)), true)
  }

  method AssignOrder(db: Database, orderId: int, tripId: int, newLink: int, first: int, fault: int,
    places: int -> Routing.Load)
    returns (ok: bool)
    requires FirstLink(db.t, orderId, first) && newLink !in db.t.links
    modifies db
    ensures (db.t, ok) == Assigned(old(db.t), orderId, tripId, newLink, first, fault)
  {
    var tx := db.t;
    if tripId !in tx.trips || orderId !in tx.orders || fault == ORDER_WRITE {
      return false;
    }
    var order := tx.orders[orderId].(dispatcherId := tx.trips[tripId].dispatcherId);
    if order.status == Declined {
      order := order.(status := Dispatched);
    }
    assert order == Reassigned(tx.orders[orderId], tx.trips[tripId]);
    tx := tx.(orders := tx.orders[orderId := order]);
    if fault == LINK_WRITE {
      return false;
    }
    var trips := [tripId];
    if OnTrip(db.t, orderId) {
      trips := trips + [tx.links[first].tripId];
      tx := tx.(links := tx.links[first := Link(tripId, orderId)]);
    } else {
      tx := tx.(links := tx.links[newLink := Link(tripId, orderId)]);
    }
    if fault == TRIP_WRITE {
      return false;
    }
    assert trips == TripsToUpdate(old(db.t), orderId, tripId, first);
    tx := RecalculateRoute(tx, trips, places);
    if fault == COMMIT {
      return false;
    }
    db.t := tx;
    return true;
  }

  // ------------------------------------------------------------------------
  // deleteFromTrip, deleteOrder and saveImportedOrder

  function Unlinked(links: map<int, Link>, orderIds: set<int>, tripId: int): map<int, Link> {
    links - set l | l in links && links[l].orderId in orderIds && links[l].tripId == tripId
  }

  ghost function RemovedFromTrip(t: Tables, orderIds: set<int>, tripId: int, fault: int): (Tables, bool) {
    if tripId !in t.trips || LINK_WRITE <= fault <= COMMIT then (t, false)
    else (Recalculated(t.(links := Unlinked(t.links, orderIds, tripId)), tripId), true)
  }

  method DeleteFromTrip(db: Database, orderIds: set<int>, tripId: int, fault: int, places: int -> Routing.Load)
    returns (ok: bool)
    modifies db
    ensures (db.t, ok) == RemovedFromTrip(old(db.t), orderIds, tripId, fault)
  {
    var tx := db.t;
    if tripId !in tx.trips || fault == LINK_WRITE {
      return false;
    }
    tx := tx.(links := Unlinked(tx.links, orderIds, tripId));
    if fault == TRIP_WRITE {
      return false;
    }
    ghost var before := tx;
    tx := RecalculateRoute(tx, [tripId], places);
    OneRecalculation(before, tripId);
    if fault == COMMIT {
      return false;
    }
    db.t := tx;
    return true;
  }

  lemma OneRecalculation(t: Tables, tripId: int)
    ensures RecalculatedAll(t, [tripId]) == Recalculated(t, tripId)
  {
    assert [tripId][..0] == [];
    assert RecalculatedAll(t, []) == t;
  }

  // The order itself stays; it loses its company and its place on the trip.
  ghost function DeletedOrder(t: Tables, orderId: int, first: int, fault: int): (Tables, bool) {
    if orderId !in t.orders || !FirstLink(t, orderId, first) || ORDER_WRITE <= fault <= COMMIT then (t, false)
    else
      var t' := t.(orders := t.orders[orderId := t.orders[orderId].(companyId := None)]);
      if OnTrip(t, orderId)
      then
        var tripId := t.links[first].tripId;
        (Recalculated(t'.(links := Unlinked(t.links, {orderId}, tripId)), tripId), true)
      else (t', true)
  }

  method DeleteOrder(db: Database, orderId: int, first: int, fault: int, places: int -> Routing.Load) returns (ok: bool)
    requires FirstLink(db.t, orderId, first)
    modifies db
    ensures (db.t, ok) == DeletedOrder(old(db.t), orderId, first, fault)
  {
    var tx := db.t;
    if orderId !in tx.orders || fault == LINK_WRITE {
      return false;
    }
    if OnTrip(db.t, orderId) {
      var tripId := tx.links[first].tripId;
      tx := tx.(links := Unlinked(tx.links, {orderId}, tripId));
      if fault == TRIP_WRITE {
        return false;
      }
      OneRecalculation(tx, tripId);
      CompanyIsNoFare(tx, orderId, tripId);
      tx := RecalculateRoute(tx, [tripId], places);
    }
    if ORDER_WRITE <= fault <= COMMIT {
      return false;
    }
    tx := tx.(orders := tx.orders[orderId := tx.orders[orderId].(companyId := None)]);
    db.t := tx;
    return true;
  }

  lemma CompanyIsNoFare(t: Tables, orderId: int, tripId: int)
    requires orderId in t.orders
    ensures Fares(t.orders[orderId := t.orders[orderId].(companyId := None)], t.links, tripId)
      == Fares(t.orders, t.links, tripId)
  {
  }

  predicate MayImport(t: Tables, orderId: int, order: Order, tripId: Option<int>, newLink: int) {
    && orderId !in t.orders && IsNew(order) && newLink !in t.links
    && (tripId.Some? ==> tripId.value in t.trips)
  }

  ghost function Imported(t: Tables, orderId: int, order: Order, tripId: Option<int>, newLink: int,
    fault: int): (Tables, bool) {
    if !MayImport(t, orderId, order, tripId, newLink) || ORDER_WRITE <= fault <= COMMIT then (t, false)
    else
      var t' := t.(orders := t.orders[orderId := order]);
      if tripId.Some?
      then (Recalculated(t'.(links := t.links[newLink := Link(tripId.value, orderId)]), tripId.value), true)
      else (t', true)
  }

  // A trip that does not exist fails the foreign key of the link.
  method SaveImportedOrder(db: Database, orderId: int, order: Order, tripId: Option<int>, newLink: int, fault: int,
    places: int -> Routing.Load) returns (ok: bool)
    requires orderId !in db.t.orders && newLink !in db.t.links && IsNew(order)
    modifies db
    ensures (db.t, ok) == Imported(old(db.t), orderId, order, tripId, newLink, fault)
  {
    var tx := db.t;
    if fault == ORDER_WRITE {
      return false;
    }
    tx := tx.(orders := tx.orders[orderId := order]);
    if tripId.Some? {
      if fault == LINK_WRITE || tripId.value !in tx.trips {
        return false;
      }
      tx := tx.(links := tx.links[newLink := Link(tripId.value, orderId)]);
      if fault == TRIP_WRITE {
        return false;
      }
      OneRecalculation(tx, tripId.value);
      tx := RecalculateRoute(tx, [tripId.value], places);
    }
    if ORDER_WRITE <= fault <= COMMIT {
      return false;
    }
    db.t := tx;
    return true;
  }

  // ------------------------------------------------------------------------
  // cancelOrder

  predicate Cancelable(order: Order) {
    && order.published
    && (order.status == Dispatched || order.status == OnPickup || order.status == Declined
        || order.status == Billed || order.status == Paid)
  }

  function BackOnTheMarket(order: Order): Order {
    order.(status := if order.source == Internal then Published else Canceled, dispatcherId := None, companyId := None)
  }

  // The order's trip belongs to the company of the account that cancels.
  predicate OwnTrip(t: Tables, orderId: int, first: int, companyId: int)
    requires FirstLink(t, orderId, first)
  {
    OnTrip(t, orderId) && t.links[first].tripId in t.trips && t.trips[t.links[first].tripId].companyId == companyId
  }

  // The calls that can fail; the first two are made for an own trip only.
  const REMOVE_LINKS := 1
  const UPDATE_TRIP := 2
  const UPDATE_ORDER := 3
  const REMOVE_REQUESTS := 4
  const COMMIT_CANCEL := 5

  // The writes of the transaction: neither reads nor writes a trip.
  function CancelWrites(t: Tables, orderId: int, links: map<int, Link>): Tables
    requires orderId in t.orders
  {
    t.(links := links,
      orders := t.orders[orderId := BackOnTheMarket(t.orders[orderId])],
      dispatches := t.dispatches - RequestsOf(t, orderId))
  }

  // The recalculation goes through the connection outside the transaction: it
  // still sees the removed links, and it stays when the transaction rolls back.
  ghost function CanceledTables(t: Tables, orderId: int, companyId: int, first: int, fault: int): (Tables, bool) {
    if orderId !in t.orders || !FirstLink(t, orderId, first) || !Cancelable(t.orders[orderId]) then (t, false)
    else if OwnTrip(t, orderId, first, companyId) then
      var tripId := t.links[first].tripId;
      var links := Unlinked(t.links, {orderId}, tripId);
      if REMOVE_LINKS <= fault <= UPDATE_TRIP then (t, false)
      else if UPDATE_ORDER <= fault <= COMMIT_CANCEL then (Recalculated(t, tripId), false)
      else (CancelWrites(Recalculated(t, tripId), orderId, links), true)
    else if UPDATE_ORDER <= fault <= COMMIT_CANCEL then (t, false)
    else (CancelWrites(t, orderId, t.links), true)
  }

  // `tx` holds what the transaction has written; `db` what everyone else sees.
  method CancelOrder(db: Database, orderId: int, companyId: int, first: int, fault: int, places: int -> Routing.Load)
    returns (ok: bool)
    requires FirstLink(db.t, orderId, first)
    modifies db
    ensures (db.t, ok) == CanceledTables(old(db.t), orderId, companyId, first, fault)
    ensures ok ==> forall d :: d in db.t.dispatches <==>
      d in old(db.t).dispatches && old(db.t).dispatches[d].orderId != orderId
  {
    if orderId !in db.t.orders || !Cancelable(db.t.orders[orderId]) {
      return false;
    }
    var order := db.t.orders[orderId];
    var links := db.t.links;
    if OwnTrip(db.t, orderId, first, companyId) {
      var tripId := links[first].tripId;
      if fault == REMOVE_LINKS {
        return false;
      }
      links := Unlinked(links, {orderId}, tripId);
      if fault == UPDATE_TRIP {
        return false;
      }
      OneRecalculation(db.t, tripId);
      var outside := RecalculateRoute(db.t, [tripId], places);
      db.t := outside;
    }
    if fault == UPDATE_ORDER {
      return false;
    }
    var status := if order.source == Internal then Published else Canceled;
    var orders := db.t.orders[orderId := order.(status := status, dispatcherId := None, companyId := None)];
    if fault == REMOVE_REQUESTS {
      return false;
    }
    var dispatches := db.t.dispatches - RequestsOf(db.t, orderId);
    if fault == COMMIT_CANCEL {
      return false;
    }
    db.t := db.t.(links := links, orders := orders, dispatches := dispatches);
    return true;
  }

  // ------------------------------------------------------------------------
  // Completing a trip: actionsOrderDelivered with countTripNoDeliveredOrders

  function Undelivered(t: Tables, tripId: int): set<int> {
    set o | o in t.orders && Rides(t.links, o, tripId)
      && t.orders[o].status != Delivered && t.orders[o].status != Claimed
  }

  function Completion(t: Tables, tripId: int): Tables {
    if tripId in t.trips && |Undelivered(t, tripId)| == 0
    then t.(trips := t.trips[tripId := t.trips[tripId].(status := Completed)])
    else t
  }

  method CompleteTrip(db: Database, tripId: int)
    modifies db
    ensures db.t == Completion(old(db.t), tripId)
  {
    var count := |Undelivered(db.t, tripId)|;
    if count == 0 && tripId in db.t.trips {
      db.t := db.t.(trips := db.t.trips[tripId := db.t.trips[tripId].(status := Completed)]);
    }
  }

  // An open trip completes exactly when each of its orders is delivered or
  // claimed at that moment; one order already billed or paid keeps it open.
  lemma TripCompletesExactlyWhen(t: Tables, tripId: int)
    requires tripId in t.trips && t.trips[tripId].status != Completed
    ensures Completion(t, tripId).trips[tripId].status == Completed
      <==> forall o :: o in t.orders && Rides(t.links, o, tripId) ==>
        t.orders[o].status == Delivered || t.orders[o].status == Claimed
    ensures forall o :: o in t.orders && Rides(t.links, o, tripId) && t.orders[o].status in {Billed, Paid} ==>
      Completion(t, tripId) == t
  {
    forall o | o in t.orders && Rides(t.links, o, tripId)
        && t.orders[o].status != Delivered && t.orders[o].status != Claimed
      ensures Completion(t, tripId) == t
    {
      assert o in Undelivered(t, tripId);
    }
  }
}
