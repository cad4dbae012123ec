// The cached trip totals: which operations keep them equal to what the trip's
// orders are worth, and exactly when cancelling does.
module TripProofs {
  import opened Prelude
  import opened Store
  import opened Orders
  import opened Trips

  // Links point at existing rows, and an order has at most one.
  ghost predicate Linked(t: Tables) {
    && (forall l :: l in t.links ==> t.links[l].orderId in t.orders && t.links[l].tripId in t.trips)
    && (forall k, l :: k in t.links && l in t.links && k != l ==> t.links[k].orderId != t.links[l].orderId)
  }

  function Worth(t: Tables, tripId: int): map<int, Money> {
    Fares(t.orders, t.links, tripId)
  }

  ghost predicate Exact(t: Tables, tripId: int) {
    tripId in t.trips ==> t.trips[tripId].totalPrice == Sum(Worth(t, tripId))
  }

  ghost predicate Totals(t: Tables) {
    forall k :: k in t.trips ==> Exact(t, k)
  }

  ghost predicate Board(t: Tables) {
    Linked(t) && Totals(t)
  }

  // ------------------------------------------------------------------------
  // Recalculating

  lemma RecalculationIsExact(t: Tables, tripId: int, k: int)
    ensures k == tripId || Exact(t, k) ==> Exact(Recalculated(t, tripId), k)
    ensures Recalculated(t, tripId).trips.Keys == t.trips.Keys
    ensures Recalculated(t, tripId) == t.(trips := Recalculated(t, tripId).trips)
  {
  }

  lemma {:induction false} RecalculatingAllIsExact(t: Tables, ids: seq<int>, k: int)
    ensures k in ids || Exact(t, k) ==> Exact(RecalculatedAll(t, ids), k)
    ensures RecalculatedAll(t, ids).trips.Keys == t.trips.Keys
    ensures RecalculatedAll(t, ids) == t.(trips := RecalculatedAll(t, ids).trips)
  {
    if ids != [] {
      var n := |ids| - 1;
      RecalculatingAllIsExact(t, ids[..n], k);
      RecalculationIsExact(RecalculatedAll(t, ids[..n]), ids[n], k);
      assert k in ids ==> k in ids[..n] || k == ids[n];
    }
  }

  // Writes that change what only the recalculated trips are worth.
  lemma RecalculatingSettles(t: Tables, raw: Tables, ids: seq<int>)
    requires Totals(t) && raw.trips == t.trips
    requires forall k :: k in t.trips && k !in ids ==> Worth(raw, k) == Worth(t, k)
    ensures Totals(RecalculatedAll(raw, ids))
  {
    var after := RecalculatedAll(raw, ids);
    forall k | k in after.trips
      ensures Exact(after, k)
    {
      RecalculatingAllIsExact(raw, ids, k);
    }
  }

  lemma LinkedIgnoresTotals(t: Tables, ids: seq<int>)
    requires Linked(t)
    ensures Linked(RecalculatedAll(t, ids))
  {
    RecalculatingAllIsExact(t, ids, 0);
  }

  // ------------------------------------------------------------------------
  // assignOrder

  function AssignWrites(t: Tables, orderId: int, tripId: int, newLink: int, first: int): Tables
    requires MayAssign(t, orderId, tripId, newLink, first)
  {
    t.(orders := t.orders[orderId := Reassigned(t.orders[orderId], t.trips[tripId])],
      links := Relinked(t, orderId, tripId, newLink, first))
  }

  lemma RidesAfterAssign(t: Tables, orderId: int, tripId: int, newLink: int, first: int, o: int, k: int)
    requires Linked(t) && MayAssign(t, orderId, tripId, newLink, first)
    ensures Rides(Relinked(t, orderId, tripId, newLink, first), o, k)
      <==> if o == orderId then k == tripId else Rides(t.links, o, k)
  {
    var l := if OnTrip(t, orderId) then first else newLink;
    var links := Relinked(t, orderId, tripId, newLink, first);
    assert links[l] == Link(tripId, orderId);
    if o != orderId && Rides(t.links, o, k) {
      var x :| x in t.links && t.links[x] == Link(k, o);
      assert x in links && links[x] == Link(k, o);
    }
  }

  // What every trip is worth after an assignment, before any recalculation: the
  // order is worth its price on its new trip and nothing elsewhere.
  function Shifted(t: Tables, orderId: int, tripId: int, k: int): map<int, Money>
    requires orderId in t.orders
  {
    if k == tripId && Counts(t.orders[orderId].status)
    then Worth(t, k)[orderId := t.orders[orderId].salePrice]
    else Worth(t, k) - {orderId}
  }

  lemma WorthAfterAssign(t: Tables, orderId: int, tripId: int, newLink: int, first: int, k: int)
    requires Linked(t) && MayAssign(t, orderId, tripId, newLink, first)
    ensures Worth(AssignWrites(t, orderId, tripId, newLink, first), k) == Shifted(t, orderId, tripId, k)
  {
    var links := Relinked(t, orderId, tripId, newLink, first);
    forall o
      ensures Rides(links, o, k) <==> if o == orderId then k == tripId else Rides(t.links, o, k)
    {
      RidesAfterAssign(t, orderId, tripId, newLink, first, o, k);
    }
    FaresAfterShift(t, links, orderId, tripId, k);
    ReassigningIsNoFare(t, links, orderId, tripId, k);
  }

  lemma FaresAfterShift(t: Tables, links: map<int, Link>, orderId: int, tripId: int, k: int)
    requires orderId in t.orders
    requires forall o :: Rides(links, o, k) <==> if o == orderId then k == tripId else Rides(t.links, o, k)
    ensures Fares(t.orders, links, k) == Shifted(t, orderId, tripId, k)
  {
  }

  lemma ReassigningIsNoFare(t: Tables, links: map<int, Link>, orderId: int, tripId: int, k: int)
    requires orderId in t.orders && tripId in t.trips
    ensures Fares(t.orders[orderId := Reassigned(t.orders[orderId], t.trips[tripId])], links, k)
      == Fares(t.orders, links, k)
  {
  }

  // An order rides where its only link says.
  lemma RidesWhereLinked(t: Tables, orderId: int, first: int, k: int)
    requires Linked(t) && FirstLink(t, orderId, first)
    ensures Rides(t.links, orderId, k) <==> OnTrip(t, orderId) && t.links[first].tripId == k
  {
    if OnTrip(t, orderId) && t.links[first].tripId == k {
      assert t.links[first] == Link(k, orderId);
    }
  }

  lemma AssignKeepsBoard(t: Tables, orderId: int, tripId: int, newLink: int, first: int, fault: int)
    requires Board(t)
    ensures Board(Assigned(t, orderId, tripId, newLink, first, fault).0)
  {
    if Assigned(t, orderId, tripId, newLink, first, fault).1 {
      var raw, ids := AssignWrites(t, orderId, tripId, newLink, first), TripsToUpdate(t, orderId, tripId, first);
      forall k | k in t.trips && k !in ids
        ensures Worth(raw, k) == Worth(t, k)
      {
        AssignLeavesOthers(t, orderId, tripId, newLink, first, k);
      }
      RecalculatingSettles(t, raw, ids);
      AssignKeepsLinked(t, orderId, tripId, newLink, first);
      LinkedIgnoresTotals(raw, ids);
    }
  }

  lemma AssignLeavesOthers(t: Tables, orderId: int, tripId: int, newLink: int, first: int, k: int)
    requires Linked(t) && MayAssign(t, orderId, tripId, newLink, first)
    requires k !in TripsToUpdate(t, orderId, tripId, first)
    ensures Worth(AssignWrites(t, orderId, tripId, newLink, first), k) == Worth(t, k)
  {
    WorthAfterAssign(t, orderId, tripId, newLink, first, k);
    RidesWhereLinked(t, orderId, first, k);
    assert orderId !in Worth(t, k);
  }

  lemma AssignKeepsLinked(t: Tables, orderId: int, tripId: int, newLink: int, first: int)
    requires Linked(t) && MayAssign(t, orderId, tripId, newLink, first)
    ensures Linked(AssignWrites(t, orderId, tripId, newLink, first))
  {
  }

  // Moving an order from one trip to another moves its price and no more: the
  // two cached totals add up to the same as before.
  lemma MovingConservesTheTotals(t: Tables, orderId: int, tripId: int, newLink: int, first: int, fault: int)
    requires Board(t) && OnTrip(t, orderId)
    requires Assigned(t, orderId, tripId, newLink, first, fault).1 && t.links[first].tripId != tripId
    ensures var after := Assigned(t, orderId, tripId, newLink, first, fault).0; var from := t.links[first].tripId;
      && from in t.trips && from in after.trips && tripId in after.trips
      && Add(after.trips[from].totalPrice, after.trips[tripId].totalPrice)
        == Add(t.trips[from].totalPrice, t.trips[tripId].totalPrice)
  {
    var raw, ids := AssignWrites(t, orderId, tripId, newLink, first), TripsToUpdate(t, orderId, tripId, first);
    var from := t.links[first].tripId;
    assert Exact(t, from) && Exact(t, tripId);
    RecalculatingAllIsExact(raw, ids, from);
    RecalculatingAllIsExact(raw, ids, tripId);
    assert Worth(RecalculatedAll(raw, ids), from) == Worth(raw, from);
    assert Worth(RecalculatedAll(raw, ids), tripId) == Worth(raw, tripId);
    WorthMoves(t, orderId, tripId, newLink, first);
  }

  lemma WorthMoves(t: Tables, orderId: int, tripId: int, newLink: int, first: int)
    requires Linked(t) && OnTrip(t, orderId) && MayAssign(t, orderId, tripId, newLink, first)
    requires t.links[first].tripId != tripId
    ensures var raw := AssignWrites(t, orderId, tripId, newLink, first); var from := t.links[first].tripId;
      Add(Sum(Worth(raw, from)), Sum(Worth(raw, tripId))) == Add(Sum(Worth(t, from)), Sum(Worth(t, tripId)))
  {
    var from := t.links[first].tripId;
    WorthAfterAssign(t, orderId, tripId, newLink, first, from);
    WorthAfterAssign(t, orderId, tripId, newLink, first, tripId);
    ShiftConserves(t, orderId, tripId, first);
  }

  lemma ShiftConserves(t: Tables, orderId: int, tripId: int, first: int)
    requires Linked(t) && orderId in t.orders && OnTrip(t, orderId) && FirstLink(t, orderId, first)
    requires t.links[first].tripId != tripId
    ensures var from := t.links[first].tripId;
      Add(Sum(Shifted(t, orderId, tripId, from)), Sum(Shifted(t, orderId, tripId, tripId)))
      == Add(Sum(Worth(t, from)), Sum(Worth(t, tripId)))
  {
    var from := t.links[first].tripId;
    RidesWhereLinked(t, orderId, first, from);
    RidesWhereLinked(t, orderId, first, tripId);
    if Counts(t.orders[orderId].status) {
      SumsMove(Worth(t, from), Worth(t, tripId), orderId);
    } else {
      assert Worth(t, from) - {orderId} == Worth(t, from);
      assert Worth(t, tripId) - {orderId} == Worth(t, tripId);
    }
  }

  lemma SumsMove(a: map<int, Money>, b: map<int, Money>, o: int)
    requires o in a && o !in b
    ensures Add(Sum(a - {o}), Sum(b[o := a[o]])) == Add(Sum(a), Sum(b))
  {
    SumWithout(a, o);
    SumWith(b, o, a[o]);
    AddLaws(Sum(a - {o}), a[o], Sum(b));
  }

  // ------------------------------------------------------------------------
  // Taking orders off a trip

  lemma RidesAfterUnlinking(links: map<int, Link>, orderIds: set<int>, tripId: int, o: int, k: int)
    ensures Rides(Unlinked(links, orderIds, tripId), o, k) <==> Rides(links, o, k) && !(o in orderIds && k == tripId)
  {
    if Rides(links, o, k) && !(o in orderIds && k == tripId) {
      var l :| l in links && links[l] == Link(k, o);
      assert l in Unlinked(links, orderIds, tripId);
    }
  }

  lemma WorthAfterUnlinking(t: Tables, orderIds: set<int>, tripId: int, k: int)
    ensures Worth(t.(links := Unlinked(t.links, orderIds, tripId)), k)
      == Worth(t, k) - if k == tripId then orderIds else {}
  {
    forall o
      ensures Rides(Unlinked(t.links, orderIds, tripId), o, k)
        <==> Rides(t.links, o, k) && !(o in orderIds && k == tripId)
    {
      RidesAfterUnlinking(t.links, orderIds, tripId, o, k);
    }
  }

  lemma RemoveKeepsBoard(t: Tables, orderIds: set<int>, tripId: int, fault: int)
    requires Board(t)
    ensures Board(RemovedFromTrip(t, orderIds, tripId, fault).0)
  {
    if RemovedFromTrip(t, orderIds, tripId, fault).1 {
      var raw := t.(links := Unlinked(t.links, orderIds, tripId));
      forall k | k in t.trips && k !in [tripId]
        ensures Worth(raw, k) == Worth(t, k)
      {
        WorthAfterUnlinking(t, orderIds, tripId, k);
      }
      OneRecalculation(raw, tripId);
      RecalculatingSettles(t, raw, [tripId]);
      LinkedIgnoresTotals(raw, [tripId]);
    }
  }

  // Taking one order off lowers the total by exactly its price.
  lemma RemovingTakesItsPrice(t: Tables, orderId: int, tripId: int, fault: int)
    requires Board(t) && orderId in Worth(t, tripId)
    requires RemovedFromTrip(t, {orderId}, tripId, fault).1
    ensures var after := RemovedFromTrip(t, {orderId}, tripId, fault).0;
      && tripId in after.trips
      && t.trips[tripId].totalPrice == Add(t.orders[orderId].salePrice, after.trips[tripId].totalPrice)
      && !OnTrip(after, orderId)
  {
    assert Exact(t, tripId);
    WorthAfterUnlinking(t, {orderId}, tripId, tripId);
    SumWithout(Worth(t, tripId), orderId);
  }

  lemma DeleteKeepsBoard(t: Tables, orderId: int, first: int, fault: int)
    requires Board(t)
    ensures Board(DeletedOrder(t, orderId, first, fault).0)
  {
    if DeletedOrder(t, orderId, first, fault).1 {
      var plain := t.(orders := t.orders[orderId := t.orders[orderId].(companyId := None)]);
      StatusKeepsBoard(t, plain, orderId);
      if OnTrip(t, orderId) {
        var tripId := t.links[first].tripId;
        assert DeletedOrder(t, orderId, first, fault).0
          == RemovedFromTrip(plain, {orderId}, tripId, Trips.COMMIT + 1).0;
        RemoveKeepsBoard(plain, {orderId}, tripId, Trips.COMMIT + 1);
      }
    }
  }

  // ------------------------------------------------------------------------
  // Importing

  lemma ImportKeepsBoard(t: Tables, orderId: int, order: Order, tripId: Option<int>, newLink: int, fault: int)
    requires Board(t)
    ensures Board(Imported(t, orderId, order, tripId, newLink, fault).0)
  {
    if Imported(t, orderId, order, tripId, newLink, fault).1 {
      var placed := t.(orders := t.orders[orderId := order]);
      NewOrderKeepsBoard(t, orderId, order);
      if tripId.Some? {
        NewLinkKeepsBoard(placed, orderId, tripId.value, newLink);
      }
    }
  }

  lemma NewLinkKeepsBoard(t: Tables, orderId: int, tripId: int, newLink: int)
    requires Board(t) && orderId in t.orders && tripId in t.trips && newLink !in t.links && !OnTrip(t, orderId)
    ensures Board(Recalculated(t.(links := t.links[newLink := Link(tripId, orderId)]), tripId))
  {
    var raw := t.(links := t.links[newLink := Link(tripId, orderId)]);
    forall k | k in t.trips && k !in [tripId]
      ensures Worth(raw, k) == Worth(t, k)
    {
      NewLinkIsElsewhere(t.links, newLink, Link(tripId, orderId), k);
    }
    RecalculatingSettles(t, raw, [tripId]);
    OneRecalculation(raw, tripId);
    LinkedIgnoresTotals(raw, [tripId]);
  }

  lemma NewLinkIsElsewhere(links: map<int, Link>, newLink: int, link: Link, k: int)
    requires newLink !in links && k != link.tripId
    ensures forall o :: Rides(links[newLink := link], o, k) <==> Rides(links, o, k)
  {
    forall o | Rides(links, o, k)
      ensures Rides(links[newLink := link], o, k)
    {
      var l :| l in links && links[l] == Link(k, o);
      assert links[newLink := link][l] == Link(k, o);
    }
  }

  lemma NewOrderKeepsBoard(t: Tables, orderId: int, order: Order)
    requires Board(t) && orderId !in t.orders
    ensures Board(t.(orders := t.orders[orderId := order]))
  {
    var after := t.(orders := t.orders[orderId := order]);
    forall k | k in after.trips
      ensures Exact(after, k)
    {
      assert Exact(t, k);
      assert !Rides(t.links, orderId, k);
      assert Worth(after, k) == Worth(t, k);
    }
  }

  // ------------------------------------------------------------------------
  // Operations that touch neither links nor trips

  predicate SameFare(a: Order, b: Order) {
    a.salePrice == b.salePrice && (Counts(a.status) <==> Counts(b.status))
  }

  // A write to one order that leaves its fare alone, or whose order rides nowhere.
  lemma StatusKeepsBoard(t: Tables, after: Tables, orderId: int)
    requires Board(t) && orderId in t.orders && orderId in after.orders
    requires after.links == t.links && after.trips == t.trips
    requires after.orders == t.orders[orderId := after.orders[orderId]]
    requires SameFare(t.orders[orderId], after.orders[orderId]) || !OnTrip(t, orderId)
    ensures Board(after)
  {
    forall k | k in after.trips
      ensures Exact(after, k)
    {
      assert Exact(t, k);
      assert Rides(t.links, orderId, k) ==> OnTrip(t, orderId);
      assert Worth(after, k) == Worth(t, k);
    }
  }

  // The price makes no difference to the sum of the others: it is zero, or the
  // sum is not a number anyway.
  ghost predicate Weightless(price: Money, others: map<int, Money>) {
    price == ZERO || Sum(others).NaN?
  }

  // Everything else the order's trip carries.
  function Others(t: Tables, orderId: int, first: int): map<int, Money>
    requires first in t.links
  {
    Worth(t, t.links[first].tripId) - {orderId}
  }

  // Writing one order and nothing else: the trips it does not ride on are worth
  // the same, and its own trip is worth the others and, if it counts, its price.
  lemma WorthAfterWrite(t: Tables, after: Tables, orderId: int, first: int, k: int)
    requires Linked(t) && orderId in t.orders && orderId in after.orders && OnTrip(t, orderId)
    requires FirstLink(t, orderId, first)
    requires after.orders == t.orders[orderId := after.orders[orderId]] && after.links == t.links
    ensures Worth(after, k) ==
      if k != t.links[first].tripId then Worth(t, k)
      else if Counts(after.orders[orderId].status)
      then Others(t, orderId, first)[orderId := after.orders[orderId].salePrice]
      else Others(t, orderId, first)
  {
    RidesWhereLinked(t, orderId, first, k);
  }

  // A status write on an order that rides on a trip keeps the totals exactly
  // when it does not cross the two statuses, or the price carries no weight.
  lemma StatusWriteKeepsBoardExactlyWhen(t: Tables, after: Tables, orderId: int, first: int)
    requires Board(t) && orderId in t.orders && orderId in after.orders && OnTrip(t, orderId)
    requires FirstLink(t, orderId, first)
    requires after.orders == t.orders[orderId := after.orders[orderId]] && after.links == t.links
    requires after.trips == t.trips
    requires after.orders[orderId].salePrice == t.orders[orderId].salePrice
    ensures Board(after) <==>
      || SameFare(t.orders[orderId], after.orders[orderId])
      || Weightless(t.orders[orderId].salePrice, Others(t, orderId, first))
  {
    var trip := t.links[first].tripId;
    OwnTripExactlyWhen(t, after, orderId, first);
    forall k | k in after.trips && k != trip
      ensures Exact(after, k)
    {
      assert Exact(t, k);
      WorthAfterWrite(t, after, orderId, first, k);
    }
  }

  lemma OwnTripExactlyWhen(t: Tables, after: Tables, orderId: int, first: int)
    requires Board(t) && orderId in t.orders && orderId in after.orders && OnTrip(t, orderId)
    requires FirstLink(t, orderId, first)
    requires after.orders == t.orders[orderId := after.orders[orderId]] && after.links == t.links
    requires after.trips == t.trips
    requires after.orders[orderId].salePrice == t.orders[orderId].salePrice
    ensures Exact(after, t.links[first].tripId) <==>
      || SameFare(t.orders[orderId], after.orders[orderId])
      || Weightless(t.orders[orderId].salePrice, Others(t, orderId, first))
  {
    var trip, price := t.links[first].tripId, t.orders[orderId].salePrice;
    var others := Others(t, orderId, first);
    assert Exact(t, trip);
    WorthAfterWrite(t, after, orderId, first, trip);
    WorthAfterWrite(t, t, orderId, first, trip);
    SumWith(others, orderId, price);
  }

  // ------------------------------------------------------------------------
  // cancelOrder

  // After the company of the trip cancelled an order, the cached total is too
  // high by exactly that order's price, right or wrong as it was before.
  lemma CancelingLeavesThePriceIn(t: Tables, orderId: int, companyId: int, first: int, fault: int)
    requires Linked(t) && CanceledTables(t, orderId, companyId, first, fault).1 && OwnTrip(t, orderId, first, companyId)
    ensures var after := CanceledTables(t, orderId, companyId, first, fault).0; var trip := t.links[first].tripId;
      && trip in after.trips
      && after.trips[trip].totalPrice == Add(t.orders[orderId].salePrice, Sum(Worth(after, trip)))
      && Worth(after, trip) == Others(t, orderId, first)
  {
    var trip := t.links[first].tripId;
    RidesWhereLinked(t, orderId, first, trip);
    SumWithout(Worth(t, trip), orderId);
    WorthAfterCancel(t, orderId, first, trip);
  }

  lemma WorthAfterCancel(t: Tables, orderId: int, first: int, k: int)
    requires Linked(t) && orderId in t.orders && OnTrip(t, orderId) && FirstLink(t, orderId, first)
    ensures var links := Unlinked(t.links, {orderId}, t.links[first].tripId);
      Fares(t.orders[orderId := BackOnTheMarket(t.orders[orderId])], links, k)
      == if k == t.links[first].tripId then Others(t, orderId, first) else Worth(t, k)
  {
    forall o
      ensures Rides(Unlinked(t.links, {orderId}, t.links[first].tripId), o, k)
        <==> Rides(t.links, o, k) && o != orderId
    {
      RidesWhereLinked(t, orderId, first, k);
      RidesAfterUnlinking(t.links, {orderId}, t.links[first].tripId, o, k);
    }
  }

  // What makes cancelling fail: a missing or not cancelable order, or a failing
  // call; the first two calls are made for an own trip only.
  predicate CancelRefused(t: Tables, orderId: int, companyId: int, first: int, fault: int) {
    || orderId !in t.orders || !FirstLink(t, orderId, first) || !Cancelable(t.orders[orderId])
    || UPDATE_ORDER <= fault <= COMMIT_CANCEL
    || (OwnTrip(t, orderId, first, companyId) && REMOVE_LINKS <= fault <= UPDATE_TRIP)
  }

  // Cancelling keeps the totals exactly when it fails, the order is on no trip,
  // it goes back to the market still riding on another company's trip, or its
  // price carries no weight.
  lemma CancelKeepsBoardExactlyWhen(t: Tables, orderId: int, companyId: int, first: int, fault: int)
    requires Board(t)
    ensures Board(CanceledTables(t, orderId, companyId, first, fault).0) <==>
        || CancelRefused(t, orderId, companyId, first, fault) || !OnTrip(t, orderId)
        || (!OwnTrip(t, orderId, first, companyId) && t.orders[orderId].source == Internal)
        || Weightless(t.orders[orderId].salePrice, Others(t, orderId, first))
  {
    var result := CanceledTables(t, orderId, companyId, first, fault);
    if orderId in t.orders && FirstLink(t, orderId, first) && Cancelable(t.orders[orderId]) {
      if OwnTrip(t, orderId, first, companyId) {
        ExactTripStays(t, t.links[first].tripId);
        if result.1 {
          OwnCancelKeepsBoardExactlyWhen(t, orderId, first, CancelWrites(t, orderId,
            Unlinked(t.links, {orderId}, t.links[first].tripId)));
        }
      } else if result.1 {
        if OnTrip(t, orderId) {
          StatusWriteKeepsBoardExactlyWhen(t, result.0, orderId, first);
        } else {
          StatusKeepsBoard(t, result.0, orderId);
        }
      }
    }
  }

  lemma ExactTripStays(t: Tables, tripId: int)
    requires Board(t)
    ensures Recalculated(t, tripId) == t
  {
    assert Exact(t, tripId);
  }

  lemma OwnCancelKeepsBoardExactlyWhen(t: Tables, orderId: int, first: int, after: Tables)
    requires Board(t) && orderId in t.orders && Cancelable(t.orders[orderId])
    requires OnTrip(t, orderId) && FirstLink(t, orderId, first)
    requires after == CancelWrites(t, orderId, Unlinked(t.links, {orderId}, t.links[first].tripId))
    ensures Board(after) <==> Weightless(t.orders[orderId].salePrice, Others(t, orderId, first))
  {
    var trip, price := t.links[first].tripId, t.orders[orderId].salePrice;
    assert Exact(t, trip) && Worth(after, trip) == Others(t, orderId, first) by {
      WorthAfterCancel(t, orderId, first, trip);
    }
    RidesWhereLinked(t, orderId, first, trip);
    SumWithout(Worth(t, trip), orderId);
    assert Linked(after);
    forall k | k in after.trips && k != trip
      ensures Exact(after, k)
    {
      assert Exact(t, k);
      WorthAfterCancel(t, orderId, first, k);
    }
  }
}
