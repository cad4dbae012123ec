// When each operation on trips goes through and what it writes: orders, links and
// totals, row by row.
module TripEffects {
  import opened Prelude
  import opened Store
  import opened Trips
  import opened TripProofs
  import Orders

  // What a trip is worth: the sale prices of the orders linked to it, canceled and
  // archived ones left out.
  lemma WorthIs(t: Tables, tripId: int, o: int)
    ensures o in Worth(t, tripId) <==>
      && o in t.orders && t.orders[o].status != Canceled && t.orders[o].status != Archived
      && exists l :: l in t.links && t.links[l].tripId == tripId && t.links[l].orderId == o
    ensures o in Worth(t, tripId) ==> Worth(t, tripId)[o] == t.orders[o].salePrice
  {
    forall l | l in t.links && t.links[l].tripId == tripId && t.links[l].orderId == o
      ensures t.links[l] == Link(tripId, o)
    {
    }
  }

  // Trips change in nothing but their totals.
  ghost predicate OnlyTotals(t: Tables, after: Tables) {
    && after.trips.Keys == t.trips.Keys
    && forall k :: k in t.trips ==> after.trips[k] == t.trips[k].(totalPrice := after.trips[k].totalPrice)
  }

  lemma {:induction false} RecalculatingWritesTotals(t: Tables, ids: seq<int>)
    ensures OnlyTotals(t, RecalculatedAll(t, ids))
    decreases |ids|
  {
    if ids != [] {
      RecalculatingWritesTotals(t, ids[..|ids| - 1]);
    }
  }

  // ------------------------------------------------------------------------
  // assignOrder

  // Assigning goes through exactly for an order and a trip that exist and without
  // a failing call.
  lemma AssignExactlyWhen(t: Tables, orderId: int, tripId: int, newLink: int, first: int, fault: int)
    requires FirstLink(t, orderId, first) && newLink !in t.links
    ensures Assigned(t, orderId, tripId, newLink, first, fault).1
      <==> tripId in t.trips && orderId in t.orders && !(ORDER_WRITE <= fault <= COMMIT)
    ensures !Assigned(t, orderId, tripId, newLink, first, fault).1 ==>
      Assigned(t, orderId, tripId, newLink, first, fault).0 == t
  {
  }

  // The order then has the trip's dispatcher, is dispatched again if it had been
  // declined, and rides on this trip and no other; all other orders ride and are as
  // before, and trips change in their totals only.
  lemma AssignPutsOnTheTrip(t: Tables, orderId: int, tripId: int, newLink: int, first: int, fault: int, o: int, k: int)
    requires Linked(t) && Assigned(t, orderId, tripId, newLink, first, fault).1
    ensures var after := Assigned(t, orderId, tripId, newLink, first, fault).0;
      && orderId in t.orders && tripId in t.trips
      && after == t.(orders := after.orders, links := after.links, trips := after.trips)
      && after.orders == t.orders[orderId := t.orders[orderId].(
        dispatcherId := t.trips[tripId].dispatcherId,
        status := if t.orders[orderId].status == Declined then Dispatched else t.orders[orderId].status)]
      && OnlyTotals(t, after)
      && (Rides(after.links, o, k) <==> if o == orderId then k == tripId else Rides(t.links, o, k))
  {
    var raw := AssignWrites(t, orderId, tripId, newLink, first);
    RecalculatingAllIsExact(raw, TripsToUpdate(t, orderId, tripId, first), 0);
    RecalculatingWritesTotals(raw, TripsToUpdate(t, orderId, tripId, first));
    RidesAfterAssign(t, orderId, tripId, newLink, first, o, k);
  }

  // ------------------------------------------------------------------------
  // deleteFromTrip

  // Exactly the links between the given orders and the trip go.
  lemma RemovingTakesTheLinks(t: Tables, orderIds: set<int>, tripId: int, fault: int, l: int)
    ensures var result := RemovedFromTrip(t, orderIds, tripId, fault);
      && (result.1 <==> tripId in t.trips && !(LINK_WRITE <= fault <= COMMIT))
      && (!result.1 ==> result.0 == t)
      && (result.1 ==>
        && result.0 == t.(links := result.0.links, trips := result.0.trips) && OnlyTotals(t, result.0)
        && (l in result.0.links
            <==> l in t.links && !(t.links[l].orderId in orderIds && t.links[l].tripId == tripId))
        && (l in result.0.links ==> result.0.links[l] == t.links[l]))
  {
  }

  // ------------------------------------------------------------------------
  // deleteOrder

  // Deleting goes through exactly for an order that exists and without a failing
  // call.
  lemma DeleteExactlyWhen(t: Tables, orderId: int, first: int, fault: int)
    requires FirstLink(t, orderId, first)
    ensures DeletedOrder(t, orderId, first, fault).1 <==> orderId in t.orders && !(ORDER_WRITE <= fault <= COMMIT)
    ensures !DeletedOrder(t, orderId, first, fault).1 ==> DeletedOrder(t, orderId, first, fault).0 == t
  {
  }

  // The order then has no company and is on no trip; every other order and every
  // other link is as before, and trips change in their totals only.
  lemma DeletingTakesOffTheTrip(t: Tables, orderId: int, first: int, fault: int, l: int)
    requires Linked(t) && DeletedOrder(t, orderId, first, fault).1
    ensures var after := DeletedOrder(t, orderId, first, fault).0;
      && orderId in t.orders && !OnTrip(after, orderId)
      && after == t.(orders := after.orders, links := after.links, trips := after.trips)
      && after.orders == t.orders[orderId := t.orders[orderId].(companyId := None)]
      && (l in after.links <==> l in t.links && t.links[l].orderId != orderId)
      && (l in after.links ==> after.links[l] == t.links[l])
      && OnlyTotals(t, after)
  {
  }

  // Its trip's cached total falls by exactly its price if it counted there, and
  // stays otherwise; every other total stays.
  lemma DeletingTakesItsPrice(t: Tables, orderId: int, first: int, fault: int, k: int)
    requires Board(t) && DeletedOrder(t, orderId, first, fault).1 && k in t.trips
    ensures var after := DeletedOrder(t, orderId, first, fault).0;
      && k in after.trips
      && t.trips[k].totalPrice ==
        if orderId in Worth(t, k) then Add(t.orders[orderId].salePrice, after.trips[k].totalPrice)
        else after.trips[k].totalPrice
  {
    var after := DeletedOrder(t, orderId, first, fault).0;
    DeleteKeepsBoard(t, orderId, first, fault);
    assert Exact(t, k);
    DeletingTakesOffTheTrip(t, orderId, first, fault, k);
    assert Exact(after, k);
    WorthAfterDelete(t, orderId, first, fault, k);
    if orderId in Worth(t, k) {
      SumWithout(Worth(t, k), orderId);
    } else {
      assert Worth(t, k) - {orderId} == Worth(t, k);
    }
  }

  lemma WorthAfterDelete(t: Tables, orderId: int, first: int, fault: int, k: int)
    requires Linked(t) && DeletedOrder(t, orderId, first, fault).1
    ensures Worth(DeletedOrder(t, orderId, first, fault).0, k) == Worth(t, k) - {orderId}
  {
    var after := DeletedOrder(t, orderId, first, fault).0;
    forall l
      ensures l in after.links <==> l in t.links && t.links[l].orderId != orderId
      ensures l in after.links ==> after.links[l] == t.links[l]
    {
      DeletingTakesOffTheTrip(t, orderId, first, fault, l);
    }
    forall o
      ensures Rides(after.links, o, k) <==> Rides(t.links, o, k) && o != orderId
    {
      if Rides(t.links, o, k) && o != orderId {
        var l :| l in t.links && t.links[l] == Link(k, o);
        assert l in after.links;
      }
    }
    DeletingTakesOffTheTrip(t, orderId, first, fault, 0);
    FaresWithout(t, after, orderId, k);
  }

  lemma FaresWithout(t: Tables, after: Tables, orderId: int, k: int)
    requires after.orders.Keys == t.orders.Keys
    requires forall o :: o in t.orders && o != orderId ==> after.orders[o] == t.orders[o]
    requires forall o :: Rides(after.links, o, k) <==> Rides(t.links, o, k) && o != orderId
    ensures Worth(after, k) == Worth(t, k) - {orderId}
  {
  }

  // ------------------------------------------------------------------------
  // saveImportedOrder

  // Importing goes through exactly without a failing call and, when a trip is given,
  // onto one that exists.
  lemma ImportExactlyWhen(t: Tables, orderId: int, order: Order, tripId: Option<int>, newLink: int, fault: int)
    requires orderId !in t.orders && newLink !in t.links && Orders.IsNew(order)
    ensures Imported(t, orderId, order, tripId, newLink, fault).1
      <==> (tripId.Some? ==> tripId.value in t.trips) && !(ORDER_WRITE <= fault <= COMMIT)
    ensures !Imported(t, orderId, order, tripId, newLink, fault).1 ==>
      Imported(t, orderId, order, tripId, newLink, fault).0 == t
  {
  }

  // The order is then there as given and rides exactly on the trip given, and all
  // other orders ride and are as before.
  lemma ImportPutsOnTheTrip(t: Tables, orderId: int, order: Order, tripId: Option<int>, newLink: int, fault: int,
    o: int, k: int)
    requires Linked(t) && Imported(t, orderId, order, tripId, newLink, fault).1
    ensures var after := Imported(t, orderId, order, tripId, newLink, fault).0;
      && orderId !in t.orders && after.orders == t.orders[orderId := order]
      && after == t.(orders := after.orders, links := after.links, trips := after.trips) && OnlyTotals(t, after)
      && (Rides(after.links, o, k) <==> if o == orderId then tripId == Some(k) else Rides(t.links, o, k))
  {
    var after := Imported(t, orderId, order, tripId, newLink, fault).0;
    if tripId.Some? {
      assert after.links[newLink] == Link(tripId.value, orderId);
    }
    if Rides(t.links, o, k) {
      var l :| l in t.links && t.links[l] == Link(k, o);
      assert l in after.links && after.links[l] == Link(k, o);
    }
  }

  // And the trip's total has grown by exactly its price.
  lemma ImportAddsItsPrice(t: Tables, orderId: int, order: Order, tripId: int, newLink: int, fault: int)
    requires Board(t) && Imported(t, orderId, order, Some(tripId), newLink, fault).1
    ensures var after := Imported(t, orderId, order, Some(tripId), newLink, fault).0;
      && tripId in t.trips && tripId in after.trips
      && after.trips[tripId].totalPrice == Add(order.salePrice, t.trips[tripId].totalPrice)
  {
    var after := Imported(t, orderId, order, Some(tripId), newLink, fault).0;
    assert Exact(t, tripId);
    forall o
      ensures Rides(after.links, o, tripId) <==> o == orderId || Rides(t.links, o, tripId)
    {
      ImportPutsOnTheTrip(t, orderId, order, Some(tripId), newLink, fault, o, tripId);
    }
    ImportPutsOnTheTrip(t, orderId, order, Some(tripId), newLink, fault, orderId, tripId);
    FaresWith(t, after, orderId, order, tripId);
    SumWith(Worth(t, tripId), orderId, order.salePrice);
  }

  lemma FaresWith(t: Tables, after: Tables, orderId: int, order: Order, k: int)
    requires orderId !in t.orders && after.orders == t.orders[orderId := order] && Orders.IsNew(order)
    requires forall o :: Rides(after.links, o, k) <==> o == orderId || Rides(t.links, o, k)
    ensures Worth(after, k) == Worth(t, k)[orderId := order.salePrice]
  {
  }

  // ------------------------------------------------------------------------
  // cancelOrder

  // A carrier can cancel exactly a published order that is dispatched, on pickup,
  // declined, billed or paid, as long as no call fails; the calls about a trip are
  // made for a trip of the canceling company only.
  lemma CancelExactlyWhen(t: Tables, orderId: int, companyId: int, first: int, fault: int)
    requires FirstLink(t, orderId, first)
    ensures CanceledTables(t, orderId, companyId, first, fault).1 <==>
      && orderId in t.orders && t.orders[orderId].published
      && t.orders[orderId].status in {Dispatched, OnPickup, Declined, Billed, Paid}
      && !(UPDATE_ORDER <= fault <= COMMIT_CANCEL)
      && !(OwnTrip(t, orderId, first, companyId) && REMOVE_LINKS <= fault <= UPDATE_TRIP)
  {
  }

  // The order then has no company and no dispatcher; an internal one is published
  // again, any other one canceled. Its requests are gone, all others are there. It is
  // off a trip of the company, and still on one of another company.
  lemma CancelingTakesBack(t: Tables, orderId: int, companyId: int, first: int, fault: int, d: int)
    requires Linked(t) && CanceledTables(t, orderId, companyId, first, fault).1
    ensures var after := CanceledTables(t, orderId, companyId, first, fault).0;
      && orderId in t.orders && FirstLink(t, orderId, first)
      && after.orders == t.orders[orderId := t.orders[orderId].(companyId := None, dispatcherId := None,
        status := if t.orders[orderId].source == Internal then Published else Canceled)]
      && (d in after.dispatches <==> d in t.dispatches && t.dispatches[d].orderId != orderId)
      && (d in after.dispatches ==> after.dispatches[d] == t.dispatches[d])
      && (OnTrip(after, orderId) <==> OnTrip(t, orderId) && t.trips[t.links[first].tripId].companyId != companyId)
      && OnlyTotals(t, after)
  {
    CancelingTakesLinks(t, orderId, companyId, first, fault, first);
  }

  // No other link changes, and nothing else does.
  lemma CancelingTakesLinks(t: Tables, orderId: int, companyId: int, first: int, fault: int, l: int)
    requires Linked(t) && CanceledTables(t, orderId, companyId, first, fault).1
    ensures var after := CanceledTables(t, orderId, companyId, first, fault).0;
      && FirstLink(t, orderId, first)
      && (l in after.links <==>
        l in t.links && !(t.links[l].orderId == orderId && t.trips[t.links[l].tripId].companyId == companyId))
      && (l in after.links ==> after.links[l] == t.links[l])
      && after == t.(orders := after.orders, links := after.links, dispatches := after.dispatches, trips := after.trips)
  {
  }
}
