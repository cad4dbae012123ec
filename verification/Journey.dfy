// A run to start examples from: an order is placed, put on an active trip of its
// company and reaches its pickup.
module Journey {
  import opened Prelude
  import opened Store
  import opened Lifecycle
  import Orders
  import Trips

  const ORDER := Order(Dispatched, None, Internal, true, false, NoPayment, None, None, None, None, 1, Amount(100.0))
  const TRIP := Trip(Active, 1, Some(1), None, ZERO)
  const PARTS := ["front", "back", "left", "right", "top"]

  const PLACED := ForOrder(1, Place(ORDER))
  const CAR := ForInspection(AddCar(1, 1))
  const OPENED := ForTrip(OpenTrip(1, TRIP))
  const ASSIGNED := ForTrip(Assign(1, 1, 1, 1, 0))
  const ARRIVED := ForOrder(1, MoveOrder(1, Orders.ToPickup))
  const TO_TRIP := [PLACED] + [CAR] + [OPENED] + [ASSIGNED]
  const TO_PICKUP := TO_TRIP + [ARRIVED]

  lemma CarIsThere()
    ensures Run([PLACED] + [CAR]) == EMPTY.(orders := map[1 := ORDER], cars := map[1 := 1])
  {
    assert [] + [PLACED] == [PLACED];
    RunOneMore([], PLACED);
    RunOneMore([PLACED], CAR);
  }

  lemma TripIsThere()
    ensures Run([PLACED] + [CAR] + [OPENED])
      == EMPTY.(orders := map[1 := ORDER], cars := map[1 := 1], trips := map[1 := TRIP])
  {
    CarIsThere();
    RunOneMore([PLACED] + [CAR], OPENED);
  }

  // The order's car and its active trip, whatever the trip's total.
  ghost predicate Riding(t: Tables) {
    && t.cars == map[1 := 1] && t.links == map[1 := Link(1, 1)] && t.dispatches == map[]
    && 1 in t.trips && t.trips[1].companyId == 1 && t.trips[1].status == Active && t.trips[1].driverId == Some(1)
  }

  ghost predicate OnItsTrip(t: Tables, status: OrderStatus) {
    Riding(t) && t.orders == map[1 := ORDER.(status := status)] && t.inspections == map[] && t.gateway == []
  }

  lemma Assigning(t: Tables)
    requires t == EMPTY.(orders := map[1 := ORDER], cars := map[1 := 1], trips := map[1 := TRIP])
    ensures OnItsTrip(Step(t, ASSIGNED), Dispatched)
  {
    assert !OnTrip(t, 1);
    var raw := t.(links := map[1 := Link(1, 1)]);
    assert Trips.Reassigned(ORDER, TRIP) == ORDER;
    assert t.orders[1 := ORDER] == t.orders && t.links[1 := Link(1, 1)] == raw.links;
    Trips.OneRecalculation(raw, 1);
  }

  lemma Arriving(t: Tables)
    requires OnItsTrip(t, Dispatched)
    ensures OnItsTrip(Step(t, ARRIVED), OnPickup) && OnActiveTrip(t, 1, 1)
  {
    assert t.links[1] == Link(1, 1);
  }

  lemma OrderIsOnItsTrip()
    ensures OnItsTrip(Run(TO_TRIP), Dispatched)
  {
    TripIsThere();
    RunOneMore([PLACED] + [CAR] + [OPENED], ASSIGNED);
    Assigning(Run([PLACED] + [CAR] + [OPENED]));
  }

  lemma OrderArrives()
    ensures OnItsTrip(Run(TO_PICKUP), OnPickup)
  {
    OrderIsOnItsTrip();
    RunOneMore(TO_TRIP, ARRIVED);
    Arriving(Run(TO_TRIP));
  }
}
