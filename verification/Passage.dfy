// An order from its placement to its signed delivery: a run in which every
// operation on the way goes through.
module Passage {
  import opened Prelude
  import opened Store
  import opened Payments
  import opened Lifecycle
  import opened Journey
  import Inspections
  import Orders

  const FINE := ChargeAnswer(true, true, true, true)

  const ENTERED := ForInspection(Inspect(1, Pickup, 1, 1, 1, PARTS, Some(""), true))
  const PICKUP_ASKED := ForInspection(RequestSignature(1, 1, Pickup, map[], 0))
  const PICKUP_SIGNED := ForInspection(Sign(1, Pickup, Inspections.Client, "client", FINE, 0))
  const LEFT := ForOrder(1, MoveOrder(1, Orders.ToDelivery))
  const REACHED := ForOrder(1, MoveOrder(1, Orders.AtDelivery))
  const DELIVERY_ASKED := ForInspection(RequestSignature(1, 1, Delivery, map[2 := 1], 0))
  const DELIVERY_SIGNED := ForInspection(Sign(1, Delivery, Inspections.Driver(1), "receiver", FINE, 0))

  const PICKED_UP := TO_PICKUP + [ENTERED] + [PICKUP_ASKED] + [PICKUP_SIGNED]
  const AT_DELIVERY := PICKED_UP + [LEFT] + [REACHED]
  const DELIVERED := AT_DELIVERY + [DELIVERY_ASKED] + [DELIVERY_SIGNED]

  // The one order, its inspections and what the gateway has been asked for.
  ghost predicate At(t: Tables, order: Order, rows: map<int, Inspection>, log: seq<Charge>) {
    Riding(t) && t.orders == map[1 := order] && t.inspections == rows && t.gateway == log
  }

  const PICKUP_ROW := Inspection(Pickup, 1, 1, 1, Finished, PARTS, Some(""), None)
  const SIGNED_ROW := PICKUP_ROW.(status := Signed, signedBy := Some("client"))
  const CLONED_ROW := Inspection(Delivery, 1, 1, 1, Requested, PARTS, Some(""), None)

  lemma Entering(t: Tables)
    requires At(t, ORDER.(status := OnPickup), map[], [])
    ensures At(Step(t, ENTERED), ORDER.(status := OnPickup), map[1 := PICKUP_ROW], [])
  {
    assert !Inspections.HasInspection(t, 1, Pickup);
  }

  lemma OnTheTrip(t: Tables)
    requires Riding(t)
    ensures OnActiveTrip(t, 1, 1) && Orders.OnTripOf(t, 1, 1) && Orders.OnAnyActiveTrip(t, 1)
  {
    assert t.links[1] == Link(1, 1);
  }

  lemma OneCar(t: Tables, kind: InspectionType, i: int)
    requires t.cars == map[1 := 1] && i in t.inspections
    requires forall j :: j in t.inspections ==>
      (Inspections.IsOf(t.inspections[j], 1, kind) && t.inspections[j].status == Finished <==> j == i)
    ensures Inspections.AllFinished(t, 1, kind)
  {
    forall j
      ensures j in Inspections.FinishedOf(t, 1, kind) <==> j == i
    {
    }
    forall c
      ensures c in Inspections.CarsOf(t, 1) <==> c == 1
    {
    }
    assert Inspections.FinishedOf(t, 1, kind) == {i} && Inspections.CarsOf(t, 1) == {1};
  }

  lemma AskingAtPickup(t: Tables)
    requires At(t, ORDER.(status := OnPickup), map[1 := PICKUP_ROW], [])
    ensures At(Step(t, PICKUP_ASKED), ORDER.(status := SignatureRequested, preStatus := Some(OnPickup)),
      map[1 := PICKUP_ROW.(status := Requested)], [])
  {
    OnTheTrip(t);
    OneCar(t, Pickup, 1);
  }

  lemma SigningAtPickup(t: Tables)
    requires At(t, ORDER.(status := SignatureRequested, preStatus := Some(OnPickup)),
      map[1 := PICKUP_ROW.(status := Requested)], [])
    ensures At(Step(t, PICKUP_SIGNED), ORDER.(status := PickedUp, payment := PickupPaid), map[1 := SIGNED_ROW],
      [Charge(1, CarPickup, true, true)])
  {
  }

  lemma Leaving(t: Tables, log: seq<Charge>)
    requires At(t, ORDER.(status := PickedUp, payment := PickupPaid), map[1 := SIGNED_ROW], log)
    ensures At(Step(t, LEFT), ORDER.(status := OnWayToDelivery, payment := PickupPaid), map[1 := SIGNED_ROW], log)
  {
    OnTheTrip(t);
  }

  lemma Reaching(t: Tables, log: seq<Charge>)
    requires At(t, ORDER.(status := OnWayToDelivery, payment := PickupPaid), map[1 := SIGNED_ROW], log)
    ensures At(Step(t, REACHED), ORDER.(status := OnDelivery, payment := PickupPaid), map[1 := SIGNED_ROW], log)
  {
    OnTheTrip(t);
  }

  lemma Cloning(t: Tables)
    requires t.inspections == map[1 := SIGNED_ROW] && t.cars == map[1 := 1]
    ensures Inspections.CloneWorks(t, 1, map[2 := 1])
    ensures var tx := Inspections.Cloned(t, 1, map[2 := 1]);
      && tx == t.(inspections := map[1 := SIGNED_ROW, 2 := CLONED_ROW.(status := Finished)])
      && Inspections.AllFinished(tx, 1, Delivery)
  {
    assert !Inspections.HasDelivery(t, 1);
    assert Inspections.HasClone(map[2 := 1], 1) by {
      assert map[2 := 1][2] == 1;
    }
    OneCar(Inspections.Cloned(t, 1, map[2 := 1]), Delivery, 2);
  }

  // What asking for the delivery signature makes of the tables.
  function AfterAsking(t: Tables): Tables
    requires 1 in t.orders
  {
    t.(orders := t.orders[1 := t.orders[1].(status := SignatureRequested, preStatus := Some(t.orders[1].status))],
      inspections := map[1 := SIGNED_ROW, 2 := CLONED_ROW])
  }

  lemma AskingAtDelivery(t: Tables, log: seq<Charge>)
    requires At(t, ORDER.(status := OnDelivery, payment := PickupPaid), map[1 := SIGNED_ROW], log)
    ensures At(Step(t, DELIVERY_ASKED),
      ORDER.(status := SignatureRequested, preStatus := Some(OnDelivery), payment := PickupPaid),
      map[1 := SIGNED_ROW, 2 := CLONED_ROW], log)
  {
    OnTheTrip(t);
    AskedStep(t);
  }

  lemma AskedStep(t: Tables)
    requires Inspections.MayRequest(t, 1, 1) && t.inspections == map[1 := SIGNED_ROW] && t.cars == map[1 := 1]
    ensures Step(t, DELIVERY_ASKED) == AfterAsking(t)
  {
    Cloning(t);
    Marking(Inspections.Cloned(t, 1, map[2 := 1]));
    Asked(t, 1, 1, map[2 := 1], map[1 := SIGNED_ROW, 2 := CLONED_ROW]);
  }

  // A delivery request that goes through, given the rows that it ends with.
  lemma Asked(t: Tables, orderId: int, driverId: int, origin: Inspections.Origins, rows: map<int, Inspection>)
    requires Inspections.MayRequest(t, orderId, driverId) && Inspections.CloneWorks(t, orderId, origin)
    requires var tx := Inspections.Cloned(t, orderId, origin);
      Inspections.AllFinished(tx, orderId, Delivery) && Inspections.Marked(tx, orderId, Delivery, Requested) == rows
    ensures Step(t, ForInspection(RequestSignature(orderId, driverId, Delivery, origin, 0))) == t.(
      orders := t.orders[orderId :=
        t.orders[orderId].(status := SignatureRequested, preStatus := Some(t.orders[orderId].status))],
      inspections := rows)
  {
  }

  lemma Marking(t: Tables)
    requires t.inspections == map[1 := SIGNED_ROW, 2 := CLONED_ROW.(status := Finished)]
    ensures Inspections.Marked(t, 1, Delivery, Requested) == map[1 := SIGNED_ROW, 2 := CLONED_ROW]
  {
  }

  lemma SigningAtDelivery(t: Tables, log: seq<Charge>)
    requires At(t, ORDER.(status := SignatureRequested, preStatus := Some(OnDelivery), payment := PickupPaid),
      map[1 := SIGNED_ROW, 2 := CLONED_ROW], log)
    ensures At(Step(t, DELIVERY_SIGNED), ORDER.(status := Delivered, payment := PickupPaid),
      map[1 := SIGNED_ROW, 2 := CLONED_ROW.(status := Signed, signedBy := Some("receiver"))], log)
  {
    OnTheTrip(t);
  }

  lemma OrderIsPickedUp()
    ensures At(Run(PICKED_UP), ORDER.(status := PickedUp, payment := PickupPaid), map[1 := SIGNED_ROW],
      [Charge(1, CarPickup, true, true)])
  {
    OrderArrives();
    RunOneMore(TO_PICKUP, ENTERED);
    Entering(Run(TO_PICKUP));
    RunOneMore(TO_PICKUP + [ENTERED], PICKUP_ASKED);
    AskingAtPickup(Run(TO_PICKUP + [ENTERED]));
    RunOneMore(TO_PICKUP + [ENTERED] + [PICKUP_ASKED], PICKUP_SIGNED);
    SigningAtPickup(Run(TO_PICKUP + [ENTERED] + [PICKUP_ASKED]));
  }

  // Placed, put on its trip, picked up, asked for and signed at both ends, the order
  // is delivered after twelve events: each of them goes through, the client pays
  // once, and the car has one signed inspection of each type.
  lemma OrderIsDelivered()
    ensures At(Run(DELIVERED), ORDER.(status := Delivered, payment := PickupPaid),
      map[1 := SIGNED_ROW, 2 := CLONED_ROW.(status := Signed, signedBy := Some("receiver"))],
      [Charge(1, CarPickup, true, true)])
  {
    var log := [Charge(1, CarPickup, true, true)];
    OrderIsPickedUp();
    RunOneMore(PICKED_UP, LEFT);
    Leaving(Run(PICKED_UP), log);
    RunOneMore(PICKED_UP + [LEFT], REACHED);
    Reaching(Run(PICKED_UP + [LEFT]), log);
    RunOneMore(AT_DELIVERY, DELIVERY_ASKED);
    AskingAtDelivery(Run(AT_DELIVERY), log);
    RunOneMore(AT_DELIVERY + [DELIVERY_ASKED], DELIVERY_SIGNED);
    SigningAtDelivery(Run(AT_DELIVERY + [DELIVERY_ASKED]), log);
  }
}
