// Inspections over whole runs: one for each car and type, and what a signature
// request that goes through says about the order's cars.
module InspectionRuns {
  import opened Prelude
  import opened Store
  import opened Payments
  import opened Inspections
  import opened InspectionProofs
  import opened Lifecycle
  import opened Journey

  // No row comes, and none changes its car, type or order.
  ghost predicate KeepsRows(t: Tables, after: Tables) {
    && after.cars == t.cars
    && forall i :: i in after.inspections ==> i in t.inspections && SameSubject(t.inspections[i], after.inspections[i])
  }

  predicate SameSubject(a: Inspection, b: Inspection) {
    a.carId == b.carId && a.kind == b.kind && a.orderId == b.orderId
  }

  // The service turns the entry down: an unknown car, a car that has an
  // inspection of the type, no trip of the driver, and for an edit also no started
  // row of the driver.
  predicate TurnedDown(t: Tables, e: InspectionEvent) {
    match e
    case Inspect(id, kind, _, carId, _, _, _, onTrip) =>
      carId !in t.cars || HasInspection(t, carId, kind) || !onTrip || id in t.inspections
    case Edit(id, driverId, kind, _, carId, _, _, onTrip) =>
      carId !in t.cars || id !in t.inspections || t.inspections[id].driverId != driverId
      || t.inspections[id].status != Started || !onTrip || Taken(t, id, carId, kind)
    case _ => false
  }

  // An inspection is entered for a car of the order it names.
  predicate Honest(t: Tables, e: InspectionEvent) {
    match e
    case Inspect(_, _, orderId, carId, _, _, _, _) => carId in t.cars ==> t.cars[carId] == orderId
    case Edit(_, _, _, orderId, carId, _, _, _) => carId in t.cars ==> t.cars[carId] == orderId
    case _ => true
  }

  // What an operation does to both properties.
  ghost predicate Preserves(t: Tables, after: Tables, honest: bool) {
    && (Unique(t) ==> Unique(after))
    && (Unique(t) && OwnCars(t) && honest ==> OwnCars(after))
  }

  lemma KeepingRowsPreserves(t: Tables, after: Tables)
    requires KeepsRows(t, after)
    ensures Preserves(t, after, true)
  {
    assert forall i :: i in after.inspections ==> SameSubject(t.inspections[i], after.inspections[i]);
  }

  lemma InspectPreserves(t: Tables, e: InspectionEvent)
    requires e.Inspect?
    ensures Preserves(t, InspectionStep(t, e), Honest(t, e))
  {
    var after := InspectionStep(t, e);
    if after != t && Unique(t) {
      forall j | j in t.inspections
        ensures !(t.inspections[j].carId == e.car && t.inspections[j].kind == e.kind)
      {
        assert !HasInspection(t, e.car, e.kind);
      }
    }
  }

  lemma EditPreserves(t: Tables, e: InspectionEvent)
    requires e.Edit?
    ensures Preserves(t, InspectionStep(t, e), Honest(t, e))
  {
    if Taken(t, e.edited, e.newCar, e.newKind) {
      KeepingRowsPreserves(t, InspectionStep(t, e));
    }
  }

  // A signature request: the clones, then the mark.
  lemma RequestPreserves(t: Tables, orderId: int, driverId: int, kind: InspectionType, origin: Origins, fault: int)
    ensures Preserves(t, SignatureRequestedTables(t, orderId, driverId, kind, origin, fault).0, true)
  {
    if SignatureRequestedTables(t, orderId, driverId, kind, origin, fault).1 && Unique(t) {
      var tx := if kind == Delivery then Cloned(t, orderId, origin) else t;
      if kind == Delivery {
        ClonePreserves(t, orderId, origin);
      }
      MarkPreserves(tx, orderId, kind);
    }
  }

  lemma MarkPreserves(t: Tables, orderId: int, kind: InspectionType)
    ensures Preserves(t, t.(inspections := Marked(t, orderId, kind, Requested)), true)
  {
    KeepingRowsPreserves(t, t.(inspections := Marked(t, orderId, kind, Requested)));
  }

  lemma ClonePreserves(t: Tables, orderId: int, origin: Origins)
    requires CloneWorks(t, orderId, origin)
    ensures Preserves(t, Cloned(t, orderId, origin), true)
  {
    if Unique(t) {
      CloningKeepsUnique(t, orderId, origin);
    }
  }

  lemma CreationPreserves(t: Tables, orderId: int, accountId: int, origin: Origins, fault: int)
    ensures Preserves(t, DeliveryCreated(t, orderId, accountId, origin, fault).0, true)
  {
    var after := DeliveryCreated(t, orderId, accountId, origin, fault).0;
    if after.inspections != t.inspections {
      var tx := if OnTrip(t, orderId) then Cloned(t, orderId, origin) else t;
      if OnTrip(t, orderId) {
        ClonePreserves(t, orderId, origin);
      }
      MarkPreserves(tx, orderId, Delivery);
    }
  }

  lemma SignPreserves(t: Tables, orderId: int, kind: InspectionType, signer: Signer, name: string, a: ChargeAnswer,
    fault: int)
    ensures Preserves(t, SignedTables(t, orderId, kind, signer, name, a, fault).0, true)
  {
    if MaySign(t, orderId, signer) {
      var c := AfterCharge(t, orderId, kind, a);
      KeepingRowsPreserves(t, c);
      SignatureKeepsRows(c, orderId, kind, name);
      KeepingRowsPreserves(c, Signature(c, orderId, kind, name));
    }
  }

  lemma SignatureKeepsRows(t: Tables, orderId: int, kind: InspectionType, name: string)
    requires orderId in t.orders
    ensures KeepsRows(t, Signature(t, orderId, kind, name))
  {
  }

  lemma ViewKeepsRows(t: Tables, orderId: int, id: int)
    ensures KeepsRows(t, ViewedTables(t, orderId, id))
  {
  }

  lemma DamageKeepsRows(t: Tables, id: int, damages: seq<string>, notes: Option<string>)
    ensures KeepsRows(t, Damaged(t, id, damages, notes))
  {
  }

  lemma InspectionStepPreserves(t: Tables, e: InspectionEvent)
    ensures Preserves(t, InspectionStep(t, e), Honest(t, e))
  {
    match e
    case AddCar(carId, orderId) =>
    case Inspect(_, _, _, _, _, _, _, _) => InspectPreserves(t, e);
    case Edit(_, _, _, _, _, _, _, _) => EditPreserves(t, e);
    case RequestSignature(orderId, driverId, kind, origin, fault) =>
      RequestPreserves(t, orderId, driverId, kind, origin, fault);
    case CreateDelivery(orderId, accountId, origin, fault) => CreationPreserves(t, orderId, accountId, origin, fault);
    case Sign(orderId, kind, signer, name, a, fault) => SignPreserves(t, orderId, kind, signer, name, a, fault);
    case View(orderId, id) =>
      ViewKeepsRows(t, orderId, id);
      KeepingRowsPreserves(t, ViewedTables(t, orderId, id));
    case Damage(id, damages, notes) =>
      DamageKeepsRows(t, id, damages, notes);
      KeepingRowsPreserves(t, Damaged(t, id, damages, notes));
  }

  lemma OtherStepsKeepRows(t: Tables, e: Event)
    requires !e.ForInspection?
    ensures KeepsRows(t, Step(t, e))
  {
    match e
    case ForOrder(orderId, order) => OrderEventsKeepRows(t, orderId, order);
    case ForDispatch(id, dispatch) => DispatchEventsKeepRows(t, id, dispatch);
    case ForTrip(trip) => TripEventsAreQuiet(t, trip);
    case RetryCharge(id, kind, billable, a) =>
  }

  lemma OrderEventsKeepRows(t: Tables, orderId: int, e: OrderEvent)
    ensures KeepsRows(t, OrderStep(t, orderId, e))
  {
    match e
    case Decline(driverId, fault) =>
    case _ => OrderEventsLeaveRows(t, orderId, e);
  }

  lemma OrderEventsLeaveRows(t: Tables, orderId: int, e: OrderEvent)
    requires !e.Decline?
    ensures OrderStep(t, orderId, e).inspections == t.inspections && OrderStep(t, orderId, e).cars == t.cars
  {
  }

  lemma DispatchEventsKeepRows(t: Tables, id: int, e: DispatchEvent)
    ensures DispatchStep(t, id, e).inspections == t.inspections && DispatchStep(t, id, e).cars == t.cars
  {
    match e
    case Accept(a, fault) =>
    case _ => RequestsAreQuiet(t, id, e);
  }

  // Entries that the service does not turn down name the car's own order.
  predicate HonestStep(t: Tables, e: Event) {
    e.ForInspection? ==> TurnedDown(t, e.inspection) || Honest(t, e.inspection)
  }

  lemma StepPreserves(t: Tables, e: Event)
    ensures Preserves(t, Step(t, e), HonestStep(t, e))
  {
    if e.ForInspection? {
      InspectionStepPreserves(t, e.inspection);
      if TurnedDown(t, e.inspection) {
        RefusalKeepsRows(t, e.inspection);
        KeepingRowsPreserves(t, Step(t, e));
      }
    } else {
      OtherStepsKeepRows(t, e);
      KeepingRowsPreserves(t, Step(t, e));
    }
  }

  lemma RefusalKeepsRows(t: Tables, e: InspectionEvent)
    requires TurnedDown(t, e)
    ensures KeepsRows(t, InspectionStep(t, e))
  {
  }

  // One event gives the order an inspection of a foreign car exactly when it is
  // an entry that names another order than the car's and is not turned down.
  lemma StepKeepsOwnCarsExactlyWhen(t: Tables, e: Event)
    requires Unique(t) && OwnCars(t)
    ensures OwnCars(Step(t, e)) <==> HonestStep(t, e)
  {
    StepPreserves(t, e);
    if !HonestStep(t, e) {
      ForeignEntryShows(t, e.inspection);
    }
  }

  lemma ForeignEntryShows(t: Tables, e: InspectionEvent)
    requires !TurnedDown(t, e) && !Honest(t, e)
    ensures !OwnCars(InspectionStep(t, e))
  {
    match e
    case Inspect(id, kind, orderId, carId, driverId, details, notes, onTrip) =>
      assert id in InspectionStep(t, e).inspections;
    case Edit(id, driverId, kind, orderId, carId, details, notes, onTrip) =>
      assert id in InspectionStep(t, e).inspections;
  }

  ghost predicate HonestRun(events: seq<Event>) {
    events == [] || (HonestRun(events[..|events| - 1]) && HonestStep(Run(events[..|events| - 1]), events[|events| - 1]))
  }

  ghost predicate OwnCarsThroughout(events: seq<Event>) {
    OwnCars(Run(events)) && (events == [] || OwnCarsThroughout(events[..|events| - 1]))
  }

  // In every run a car has at most one inspection of each type, and every
  // inspection is of a car of its own order throughout exactly when every entry
  // that was not turned down was made so.
  lemma {:induction false} EveryRunHasUniqueInspections(events: seq<Event>)
    ensures Unique(Run(events))
    ensures HonestRun(events) <==> OwnCarsThroughout(events)
  {
    if events != [] {
      EveryRunHasUniqueInspections(events[..|events| - 1]);
      StepPreserves(Run(events[..|events| - 1]), events[|events| - 1]);
      if OwnCarsThroughout(events[..|events| - 1]) {
        StepKeepsOwnCarsExactlyWhen(Run(events[..|events| - 1]), events[|events| - 1]);
      }
    }
  }

  // What the order's inspections must be for a request of the type to go through.
  ghost predicate Ready(t: Tables, orderId: int, kind: InspectionType, origin: Origins) {
    if kind == Pickup || HasDelivery(t, orderId) then AllCars(t, orderId, kind, Finished)
    else Numbers(t, orderId, origin) && AllCars(t, orderId, Pickup, Signed)
  }

  // So in such a run a request goes through exactly when the driver may ask, no
  // write fails, and every car of the order has its own finished inspection of
  // the type and the order no other of it; or, for the first delivery request,
  // every car has its own signed pickup inspection and the order no other.
  lemma RequestGoesThroughExactlyWhen(events: seq<Event>, orderId: int, driverId: int, kind: InspectionType,
    origin: Origins, fault: int)
    requires HonestRun(events)
    ensures var t := Run(events);
      SignatureRequestedTables(t, orderId, driverId, kind, origin, fault).1 <==>
        && orderId in t.orders && (t.orders[orderId].status == OnPickup || t.orders[orderId].status == OnDelivery)
        && (exists l ::
              && l in t.links && t.links[l].orderId == orderId && t.links[l].tripId in t.trips
              && t.trips[t.links[l].tripId].status == Active && t.trips[t.links[l].tripId].driverId == Some(driverId))
        && !(ORDER_WRITE <= fault <= COMMIT) && Ready(t, orderId, kind, origin)
  {
    var t := Run(events);
    EveryRunHasUniqueInspections(events);
    if kind == Pickup || HasDelivery(t, orderId) {
      CountedRequestExactlyWhen(t, orderId, driverId, kind, origin, fault);
    } else if Numbers(t, orderId, origin) {
      DeliveryRequestExactlyWhen(t, orderId, driverId, origin, fault);
    }
  }

  // ------------------------------------------------------------------------
  // Otherwise the count can be right while a car has no inspection at all: two
  // orders with a car each, and an inspection of the one's car for the other.

  const FIRST := ForOrder(10, Place(ORDER))
  const SECOND := ForOrder(20, Place(ORDER))
  const OWN_CAR := ForInspection(AddCar(1, 10))
  const FOREIGN_CAR := ForInspection(AddCar(2, 20))
  const FOREIGN_ENTRY := ForInspection(Inspect(5, Pickup, 10, 2, 7, PARTS, Some(""), true))

  lemma TwoOrders()
    ensures Run([FIRST] + [SECOND]) == EMPTY.(orders := map[10 := ORDER, 20 := ORDER])
  {
    assert [] + [FIRST] == [FIRST];
    RunOneMore([], FIRST);
    RunOneMore([FIRST], SECOND);
  }

  lemma TwoCars()
    ensures Run([FIRST] + [SECOND] + [OWN_CAR] + [FOREIGN_CAR])
      == EMPTY.(orders := map[10 := ORDER, 20 := ORDER], cars := map[1 := 10, 2 := 20])
  {
    TwoOrders();
    RunOneMore([FIRST] + [SECOND], OWN_CAR);
    RunOneMore([FIRST] + [SECOND] + [OWN_CAR], FOREIGN_CAR);
  }

  lemma ForeignCarFoolsTheCount()
    ensures var t := Run([FIRST] + [SECOND] + [OWN_CAR] + [FOREIGN_CAR] + [FOREIGN_ENTRY]);
      Unique(t) && AllFinished(t, 10, Pickup) && !AllCars(t, 10, Pickup, Finished)
  {
    TwoCars();
    var before := Run([FIRST] + [SECOND] + [OWN_CAR] + [FOREIGN_CAR]);
    assert !HasInspection(before, 2, Pickup);
    RunOneMore([FIRST] + [SECOND] + [OWN_CAR] + [FOREIGN_CAR], FOREIGN_ENTRY);
    var t := Run([FIRST] + [SECOND] + [OWN_CAR] + [FOREIGN_CAR] + [FOREIGN_ENTRY]);
    assert t == before.(inspections := map[5 := Inspection(Pickup, 10, 2, 7, Finished, PARTS, Some(""), None)]);
    CountIsFooled(t);
  }

  lemma CountIsFooled(t: Tables)
    requires t.cars == map[1 := 10, 2 := 20]
    requires t.inspections == map[5 := Inspection(Pickup, 10, 2, 7, Finished, PARTS, Some(""), None)]
    ensures Unique(t) && AllFinished(t, 10, Pickup) && !AllCars(t, 10, Pickup, Finished)
  {
    assert CarsOf(t, 10) == {1} && FinishedOf(t, 10, Pickup) == {5};
    assert 1 in CarsOf(t, 10) && !Covered(t, 10, Pickup, 1);
  }
}
