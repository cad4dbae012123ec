// From the pickup signature request to the delivery signature request of an
// order, with anything else happening in between.
module PickupRuns {
  import opened Prelude
  import opened Store
  import opened Payments
  import opened Inspections
  import opened InspectionProofs
  import opened InspectionRuns
  import opened Lifecycle
  import Orders

  // The inspection has left the state in which it can be edited, or is signed.
  predicate Stands(row: Inspection, signed: bool) {
    if signed then row.status == Signed else row.status != Started
  }

  // Every car of the order has a pickup inspection, and all of them stand.
  ghost predicate PickupsStand(t: Tables, orderId: int, signed: bool) {
    && (forall c :: c in CarsOf(t, orderId) ==> Covered(t, orderId, Pickup, c))
    && (forall i :: i in t.inspections && IsOf(t.inspections[i], orderId, Pickup) ==> Stands(t.inspections[i], signed))
  }

  // An event that neither adds a car to the order nor declines it.
  predicate Spares(t: Tables, e: Event, orderId: int) {
    match e
    case ForInspection(AddCar(carId, id)) => id != orderId || carId in t.cars
    case ForOrder(id, Decline(_, _)) => id != orderId
    case _ => true
  }

  ghost predicate KeepsPickups(t: Tables, after: Tables, orderId: int, signed: bool) {
    && (forall c :: c in CarsOf(after, orderId) ==> c in CarsOf(t, orderId))
    && (forall i :: i in t.inspections && IsOf(t.inspections[i], orderId, Pickup) ==>
      i in after.inspections && SameSubject(t.inspections[i], after.inspections[i]))
    && (forall i :: i in after.inspections && IsOf(after.inspections[i], orderId, Pickup) ==>
      && i in t.inspections && IsOf(t.inspections[i], orderId, Pickup)
      && (Stands(t.inspections[i], signed) ==> Stands(after.inspections[i], signed)))
  }

  lemma KeptPickupsStand(t: Tables, after: Tables, orderId: int, signed: bool)
    requires PickupsStand(t, orderId, signed) && KeepsPickups(t, after, orderId, signed)
    ensures PickupsStand(after, orderId, signed)
  {
    forall c | c in CarsOf(after, orderId)
      ensures Covered(after, orderId, Pickup, c)
    {
      assert Covered(t, orderId, Pickup, c);
      var i :| i in t.inspections && IsOf(t.inspections[i], orderId, Pickup) && t.inspections[i].carId == c;
      assert i in after.inspections && SameSubject(t.inspections[i], after.inspections[i]);
    }
  }

  lemma SameRowsStand(t: Tables, after: Tables, orderId: int, signed: bool)
    requires after.inspections == t.inspections && after.cars == t.cars
    ensures KeepsPickups(t, after, orderId, signed)
  {
  }

  lemma CoveredIsInspected(t: Tables, orderId: int, signed: bool, carId: int)
    requires PickupsStand(t, orderId, signed) && carId in CarsOf(t, orderId)
    ensures HasInspection(t, carId, Pickup)
    ensures forall id :: id in t.inspections && t.inspections[id].status == Started ==> Taken(t, id, carId, Pickup)
  {
    assert Covered(t, orderId, Pickup, carId);
    var i :| i in t.inspections && IsOf(t.inspections[i], orderId, Pickup) && t.inspections[i].carId == carId;
    assert Stands(t.inspections[i], signed);
  }

  // A new row cannot be a further pickup inspection of one of the order's cars.
  lemma InspectKeepsPickups(t: Tables, e: InspectionEvent, orderId: int, signed: bool)
    requires e.Inspect? && (TurnedDown(t, e) || Honest(t, e)) && PickupsStand(t, orderId, signed)
    ensures KeepsPickups(t, InspectionStep(t, e), orderId, signed)
  {
    if e.car in CarsOf(t, orderId) {
      CoveredIsInspected(t, orderId, signed, e.car);
    }
  }

  // Nor can an edited one, and those that stand are not edited.
  lemma EditKeepsPickups(t: Tables, e: InspectionEvent, orderId: int, signed: bool)
    requires e.Edit? && (TurnedDown(t, e) || Honest(t, e)) && PickupsStand(t, orderId, signed)
    ensures KeepsPickups(t, InspectionStep(t, e), orderId, signed)
  {
    var after := InspectionStep(t, e);
    if after == t {
      SameRowsStand(t, after, orderId, signed);
    } else {
      EditIsElsewhere(t, e, orderId, signed);
      OtherRowKeepsPickups(t, e.edited, after.inspections[e.edited], orderId, signed);
    }
  }

  lemma EditIsElsewhere(t: Tables, e: InspectionEvent, orderId: int, signed: bool)
    requires e.Edit? && (TurnedDown(t, e) || Honest(t, e)) && PickupsStand(t, orderId, signed)
    requires InspectionStep(t, e) != t
    ensures var after := InspectionStep(t, e);
      && e.edited in t.inspections && e.edited in after.inspections
      && after == t.(inspections := t.inspections[e.edited := after.inspections[e.edited]])
      && !IsOf(t.inspections[e.edited], orderId, Pickup) && !IsOf(after.inspections[e.edited], orderId, Pickup)
  {
    assert t.inspections[e.edited].status == Started;
    assert !IsOf(t.inspections[e.edited], orderId, Pickup);
    if e.newCar in CarsOf(t, orderId) {
      CoveredIsInspected(t, orderId, signed, e.newCar);
    }
  }

  lemma OtherRowKeepsPickups(t: Tables, id: int, row: Inspection, orderId: int, signed: bool)
    requires id in t.inspections && !IsOf(t.inspections[id], orderId, Pickup) && !IsOf(row, orderId, Pickup)
    ensures KeepsPickups(t, t.(inspections := t.inspections[id := row]), orderId, signed)
  {
  }

  lemma MarkKeepsPickups(t: Tables, orderId: int, kind: InspectionType, o: int, signed: bool)
    requires orderId == o && kind == Pickup && signed ==>
      forall i :: i in t.inspections ==> !IsOf(t.inspections[i], o, Pickup)
    ensures KeepsPickups(t, t.(inspections := Marked(t, orderId, kind, Requested)), o, signed)
  {
  }

  lemma CloneKeepsPickups(t: Tables, orderId: int, origin: Origins, o: int, signed: bool)
    requires CloneWorks(t, orderId, origin)
    ensures KeepsPickups(t, Cloned(t, orderId, origin), o, signed)
  {
    var after := Cloned(t, orderId, origin);
    if !HasDelivery(t, orderId) {
      forall i
        ensures i in t.inspections ==> i in after.inspections && after.inspections[i] == t.inspections[i]
        ensures i in after.inspections && IsOf(after.inspections[i], o, Pickup) ==> i in t.inspections
      {
        CloningAdds(t, orderId, origin, i);
      }
    }
  }

  lemma KeptTwice(t: Tables, between: Tables, after: Tables, o: int, signed: bool)
    requires KeepsPickups(t, between, o, signed) && KeepsPickups(between, after, o, signed)
    ensures KeepsPickups(t, after, o, signed)
  {
  }

  lemma NoneFinished(t: Tables, o: int)
    requires PickupsStand(t, o, true)
    ensures FinishedOf(t, o, Pickup) == {}
  {
    forall i
      ensures i !in FinishedOf(t, o, Pickup)
    {
      assert i in t.inspections && IsOf(t.inspections[i], o, Pickup) ==> Stands(t.inspections[i], true);
    }
  }

  // Asking once more for signed pickups finds none finished, so it fails unless
  // the order has no cars, and then it has no inspections of them either.
  lemma SignedPickupsAreNotRequested(t: Tables, o: int, driverId: int, origin: Origins, fault: int)
    requires OwnCars(t) && PickupsStand(t, o, true)
    requires SignatureRequestedTables(t, o, driverId, Pickup, origin, fault).1
    ensures forall i :: i in t.inspections ==> !IsOf(t.inspections[i], o, Pickup)
  {
    NoneFinished(t, o);
    assert CarsOf(t, o) == {};
    forall i | i in t.inspections
      ensures !IsOf(t.inspections[i], o, Pickup)
    {
      assert t.inspections[i].carId !in CarsOf(t, o);
    }
  }

  lemma RequestKeepsPickups(t: Tables, orderId: int, driverId: int, kind: InspectionType, origin: Origins, fault: int,
    o: int, signed: bool)
    requires OwnCars(t) && PickupsStand(t, o, signed)
    ensures KeepsPickups(t, SignatureRequestedTables(t, orderId, driverId, kind, origin, fault).0, o, signed)
  {
    var after := SignatureRequestedTables(t, orderId, driverId, kind, origin, fault);
    if after.1 {
      var tx := if kind == Delivery then Cloned(t, orderId, origin) else t;
      if kind == Delivery {
        CloneKeepsPickups(t, orderId, origin, o, signed);
      } else {
        SameRowsStand(t, t, o, signed);
        if orderId == o && signed {
          SignedPickupsAreNotRequested(t, o, driverId, origin, fault);
        }
      }
      MarkKeepsPickups(tx, orderId, kind, o, signed);
      KeptTwice(t, tx, tx.(inspections := Marked(tx, orderId, kind, Requested)), o, signed);
    }
  }

  lemma CreationKeepsPickups(t: Tables, orderId: int, accountId: int, origin: Origins, fault: int, o: int, signed: bool)
    ensures KeepsPickups(t, DeliveryCreated(t, orderId, accountId, origin, fault).0, o, signed)
  {
    var after := DeliveryCreated(t, orderId, accountId, origin, fault).0;
    if after.inspections != t.inspections {
      var tx := if OnTrip(t, orderId) then Cloned(t, orderId, origin) else t;
      if OnTrip(t, orderId) {
        CloneKeepsPickups(t, orderId, origin, o, signed);
      } else {
        SameRowsStand(t, t, o, signed);
      }
      MarkKeepsPickups(tx, orderId, Delivery, o, signed);
      KeptTwice(t, tx, tx.(inspections := Marked(tx, orderId, Delivery, Requested)), o, signed);
    }
  }

  lemma SignatureKeepsPickups(t: Tables, orderId: int, kind: InspectionType, name: string, o: int, signed: bool)
    requires orderId in t.orders
    ensures KeepsPickups(t, Signature(t, orderId, kind, name), o, signed)
  {
  }

  lemma SignKeepsPickups(t: Tables, orderId: int, kind: InspectionType, signer: Signer, name: string, a: ChargeAnswer,
    fault: int, o: int, signed: bool)
    ensures KeepsPickups(t, SignedTables(t, orderId, kind, signer, name, a, fault).0, o, signed)
  {
    if MaySign(t, orderId, signer) {
      var c := AfterCharge(t, orderId, kind, a);
      SameRowsStand(t, c, o, signed);
      SignatureKeepsPickups(c, orderId, kind, name, o, signed);
      KeptTwice(t, c, Signature(c, orderId, kind, name), o, signed);
    } else {
      SameRowsStand(t, t, o, signed);
    }
  }

  // One row rewritten with the same subject, and no less far than before.
  lemma RewrittenRowKeepsPickups(t: Tables, after: Tables, id: int, row: Inspection, o: int, signed: bool)
    requires id in t.inspections && SameSubject(t.inspections[id], row)
    requires Stands(t.inspections[id], signed) ==> Stands(row, signed)
    requires after.inspections == t.inspections[id := row] && after.cars == t.cars
    ensures KeepsPickups(t, after, o, signed)
  {
  }

  lemma ViewKeepsPickups(t: Tables, orderId: int, id: int, o: int, signed: bool)
    ensures KeepsPickups(t, ViewedTables(t, orderId, id), o, signed)
  {
    var after := ViewedTables(t, orderId, id);
    if after == t {
      SameRowsStand(t, after, o, signed);
    } else {
      RewrittenRowKeepsPickups(t, after, id, t.inspections[id].(status := Viewed), o, signed);
    }
  }

  lemma DamageKeepsPickups(t: Tables, id: int, damages: seq<string>, notes: Option<string>, o: int, signed: bool)
    ensures KeepsPickups(t, Damaged(t, id, damages, notes), o, signed)
  {
    if Damageable(t, id) {
      DamageRewrites(t, id, damages, notes);
      SameSubjectDamaged(t.inspections[id], damages, notes);
      var row := DamagedRow(t.inspections[id], damages, notes);
      RewrittenRowKeepsPickups(t, Damaged(t, id, damages, notes), id, row, o, signed);
    } else {
      SameRowsStand(t, t, o, signed);
    }
  }

  lemma DamageRewrites(t: Tables, id: int, damages: seq<string>, notes: Option<string>)
    requires Damageable(t, id)
    ensures Damaged(t, id, damages, notes).cars == t.cars
    ensures Damaged(t, id, damages, notes).inspections
      == t.inspections[id := DamagedRow(t.inspections[id], damages, notes)]
  {
  }

  lemma SameSubjectDamaged(row: Inspection, damages: seq<string>, notes: Option<string>)
    ensures SameSubject(row, DamagedRow(row, damages, notes)) && DamagedRow(row, damages, notes).status == row.status
  {
  }

  lemma InspectionEventKeepsPickups(t: Tables, e: InspectionEvent, o: int, signed: bool)
    requires OwnCars(t) && PickupsStand(t, o, signed) && (TurnedDown(t, e) || Honest(t, e))
    requires Spares(t, ForInspection(e), o)
    ensures KeepsPickups(t, InspectionStep(t, e), o, signed)
  {
    match e
    case AddCar(carId, orderId) =>
    case Inspect(_, _, _, _, _, _, _, _) => InspectKeepsPickups(t, e, o, signed);
    case Edit(_, _, _, _, _, _, _, _) => EditKeepsPickups(t, e, o, signed);
    case View(orderId, id) => ViewKeepsPickups(t, orderId, id, o, signed);
    case Damage(id, damages, notes) => DamageKeepsPickups(t, id, damages, notes, o, signed);
    case RequestSignature(orderId, driverId, kind, origin, fault) =>
      RequestKeepsPickups(t, orderId, driverId, kind, origin, fault, o, signed);
    case Sign(orderId, kind, signer, name, a, fault) =>
      SignKeepsPickups(t, orderId, kind, signer, name, a, fault, o, signed);
    case CreateDelivery(orderId, accountId, origin, fault) =>
      CreationKeepsPickups(t, orderId, accountId, origin, fault, o, signed);
  }

  lemma DeclineKeepsPickups(t: Tables, orderId: int, driverId: int, fault: int, o: int, signed: bool)
    requires orderId != o
    ensures KeepsPickups(t, Orders.DeclinedTables(t, orderId, driverId, fault).0, o, signed)
  {
  }

  lemma EventKeepsPickups(t: Tables, e: Event, o: int, signed: bool)
    requires OwnCars(t) && PickupsStand(t, o, signed) && HonestStep(t, e) && Spares(t, e, o)
    ensures KeepsPickups(t, Step(t, e), o, signed)
  {
    match e
    case ForInspection(inspection) => InspectionEventKeepsPickups(t, inspection, o, signed);
    case ForOrder(orderId, Decline(driverId, fault)) => DeclineKeepsPickups(t, orderId, driverId, fault, o, signed);
    case ForOrder(orderId, order) =>
      OrderEventsLeaveRows(t, orderId, order);
      SameRowsStand(t, Step(t, e), o, signed);
    case ForDispatch(id, dispatch) =>
      DispatchEventsKeepRows(t, id, dispatch);
      SameRowsStand(t, Step(t, e), o, signed);
    case ForTrip(trip) =>
      TripEventsAreQuiet(t, trip);
      SameRowsStand(t, Step(t, e), o, signed);
    case RetryCharge(_, _, _, _) => SameRowsStand(t, Step(t, e), o, signed);
  }

  // A pickup request of the order, or a pickup signing of it, that goes through.
  predicate AsksPickup(t: Tables, e: Event, o: int) {
    && e.ForInspection? && e.inspection.RequestSignature?
    && e.inspection.requested == o && e.inspection.requestedKind == Pickup
    && SignatureRequestedTables(t, o, e.inspection.requester, Pickup, e.inspection.origin, e.inspection.requestFault).1
  }

  predicate SignsPickup(t: Tables, e: Event, o: int) {
    && e.ForInspection? && e.inspection.Sign?
    && e.inspection.signed == o && e.inspection.signedKind == Pickup
    && SignedTables(t, o, Pickup, e.inspection.signer, e.inspection.name, e.inspection.answer, e.inspection.signFault).1
  }

  // A pickup request went through, and since then no event touched the order's
  // cars or declined it; any other event may have happened, to it and to others.
  ghost predicate RequestStands(events: seq<Event>, o: int) {
    events != [] && (
      var t, e := Run(events[..|events| - 1]), events[|events| - 1];
      AsksPickup(t, e, o) || (RequestStands(events[..|events| - 1], o) && Spares(t, e, o)))
  }

  // A pickup signing went through while such a request stood, and likewise since.
  ghost predicate SigningStands(events: seq<Event>, o: int) {
    events != [] && (
      var t, e := Run(events[..|events| - 1]), events[|events| - 1];
      (SignsPickup(t, e, o) && RequestStands(events[..|events| - 1], o))
      || (SigningStands(events[..|events| - 1], o) && Spares(t, e, o)))
  }

  lemma AskedPickupsStand(t: Tables, e: Event, o: int)
    requires Unique(t) && OwnCars(t) && AsksPickup(t, e, o)
    ensures PickupsStand(Step(t, e), o, false)
  {
    var r := e.inspection;
    forall c | c in CarsOf(Step(t, e), o)
      ensures Covered(Step(t, e), o, Pickup, c)
    {
      RequestCovers(t, o, r.requester, Pickup, r.origin, r.requestFault, c);
    }
  }

  lemma SignedPickupsStand(t: Tables, e: Event, o: int)
    requires PickupsStand(t, o, false) && SignsPickup(t, e, o)
    ensures PickupsStand(Step(t, e), o, true)
  {
    var s := e.inspection;
    SigningSignsAll(t, o, Pickup, s.signer, s.name, s.answer, s.signFault);
  }

  lemma {:induction false} RequestedPickupsStand(events: seq<Event>, o: int)
    requires HonestRun(events) && RequestStands(events, o)
    ensures PickupsStand(Run(events), o, false)
  {
    var front, e := events[..|events| - 1], events[|events| - 1];
    EveryRunHasUniqueInspections(front);
    if AsksPickup(Run(front), e, o) {
      AskedPickupsStand(Run(front), e, o);
    } else {
      RequestedPickupsStand(front, o);
      EventKeepsPickups(Run(front), e, o, false);
      KeptPickupsStand(Run(front), Step(Run(front), e), o, false);
    }
  }

  // So after a request and a signing of the pickup, and whatever else happens,
  // every car of the order keeps its one signed pickup inspection.
  lemma {:induction false} SignedPickupsStay(events: seq<Event>, o: int)
    requires HonestRun(events) && SigningStands(events, o)
    ensures AllCars(Run(events), o, Pickup, Signed)
  {
    var front, e := events[..|events| - 1], events[|events| - 1];
    EveryRunHasUniqueInspections(front);
    if SignsPickup(Run(front), e, o) && RequestStands(front, o) {
      RequestedPickupsStand(front, o);
      SignedPickupsStand(Run(front), e, o);
    } else {
      SignedPickupsStay(front, o);
      EventKeepsPickups(Run(front), e, o, true);
      KeptPickupsStand(Run(front), Step(Run(front), e), o, true);
    }
  }

  // And then, as long as the order has no delivery inspection, cloning gives
  // every car exactly one finished delivery inspection, leaves the pickup ones
  // signed, and the delivery request goes through for the driver who may ask.
  lemma PickupLeadsToDelivery(events: seq<Event>, o: int, driverId: int, origin: Origins, fault: int)
    requires HonestRun(events) && SigningStands(events, o)
    requires !HasDelivery(Run(events), o) && Numbers(Run(events), o, origin)
    ensures var t := Run(events);
      && CloneWorks(t, o, origin) && Unique(Cloned(t, o, origin))
      && AllCars(Cloned(t, o, origin), o, Delivery, Finished) && AllCars(Cloned(t, o, origin), o, Pickup, Signed)
      && (SignatureRequestedTables(t, o, driverId, Delivery, origin, fault).1 <==>
        && o in t.orders && (t.orders[o].status == OnPickup || t.orders[o].status == OnDelivery)
        && (exists l ::
              && l in t.links && t.links[l].orderId == o && t.links[l].tripId in t.trips
              && t.trips[t.links[l].tripId].status == Active && t.trips[t.links[l].tripId].driverId == Some(driverId))
        && !(ORDER_WRITE <= fault <= COMMIT))
  {
    var t := Run(events);
    EveryRunHasUniqueInspections(events);
    SignedPickupsStay(events, o);
    CloningCompletes(t, o, origin);
    CloningKeepsUnique(t, o, origin);
    DeliveryRequestExactlyWhen(t, o, driverId, origin, fault);
  }
}
