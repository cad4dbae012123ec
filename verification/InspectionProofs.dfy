// What the count comparison of the signature request proves, and what cloning
// the signed pickup inspections gives.
module InspectionProofs {
  import opened Prelude
  import opened Store
  import opened Payments
  import opened Inspections

  // Every car of the order has an inspection of that type with that status, and
  // no inspection of that type of the order has another one.
  ghost predicate AllCars(t: Tables, orderId: int, kind: InspectionType, status: InspectionStatus) {
    && (forall c :: c in CarsOf(t, orderId) ==> Covered(t, orderId, kind, c))
    && (forall i :: i in t.inspections && IsOf(t.inspections[i], orderId, kind) ==> t.inspections[i].status == status)
  }

  ghost predicate Covered(t: Tables, orderId: int, kind: InspectionType, carId: int) {
    exists i :: i in t.inspections && IsOf(t.inspections[i], orderId, kind) && t.inspections[i].carId == carId
  }

  // ------------------------------------------------------------------------
  // Pigeonhole: inspections of one type of different cars.

  function CarIds(t: Tables, ids: set<int>): set<int>
    requires ids <= t.inspections.Keys
  {
    set i | i in ids :: t.inspections[i].carId
  }

  lemma {:induction false} CarIdsSize(t: Tables, ids: set<int>)
    requires ids <= t.inspections.Keys
    requires forall i, j :: i in ids && j in ids && i != j ==> t.inspections[i].carId != t.inspections[j].carId
    ensures |CarIds(t, ids)| == |ids|
  {
    if ids != {} {
      var i := Member(ids);
      var rest := ids - {i};
      CarIdsSize(t, rest);
      assert CarIds(t, ids) == CarIds(t, rest) + {t.inspections[i].carId};
      assert t.inspections[i].carId !in CarIds(t, rest);
    }
  }

  lemma FinishedCars(t: Tables, orderId: int, kind: InspectionType)
    requires Unique(t) && OwnCars(t)
    ensures |CarIds(t, FinishedOf(t, orderId, kind))| == |FinishedOf(t, orderId, kind)|
    ensures CarIds(t, FinishedOf(t, orderId, kind)) <= CarsOf(t, orderId)
  {
    CarIdsSize(t, FinishedOf(t, orderId, kind));
  }

  // The count comparison holds exactly when every car of the order has its own
  // finished inspection of that type and the order has no other of that type.
  lemma CountComparisonIsExact(t: Tables, orderId: int, kind: InspectionType)
    requires Unique(t) && OwnCars(t)
    ensures AllFinished(t, orderId, kind) <==> AllCars(t, orderId, kind, Finished)
  {
    var ids, cars := FinishedOf(t, orderId, kind), CarsOf(t, orderId);
    FinishedCars(t, orderId, kind);
    if AllFinished(t, orderId, kind) {
      SubsetOfSameSize(CarIds(t, ids), cars);
      forall c | c in cars
        ensures Covered(t, orderId, kind, c)
      {
        var i :| i in ids && t.inspections[i].carId == c;
      }
      forall i | i in t.inspections && IsOf(t.inspections[i], orderId, kind)
        ensures t.inspections[i].status == Finished
      {
        assert t.inspections[i].carId in CarIds(t, ids);
      }
    }
    if AllCars(t, orderId, kind, Finished) {
      forall c | c in cars
        ensures c in CarIds(t, ids)
      {
        var i :| i in t.inspections && IsOf(t.inspections[i], orderId, kind) && t.inspections[i].carId == c;
        assert i in ids;
      }
      assert CarIds(t, ids) == cars;
    }
  }

  // ------------------------------------------------------------------------
  // From a pickup signature request to the delivery signature request.

  lemma MarkedKeepsAll(t: Tables, orderId: int, kind: InspectionType, status: InspectionStatus)
    ensures var after := t.(inspections := Marked(t, orderId, kind, status));
      && (Unique(t) ==> Unique(after)) && (OwnCars(t) ==> OwnCars(after))
      && (forall c :: Covered(t, orderId, kind, c) ==> Covered(after, orderId, kind, c))
  {
    var after := t.(inspections := Marked(t, orderId, kind, status));
    forall c | Covered(t, orderId, kind, c)
      ensures Covered(after, orderId, kind, c)
    {
      var i :| i in t.inspections && IsOf(t.inspections[i], orderId, kind) && t.inspections[i].carId == c;
      assert i in after.inspections;
    }
  }

  // A pickup request that goes through leaves every car with an inspection.
  lemma RequestCovers(t: Tables, orderId: int, driverId: int, kind: InspectionType, origin: Origins, fault: int, c: int)
    requires Unique(t) && OwnCars(t) && kind == Pickup
    requires SignatureRequestedTables(t, orderId, driverId, kind, origin, fault).1
    ensures var after := SignatureRequestedTables(t, orderId, driverId, kind, origin, fault).0;
      Unique(after) && OwnCars(after) && (c in CarsOf(after, orderId) ==> Covered(after, orderId, kind, c))
  {
    CountComparisonIsExact(t, orderId, kind);
    MarkedKeepsAll(t, orderId, kind, Requested);
  }

  // What a request that goes through leaves behind.
  lemma RequestMarksAll(t: Tables, orderId: int, driverId: int, kind: InspectionType, origin: Origins, fault: int,
    i: int)
    requires SignatureRequestedTables(t, orderId, driverId, kind, origin, fault).1
    ensures var after := SignatureRequestedTables(t, orderId, driverId, kind, origin, fault).0;
      && orderId in t.orders && orderId in after.orders
      && after.orders == t.orders[orderId := after.orders[orderId]]
      && after.orders[orderId].status == SignatureRequested
      && after.orders[orderId].preStatus == Some(t.orders[orderId].status)
      && (i in t.inspections ==>
        && i in after.inspections
        && after.inspections[i] == t.inspections[i].(status := after.inspections[i].status)
        && (IsOf(t.inspections[i], orderId, kind) ==> after.inspections[i].status == Requested)
        && (!IsOf(t.inspections[i], orderId, kind) ==> after.inspections[i] == t.inspections[i]))
  {
    if kind == Delivery && !HasDelivery(t, orderId) {
      CloningAdds(t, orderId, origin, i);
    }
  }

  // What a signing that goes through leaves behind: a due pickup charge is paid,
  // the order moves on, and exactly the inspections of the type are signed.
  lemma SigningWrites(t: Tables, orderId: int, kind: InspectionType, signer: Signer, name: string, a: ChargeAnswer,
    fault: int, i: int)
    requires SignedTables(t, orderId, kind, signer, name, a, fault).1
    ensures var after := SignedTables(t, orderId, kind, signer, name, a, fault).0;
      && orderId in t.orders && orderId in after.orders
      && after.orders[orderId].preStatus == None
      && (kind == Pickup ==> after.orders[orderId].status == PickedUp)
      && (kind == Pickup && t.orders[orderId].source == Internal && !t.orders[orderId].paymentDelivery ==>
        after.orders[orderId].payment == PickupPaid)
      && (i in after.inspections <==> i in t.inspections)
      && (i in t.inspections && IsOf(t.inspections[i], orderId, kind) ==>
        after.inspections[i] == t.inspections[i].(status := Signed, signedBy := Some(name)))
      && (i in t.inspections && !IsOf(t.inspections[i], orderId, kind) ==>
        after.inspections[i] == t.inspections[i])
  {
    AfterChargeRows(t, orderId, kind, a);
  }

  lemma AfterChargeRows(t: Tables, orderId: int, kind: InspectionType, a: ChargeAnswer)
    requires orderId in t.orders
    ensures var c := AfterCharge(t, orderId, kind, a);
      && c == t.(orders := c.orders, paymentFailed := c.paymentFailed, gateway := c.gateway)
      && orderId in c.orders
      && c.orders == t.orders[orderId := t.orders[orderId].(payment := c.orders[orderId].payment)]
  {
  }

  // A signing that fails leaves inspections and every column of the order but
  // its payment status as they were.
  lemma FailedSigningLeavesOnlyThePayment(t: Tables, orderId: int, kind: InspectionType, signer: Signer, name: string,
    a: ChargeAnswer, fault: int)
    requires !SignedTables(t, orderId, kind, signer, name, a, fault).1
    ensures var after := SignedTables(t, orderId, kind, signer, name, a, fault).0;
      after == t || (
        && MaySign(t, orderId, signer) && ChargeDue(t.orders[orderId], kind)
        && after == t.(orders := after.orders, paymentFailed := after.paymentFailed, gateway := after.gateway)
        && orderId in after.orders
        && after.orders == t.orders[orderId := t.orders[orderId].(payment := after.orders[orderId].payment)])
  {
    if orderId in t.orders {
      AfterChargeRows(t, orderId, kind, a);
    }
  }

  // When the pickup was charged and only the rest failed, signing again goes
  // through without asking the gateway again.
  lemma SigningAgainNeedsNoSecondCharge(t: Tables, orderId: int, signer: Signer, name: string, a: ChargeAnswer,
    fault: int,
    again: ChargeAnswer)
    requires MaySign(t, orderId, signer) && ChargeDue(t.orders[orderId], Pickup) && Succeeds(a)
    requires ORDER_WRITE <= fault <= COMMIT
    ensures var failed := SignedTables(t, orderId, Pickup, signer, name, a, fault);
      var retried := SignedTables(failed.0, orderId, Pickup, signer, name, again, COMMIT + 1);
      && !failed.1 && retried.1
      && retried.0.gateway == t.gateway + [Charge(orderId, CarPickup, true, true)]
  {
    var failed := SignedTables(t, orderId, Pickup, signer, name, a, fault).0;
    assert MaySign(failed, orderId, signer) by {
      AfterChargeRows(t, orderId, Pickup, a);
      if signer.Driver? {
        StillOnTrip(t, failed, orderId, signer.driverId);
      }
    }
  }

  lemma StillOnTrip(t: Tables, after: Tables, orderId: int, driverId: int)
    requires after.links == t.links && after.trips == t.trips
    ensures OnActiveTrip(after, orderId, driverId) == OnActiveTrip(t, orderId, driverId)
  {
  }

  // Signing turns every inspection of the type into a signed one.
  lemma SigningSignsAll(t: Tables, orderId: int, kind: InspectionType, signer: Signer, name: string, a: ChargeAnswer,
    fault: int)
    requires SignedTables(t, orderId, kind, signer, name, a, fault).1
    requires forall c :: c in CarsOf(t, orderId) ==> Covered(t, orderId, kind, c)
    ensures AllCars(SignedTables(t, orderId, kind, signer, name, a, fault).0, orderId, kind, Signed)
  {
    var after := SignedTables(t, orderId, kind, signer, name, a, fault).0;
    forall c | c in CarsOf(after, orderId)
      ensures Covered(after, orderId, kind, c)
    {
      assert c in CarsOf(t, orderId);
      var i :| i in t.inspections && IsOf(t.inspections[i], orderId, kind) && t.inspections[i].carId == c;
      assert i in after.inspections;
    }
  }

  // With unique inspections of own cars and no delivery inspection yet, the
  // insert cannot violate the constraint.
  lemma CloningFits(t: Tables, orderId: int, origin: Origins)
    requires Unique(t) && OwnCars(t) && !HasDelivery(t, orderId) && Numbers(t, orderId, origin)
    ensures CloneWorks(t, orderId, origin)
  {
    forall i, j | i in t.inspections && IsSignedPickup(t.inspections[i], orderId)
        && j in t.inspections && t.inspections[j].carId == t.inspections[i].carId
      ensures t.inspections[j].kind != Delivery
    {
      assert !IsOf(t.inspections[j], orderId, Delivery);
    }
  }

  predicate IsDeliveryCopy(copy: Inspection, row: Inspection) {
    && copy.kind == Delivery && copy.status == Finished && copy.signedBy == None
    && copy.orderId == row.orderId && copy.carId == row.carId && copy.driverId == row.driverId
    && copy.details == row.details && copy.notes == row.notes
  }

  // Cloning leaves every row there was as it was; every other row is a finished,
  // unsigned delivery inspection with the car, details and notes of a signed
  // pickup inspection of the order.
  lemma CloningAdds(t: Tables, orderId: int, origin: Origins, i: int)
    requires !HasDelivery(t, orderId) && CloneWorks(t, orderId, origin)
    ensures var after := Cloned(t, orderId, origin).inspections;
      && (i in t.inspections ==> i in after && after[i] == t.inspections[i])
      && (i in after <==> i in t.inspections || i in origin)
      && (i in origin ==>
        && IsFreshClone(t, orderId, origin, i) && IsDeliveryCopy(after[i], t.inspections[origin[i]])
        && !HasInspection(t, after[i].carId, Delivery))
  {
    if i in origin {
      assert IsFreshClone(t, orderId, origin, i);
      var source := origin[i];
      assert source in t.inspections;
      assert t.inspections[source].carId == CloneOf(t.inspections[source]).carId;
    }
  }

  lemma CloningKeepsUnique(t: Tables, orderId: int, origin: Origins)
    requires Unique(t) && CloneWorks(t, orderId, origin)
    ensures Unique(Cloned(t, orderId, origin))
    ensures OwnCars(t) ==> OwnCars(Cloned(t, orderId, origin))
  {
    var after := Cloned(t, orderId, origin);
    if !HasDelivery(t, orderId) {
      forall i | i in after.inspections && OwnCars(t)
        ensures after.inspections[i].carId in t.cars
        ensures t.cars[after.inspections[i].carId] == after.inspections[i].orderId
      {
        CloningAdds(t, orderId, origin, i);
        if i in origin {
          var source := origin[i];
          assert source in t.inspections;
        }
      }
      forall i, j | i in after.inspections && j in after.inspections && i != j
        ensures !(
          && after.inspections[i].carId == after.inspections[j].carId
          && after.inspections[i].kind == after.inspections[j].kind)
      {
        ClonesDiffer(t, orderId, origin, i, j);
      }
    }
  }

  lemma ClonesDiffer(t: Tables, orderId: int, origin: Origins, i: int, j: int)
    requires Unique(t) && !HasDelivery(t, orderId) && CloneWorks(t, orderId, origin)
    requires i in Cloned(t, orderId, origin).inspections && j in Cloned(t, orderId, origin).inspections && i != j
    ensures var after := Cloned(t, orderId, origin).inspections;
      !(after[i].carId == after[j].carId && after[i].kind == after[j].kind)
  {
    CloningAdds(t, orderId, origin, i);
    CloningAdds(t, orderId, origin, j);
    if i in origin && j in origin {
      assert origin[i] != origin[j];
    }
  }

  lemma CloningCovers(t: Tables, orderId: int, origin: Origins, c: int)
    requires !HasDelivery(t, orderId) && CloneWorks(t, orderId, origin)
    requires AllCars(t, orderId, Pickup, Signed) && c in CarsOf(t, orderId)
    ensures Covered(Cloned(t, orderId, origin), orderId, Delivery, c)
    ensures Covered(Cloned(t, orderId, origin), orderId, Pickup, c)
  {
    var i :| i in t.inspections && IsOf(t.inspections[i], orderId, Pickup) && t.inspections[i].carId == c;
    assert IsSignedPickup(t.inspections[i], orderId) && HasClone(origin, i);
    var k :| k in origin && origin[k] == i;
    CloningAdds(t, orderId, origin, i);
    CloningAdds(t, orderId, origin, k);
  }

  // After a signed pickup of every car: exactly one finished delivery inspection
  // for each car, pickups still signed, and the count comparison holds.
  lemma CloningCompletes(t: Tables, orderId: int, origin: Origins)
    requires Unique(t) && OwnCars(t) && !HasDelivery(t, orderId) && Numbers(t, orderId, origin)
    requires AllCars(t, orderId, Pickup, Signed)
    ensures CloneWorks(t, orderId, origin)
    ensures var after := Cloned(t, orderId, origin);
      && AllCars(after, orderId, Delivery, Finished) && AllCars(after, orderId, Pickup, Signed)
      && AllFinished(after, orderId, Delivery)
  {
    CloningFits(t, orderId, origin);
    CloningKeepsUnique(t, orderId, origin);
    var after := Cloned(t, orderId, origin);
    forall c | c in CarsOf(after, orderId)
      ensures Covered(after, orderId, Delivery, c) && Covered(after, orderId, Pickup, c)
    {
      assert c in CarsOf(t, orderId);
      CloningCovers(t, orderId, origin, c);
    }
    forall i | i in after.inspections && after.inspections[i].orderId == orderId
      ensures after.inspections[i].status == if after.inspections[i].kind == Delivery then Finished else Signed
    {
      CloningAdds(t, orderId, origin, i);
      assert i in t.inspections ==> !IsOf(t.inspections[i], orderId, Delivery);
    }
    CountComparisonIsExact(after, orderId, Delivery);
  }

  // Doing it a second time changes nothing, whatever the ids.
  lemma CloningTwiceIsOnce(t: Tables, orderId: int, origin: Origins, again: Origins)
    requires Unique(t) && OwnCars(t) && !HasDelivery(t, orderId) && Numbers(t, orderId, origin)
    requires AllCars(t, orderId, Pickup, Signed) && CarsOf(t, orderId) != {}
    ensures CloneWorks(t, orderId, origin) && CloneWorks(Cloned(t, orderId, origin), orderId, again)
    ensures Cloned(Cloned(t, orderId, origin), orderId, again) == Cloned(t, orderId, origin)
  {
    CloningCompletes(t, orderId, origin);
    var c := Member(CarsOf(t, orderId));
    CloningCovers(t, orderId, origin, c);
    assert HasDelivery(Cloned(t, orderId, origin), orderId);
  }

  // Clones for every car can only come from a signed pickup of every car.
  lemma CompleteClonesHaveSources(t: Tables, orderId: int, origin: Origins)
    requires Unique(t) && OwnCars(t) && !HasDelivery(t, orderId) && CloneWorks(t, orderId, origin)
    requires AllCars(Cloned(t, orderId, origin), orderId, Delivery, Finished)
    ensures AllCars(t, orderId, Pickup, Signed)
  {
    forall c | c in CarsOf(t, orderId)
      ensures SignedPickupOf(t, orderId, c)
    {
      CloneHasSource(t, orderId, origin, c);
    }
    forall c | c in CarsOf(t, orderId)
      ensures Covered(t, orderId, Pickup, c)
    {
      assert SignedPickupOf(t, orderId, c);
    }
    forall i | i in t.inspections && IsOf(t.inspections[i], orderId, Pickup)
      ensures t.inspections[i].status == Signed
    {
      assert t.inspections[i].carId in CarsOf(t, orderId) && SignedPickupOf(t, orderId, t.inspections[i].carId);
    }
  }

  ghost predicate SignedPickupOf(t: Tables, orderId: int, carId: int) {
    exists i :: i in t.inspections && IsSignedPickup(t.inspections[i], orderId) && t.inspections[i].carId == carId
  }

  lemma CloneHasSource(t: Tables, orderId: int, origin: Origins, c: int)
    requires !HasDelivery(t, orderId) && CloneWorks(t, orderId, origin)
    requires Covered(Cloned(t, orderId, origin), orderId, Delivery, c)
    ensures SignedPickupOf(t, orderId, c)
  {
    var after := Cloned(t, orderId, origin).inspections;
    var k :| k in after && IsOf(after[k], orderId, Delivery) && after[k].carId == c;
    CloningAdds(t, orderId, origin, k);
    var source := origin[k];
    assert source in t.inspections && t.inspections[source].carId == c;
    assert IsSignedPickup(t.inspections[source], orderId);
  }

  // So the first delivery signature request of an order goes through exactly when
  // the order is on pickup or on delivery and on an active trip of the driver, no
  // write fails and every car's pickup is signed.
  lemma DeliveryRequestExactlyWhen(t: Tables, orderId: int, driverId: int, origin: Origins, fault: int)
    requires Unique(t) && OwnCars(t) && !HasDelivery(t, orderId) && Numbers(t, orderId, origin)
    ensures SignatureRequestedTables(t, orderId, driverId, Delivery, origin, fault).1 <==>
      && orderId in t.orders && (t.orders[orderId].status == OnPickup || t.orders[orderId].status == OnDelivery)
      && (exists l ::
            && l in t.links && t.links[l].orderId == orderId && t.links[l].tripId in t.trips
            && t.trips[t.links[l].tripId].status == Active && t.trips[t.links[l].tripId].driverId == Some(driverId))
      && !(ORDER_WRITE <= fault <= COMMIT) && AllCars(t, orderId, Pickup, Signed)
  {
    CloningFits(t, orderId, origin);
    CloningKeepsUnique(t, orderId, origin);
    CountComparisonIsExact(Cloned(t, orderId, origin), orderId, Delivery);
    if AllCars(t, orderId, Pickup, Signed) {
      CloningCompletes(t, orderId, origin);
    } else if AllCars(Cloned(t, orderId, origin), orderId, Delivery, Finished) {
      CompleteClonesHaveSources(t, orderId, origin);
    }
  }

  // ------------------------------------------------------------------------
  // A view before the request

  // A view rewrites one status at most, and no signed one.
  lemma ViewedRow(t: Tables, orderId: int, id: int, i: int)
    ensures ViewedTables(t, orderId, id) == t.(inspections := ViewedTables(t, orderId, id).inspections)
    ensures i in ViewedTables(t, orderId, id).inspections <==> i in t.inspections
    ensures i in t.inspections ==>
      var row, after := t.inspections[i], ViewedTables(t, orderId, id).inspections[i];
      && after == row.(status := after.status)
      && (row.status == Signed <==> after.status == Signed)
      && (after.status == Finished ==> row.status == Finished)
      && (i == id && row.orderId == orderId ==> after.status != Finished)
      && (i != id ==> after == row)
  {
  }

  lemma ViewedAreNotFinished(t: Tables, orderId: int, id: int, kind: InspectionType)
    requires Unique(t) && OwnCars(t)
    ensures Unique(ViewedTables(t, orderId, id)) && OwnCars(ViewedTables(t, orderId, id))
    ensures AllCars(ViewedTables(t, orderId, id), orderId, kind, Finished)
      <==> AllCars(t, orderId, kind, Finished) && !(id in t.inspections && IsOf(t.inspections[id], orderId, kind))
  {
    var after := ViewedTables(t, orderId, id);
    forall i
      ensures i in after.inspections <==> i in t.inspections
      ensures i in t.inspections ==> after.inspections[i] == t.inspections[i].(status := after.inspections[i].status)
    {
      ViewedRow(t, orderId, id, i);
    }
    forall c
      ensures Covered(after, orderId, kind, c) <==> Covered(t, orderId, kind, c)
    {
      SameCover(t, after, orderId, kind, c);
    }
    ViewedRow(t, orderId, id, id);
    forall i | i in t.inspections
      ensures after.inspections[i].status == Finished ==> t.inspections[i].status == Finished
      ensures i != id ==> after.inspections[i] == t.inspections[i]
    {
      ViewedRow(t, orderId, id, i);
    }
  }

  lemma SameCover(t: Tables, after: Tables, orderId: int, kind: InspectionType, c: int)
    requires forall i :: i in after.inspections <==> i in t.inspections
    requires forall i :: i in t.inspections ==>
      after.inspections[i] == t.inspections[i].(status := after.inspections[i].status)
    ensures Covered(after, orderId, kind, c) <==> Covered(t, orderId, kind, c)
  {
    if Covered(t, orderId, kind, c) {
      var i :| i in t.inspections && IsOf(t.inspections[i], orderId, kind) && t.inspections[i].carId == c;
      assert i in after.inspections;
    }
  }

  lemma ViewedKeepsClones(t: Tables, orderId: int, id: int, origin: Origins)
    ensures var after := ViewedTables(t, orderId, id);
      && HasDelivery(after, orderId) == HasDelivery(t, orderId)
      && Numbers(after, orderId, origin) == Numbers(t, orderId, origin)
      && AllCars(after, orderId, Pickup, Signed) == AllCars(t, orderId, Pickup, Signed)
  {
    var after := ViewedTables(t, orderId, id);
    forall i
      ensures i in after.inspections <==> i in t.inspections
      ensures i in t.inspections ==> after.inspections[i] == t.inspections[i].(status := after.inspections[i].status)
      ensures i in t.inspections ==> (after.inspections[i].status == Signed <==> t.inspections[i].status == Signed)
    {
      ViewedRow(t, orderId, id, i);
    }
    SameDelivery(t, after, orderId);
    SameNumbers(t, after, orderId, origin);
    SameSigned(t, after, orderId);
  }

  // The same rows but for their status, and the same ones signed.
  ghost predicate SameButStatus(t: Tables, after: Tables) {
    && (forall i :: i in after.inspections <==> i in t.inspections)
    && (forall i :: i in t.inspections ==>
      after.inspections[i] == t.inspections[i].(status := after.inspections[i].status))
    && (forall i :: i in t.inspections ==>
      (after.inspections[i].status == Signed <==> t.inspections[i].status == Signed))
    && after.cars == t.cars
  }

  lemma SameDelivery(t: Tables, after: Tables, orderId: int)
    requires SameButStatus(t, after)
    ensures HasDelivery(after, orderId) == HasDelivery(t, orderId)
  {
    if HasDelivery(t, orderId) {
      var i :| i in t.inspections && IsOf(t.inspections[i], orderId, Delivery);
      assert i in after.inspections;
    }
  }

  lemma SameNumbers(t: Tables, after: Tables, orderId: int, origin: Origins)
    requires SameButStatus(t, after)
    ensures Numbers(after, orderId, origin) == Numbers(t, orderId, origin)
  {
    forall k | k in origin
      ensures IsFreshClone(after, orderId, origin, k) <==> IsFreshClone(t, orderId, origin, k)
    {
      var source := origin[k];
      assert source in t.inspections <==> source in after.inspections;
    }
    forall i | i in t.inspections
      ensures i in after.inspections
      ensures IsSignedPickup(after.inspections[i], orderId) == IsSignedPickup(t.inspections[i], orderId)
    {
    }
  }

  lemma SameSigned(t: Tables, after: Tables, orderId: int)
    requires SameButStatus(t, after)
    ensures AllCars(after, orderId, Pickup, Signed) == AllCars(t, orderId, Pickup, Signed)
  {
    forall c
      ensures Covered(after, orderId, Pickup, c) <==> Covered(t, orderId, Pickup, c)
    {
      SameCover(t, after, orderId, Pickup, c);
    }
  }

  lemma CountedRequestAfterView(t: Tables, orderId: int, id: int, driverId: int, kind: InspectionType,
    origin: Origins, fault: int)
    requires Unique(t) && OwnCars(t) && (kind == Pickup || HasDelivery(t, orderId))
    ensures SignatureRequestedTables(ViewedTables(t, orderId, id), orderId, driverId, kind, origin, fault).1 <==>
      && SignatureRequestedTables(t, orderId, driverId, kind, origin, fault).1
      && !(id in t.inspections && IsOf(t.inspections[id], orderId, kind))
  {
    var viewed := ViewedTables(t, orderId, id);
    ViewedAreNotFinished(t, orderId, id, kind);
    ViewedKeepsClones(t, orderId, id, origin);
    CountedRequestExactlyWhen(t, orderId, driverId, kind, origin, fault);
    CountedRequestExactlyWhen(viewed, orderId, driverId, kind, origin, fault);
    SameAsker(t, viewed, orderId, driverId);
  }

  lemma CountedRequestExactlyWhen(t: Tables, orderId: int, driverId: int, kind: InspectionType,
    origin: Origins, fault: int)
    requires Unique(t) && OwnCars(t) && (kind == Pickup || HasDelivery(t, orderId))
    ensures SignatureRequestedTables(t, orderId, driverId, kind, origin, fault).1 <==>
      && orderId in t.orders && (t.orders[orderId].status == OnPickup || t.orders[orderId].status == OnDelivery)
      && (exists l ::
            && l in t.links && t.links[l].orderId == orderId && t.links[l].tripId in t.trips
            && t.trips[t.links[l].tripId].status == Active && t.trips[t.links[l].tripId].driverId == Some(driverId))
      && !(ORDER_WRITE <= fault <= COMMIT) && AllCars(t, orderId, kind, Finished)
  {
    CountComparisonIsExact(t, orderId, kind);
  }

  lemma SameAsker(t: Tables, after: Tables, orderId: int, driverId: int)
    requires after == t.(inspections := after.inspections)
    ensures MayRequest(after, orderId, driverId) == MayRequest(t, orderId, driverId)
  {
    StillOnTrip(t, after, orderId, driverId);
  }

  // After the client has viewed an inspection of the order, a signature request
  // goes through exactly when it would have before and the inspection is not one
  // of the type asked for: a finished one is then finished no more.
  lemma RequestAfterViewExactlyWhen(t: Tables, orderId: int, id: int, driverId: int, kind: InspectionType,
    origin: Origins, fault: int)
    requires Unique(t) && OwnCars(t)
    ensures SignatureRequestedTables(ViewedTables(t, orderId, id), orderId, driverId, kind, origin, fault).1 <==>
      && SignatureRequestedTables(t, orderId, driverId, kind, origin, fault).1
      && !(id in t.inspections && IsOf(t.inspections[id], orderId, kind))
  {
    if kind == Pickup || HasDelivery(t, orderId) {
      CountedRequestAfterView(t, orderId, id, driverId, kind, origin, fault);
    } else {
      FirstRequestAfterView(t, orderId, id, driverId, origin, fault);
    }
  }

  // Before there are delivery inspections the request depends on signed ones only.
  lemma FirstRequestAfterView(t: Tables, orderId: int, id: int, driverId: int, origin: Origins, fault: int)
    requires Unique(t) && OwnCars(t) && !HasDelivery(t, orderId)
    ensures SignatureRequestedTables(ViewedTables(t, orderId, id), orderId, driverId, Delivery, origin, fault).1
      <==> SignatureRequestedTables(t, orderId, driverId, Delivery, origin, fault).1
  {
    var viewed := ViewedTables(t, orderId, id);
    ViewedAreNotFinished(t, orderId, id, Delivery);
    ViewedKeepsClones(t, orderId, id, origin);
    ViewedRow(t, orderId, id, id);
    SameAsker(t, viewed, orderId, driverId);
    if Numbers(t, orderId, origin) {
      DeliveryRequestExactlyWhen(t, orderId, driverId, origin, fault);
      DeliveryRequestExactlyWhen(viewed, orderId, driverId, origin, fault);
    }
  }
}
