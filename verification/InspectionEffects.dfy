// When each operation on inspections goes through and what it writes, column by
// column.
module InspectionEffects {
  import opened Prelude
  import opened Store
  import opened Payments
  import opened Inspections
  import opened InspectionProofs
  import Orders

  // ------------------------------------------------------------------------
  // Entering and editing

  // An inspection counts as finished with notes, empty ones too, and a detail for
  // each of the five faces of the car, and as started otherwise.
  lemma FinishedWhen(notes: Option<string>, details: seq<string>)
    ensures StatusAfter(notes, details) == if notes.Some? && |details| == 5 then Finished else Started
  {
  }

  // The car has an inspection of the type already.
  ghost predicate Exists(t: Tables, carId: int, kind: InspectionType, except: Option<int>) {
    exists i :: i in t.inspections && Some(i) != except
      && t.inspections[i].carId == carId && t.inspections[i].kind == kind
  }

  // An inspection is entered exactly for a known car without one of the type and on
  // a trip of the driver, and then it is the one row that comes.
  lemma InspectionIsEntered(t: Tables, id: int, kind: InspectionType, orderId: int, carId: int, driverId: int,
    details: seq<string>, notes: Option<string>, onTrip: bool)
    requires id !in t.inspections
    ensures Inspected(t, id, kind, orderId, carId, driverId, details, notes, onTrip) ==
      if carId in t.cars && !Exists(t, carId, kind, None) && onTrip
      then t.(inspections := t.inspections[id := Inspection(kind, orderId, carId, driverId,
        if notes.Some? && |details| == 5 then Finished else Started, details, notes, None)])
      else t
  {
    assert HasInspection(t, carId, kind) <==> Exists(t, carId, kind, None);
  }

  // An edit is taken exactly for a known car and the driver's own started row, on a
  // trip of his. The details are written in any case; the row only when no other
  // one has the car and the type.
  lemma InspectionIsEdited(t: Tables, id: int, driverId: int, kind: InspectionType, orderId: int, carId: int,
    details: Option<seq<string>>, notes: Option<string>, onTrip: bool)
    ensures var after := Edited(t, id, driverId, kind, orderId, carId, details, notes, onTrip);
      if carId in t.cars && id in t.inspections && t.inspections[id].driverId == driverId
        && t.inspections[id].status == Started && onTrip
      then
        var row := t.inspections[id];
        var details' := if details.Some? then details.value else row.details;
        var notes' := if notes.Some? then notes else row.notes;
        after == t.(inspections := t.inspections[id :=
          if Exists(t, carId, kind, Some(id)) then row.(details := details')
          else Inspection(kind, orderId, carId, driverId,
            if notes'.Some? && |details'| == 5 then Finished else Started, details', notes', row.signedBy)])
      else after == t
  {
    assert Taken(t, id, carId, kind) <==> Exists(t, carId, kind, Some(id));
  }

  // A view is taken exactly of a requested or finished inspection of the order.
  lemma InspectionIsViewed(t: Tables, orderId: int, id: int)
    ensures ViewedTables(t, orderId, id) ==
      if id in t.inspections && t.inspections[id].orderId == orderId
        && t.inspections[id].status in {Requested, Finished}
      then t.(inspections := t.inspections[id := t.inspections[id].(status := Viewed)])
      else t
  {
  }

  // Damages are taken exactly on a delivery inspection that is not signed. They are
  // added to its details and mark its order; notes that are not empty replace its own.
  lemma DamagesAreRecorded(t: Tables, id: int, damages: seq<string>, notes: Option<string>)
    ensures var after := Damaged(t, id, damages, notes);
      if id in t.inspections && t.inspections[id].kind == Delivery && t.inspections[id].status != Signed
      then
        var row := t.inspections[id];
        && after == t.(orders := after.orders, inspections := t.inspections[id := row.(
          details := row.details + damages, notes := if notes == None || notes == Some("") then row.notes else notes)])
        && after.orders == if damages != [] && row.orderId in t.orders
          then t.orders[row.orderId := t.orders[row.orderId].(preStatus := Some(Claimed))] else t.orders
      else after == t
  {
  }

  // ------------------------------------------------------------------------
  // Signing

  // Who may sign: the client while the signature is requested or the order is on
  // its pickup, the driver of the order's active trip while it is requested.
  lemma MaySignExactlyWhen(t: Tables, orderId: int, signer: Signer)
    ensures MaySign(t, orderId, signer) <==>
      && orderId in t.orders
      && match signer
        case Client => t.orders[orderId].status in {SignatureRequested, OnPickup}
        case Driver(d) =>
          && t.orders[orderId].status == SignatureRequested
          && Orders.RidesWhere(t, orderId, (trip: Trip) => trip.status == Active && trip.driverId == Some(d))
  {
    if signer.Driver? {
      Orders.TripLookups(t, orderId, signer.driverId);
    }
  }

  // A signing asks the gateway, once, exactly for the pickup of an internal order
  // that is not to be paid at delivery and has not paid it, whatever happens then.
  lemma SigningChargesExactlyWhen(t: Tables, orderId: int, kind: InspectionType, signer: Signer, name: string,
    a: ChargeAnswer, fault: int)
    ensures SignedTables(t, orderId, kind, signer, name, a, fault).0.gateway == t.gateway + (
      if MaySign(t, orderId, signer) && kind == Pickup && t.orders[orderId].source == Internal
        && !t.orders[orderId].paymentDelivery && t.orders[orderId].payment != PickupPaid
      then [Charge(orderId, CarPickup, a.approved, a.approved && a.recorded)] else [])
  {
    if MaySign(t, orderId, signer) {
      SignatureAsksNothing(AfterCharge(t, orderId, kind, a), orderId, kind, name);
    }
  }

  lemma SignatureAsksNothing(t: Tables, orderId: int, kind: InspectionType, name: string)
    requires orderId in t.orders
    ensures Signature(t, orderId, kind, name).gateway == t.gateway
  {
  }

  // A signing goes through exactly when the signer may sign, a pickup to be charged
  // is taken and recorded, and no write fails.
  lemma SigningGoesThroughExactlyWhen(t: Tables, orderId: int, kind: InspectionType, signer: Signer, name: string,
    a: ChargeAnswer, fault: int)
    ensures SignedTables(t, orderId, kind, signer, name, a, fault).1 <==>
      && MaySign(t, orderId, signer) && !(ORDER_WRITE <= fault <= COMMIT)
      && (
        && kind == Pickup && t.orders[orderId].source == Internal && !t.orders[orderId].paymentDelivery
        && t.orders[orderId].payment != PickupPaid ==>
        a.approved && a.recorded)
  {
  }

  // An order that pays elsewhere or has paid keeps its payment status and its
  // client's flag through a signing, and cannot fail for the gateway's answer.
  lemma SigningSparesOthers(t: Tables, orderId: int, kind: InspectionType, signer: Signer, name: string,
    a: ChargeAnswer, fault: int)
    requires MaySign(t, orderId, signer)
    requires kind == Delivery || t.orders[orderId].source != Internal || t.orders[orderId].paymentDelivery
      || t.orders[orderId].payment == PickupPaid
    ensures var result := SignedTables(t, orderId, kind, signer, name, a, fault);
      && (result.1 <==> !(ORDER_WRITE <= fault <= COMMIT))
      && orderId in result.0.orders && result.0.orders[orderId].payment == t.orders[orderId].payment
      && result.0.paymentFailed == t.paymentFailed && result.0.gateway == t.gateway
  {
  }

  // ------------------------------------------------------------------------
  // The client's own way to a delivery signature

  // It is open to the client who placed the order, while it is picked up, on its way
  // or on delivery; on a trip the clones must be possible. It then waits for a
  // signature, preStatus untouched, and its delivery inspections are requested.
  lemma DeliveryIsCreatedExactlyWhen(t: Tables, orderId: int, accountId: int, origin: Origins, fault: int)
    requires orderId in t.orders && t.orders[orderId].status != SignatureRequested
    ensures DeliveryCreated(t, orderId, accountId, origin, fault).1 <==>
      && t.orders[orderId].createdById == accountId
      && t.orders[orderId].status in {OnDelivery, OnWayToDelivery, PickedUp}
      && !(ORDER_WRITE <= fault <= COMMIT)
      && (OnTrip(t, orderId) ==> CloneWorks(t, orderId, origin))
  {
  }

  lemma DeliveryCreationWrites(t: Tables, orderId: int, accountId: int, origin: Origins, fault: int, i: int)
    requires orderId in t.orders && t.orders[orderId].status != SignatureRequested
    ensures var result := DeliveryCreated(t, orderId, accountId, origin, fault);
      if result.1 then
        && result.0 == t.(orders := t.orders[orderId := t.orders[orderId].(status := SignatureRequested)],
          inspections := result.0.inspections)
        && (i in t.inspections ==>
          && i in result.0.inspections
          && result.0.inspections[i] == if t.inspections[i].orderId == orderId && t.inspections[i].kind == Delivery
            then t.inspections[i].(status := Requested) else t.inspections[i])
        && (i in result.0.inspections && i !in t.inspections ==>
          result.0.inspections[i].orderId == orderId && result.0.inspections[i].kind == Delivery
          && result.0.inspections[i].status == Requested && OnTrip(t, orderId))
      else result.0 == t
  {
    if DeliveryCreated(t, orderId, accountId, origin, fault).1 && OnTrip(t, orderId) && !HasDelivery(t, orderId) {
      CloningAdds(t, orderId, origin, i);
    }
  }

  // While the signature is requested already, an order with more inspections than
  // cars is left as it is, and any other one is refused.
  lemma DeliveryCreationWhileRequested(t: Tables, orderId: int, accountId: int, origin: Origins, fault: int)
    requires orderId in t.orders && t.orders[orderId].status == SignatureRequested
    ensures DeliveryCreated(t, orderId, accountId, origin, fault) == (t,
      t.orders[orderId].createdById == accountId
      && |set i | i in t.inspections && t.inspections[i].orderId == orderId|
        > |set c | c in t.cars && t.cars[c] == orderId|)
  {
    assert AllOf(t, orderId) == set i | i in t.inspections && t.inspections[i].orderId == orderId;
    assert CarsOf(t, orderId) == set c | c in t.cars && t.cars[c] == orderId;
  }
}
