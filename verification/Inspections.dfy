// The inspections of an order's cars: inspection.service.ts, and the signature
// request, the cloning and the signing of order.service.ts.
module Inspections {
  import opened Prelude
  import opened Store
  import opened Payments

  predicate IsOf(row: Inspection, orderId: int, kind: InspectionType) {
    row.orderId == orderId && row.kind == kind
  }

  function CarsOf(t: Tables, orderId: int): set<int> {
    set c | c in t.cars && t.cars[c] == orderId
  }

  function FinishedOf(t: Tables, orderId: int, kind: InspectionType): set<int> {
    set i | i in t.inspections && IsOf(t.inspections[i], orderId, kind) && t.inspections[i].status == Finished
  }

  predicate HasInspection(t: Tables, carId: int, kind: InspectionType) {
    exists i :: i in t.inspections && t.inspections[i].carId == carId && t.inspections[i].kind == kind
  }

  // The unique constraint on (carId, type).
  ghost predicate Unique(t: Tables) {
    forall i, j :: i in t.inspections && j in t.inspections && i != j ==>
      !(t.inspections[i].carId == t.inspections[j].carId && t.inspections[i].kind == t.inspections[j].kind)
  }

  // Every inspection is of a car of its own order. The services do not check it.
  ghost predicate OwnCars(t: Tables) {
    forall i :: i in t.inspections ==>
      t.inspections[i].carId in t.cars && t.cars[t.inspections[i].carId] == t.inspections[i].orderId
  }

  // ------------------------------------------------------------------------
  // create and edit

  // isInspectionFinished: notes, which may be empty, and one detail for each of
  // the five faces of a car.
  const FACES := 5

  function StatusAfter(notes: Option<string>, details: seq<string>): InspectionStatus {
    if notes.Some? && |details| == FACES then Finished else Started
  }

  // `onTrip`: the trip lookup for the order and the driver finds a trip.
  function Inspected(t: Tables, id: int, kind: InspectionType, orderId: int, carId: int, driverId: int,
    details: seq<string>, notes: Option<string>, onTrip: bool): Tables
  {
    if carId !in t.cars || HasInspection(t, carId, kind) || !onTrip || id in t.inspections then t
    else t.(inspections := t.inspections[id :=
      Inspection(kind, orderId, carId, driverId, StatusAfter(notes, details), details, notes, None)])
  }

  // Another row has the car and the type.
  predicate Taken(t: Tables, id: int, carId: int, kind: InspectionType) {
    exists j :: j in t.inspections && j != id && t.inspections[j].carId == carId && t.inspections[j].kind == kind
  }

  // edit: the details are written first, so they stay when the row itself
  // violates the unique constraint. `details` None leaves them as they are.
  function Edited(t: Tables, id: int, driverId: int, kind: InspectionType, orderId: int, carId: int,
    details: Option<seq<string>>, notes: Option<string>, onTrip: bool): Tables
  {
    if carId !in t.cars || id !in t.inspections || t.inspections[id].driverId != driverId
      || t.inspections[id].status != Started || !onTrip then t
    else
      var row := t.inspections[id];
      var row' := if details.Some? then row.(details := details.value) else row;
      if Taken(t, id, carId, kind)
      then t.(inspections := t.inspections[id := row'])
      else t.(inspections := t.inspections[id := EditedRow(row', kind, orderId, carId, notes)])
  }

  function EditedRow(row: Inspection, kind: InspectionType, orderId: int, carId: int,
    notes: Option<string>): Inspection {
    var notes' := if notes.Some? then notes else row.notes;
    row.(kind := kind, orderId := orderId, carId := carId, notes := notes', status := StatusAfter(notes', row.details))
  }

  // markPickUpInspectionAsViewed
  function ViewedTables(t: Tables, orderId: int, id: int): Tables {
    if id in t.inspections && t.inspections[id].orderId == orderId
      && (t.inspections[id].status == Requested || t.inspections[id].status == Finished)
    then t.(inspections := t.inspections[id := t.inspections[id].(status := Viewed)])
    else t
  }

  // addInspectionDamages: the damages and the mark on the order are one
  // transaction; notes alone leave the order alone.
  predicate Damageable(t: Tables, id: int) {
    id in t.inspections && t.inspections[id].kind == Delivery && t.inspections[id].status != Signed
  }

  // Empty notes are passed over.
  function DamagedRow(row: Inspection, damages: seq<string>, notes: Option<string>): Inspection {
    var given := notes.Some? && notes.value != "";
    row.(details := row.details + damages, notes := if given then notes else row.notes)
  }

  function Damaged(t: Tables, id: int, damages: seq<string>, notes: Option<string>): Tables {
    if !Damageable(t, id) then t
    else
      var row := t.inspections[id];
      t.(
        inspections := t.inspections[id := DamagedRow(row, damages, notes)],
        orders :=
          if damages != [] && row.orderId in t.orders
          then t.orders[row.orderId := t.orders[row.orderId].(preStatus := Some(Claimed))]
          else t.orders)
  }

  // ------------------------------------------------------------------------
  // clonePickUpToDeliverySignatures

  predicate IsSignedPickup(row: Inspection, orderId: int) {
    IsOf(row, orderId, Pickup) && row.status == Signed
  }

  predicate HasDelivery(t: Tables, orderId: int) {
    exists i :: i in t.inspections && IsOf(t.inspections[i], orderId, Delivery)
  }

  function CloneOf(row: Inspection): Inspection {
    row.(kind := Delivery, status := Finished, signedBy := None)
  }

  // The ids that the database gives to the clones, each with the row it is a
  // clone of: one fresh id for every signed pickup inspection of the order.
  type Origins = map<int, int>

  predicate IsFreshClone(t: Tables, orderId: int, origin: Origins, k: int) {
    && k !in t.inspections && k in origin && origin[k] in t.inspections
    && IsSignedPickup(t.inspections[origin[k]], orderId)
  }

  predicate HasClone(origin: Origins, i: int) {
    exists k :: k in origin && origin[k] == i
  }

  predicate Numbers(t: Tables, orderId: int, origin: Origins) {
    && (forall k :: k in origin ==> IsFreshClone(t, orderId, origin, k))
    && (forall k, l :: k in origin && l in origin && k != l ==> origin[k] != origin[l])
    && (forall i :: i in t.inspections && IsSignedPickup(t.inspections[i], orderId) ==> HasClone(origin, i))
  }

  // The insert meets no delivery inspection of one of the cars.
  predicate NoDeliveryYet(t: Tables, orderId: int) {
    forall i, j :: i in t.inspections && j in t.inspections && IsSignedPickup(t.inspections[i], orderId) ==>
      !(t.inspections[j].carId == t.inspections[i].carId && t.inspections[j].kind == Delivery)
  }

  predicate CloneWorks(t: Tables, orderId: int, origin: Origins) {
    HasDelivery(t, orderId) || (Numbers(t, orderId, origin) && NoDeliveryYet(t, orderId))
  }

  function Cloned(t: Tables, orderId: int, origin: Origins): Tables
    requires CloneWorks(t, orderId, origin)
  {
    if HasDelivery(t, orderId) then t
    else t.(inspections := WithClones(t, orderId, origin, origin.Keys))
  }

  // The rows once the clones with these ids are in.
  function WithClones(t: Tables, orderId: int, origin: Origins, ids: set<int>): map<int, Inspection>
    requires Numbers(t, orderId, origin) && ids <= origin.Keys
  {
    t.inspections + map k | k in ids :: (
      assert IsFreshClone(t, orderId, origin, k);
      CloneOf(t.inspections[origin[k]]))
  }

  // ------------------------------------------------------------------------
  // requestInspectionSignature

  // The database calls that can fail inside the transaction.
  const ORDER_WRITE := 1
  const INSPECTION_WRITE := 2
  const COMMIT := 3

  function Marked(t: Tables, orderId: int, kind: InspectionType, status: InspectionStatus): map<int, Inspection> {
    map i | i in t.inspections :: (
      if IsOf(t.inspections[i], orderId, kind) then t.inspections[i].(status := status) else t.inspections[i])
  }

  predicate AllFinished(t: Tables, orderId: int, kind: InspectionType) {
    |FinishedOf(t, orderId, kind)| == |CarsOf(t, orderId)|
  }

  predicate MayRequest(t: Tables, orderId: int, driverId: int) {
    && orderId in t.orders && OnActiveTrip(t, orderId, driverId)
    && (t.orders[orderId].status == OnPickup || t.orders[orderId].status == OnDelivery)
  }

  function SignatureRequestedTables(t: Tables, orderId: int, driverId: int, kind: InspectionType, origin: Origins,
    fault: int): (Tables, bool) {
    if !MayRequest(t, orderId, driverId) || (kind == Delivery && !CloneWorks(t, orderId, origin)) then (t, false)
    else
      var tx := if kind == Delivery then Cloned(t, orderId, origin) else t;
      if !AllFinished(tx, orderId, kind) || ORDER_WRITE <= fault <= COMMIT then (t, false)
      else
        var order := t.orders[orderId];
        (tx.(
          orders := t.orders[orderId := order.(status := SignatureRequested, preStatus := Some(order.status))],
          inspections := Marked(tx, orderId, kind, Requested)), true)
  }

  // ------------------------------------------------------------------------
  // signInspection, reached by the client or by the driver's app

  datatype Signer = Client | Driver(driverId: int)

  predicate MaySign(t: Tables, orderId: int, signer: Signer) {
    && orderId in t.orders
    && match signer
      case Client => t.orders[orderId].status == SignatureRequested || t.orders[orderId].status == OnPickup
      case Driver(d) => t.orders[orderId].status == SignatureRequested && OnActiveTrip(t, orderId, d)
  }

  // The status a signing leads to, with the preStatus that the delivery branch
  // compares with as a parameter. The code compares with Declined.
  function NextStatus(order: Order, kind: InspectionType, compared: OrderStatus): OrderStatus {
    if kind == Pickup then PickedUp
    else if order.preStatus == Some(compared) then Claimed
    else Delivered
  }

  const COMPARED := Declined

  predicate ChargeDue(order: Order, kind: InspectionType) {
    kind == Pickup && order.source == Internal && order.payment != PickupPaid && !order.paymentDelivery
  }

  function SignedTables(t: Tables, orderId: int, kind: InspectionType, signer: Signer, name: string,
    a: ChargeAnswer, fault: int): (Tables, bool)
  {
    if !MaySign(t, orderId, signer) then (t, false)
    else
      var c := AfterCharge(t, orderId, kind, a);
      if (ChargeDue(t.orders[orderId], kind) && !Succeeds(a)) || ORDER_WRITE <= fault <= COMMIT then (c, false)
      else (Signature(c, orderId, kind, name), true)
  }

  // The charge, when one is due.
  function AfterCharge(t: Tables, orderId: int, kind: InspectionType, a: ChargeAnswer): Tables
    requires orderId in t.orders
  {
    if ChargeDue(t.orders[orderId], kind) then Charged(t, orderId, CarPickup, a) else t
  }

  // The writes of a signing that commits.
  function Signature(t: Tables, orderId: int, kind: InspectionType, name: string): Tables
    requires orderId in t.orders
  {
    var order := t.orders[orderId];
    t.(
      orders := t.orders[orderId := order.(status := NextStatus(order, kind, COMPARED), preStatus := None)],
      inspections := SignedRows(t, orderId, kind, name))
  }

  function SignedRows(t: Tables, orderId: int, kind: InspectionType, name: string): map<int, Inspection> {
    map i | i in t.inspections :: (
      if IsOf(t.inspections[i], orderId, kind)
      then t.inspections[i].(status := Signed, signedBy := Some(name)) else t.inspections[i])
  }

  // ------------------------------------------------------------------------
  // createDeliveryInspection, the client's own way to a delivery signature

  function AllOf(t: Tables, orderId: int): set<int> {
    set i | i in t.inspections && t.inspections[i].orderId == orderId
  }

  function DeliveryCreated(t: Tables, orderId: int, accountId: int, origin: Origins, fault: int): (Tables, bool) {
    if orderId !in t.orders || t.orders[orderId].createdById != accountId then (t, false)
    else
      var order := t.orders[orderId];
      if order.status == SignatureRequested && |AllOf(t, orderId)| > |CarsOf(t, orderId)| then (t, true)
      else if order.status != OnDelivery && order.status != OnWayToDelivery && order.status != PickedUp then (t, false)
      else if OnTrip(t, orderId) && !CloneWorks(t, orderId, origin) then (t, false)
      else if ORDER_WRITE <= fault <= COMMIT then (t, false)
      else
        var tx := if OnTrip(t, orderId) then Cloned(t, orderId, origin) else t;
        (tx.(
          orders := t.orders[orderId := order.(status := SignatureRequested)],
          inspections := Marked(tx, orderId, Delivery, Requested)), true)
  }

  // ------------------------------------------------------------------------
  // The service methods. `tx` is a transaction's own view of the tables; leaving
  // without assigning it back is the rollback.

  method Create(db: Database, id: int, kind: InspectionType, orderId: int, carId: int, driverId: int,
    details: seq<string>, notes: Option<string>, onTrip: bool) returns (ok: bool)
    requires id !in db.t.inspections
    modifies db
    ensures db.t == Inspected(old(db.t), id, kind, orderId, carId, driverId, details, notes, onTrip)
    ensures ok == (carId in old(db.t).cars && !HasInspection(old(db.t), carId, kind) && onTrip)
  {
    if carId !in db.t.cars {
      return false;
    }
    if HasInspection(db.t, carId, kind) {
      return false;
    }
    if !onTrip {
      return false;
    }
    var row := Inspection(kind, orderId, carId, driverId, Started, [], notes, None);
    row := row.(details := details);
    if row.notes.Some? && |row.details| == FACES {
      row := row.(status := Finished);
    }
    db.t := db.t.(inspections := db.t.inspections[id := row]);
    return true;
  }

  lemma TakenByOthers(t: Tables, id: int, row: Inspection, carId: int, kind: InspectionType)
    ensures Taken(t.(inspections := t.inspections[id := row]), id, carId, kind) == Taken(t, id, carId, kind)
  {
    if Taken(t, id, carId, kind) {
      var j :| j in t.inspections && j != id && t.inspections[j].carId == carId && t.inspections[j].kind == kind;
      assert j in t.inspections[id := row];
    }
  }

  // Outside any transaction: each write stays.
  method Edit(db: Database, id: int, driverId: int, kind: InspectionType, orderId: int, carId: int,
    details: Option<seq<string>>, notes: Option<string>, onTrip: bool)
    modifies db
    ensures db.t == Edited(old(db.t), id, driverId, kind, orderId, carId, details, notes, onTrip)
  {
    if carId !in db.t.cars || id !in db.t.inspections || db.t.inspections[id].driverId != driverId {
      return;
    }
    var row := db.t.inspections[id];
    if row.status != Started || !onTrip {
      return;
    }
    if details.Some? {
      row := row.(details := details.value);
      db.t := db.t.(inspections := db.t.inspections[id := row]);
    }
    TakenByOthers(old(db.t), id, row, carId, kind);
    assert db.t == old(db.t).(inspections := old(db.t).inspections[id := row]);
    if Taken(db.t, id, carId, kind) {
      return;
    }
    ghost var before := row;
    row := row.(kind := kind, orderId := orderId, carId := carId, notes := if notes.Some? then notes else row.notes);
    db.t := db.t.(inspections := db.t.inspections[id := row]);
    if row.notes.Some? && |row.details| == FACES {
      row := row.(status := Finished);
      db.t := db.t.(inspections := db.t.inspections[id := row]);
    }
    assert row == EditedRow(before, kind, orderId, carId, notes);
    assert db.t.inspections == old(db.t).inspections[id := row];
  }

  method MarkPickUpInspectionAsViewed(db: Database, orderId: int, id: int) returns (ok: bool)
    modifies db
    ensures db.t == ViewedTables(old(db.t), orderId, id)
  {
    if id !in db.t.inspections || db.t.inspections[id].orderId != orderId {
      return false;
    }
    var row := db.t.inspections[id];
    if row.status != Requested && row.status != Finished {
      return false;
    }
    db.t := db.t.(inspections := db.t.inspections[id := row.(status := Viewed)]);
    return true;
  }

  method AddInspectionDamages(db: Database, id: int, damages: seq<string>, notes: Option<string>) returns (ok: bool)
    modifies db
    ensures db.t == Damaged(old(db.t), id, damages, notes) && ok == Damageable(old(db.t), id)
  {
    if !Damageable(db.t, id) {
      return false;
    }
    var tx := db.t;
    var row := tx.inspections[id];
    if |damages| != 0 {
      row := row.(details := row.details + damages);
      tx := tx.(inspections := tx.inspections[id := row]);
      if row.orderId in tx.orders {
        tx := tx.(orders := tx.orders[row.orderId := tx.orders[row.orderId].(preStatus := Some(Claimed))]);
      }
    }
    if notes.Some? && |notes.value| != 0 {
      row := row.(notes := notes);
      tx := tx.(inspections := tx.inspections[id := row]);
    }
    assert row == DamagedRow(db.t.inspections[id], damages, notes);
    db.t := tx;
    return true;
  }

  lemma OneMoreClone(t: Tables, orderId: int, origin: Origins, ids: set<int>, k: int)
    requires Numbers(t, orderId, origin) && ids <= origin.Keys && k in origin
    ensures IsFreshClone(t, orderId, origin, k)
    ensures WithClones(t, orderId, origin, ids + {k})
      == WithClones(t, orderId, origin, ids)[k := CloneOf(t.inspections[origin[k]])]
  {
    assert IsFreshClone(t, orderId, origin, k);
  }

  // The clones go in one by one.
  method SaveClones(t: Tables, orderId: int, origin: Origins) returns (rows: map<int, Inspection>)
    requires Numbers(t, orderId, origin)
    ensures rows == WithClones(t, orderId, origin, origin.Keys)
  {
    rows := t.inspections;
    ghost var done := {};
    var rest := origin.Keys;
    assert rows == WithClones(t, orderId, origin, done);
    while rest != {}
      invariant rest <= origin.Keys && done == origin.Keys - rest
      invariant rows == WithClones(t, orderId, origin, done)
    {
      var k := AnyOf(rest);
      OneMoreClone(t, orderId, origin, done, k);
      rows := rows[k := CloneOf(t.inspections[origin[k]])];
      rest, done := rest - {k}, done + {k};
    }
    assert done == origin.Keys;
  }

  method ClonePickUpToDelivery(t: Tables, orderId: int, origin: Origins) returns (tx: Tables, ok: bool)
    ensures ok <==> CloneWorks(t, orderId, origin)
    ensures tx == if ok then Cloned(t, orderId, origin) else t
  {
    if HasDelivery(t, orderId) {
      return t, true;
    }
    if !Numbers(t, orderId, origin) || !NoDeliveryYet(t, orderId) {
      return t, false;
    }
    var rows := SaveClones(t, orderId, origin);
    return t.(inspections := rows), true;
  }

  method RequestInspectionSignature(db: Database, orderId: int, driverId: int, kind: InspectionType, origin: Origins,
    fault: int)
    returns (ok: bool)
    modifies db
    ensures (db.t, ok) == SignatureRequestedTables(old(db.t), orderId, driverId, kind, origin, fault)
  {
    if orderId !in db.t.orders || !OnActiveTrip(db.t, orderId, driverId) {
      return false;
    }
    var order := db.t.orders[orderId];
    if order.status != OnPickup && order.status != OnDelivery {
      return false;
    }
    var tx := db.t;
    if kind == Delivery {
      var cloned;
      tx, cloned := ClonePickUpToDelivery(tx, orderId, origin);
      if !cloned {
        return false;
      }
    }
    if |FinishedOf(tx, orderId, kind)| != |CarsOf(tx, orderId)| || fault == ORDER_WRITE {
      return false;
    }
    tx := tx.(orders := tx.orders[orderId := order.(status := SignatureRequested, preStatus := Some(order.status))]);
    if fault == INSPECTION_WRITE {
      return false;
    }
    tx := tx.(inspections := Marked(tx, orderId, kind, Requested));
    if fault == COMMIT {
      return false;
    }
    db.t := tx;
    return true;
  }

  // The charge is written at once; the two updates are the transaction.
  method SignInspection(db: Database, orderId: int, kind: InspectionType, signer: Signer, name: string,
    a: ChargeAnswer, fault: int) returns (ok: bool)
    modifies db
    ensures (db.t, ok) == SignedTables(old(db.t), orderId, kind, signer, name, a, fault)
  {
    if !MaySign(db.t, orderId, signer) {
      return false;
    }
    var order := db.t.orders[orderId];
    var next :=
      if kind == Pickup then PickedUp else if order.preStatus == Some(Declined) then Claimed else Delivered;
    if next == PickedUp && order.source == Internal && order.payment != PickupPaid && !order.paymentDelivery {
      var charged := ChargeOrder(db, orderId, CarPickup, a);
      if !charged {
        return false;
      }
    }
    var tx := db.t;
    if fault == ORDER_WRITE {
      return false;
    }
    tx := tx.(orders := tx.orders[orderId := tx.orders[orderId].(status := next, preStatus := None)]);
    if fault == INSPECTION_WRITE {
      return false;
    }
    tx := tx.(inspections := SignedRows(tx, orderId, kind, name));
    if fault == COMMIT {
      return false;
    }
    db.t := tx;
    return true;
  }

  method CreateDeliveryInspection(db: Database, orderId: int, accountId: int, origin: Origins, fault: int)
    returns (ok: bool)
    modifies db
    ensures (db.t, ok) == DeliveryCreated(old(db.t), orderId, accountId, origin, fault)
  {
    if orderId !in db.t.orders || db.t.orders[orderId].createdById != accountId {
      return false;
    }
    var order := db.t.orders[orderId];
    if order.status == SignatureRequested && |AllOf(db.t, orderId)| > |CarsOf(db.t, orderId)| {
      return true;
    }
    if order.status != OnDelivery && order.status != OnWayToDelivery && order.status != PickedUp {
      return false;
    }
    var tx := db.t;
    if OnTrip(db.t, orderId) {
      var cloned;
      tx, cloned := ClonePickUpToDelivery(tx, orderId, origin);
      if !cloned {
        return false;
      }
    }
    if fault == ORDER_WRITE {
      return false;
    }
    tx := tx.(orders := tx.orders[orderId := order.(status := SignatureRequested)]);
    if fault == INSPECTION_WRITE {
      return false;
    }
    tx := tx.(inspections := Marked(tx, orderId, Delivery, Requested));
    if fault == COMMIT {
      return false;
    }
    db.t := tx;
    return true;
  }
}
