// The order lifecycle as a state machine: every operation of the modules before,
// with every answer of the gateway and every failing write, is one event.
module Lifecycle {
  import opened Prelude
  import opened Store
  import opened Payments
  import Dispatching
  import Orders
  import Trips
  import Inspections

  datatype OrderEvent =
    | Place(order: Order)
    | CancelRequest(companyId: int)
    | CancelForClient(orderFault: int)
    | Decline(driverId: int, declineFault: int)
    | MoveOrder(driver: int, move: Orders.Move)
    | SetStatus(status: OrderStatus)

  datatype DispatchEvent =
    | Ask(orderId: int, company: int, pickDate: int, deliveryDate: int)
    | Reschedule(companyId: int, newPickDate: int, newDeliveryDate: int)
    | Withdraw(owner: int)
    | Accept(answer: ChargeAnswer, fault: int)

  datatype TripEvent =
    | OpenTrip(tripId: int, trip: Trip)
    | ChangeTrip(changed: int, status: TripStatus, driverId: Option<int>, dispatcherId: Option<int>)
    | CompleteTrip(completed: int)
    | Assign(orderId: int, target: int, newLink: int, first: int, fault: int)
    | RemoveFromTrip(orderIds: set<int>, source: int, removeFault: int)
    | DeleteOrder(deleted: int, deletedFirst: int, deleteFault: int)
    | Import(importedId: int, imported: Order, onto: Option<int>, importLink: int, importFault: int)
    | CancelOrder(canceled: int, companyId: int, canceledFirst: int, cancelFault: int)

  datatype InspectionEvent =
    | AddCar(carId: int, orderId: int)
    | Inspect(id: int, kind: InspectionType, order: int, car: int, driverId: int,
        details: seq<string>, notes: Option<string>, onTrip: bool)
    | Edit(edited: int, editor: int, newKind: InspectionType, newOrder: int, newCar: int,
        newDetails: Option<seq<string>>, newNotes: Option<string>, editOnTrip: bool)
    | View(viewedOrder: int, viewed: int)
    | Damage(damaged: int, damages: seq<string>, remarks: Option<string>)
    | RequestSignature(requested: int, requester: int, requestedKind: InspectionType,
        origin: Inspections.Origins, requestFault: int)
    | Sign(signed: int, signedKind: InspectionType, signer: Inspections.Signer, name: string,
        answer: ChargeAnswer, signFault: int)
    | CreateDelivery(delivered: int, accountId: int, deliveryOrigin: Inspections.Origins, deliveryFault: int)

  // A retry round is the sequence of its single retries.
  datatype Event =
    | ForOrder(orderId: int, order: OrderEvent)
    | ForDispatch(id: int, dispatch: DispatchEvent)
    | ForTrip(trip: TripEvent)
    | ForInspection(inspection: InspectionEvent)
    | RetryCharge(charged: int, kind: ChargeKind, billable: bool, answer: ChargeAnswer)

  function OrderStep(t: Tables, orderId: int, e: OrderEvent): Tables {
    match e
    case Place(order) => Orders.Placed(t, orderId, order)
    case CancelRequest(companyId) => Orders.RequestCanceled(t, orderId, companyId)
    case CancelForClient(fault) => Orders.CanceledForClient(t, orderId, fault).0
    case Decline(driverId, fault) => Orders.DeclinedTables(t, orderId, driverId, fault).0
    case MoveOrder(driverId, move) => Orders.MovedTables(t, orderId, driverId, move)
    case SetStatus(status) => Orders.StatusSet(t, orderId, status)
  }

  function DispatchStep(t: Tables, id: int, e: DispatchEvent): Tables {
    match e
    case Ask(orderId, companyId, pickDate, deliveryDate) =>
      Dispatching.Created(t, id, orderId, companyId, pickDate, deliveryDate)
    case Reschedule(companyId, pickDate, deliveryDate) =>
      Dispatching.Rescheduled(t, id, companyId, pickDate, deliveryDate)
    case Withdraw(companyId) => Dispatching.Withdrawn(t, id, companyId)
    case Accept(a, fault) => Dispatching.AcceptedTables(t, id, a, fault).0
  }

  // Trips are opened without orders; their status and people change freely.
  function Opened(t: Tables, tripId: int, trip: Trip): Tables {
    if tripId in t.trips || trip.totalPrice != ZERO then t else t.(trips := t.trips[tripId := trip])
  }

  function Changed(t: Tables, tripId: int, status: TripStatus, driverId: Option<int>,
    dispatcherId: Option<int>): Tables {
    if tripId !in t.trips then t
    else t.(trips := t.trips[tripId :=
      t.trips[tripId].(status := status, driverId := driverId, dispatcherId := dispatcherId)])
  }

  ghost function TripStep(t: Tables, e: TripEvent): Tables {
    match e
    case OpenTrip(tripId, trip) => Opened(t, tripId, trip)
    case ChangeTrip(tripId, status, driverId, dispatcherId) => Changed(t, tripId, status, driverId, dispatcherId)
    case CompleteTrip(tripId) => Trips.Completion(t, tripId)
    case Assign(orderId, tripId, newLink, first, fault) => Trips.Assigned(t, orderId, tripId, newLink, first, fault).0
    case RemoveFromTrip(orderIds, tripId, fault) => Trips.RemovedFromTrip(t, orderIds, tripId, fault).0
    case DeleteOrder(orderId, first, fault) => Trips.DeletedOrder(t, orderId, first, fault).0
    case Import(orderId, order, tripId, newLink, fault) => Trips.Imported(t, orderId, order, tripId, newLink, fault).0
    case CancelOrder(orderId, companyId, first, fault) => Trips.CanceledTables(t, orderId, companyId, first, fault).0
  }

  function CarAdded(t: Tables, carId: int, orderId: int): Tables {
    if carId in t.cars || orderId !in t.orders then t else t.(cars := t.cars[carId := orderId])
  }

  function InspectionStep(t: Tables, e: InspectionEvent): Tables {
    match e
    case AddCar(carId, orderId) => CarAdded(t, carId, orderId)
    case Inspect(id, kind, orderId, carId, driverId, details, notes, onTrip) =>
      Inspections.Inspected(t, id, kind, orderId, carId, driverId, details, notes, onTrip)
    case Edit(id, driverId, kind, orderId, carId, details, notes, onTrip) =>
      Inspections.Edited(t, id, driverId, kind, orderId, carId, details, notes, onTrip)
    case View(orderId, id) => Inspections.ViewedTables(t, orderId, id)
    case Damage(id, damages, notes) => Inspections.Damaged(t, id, damages, notes)
    case RequestSignature(orderId, driverId, kind, origin, fault) =>
      Inspections.SignatureRequestedTables(t, orderId, driverId, kind, origin, fault).0
    case Sign(orderId, kind, signer, name, a, fault) =>
      Inspections.SignedTables(t, orderId, kind, signer, name, a, fault).0
    case CreateDelivery(orderId, accountId, origin, fault) =>
      Inspections.DeliveryCreated(t, orderId, accountId, origin, fault).0
  }

  ghost function Step(t: Tables, e: Event): Tables {
    match e
    case ForOrder(orderId, order) => OrderStep(t, orderId, order)
    case ForDispatch(id, dispatch) => DispatchStep(t, id, dispatch)
    case ForTrip(trip) => TripStep(t, trip)
    case ForInspection(inspection) => InspectionStep(t, inspection)
    case RetryCharge(orderId, kind, billable, a) => Retry(t, orderId, kind, billable, a)
  }

  // The tables after a run from the empty database, in any order of events.
  ghost function Run(events: seq<Event>): Tables {
    if events == [] then EMPTY else Step(Run(events[..|events| - 1]), events[|events| - 1])
  }

  lemma RunOneMore(events: seq<Event>, e: Event)
    ensures Run(events + [e]) == Step(Run(events), e)
  {
    assert (events + [e])[..|events + [e]| - 1] == events;
  }

  // ------------------------------------------------------------------------
  // What the events that charge nobody and award nothing do to an order.

  // The way to the delivery can only be entered by signing the pickup.
  predicate InTransit(status: OrderStatus) {
    status == PickedUp || status == OnWayToDelivery || status == OnDelivery
  }

  predicate QuietChange(a: Order, b: Order) {
    && b.payment == a.payment
    && (b.companyId == a.companyId || b.companyId == None)
    && b.source == a.source && b.paymentDelivery == a.paymentDelivery && b.salePrice == a.salePrice
    && (InTransit(b.status) ==> InTransit(a.status))
  }

  ghost predicate Quiet(t: Tables, after: Tables) {
    && after.gateway == t.gateway
    && (forall o :: o in t.orders ==> o in after.orders && QuietChange(t.orders[o], after.orders[o]))
    && (forall o :: o in after.orders && o !in t.orders ==> Orders.IsNew(after.orders[o]))
  }

  ghost predicate KeepsPreStatus(t: Tables, after: Tables) {
    forall o :: o in t.orders ==> o in after.orders && after.orders[o].preStatus == t.orders[o].preStatus
  }

  // Requests may go, but none comes or changes.
  ghost predicate DropsRequests(t: Tables, after: Tables) {
    forall d :: d in after.dispatches ==> d in t.dispatches && after.dispatches[d] == t.dispatches[d]
  }

  // An operation on at most one order.
  predicate OnOneOrder(t: Tables, after: Tables, orderId: int) {
    && after.gateway == t.gateway
    && (after.orders == t.orders
        || (orderId in after.orders && after.orders == t.orders[orderId := after.orders[orderId]]
            && (if orderId in t.orders then QuietChange(t.orders[orderId], after.orders[orderId])
                else Orders.IsNew(after.orders[orderId]))))
  }

  predicate PreStatusStays(t: Tables, after: Tables, orderId: int) {
    orderId in t.orders ==> orderId in after.orders && after.orders[orderId].preStatus == t.orders[orderId].preStatus
  }

  lemma OneOrderIsQuiet(t: Tables, after: Tables, orderId: int)
    requires OnOneOrder(t, after, orderId)
    ensures Quiet(t, after)
    ensures PreStatusStays(t, after, orderId) ==> KeepsPreStatus(t, after)
  {
  }

  lemma OrderEventsAreQuiet(t: Tables, orderId: int, e: OrderEvent)
    ensures Quiet(t, OrderStep(t, orderId, e)) && KeepsPreStatus(t, OrderStep(t, orderId, e))
    ensures DropsRequests(t, OrderStep(t, orderId, e))
  {
    OrderEventIsOnOneOrder(t, orderId, e);
    OneOrderIsQuiet(t, OrderStep(t, orderId, e), orderId);
  }

  lemma OrderEventIsOnOneOrder(t: Tables, orderId: int, e: OrderEvent)
    ensures var after := OrderStep(t, orderId, e);
      OnOneOrder(t, after, orderId) && PreStatusStays(t, after, orderId) && DropsRequests(t, after)
  {
    match e
    case Place(order) =>
    case CancelRequest(companyId) =>
    case CancelForClient(fault) => ClientCancelIsOnOneOrder(t, orderId, fault);
    case Decline(driverId, fault) => DeclineIsOnOneOrder(t, orderId, driverId, fault);
    case MoveOrder(driverId, move) => MoveIsOnOneOrder(t, orderId, driverId, move);
    case SetStatus(status) =>
  }

  lemma ClientCancelIsOnOneOrder(t: Tables, orderId: int, fault: int)
    ensures var after := Orders.CanceledForClient(t, orderId, fault).0;
      OnOneOrder(t, after, orderId) && PreStatusStays(t, after, orderId) && after.dispatches == t.dispatches
  {
  }

  lemma DeclineIsOnOneOrder(t: Tables, orderId: int, driverId: int, fault: int)
    ensures var after := Orders.DeclinedTables(t, orderId, driverId, fault).0;
      OnOneOrder(t, after, orderId) && PreStatusStays(t, after, orderId) && after.dispatches == t.dispatches
  {
  }

  lemma MoveIsOnOneOrder(t: Tables, orderId: int, driverId: int, move: Orders.Move)
    ensures var after := Orders.MovedTables(t, orderId, driverId, move);
      OnOneOrder(t, after, orderId) && PreStatusStays(t, after, orderId) && after.dispatches == t.dispatches
  {
  }

  lemma RequestsAreQuiet(t: Tables, id: int, e: DispatchEvent)
    requires !e.Accept?
    ensures DispatchStep(t, id, e).orders == t.orders && DispatchStep(t, id, e).gateway == t.gateway
    ensures DispatchStep(t, id, e).inspections == t.inspections && DispatchStep(t, id, e).cars == t.cars
  {
  }

  // ------------------------------------------------------------------------
  // Trip events

  lemma {:induction false} RecalculationIsQuiet(t: Tables, ids: seq<int>)
    ensures Trips.RecalculatedAll(t, ids) == t.(trips := Trips.RecalculatedAll(t, ids).trips)
    decreases |ids|
  {
    if ids != [] {
      RecalculationIsQuiet(t, ids[..|ids| - 1]);
    }
  }

  // The order a trip event is about; any number when it is about none.
  function Subject(e: TripEvent): int {
    match e
    case Assign(orderId, _, _, _, _) => orderId
    case DeleteOrder(orderId, _, _) => orderId
    case Import(orderId, _, _, _, _) => orderId
    case CancelOrder(orderId, _, _, _) => orderId
    case _ => 0
  }

  ghost predicate TripQuiet(t: Tables, after: Tables, orderId: int) {
    && OnOneOrder(t, after, orderId) && PreStatusStays(t, after, orderId) && DropsRequests(t, after)
    && after.inspections == t.inspections && after.cars == t.cars
  }

  lemma AssignIsQuiet(t: Tables, orderId: int, tripId: int, newLink: int, first: int, fault: int)
    ensures TripQuiet(t, Trips.Assigned(t, orderId, tripId, newLink, first, fault).0, orderId)
  {
    if Trips.Assigned(t, orderId, tripId, newLink, first, fault).1 {
      RecalculationIsQuiet(t.(orders := t.orders[orderId := Trips.Reassigned(t.orders[orderId], t.trips[tripId])],
        links := Trips.Relinked(t, orderId, tripId, newLink, first)), Trips.TripsToUpdate(t, orderId, tripId, first));
    }
  }

  lemma DeleteIsQuiet(t: Tables, orderId: int, first: int, fault: int)
    ensures TripQuiet(t, Trips.DeletedOrder(t, orderId, first, fault).0, orderId)
  {
    var after := Trips.DeletedOrder(t, orderId, first, fault).0;
    assert after == t.(orders := after.orders, links := after.links, trips := after.trips);
  }

  lemma ImportIsQuiet(t: Tables, orderId: int, order: Order, tripId: Option<int>, newLink: int, fault: int)
    ensures TripQuiet(t, Trips.Imported(t, orderId, order, tripId, newLink, fault).0, orderId)
  {
  }

  lemma CancelWritesAreQuiet(t: Tables, before: Tables, orderId: int, links: map<int, Link>)
    requires orderId in t.orders && before == t.(trips := before.trips)
    ensures TripQuiet(t, Trips.CancelWrites(before, orderId, links), orderId)
  {
  }

  lemma CancelIsQuiet(t: Tables, orderId: int, companyId: int, first: int, fault: int)
    ensures TripQuiet(t, Trips.CanceledTables(t, orderId, companyId, first, fault).0, orderId)
  {
    var after := Trips.CanceledTables(t, orderId, companyId, first, fault).0;
    if after.orders != t.orders {
      var own := Trips.OwnTrip(t, orderId, first, companyId);
      var before := if own then Trips.Recalculated(t, t.links[first].tripId) else t;
      CancelWritesAreQuiet(t, before, orderId, after.links);
    }
  }

  lemma TripsOnly(t: Tables, e: TripEvent)
    requires e.OpenTrip? || e.ChangeTrip? || e.CompleteTrip? || e.RemoveFromTrip?
    ensures TripStep(t, e) == t.(trips := TripStep(t, e).trips, links := TripStep(t, e).links)
  {
  }

  lemma TripEventIsQuiet(t: Tables, e: TripEvent)
    ensures TripQuiet(t, TripStep(t, e), Subject(e))
  {
    match e
    case Assign(orderId, tripId, newLink, first, fault) => AssignIsQuiet(t, orderId, tripId, newLink, first, fault);
    case DeleteOrder(orderId, first, fault) => DeleteIsQuiet(t, orderId, first, fault);
    case Import(orderId, order, tripId, newLink, fault) => ImportIsQuiet(t, orderId, order, tripId, newLink, fault);
    case CancelOrder(orderId, companyId, first, fault) => CancelIsQuiet(t, orderId, companyId, first, fault);
    case _ => TripsOnly(t, e);
  }

  lemma TripEventsAreQuiet(t: Tables, e: TripEvent)
    ensures Quiet(t, TripStep(t, e)) && KeepsPreStatus(t, TripStep(t, e)) && DropsRequests(t, TripStep(t, e))
    ensures TripStep(t, e).inspections == t.inspections && TripStep(t, e).cars == t.cars
  {
    TripEventIsQuiet(t, e);
    OneOrderIsQuiet(t, TripStep(t, e), Subject(e));
  }

  // ------------------------------------------------------------------------
  // Inspection events other than signing

  function OrderOf(t: Tables, e: InspectionEvent): int {
    match e
    case Damage(id, _, _) => if id in t.inspections then t.inspections[id].orderId else 0
    case RequestSignature(orderId, _, _, _, _) => orderId
    case CreateDelivery(orderId, _, _, _) => orderId
    case _ => 0
  }

  predicate InspectionQuiet(t: Tables, after: Tables, orderId: int) {
    OnOneOrder(t, after, orderId) && after.dispatches == t.dispatches
  }

  lemma DamageIsQuiet(t: Tables, id: int, damages: seq<string>, notes: Option<string>)
    ensures var orderId := if id in t.inspections then t.inspections[id].orderId else 0;
      InspectionQuiet(t, Inspections.Damaged(t, id, damages, notes), orderId)
  {
  }

  lemma SignatureRequestIsQuiet(t: Tables, orderId: int, driverId: int, kind: InspectionType,
    origin: Inspections.Origins, fault: int)
    ensures var after := Inspections.SignatureRequestedTables(t, orderId, driverId, kind, origin, fault).0;
      InspectionQuiet(t, after, orderId)
  {
  }

  lemma DeliveryCreationIsQuiet(t: Tables, orderId: int, accountId: int, origin: Inspections.Origins, fault: int)
    ensures InspectionQuiet(t, Inspections.DeliveryCreated(t, orderId, accountId, origin, fault).0, orderId)
    ensures PreStatusStays(t, Inspections.DeliveryCreated(t, orderId, accountId, origin, fault).0, orderId)
  {
  }

  lemma OrdersStay(t: Tables, e: InspectionEvent)
    requires e.AddCar? || e.Inspect? || e.Edit? || e.View?
    ensures InspectionStep(t, e)
      == t.(inspections := InspectionStep(t, e).inspections, cars := InspectionStep(t, e).cars)
  {
  }

  lemma InspectionEventIsQuiet(t: Tables, e: InspectionEvent)
    requires !e.Sign?
    ensures InspectionQuiet(t, InspectionStep(t, e), OrderOf(t, e))
    ensures !e.Damage? && !e.RequestSignature? ==> PreStatusStays(t, InspectionStep(t, e), OrderOf(t, e))
  {
    match e
    case Damage(id, damages, notes) => DamageIsQuiet(t, id, damages, notes);
    case RequestSignature(orderId, driverId, kind, origin, fault) =>
      SignatureRequestIsQuiet(t, orderId, driverId, kind, origin, fault);
    case CreateDelivery(orderId, accountId, origin, fault) =>
      DeliveryCreationIsQuiet(t, orderId, accountId, origin, fault);
    case _ => OrdersStay(t, e);
  }

  lemma InspectionEventsAreQuiet(t: Tables, e: InspectionEvent)
    requires !e.Sign?
    ensures Quiet(t, InspectionStep(t, e)) && InspectionStep(t, e).dispatches == t.dispatches
    ensures !e.Damage? && !e.RequestSignature? ==> KeepsPreStatus(t, InspectionStep(t, e))
  {
    InspectionEventIsQuiet(t, e);
    OneOrderIsQuiet(t, InspectionStep(t, e), OrderOf(t, e));
  }
}
