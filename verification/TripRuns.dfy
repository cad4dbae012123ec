// The cached trip totals over whole runs: for every event of the lifecycle,
// exactly when it keeps them.
module TripRuns {
  import opened Prelude
  import opened Store
  import opened Payments
  import opened Lifecycle
  import opened Journey
  import opened TripProofs
  import Dispatching
  import Inspections
  import Orders
  import Trips

  // ------------------------------------------------------------------------
  // Events about trips

  lemma OpenKeepsBoard(t: Tables, tripId: int, trip: Trip)
    requires Board(t)
    ensures Board(Opened(t, tripId, trip))
  {
    var after := Opened(t, tripId, trip);
    forall k | k in after.trips
      ensures Exact(after, k)
    {
      OpenIsExact(t, tripId, trip, k);
    }
  }

  lemma OpenIsExact(t: Tables, tripId: int, trip: Trip, k: int)
    requires Board(t) && k in Opened(t, tripId, trip).trips
    ensures Exact(Opened(t, tripId, trip), k)
  {
    assert Worth(Opened(t, tripId, trip), k) == Worth(t, k);
    if k in t.trips {
      assert Exact(t, k);
    } else {
      UnknownTripIsEmpty(t, k);
    }
  }

  lemma UnknownTripIsEmpty(t: Tables, k: int)
    requires Linked(t) && k !in t.trips
    ensures Worth(t, k) == map[]
  {
    assert forall o :: !Trips.Rides(t.links, o, k);
  }

  // A trip row written without its total.
  lemma TripWriteKeepsBoard(t: Tables, after: Tables)
    requires Board(t) && after == t.(trips := after.trips) && after.trips.Keys == t.trips.Keys
    requires forall k :: k in t.trips ==> after.trips[k].totalPrice == t.trips[k].totalPrice
    ensures Board(after)
  {
    forall k | k in after.trips
      ensures Exact(after, k)
    {
      assert Exact(t, k) && Worth(after, k) == Worth(t, k);
    }
  }

  lemma ChangeKeepsBoard(t: Tables, tripId: int, status: TripStatus, driverId: Option<int>, dispatcherId: Option<int>)
    requires Board(t)
    ensures Board(Changed(t, tripId, status, driverId, dispatcherId))
  {
    TripWriteKeepsBoard(t, Changed(t, tripId, status, driverId, dispatcherId));
  }

  lemma CompletionKeepsBoard(t: Tables, tripId: int)
    requires Board(t)
    ensures Board(Trips.Completion(t, tripId))
  {
    TripWriteKeepsBoard(t, Trips.Completion(t, tripId));
  }

  // Every trip event but cancelling keeps the totals.
  lemma TripEventKeepsBoard(t: Tables, e: TripEvent)
    requires Board(t) && !e.CancelOrder?
    ensures Board(TripStep(t, e))
  {
    match e
    case OpenTrip(tripId, trip) => OpenKeepsBoard(t, tripId, trip);
    case ChangeTrip(tripId, status, driverId, dispatcherId) =>
      ChangeKeepsBoard(t, tripId, status, driverId, dispatcherId);
    case CompleteTrip(tripId) => CompletionKeepsBoard(t, tripId);
    case Assign(orderId, tripId, newLink, first, fault) => AssignKeepsBoard(t, orderId, tripId, newLink, first, fault);
    case RemoveFromTrip(orderIds, tripId, fault) => RemoveKeepsBoard(t, orderIds, tripId, fault);
    case DeleteOrder(orderId, first, fault) => DeleteKeepsBoard(t, orderId, first, fault);
    case Import(orderId, order, tripId, newLink, fault) => ImportKeepsBoard(t, orderId, order, tripId, newLink, fault);
  }

  ghost function TripRun(t: Tables, events: seq<TripEvent>): Tables {
    if events == [] then t else TripStep(TripRun(t, events[..|events| - 1]), events[|events| - 1])
  }

  // Over runs of assigning, removing, deleting, importing and the like, every
  // order has at most one link and every cached total is exact.
  lemma {:induction false} TripRunsKeepBoard(t: Tables, events: seq<TripEvent>)
    requires Board(t) && forall e :: e in events ==> !e.CancelOrder?
    ensures Board(TripRun(t, events))
  {
    if events != [] {
      TripRunsKeepBoard(t, events[..|events| - 1]);
      TripEventKeepsBoard(TripRun(t, events[..|events| - 1]), events[|events| - 1]);
    }
  }

  // ------------------------------------------------------------------------
  // Writes to one order

  // The order is on no trip, does not cross the two statuses that count for
  // nothing, or has a price that carries no weight on its trip.
  ghost predicate KeepsFare(t: Tables, after: Tables, orderId: int) {
    orderId in t.orders && orderId in after.orders && OnTrip(t, orderId) ==>
      SameFare(t.orders[orderId], after.orders[orderId]) || IsWeightless(t, orderId)
  }

  ghost predicate IsWeightless(t: Tables, orderId: int)
    requires orderId in t.orders
  {
    exists l :: l in t.links && t.links[l].orderId == orderId
      && Weightless(t.orders[orderId].salePrice, Others(t, orderId, l))
  }

  // A write to one row of the orders that keeps its price.
  ghost predicate OrderWrite(t: Tables, after: Tables, orderId: int) {
    && after.links == t.links && after.trips == t.trips
    && (after.orders == t.orders
        || (orderId in t.orders && orderId in after.orders
            && after.orders == t.orders[orderId := after.orders[orderId]]
            && after.orders[orderId].salePrice == t.orders[orderId].salePrice))
  }

  lemma OrderWriteKeepsBoardExactlyWhen(t: Tables, after: Tables, orderId: int)
    requires Board(t) && OrderWrite(t, after, orderId)
    ensures Board(after) <==> KeepsFare(t, after, orderId)
  {
    if after.orders == t.orders {
      UnchangedKeepsBoard(t, after);
    } else if OnTrip(t, orderId) {
      var l :| l in t.links && t.links[l].orderId == orderId;
      StatusWriteKeepsBoardExactlyWhen(t, after, orderId, l);
      assert forall k :: k in t.links && t.links[k].orderId == orderId ==> k == l;
    } else {
      StatusKeepsBoard(t, after, orderId);
    }
  }

  lemma UnchangedKeepsBoard(t: Tables, after: Tables)
    requires Board(t) && after.orders == t.orders && after.links == t.links && after.trips == t.trips
    ensures Board(after)
  {
    forall k | k in after.trips
      ensures Exact(after, k)
    {
      assert Exact(t, k);
    }
  }

  lemma OrderEventIsWrite(t: Tables, orderId: int, e: OrderEvent)
    requires !e.Place?
    ensures OrderWrite(t, OrderStep(t, orderId, e), orderId)
    ensures !e.CancelForClient? && !e.SetStatus? ==> KeepsFare(t, OrderStep(t, orderId, e), orderId)
  {
    match e
    case CancelRequest(companyId) =>
    case CancelForClient(fault) => ClientCancelIsWrite(t, orderId, fault);
    case Decline(driverId, fault) => DeclineIsWrite(t, orderId, driverId, fault);
    case MoveOrder(driverId, move) => MoveIsWrite(t, orderId, driverId, move);
    case SetStatus(status) =>
  }

  lemma ClientCancelIsWrite(t: Tables, orderId: int, fault: int)
    ensures OrderWrite(t, Orders.CanceledForClient(t, orderId, fault).0, orderId)
  {
  }

  lemma DeclineIsWrite(t: Tables, orderId: int, driverId: int, fault: int)
    ensures OrderWrite(t, Orders.DeclinedTables(t, orderId, driverId, fault).0, orderId)
    ensures KeepsFare(t, Orders.DeclinedTables(t, orderId, driverId, fault).0, orderId)
  {
  }

  lemma MoveIsWrite(t: Tables, orderId: int, driverId: int, move: Orders.Move)
    ensures OrderWrite(t, Orders.MovedTables(t, orderId, driverId, move), orderId)
    ensures KeepsFare(t, Orders.MovedTables(t, orderId, driverId, move), orderId)
  {
  }

  // Nothing depends on the order's price: it is on no trip, or weightless there.
  ghost predicate FareIsFree(t: Tables, orderId: int)
    requires orderId in t.orders
  {
    !OnTrip(t, orderId) || IsWeightless(t, orderId)
  }

  // The order counts before the event and not after it, or the other way round.
  predicate CrossesByOrderEvent(t: Tables, orderId: int, e: OrderEvent)
    requires orderId in t.orders
  {
    var status := t.orders[orderId].status;
    match e
    case SetStatus(next) => Orders.PlainStatus(next) && Trips.Counts(next) != Trips.Counts(status)
    case CancelForClient(fault) =>
      !Orders.UnderWay(status) && !(Orders.ORDER_WRITE <= fault <= Orders.COMMIT) && Trips.Counts(status)
    case _ => false
  }

  lemma OrderEventKeepsBoardExactlyWhen(t: Tables, orderId: int, e: OrderEvent)
    requires Board(t)
    ensures Board(OrderStep(t, orderId, e)) <==>
      (orderId in t.orders && CrossesByOrderEvent(t, orderId, e) ==> FareIsFree(t, orderId))
  {
    if e.Place? {
      if OrderStep(t, orderId, e) != t {
        NewOrderKeepsBoard(t, orderId, e.order);
      }
    } else {
      OrderEventIsWrite(t, orderId, e);
      OrderWriteKeepsBoardExactlyWhen(t, OrderStep(t, orderId, e), orderId);
      OrderEventKeepsFareExactlyWhen(t, orderId, e);
    }
  }

  lemma OrderEventKeepsFareExactlyWhen(t: Tables, orderId: int, e: OrderEvent)
    requires !e.Place?
    ensures KeepsFare(t, OrderStep(t, orderId, e), orderId) <==>
      (orderId in t.orders && CrossesByOrderEvent(t, orderId, e) ==> FareIsFree(t, orderId))
  {
    match e
    case SetStatus(status) =>
    case CancelForClient(fault) =>
    case _ => OrderEventIsWrite(t, orderId, e);
  }

  // ------------------------------------------------------------------------
  // Requests, charges and inspections

  lemma AcceptIsWrite(t: Tables, id: int, a: ChargeAnswer, fault: int)
    requires id in t.dispatches
    ensures OrderWrite(t, Dispatching.AcceptedTables(t, id, a, fault).0, t.dispatches[id].orderId)
  {
    if Dispatching.Acceptable(t, id) {
      var orderId := t.dispatches[id].orderId;
      var c := if Dispatching.FeeDue(t, id) then Charged(t, orderId, ServiceFee, a) else t;
      ChargeIsWrite(t, orderId, ServiceFee, a);
      AwardIsWrite(c, id);
      WritesCompose(t, c, Dispatching.Awarded(c, id), orderId);
    }
  }

  lemma AwardIsWrite(t: Tables, id: int)
    requires Dispatching.Acceptable(t, id)
    ensures OrderWrite(t, Dispatching.Awarded(t, id), t.dispatches[id].orderId)
  {
  }

  lemma WritesCompose(t: Tables, between: Tables, after: Tables, orderId: int)
    requires OrderWrite(t, between, orderId) && OrderWrite(between, after, orderId)
    ensures OrderWrite(t, after, orderId)
  {
  }

  // An accept that goes through for an order that does not count makes it count.
  predicate CrossesByAccept(t: Tables, id: int, a: ChargeAnswer, fault: int)
    requires Dispatching.Acceptable(t, id)
  {
    && (Dispatching.FeeDue(t, id) ==> fault != Dispatching.FEE_SETTINGS && Succeeds(a))
    && !(1 <= fault <= Dispatching.COMMIT)
    && !Trips.Counts(t.orders[t.dispatches[id].orderId].status)
  }

  ghost predicate AcceptSettles(t: Tables, id: int, a: ChargeAnswer, fault: int) {
    Dispatching.Acceptable(t, id) && CrossesByAccept(t, id, a, fault) ==> FareIsFree(t, t.dispatches[id].orderId)
  }

  lemma DispatchEventKeepsBoardExactlyWhen(t: Tables, id: int, e: DispatchEvent)
    requires Board(t)
    ensures Board(DispatchStep(t, id, e)) <==> (e.Accept? ==> AcceptSettles(t, id, e.answer, e.fault))
  {
    match e
    case Accept(a, fault) =>
      if id in t.dispatches {
        AcceptIsWrite(t, id, a, fault);
        OrderWriteKeepsBoardExactlyWhen(t, DispatchStep(t, id, e), t.dispatches[id].orderId);
        AcceptKeepsFareExactlyWhen(t, id, a, fault);
      }
    case _ =>
      RequestIsNoWrite(t, id, e);
      UnchangedKeepsBoard(t, DispatchStep(t, id, e));
  }

  lemma AcceptKeepsFareExactlyWhen(t: Tables, id: int, a: ChargeAnswer, fault: int)
    requires id in t.dispatches
    ensures KeepsFare(t, Dispatching.AcceptedTables(t, id, a, fault).0, t.dispatches[id].orderId)
      <==> AcceptSettles(t, id, a, fault)
  {
  }

  lemma RequestIsNoWrite(t: Tables, id: int, e: DispatchEvent)
    requires !e.Accept?
    ensures var after := DispatchStep(t, id, e);
      after.orders == t.orders && after.links == t.links && after.trips == t.trips
  {
  }

  lemma ChargeIsWrite(t: Tables, orderId: int, kind: ChargeKind, a: ChargeAnswer)
    requires orderId in t.orders
    ensures OrderWrite(t, Charged(t, orderId, kind, a), orderId) && KeepsFare(t, Charged(t, orderId, kind, a), orderId)
  {
  }

  lemma ChargeKeepsBoard(t: Tables, orderId: int, kind: ChargeKind, a: ChargeAnswer)
    requires Board(t) && orderId in t.orders
    ensures Board(Charged(t, orderId, kind, a))
  {
    ChargeIsWrite(t, orderId, kind, a);
    OrderWriteKeepsBoardExactlyWhen(t, Charged(t, orderId, kind, a), orderId);
  }

  lemma SignatureIsWrite(t: Tables, orderId: int, kind: InspectionType, name: string)
    requires orderId in t.orders && Trips.Counts(t.orders[orderId].status)
    ensures OrderWrite(t, Inspections.Signature(t, orderId, kind, name), orderId)
    ensures KeepsFare(t, Inspections.Signature(t, orderId, kind, name), orderId)
  {
  }

  lemma SignKeepsBoard(t: Tables, orderId: int, kind: InspectionType, signer: Inspections.Signer, name: string,
    a: ChargeAnswer, fault: int)
    requires Board(t)
    ensures Board(Inspections.SignedTables(t, orderId, kind, signer, name, a, fault).0)
  {
    if Inspections.MaySign(t, orderId, signer) {
      var c := Inspections.AfterCharge(t, orderId, kind, a);
      ChargeKeepsBoard(t, orderId, CarPickup, a);
      SignatureIsWrite(c, orderId, kind, name);
      OrderWriteKeepsBoardExactlyWhen(c, Inspections.Signature(c, orderId, kind, name), orderId);
    }
  }

  lemma InspectionEventIsWrite(t: Tables, e: InspectionEvent)
    requires !e.Sign?
    ensures OrderWrite(t, InspectionStep(t, e), OrderOf(t, e)) && KeepsFare(t, InspectionStep(t, e), OrderOf(t, e))
  {
    match e
    case Damage(id, damages, notes) => DamageIsWrite(t, id, damages, notes, OrderOf(t, e));
    case RequestSignature(orderId, driverId, kind, origin, fault) =>
      RequestSignatureIsWrite(t, orderId, driverId, kind, origin, fault);
    case CreateDelivery(orderId, accountId, origin, fault) => CreationIsWrite(t, orderId, accountId, origin, fault);
    case _ => OrdersStay(t, e);
  }

  lemma DamageIsWrite(t: Tables, id: int, damages: seq<string>, notes: Option<string>, orderId: int)
    requires id in t.inspections ==> t.inspections[id].orderId == orderId
    ensures var after := Inspections.Damaged(t, id, damages, notes);
      OrderWrite(t, after, orderId) && KeepsFare(t, after, orderId)
  {
  }

  lemma RequestSignatureIsWrite(t: Tables, orderId: int, driverId: int, kind: InspectionType,
    origin: Inspections.Origins, fault: int)
    ensures var after := Inspections.SignatureRequestedTables(t, orderId, driverId, kind, origin, fault).0;
      OrderWrite(t, after, orderId) && KeepsFare(t, after, orderId)
  {
  }

  lemma CreationIsWrite(t: Tables, orderId: int, accountId: int, origin: Inspections.Origins, fault: int)
    ensures var after := Inspections.DeliveryCreated(t, orderId, accountId, origin, fault).0;
      OrderWrite(t, after, orderId) && KeepsFare(t, after, orderId)
  {
  }

  lemma InspectionEventKeepsBoard(t: Tables, e: InspectionEvent)
    requires Board(t)
    ensures Board(InspectionStep(t, e))
  {
    match e
    case Sign(orderId, kind, signer, name, a, fault) => SignKeepsBoard(t, orderId, kind, signer, name, a, fault);
    case _ =>
      InspectionEventIsWrite(t, e);
      OrderWriteKeepsBoardExactlyWhen(t, InspectionStep(t, e), OrderOf(t, e));
  }

  // ------------------------------------------------------------------------
  // All events

  // What each event must meet in the tables before it to keep the totals.
  ghost predicate Settles(t: Tables, e: Event) {
    match e
    case ForTrip(CancelOrder(orderId, companyId, first, fault)) =>
      || CancelRefused(t, orderId, companyId, first, fault) || !OnTrip(t, orderId)
      || (!Trips.OwnTrip(t, orderId, first, companyId) && t.orders[orderId].source == Internal)
      || Weightless(t.orders[orderId].salePrice, Others(t, orderId, first))
    case ForOrder(orderId, order) =>
      orderId in t.orders && CrossesByOrderEvent(t, orderId, order) ==> FareIsFree(t, orderId)
    case ForDispatch(id, Accept(a, fault)) => AcceptSettles(t, id, a, fault)
    case _ => true
  }

  // For every event, what it must meet is exactly what keeps the totals right.
  lemma StepKeepsBoardExactlyWhen(t: Tables, e: Event)
    requires Board(t)
    ensures Board(Step(t, e)) <==> Settles(t, e)
  {
    match e
    case ForTrip(CancelOrder(orderId, companyId, first, fault)) =>
      CancelKeepsBoardExactlyWhen(t, orderId, companyId, first, fault);
    case ForTrip(trip) => TripEventKeepsBoard(t, trip);
    case ForOrder(orderId, order) => OrderEventKeepsBoardExactlyWhen(t, orderId, order);
    case ForDispatch(id, dispatch) => DispatchEventKeepsBoardExactlyWhen(t, id, dispatch);
    case ForInspection(inspection) => InspectionEventKeepsBoard(t, inspection);
    case RetryCharge(orderId, kind, billable, a) =>
      if orderId in t.orders {
        ChargeKeepsBoard(t, orderId, kind, a);
      }
  }

  ghost predicate AllSettle(events: seq<Event>) {
    events == [] || (AllSettle(events[..|events| - 1]) && Settles(Run(events[..|events| - 1]), events[|events| - 1]))
  }

  ghost predicate BoardThroughout(events: seq<Event>) {
    Board(Run(events)) && (events == [] || BoardThroughout(events[..|events| - 1]))
  }

  // So over a whole run links stay single and totals exact throughout exactly when
  // every event meets its condition.
  lemma {:induction false} TotalsAreExactExactlyWhen(events: seq<Event>)
    ensures BoardThroughout(events) <==> AllSettle(events)
  {
    if events == [] {
      assert Board(EMPTY);
    } else {
      TotalsAreExactExactlyWhen(events[..|events| - 1]);
      if BoardThroughout(events[..|events| - 1]) {
        StepKeepsBoardExactlyWhen(Run(events[..|events| - 1]), events[|events| - 1]);
      }
    }
  }

  lemma TotalsAreExact(events: seq<Event>)
    requires AllSettle(events)
    ensures Board(Run(events))
  {
    TotalsAreExactExactlyWhen(events);
  }

  // ------------------------------------------------------------------------
  // A run that breaks the totals: the trip's company cancels the order.

  const CANCELED := ForTrip(CancelOrder(1, 1, 1, 0))

  lemma BoardOneMore(events: seq<Event>, e: Event)
    requires Board(Run(events)) && Settles(Run(events), e)
    ensures Board(Run(events + [e]))
  {
    RunOneMore(events, e);
    StepKeepsBoardExactlyWhen(Run(events), e);
  }

  lemma TotalsOnTheWay()
    ensures Board(Run(TO_TRIP))
  {
    assert [] + [PLACED] == [PLACED];
    BoardOneMore([], PLACED);
    BoardOneMore([PLACED], CAR);
    BoardOneMore([PLACED] + [CAR], OPENED);
    BoardOneMore([PLACED] + [CAR] + [OPENED], ASSIGNED);
  }

  lemma CancelingDoesNotSettle(t: Tables)
    requires OnItsTrip(t, Dispatched)
    ensures !Settles(t, CANCELED)
  {
    assert t.links[1] == Link(1, 1);
    assert Others(t, 1, 1) == map[];
  }

  lemma CancelingBreaksTheTotals()
    ensures Board(Run(TO_TRIP)) && !Board(Run(TO_TRIP + [CANCELED]))
  {
    TotalsOnTheWay();
    OrderIsOnItsTrip();
    CancelingDoesNotSettle(Run(TO_TRIP));
    RunOneMore(TO_TRIP, CANCELED);
    StepKeepsBoardExactlyWhen(Run(TO_TRIP), CANCELED);
  }
}
