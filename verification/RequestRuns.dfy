// The carriers' requests and the client's cancelling over whole runs: how long a
// company is kept from asking again, and how long a canceled order stays so.
module RequestRuns {
  import opened Prelude
  import opened Store
  import opened Payments
  import opened Dispatching
  import opened Lifecycle
  import Inspections
  import Orders
  import TripProofs
  import Trips

  // The tables after further events.
  ghost function RunFrom(t: Tables, events: seq<Event>): Tables {
    if events == [] then t else Step(RunFrom(t, events[..|events| - 1]), events[|events| - 1])
  }

  // ------------------------------------------------------------------------
  // Requests

  // A request that is no longer open is never opened again.
  lemma ClosedStaysClosed(t: Tables, e: Event, d: int)
    requires d in t.dispatches && t.dispatches[d].status != New
    ensures d in Step(t, e).dispatches ==> Step(t, e).dispatches[d].status != New
  {
    match e
    case ForOrder(orderId, order) => OrderEventsAreQuiet(t, orderId, order);
    case ForDispatch(id, dispatch) => DispatchReopensNone(t, id, dispatch, d);
    case ForTrip(trip) => TripEventsAreQuiet(t, trip);
    case ForInspection(inspection) => InspectionsLeaveRequests(t, inspection);
    case RetryCharge(orderId, kind, billable, a) =>
  }

  lemma DispatchReopensNone(t: Tables, id: int, e: DispatchEvent, d: int)
    requires d in t.dispatches && t.dispatches[d].status != New
    ensures d in DispatchStep(t, id, e).dispatches ==> DispatchStep(t, id, e).dispatches[d].status != New
  {
    match e
    case Accept(a, fault) =>
    case _ =>
  }

  lemma InspectionsLeaveRequests(t: Tables, e: InspectionEvent)
    ensures InspectionStep(t, e).dispatches == t.dispatches
  {
    match e
    case Sign(_, _, _, _, _, _) =>
    case _ => InspectionEventsAreQuiet(t, e);
  }

  // What loses a company's request for an order: the company cancels its requests,
  // or the order is canceled by a carrier and the call is not refused.
  predicate LosesRequest(t: Tables, e: Event, orderId: int, companyId: int) {
    match e
    case ForOrder(id, CancelRequest(company)) => id == orderId && company == companyId && orderId in t.orders
    case ForTrip(CancelOrder(id, company, first, fault)) =>
      id == orderId && !TripProofs.CancelRefused(t, id, company, first, fault)
    case _ => false
  }

  // Every request stays, with its order and its company.
  ghost predicate KeepsRequests(t: Tables, after: Tables) {
    forall d :: d in t.dispatches ==>
      && d in after.dispatches && after.dispatches[d].orderId == t.dispatches[d].orderId
      && after.dispatches[d].companyId == t.dispatches[d].companyId
  }

  lemma KeptRequestIsThere(t: Tables, after: Tables, orderId: int, companyId: int)
    requires HasRequest(t, orderId, companyId) && KeepsRequests(t, after)
    ensures HasRequest(after, orderId, companyId)
  {
    var d :| d in t.dispatches && t.dispatches[d].orderId == orderId && t.dispatches[d].companyId == companyId;
    assert d in after.dispatches;
  }

  lemma DispatchKeepsRequests(t: Tables, id: int, e: DispatchEvent)
    ensures KeepsRequests(t, DispatchStep(t, id, e))
  {
    match e
    case Accept(a, fault) => AcceptKeepsRequests(t, id, a, fault);
    case _ =>
  }

  lemma AcceptKeepsRequests(t: Tables, id: int, a: ChargeAnswer, fault: int)
    ensures KeepsRequests(t, AcceptedTables(t, id, a, fault).0)
  {
    var after := AcceptedTables(t, id, a, fault).0;
    assert after.dispatches == t.dispatches || after.dispatches == Awarded(t, id).dispatches;
  }

  // The trip events other than cancelling leave the requests alone.
  lemma TripsLeaveRequests(t: Tables, e: TripEvent)
    requires !e.CancelOrder?
    ensures TripStep(t, e).dispatches == t.dispatches
  {
    match e
    case Assign(orderId, target, newLink, first, fault) =>
      if Trips.Assigned(t, orderId, target, newLink, first, fault).1 {
        RecalculationIsQuiet(TripProofs.AssignWrites(t, orderId, target, newLink, first),
          Trips.TripsToUpdate(t, orderId, target, first));
      }
    case _ =>
  }

  lemma CancelOrderLoses(t: Tables, canceled: int, company: int, first: int, fault: int, orderId: int, companyId: int)
    requires HasRequest(t, orderId, companyId)
    ensures HasRequest(Trips.CanceledTables(t, canceled, company, first, fault).0, orderId, companyId)
      <==> !(canceled == orderId && !TripProofs.CancelRefused(t, canceled, company, first, fault))
  {
    var after := Trips.CanceledTables(t, canceled, company, first, fault).0;
    var d :| d in t.dispatches && t.dispatches[d].orderId == orderId && t.dispatches[d].companyId == companyId;
    if TripProofs.CancelRefused(t, canceled, company, first, fault) || canceled != orderId {
      assert d in after.dispatches && after.dispatches[d] == t.dispatches[d];
    }
  }

  lemma CancelRequestLoses(t: Tables, id: int, company: int, orderId: int, companyId: int)
    requires HasRequest(t, orderId, companyId)
    ensures HasRequest(Orders.RequestCanceled(t, id, company), orderId, companyId)
      <==> !(id == orderId && company == companyId && orderId in t.orders)
  {
    var after := Orders.RequestCanceled(t, id, company);
    var d :| d in t.dispatches && t.dispatches[d].orderId == orderId && t.dispatches[d].companyId == companyId;
    if id != orderId || company != companyId || orderId !in t.orders {
      assert d in after.dispatches && after.dispatches[d] == t.dispatches[d];
    }
  }

  lemma OrderEventKeepsRequests(t: Tables, orderId: int, e: OrderEvent)
    requires !e.CancelRequest?
    ensures OrderStep(t, orderId, e).dispatches == t.dispatches
  {
  }

  // Whatever became of it, a company's request for an order stays through every
  // event but these two.
  lemma RequestIsLostExactlyWhen(t: Tables, e: Event, orderId: int, companyId: int)
    requires HasRequest(t, orderId, companyId)
    ensures !HasRequest(Step(t, e), orderId, companyId) <==> LosesRequest(t, e, orderId, companyId)
  {
    match e
    case ForOrder(id, CancelRequest(company)) => CancelRequestLoses(t, id, company, orderId, companyId);
    case ForOrder(id, order) =>
      OrderEventKeepsRequests(t, id, order);
      KeptRequestIsThere(t, Step(t, e), orderId, companyId);
    case ForDispatch(id, dispatch) =>
      DispatchKeepsRequests(t, id, dispatch);
      KeptRequestIsThere(t, Step(t, e), orderId, companyId);
    case ForTrip(CancelOrder(id, company, first, fault)) =>
      CancelOrderLoses(t, id, company, first, fault, orderId, companyId);
    case ForTrip(trip) =>
      TripsLeaveRequests(t, trip);
      KeptRequestIsThere(t, Step(t, e), orderId, companyId);
    case ForInspection(inspection) =>
      InspectionsLeaveRequests(t, inspection);
      KeptRequestIsThere(t, Step(t, e), orderId, companyId);
    case RetryCharge(_, _, _, _) => KeptRequestIsThere(t, Step(t, e), orderId, companyId);
  }

  // The company's next request is turned down after every one of the events.
  ghost predicate KeptFromAsking(t: Tables, events: seq<Event>, orderId: int, companyId: int) {
    && HasRequest(RunFrom(t, events), orderId, companyId)
    && (events == [] || KeptFromAsking(t, events[..|events| - 1], orderId, companyId))
  }

  ghost predicate NoneLosesRequest(t: Tables, events: seq<Event>, orderId: int, companyId: int) {
    events == []
    || (NoneLosesRequest(t, events[..|events| - 1], orderId, companyId)
        && !LosesRequest(RunFrom(t, events[..|events| - 1]), events[|events| - 1], orderId, companyId))
  }

  // So from a request on, its company is kept from asking for the order again
  // throughout exactly as long as neither of the two happens.
  lemma {:induction false} KeptFromAskingExactlyWhen(t: Tables, events: seq<Event>, orderId: int, companyId: int)
    requires HasRequest(t, orderId, companyId)
    ensures KeptFromAsking(t, events, orderId, companyId) <==> NoneLosesRequest(t, events, orderId, companyId)
  {
    if events != [] {
      var front := events[..|events| - 1];
      KeptFromAskingExactlyWhen(t, front, orderId, companyId);
      if KeptFromAsking(t, front, orderId, companyId) {
        RequestIsLostExactlyWhen(RunFrom(t, front), events[|events| - 1], orderId, companyId);
      }
    }
  }

  // Withdrawing, cancelling the request and asking again gives an open request.
  lemma WithdrawnCompanyCanAskAgain(t: Tables, id: int, companyId: int, newId: int, pickDate: int, deliveryDate: int)
    requires OpenRequest(t, id, companyId) && t.dispatches[id].orderId in t.orders && newId !in t.dispatches
    ensures var orderId := t.dispatches[id].orderId;
      var removed := Orders.RequestCanceled(Withdrawn(t, id, companyId), orderId, companyId);
      Acceptable(Created(removed, newId, orderId, companyId, pickDate, deliveryDate), newId)
  {
  }

  // ------------------------------------------------------------------------
  // Canceled orders

  // The order is there, and canceled.
  predicate IsCanceled(t: Tables, orderId: int) {
    orderId in t.orders && t.orders[orderId].status == Canceled
  }

  ghost predicate HasOpenRequest(t: Tables, orderId: int) {
    exists d :: d in t.dispatches && t.dispatches[d].orderId == orderId && t.dispatches[d].status == New
  }

  // The client's cancelling leaves the requests for the order open, so some accept
  // would dispatch it again, exactly unless none of them is open.
  lemma CanceledOrderIsSafeExactlyWhen(t: Tables, orderId: int, fault: int)
    requires Orders.CanceledForClient(t, orderId, fault).1
    ensures var canceled := Orders.CanceledForClient(t, orderId, fault).0;
      (forall id, a, acceptFault :: IsCanceled(AcceptedTables(canceled, id, a, acceptFault).0, orderId))
      <==> !HasOpenRequest(t, orderId)
  {
    var canceled := Orders.CanceledForClient(t, orderId, fault).0;
    if HasOpenRequest(t, orderId) {
      var d :| d in t.dispatches && t.dispatches[d].orderId == orderId && t.dispatches[d].status == New;
      var fine := ChargeAnswer(true, true, true, true);
      AcceptSucceedsExactlyWhen(canceled, d, fine, COMMIT + 1);
      AcceptIsExclusive(canceled, d, fine, COMMIT + 1, d);
      assert !IsCanceled(AcceptedTables(canceled, d, fine, COMMIT + 1).0, orderId);
    } else {
      forall id, a, acceptFault
        ensures IsCanceled(AcceptedTables(canceled, id, a, acceptFault).0, orderId)
      {
        AcceptLeavesOtherOrders(canceled, id, a, acceptFault, orderId);
      }
    }
  }

  // What takes an order out of Canceled: a plain status write, or the accept of an
  // open request of it with a due fee paid and recorded and no failing call.
  predicate Reopens(t: Tables, e: Event, orderId: int) {
    match e
    case ForOrder(id, SetStatus(status)) => id == orderId && Orders.PlainStatus(status)
    case ForDispatch(id, Accept(a, fault)) =>
      && Acceptable(t, id) && t.dispatches[id].orderId == orderId
      && (FeeDue(t, id) ==> fault != FEE_SETTINGS && Succeeds(a)) && !(1 <= fault <= COMMIT)
    case _ => false
  }

  lemma CanceledThroughOrderEvent(t: Tables, id: int, e: OrderEvent, orderId: int)
    requires IsCanceled(t, orderId)
    ensures IsCanceled(OrderStep(t, id, e), orderId) <==> !Reopens(t, ForOrder(id, e), orderId)
  {
    match e
    case Place(_) =>
    case CancelRequest(_) =>
    case CancelForClient(fault) => CanceledThroughClientCancel(t, id, fault, orderId);
    case Decline(driverId, fault) => CanceledThroughDecline(t, id, driverId, fault, orderId);
    case MoveOrder(driverId, move) => CanceledThroughMove(t, id, driverId, move, orderId);
    case SetStatus(_) =>
  }

  lemma CanceledThroughClientCancel(t: Tables, id: int, fault: int, orderId: int)
    requires IsCanceled(t, orderId)
    ensures IsCanceled(Orders.CanceledForClient(t, id, fault).0, orderId)
  {
  }

  lemma CanceledThroughDecline(t: Tables, id: int, driverId: int, fault: int, orderId: int)
    requires IsCanceled(t, orderId)
    ensures IsCanceled(Orders.DeclinedTables(t, id, driverId, fault).0, orderId)
  {
  }

  lemma CanceledThroughMove(t: Tables, id: int, driverId: int, move: Orders.Move, orderId: int)
    requires IsCanceled(t, orderId)
    ensures IsCanceled(Orders.MovedTables(t, id, driverId, move), orderId)
  {
  }

  lemma CanceledThroughAccept(t: Tables, id: int, a: ChargeAnswer, fault: int, orderId: int)
    requires IsCanceled(t, orderId)
    ensures IsCanceled(AcceptedTables(t, id, a, fault).0, orderId)
      <==> !Reopens(t, ForDispatch(id, Accept(a, fault)), orderId)
  {
    if Acceptable(t, id) && t.dispatches[id].orderId == orderId {
      AcceptSucceedsExactlyWhen(t, id, a, fault);
      if AcceptedTables(t, id, a, fault).1 {
        AcceptIsExclusive(t, id, a, fault, id);
      } else {
        FailedAcceptLeavesOnlyThePayment(t, id, a, fault, orderId);
      }
    } else {
      AcceptLeavesOtherOrders(t, id, a, fault, orderId);
    }
  }

  lemma CanceledThroughAssign(t: Tables, id: int, target: int, newLink: int, first: int, fault: int, orderId: int)
    requires IsCanceled(t, orderId)
    ensures IsCanceled(Trips.Assigned(t, id, target, newLink, first, fault).0, orderId)
  {
    if Trips.Assigned(t, id, target, newLink, first, fault).1 {
      var raw := TripProofs.AssignWrites(t, id, target, newLink, first);
      RecalculationIsQuiet(raw, Trips.TripsToUpdate(t, id, target, first));
      assert IsCanceled(raw, orderId);
    }
  }

  lemma CanceledThroughDelete(t: Tables, id: int, first: int, fault: int, orderId: int)
    requires IsCanceled(t, orderId)
    ensures IsCanceled(Trips.DeletedOrder(t, id, first, fault).0, orderId)
  {
  }

  lemma CanceledThroughImport(t: Tables, id: int, order: Order, onto: Option<int>, newLink: int, fault: int,
    orderId: int)
    requires IsCanceled(t, orderId)
    ensures IsCanceled(Trips.Imported(t, id, order, onto, newLink, fault).0, orderId)
  {
  }

  lemma CanceledThroughCancel(t: Tables, id: int, company: int, first: int, fault: int, orderId: int)
    requires IsCanceled(t, orderId)
    ensures IsCanceled(Trips.CanceledTables(t, id, company, first, fault).0, orderId)
  {
  }

  lemma CanceledThroughTripEvent(t: Tables, e: TripEvent, orderId: int)
    requires IsCanceled(t, orderId)
    ensures IsCanceled(TripStep(t, e), orderId)
  {
    match e
    case Assign(id, target, newLink, first, fault) =>
      CanceledThroughAssign(t, id, target, newLink, first, fault, orderId);
    case DeleteOrder(id, first, fault) => CanceledThroughDelete(t, id, first, fault, orderId);
    case Import(id, order, onto, newLink, fault) =>
      CanceledThroughImport(t, id, order, onto, newLink, fault, orderId);
    case CancelOrder(id, company, first, fault) => CanceledThroughCancel(t, id, company, first, fault, orderId);
    case _ => TripsOnly(t, e);
  }

  lemma CanceledThroughDamage(t: Tables, id: int, damages: seq<string>, notes: Option<string>, orderId: int)
    requires IsCanceled(t, orderId)
    ensures IsCanceled(Inspections.Damaged(t, id, damages, notes), orderId)
  {
  }

  lemma CanceledThroughRequest(t: Tables, id: int, driverId: int, kind: InspectionType, origin: Inspections.Origins,
    fault: int, orderId: int)
    requires IsCanceled(t, orderId)
    ensures IsCanceled(Inspections.SignatureRequestedTables(t, id, driverId, kind, origin, fault).0, orderId)
  {
  }

  lemma CanceledThroughCreation(t: Tables, id: int, accountId: int, origin: Inspections.Origins, fault: int,
    orderId: int)
    requires IsCanceled(t, orderId)
    ensures IsCanceled(Inspections.DeliveryCreated(t, id, accountId, origin, fault).0, orderId)
  {
  }

  lemma CanceledThroughSigning(t: Tables, id: int, kind: InspectionType, signer: Inspections.Signer, name: string,
    a: ChargeAnswer, fault: int, orderId: int)
    requires IsCanceled(t, orderId)
    ensures IsCanceled(Inspections.SignedTables(t, id, kind, signer, name, a, fault).0, orderId)
  {
    if Inspections.MaySign(t, id, signer) {
      assert IsCanceled(Inspections.AfterCharge(t, id, kind, a), orderId);
    }
  }

  lemma CanceledThroughInspectionEvent(t: Tables, e: InspectionEvent, orderId: int)
    requires IsCanceled(t, orderId)
    ensures IsCanceled(InspectionStep(t, e), orderId)
  {
    match e
    case Damage(id, damages, notes) => CanceledThroughDamage(t, id, damages, notes, orderId);
    case RequestSignature(id, driverId, kind, origin, fault) =>
      CanceledThroughRequest(t, id, driverId, kind, origin, fault, orderId);
    case CreateDelivery(id, accountId, origin, fault) =>
      CanceledThroughCreation(t, id, accountId, origin, fault, orderId);
    case Sign(id, kind, signer, name, a, fault) =>
      CanceledThroughSigning(t, id, kind, signer, name, a, fault, orderId);
    case _ => OrdersStay(t, e);
  }

  // For every event, that is exactly what takes it out.
  lemma LeavesCanceledExactlyWhen(t: Tables, e: Event, orderId: int)
    requires IsCanceled(t, orderId)
    ensures IsCanceled(Step(t, e), orderId) <==> !Reopens(t, e, orderId)
  {
    match e
    case ForOrder(id, order) => CanceledThroughOrderEvent(t, id, order, orderId);
    case ForDispatch(id, Accept(a, fault)) => CanceledThroughAccept(t, id, a, fault, orderId);
    case ForDispatch(id, dispatch) => RequestsAreQuiet(t, id, dispatch);
    case ForTrip(trip) => CanceledThroughTripEvent(t, trip, orderId);
    case ForInspection(inspection) => CanceledThroughInspectionEvent(t, inspection, orderId);
    case RetryCharge(_, _, _, _) =>
  }

  ghost predicate CanceledThroughout(t: Tables, events: seq<Event>, orderId: int) {
    && IsCanceled(RunFrom(t, events), orderId)
    && (events == [] || CanceledThroughout(t, events[..|events| - 1], orderId))
  }

  ghost predicate NoneReopens(t: Tables, events: seq<Event>, orderId: int) {
    events == []
    || (NoneReopens(t, events[..|events| - 1], orderId)
        && !Reopens(RunFrom(t, events[..|events| - 1]), events[|events| - 1], orderId))
  }

  // So a canceled order stays canceled throughout exactly as long as none does.
  lemma {:induction false} StaysCanceledExactlyWhen(t: Tables, events: seq<Event>, orderId: int)
    requires IsCanceled(t, orderId)
    ensures CanceledThroughout(t, events, orderId) <==> NoneReopens(t, events, orderId)
  {
    if events != [] {
      var front := events[..|events| - 1];
      StaysCanceledExactlyWhen(t, front, orderId);
      if CanceledThroughout(t, front, orderId) {
        LeavesCanceledExactlyWhen(RunFrom(t, front), events[|events| - 1], orderId);
      }
    }
  }

  // Asking does not look at the order's status either: a company without a request
  // can make one for a canceled order, and it can be accepted.
  lemma CanceledOrderCanBeAskedFor(t: Tables, orderId: int, companyId: int, newId: int, pickDate: int,
    deliveryDate: int)
    requires orderId in t.orders && !HasRequest(t, orderId, companyId) && newId !in t.dispatches
    ensures var asked := Created(t, newId, orderId, companyId, pickDate, deliveryDate);
      Acceptable(asked, newId) && asked.dispatches[newId].orderId == orderId && asked.orders == t.orders
  {
  }
}
