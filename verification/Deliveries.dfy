// A promise about an order on its way: it is paid for.
module Deliveries {
  import opened Store
  import opened Payments
  import opened Dispatching
  import opened Lifecycle
  import opened Journey
  import Inspections

  // An internal order, not to be paid at delivery, on its way.
  predicate MustBePaid(order: Order) {
    order.source == Internal && !order.paymentDelivery && InTransit(order.status)
  }

  predicate PaidForOrder(order: Order) {
    MustBePaid(order) ==> order.payment == PickupPaid
  }

  ghost predicate PaidFor(t: Tables) {
    forall o :: o in t.orders ==> PaidForOrder(t.orders[o])
  }

  // In columns: picked up, on its way or at the delivery, internal and not to be
  // paid there, the order has paid its pickup.
  lemma PaidForMeans(t: Tables)
    ensures PaidFor(t) <==> forall o ::
      && o in t.orders && t.orders[o].source == Internal && !t.orders[o].paymentDelivery
      && t.orders[o].status in {PickedUp, OnWayToDelivery, OnDelivery} ==>
      t.orders[o].payment == PickupPaid
  {
    if PaidFor(t) {
      forall o | o in t.orders && MustBePaid(t.orders[o])
        ensures t.orders[o].payment == PickupPaid
      {
        assert PaidForOrder(t.orders[o]);
      }
    }
  }

  // An accept for an order that must be paid already: accept does not look at the
  // order's status. The charge writes over the payment of the pickup, and the
  // order stays on its way when the accept then fails.
  predicate BreaksPromise(t: Tables, e: Event) {
    match e
    case ForDispatch(id, Accept(a, fault)) => BreaksByAccept(t, id, a, fault)
    case _ => false
  }

  predicate BreaksByAccept(t: Tables, id: int, a: ChargeAnswer, fault: int) {
    && Acceptable(t, id) && MustBePaid(t.orders[t.dispatches[id].orderId]) && fault != FEE_SETTINGS
    && (if Succeeds(a) then 1 <= fault <= COMMIT else a.failureRecorded)
  }

  lemma QuietKeepsPaidFor(t: Tables, after: Tables)
    requires PaidFor(t) && Quiet(t, after)
    ensures PaidFor(after)
  {
    forall o | o in after.orders
      ensures PaidForOrder(after.orders[o])
    {
      if o in t.orders {
        assert QuietChange(t.orders[o], after.orders[o]);
      }
    }
  }

  // A charge can only hurt an order that must be paid and is.
  lemma ChargeKeepsPaidFor(t: Tables, orderId: int, kind: ChargeKind, a: ChargeAnswer)
    requires PaidFor(t) && orderId in t.orders
    requires t.orders[orderId].payment == PickupPaid ==> !MustBePaid(t.orders[orderId])
    ensures PaidFor(Charged(t, orderId, kind, a))
  {
    assert PaidForOrder(t.orders[orderId]);
  }

  lemma AcceptKeepsPaidFor(t: Tables, id: int, a: ChargeAnswer, fault: int)
    requires PaidFor(t) && (Acceptable(t, id) ==> !MustBePaid(t.orders[t.dispatches[id].orderId]))
    ensures PaidFor(AcceptedTables(t, id, a, fault).0)
  {
    if Acceptable(t, id) {
      var c := if FeeDue(t, id) then Charged(t, t.dispatches[id].orderId, ServiceFee, a) else t;
      ChargeKeepsPaidFor(t, t.dispatches[id].orderId, ServiceFee, a);
      AwardKeepsPaidFor(c, id);
    }
  }

  lemma AcceptKeepsPaidForExactlyWhen(t: Tables, id: int, a: ChargeAnswer, fault: int)
    requires PaidFor(t)
    ensures PaidFor(AcceptedTables(t, id, a, fault).0) <==> !BreaksByAccept(t, id, a, fault)
  {
    if Acceptable(t, id) && MustBePaid(t.orders[t.dispatches[id].orderId]) {
      AcceptUnderWay(t, id, a, fault);
    } else {
      AcceptKeepsPaidFor(t, id, a, fault);
    }
  }

  lemma AcceptUnderWay(t: Tables, id: int, a: ChargeAnswer, fault: int)
    requires PaidFor(t) && Acceptable(t, id) && MustBePaid(t.orders[t.dispatches[id].orderId])
    ensures PaidFor(AcceptedTables(t, id, a, fault).0) <==> !BreaksByAccept(t, id, a, fault)
  {
    var orderId := t.dispatches[id].orderId;
    var after := AcceptedTables(t, id, a, fault).0;
    OrderUnderWay(t, id, a, fault);
    forall o | o in after.orders && o != orderId
      ensures PaidForOrder(after.orders[o])
    {
      AcceptLeavesOtherOrders(t, id, a, fault, o);
      assert PaidForOrder(t.orders[o]);
    }
  }

  lemma OrderUnderWay(t: Tables, id: int, a: ChargeAnswer, fault: int)
    requires PaidFor(t) && Acceptable(t, id) && MustBePaid(t.orders[t.dispatches[id].orderId])
    ensures var after, orderId := AcceptedTables(t, id, a, fault).0, t.dispatches[id].orderId;
      && after.orders.Keys == t.orders.Keys
      && (PaidForOrder(after.orders[orderId]) <==> !BreaksByAccept(t, id, a, fault))
  {
    assert PaidForOrder(t.orders[t.dispatches[id].orderId]);
  }

  lemma AwardKeepsPaidFor(t: Tables, id: int)
    requires PaidFor(t) && Acceptable(t, id)
    ensures PaidFor(Awarded(t, id))
  {
  }

  lemma SignKeepsPaidFor(t: Tables, orderId: int, kind: InspectionType, signer: Inspections.Signer, name: string,
    a: ChargeAnswer, fault: int)
    requires PaidFor(t)
    ensures PaidFor(Inspections.SignedTables(t, orderId, kind, signer, name, a, fault).0)
  {
    if Inspections.MaySign(t, orderId, signer) {
      ChargeKeepsPaidFor(t, orderId, CarPickup, a);
      if Inspections.ChargeDue(t.orders[orderId], kind) ==> Succeeds(a) {
        SignatureIsPaidFor(Inspections.AfterCharge(t, orderId, kind, a), orderId, kind, name);
      }
    }
  }

  lemma SignatureIsPaidFor(t: Tables, orderId: int, kind: InspectionType, name: string)
    requires PaidFor(t) && orderId in t.orders && !Inspections.ChargeDue(t.orders[orderId], kind)
    ensures PaidFor(Inspections.Signature(t, orderId, kind, name))
  {
  }

  // For every event, that is exactly what breaks the promise.
  lemma StepKeepsPaidForExactlyWhen(t: Tables, e: Event)
    requires PaidFor(t)
    ensures PaidFor(Step(t, e)) <==> !BreaksPromise(t, e)
  {
    match e
    case ForOrder(orderId, order) =>
      OrderEventsAreQuiet(t, orderId, order);
      QuietKeepsPaidFor(t, OrderStep(t, orderId, order));
    case ForDispatch(id, Accept(a, fault)) => AcceptKeepsPaidForExactlyWhen(t, id, a, fault);
    case ForDispatch(id, dispatch) => RequestsAreQuiet(t, id, dispatch);
    case ForTrip(trip) =>
      TripEventsAreQuiet(t, trip);
      QuietKeepsPaidFor(t, TripStep(t, trip));
    case ForInspection(inspection) => InspectionKeepsPaidFor(t, inspection);
    case RetryCharge(orderId, kind, billable, a) =>
      if orderId in t.orders && Retried(t.orders[orderId], kind) {
        ChargeKeepsPaidFor(t, orderId, kind, a);
      }
  }

  lemma InspectionKeepsPaidFor(t: Tables, e: InspectionEvent)
    requires PaidFor(t)
    ensures PaidFor(InspectionStep(t, e))
  {
    match e
    case Sign(orderId, kind, signer, name, a, fault) => SignKeepsPaidFor(t, orderId, kind, signer, name, a, fault);
    case _ =>
      InspectionEventsAreQuiet(t, e);
      QuietKeepsPaidFor(t, InspectionStep(t, e));
  }

  ghost predicate PaidForThroughout(events: seq<Event>) {
    PaidFor(Run(events)) && (events == [] || PaidForThroughout(events[..|events| - 1]))
  }

  ghost predicate NoneBreaks(events: seq<Event>) {
    events == []
    || (NoneBreaks(events[..|events| - 1]) && !BreaksPromise(Run(events[..|events| - 1]), events[|events| - 1]))
  }

  // So over a whole run, an internal order that is not paid at delivery has its
  // pickup paid whenever it is on its way, exactly when no event breaks the promise.
  lemma {:induction false} OrdersInTransitArePaidExactlyWhen(events: seq<Event>)
    ensures PaidForThroughout(events) <==> NoneBreaks(events)
  {
    if events != [] {
      OrdersInTransitArePaidExactlyWhen(events[..|events| - 1]);
      if PaidForThroughout(events[..|events| - 1]) {
        StepKeepsPaidForExactlyWhen(Run(events[..|events| - 1]), events[|events| - 1]);
      }
    }
  }

  // The accepts of the run are made for orders that need not be paid yet.
  ghost predicate AcceptsInTime(events: seq<Event>) {
    events == []
    || (AcceptsInTime(events[..|events| - 1]) && InTime(Run(events[..|events| - 1]), events[|events| - 1]))
  }

  predicate InTime(t: Tables, e: Event) {
    e.ForDispatch? && e.dispatch.Accept? && Acceptable(t, e.id) ==>
      !MustBePaid(t.orders[t.dispatches[e.id].orderId])
  }

  // That holds of accepts from the board, which lists published orders only.
  lemma FromTheBoardIsInTime(t: Tables, e: Event)
    requires e.ForDispatch? && e.dispatch.Accept? && Acceptable(t, e.id) ==>
      t.orders[t.dispatches[e.id].orderId].status == Published
    ensures InTime(t, e)
  {
  }

  lemma {:induction false} OrdersInTransitArePaid(events: seq<Event>)
    requires AcceptsInTime(events)
    ensures PaidFor(Run(events))
  {
    if events != [] {
      OrdersInTransitArePaid(events[..|events| - 1]);
      StepKeepsPaidForExactlyWhen(Run(events[..|events| - 1]), events[|events| - 1]);
    }
  }

  // Accepting whatever the order's status is safe, for every answer and fault,
  // exactly when the order is not one of those that must be paid already.
  lemma AcceptIsSafeExactlyWhen(t: Tables, id: int)
    requires PaidFor(t) && Acceptable(t, id)
    ensures (forall a, fault :: PaidFor(AcceptedTables(t, id, a, fault).0))
      <==> !MustBePaid(t.orders[t.dispatches[id].orderId])
  {
    var orderId := t.dispatches[id].orderId;
    if MustBePaid(t.orders[orderId]) {
      assert PaidForOrder(t.orders[orderId]);
      var after := AcceptedTables(t, id, ChargeAnswer(false, false, true, true), COMMIT + 1).0;
      assert !PaidForOrder(after.orders[orderId]);
      assert !PaidFor(after);
    } else {
      forall a, fault
        ensures PaidFor(AcceptedTables(t, id, a, fault).0)
      {
        AcceptKeepsPaidFor(t, id, a, fault);
      }
    }
  }

  // ------------------------------------------------------------------------
  // A run that breaks the promise: the client signs the pickup, which is charged,
  // another company asks for the order, and its accept fails at the fee.

  const SIGNED := ForInspection(Sign(1, Pickup, Inspections.Client, "client", ChargeAnswer(true, true, true, true), 0))
  const ASKED := ForDispatch(1, Ask(1, 2, 0, 0))
  const UNPAID := ForDispatch(1, Accept(ChargeAnswer(false, false, true, true), COMMIT + 1))
  const BROKEN_RUN := TO_PICKUP + [SIGNED] + [ASKED] + [UNPAID]

  lemma Signing(t: Tables)
    requires OnItsTrip(t, OnPickup)
    ensures Step(t, SIGNED).orders == map[1 := ORDER.(status := PickedUp, payment := PickupPaid)]
    ensures Step(t, SIGNED).dispatches == map[]
  {
  }

  lemma Asking(t: Tables)
    requires t.orders == map[1 := ORDER.(status := PickedUp, payment := PickupPaid)] && t.dispatches == map[]
    ensures BreaksPromise(Step(t, ASKED), UNPAID) && PaidFor(Step(t, ASKED))
  {
    assert !HasRequest(t, 1, 2);
  }

  lemma AcceptBreaksThePromise()
    ensures PaidFor(Run(TO_PICKUP + [SIGNED] + [ASKED])) && !PaidFor(Run(BROKEN_RUN))
  {
    OrderArrives();
    RunOneMore(TO_PICKUP, SIGNED);
    Signing(Run(TO_PICKUP));
    RunOneMore(TO_PICKUP + [SIGNED], ASKED);
    Asking(Run(TO_PICKUP + [SIGNED]));
    RunOneMore(TO_PICKUP + [SIGNED] + [ASKED], UNPAID);
    StepKeepsPaidForExactlyWhen(Run(TO_PICKUP + [SIGNED] + [ASKED]), UNPAID);
  }
}
