// What holds in every run of the lifecycle, whatever the gateway answers and
// whichever writes fail.
module Guarantees {
  import opened Store
  import opened Payments
  import opened Dispatching
  import opened Lifecycle
  import Inspections

  // ------------------------------------------------------------------------
  // Requests: at most one accepted per order, at most one per order and company,
  // and the accepted company is the order's unless that was cleared.

  lemma DroppingKeeps(t: Tables, after: Tables)
    requires Consistent(t) && Quiet(t, after) && DropsRequests(t, after)
    ensures Consistent(after)
  {
    forall d, e | Rivals(after, d, e)
      ensures after.dispatches[d].companyId != after.dispatches[e].companyId
      ensures !(after.dispatches[d].status == Accepted && after.dispatches[e].status == Accepted)
    {
      assert Rivals(t, d, e);
    }
    forall d | d in after.dispatches
      ensures after.dispatches[d].orderId in after.orders
      ensures after.dispatches[d].status == Accepted ==>
        CompanyOf(after.orders[after.dispatches[d].orderId], after.dispatches[d].companyId)
    {
      assert t.dispatches[d].orderId in t.orders;
    }
  }

  lemma SignKeepsConsistent(t: Tables, orderId: int, kind: InspectionType, signer: Inspections.Signer, name: string,
    a: ChargeAnswer, fault: int)
    requires Consistent(t)
    ensures Consistent(Inspections.SignedTables(t, orderId, kind, signer, name, a, fault).0)
  {
    if Inspections.MaySign(t, orderId, signer) {
      ChargeKeepsConsistent(t, orderId, CarPickup, a);
      SignatureKeepsConsistent(Inspections.AfterCharge(t, orderId, kind, a), orderId, kind, name);
    }
  }

  lemma ChargeKeepsConsistent(t: Tables, orderId: int, kind: ChargeKind, a: ChargeAnswer)
    requires Consistent(t) && orderId in t.orders
    ensures Consistent(Charged(t, orderId, kind, a))
  {
    OtherKeeps(t, Charged(t, orderId, kind, a));
  }

  lemma SignatureKeepsConsistent(t: Tables, orderId: int, kind: InspectionType, name: string)
    requires Consistent(t) && orderId in t.orders
    ensures Consistent(Inspections.Signature(t, orderId, kind, name))
  {
    OtherKeeps(t, Inspections.Signature(t, orderId, kind, name));
  }

  lemma DispatchKeepsConsistent(t: Tables, id: int, e: DispatchEvent)
    requires Consistent(t)
    ensures Consistent(DispatchStep(t, id, e))
  {
    match e
    case Ask(orderId, companyId, pickDate, deliveryDate) =>
      CreateKeeps(t, id, orderId, companyId, pickDate, deliveryDate);
    case Reschedule(companyId, pickDate, deliveryDate) => RescheduleKeeps(t, id, companyId, pickDate, deliveryDate);
    case Withdraw(companyId) => WithdrawKeeps(t, id, companyId);
    case Accept(a, fault) => AcceptKeeps(t, id, a, fault);
  }

  lemma StepKeepsConsistent(t: Tables, e: Event)
    requires Consistent(t)
    ensures Consistent(Step(t, e))
  {
    match e
    case ForOrder(orderId, order) =>
      OrderEventsAreQuiet(t, orderId, order);
      DroppingKeeps(t, OrderStep(t, orderId, order));
    case ForDispatch(id, dispatch) => DispatchKeepsConsistent(t, id, dispatch);
    case ForTrip(trip) =>
      TripEventsAreQuiet(t, trip);
      DroppingKeeps(t, TripStep(t, trip));
    case ForInspection(inspection) => InspectionKeepsConsistent(t, inspection);
    case RetryCharge(orderId, kind, billable, a) =>
      if orderId in t.orders {
        ChargeKeepsConsistent(t, orderId, kind, a);
      }
  }

  lemma InspectionKeepsConsistent(t: Tables, e: InspectionEvent)
    requires Consistent(t)
    ensures Consistent(InspectionStep(t, e))
  {
    match e
    case Sign(orderId, kind, signer, name, a, fault) => SignKeepsConsistent(t, orderId, kind, signer, name, a, fault);
    case _ =>
      InspectionEventsAreQuiet(t, e);
      DroppingKeeps(t, InspectionStep(t, e));
  }

  lemma {:induction false} EveryRunIsConsistent(events: seq<Event>)
    ensures Consistent(Run(events))
  {
    if events != [] {
      EveryRunIsConsistent(events[..|events| - 1]);
      StepKeepsConsistent(Run(events[..|events| - 1]), events[|events| - 1]);
    }
  }

  // ------------------------------------------------------------------------
  // Charges

  predicate OrderBooks(t: Tables, orderId: int)
    requires orderId in t.orders
  {
    && Balanced(t.gateway, orderId, t.orders[orderId].payment, ServiceFee)
    && Balanced(t.gateway, orderId, t.orders[orderId].payment, CarPickup)
  }

  // The gateway knows only orders that exist, and each order's charges balance.
  ghost predicate Books(t: Tables) {
    && (forall i :: 0 <= i < |t.gateway| ==> t.gateway[i].orderId in t.orders)
    && (forall o :: o in t.orders ==> OrderBooks(t, o))
  }

  lemma QuietKeepsBooks(t: Tables, after: Tables)
    requires Books(t) && Quiet(t, after)
    ensures Books(after)
  {
    forall o | o in after.orders
      ensures OrderBooks(after, o)
    {
      if o in t.orders {
        assert OrderBooks(t, o) && QuietChange(t.orders[o], after.orders[o]);
      } else {
        UnseenIsBalanced(t.gateway, o, after.orders[o].payment, ServiceFee);
        UnseenIsBalanced(t.gateway, o, after.orders[o].payment, CarPickup);
      }
    }
  }

  lemma ChargeKeepsBooks(t: Tables, orderId: int, kind: ChargeKind, a: ChargeAnswer)
    requires Books(t) && orderId in t.orders && t.orders[orderId].payment != PaidStatus(kind)
    ensures Books(Charged(t, orderId, kind, a))
  {
    var after := Charged(t, orderId, kind, a);
    forall o | o in after.orders
      ensures OrderBooks(after, o)
    {
      assert OrderBooks(t, o);
      ChargeKeepsBalance(t, orderId, kind, a, o, ServiceFee);
      ChargeKeepsBalance(t, orderId, kind, a, o, CarPickup);
    }
  }

  // Writes that touch no payment status.
  ghost predicate PaymentsStay(t: Tables, after: Tables) {
    && after.gateway == t.gateway && after.orders.Keys == t.orders.Keys
    && (forall o :: o in t.orders ==> after.orders[o].payment == t.orders[o].payment)
  }

  lemma StayingKeepsBooks(t: Tables, after: Tables)
    requires Books(t) && PaymentsStay(t, after)
    ensures Books(after)
  {
    forall o | o in after.orders
      ensures OrderBooks(after, o)
    {
      assert OrderBooks(t, o);
    }
  }

  // An award writes the paid status once more over the paid status.
  lemma AcceptKeepsBooks(t: Tables, id: int, a: ChargeAnswer, fault: int)
    requires Books(t)
    ensures Books(AcceptedTables(t, id, a, fault).0)
  {
    if Acceptable(t, id) {
      var orderId := t.dispatches[id].orderId;
      var c := if FeeDue(t, id) then Charged(t, orderId, ServiceFee, a) else t;
      if FeeDue(t, id) {
        ChargeKeepsBooks(t, orderId, ServiceFee, a);
      }
      if AcceptedTables(t, id, a, fault).1 {
        StayingKeepsBooks(c, Awarded(c, id));
      }
    }
  }

  lemma SignKeepsBooks(t: Tables, orderId: int, kind: InspectionType, signer: Inspections.Signer, name: string,
    a: ChargeAnswer, fault: int)
    requires Books(t)
    ensures Books(Inspections.SignedTables(t, orderId, kind, signer, name, a, fault).0)
  {
    if Inspections.MaySign(t, orderId, signer) {
      if Inspections.ChargeDue(t.orders[orderId], kind) {
        ChargeKeepsBooks(t, orderId, CarPickup, a);
      }
      SignatureKeepsBooks(Inspections.AfterCharge(t, orderId, kind, a), orderId, kind, name);
    }
  }

  lemma SignatureKeepsBooks(t: Tables, orderId: int, kind: InspectionType, name: string)
    requires Books(t) && orderId in t.orders
    ensures Books(Inspections.Signature(t, orderId, kind, name))
  {
    StayingKeepsBooks(t, Inspections.Signature(t, orderId, kind, name));
  }

  lemma StepKeepsBooks(t: Tables, e: Event)
    requires Books(t)
    ensures Books(Step(t, e))
  {
    match e
    case ForOrder(orderId, order) =>
      OrderEventsAreQuiet(t, orderId, order);
      QuietKeepsBooks(t, OrderStep(t, orderId, order));
    case ForDispatch(id, dispatch) => DispatchKeepsBooks(t, id, dispatch);
    case ForTrip(trip) =>
      TripEventsAreQuiet(t, trip);
      QuietKeepsBooks(t, TripStep(t, trip));
    case ForInspection(inspection) => InspectionKeepsBooks(t, inspection);
    case RetryCharge(orderId, kind, billable, a) =>
      if orderId in t.orders && Retried(t.orders[orderId], kind) {
        ChargeKeepsBooks(t, orderId, kind, a);
      }
  }

  lemma DispatchKeepsBooks(t: Tables, id: int, e: DispatchEvent)
    requires Books(t)
    ensures Books(DispatchStep(t, id, e))
  {
    match e
    case Accept(a, fault) => AcceptKeepsBooks(t, id, a, fault);
    case _ =>
      RequestsAreQuiet(t, id, e);
      StayingKeepsBooks(t, DispatchStep(t, id, e));
  }

  lemma InspectionKeepsBooks(t: Tables, e: InspectionEvent)
    requires Books(t)
    ensures Books(InspectionStep(t, e))
  {
    match e
    case Sign(orderId, kind, signer, name, a, fault) => SignKeepsBooks(t, orderId, kind, signer, name, a, fault);
    case _ =>
      InspectionEventsAreQuiet(t, e);
      QuietKeepsBooks(t, InspectionStep(t, e));
  }

  lemma {:induction false} EveryRunBalances(events: seq<Event>)
    ensures Books(Run(events))
  {
    if events != [] {
      EveryRunBalances(events[..|events| - 1]);
      StepKeepsBooks(Run(events[..|events| - 1]), events[|events| - 1]);
    }
  }

  // In every run, a kind of charge succeeds for an order at most once more than
  // the other kind was asked for, apart from charges whose status write was lost.
  lemma ChargesAreBounded(events: seq<Event>, orderId: int, kind: ChargeKind)
    ensures var log := Run(events).gateway;
      Successes(log, orderId, kind) <= 1 + Attempts(log, orderId, Other(kind)) + Lost(log, orderId, kind)
  {
    EveryRunBalances(events);
    var t := Run(events);
    if orderId in t.orders {
      assert OrderBooks(t, orderId);
    } else {
      UnseenIsBalanced(t.gateway, orderId, NoPayment, kind);
    }
  }

  // With no status write lost, nothing needs to be added.
  lemma ChargesAreBoundedWithoutLosses(events: seq<Event>, orderId: int, kind: ChargeKind)
    requires forall c :: c in Run(events).gateway && c.approved ==> c.recorded
    ensures var log := Run(events).gateway;
      Successes(log, orderId, kind) <= 1 + Attempts(log, orderId, Other(kind))
  {
    ChargesAreBounded(events, orderId, kind);
    NothingLost(Run(events).gateway, orderId, kind);
  }

  lemma {:induction false} NothingLost(log: seq<Charge>, orderId: int, kind: ChargeKind)
    requires forall c :: c in log && c.approved ==> c.recorded
    ensures Lost(log, orderId, kind) == 0
  {
    if log != [] {
      NothingLost(log[..|log| - 1], orderId, kind);
    }
  }

  // The bound without the last term fails as soon as one status write is lost:
  // the fee is taken once more by the next accept.
  lemma LostWriteChargesTwice(t: Tables, id: int)
    requires Acceptable(t, id) && FeeDue(t, id)
    ensures var lost := ChargeAnswer(true, false, true, true); var fine := ChargeAnswer(true, true, true, true);
      var twice := AcceptedTables(AcceptedTables(t, id, lost, COMMIT + 1).0, id, fine, COMMIT + 1).0;
      var o := t.dispatches[id].orderId;
      && Successes(twice.gateway, o, ServiceFee) == Successes(t.gateway, o, ServiceFee) + 2
      && Attempts(twice.gateway, o, CarPickup) == Attempts(t.gateway, o, CarPickup)
  {
    var lost, fine := ChargeAnswer(true, false, true, true), ChargeAnswer(true, true, true, true);
    var o := t.dispatches[id].orderId;
    var once := AcceptedTables(t, id, lost, COMMIT + 1).0;
    var twice := AcceptedTables(once, id, fine, COMMIT + 1).0;
    assert once.gateway[..|once.gateway| - 1] == t.gateway;
    assert twice.gateway[..|twice.gateway| - 1] == once.gateway;
  }

  // ------------------------------------------------------------------------
  // Whom a pickup is charged to

  predicate PaysAtPickup(order: Order) {
    order.source == Internal && !order.paymentDelivery
  }

  // Pickups are charged to such orders only, and only they carry its statuses.
  ghost predicate PickupsAreDue(t: Tables) {
    && (forall i :: 0 <= i < |t.gateway| ==> EntryIsDue(t, t.gateway[i]))
    && (forall o :: o in t.orders ==> StatusIsDue(t.orders[o]))
  }

  predicate EntryIsDue(t: Tables, entry: Charge) {
    entry.kind == CarPickup ==> entry.orderId in t.orders && PaysAtPickup(t.orders[entry.orderId])
  }

  predicate StatusIsDue(order: Order) {
    order.payment == PickupFailed || order.payment == PickupPaid ==> PaysAtPickup(order)
  }

  // Writes that leave the log, the payments and the way of payment alone.
  ghost predicate KeepsDues(t: Tables, after: Tables) {
    && after.gateway == t.gateway && after.orders.Keys == t.orders.Keys
    && (forall o :: o in t.orders ==>
      && after.orders[o].payment == t.orders[o].payment && after.orders[o].source == t.orders[o].source
      && after.orders[o].paymentDelivery == t.orders[o].paymentDelivery)
  }

  lemma KeepingKeepsDues(t: Tables, after: Tables)
    requires PickupsAreDue(t) && KeepsDues(t, after)
    ensures PickupsAreDue(after)
  {
    forall o | o in after.orders
      ensures StatusIsDue(after.orders[o])
    {
      assert StatusIsDue(t.orders[o]);
    }
    forall i | 0 <= i < |after.gateway|
      ensures EntryIsDue(after, after.gateway[i])
    {
      assert EntryIsDue(t, t.gateway[i]);
    }
  }

  lemma QuietKeepsDues(t: Tables, after: Tables)
    requires PickupsAreDue(t) && Quiet(t, after)
    ensures PickupsAreDue(after)
  {
    forall o | o in after.orders
      ensures StatusIsDue(after.orders[o])
    {
      if o in t.orders {
        assert StatusIsDue(t.orders[o]) && QuietChange(t.orders[o], after.orders[o]);
      }
    }
    forall i | 0 <= i < |after.gateway|
      ensures EntryIsDue(after, after.gateway[i])
    {
      assert EntryIsDue(t, t.gateway[i]);
    }
  }

  lemma ChargeKeepsDues(t: Tables, orderId: int, kind: ChargeKind, a: ChargeAnswer)
    requires PickupsAreDue(t) && orderId in t.orders && (kind == CarPickup ==> PaysAtPickup(t.orders[orderId]))
    ensures PickupsAreDue(Charged(t, orderId, kind, a))
  {
    var after := Charged(t, orderId, kind, a);
    ChargeWrites(t, orderId, kind, a);
    forall o | o in after.orders
      ensures StatusIsDue(after.orders[o])
    {
      assert StatusIsDue(t.orders[o]);
    }
    forall i | 0 <= i < |after.gateway|
      ensures EntryIsDue(after, after.gateway[i])
    {
      assert i < |t.gateway| ==> EntryIsDue(t, t.gateway[i]);
    }
  }

  lemma AwardKeepsDues(t: Tables, id: int)
    requires PickupsAreDue(t) && Acceptable(t, id)
    ensures PickupsAreDue(Awarded(t, id))
  {
    var after := Awarded(t, id);
    forall o | o in after.orders
      ensures StatusIsDue(after.orders[o])
    {
      assert StatusIsDue(t.orders[o]);
    }
    forall i | 0 <= i < |after.gateway|
      ensures EntryIsDue(after, after.gateway[i])
    {
      assert EntryIsDue(t, t.gateway[i]);
    }
  }

  lemma AcceptKeepsDues(t: Tables, id: int, a: ChargeAnswer, fault: int)
    requires PickupsAreDue(t)
    ensures PickupsAreDue(AcceptedTables(t, id, a, fault).0)
  {
    if Acceptable(t, id) {
      var c := if FeeDue(t, id) then Charged(t, t.dispatches[id].orderId, ServiceFee, a) else t;
      ChargeKeepsDues(t, t.dispatches[id].orderId, ServiceFee, a);
      AwardKeepsDues(c, id);
    }
  }

  lemma SignKeepsDues(t: Tables, orderId: int, kind: InspectionType, signer: Inspections.Signer, name: string,
    a: ChargeAnswer, fault: int)
    requires PickupsAreDue(t)
    ensures PickupsAreDue(Inspections.SignedTables(t, orderId, kind, signer, name, a, fault).0)
  {
    if Inspections.MaySign(t, orderId, signer) {
      var c := Inspections.AfterCharge(t, orderId, kind, a);
      if Inspections.ChargeDue(t.orders[orderId], kind) {
        ChargeKeepsDues(t, orderId, CarPickup, a);
      }
      SignatureKeepsDues(c, orderId, kind, name);
    }
  }

  lemma SignatureKeepsDues(t: Tables, orderId: int, kind: InspectionType, name: string)
    requires PickupsAreDue(t) && orderId in t.orders
    ensures PickupsAreDue(Inspections.Signature(t, orderId, kind, name))
  {
    KeepingKeepsDues(t, Inspections.Signature(t, orderId, kind, name));
  }

  lemma DispatchKeepsDues(t: Tables, id: int, e: DispatchEvent)
    requires PickupsAreDue(t)
    ensures PickupsAreDue(DispatchStep(t, id, e))
  {
    match e
    case Accept(a, fault) => AcceptKeepsDues(t, id, a, fault);
    case _ =>
      RequestsAreQuiet(t, id, e);
      KeepingKeepsDues(t, DispatchStep(t, id, e));
  }

  lemma InspectionKeepsDues(t: Tables, e: InspectionEvent)
    requires PickupsAreDue(t)
    ensures PickupsAreDue(InspectionStep(t, e))
  {
    match e
    case Sign(orderId, kind, signer, name, a, fault) => SignKeepsDues(t, orderId, kind, signer, name, a, fault);
    case _ =>
      InspectionEventsAreQuiet(t, e);
      QuietKeepsDues(t, InspectionStep(t, e));
  }

  lemma RetryKeepsDues(t: Tables, orderId: int, kind: ChargeKind, billable: bool, a: ChargeAnswer)
    requires PickupsAreDue(t)
    ensures PickupsAreDue(Retry(t, orderId, kind, billable, a))
  {
    if orderId in t.orders && Retried(t.orders[orderId], kind) {
      assert StatusIsDue(t.orders[orderId]);
      ChargeKeepsDues(t, orderId, kind, a);
    }
  }

  lemma StepKeepsDues(t: Tables, e: Event)
    requires PickupsAreDue(t)
    ensures PickupsAreDue(Step(t, e))
  {
    match e
    case ForOrder(orderId, order) =>
      OrderEventsAreQuiet(t, orderId, order);
      QuietKeepsDues(t, OrderStep(t, orderId, order));
    case ForDispatch(id, dispatch) => DispatchKeepsDues(t, id, dispatch);
    case ForTrip(trip) =>
      TripEventsAreQuiet(t, trip);
      QuietKeepsDues(t, TripStep(t, trip));
    case ForInspection(inspection) => InspectionKeepsDues(t, inspection);
    case RetryCharge(orderId, kind, billable, a) => RetryKeepsDues(t, orderId, kind, billable, a);
  }

  lemma {:induction false} EveryRunHasDuePickups(events: seq<Event>)
    ensures PickupsAreDue(Run(events))
  {
    if events != [] {
      EveryRunHasDuePickups(events[..|events| - 1]);
      StepKeepsDues(Run(events[..|events| - 1]), events[|events| - 1]);
    }
  }

  // In every run the gateway is asked for a pickup only for internal orders that
  // are not to be paid at delivery, whether a signing or a retry asks.
  lemma PickupsAreChargedWhenDue(events: seq<Event>, i: nat)
    requires i < |Run(events).gateway| && Run(events).gateway[i].kind == CarPickup
    ensures var orderId := Run(events).gateway[i].orderId;
      && orderId in Run(events).orders
      && Run(events).orders[orderId].source == Internal && !Run(events).orders[orderId].paymentDelivery
  {
    EveryRunHasDuePickups(events);
    assert EntryIsDue(Run(events), Run(events).gateway[i]);
  }
}
