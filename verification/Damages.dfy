// Damages recorded at a delivery should decide how its signing ends: what
// becomes of the mark that recording them leaves in preStatus.
module Damages {
  import opened Prelude
  import opened Store
  import opened Payments
  import opened Dispatching
  import opened Lifecycle
  import Inspections
  import opened Journey
  import Orders

  // The event records damages on a delivery inspection of the order.
  predicate RecordsDamage(t: Tables, e: Event, orderId: int) {
    && e.ForInspection? && e.inspection.Damage? && Inspections.Damageable(t, e.inspection.damaged)
    && e.inspection.damages != [] && t.inspections[e.inspection.damaged].orderId == orderId && orderId in t.orders
  }

  // A signature request of the order that goes through, and a signing that does.
  predicate Requests(t: Tables, e: Event, orderId: int) {
    && e.ForInspection? && e.inspection.RequestSignature? && e.inspection.requested == orderId
    && Inspections.SignatureRequestedTables(t, orderId, e.inspection.requester, e.inspection.requestedKind,
      e.inspection.origin, e.inspection.requestFault).1
  }

  predicate Signs(t: Tables, e: Event, orderId: int) {
    && e.ForInspection? && e.inspection.Sign? && e.inspection.signed == orderId
    && Inspections.SignedTables(t, orderId, e.inspection.signedKind, e.inspection.signer, e.inspection.name,
      e.inspection.answer, e.inspection.signFault).1
  }

  // What one event makes of an existing order's preStatus.
  function PreStatusAfter(t: Tables, e: Event, orderId: int): Option<OrderStatus>
    requires orderId in t.orders
  {
    if RecordsDamage(t, e, orderId) then Some(Claimed)
    else if Requests(t, e, orderId) then Some(t.orders[orderId].status)
    else if Signs(t, e, orderId) then None
    else t.orders[orderId].preStatus
  }

  lemma PreStatusStep(t: Tables, e: Event, orderId: int)
    requires orderId in t.orders
    ensures orderId in Step(t, e).orders && Step(t, e).orders[orderId].preStatus == PreStatusAfter(t, e, orderId)
  {
    match e
    case ForOrder(id, order) => OrderEventsAreQuiet(t, id, order);
    case ForDispatch(id, dispatch) => DispatchKeepsPreStatus(t, id, dispatch);
    case ForTrip(trip) => TripEventsAreQuiet(t, trip);
    case ForInspection(inspection) => InspectionPreStatus(t, inspection, orderId);
    case RetryCharge(id, kind, billable, a) =>
  }

  lemma AcceptKeepsPreStatus(t: Tables, id: int, a: ChargeAnswer, fault: int)
    ensures KeepsPreStatus(t, AcceptedTables(t, id, a, fault).0)
    ensures AcceptedTables(t, id, a, fault).0.orders.Keys == t.orders.Keys
  {
    if Acceptable(t, id) {
      var c := if FeeDue(t, id) then Charged(t, t.dispatches[id].orderId, ServiceFee, a) else t;
      ChargeKeepsPreStatus(t, t.dispatches[id].orderId, ServiceFee, a);
      AwardKeepsPreStatus(c, id);
    }
  }

  lemma ChargeKeepsPreStatus(t: Tables, orderId: int, kind: ChargeKind, a: ChargeAnswer)
    requires orderId in t.orders
    ensures KeepsPreStatus(t, Charged(t, orderId, kind, a)) && Charged(t, orderId, kind, a).orders.Keys == t.orders.Keys
  {
  }

  lemma AwardKeepsPreStatus(t: Tables, id: int)
    requires Acceptable(t, id)
    ensures KeepsPreStatus(t, Awarded(t, id)) && Awarded(t, id).orders.Keys == t.orders.Keys
  {
  }

  lemma DispatchKeepsPreStatus(t: Tables, id: int, e: DispatchEvent)
    ensures KeepsPreStatus(t, DispatchStep(t, id, e))
    ensures DispatchStep(t, id, e).orders.Keys == t.orders.Keys
  {
    match e
    case Accept(a, fault) => AcceptKeepsPreStatus(t, id, a, fault);
    case _ => RequestsAreQuiet(t, id, e);
  }

  lemma DamagePreStatus(t: Tables, id: int, damages: seq<string>, notes: Option<string>, orderId: int)
    requires orderId in t.orders
    ensures var after := Inspections.Damaged(t, id, damages, notes);
      && orderId in after.orders
      && after.orders[orderId].preStatus ==
        if Inspections.Damageable(t, id) && damages != [] && t.inspections[id].orderId == orderId then Some(Claimed)
        else t.orders[orderId].preStatus
  {
  }

  lemma RequestPreStatus(t: Tables, id: int, driverId: int, kind: InspectionType, origin: Inspections.Origins,
    fault: int, orderId: int)
    requires orderId in t.orders
    ensures var result := Inspections.SignatureRequestedTables(t, id, driverId, kind, origin, fault);
      && orderId in result.0.orders
      && result.0.orders[orderId].preStatus ==
        (if id == orderId && result.1 then Some(t.orders[orderId].status) else t.orders[orderId].preStatus)
      && (id == orderId && result.1 ==> t.orders[orderId].status == OnPickup || t.orders[orderId].status == OnDelivery)
  {
  }

  lemma AfterChargePreStatus(t: Tables, id: int, kind: InspectionType, a: ChargeAnswer, orderId: int)
    requires id in t.orders
    ensures Inspections.AfterCharge(t, id, kind, a).orders.Keys == t.orders.Keys
    ensures orderId in t.orders ==>
      Inspections.AfterCharge(t, id, kind, a).orders[orderId].preStatus == t.orders[orderId].preStatus
  {
  }

  lemma SignPreStatus(t: Tables, id: int, kind: InspectionType, signer: Inspections.Signer, name: string,
    a: ChargeAnswer, fault: int, orderId: int)
    ensures var result := Inspections.SignedTables(t, id, kind, signer, name, a, fault);
      && result.0.orders.Keys == t.orders.Keys
      && (orderId in t.orders ==>
        result.0.orders[orderId].preStatus == if id == orderId && result.1 then None else t.orders[orderId].preStatus)
  {
    if Inspections.MaySign(t, id, signer) {
      AfterChargePreStatus(t, id, kind, a, orderId);
      SignaturePreStatus(Inspections.AfterCharge(t, id, kind, a), id, kind, name, orderId);
    }
  }

  lemma SignaturePreStatus(t: Tables, id: int, kind: InspectionType, name: string, orderId: int)
    requires id in t.orders
    ensures var after := Inspections.Signature(t, id, kind, name);
      && after.orders.Keys == t.orders.Keys
      && (orderId in t.orders ==>
        after.orders[orderId].preStatus == if id == orderId then None else t.orders[orderId].preStatus)
  {
  }

  lemma InspectionPreStatus(t: Tables, e: InspectionEvent, orderId: int)
    requires orderId in t.orders
    ensures orderId in InspectionStep(t, e).orders
    ensures InspectionStep(t, e).orders[orderId].preStatus == PreStatusAfter(t, ForInspection(e), orderId)
  {
    match e
    case Damage(id, damages, notes) => DamagePreStatus(t, id, damages, notes, orderId);
    case RequestSignature(id, driverId, kind, origin, fault) =>
      RequestPreStatus(t, id, driverId, kind, origin, fault, orderId);
    case Sign(id, kind, signer, name, a, fault) => SignPreStatus(t, id, kind, signer, name, a, fault, orderId);
    case _ => InspectionEventsAreQuiet(t, e);
  }

  // Orders enter without a preStatus.
  lemma NewOrdersHaveNoPreStatus(t: Tables, e: Event, orderId: int)
    requires orderId !in t.orders
    ensures orderId in Step(t, e).orders ==> Step(t, e).orders[orderId].preStatus == None
  {
    match e
    case ForOrder(id, order) => OrderEventsAreQuiet(t, id, order);
    case ForDispatch(id, dispatch) => DispatchKeepsPreStatus(t, id, dispatch);
    case ForTrip(trip) => TripEventsAreQuiet(t, trip);
    case ForInspection(inspection) => NewInspectedOrders(t, inspection, orderId);
    case RetryCharge(id, kind, billable, a) =>
  }

  lemma NewInspectedOrders(t: Tables, e: InspectionEvent, orderId: int)
    requires orderId !in t.orders
    ensures orderId in InspectionStep(t, e).orders ==> InspectionStep(t, e).orders[orderId].preStatus == None
  {
    match e
    case Sign(id, kind, signer, name, a, fault) => SignPreStatus(t, id, kind, signer, name, a, fault, orderId);
    case _ => InspectionEventsAreQuiet(t, e);
  }

  // The delivery is signed: only this signs the inspections that hold damages.
  predicate SignsDelivery(t: Tables, e: Event, orderId: int) {
    Signs(t, e, orderId) && e.inspection.signedKind == Delivery
  }

  // What writes over preStatus without signing the delivery: a signature request,
  // which puts the order's status there, and a pickup signing, which clears it.
  predicate Overwrites(t: Tables, e: Event, orderId: int) {
    Requests(t, e, orderId) || (Signs(t, e, orderId) && e.inspection.signedKind == Pickup)
  }

  // Damages were recorded on a delivery inspection of the order since its last
  // delivery signing.
  ghost predicate DamagedUnsigned(events: seq<Event>, orderId: int) {
    if events == [] then false
    else
      var t, e := Run(events[..|events| - 1]), events[|events| - 1];
      if RecordsDamage(t, e, orderId) then true
      else if SignsDelivery(t, e, orderId) then false
      else DamagedUnsigned(events[..|events| - 1], orderId)
  }

  // A signature request or a pickup signing of the order went through after its
  // last damages.
  ghost predicate OverwrittenSince(events: seq<Event>, orderId: int) {
    if events == [] then false
    else
      var t, e := Run(events[..|events| - 1]), events[|events| - 1];
      if RecordsDamage(t, e, orderId) then false
      else if Overwrites(t, e, orderId) then true
      else OverwrittenSince(events[..|events| - 1], orderId)
  }

  predicate PreStatusOk(preStatus: Option<OrderStatus>) {
    preStatus == None || preStatus == Some(OnPickup) || preStatus == Some(OnDelivery) || preStatus == Some(Claimed)
  }

  // In every run preStatus is one of four values. It is Claimed exactly for
  // damages that are unsigned and that nothing has overwritten.
  lemma {:induction false} PreStatusTellsDamage(events: seq<Event>, orderId: int)
    ensures orderId in Run(events).orders ==>
      && PreStatusOk(Run(events).orders[orderId].preStatus)
      && (Run(events).orders[orderId].preStatus == Some(Claimed)
          <==> DamagedUnsigned(events, orderId) && !OverwrittenSince(events, orderId))
    ensures orderId !in Run(events).orders ==> !DamagedUnsigned(events, orderId)
  {
    if events != [] {
      var front, e := events[..|events| - 1], events[|events| - 1];
      var t := Run(front);
      PreStatusTellsDamage(front, orderId);
      if orderId in t.orders {
        PreStatusStep(t, e, orderId);
      } else {
        NewOrdersHaveNoPreStatus(t, e, orderId);
      }
    }
  }

  // So a delivery that is signed always ends Delivered, damaged or not.
  lemma SignedDeliveriesEndDelivered(events: seq<Event>, orderId: int, signer: Inspections.Signer, name: string,
    a: ChargeAnswer, fault: int)
    requires Inspections.SignedTables(Run(events), orderId, Delivery, signer, name, a, fault).1
    ensures var after := Inspections.SignedTables(Run(events), orderId, Delivery, signer, name, a, fault).0;
      orderId in after.orders && after.orders[orderId].status == Delivered
  {
    PreStatusTellsDamage(events, orderId);
  }

  // The intended rule for a delivery signed after a run: damages recorded before
  // the signing end in Claimed, and without any the order is Delivered.
  // `compared` is the value that preStatus is compared with.
  ghost predicate MeetsRule(events: seq<Event>, orderId: int, compared: OrderStatus) {
    orderId in Run(events).orders ==>
      Inspections.NextStatus(Run(events).orders[orderId], Delivery, compared)
      == if DamagedUnsigned(events, orderId) then Claimed else Delivered
  }

  // As the code compares, with Declined, the rule is met exactly for the orders
  // without damages. Compared with Claimed it would be met exactly unless a
  // request or a pickup signing went through after the last damages.
  lemma RuleForOneOrder(events: seq<Event>, orderId: int)
    requires orderId in Run(events).orders
    ensures MeetsRule(events, orderId, Inspections.COMPARED) <==> !DamagedUnsigned(events, orderId)
    ensures MeetsRule(events, orderId, Claimed)
      <==> !(DamagedUnsigned(events, orderId) && OverwrittenSince(events, orderId))
  {
    PreStatusTellsDamage(events, orderId);
  }

  // A request or a pickup signing that goes through while preStatus is Claimed:
  // it overwrites the only trace of the damages on the order.
  predicate LosesMark(t: Tables, e: Event, orderId: int) {
    orderId in t.orders && t.orders[orderId].preStatus == Some(Claimed) && Overwrites(t, e, orderId)
  }

  ghost predicate LosesNone(events: seq<Event>, orderId: int) {
    events == []
    || (LosesNone(events[..|events| - 1], orderId)
        && !LosesMark(Run(events[..|events| - 1]), events[|events| - 1], orderId))
  }

  // The rule is met after every part of the run, whenever the order is signed.
  ghost predicate MeetsRuleThroughout(events: seq<Event>, orderId: int, compared: OrderStatus) {
    MeetsRule(events, orderId, compared)
    && (events == [] || MeetsRuleThroughout(events[..|events| - 1], orderId, compared))
  }

  // One event breaks the rule compared with Claimed exactly by losing the mark.
  lemma RuleStep(events: seq<Event>, orderId: int)
    requires events != [] && MeetsRule(events[..|events| - 1], orderId, Claimed)
    ensures MeetsRule(events, orderId, Claimed)
      <==> !LosesMark(Run(events[..|events| - 1]), events[|events| - 1], orderId)
  {
    var front, e := events[..|events| - 1], events[|events| - 1];
    PreStatusTellsDamage(front, orderId);
    PreStatusTellsDamage(events, orderId);
    if orderId in Run(front).orders {
      PreStatusStep(Run(front), e, orderId);
    } else {
      NewOrdersHaveNoPreStatus(Run(front), e, orderId);
    }
  }

  // So over a whole run the comparison with Claimed meets the rule throughout
  // exactly when no request and no pickup signing of the order goes through while
  // it carries the mark.
  lemma {:induction false} RuleHoldsThroughoutExactlyWhen(events: seq<Event>, orderId: int)
    ensures MeetsRuleThroughout(events, orderId, Claimed) <==> LosesNone(events, orderId)
  {
    if events == [] {
      assert orderId !in Run(events).orders;
    } else {
      RuleHoldsThroughoutExactlyWhen(events[..|events| - 1], orderId);
      if MeetsRuleThroughout(events[..|events| - 1], orderId, Claimed) {
        RuleStep(events, orderId);
      }
    }
  }

  // Declining deletes the inspections that hold the damages and keeps the mark.
  lemma DeclineKeepsTheMark(t: Tables, orderId: int, driverId: int, fault: int)
    requires Orders.DeclinedTables(t, orderId, driverId, fault).1
    ensures var after := Orders.DeclinedTables(t, orderId, driverId, fault).0;
      && orderId in t.orders && orderId in after.orders
      && after.orders[orderId].preStatus == t.orders[orderId].preStatus
      && forall i :: i in after.inspections ==> after.inspections[i].orderId != orderId
  {
  }

  // ------------------------------------------------------------------------
  // No comparison meets the rule in every run.

  const INSPECTED := ForInspection(Inspect(1, Delivery, 1, 1, 1, PARTS, Some(""), true))
  const DAMAGE := ForInspection(Damage(1, ["dent"], None))
  const REQUESTED := ForInspection(RequestSignature(1, 1, Delivery, map[], 0))
  const FINE := ChargeAnswer(true, true, true, true)
  const PICKED_UP := ForInspection(Sign(1, Pickup, Inspections.Client, "client", FINE, 0))

  // The driver enters a delivery inspection at the pickup and damages on it.
  const DAMAGED_RUN := TO_PICKUP + [INSPECTED] + [DAMAGE]
  // Then the driver asks for the signature, or the client signs the pickup.
  const LOST_RUN := DAMAGED_RUN + [REQUESTED]
  const PICKED_UP_RUN := DAMAGED_RUN + [PICKED_UP]

  lemma DamageOneMore(events: seq<Event>, e: Event)
    ensures RecordsDamage(Run(events), e, 1) ==> DamagedUnsigned(events + [e], 1) && !OverwrittenSince(events + [e], 1)
    ensures Overwrites(Run(events), e, 1) ==>
      DamagedUnsigned(events + [e], 1) == DamagedUnsigned(events, 1) && OverwrittenSince(events + [e], 1)
  {
    assert (events + [e])[..|events + [e]| - 1] == events;
  }

  const ROW := Inspection(Delivery, 1, 1, 1, Finished, PARTS, Some(""), None)

  lemma Damaging(t: Tables)
    requires OnItsTrip(t, OnPickup)
    ensures var inspected := Step(t, INSPECTED);
      && inspected == t.(inspections := map[1 := ROW])
      && RecordsDamage(inspected, DAMAGE, 1)
      && Step(inspected, DAMAGE) == inspected.(
        orders := map[1 := ORDER.(status := OnPickup, preStatus := Some(Claimed))],
        inspections := map[1 := ROW.(details := PARTS + ["dent"])])
  {
    assert !Inspections.HasInspection(t, 1, Delivery);
  }

  lemma Requesting(t: Tables)
    requires Riding(t) && t.orders == map[1 := ORDER.(status := OnPickup, preStatus := Some(Claimed))]
    requires t.inspections == map[1 := ROW.(details := PARTS + ["dent"])]
    ensures Requests(t, REQUESTED, 1)
    ensures Step(t, REQUESTED).orders == map[1 := ORDER.(status := SignatureRequested, preStatus := Some(OnPickup))]
  {
    assert t.links[1] == Link(1, 1);
    TheCarIsInspected(t);
  }

  lemma TheCarIsInspected(t: Tables)
    requires t.cars == map[1 := 1] && t.inspections == map[1 := ROW.(details := PARTS + ["dent"])]
    ensures Inspections.HasDelivery(t, 1) && Inspections.AllFinished(t, 1, Delivery)
  {
    assert Inspections.IsOf(t.inspections[1], 1, Delivery);
    assert Inspections.FinishedOf(t, 1, Delivery) == {1} && Inspections.CarsOf(t, 1) == {1};
  }

  // Both runs end with a damaged order that the client may sign; in the first it
  // carries the mark, in the second the request has replaced it.
  lemma BothRuns()
    ensures 1 in Run(DAMAGED_RUN).orders && 1 in Run(LOST_RUN).orders
    ensures DamagedUnsigned(DAMAGED_RUN, 1) && DamagedUnsigned(LOST_RUN, 1)
    ensures Inspections.MaySign(Run(DAMAGED_RUN), 1, Inspections.Client)
    ensures Inspections.MaySign(Run(LOST_RUN), 1, Inspections.Client)
    ensures Riding(Run(DAMAGED_RUN))
    ensures Run(DAMAGED_RUN).orders == map[1 := ORDER.(status := OnPickup, preStatus := Some(Claimed))]
    ensures Run(LOST_RUN).orders[1].preStatus == Some(OnPickup)
  {
    OrderArrives();
    Damaging(Run(TO_PICKUP));
    RunOneMore(TO_PICKUP, INSPECTED);
    RunOneMore(TO_PICKUP + [INSPECTED], DAMAGE);
    DamageOneMore(TO_PICKUP + [INSPECTED], DAMAGE);
    Requesting(Run(DAMAGED_RUN));
    RunOneMore(DAMAGED_RUN, REQUESTED);
    DamageOneMore(DAMAGED_RUN, REQUESTED);
  }

  // So no value to compare with meets the rule in every run, not even for orders
  // that may be signed: the first run fails all but Claimed, the second Claimed.
  lemma NoComparisonMeetsTheRule(compared: OrderStatus)
    ensures exists events, orderId ::
      Inspections.MaySign(Run(events), orderId, Inspections.Client) && !MeetsRule(events, orderId, compared)
  {
    BothRuns();
    if compared == Claimed {
      assert !MeetsRule(LOST_RUN, 1, compared);
    } else {
      assert !MeetsRule(DAMAGED_RUN, 1, compared);
    }
  }

  lemma PickingUp(t: Tables)
    requires Riding(t) && t.orders == map[1 := ORDER.(status := OnPickup, preStatus := Some(Claimed))]
    ensures Signs(t, PICKED_UP, 1)
    ensures Step(t, PICKED_UP).orders == map[1 := ORDER.(status := PickedUp, payment := PickupPaid)]
  {
  }

  // The client's signing of the pickup loses the mark as well: the damages stay
  // unsigned, and compared with Claimed the delivery would end Delivered.
  lemma PickupSigningLosesTheMark()
    ensures 1 in Run(PICKED_UP_RUN).orders && DamagedUnsigned(PICKED_UP_RUN, 1)
    ensures !MeetsRule(PICKED_UP_RUN, 1, Claimed)
  {
    BothRuns();
    PickingUp(Run(DAMAGED_RUN));
    RunOneMore(DAMAGED_RUN, PICKED_UP);
    DamageOneMore(DAMAGED_RUN, PICKED_UP);
  }
}
