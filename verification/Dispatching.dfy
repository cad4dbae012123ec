// The carriers' requests for an order: dispatch.service.ts.
module Dispatching {
  import opened Prelude
  import opened Store
  import opened Payments

  predicate HasRequest(t: Tables, orderId: int, companyId: int) {
    exists d :: d in t.dispatches && t.dispatches[d].orderId == orderId && t.dispatches[d].companyId == companyId
  }

  // create: one request for each company and order, whatever became of it.
  function Created(t: Tables, id: int, orderId: int, companyId: int, pickDate: int, deliveryDate: int): Tables {
    if HasRequest(t, orderId, companyId) || orderId !in t.orders || id in t.dispatches then t
    else t.(dispatches := t.dispatches[id := Dispatch(orderId, companyId, New, pickDate, deliveryDate)])
  }

  predicate OpenRequest(t: Tables, id: int, companyId: int) {
    id in t.dispatches && t.dispatches[id].status == New && t.dispatches[id].companyId == companyId
  }

  // update: the request DTO holds the two dates only.
  function Rescheduled(t: Tables, id: int, companyId: int, pickDate: int, deliveryDate: int): Tables {
    if !OpenRequest(t, id, companyId) then t
    else t.(dispatches := t.dispatches[id := t.dispatches[id].(pickDate := pickDate, deliveryDate := deliveryDate)])
  }

  // cancel
  function Withdrawn(t: Tables, id: int, companyId: int): Tables {
    if !OpenRequest(t, id, companyId) then t
    else t.(dispatches := t.dispatches[id := t.dispatches[id].(status := Cancelled)])
  }

  // ------------------------------------------------------------------------
  // accept

  // A request that can be accepted. The order's own status is not looked at.
  predicate Acceptable(t: Tables, id: int) {
    id in t.dispatches && t.dispatches[id].status == New && t.dispatches[id].orderId in t.orders
  }

  predicate FeeDue(t: Tables, id: int)
    requires Acceptable(t, id)
  {
    t.orders[t.dispatches[id].orderId].payment != FeePaid
  }

  // The writes of a transaction that commits.
  function Awarded(t: Tables, id: int): Tables
    requires Acceptable(t, id)
  {
    var winner := t.dispatches[id];
    t.(
      dispatches := map d | d in t.dispatches :: (
        if d == id then t.dispatches[d].(status := Accepted)
        else if t.dispatches[d].orderId == winner.orderId then t.dispatches[d].(status := Expired)
        else t.dispatches[d]),
      orders := t.orders[winner.orderId := t.orders[winner.orderId].(
        companyId := Some(winner.companyId),
        status := Dispatched,
        pickDate := Some(winner.pickDate),
        deliveryDate := Some(winner.deliveryDate),
        payment := FeePaid)],
      invites := map i | i in t.invites :: (
        if t.invites[i].orderId == Some(winner.orderId) then t.invites[i].(status := InviteExpired) else t.invites[i]))
  }

  // The database calls that can fail, in order: 0 the fee settings, read only
  // when the fee is due; then, inside the transaction, 1 the request, 2 the
  // order, 3 the other requests, 4 reading the order back, 5 the invites and
  // 6 the commit. Any other number is a call without a fault.
  const FEE_SETTINGS := 0
  const COMMIT := 6

  function AcceptedTables(t: Tables, id: int, a: ChargeAnswer, fault: int): (Tables, bool) {
    if !Acceptable(t, id) then (t, false)
    else if FeeDue(t, id) && fault == FEE_SETTINGS then (t, false)
    else
      var c := if FeeDue(t, id) then Charged(t, t.dispatches[id].orderId, ServiceFee, a) else t;
      if (FeeDue(t, id) && !Succeeds(a)) || 1 <= fault <= COMMIT then (c, false)
      else (Awarded(c, id), true)
  }

  function ExpireOthers(dispatches: map<int, Dispatch>, orderId: int, id: int): map<int, Dispatch> {
    map d | d in dispatches :: (
      if d != id && dispatches[d].orderId == orderId then dispatches[d].(status := Expired) else dispatches[d])
  }

  function ExpireInvites(invites: map<int, Invite>, orderId: int): map<int, Invite> {
    map i | i in invites :: (
      if invites[i].orderId == Some(orderId) then invites[i].(status := InviteExpired) else invites[i])
  }

  // `tx` is the transaction's own view of the tables; leaving without assigning
  // it back is the rollback.
  method Accept(db: Database, id: int, a: ChargeAnswer, fault: int) returns (ok: bool)
    modifies db
    ensures (db.t, ok) == AcceptedTables(old(db.t), id, a, fault)
  {
    if id !in db.t.dispatches || db.t.dispatches[id].status != New || db.t.dispatches[id].orderId !in db.t.orders {
      return false;
    }
    var dispatch := db.t.dispatches[id];
    if db.t.orders[dispatch.orderId].payment != FeePaid {
      if fault == FEE_SETTINGS {
        return false;
      }
      var charged := ChargeOrder(db, dispatch.orderId, ServiceFee, a);
      if !charged {
        return false;
      }
    }
    var tx := db.t;
    if fault == 1 {
      return false;
    }
    tx := tx.(dispatches := tx.dispatches[id := tx.dispatches[id].(status := Accepted)]);
    if fault == 2 {
      return false;
    }
    var order := tx.orders[dispatch.orderId].(
      companyId := Some(dispatch.companyId),
      status := Dispatched,
      pickDate := Some(dispatch.pickDate),
      deliveryDate := Some(dispatch.deliveryDate),
      payment := FeePaid);
    tx := tx.(orders := tx.orders[dispatch.orderId := order]);
    if fault == 3 {
      return false;
    }
    tx := tx.(dispatches := ExpireOthers(tx.dispatches, dispatch.orderId, id));
    if fault == 4 || fault == 5 {
      return false;
    }
    tx := tx.(invites := ExpireInvites(tx.invites, dispatch.orderId));
    if fault == COMMIT {
      return false;
    }
    assert tx == Awarded(db.t, id);
    db.t := tx;
    return true;
  }

  method Create(db: Database, id: int, orderId: int, companyId: int, pickDate: int, deliveryDate: int)
    returns (ok: bool)
    requires id !in db.t.dispatches
    modifies db
    ensures db.t == Created(old(db.t), id, orderId, companyId, pickDate, deliveryDate)
    ensures ok <==> !HasRequest(old(db.t), orderId, companyId) && orderId in old(db.t).orders
  {
    if HasRequest(db.t, orderId, companyId) {
      return false;
    }
    if orderId !in db.t.orders {
      return false;
    }
    db.t := db.t.(dispatches := db.t.dispatches[id := Dispatch(orderId, companyId, New, pickDate, deliveryDate)]);
    return true;
  }

  method Update(db: Database, id: int, companyId: int, pickDate: int, deliveryDate: int) returns (ok: bool)
    modifies db
    ensures db.t == Rescheduled(old(db.t), id, companyId, pickDate, deliveryDate)
    ensures ok == OpenRequest(old(db.t), id, companyId)
  {
    if !OpenRequest(db.t, id, companyId) {
      return false;
    }
    var dispatch := db.t.dispatches[id];
    db.t := db.t.(dispatches := db.t.dispatches[id := dispatch.(pickDate := pickDate, deliveryDate := deliveryDate)]);
    return true;
  }

  method Cancel(db: Database, id: int, companyId: int) returns (ok: bool)
    modifies db
    ensures db.t == Withdrawn(old(db.t), id, companyId) && ok == OpenRequest(old(db.t), id, companyId)
  {
    if !OpenRequest(db.t, id, companyId) {
      return false;
    }
    db.t := db.t.(dispatches := db.t.dispatches[id := db.t.dispatches[id].(status := Cancelled)]);
    return true;
  }

  // ------------------------------------------------------------------------
  // What an accept achieves, and what it leaves behind when it fails.

  // An accept goes through exactly when the request is open, the fee is paid or is
  // taken and recorded now, and none of the calls after that fails.
  lemma AcceptSucceedsExactlyWhen(t: Tables, id: int, a: ChargeAnswer, fault: int)
    ensures AcceptedTables(t, id, a, fault).1 <==>
      && id in t.dispatches && t.dispatches[id].status == New && t.dispatches[id].orderId in t.orders
      && (t.orders[t.dispatches[id].orderId].payment != FeePaid ==> fault != FEE_SETTINGS && a.approved && a.recorded)
      && !(1 <= fault <= COMMIT)
  {
  }

  // It asks the gateway for the fee exactly when the request is open, the order has
  // not paid it and the settings can be read, whatever happens after that.
  lemma AcceptChargesExactlyWhen(t: Tables, id: int, a: ChargeAnswer, fault: int)
    ensures AcceptedTables(t, id, a, fault).0.gateway == t.gateway + (
      if id in t.dispatches && t.dispatches[id].status == New && t.dispatches[id].orderId in t.orders
        && t.orders[t.dispatches[id].orderId].payment != FeePaid && fault != FEE_SETTINGS
      then [Charge(t.dispatches[id].orderId, ServiceFee, a.approved, a.approved && a.recorded)] else [])
  {
    if Acceptable(t, id) {
      var c := if FeeDue(t, id) then Charged(t, t.dispatches[id].orderId, ServiceFee, a) else t;
      AwardAsksNothing(c, id);
    }
  }

  lemma AwardAsksNothing(t: Tables, id: int)
    requires Acceptable(t, id)
    ensures Awarded(t, id).gateway == t.gateway
  {
  }

  // When it goes through, the request is the order's one accepted one, every rival
  // has expired, and the order carries the winner's company and dates.
  lemma AcceptIsExclusive(t: Tables, id: int, a: ChargeAnswer, fault: int, d: int)
    requires AcceptedTables(t, id, a, fault).1
    ensures var after := AcceptedTables(t, id, a, fault).0; var winner := t.dispatches[id];
      && (d in after.dispatches <==> d in t.dispatches)
      && (d in t.dispatches ==>
        && (t.dispatches[d].orderId == winner.orderId ==>
          after.dispatches[d] == t.dispatches[d].(status := if d == id then Accepted else Expired))
        && (t.dispatches[d].orderId != winner.orderId ==> after.dispatches[d] == t.dispatches[d]))
      && winner.orderId in after.orders
      && CarriedOutBy(after.orders[winner.orderId], winner)
  {
  }

  // Exactly the order's invites expire with it; every other invite stays.
  lemma AcceptExpiresTheInvites(t: Tables, id: int, a: ChargeAnswer, fault: int, i: int)
    requires AcceptedTables(t, id, a, fault).1
    ensures var after := AcceptedTables(t, id, a, fault).0; var orderId := t.dispatches[id].orderId;
      && (i in after.invites <==> i in t.invites)
      && (i in t.invites && t.invites[i].orderId == Some(orderId) ==>
        after.invites[i] == t.invites[i].(status := InviteExpired))
      && (i in t.invites && t.invites[i].orderId != Some(orderId) ==> after.invites[i] == t.invites[i])
  {
  }

  // Nothing else changes: no other order, and no other column of this one.
  lemma AcceptTouchesNothingElse(t: Tables, id: int, a: ChargeAnswer, fault: int)
    requires AcceptedTables(t, id, a, fault).1
    ensures var after := AcceptedTables(t, id, a, fault).0; var orderId := t.dispatches[id].orderId;
      && after == t.(orders := after.orders, dispatches := after.dispatches, invites := after.invites,
        gateway := after.gateway)
      && orderId in after.orders
      && var order := after.orders[orderId];
        after.orders == t.orders[orderId := t.orders[orderId].(status := order.status, payment := order.payment,
          companyId := order.companyId, pickDate := order.pickDate, deliveryDate := order.deliveryDate)]
  {
  }

  predicate CarriedOutBy(order: Order, winner: Dispatch) {
    && order.status == Dispatched && order.payment == FeePaid && order.companyId == Some(winner.companyId)
    && order.pickDate == Some(winner.pickDate) && order.deliveryDate == Some(winner.deliveryDate)
  }

  // Whatever an accept met: when it fails, requests, invites, trips, inspections
  // and every column of every order but one payment status are as before, and at
  // most the client's account has been flagged.
  lemma FailedAcceptLeavesOnlyThePayment(t: Tables, id: int, a: ChargeAnswer, fault: int, orderId: int)
    requires !AcceptedTables(t, id, a, fault).1
    ensures var after := AcceptedTables(t, id, a, fault).0;
      && after == t.(orders := after.orders, paymentFailed := after.paymentFailed, gateway := after.gateway)
      && after.orders.Keys == t.orders.Keys
      && (orderId in t.orders ==> after.orders[orderId] == t.orders[orderId].(payment := after.orders[orderId].payment))
      && (orderId in t.orders && after.orders[orderId] != t.orders[orderId] ==>
        Acceptable(t, id) && t.dispatches[id].orderId == orderId && FeeDue(t, id))
      && (after.paymentFailed == t.paymentFailed || (Acceptable(t, id)
        && after.paymentFailed == t.paymentFailed + {t.orders[t.dispatches[id].orderId].createdById}))
  {
  }

  lemma AcceptLeavesOtherOrders(t: Tables, id: int, a: ChargeAnswer, fault: int, orderId: int)
    requires orderId in t.orders && !(Acceptable(t, id) && t.dispatches[id].orderId == orderId)
    ensures var after := AcceptedTables(t, id, a, fault).0;
      orderId in after.orders && after.orders[orderId] == t.orders[orderId]
  {
  }

  // When the fee was paid and only the rest failed, the next accept of the same
  // request goes through without asking the gateway again.
  lemma RetryNeedsNoSecondCharge(t: Tables, id: int, a: ChargeAnswer, fault: int, again: ChargeAnswer)
    requires Acceptable(t, id) && FeeDue(t, id) && Succeeds(a) && 1 <= fault <= COMMIT
    ensures var failed := AcceptedTables(t, id, a, fault).0;
      && !AcceptedTables(t, id, a, fault).1
      && AcceptedTables(failed, id, again, COMMIT + 1) == (Awarded(failed, id), true)
      && Awarded(failed, id).gateway == t.gateway + [Charge(t.dispatches[id].orderId, ServiceFee, true, true)]
  {
  }

  // Once withdrawn, a request can be neither accepted nor withdrawn nor
  // rescheduled, and its company cannot ask for the order while the row is there.
  lemma WithdrawnIsOut(t: Tables, id: int, companyId: int, other: int, newId: int, pickDate: int, deliveryDate: int)
    requires OpenRequest(t, id, companyId)
    ensures var after := Withdrawn(t, id, companyId);
      && !Acceptable(after, id) && !OpenRequest(after, id, other)
      && Created(after, newId, t.dispatches[id].orderId, companyId, pickDate, deliveryDate) == after
  {
    var after := Withdrawn(t, id, companyId);
    assert id in after.dispatches && after.dispatches[id].companyId == companyId;
  }

  // A company that has none for the order yet makes a request, with its own name
  // and dates, and no other request changes.
  lemma AskingAddsARequest(t: Tables, id: int, orderId: int, companyId: int, pickDate: int, deliveryDate: int)
    requires id !in t.dispatches
    ensures orderId in t.orders && (forall d :: d in t.dispatches ==>
        !(t.dispatches[d].orderId == orderId && t.dispatches[d].companyId == companyId)) ==>
      Created(t, id, orderId, companyId, pickDate, deliveryDate)
        == t.(dispatches := t.dispatches[id := Dispatch(orderId, companyId, New, pickDate, deliveryDate)])
    ensures orderId !in t.orders || (exists d ::
        d in t.dispatches && t.dispatches[d].orderId == orderId && t.dispatches[d].companyId == companyId) ==>
      Created(t, id, orderId, companyId, pickDate, deliveryDate) == t
  {
  }

  // Another company's request, or one that is no longer open, can be neither
  // withdrawn nor rescheduled.
  lemma OthersRequestsAreSafe(t: Tables, id: int, companyId: int, pickDate: int, deliveryDate: int)
    requires id in t.dispatches && (t.dispatches[id].companyId != companyId || t.dispatches[id].status != New)
    ensures Withdrawn(t, id, companyId) == t && Rescheduled(t, id, companyId, pickDate, deliveryDate) == t
  {
  }

  // The dates an open request was last given are those that its order gets.
  lemma RescheduledDatesReachTheOrder(t: Tables, id: int, companyId: int, pickDate: int, deliveryDate: int,
    a: ChargeAnswer, fault: int)
    requires OpenRequest(t, id, companyId)
    requires AcceptedTables(Rescheduled(t, id, companyId, pickDate, deliveryDate), id, a, fault).1
    ensures var after := AcceptedTables(Rescheduled(t, id, companyId, pickDate, deliveryDate), id, a, fault).0;
      var orderId := t.dispatches[id].orderId;
      && orderId in after.orders && after.orders[orderId].companyId == Some(companyId)
      && after.orders[orderId].pickDate == Some(pickDate) && after.orders[orderId].deliveryDate == Some(deliveryDate)
  {
    AcceptIsExclusive(Rescheduled(t, id, companyId, pickDate, deliveryDate), id, a, fault, id);
  }

  // ------------------------------------------------------------------------
  // What every operation on the requests keeps.

  // The company of an accepted request is the order's, unless that was cleared.
  predicate CompanyOf(order: Order, companyId: int) {
    order.companyId == Some(companyId) || order.companyId == None
  }

  // Two requests for one order.
  predicate Rivals(t: Tables, d: int, e: int) {
    d in t.dispatches && e in t.dispatches && d != e && t.dispatches[d].orderId == t.dispatches[e].orderId
  }

  ghost predicate Consistent(t: Tables) {
    && (forall d :: d in t.dispatches ==> t.dispatches[d].orderId in t.orders)
    && (forall d, e :: Rivals(t, d, e) ==>
      && t.dispatches[d].companyId != t.dispatches[e].companyId
      && !(t.dispatches[d].status == Accepted && t.dispatches[e].status == Accepted))
    && (forall d :: d in t.dispatches && t.dispatches[d].status == Accepted ==>
      CompanyOf(t.orders[t.dispatches[d].orderId], t.dispatches[d].companyId))
  }

  lemma CreateKeeps(t: Tables, id: int, orderId: int, companyId: int, pickDate: int, deliveryDate: int)
    requires Consistent(t)
    ensures Consistent(Created(t, id, orderId, companyId, pickDate, deliveryDate))
  {
  }

  lemma RescheduleKeeps(t: Tables, id: int, companyId: int, pickDate: int, deliveryDate: int)
    requires Consistent(t)
    ensures Consistent(Rescheduled(t, id, companyId, pickDate, deliveryDate))
  {
  }

  lemma WithdrawKeeps(t: Tables, id: int, companyId: int)
    requires Consistent(t)
    ensures Consistent(Withdrawn(t, id, companyId))
  {
  }

  lemma AwardKeeps(t: Tables, id: int)
    requires Consistent(t) && Acceptable(t, id)
    ensures Consistent(Awarded(t, id))
  {
    var after := Awarded(t, id);
    forall d, e | Rivals(after, d, e)
      ensures after.dispatches[d].companyId != after.dispatches[e].companyId
      ensures !(after.dispatches[d].status == Accepted && after.dispatches[e].status == Accepted)
    {
      assert Rivals(t, d, e);
    }
  }

  // Operations that leave the requests alone, clear no foreign company and drop
  // no order.
  lemma OtherKeeps(t: Tables, after: Tables)
    requires Consistent(t) && after.dispatches == t.dispatches
    requires forall o :: o in t.orders ==>
      o in after.orders && (after.orders[o].companyId == t.orders[o].companyId || after.orders[o].companyId == None)
    ensures Consistent(after)
  {
  }

  lemma AcceptKeeps(t: Tables, id: int, a: ChargeAnswer, fault: int)
    requires Consistent(t)
    ensures Consistent(AcceptedTables(t, id, a, fault).0)
  {
    if Acceptable(t, id) {
      var c := if FeeDue(t, id) then Charged(t, t.dispatches[id].orderId, ServiceFee, a) else t;
      OtherKeeps(t, c);
      AwardKeeps(c, id);
    }
  }
}
