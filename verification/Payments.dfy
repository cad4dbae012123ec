// Charging the client: chargeServiceFee of dispatch.service.ts, chargeOrder of
// order.service.ts and the retries of failed charges in both.
module Payments {
  import opened Store

  // What a charge meets outside: whether the gateway takes the money, whether the
  // status write that follows reaches the row, and whether the writes that record
  // a failure on the order and on the account do.
  datatype ChargeAnswer = ChargeAnswer(approved: bool, recorded: bool, failureRecorded: bool, flagged: bool)

  predicate Succeeds(a: ChargeAnswer) {
    a.approved && a.recorded
  }

  function PaidStatus(kind: ChargeKind): ClientPayment {
    match kind case ServiceFee => FeePaid case CarPickup => PickupPaid
  }

  function FailedStatus(kind: ChargeKind): ClientPayment {
    match kind case ServiceFee => FeeFailed case CarPickup => PickupFailed
  }

  // All of this is written outside any transaction of the caller.
  function Charged(t: Tables, orderId: int, kind: ChargeKind, a: ChargeAnswer): Tables
    requires orderId in t.orders
  {
    var order := t.orders[orderId];
    var payment :=
      if Succeeds(a) then PaidStatus(kind) else if a.failureRecorded then FailedStatus(kind) else order.payment;
    t.(
      orders := t.orders[orderId := order.(payment := payment)],
      paymentFailed :=
        if !Succeeds(a) && a.failureRecorded && a.flagged
        then t.paymentFailed + {order.createdById} else t.paymentFailed,
      gateway := t.gateway + [Charge(orderId, kind, a.approved, Succeeds(a))])
  }

  method ChargeOrder(db: Database, orderId: int, kind: ChargeKind, a: ChargeAnswer) returns (ok: bool)
    requires orderId in db.t.orders
    modifies db
    ensures db.t == Charged(old(db.t), orderId, kind, a) && ok == Succeeds(a)
  {
    var order := db.t.orders[orderId];
    db.t := db.t.(gateway := db.t.gateway + [Charge(orderId, kind, a.approved, a.approved && a.recorded)]);
    if a.approved && a.recorded {
      db.t := db.t.(orders := db.t.orders[orderId := order.(payment := PaidStatus(kind))]);
      return true;
    }
    if a.failureRecorded {
      db.t := db.t.(orders := db.t.orders[orderId := order.(payment := FailedStatus(kind))]);
      if a.flagged {
        db.t := db.t.(paymentFailed := db.t.paymentFailed + {order.createdById});
      }
    }
    return false;
  }

  // A retry selects the order only while its payment status is the failed one;
  // the pickup retry also leaves out orders that are paid at delivery.
  predicate Retried(order: Order, kind: ChargeKind) {
    order.payment == FailedStatus(kind) && (kind == CarPickup ==> !order.paymentDelivery)
  }

  // `billable` is false when the order has no earlier transaction to take the
  // company from, which ends the retry of a fee before the gateway is asked.
  function Retry(t: Tables, orderId: int, kind: ChargeKind, billable: bool, a: ChargeAnswer): Tables {
    if orderId in t.orders && Retried(t.orders[orderId], kind) && (billable || kind == CarPickup)
    then Charged(t, orderId, kind, a)
    else t
  }

  // What happened to one order of a retry round.
  datatype Round = Round(orderId: int, billable: bool, answer: ChargeAnswer)

  function RetryAll(t: Tables, kind: ChargeKind, rounds: seq<Round>): Tables {
    if rounds == [] then t
    else
      var last := rounds[|rounds| - 1];
      Retry(RetryAll(t, kind, rounds[..|rounds| - 1]), last.orderId, kind, last.billable, last.answer)
  }

  // chargeOrdersFailed: the orders are selected once, before the first charge;
  // `rounds` lists them in the order in which they are charged.
  method ChargeOrdersFailed(db: Database, createdById: int, kind: ChargeKind, rounds: seq<Round>)
    requires forall i, j :: 0 <= i < j < |rounds| ==> rounds[i].orderId != rounds[j].orderId
    requires forall i :: 0 <= i < |rounds| ==>
      && rounds[i].orderId in db.t.orders
      && db.t.orders[rounds[i].orderId].createdById == createdById
      && Retried(db.t.orders[rounds[i].orderId], kind)
    modifies db
    ensures db.t == RetryAll(old(db.t), kind, rounds)
  {
    for i := 0 to |rounds|
      invariant db.t == RetryAll(old(db.t), kind, rounds[..i])
      invariant forall j :: i <= j < |rounds| ==>
        rounds[j].orderId in db.t.orders && db.t.orders[rounds[j].orderId] == old(db.t).orders[rounds[j].orderId]
    {
      assert rounds[..i + 1][..i] == rounds[..i];
      if rounds[i].billable || kind == CarPickup {
        var _ := ChargeOrder(db, rounds[i].orderId, kind, rounds[i].answer);
      }
    }
    assert rounds[..|rounds|] == rounds;
  }

  // ------------------------------------------------------------------------
  // What a charge and a retry leave behind.

  // A charge adds one entry to the gateway's log. Taken and recorded it leaves the
  // paid status of its kind; otherwise the failed status of its kind and the flag on
  // the client's account, as far as those two writes get.
  lemma ChargeWrites(t: Tables, orderId: int, kind: ChargeKind, a: ChargeAnswer)
    requires orderId in t.orders
    ensures var after, order := Charged(t, orderId, kind, a), t.orders[orderId];
      && after == t.(orders := after.orders, paymentFailed := after.paymentFailed, gateway := after.gateway)
      && after.gateway == t.gateway + [Charge(orderId, kind, a.approved, a.approved && a.recorded)]
      && orderId in after.orders
      && after.orders == t.orders[orderId := order.(payment := after.orders[orderId].payment)]
      && (a.approved && a.recorded ==>
        && after.orders[orderId].payment == (if kind == ServiceFee then FeePaid else PickupPaid)
        && after.paymentFailed == t.paymentFailed)
      && (!(a.approved && a.recorded) && a.failureRecorded ==>
        && after.orders[orderId].payment == (if kind == ServiceFee then FeeFailed else PickupFailed)
        && after.paymentFailed == if a.flagged then t.paymentFailed + {order.createdById} else t.paymentFailed)
      && (!(a.approved && a.recorded) && !a.failureRecorded ==>
        after.orders == t.orders && after.paymentFailed == t.paymentFailed)
  {
  }

  // A retry asks the gateway exactly for orders whose charge of the kind failed: a
  // fee when there is a company to bill it to, a pickup unless the order is to be
  // paid at delivery.
  lemma RetryChargesExactlyWhen(t: Tables, orderId: int, kind: ChargeKind, billable: bool, a: ChargeAnswer)
    ensures Retry(t, orderId, kind, billable, a).gateway == t.gateway + (
      if orderId in t.orders && (
          (kind == ServiceFee && t.orders[orderId].payment == FeeFailed && billable)
          || (kind == CarPickup && t.orders[orderId].payment == PickupFailed && !t.orders[orderId].paymentDelivery))
      then [Charge(orderId, kind, a.approved, a.approved && a.recorded)] else [])
  {
  }

  // So a charge that failed is what its own retry picks up, and the other's not.
  lemma FailedChargeIsRetriedAsItself(t: Tables, orderId: int, kind: ChargeKind, a: ChargeAnswer, again: ChargeAnswer,
    retried: ChargeKind)
    requires orderId in t.orders && !(a.approved && a.recorded) && a.failureRecorded
    requires !t.orders[orderId].paymentDelivery
    ensures var failed := Charged(t, orderId, kind, a);
      Retry(failed, orderId, retried, true, again) == failed <==> retried != kind
  {
    var failed := Charged(t, orderId, kind, a);
    assert retried == kind ==> |Retry(failed, orderId, retried, true, again).gateway| == |failed.gateway| + 1;
  }

  // ------------------------------------------------------------------------
  // Reading the gateway's log.

  // Charges of one kind asked for an order.
  function Attempts(log: seq<Charge>, orderId: int, kind: ChargeKind): nat {
    if log == [] then 0
    else
      var last := log[|log| - 1];
      Attempts(log[..|log| - 1], orderId, kind) + if last.orderId == orderId && last.kind == kind then 1 else 0
  }

  // Charges that took money.
  function Successes(log: seq<Charge>, orderId: int, kind: ChargeKind): nat {
    if log == [] then 0
    else
      var last := log[|log| - 1];
      Successes(log[..|log| - 1], orderId, kind)
      + if last.orderId == orderId && last.kind == kind && last.approved then 1 else 0
  }

  // Charges that took money without the order learning of it.
  function Lost(log: seq<Charge>, orderId: int, kind: ChargeKind): nat {
    if log == [] then 0
    else
      var last := log[|log| - 1];
      Lost(log[..|log| - 1], orderId, kind)
      + if last.orderId == orderId && last.kind == kind && last.approved && !last.recorded then 1 else 0
  }

  function Other(kind: ChargeKind): ChargeKind {
    match kind case ServiceFee => CarPickup case CarPickup => ServiceFee
  }

  // What every operation keeps about one order: not counting lost ones, a kind
  // of charge has succeeded at most as often as the other kind was asked for,
  // and once more only while the order carries the paid status of that kind.
  predicate Balanced(log: seq<Charge>, orderId: int, payment: ClientPayment, kind: ChargeKind) {
    Successes(log, orderId, kind) <=
      Lost(log, orderId, kind) + Attempts(log, orderId, Other(kind)) + if payment == PaidStatus(kind) then 1 else 0
  }

  // Asking for a charge keeps the balance of both kinds, provided it is asked for
  // only while the order does not carry the paid status of that kind.
  lemma ChargeKeepsBalance(t: Tables, orderId: int, kind: ChargeKind, a: ChargeAnswer, id: int, k: ChargeKind)
    requires orderId in t.orders && id in t.orders && t.orders[orderId].payment != PaidStatus(kind)
    requires Balanced(t.gateway, id, t.orders[id].payment, k)
    ensures var c := Charged(t, orderId, kind, a);
      Balanced(c.gateway, id, c.orders[id].payment, k)
  {
    var c := Charged(t, orderId, kind, a);
    assert c.gateway[..|c.gateway| - 1] == t.gateway;
  }

  // An order the gateway has never seen.
  lemma {:induction false} UnseenIsBalanced(log: seq<Charge>, orderId: int, payment: ClientPayment, kind: ChargeKind)
    requires forall i :: 0 <= i < |log| ==> log[i].orderId != orderId
    ensures Attempts(log, orderId, kind) == Successes(log, orderId, kind) == 0
    ensures Balanced(log, orderId, payment, kind)
  {
    if log != [] {
      UnseenIsBalanced(log[..|log| - 1], orderId, payment, kind);
    }
  }
}
