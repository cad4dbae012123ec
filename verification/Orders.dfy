// The operations of order.service.ts on one order's status and requests.
module Orders {
  import opened Prelude
  import opened Store

  // ------------------------------------------------------------------------
  // create, createOrder and the order part of saveImportedOrder

  // The statuses an order can be created with; the payment columns are empty.
  predicate IsNew(order: Order) {
    && (order.status == Quote || order.status == Published || order.status == Dispatched)
    && order.preStatus == None && order.payment == NoPayment
  }

  function Placed(t: Tables, orderId: int, order: Order): Tables {
    if orderId in t.orders || !IsNew(order) then t
    else t.(orders := t.orders[orderId := order])
  }

  // ------------------------------------------------------------------------
  // cancelRequestDispatch

  function Requests(t: Tables, orderId: int, companyId: int): set<int> {
    set d | d in t.dispatches && t.dispatches[d].orderId == orderId && t.dispatches[d].companyId == companyId
  }

  function RequestsOf(t: Tables, orderId: int): set<int> {
    set d | d in t.dispatches && t.dispatches[d].orderId == orderId
  }

  // The requests of one company, whatever their status.
  function RequestCanceled(t: Tables, orderId: int, companyId: int): Tables {
    if orderId !in t.orders then t
    else t.(dispatches := t.dispatches - Requests(t, orderId, companyId))
  }

  method CancelRequestDispatch(db: Database, orderId: int, companyId: int) returns (ok: bool)
    modifies db
    ensures db.t == RequestCanceled(old(db.t), orderId, companyId) && ok == (orderId in old(db.t).orders)
    ensures ok ==> forall d :: d in db.t.dispatches <==>
      d in old(db.t).dispatches
      && !(old(db.t).dispatches[d].orderId == orderId && old(db.t).dispatches[d].companyId == companyId)
  {
    if orderId !in db.t.orders {
      return false;
    }
    db.t := db.t.(dispatches := db.t.dispatches - Requests(db.t, orderId, companyId));
    return true;
  }

  // ------------------------------------------------------------------------
  // cancelOrderForClient

  predicate UnderWay(status: OrderStatus) {
    status == PickedUp || status == OnDelivery || status == Delivered || status == OnWayToDelivery || status == Paid
  }

  // The two database calls of the transaction that can fail.
  const ORDER_WRITE := 1
  const COMMIT := 2

  function CanceledForClient(t: Tables, orderId: int, fault: int): (Tables, bool) {
    if orderId !in t.orders || UnderWay(t.orders[orderId].status) || ORDER_WRITE <= fault <= COMMIT then (t, false)
    else (t.(orders := t.orders[orderId := t.orders[orderId].(status := Canceled)]), true)
  }

  method CancelOrderForClient(db: Database, orderId: int, fault: int) returns (ok: bool)
    modifies db
    ensures (db.t, ok) == CanceledForClient(old(db.t), orderId, fault)
  {
    if orderId !in db.t.orders {
      return false;
    }
    var order := db.t.orders[orderId];
    if UnderWay(order.status) || fault == ORDER_WRITE {
      return false;
    }
    var tx := db.t.(orders := db.t.orders[orderId := order.(status := Canceled)]);
    if fault == COMMIT {
      return false;
    }
    db.t := tx;
    return true;
  }

  // ------------------------------------------------------------------------
  // decline: by the driver of a trip that is not completed

  predicate OnOpenTrip(t: Tables, orderId: int, driverId: int) {
    exists l :: l in t.links && t.links[l].orderId == orderId && t.links[l].tripId in t.trips
      && t.trips[t.links[l].tripId].status != Completed && t.trips[t.links[l].tripId].driverId == Some(driverId)
  }

  predicate Declinable(status: OrderStatus) {
    !UnderWay(status) && status != Deleted && status != Declined && status != Canceled && status != Archived
  }

  function InspectionsOf(t: Tables, orderId: int): set<int> {
    set i | i in t.inspections && t.inspections[i].orderId == orderId
  }

  function DeclinedTables(t: Tables, orderId: int, driverId: int, fault: int): (Tables, bool) {
    if orderId !in t.orders || !Declinable(t.orders[orderId].status) || !OnOpenTrip(t, orderId, driverId)
      || ORDER_WRITE <= fault <= COMMIT then (t, false)
    else (t.(
      orders := t.orders[orderId := t.orders[orderId].(status := Declined)],
      inspections := t.inspections - InspectionsOf(t, orderId)), true)
  }

  method Decline(db: Database, orderId: int, driverId: int, fault: int) returns (ok: bool)
    modifies db
    ensures (db.t, ok) == DeclinedTables(old(db.t), orderId, driverId, fault)
    ensures ok ==> forall i :: i in db.t.inspections <==>
      i in old(db.t).inspections && old(db.t).inspections[i].orderId != orderId
  {
    if orderId !in db.t.orders || !Declinable(db.t.orders[orderId].status) {
      return false;
    }
    if !OnOpenTrip(db.t, orderId, driverId) || fault == ORDER_WRITE {
      return false;
    }
    var tx := db.t.(orders := db.t.orders[orderId := db.t.orders[orderId].(status := Declined)]);
    tx := tx.(inspections := tx.inspections - InspectionsOf(tx, orderId));
    if fault == COMMIT {
      return false;
    }
    db.t := tx;
    return true;
  }

  // ------------------------------------------------------------------------
  // changeOrderAction and checkDriverIsNear...: one status write each

  datatype Move = ToPickup | ToDelivery | AtDelivery | NearPickup | NearDelivery

  // The write a move makes, None when the order's status does not allow it.
  function Moved(status: OrderStatus, move: Move): Option<OrderStatus> {
    match move
    case ToPickup =>
      if status == Dispatched || status == OnPickup || status == OnWayToPickup then Some(OnPickup) else None
    case ToDelivery => if status == PickedUp then Some(OnWayToDelivery) else None
    case AtDelivery => if status == OnWayToDelivery then Some(OnDelivery) else None
    case NearPickup => if status == OnWayToPickup then Some(OnPickup) else None
    case NearDelivery => if status == PickedUp then Some(OnDelivery) else None
  }

  // The order rides on a trip of the driver and on an active trip, which the
  // actions look up separately.
  predicate OnTripOf(t: Tables, orderId: int, driverId: int) {
    exists l :: l in t.links && t.links[l].orderId == orderId && t.links[l].tripId in t.trips
      && t.trips[t.links[l].tripId].driverId == Some(driverId)
  }

  predicate OnAnyActiveTrip(t: Tables, orderId: int) {
    exists l :: l in t.links && t.links[l].orderId == orderId && t.links[l].tripId in t.trips
      && t.trips[t.links[l].tripId].status == Active
  }

  predicate MayMove(t: Tables, orderId: int, driverId: int, move: Move) {
    && orderId in t.orders && Moved(t.orders[orderId].status, move).Some?
    && if move.NearPickup? || move.NearDelivery?
      then OnActiveTrip(t, orderId, driverId)
      else OnTripOf(t, orderId, driverId) && OnAnyActiveTrip(t, orderId)
  }

  function MovedTables(t: Tables, orderId: int, driverId: int, move: Move): Tables {
    if !MayMove(t, orderId, driverId, move) then t
    else t.(orders := t.orders[orderId := t.orders[orderId].(status := Moved(t.orders[orderId].status, move).value)])
  }

  method ChangeOrderAction(db: Database, orderId: int, driverId: int, move: Move) returns (ok: bool)
    requires move.ToPickup? || move.ToDelivery? || move.AtDelivery?
    modifies db
    ensures db.t == MovedTables(old(db.t), orderId, driverId, move) && ok == MayMove(old(db.t), orderId, driverId, move)
  {
    if orderId !in db.t.orders || !OnTripOf(db.t, orderId, driverId) {
      return false;
    }
    var order := db.t.orders[orderId];
    var next := order.status;
    match move {
      case ToPickup =>
        if order.status != Dispatched && order.status != OnPickup && order.status != OnWayToPickup {
          return false;
        }
        next := OnPickup;
      case ToDelivery =>
        if order.status != PickedUp {
          return false;
        }
        next := OnWayToDelivery;
      case AtDelivery =>
        if order.status != OnWayToDelivery {
          return false;
        }
        next := OnDelivery;
    }
    if !OnAnyActiveTrip(db.t, orderId) {
      return false;
    }
    db.t := db.t.(orders := db.t.orders[orderId := order.(status := next)]);
    return true;
  }

  // checkDriverIsNearOrderToPickUp and ...ToDelivery, for the order that the
  // lookup finds; `near` is the answer of the distance comparison. The lookup of
  // the second one asks for picked-up orders.
  method CheckDriverIsNear(db: Database, orderId: int, driverId: int, move: Move, near: bool)
    requires move.NearPickup? || move.NearDelivery?
    modifies db
    ensures db.t == if near then MovedTables(old(db.t), orderId, driverId, move) else old(db.t)
  {
    if orderId !in db.t.orders || !OnActiveTrip(db.t, orderId, driverId) || !near {
      return;
    }
    var order := db.t.orders[orderId];
    if move.NearPickup? && order.status == OnWayToPickup {
      db.t := db.t.(orders := db.t.orders[orderId := order.(status := OnPickup)]);
    } else if move.NearDelivery? && order.status == PickedUp {
      db.t := db.t.(orders := db.t.orders[orderId := order.(status := OnDelivery)]);
    }
  }

  // The client can cancel exactly orders that are not under way, and then nothing
  // but the status changes.
  lemma ClientCancelExactlyWhen(t: Tables, orderId: int, fault: int)
    ensures var result := CanceledForClient(t, orderId, fault);
      && (result.1 <==>
        && orderId in t.orders && !(ORDER_WRITE <= fault <= COMMIT)
        && t.orders[orderId].status !in {PickedUp, OnDelivery, Delivered, OnWayToDelivery, Paid})
      && result.0 == if result.1 then t.(orders := t.orders[orderId := t.orders[orderId].(status := Canceled)]) else t
  {
  }

  // The driver of an open trip can decline exactly orders that are neither under
  // way nor closed; the status and the order's inspections change together.
  lemma DeclineExactlyWhen(t: Tables, orderId: int, driverId: int, fault: int)
    ensures DeclinedTables(t, orderId, driverId, fault).1 <==>
      && orderId in t.orders && !(ORDER_WRITE <= fault <= COMMIT)
      && t.orders[orderId].status !in {PickedUp, OnDelivery, Delivered, OnWayToDelivery, Paid}
      && t.orders[orderId].status !in {Deleted, Declined, Canceled, Archived}
      && OnOpenTrip(t, orderId, driverId)
  {
  }

  lemma DeclineWrites(t: Tables, orderId: int, driverId: int, fault: int, i: int)
    ensures var result := DeclinedTables(t, orderId, driverId, fault);
      if result.1 then
        && orderId in t.orders
        && result.0 == t.(orders := t.orders[orderId := t.orders[orderId].(status := Declined)],
          inspections := result.0.inspections)
        && (i in result.0.inspections <==> i in t.inspections && t.inspections[i].orderId != orderId)
        && (i in result.0.inspections ==> result.0.inspections[i] == t.inspections[i])
      else result.0 == t
  {
  }

  // Where a move may start and where it leads.
  function MoveTable(move: Move): (set<OrderStatus>, OrderStatus) {
    match move
    case ToPickup => ({Dispatched, OnPickup, OnWayToPickup}, OnPickup)
    case ToDelivery => ({PickedUp}, OnWayToDelivery)
    case AtDelivery => ({OnWayToDelivery}, OnDelivery)
    case NearPickup => ({OnWayToPickup}, OnPickup)
    case NearDelivery => ({PickedUp}, OnDelivery)
  }

  // A move is made exactly from there and for an order on a trip of the driver:
  // by the driver's word one of his trips and an active one, by nearness one that
  // is both. It changes nothing but the status.
  lemma MovesExactlyWhen(t: Tables, orderId: int, driverId: int, move: Move)
    ensures MovedTables(t, orderId, driverId, move) ==
      if orderId in t.orders && t.orders[orderId].status in MoveTable(move).0
        && (if move == NearPickup || move == NearDelivery then OnActiveTrip(t, orderId, driverId)
            else OnTripOf(t, orderId, driverId) && OnAnyActiveTrip(t, orderId))
      then t.(orders := t.orders[orderId := t.orders[orderId].(status := MoveTable(move).1)]) else t
  {
  }

  // What the four lookups of a trip of the order find.
  ghost predicate RidesWhere(t: Tables, orderId: int, wanted: Trip -> bool) {
    exists l, trip :: l in t.links && t.links[l] == Link(trip, orderId) && trip in t.trips && wanted(t.trips[trip])
  }

  lemma TripLookups(t: Tables, orderId: int, driverId: int)
    ensures OnTripOf(t, orderId, driverId) <==> RidesWhere(t, orderId, (trip: Trip) => trip.driverId == Some(driverId))
    ensures OnAnyActiveTrip(t, orderId) <==> RidesWhere(t, orderId, (trip: Trip) => trip.status == Active)
    ensures OnActiveTrip(t, orderId, driverId)
      <==> RidesWhere(t, orderId, (trip: Trip) => trip.status == Active && trip.driverId == Some(driverId))
    ensures OnOpenTrip(t, orderId, driverId)
      <==> RidesWhere(t, orderId, (trip: Trip) => trip.status != Completed && trip.driverId == Some(driverId))
  {
    forall l | l in t.links && t.links[l].orderId == orderId
      ensures t.links[l] == Link(t.links[l].tripId, orderId)
    {
    }
  }

  // An order comes to OnDelivery from being on its way there by the driver's own
  // word, and straight from being picked up by the check of nearness; an order on
  // its way is never moved by that check.
  lemma OnDeliveryComesFrom(t: Tables, orderId: int, driverId: int, move: Move)
    requires orderId in t.orders && t.orders[orderId].status != OnDelivery
    ensures var after, status := MovedTables(t, orderId, driverId, move), t.orders[orderId].status;
      && orderId in after.orders
      && (after.orders[orderId].status == OnDelivery <==>
        && MayMove(t, orderId, driverId, move)
        && ((move == AtDelivery && status == OnWayToDelivery) || (move == NearDelivery && status == PickedUp)))
      && (status == OnWayToDelivery && move == NearDelivery ==> after == t)
  {
  }

  // ------------------------------------------------------------------------
  // Plain status writes: publishing, a trip created with orders, markPaid,
  // sendInvoice, archiveOrder, delete, and a driver setting out. They are taken
  // to be possible at any time.

  predicate PlainStatus(status: OrderStatus) {
    status == Published || status == Dispatched || status == OnWayToPickup
    || status == Paid || status == Billed || status == Archived || status == Deleted
  }

  function StatusSet(t: Tables, orderId: int, status: OrderStatus): Tables {
    if orderId !in t.orders || !PlainStatus(status) then t
    else t.(orders := t.orders[orderId := t.orders[orderId].(
      status := status, published := if status == Deleted then false else t.orders[orderId].published)])
  }
}
