// The tables that the order, dispatch, inspection and trip services share.
module Store {
  import opened Prelude

  datatype OrderStatus =
    | Quote | Published | Declined | Claimed | Dispatched | Canceled | Paid
    | OnPickup | OnWayToPickup | PickedUp | OnDelivery | Delivered | OnWayToDelivery
    | SignatureRequested | Deleted | Archived | Billed

  datatype Source = Internal | Pdf | Manual

  datatype ClientPayment = NoPayment | FeeFailed | FeePaid | PickupFailed | PickupPaid

  datatype Order = Order(
    status: OrderStatus,
    preStatus: Option<OrderStatus>,
    source: Source,
    published: bool,
    paymentDelivery: bool,
    payment: ClientPayment,
    companyId: Option<int>,
    dispatcherId: Option<int>,
    pickDate: Option<int>,
    deliveryDate: Option<int>,
    createdById: int,
    salePrice: Money)

  datatype DispatchStatus = New | Accepted | Cancelled | Expired

  datatype Dispatch = Dispatch(
    orderId: int,
    companyId: int,
    status: DispatchStatus,
    pickDate: int,
    deliveryDate: int)

  datatype InviteStatus = Pending | InviteAccepted | InviteDeclined | InviteExpired

  datatype Invite = Invite(orderId: Option<int>, status: InviteStatus)

  datatype InspectionType = Pickup | Delivery

  datatype InspectionStatus = Started | PendingSignature | Viewed | Refused | Signed | Finished | Requested

  datatype Inspection = Inspection(
    kind: InspectionType,
    orderId: int,
    carId: int,
    driverId: int,
    status: InspectionStatus,
    details: seq<string>,
    notes: Option<string>,
    signedBy: Option<string>)

  datatype TripStatus = Draft | Pending | Active | Completed

  datatype Trip = Trip(
    status: TripStatus,
    companyId: int,
    driverId: Option<int>,
    dispatcherId: Option<int>,
    totalPrice: Money)

  // A row of orderToTrip.
  datatype Link = Link(tripId: int, orderId: int)

  datatype ChargeKind = ServiceFee | CarPickup

  // One charge as the payment gateway saw it. `recorded` says whether the
  // status write that follows a successful charge reached the order row.
  datatype Charge = Charge(orderId: int, kind: ChargeKind, approved: bool, recorded: bool)

  // `gateway` is the gateway's own log and `paymentFailed` the flagged accounts.
  datatype Tables = Tables(
    orders: map<int, Order>,
    dispatches: map<int, Dispatch>,
    invites: map<int, Invite>,
    inspections: map<int, Inspection>,
    cars: map<int, int>,
    trips: map<int, Trip>,
    links: map<int, Link>,
    paymentFailed: set<int>,
    gateway: seq<Charge>)

  // The order is on an active trip of the driver (getOrderTrip and its caller's check).
  predicate OnActiveTrip(t: Tables, orderId: int, driverId: int) {
    exists l :: l in t.links && t.links[l].orderId == orderId && t.links[l].tripId in t.trips
      && t.trips[t.links[l].tripId].status == Active && t.trips[t.links[l].tripId].driverId == Some(driverId)
  }

  predicate OnTrip(t: Tables, orderId: int) {
    exists l :: l in t.links && t.links[l].orderId == orderId
  }

  const EMPTY := Tables(map[], map[], map[], map[], map[], map[], map[], {}, [])

  // The database: every committed write replaces a table in place.
  class Database {
    var t: Tables

    constructor ()
      ensures t == EMPTY
    {
      t := EMPTY;
    }
  }
}
