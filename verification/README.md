# Car-shipping backend: a verified model

This project models the behaviour of a car-shipping backend (a NestJS service
over PostgreSQL) in Dafny and proves what its services promise: the life of an
order from its publication to its delivery, the carriers' competing requests,
the inspections of its cars, the charges of its client, the trips it rides on
with their cached totals, and eight self-contained algorithms beside it.

`dafny verify dfyconfig.toml` checks everything.

## How it is modelled

The database is `Store.Database`, a class whose one field holds the tables as
maps by id. Every service call is a method that changes it step by step, with
one parameter for each answer from outside and a number that says which of its
database calls fails. A transaction works on its own copy (`tx`), and leaving
without assigning the copy back is the rollback; the charges, which the services
write outside the transaction, go straight to the database. Each method is
proved equal to a specification function on the tables, and everything else is
proved about these functions. `Lifecycle` lists all of them as the events of one
state machine, and the modules after it prove what holds in every run.

| module | part of the system |
|---|---|
| `Prelude`, `Store` | shared vocabulary, the tables |
| `Payments` | service fee and pickup charge, their retries, the gateway's log |
| `Dispatching` | requests of carriers: create, reschedule, withdraw, accept |
| `Orders` | creation, cancelling by the client, declining, the driver's moves |
| `Inspections`, `InspectionEffects`, `InspectionProofs` | inspections, damages, cloning, signature request, signing |
| `Trips`, `TripEffects`, `TripProofs` | trip links and cached totals |
| `Lifecycle` | all of these as one state machine |
| `Guarantees`, `RequestRuns`, `Deliveries`, `Damages`, `InspectionRuns`, `PickupRuns`, `TripRuns` | what holds in every run |
| `Journey`, `Passage` | a short run that the examples of failing runs start from, and a whole one from placement to delivery |
| `Routing`, `Sequencing` | waypoint layout and stop order |
| `Templates`, `Reports`, `Records`, `ChildRows`, `Sockets`, `Leads` | the self-contained algorithms |

## Where the code and its intent differ

Each of these is kept as the code has it. The lemmas named say when the intent is
met: exactly when, unless a line says otherwise.

- A list with a virtual start collides in the waypoint keys
  (`src/app/here/here.service.ts:256-261`): laid out as intended exactly when
  nothing follows the start (`Routing.VirtualStartCollides`).
- A trip stores the last order's delivery location although its route ends at
  the first order's (`src/app/here/here.service.ts:410-439`): it names the last
  stop exactly when both deliver to the same point
  (`Routing.StoredDeliveryIsTheLastStopExactlyWhen`).
- Signing a delivery compares preStatus with DECLINED, recording damages writes
  CLAIMED (`src/app/order/order.service.ts:2017`,
  `src/app/inspection/inspection.service.ts:400`): the order always ends DELIVERED
  (`Damages.SignedDeliveriesEndDelivered`).
- Comparing with CLAIMED would not be enough: after damages were recorded, a signature
  request that goes through overwrites the mark (`src/app/order/order.service.ts:1846-1850`)
  and a pickup signing clears it (`src/app/order/order.service.ts:2032-2036`), while only
  a delivery signing signs the damages. So no value to compare with meets the rule in
  every run (`Damages.NoComparisonMeetsTheRule`, `Damages.PickupSigningLosesTheMark`).
  With CLAIMED it is met throughout a run exactly when neither goes through while the
  order carries the mark (`Damages.RuleHoldsThroughoutExactlyWhen`,
  `Damages.RuleForOneOrder`). Declining deletes the damaged inspections and keeps the
  mark (`src/app/order/order.service.ts:1564-1569`, `Damages.DeclineKeepsTheMark`).
- A finished inspection that the client views before the driver's request is finished
  no more (`src/app/inspection/inspection.service.ts:346-366`): the request then goes
  through exactly when it would have and the inspection is of the other type
  (`InspectionProofs.RequestAfterViewExactlyWhen`).
- Cancelling by the client leaves the carriers' requests as they are, and accepting one
  dispatches the order again (`src/app/order/order.service.ts:412-414`): no accept can
  exactly when none of them is open (`RequestRuns.CanceledOrderIsSafeExactlyWhen`). Later
  on the order stays canceled exactly until such an accept or a plain status write
  (`RequestRuns.StaysCanceledExactlyWhen`); asking does not look at its status either
  (`RequestRuns.CanceledOrderCanBeAskedFor`).
- A company has one request per order, but cancelling its requests deletes closed ones
  too, and then it can ask again (`src/app/order/order.service.ts:275-280`): it is kept
  from asking exactly until that or until a carrier cancels the order
  (`RequestRuns.KeptFromAskingExactlyWhen`, `RequestRuns.WithdrawnCompanyCanAskAgain`).
- Due and past due are exchanged between the two reports
  (`src/repositories/order.repository.ts:874-887`, `:917-929`): read under their own
  labels they agree at every time exactly when no selected order has an unpaid invoice
  with a due date and a positive price (`Reports.LabelsAgreeExactlyWhen`).
- Cancelling an order recalculates its trip outside the transaction and still
  sees the removed link (`src/app/order/order.service.ts:364`):
  `TripProofs.CancelingLeavesThePriceIn`, `TripProofs.CancelKeepsBoardExactlyWhen`, and a
  run in which it fails, `TripRuns.CancelingBreaksTheTotals`.
- A trip is completed by counting orders that are not delivered or claimed, and
  orders already billed or paid are among them
  (`src/repositories/order.repository.ts:772-780`): `Trips.TripCompletesExactlyWhen`.
- Accepting a request does not look at the order's status
  (`src/app/dispatch/dispatch.service.ts:116-156`): `Deliveries.AcceptIsSafeExactlyWhen`,
  over whole runs `Deliveries.OrdersInTransitArePaidExactlyWhen`, and a run in which it
  fails, `Deliveries.AcceptBreaksThePromise`.
- Creating or editing an inspection does not compare the car's order with the one it
  names (`src/app/inspection/inspection.service.ts:51-130`, `:158-208`): one entry keeps
  every inspection with its own order exactly when it names the car's order or is
  turned down (`InspectionRuns.StepKeepsOwnCarsExactlyWhen`); otherwise the count of the
  signature request can be right while a car has no inspection
  (`InspectionRuns.ForeignCarFoolsTheCount`, a reached state).
- The check whether a driver is near the delivery looks for picked-up orders, not
  for those on their way (`src/repositories/order.repository.ts:711-725`), which it never
  moves (`Orders.OnDeliveryComesFrom`); and it measures the distance to the pickup
  location (`src/app/order/order.service.ts:1741-1744`), which is part of a parameter here.
- The record comparison takes an undefined value for an absent one
  (`src/utils/order.utils.ts:14-31`): it compares a record as a map with all others
  exactly when the record holds none, or a NaN (`Records.ComparesAsMapExactlyWhen`).
- A disconnect removes a connection from one account only
  (`src/app/events/events.gateway.ts:34-43`): `Sockets.IndexIsLiveExactlyWhen`.
- A mail template is filled key by key, so values with an opening brace can make or
  hold a placeholder that is filled again (`src/mail/mail.service.ts:70-76`): values
  over an alphabet are safe in every template exactly when it lacks that brace
  (`Templates.ValuesAreSafeExactlyWhen`, `Templates.BracesInValuesShowTheOrder`).

## Model

| member | source | states |
|---|---|---|
| Guarantees.EveryRunIsConsistent | src/app/dispatch/dispatch.service.ts:50-198 | in every run of all events an order has at most one accepted request and at most one request per company, and the accepted company is the order's unless that was cleared |
| Guarantees.ChargesAreBounded | src/app/order/order.service.ts:2661-2696 | in every run, for both kinds of charge: successes for an order never exceed one plus the attempts of the other kind plus the charges whose status write was lost |
| Guarantees.ChargesAreBoundedWithoutLosses | src/app/dispatch/dispatch.service.ts:200-229 | when no status write after a charge is lost, successes never exceed one plus the attempts of the other kind |
| Guarantees.LostWriteChargesTwice | src/app/dispatch/dispatch.service.ts:207-216 | one lost status write and the next accept take the fee a second time with no pickup charge between, so the term for lost writes is needed |
| Guarantees.EveryRunBalances | src/app/order/order.service.ts:2019-2030 | the invariant behind the bound: the ledger of every order balances against its payment status after every event |
| Guarantees.PickupsAreChargedWhenDue | src/app/order/order.service.ts:2019-2024 | in every run the gateway is asked for a pickup only for internal orders that are not to be paid at delivery, by signings and retries alike |
| Deliveries.OrdersInTransitArePaidExactlyWhen | src/app/order/order.service.ts:2014-2036 | over every run, an internal order not paid at delivery that is picked up, on its way or at the delivery has its pickup paid throughout exactly when there is no accept for such an order whose charge is recorded as failed, or succeeds before a later call fails |
| Deliveries.OrdersInTransitArePaid | src/app/order/order.service.ts:983-989 | so it does in every run whose accepts are made for orders that need not be paid yet, as are published ones |
| Deliveries.StepKeepsPaidForExactlyWhen | src/app/dispatch/dispatch.service.ts:116-229 | for every event, that condition on the tables before it is what breaks the promise |
| Deliveries.PaidForMeans | src/app/order/order.service.ts:2661-2671 | what the promise is, in the order's columns |
| Deliveries.AcceptBreaksThePromise | src/app/dispatch/dispatch.service.ts:137-150 | a run of eight events reaches an order on its way whose paid pickup an accept has overwritten |
| Deliveries.AcceptIsSafeExactlyWhen | src/app/dispatch/dispatch.service.ts:116-176 | accepting keeps that promise for every answer and fault exactly when the order is not already one that must be paid |
| Damages.PreStatusTellsDamage | src/app/inspection/inspection.service.ts:371-402 | in every run preStatus is empty, ON_PICKUP, ON_DELIVERY or CLAIMED, and it is CLAIMED exactly for damages recorded since the last delivery signing that no signature request or pickup signing has overwritten |
| Damages.SignedDeliveriesEndDelivered | src/app/order/order.service.ts:2014-2017 | in every reachable state a delivery signing that goes through ends DELIVERED, damaged or not |
| Damages.NoComparisonMeetsTheRule | src/app/order/order.service.ts:2014-2017 | for every value to compare preStatus with there is a run to an order the client may sign whose delivery signing breaks the rule that damages recorded before the signing end CLAIMED and all else DELIVERED |
| Damages.RuleHoldsThroughoutExactlyWhen | src/app/order/order.service.ts:1846-1850 | compared with CLAIMED, the rule is met after every part of a run exactly when no signature request and no pickup signing of the order goes through while its preStatus is CLAIMED |
| Damages.RuleStep | src/app/order/order.service.ts:2032-2036 | one event breaks the rule compared with CLAIMED exactly by being such a request or such a pickup signing |
| Damages.PickupSigningLosesTheMark | src/app/order/order.service.ts:1897-1901 | a run in which the client signs the pickup after damages were recorded; they stay unsigned and the delivery would end DELIVERED |
| Damages.RuleForOneOrder | src/app/order/order.service.ts:2014-2036 | for any order of any run: as coded the rule is met exactly without damages since the last delivery signing; compared with CLAIMED exactly unless a request or a pickup signing went through after the last damages |
| InspectionRuns.EveryRunHasUniqueInspections | src/entities/inspection.entity.ts:26 | in every run a car has at most one inspection of each type, and every inspection is of a car of its own order throughout exactly when every entry not turned down was made so |
| InspectionRuns.StepKeepsOwnCarsExactlyWhen | src/app/inspection/inspection.service.ts:51-208 | for every event, inspections stay with the orders of their cars exactly when it is no entry for another order's car that passes the guards of create or edit |
| InspectionRuns.RequestGoesThroughExactlyWhen | src/app/order/order.service.ts:1777-1860 | in such runs a signature request goes through exactly when the order is on pickup or on delivery and linked to an active trip of the driver, no call fails, and every car of the order has its own finished inspection of the type and the order no other, or, for the first delivery request, its own signed pickup inspection and the order no other |
| PickupRuns.SignedPickupsStay | src/app/order/order.service.ts:2040-2054 | after a pickup request and a pickup signing that go through, and through all events before, between and after that neither add a car to the order nor decline it, every car keeps its one signed pickup inspection |
| PickupRuns.PickupLeadsToDelivery | src/app/order/order.service.ts:2328-2377 | at any such later time without a delivery inspection, cloning gives every car exactly one finished delivery inspection, leaves the pickup ones signed, keeps (car, type) unique, and the delivery request goes through exactly when the order is on pickup or on delivery, linked to an active trip of the driver, and no write fails |
| Passage.OrderIsDelivered | src/app/order/order.service.ts:1777-2054 | a run of twelve events from the empty tables, placed, assigned, asked for and signed at both ends, after which the order is DELIVERED, the pickup charged once and the car has one signed inspection of each type |
| InspectionProofs.CountComparisonIsExact | src/app/order/order.service.ts:1831-1844 | comparing two numbers is right by the pigeonhole: they are equal exactly when every car has its own finished inspection of the type and the order has no other |
| InspectionRuns.ForeignCarFoolsTheCount | src/app/inspection/inspection.service.ts:51-130 | a run of five events reaches tables in which the numbers agree while a car has no inspection |
| InspectionProofs.RequestAfterViewExactlyWhen | src/app/inspection/inspection.service.ts:346-369 | after the client viewed an inspection of the order, a signature request goes through exactly when it would have before and the inspection is not of the type asked for |
| InspectionProofs.RequestMarksAll | src/app/order/order.service.ts:1846-1857 | after a request that goes through the order waits for a signature and remembers its status, and exactly the inspections of the type have become requested |
| InspectionProofs.SigningWrites | src/app/order/order.service.ts:2014-2054 | after a signing that goes through a pickup that had to be paid is paid, preStatus is empty, and exactly the inspections of the type are signed with the name |
| InspectionEffects.SigningChargesExactlyWhen | src/app/order/order.service.ts:2019-2030 | a signing asks the gateway, once, exactly for the pickup of an internal order that is not to be paid at delivery and has not paid it, whatever happens then |
| InspectionEffects.SigningSparesOthers | src/app/order/order.service.ts:2019-2024 | any other signing leaves payment status, flag and log alone and cannot fail for the gateway's answer |
| InspectionEffects.SigningGoesThroughExactlyWhen | src/app/order/order.service.ts:1885-2054 | a signing goes through exactly when the signer may sign, a pickup to be charged is taken and recorded, and no write fails |
| InspectionEffects.MaySignExactlyWhen | src/app/order/order.service.ts:1897-1976 | the client may sign while the signature is requested or the order is on pickup, the driver of an active trip it is linked to while it is requested |
| InspectionProofs.FailedSigningLeavesOnlyThePayment | src/app/order/order.service.ts:2019-2036 | a signing that fails leaves all but that order's payment status, the client's flag and the gateway's log as they were |
| InspectionProofs.SigningAgainNeedsNoSecondCharge | src/app/order/order.service.ts:2019-2024 | if the pickup had been charged, signing again goes through with that one charge |
| InspectionProofs.CloningAdds | src/app/order/order.service.ts:2347-2375 | cloning changes no row; each new one is a finished, unsigned delivery inspection with the car, details and notes of a signed pickup whose car had none |
| InspectionProofs.CloningKeepsUnique | src/entities/inspection.entity.ts:26 | the clones violate the unique constraint neither with each other nor with the rows there were |
| InspectionProofs.CloningCompletes | src/app/order/order.service.ts:2328-2377 | with every pickup signed and no delivery inspection, the clones are one for each car and the count comparison holds |
| InspectionProofs.CloningTwiceIsOnce | src/app/order/order.service.ts:2342-2346 | a second cloning changes nothing, whatever ids it is offered |
| InspectionProofs.DeliveryRequestExactlyWhen | src/app/order/order.service.ts:1791-1844 | the first delivery request of an order goes through exactly when the order is on pickup or on delivery and linked to an active trip of the driver, no write fails and every car's pickup is signed, with no other pickup inspection |
| Inspections.Create | src/app/inspection/inspection.service.ts:51-156 | creating refuses an unknown car, a second inspection of the type and a driver without the trip; otherwise one row comes, finished when it has notes and five details |
| InspectionEffects.InspectionIsEntered | src/app/inspection/inspection.service.ts:51-156 | the guards and the columns of the new row, finished exactly with notes and details of five faces |
| InspectionEffects.InspectionIsEdited | src/app/inspection/inspection.service.ts:158-222 | an edit is taken exactly for a known car and the driver's own started row; details are written in any case, the row only if no other has the car and the type |
| InspectionEffects.InspectionIsViewed | src/app/inspection/inspection.service.ts:346-369 | a view is taken exactly of a requested or finished inspection of the order |
| Inspections.Edit | src/app/inspection/inspection.service.ts:158-222 | editing touches only a started inspection of the driver; the details stay written even when the row itself then violates the unique constraint |
| Inspections.AddInspectionDamages | src/app/inspection/inspection.service.ts:371-419 | damages on an unsigned delivery inspection are added to it and mark the order CLAIMED in one transaction; notes alone leave the order as it is |
| InspectionEffects.DamagesAreRecorded | src/app/inspection/inspection.service.ts:371-419 | damages are taken exactly on an unsigned delivery inspection, added to its details, and mark its order; notes that are not empty replace its own |
| Inspections.ClonePickUpToDelivery | src/app/order/order.service.ts:2328-2377 | the loop over signed pickups inserts exactly the clones, and nothing when a delivery inspection exists |
| Inspections.RequestInspectionSignature | src/app/order/order.service.ts:1777-1860 | the writes of a request, and that any failing call leaves nothing behind, clones included |
| Inspections.SignInspection | src/app/order/order.service.ts:1885-2054 | the writes of a signing by client or driver; a failure after the charge leaves the charge and nothing else |
| Inspections.CreateDeliveryInspection | src/app/order/order.service.ts:2703-2765 | the client's way to the delivery signature: clones, status and marks together or not at all |
| InspectionEffects.DeliveryIsCreatedExactlyWhen | src/app/order/order.service.ts:2712-2745 | the client's way is open exactly to the client who placed the order, while it is picked up, on its way or on delivery, with no failing call and clones possible on a trip |
| InspectionEffects.DeliveryCreationWrites | src/app/order/order.service.ts:2747-2757 | the order then waits for a signature with preStatus untouched, its delivery inspections are requested, and every other row is as before |
| Dispatching.AcceptSucceedsExactlyWhen | src/app/dispatch/dispatch.service.ts:127-140 | in columns of request and order: open, order present, fee paid before or taken and recorded now, no later call failing |
| Dispatching.AcceptChargesExactlyWhen | src/app/dispatch/dispatch.service.ts:137-140 | the gateway is asked for the fee, once, exactly when the request is open, the order has not paid it and the settings can be read |
| Dispatching.AcceptIsExclusive | src/app/dispatch/dispatch.service.ts:141-156 | after an accept it is the order's only accepted request, every rival has expired, other orders' requests are untouched, and the order has the winner's company and dates |
| Dispatching.AcceptExpiresTheInvites | src/app/dispatch/dispatch.service.ts:158 | exactly the invites of the accepted order expire, and every other invite stays |
| Dispatching.AcceptTouchesNothingElse | src/app/dispatch/dispatch.service.ts:141-159 | no other order and no other column of this one changes |
| Dispatching.FailedAcceptLeavesOnlyThePayment | src/app/dispatch/dispatch.service.ts:116-229 | whenever it fails, only that order's payment status, the client's flag and the gateway's log may differ |
| Dispatching.RetryNeedsNoSecondCharge | src/app/dispatch/dispatch.service.ts:137-140 | if the fee had been paid, the next accept goes through with that one charge |
| Dispatching.Accept | src/app/dispatch/dispatch.service.ts:116-176 | the transaction step by step, with a fault possible at each database call, meets its specification |
| Dispatching.Create | src/app/dispatch/dispatch.service.ts:50-80 | one request per order and company, whatever became of the earlier one |
| Dispatching.AskingAddsARequest | src/app/dispatch/dispatch.service.ts:54-79 | a company without a request for the order adds one, open and with its own name and dates, and nothing else changes |
| Dispatching.OthersRequestsAreSafe | src/app/dispatch/dispatch.service.ts:93-198 | another company's request, or a closed one, can be neither withdrawn nor rescheduled |
| Dispatching.RescheduledDatesReachTheOrder | src/app/dispatch/dispatch.service.ts:93-151 | the dates an open request was last given are the ones its order gets when it is accepted |
| Dispatching.WithdrawnIsOut | src/app/dispatch/dispatch.service.ts:50-198 | once withdrawn, a request can be neither accepted, rescheduled nor withdrawn, and while its row is there its company cannot ask for the order again |
| RequestRuns.RequestIsLostExactlyWhen | src/app/order/order.service.ts:265-384 | for every event of the lifecycle, a company's request for an order, open or closed, is lost exactly by the company's cancelling of its requests or by a carrier's cancelling of the order that is not refused |
| RequestRuns.KeptFromAskingExactlyWhen | src/app/dispatch/dispatch.service.ts:54-64 | over any further events, a company that has asked is kept from asking again throughout exactly as long as neither happens |
| RequestRuns.WithdrawnCompanyCanAskAgain | src/app/order/order.service.ts:275-280 | withdrawing, cancelling the requests and asking again gives a request that can be accepted |
| RequestRuns.ClosedStaysClosed | src/app/dispatch/dispatch.service.ts:116-198 | no event of the lifecycle opens a request again that is accepted, withdrawn or expired |
| Payments.ChargeOrder | src/app/order/order.service.ts:2661-2696 | a charge succeeds when the money is taken and recorded; otherwise the failed status and the flag are written as far as those writes get |
| Payments.ChargeWrites | src/app/dispatch/dispatch.service.ts:205-229 | one entry in the gateway's log, the paid or the failed status of the kind and the client's flag, as far as each write gets, and no other column |
| Payments.RetryChargesExactlyWhen | src/app/order/order.service.ts:2810-2818 | a retry asks the gateway exactly for a failed fee with a company to bill, or a failed pickup not to be paid at delivery |
| Payments.FailedChargeIsRetriedAsItself | src/app/dispatch/dispatch.service.ts:231-239 | a charge that failed is picked up by the retry of its own kind and not by the other |
| Payments.ChargeOrdersFailed | src/app/order/order.service.ts:2810-2829 | a retry round over orders selected once is the sequence of its single retries |
| Payments.ChargeKeepsBalance | src/app/dispatch/dispatch.service.ts:137-140 | asking only while the paid status of the kind is absent keeps the ledger of every order and both kinds balanced |
| Orders.CancelRequestDispatch | src/app/order/order.service.ts:265-285 | all requests of the company for the order go, the accepted one included, and no other |
| RequestRuns.CanceledOrderIsSafeExactlyWhen | src/app/order/order.service.ts:386-444 | after the client's cancelling, no accept with any answer or fault takes the order out of CANCELED exactly when no request of the order was open |
| RequestRuns.LeavesCanceledExactlyWhen | src/app/dispatch/dispatch.service.ts:116-156 | for every event of the lifecycle, a canceled order leaves CANCELED exactly by a plain status write or by the accept of an open request of it with a due fee paid and no failing call |
| RequestRuns.StaysCanceledExactlyWhen | src/app/order/order.service.ts:412-414 | over any further events it stays canceled throughout exactly as long as neither happens |
| RequestRuns.CanceledOrderCanBeAskedFor | src/app/dispatch/dispatch.service.ts:50-80 | a company without a request can make one for a canceled order, and it can be accepted |
| Orders.Decline | src/app/order/order.service.ts:1526-1574 | the driver of an open trip declines an order not under way; its inspections go with the status, both or neither |
| Orders.DeclineExactlyWhen | src/app/order/order.service.ts:1534-1555 | the statuses in which the driver of an open trip can decline |
| Orders.DeclineWrites | src/app/order/order.service.ts:1564-1569 | the order is DECLINED and exactly its inspections are gone; a failing call leaves everything |
| Orders.ClientCancelExactlyWhen | src/app/order/order.service.ts:404-414 | the client can cancel exactly orders that are not under way, and only the status changes |
| Orders.ChangeOrderAction | src/app/order/order.service.ts:1376-1523 | each action moves an order of the driver's active trip from its own statuses only |
| Orders.MovesExactlyWhen | src/app/order/order.service.ts:1380-1482 | the statuses each move starts from, the trips it asks for and the status it writes, and that it changes nothing else |
| Orders.TripLookups | src/repositories/order.repository.ts:578-647 | what the four lookups of an order's trip find, by link, driver and status of the trip |
| Orders.CheckDriverIsNear | src/app/order/order.service.ts:1702-1758 | a near driver moves an order of the active trip: from on the way to the pickup, and from picked up straight to on delivery, past ON_WAY_TO_DELIVERY |
| Orders.OnDeliveryComesFrom | src/repositories/order.repository.ts:711-725 | a move brings an order to ON_DELIVERY exactly from ON_WAY_TO_DELIVERY by the driver's word or from PICKED_UP by nearness; nearness never moves an order on its way |
| Trips.AssignOrder | src/app/order/order.service.ts:1281-1333 | assigning relinks the order, re-dispatches a declined one and recalculates both trips, all or nothing |
| TripEffects.AssignPutsOnTheTrip | src/app/order/order.service.ts:1309-1330 | the order rides on the trip and no other, has its dispatcher, and is dispatched again if it had been declined; all other orders ride and are as before |
| TripEffects.AssignExactlyWhen | src/app/order/order.service.ts:1293-1307 | it goes through exactly for an order and a trip that exist, without a failing call |
| Trips.RecalculateRoute | src/app/order/order.service.ts:1639-1667 | the loop over trips and the running total over orders in any order store the sum of the sale prices |
| Trips.RunningTotalIsSum | src/app/here/here.service.ts:414-421 | the running total of any listing of the orders is their sum, not-a-number prices included |
| Trips.SumWithout | src/app/here/here.service.ts:414-421 | the sum does not depend on the order of the orders |
| Trips.OrdersByTrip | src/repositories/order.repository.ts:649-662 | the trip's query returns each linked order that is not canceled or archived once |
| TripEffects.WorthIs | src/repositories/order.repository.ts:649-662 | a trip is worth the sale prices of exactly the orders linked to it that are neither canceled nor archived |
| Trips.DeleteFromTrip | src/app/order/order.service.ts:1670-1700 | the given orders' links to this trip go and its total is recalculated, all or nothing |
| TripEffects.RemovingTakesTheLinks | src/app/order/order.service.ts:1683-1688 | exactly the links between the given orders and the trip go, and only trip totals change besides |
| Trips.DeleteOrder | src/app/order/order.service.ts:2832-2864 | the transaction step by step, with a fault possible at each call, meets its specification |
| TripEffects.DeletingTakesOffTheTrip | src/app/order/order.service.ts:2849-2858 | a deleted order stays without company and on no trip; every other order and link is as before |
| TripEffects.DeletingTakesItsPrice | src/app/order/order.service.ts:2855-2856 | its trip's cached total falls by exactly its price if it counted, and every other total stays |
| Trips.SaveImportedOrder | src/app/order/order.service.ts:2461-2577 | the imported order, its link and the trip's total come together or not at all |
| TripEffects.ImportPutsOnTheTrip | src/app/order/order.service.ts:2562-2566 | an imported order is there as given and rides exactly on the trip given |
| TripEffects.ImportAddsItsPrice | src/app/order/order.service.ts:2565-2566 | the trip's cached total grows by exactly its price |
| Trips.CancelOrder | src/app/order/order.service.ts:287-384 | the cancelling transaction beside the recalculation that escapes it, at every failing call |
| TripEffects.CancelExactlyWhen | src/app/order/order.service.ts:302-318 | the orders a carrier can cancel, and the calls whose failing prevents it |
| TripEffects.CancelingTakesBack | src/app/order/order.service.ts:346-384 | the order loses company, dispatcher and requests, an internal one is published again and any other canceled, and it is off the company's own trip |
| Trips.TripCompletesExactlyWhen | src/repositories/order.repository.ts:772-780 | a trip is completed exactly when each of its orders is delivered or claimed; one already billed or paid keeps it open |
| TripRuns.StepKeepsBoardExactlyWhen | src/app/order/order.service.ts:287-444 | for every event of the lifecycle, the condition on the tables before it under which it keeps links single and every cached total exact, in both directions |
| TripRuns.TotalsAreExactExactlyWhen | src/app/order/order.service.ts:1639-1667 | over every run, every order has at most one link and every cached total is the sum of its counting orders throughout exactly when every event meets its condition |
| TripRuns.CancelingBreaksTheTotals | src/app/order/order.service.ts:353-366 | a run of five events from the empty tables after which a cached total is wrong |
| TripRuns.TripRunsKeepBoard | src/app/order/order.service.ts:1281-1333 | over runs of assigning, removing, deleting, importing, opening, changing and completing, with any faults, no condition is needed |
| TripProofs.MovingConservesTheTotals | src/app/order/order.service.ts:1318-1330 | moving an order between trips leaves the sum of the two cached totals as it was |
| TripProofs.RemovingTakesItsPrice | src/app/order/order.service.ts:1683-1688 | taking an order off lowers the cached total by its price, and the order is on no trip |
| TripProofs.AssignKeepsBoard | src/app/order/order.service.ts:1281-1333 | assigning keeps single links and exact totals of all trips, also the ones it does not name |
| TripProofs.RemoveKeepsBoard | src/app/order/order.service.ts:1670-1700 | so does removing |
| TripProofs.DeleteKeepsBoard | src/app/order/order.service.ts:2849-2858 | so does deleting |
| TripProofs.ImportKeepsBoard | src/app/order/order.service.ts:2562-2567 | so does importing onto a trip |
| TripProofs.StatusWriteKeepsBoardExactlyWhen | src/repositories/order.repository.ts:656-658 | a status write keeps the totals exactly when it crosses neither CANCELED nor ARCHIVED, or the price is zero or drowned by a not-a-number |
| TripProofs.CancelingLeavesThePriceIn | src/app/order/order.service.ts:353-366 | after a company cancels an order of its own trip, the cached total exceeds the trip's worth by exactly that order's price |
| TripProofs.CancelKeepsBoardExactlyWhen | src/app/order/order.service.ts:287-384 | cancelling keeps the totals exactly when the order is missing or not cancelable or a call fails, the order is on no trip, it stays on another company's trip as published, or its price carries no weight |
| Lifecycle.TripEventsAreQuiet | src/app/order/order.service.ts:346-384 | no trip operation charges, pays, enters transit, touches preStatus or inspections, or adds a request |
| Lifecycle.OrderEventsAreQuiet | src/app/order/order.service.ts:1376-1574 | nor does any operation on one order |
| Lifecycle.InspectionEventsAreQuiet | src/app/order/order.service.ts:1777-1860 | nor, preStatus and inspections aside, any inspection operation but signing |
| Routing.NestedIsAStackRun | src/app/here/here.service.ts:410-422 | the nested order of any number of jobs is a stack run from empty to empty that never unloads a job not on top |
| Routing.DirectQueryIsNested | src/app/here/here.service.ts:410-422 | the waypoint query is that nested order, key by key |
| Routing.CalculateRouteTrip | src/app/here/here.service.ts:407-441 | each key 0 to 2n-1 is written once, with the price total and the first and last locations |
| Routing.VirtualStartCollides | src/app/here/here.service.ts:256-261 | with a virtual start the query is laid out as intended exactly when there is no other location |
| Routing.StoredDeliveryIsTheLastStopExactlyWhen | src/app/here/here.service.ts:410-440 | for any result of the call, the stored pickup location is where the query starts, and the stored delivery location is where it ends exactly when the first and the last order deliver to the same point |
| Routing.GetDistance | src/app/here/here.service.ts:245-289 | the answer's list is the nested order of the routed locations, with or without a virtual start |
| Routing.QueryMatchesPlaces | src/app/here/here.service.ts:256-272 | without a virtual start, query and list agree index by index |
| Routing.RouteQueryIs | src/app/here/here.service.ts:414-420 | a trip's query has the i-th pickup forwards and the i-th delivery from the end |
| Routing.PlacesAre | src/app/here/here.service.ts:262-271 | an entry's point, origin and key are those of its location's origin or destination |
| Routing.VirtualStartIs | src/app/here/here.service.ts:250-254 | the virtual start is the origin of the first location with both flags |
| Routing.NonVirtualIsAFilter | src/app/here/here.service.ts:252-255 | with one, exactly the locations that are not virtual are laid out, in their order |
| Sequencing.OptimizeRoute | src/app/here/here.service.ts:291-385 | the method with its holes, labels and answer matching computes the route studied below |
| Sequencing.RouteVisitsEachStopOnce | src/app/here/here.service.ts:298-379 | with one start and end at most and an answer naming every stop, each place is visited as often as it is a stop |
| Sequencing.TakeEnds | src/app/here/here.service.ts:298-312 | the scan that punches holes while it looks for flags leaves exactly the remaining locations and the chosen start and end |
| Sequencing.RouteIsComplete | src/app/here/here.service.ts:298-379 | the route has all stops exactly under that condition, and is short of stops otherwise |
| Sequencing.RouteEnds | src/app/here/here.service.ts:366-379 | it starts at the start's origin unless that is virtual and ends at the end's destination |
| Sequencing.EndsAre | src/app/here/here.service.ts:298-312 | with unambiguous flags the start is the location flagged so, or else the first, and the end the one flagged as an end only |
| Sequencing.SearchEndsAre | src/app/here/here.service.ts:325-344 | the stops sent begin with the start's destination and end with the end's origin |
| Sequencing.RebuiltIsPermutation | src/app/here/here.service.ts:345-365 | whatever labels come back, the rebuilt stops are a permutation of those sent exactly when all are named |
| Sequencing.RebuildingConserves | src/app/here/here.service.ts:345-365 | repeated and unknown labels duplicate and invent nothing |
| Sequencing.RebuiltFollowsTheAnswer | src/app/here/here.service.ts:366-372 | labels named once each give their stops in the order of the answer |
| Templates.SplitJoinIsReplace | src/mail/mail.service.ts:70-76 | splitting and joining is replacing every occurrence from left to right |
| Templates.GenerateTemplate | src/mail/mail.service.ts:70-76 | the loop over the keys is the repeated replacement |
| Templates.OnePass | src/mail/mail.service.ts:72-74 | one pass fills exactly the placeholders of its key |
| Templates.SequentialIsSimultaneous | src/mail/mail.service.ts:70-76 | with brace-free keys, and texts and values without an opening brace, filling key by key is simultaneous substitution |
| Templates.ValuesAreSafeExactlyWhen | src/mail/mail.service.ts:70-76 | values over an alphabet are filled as if all at once in every template and order of keys exactly when the alphabet lacks the opening brace |
| Templates.KeyOrderIsIrrelevant | src/mail/mail.service.ts:70-76 | any two orders of the keys give the same mail, unknown placeholders unchanged |
| Reports.GroupsAddUp | src/repositories/order.repository.ts:899-930 | column by column the groups, the null shipper's included, add up to the ungrouped sum for any prices, NULL and NaN included |
| Reports.ReportsAgree | src/repositories/order.repository.ts:860-930 | the parsed totals of a column agree exactly when some order was selected and no group is without a number in it, or the general total is not a number either |
| Reports.ShippersAddUpWithLabelsExchanged | src/repositories/order.repository.ts:874-929 | with prices, revenue and paid of the groups add up to the general report, due to its past due and past due to its due |
| Reports.LabelsAgreeExactlyWhen | src/repositories/order.repository.ts:874-929 | for non-negative prices, the two reports agree under their own labels at every time exactly when no selected order has an unpaid invoice with a due date and a positive price |
| Reports.GeneralReportIs | src/repositories/order.repository.ts:860-897 | each total is the price sum of the rows that its columns choose: all, paid with an invoice, unpaid and due before now, unpaid and due after now |
| Reports.ShipperReportIs | src/repositories/order.repository.ts:899-930 | the same sums over one shipper's orders, with the last two labels the other way round |
| Reports.InvoicesMakeUpRevenueExactlyWhen | src/repositories/order.repository.ts:860-897 | for non-negative prices, paid, due and past due make up the revenue exactly when every order with a positive price has an invoice and is paid or due at another time than now |
| Reports.InvoicesWithinRevenue | src/repositories/order.repository.ts:860-897 | for non-negative prices paid, due and past due together never exceed revenue |
| Reports.GroupInvoicesWithinRevenue | src/repositories/order.repository.ts:899-930 | nor do they in any group |
| Records.ObjectEqual | src/utils/order.utils.ts:1-35 | the loops compare the stripped records, and both arguments lose their time stamps only when both are objects |
| Records.SamePropsIsEquality | src/utils/order.utils.ts:14-31 | without undefined values in the first record it is map equality without the time stamps, a NaN equalling nothing |
| Records.SamePropsIsEquivalence | src/utils/order.utils.ts:14-31 | so it is reflexive, symmetric and transitive on such records |
| Records.ComparesAsMapExactlyWhen | src/utils/order.utils.ts:14-31 | a record is compared as a map with every other record exactly when it holds no undefined value, or holds a NaN |
| Records.PatchedCopy | src/app/order/order.service.ts:865-880 | a record equals its patched copy exactly when the patch agrees with it on every key not ignored and it holds no NaN there |
| Records.CarsUpdated | src/app/order/order.service.ts:860-884 | the positional loop with its early exit reports a change exactly when lengths differ or some pair does |
| Records.CarsUnchanged | src/app/order/order.service.ts:860-884 | no change is reported exactly when every patch agrees with the car at its position and no compared column is a NaN, whatever price per mile and stamps hold |
| Records.PropsChanged | src/utils/order.utils.ts:37-51 | a change is reported exactly when one of the listed properties differs |
| ChildRows.ChildTable.Reconcile | src/app/order/order.service.ts:1225-1257 | filters, removal and saving together turn the table into the reconciled one |
| ChildRows.ReconciledRow | src/app/quote/quote.service.ts:301-333 | row by row: requested rows are merged, unrequested ones of the owner are gone, new entries come under fresh ids, other owners' rows are untouched |
| ChildRows.ReturnedAreTheRows | src/app/inspection/inspection.service.ts:421-452 | the returned entries are distinct and are all of the owner's rows |
| ChildRows.ReapplyingChangesNothing | src/app/order/order.service.ts:1225-1257 | reconciling with the returned list deletes and adds nothing and keeps every field |
| Sockets.IdentifyHolds | src/app/events/events.gateway.ts:16-23 | identifying keeps the nested index and the relation of accounts and live connections together, without empty entries |
| Sockets.EventsGateway.SendMessage | src/app/events/events.gateway.ts:25-32 | a message goes to the connections of the account's entry |
| Sockets.EventsGateway.HandleDisconnect | src/app/events/events.gateway.ts:34-43 | the first account with the connection loses it, and an entry left empty goes |
| Sockets.DisconnectHolds | src/app/events/events.gateway.ts:34-43 | one disconnect keeps index and event log together exactly when the connection is identified with at most one account |
| Sockets.IndexIsLiveExactlyWhen | src/app/events/events.gateway.ts:16-43 | over a run the index is the live connections with no empty entry exactly when no connection disconnects while identified with two accounts |
| Sockets.MessagesReachLiveConnections | src/app/events/events.gateway.ts:25-32 | if each connection identifies with one account, a message reaches exactly the account's live connections |
| Leads.Imported | src/app/lead/lead.service.ts:206-207 | a lead from a file may be written to at once and has three mails to go |
| Leads.FromTemporaryLead | src/app/lead/lead.service.ts:419-433 | a lead from the form may be written to at once and has two mails to go |
| Leads.LeadService.CheckSendEmails | src/app/lead/lead.service.ts:366-417 | the loop with its early error exit is the fold of single turns |
| Leads.OneInvitationEach | src/app/lead/lead.service.ts:366-417 | a batch sends at most one invitation to each email |
| Leads.EveryCustomerInvited | src/app/lead/lead.service.ts:366-417 | a batch that ends well has invited every customer without an account whose lead has a typed car |
| Leads.RunsAreConsistent | src/repositories/quote.repository.ts:165-177 | over every run of batches counters are exact and at most three, and two increments of a lead are a day apart, with no assumption on the clock between batches; within one, no turn is earlier than the batch |
| Leads.LeadsAreThrottled | src/app/lead/lead.service.ts:366-371 | over every run no lead is counted more than three times, and two of its mails are at least 24 hours apart |
| Leads.EligibleExactlyWhen | src/repositories/quote.repository.ts:165-177 | a batch takes exactly leads and quoted leads with fewer than three mails and none in the last 24 hours |
| Leads.TurnWrites | src/app/lead/lead.service.ts:374-411 | a registered customer takes the quote over; any other lead with a typed car is counted once its mail, if it is due one, went out |
| Leads.InvitationsLeft | src/app/lead/lead.service.ts:206-207 | a lead is counted at most as often as it had mails to go |

## Left out

- HTTP controllers, request validation, access scoping, configuration, migrations: plumbing.
- Payment gateway, routing service, mail, files, push notifications: answers from outside are parameters, notifications and timelines are not modelled.
- How charges and prices are calculated and how a charge is de-duplicated by the transaction service: a charge is one answer.
- Floating-point rounding of prices: prices are reals or not-a-number, as PostgreSQL's numeric is exact.
- Patches of an order that overwrite its status, company, price or payment place; an order is created as quote, published or dispatched.
- Creating and editing trips with orders in the trip service: trips open empty, and orders get on them by assigning or importing.
- Registration by invite, which charges the service fee, writes the order's payment status, company and published flag and adds a request: not an event of the lifecycle, so what is proved of every run is proved of runs without it.
- Recalculations that the services start without waiting for them (client cancelling, archiving) and interleavings inside one call: each call is one step.
- SQL generation, filters, pagination and sorting of lists and reports: a report's rows are given.
- Inspections.Create: whether the trip lookup finds a trip is a parameter, since the lookup filters by columns that are not on the trip.
- Inspections.SignInspection: a failing signing rolls back; the two callers in the service neither roll back nor release their query runner when it throws, so that transaction and its locks stay open.
- InspectionProofs.SigningAgainNeedsNoSecondCharge: likewise assumes that the failed signing was rolled back; after a fault past the first write the service may instead wait for its own open transaction.
- Orders.CheckDriverIsNear: the distance comparison is a parameter.
- Payments.ChargeOrdersFailed: the retries of a round run one after another; the service starts them all at once without waiting.
- Trips.AssignOrder: the trip filter on the statuses BILLED and PAID excludes no trip status and is not modelled, nor is the filter by account.
- ChildRows.ChildTable.Reconcile: the ids that the database generates are given, fresh and distinct.
- Location, distance and route columns of trips; the update time columns of orders, trips, requests and inspections.
- Price fold of a hand-made trip calculation, lead file parsing, quote publication, join requests, account and company files: smaller copies of patterns already covered, or no algorithm.
