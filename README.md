# Campus parking: slot booking and payment, modelled in Dafny

This project models the core of a small parking-slot reservation service: a table of named
parking slots, a log of payment transactions, and the REST controller that books a slot,
confirms its payment through a simulated gateway, reports occupancy and revenue, and lets an
administrator create, remove and release slots. A start-up loader seeds seven slots into an
empty table.

Layout (one module per file):

| file | module | models |
|---|---|---|
| basics.dfy | `Basics` | `Option` for Java's nullable references, `Time` for `LocalDateTime` |
| parking_slot.dfy | `Slots` | the `ParkingSlot` entity: its row (`SlotRecord`) and the mutable class with its constructors and setters |
| transaction.dfy | `Transactions` | the `Transaction` entity: its row (`TxnRecord`) and the mutable class |
| payment_service.dfy | `Payment` | `PaymentService`: the random gate and the redirect URL, and reading the URL back |
| store.dfy | `Store` | the two tables (`Tables`, class `Database`), the lookup by external transaction id, and the consistency invariant |
| endpoints.dfy | `Endpoints` | each controller endpoint as a pure function of the tables |
| controller.dfy | `Controller` | the endpoints as methods that load entities, edit them through setters and save them back, each proved to equal its function in `Endpoints` and to keep the invariant |
| report.dfy | `Reporting` | the admin report and its revenue sum |
| endpoint_properties.dfy | `EndpointProperties` | what each endpoint promises, the invariant preserved, the book-then-confirm round trip |
| data_loader.dfy | `DataLoader` | the seed-if-empty initialiser |
| scenarios.dfy | `Scenarios` | whole flows: create, book, confirm; a seeded booking; a booking with negative hours |

The invariant `Store.Consistent` says: each slot row is keyed by its own id; an occupied slot
has a start time and a transaction id, and that id belongs to a SUCCESS transaction of that
very slot; transaction `i` of the log has surrogate key `i + 1`, an external id and a slot id;
external ids are pairwise distinct. Every controller method and the loader require and ensure it.

Nondeterminism is passed in: `Math.random()` is the argument `draw` (a real in [0, 1)),
`UUID.randomUUID()` is `freshId` (required to be unused), `LocalDateTime.now()` is `now`.
Prices are `real`; `Double.toString` of the amount in the URL is the function argument
`formatAmount`.

Three behaviours of the code worth knowing, each shown by a lemma:
- `bookSlot` prices any `durationHours`, including non-positive ones (`Scenarios.UncheckedDuration`
  shows a booking at -70.0 lowering revenue);
- a free slot may carry a start time and transaction id, because `createSlot` keeps the ones the
  caller sent, so only "occupied implies start time and transaction id set" holds
  (`EndpointProperties.CreatedSlotMayCarryStartTime`);
- `createSlot` accepts any rate and replaces only exactly 0.0 (`EndpointProperties.CreateEffect`).

## Model

| member | source | states |
|---|---|---|
| Slots.ParkingSlot.constructor | parking/src/main/java/com/college/parking/model/ParkingSlot.java:20-23 | the no-argument constructor gives a free slot at 20.0 with id, plate, mobile number, start time and transaction id all null |
| Slots.ParkingSlot.Of | parking/src/main/java/com/college/parking/model/ParkingSlot.java:25-29 | the two-argument constructor gives a free slot with exactly the given id and rate (0.0 is kept) and every other reference null |
| Slots.ParkingSlot.SetSlotId | parking/src/main/java/com/college/parking/model/ParkingSlot.java:34 | changes the slot id and no other field |
| Slots.ParkingSlot.SetOccupied | parking/src/main/java/com/college/parking/model/ParkingSlot.java:36-37 | changes the occupied flag and no other field, so the flag reads back the value last set |
| Slots.ParkingSlot.SetVehiclePlate | parking/src/main/java/com/college/parking/model/ParkingSlot.java:40 | changes the plate and no other field |
| Slots.ParkingSlot.SetBaseHourlyPrice | parking/src/main/java/com/college/parking/model/ParkingSlot.java:43 | changes the rate and no other field |
| Slots.ParkingSlot.SetMobileNumber | parking/src/main/java/com/college/parking/model/ParkingSlot.java:46 | changes the mobile number and no other field |
| Slots.ParkingSlot.SetStartTime | parking/src/main/java/com/college/parking/model/ParkingSlot.java:49 | changes the start time and no other field |
| Slots.ParkingSlot.SetTransactionId | parking/src/main/java/com/college/parking/model/ParkingSlot.java:52 | changes the transaction id and no other field |
| Transactions.Transaction.constructor | parking/src/main/java/com/college/parking/model/Transaction.java:26-27 | the no-argument constructor leaves every field at its default, the status null |
| Transactions.Transaction.Create | parking/src/main/java/com/college/parking/model/Transaction.java:30-39 | copies slot, plate, mobile number, amount and hours verbatim, stamps the booking time with the clock, takes the fresh identifier, sets PENDING and leaves the surrogate key unset |
| Transactions.Transaction.SetId | parking/src/main/java/com/college/parking/model/Transaction.java:47-49 | changes the surrogate key and no other field |
| Transactions.Transaction.SetTransactionId | parking/src/main/java/com/college/parking/model/Transaction.java:55-57 | changes the external id and no other field |
| Transactions.Transaction.SetSlotId | parking/src/main/java/com/college/parking/model/Transaction.java:63-65 | changes the slot id and no other field |
| Transactions.Transaction.SetVehiclePlate | parking/src/main/java/com/college/parking/model/Transaction.java:71-73 | changes the plate and no other field |
| Transactions.Transaction.SetMobileNumber | parking/src/main/java/com/college/parking/model/Transaction.java:79-81 | changes the mobile number and no other field |
| Transactions.Transaction.SetBookingTime | parking/src/main/java/com/college/parking/model/Transaction.java:87-89 | changes the booking time and no other field |
| Transactions.Transaction.SetAmountPaid | parking/src/main/java/com/college/parking/model/Transaction.java:95-97 | changes the amount and no other field; no other setter changes the amount |
| Transactions.Transaction.SetDurationHours | parking/src/main/java/com/college/parking/model/Transaction.java:103-105 | changes the hours and no other field |
| Transactions.Transaction.SetPaymentStatus | parking/src/main/java/com/college/parking/model/Transaction.java:111-113 | changes the status and no other field |
| Payment.InitiatePayment | parking/src/main/java/com/college/parking/service/PaymentService.java:18-33 | a URL is returned exactly when the draw is below 0.99, whatever the transaction holds; it starts with the gateway address and `?txnId=`, and ends with `&amount=`, the amount, `&slot=` and the slot id; the transaction is only read |
| Payment.UrlCarriesTransactionId | parking/src/main/java/com/college/parking/service/PaymentService.java:27-28 | the `txnId` parameter read back from a successful URL is exactly the transaction's id (for an id without `&`) |
| Payment.UrlEndsWithSlot | parking/src/main/java/com/college/parking/service/PaymentService.java:29-30 | the last parameter read back from a successful URL is `slot=` and the transaction's slot id (for a slot id without `&`) |
| Payment.ConfirmPayment | parking/src/main/java/com/college/parking/service/PaymentService.java:41-45 | always reports success |
| Store.IndexOfTxn | parking/src/main/java/com/college/parking/controller/ParkingController.java:94 | finds a transaction carrying the external id when one exists (the first such), and reports none exactly when no transaction carries it |
| Store.Database.SaveTransaction | parking/src/main/java/com/college/parking/model/Transaction.java:12-14 | saving a transaction without a key appends it with the next key and gives the object that key; saving one with a key overwrites its row |
| Endpoints.Book | parking/src/main/java/com/college/parking/controller/ParkingController.java:45-87 | the effect of booking, as a function of the tables (its properties are the EndpointProperties rows) |
| Endpoints.Confirm | parking/src/main/java/com/college/parking/controller/ParkingController.java:90-118 | the effect of payment confirmation, as a function of the tables |
| Endpoints.Create | parking/src/main/java/com/college/parking/controller/ParkingController.java:155-166 | the effect of slot creation, as a function of the tables (its properties are the CreateEffect row) |
| Endpoints.Remove | parking/src/main/java/com/college/parking/controller/ParkingController.java:169-186 | the effect of slot removal, as a function of the tables (its properties are the RemoveEffect row) |
| Endpoints.Release | parking/src/main/java/com/college/parking/controller/ParkingController.java:189-205 | the effect of releasing a slot, as a function of the tables (its properties are the ReleaseEffect and ReleaseTwice rows) |
| Store.Database.SaveSlot | parking/src/main/java/com/college/parking/controller/ParkingController.java:74 | saving a slot inserts or overwrites the row under its own id and leaves the transactions alone |
| Store.Database.DeleteSlot | parking/src/main/java/com/college/parking/controller/ParkingController.java:181 | deleting by id removes exactly that key and leaves the transactions alone |
| Slots.ParkingSlot.Load | parking/src/main/java/com/college/parking/controller/ParkingController.java:47 | the slot object a lookup by id hands out holds exactly the stored row |
| Transactions.Transaction.Load | parking/src/main/java/com/college/parking/controller/ParkingController.java:94 | the transaction object a lookup by external id hands out holds exactly the stored row |
| Reporting.AdminReport | parking/src/main/java/com/college/parking/controller/ParkingController.java:126-145 | the report: number of slots, number of free slots, revenue of SUCCESS transactions, occupied rows (its properties are the ReportBalance and Revenue rows) |
| Reporting.Revenue | parking/src/main/java/com/college/parking/controller/ParkingController.java:133-136 | the sum of `amountPaid` over SUCCESS transactions only (its properties are the RevenueAppend, RevenueUpdate and NoSuccessNoRevenue rows) |
| DataLoader.Seeded | parking/src/main/java/com/college/parking/config/DataLoader.java:19-36 | the slot table after initialisation: the seed when the table was empty, the table itself otherwise (its properties are the SeedOnlyWhenEmpty, SeedContents and SeedIdempotent rows) |
| Controller.BookSlot | parking/src/main/java/com/college/parking/controller/ParkingController.java:45-87 | loads the slot, prices, saves the PENDING transaction, initiates payment, then saves the mobile number or marks INITIATION_FAILED; the result and new tables are exactly those of `Endpoints.Book`, and the invariant is kept |
| Controller.ConfirmPayment | parking/src/main/java/com/college/parking/controller/ParkingController.java:90-118 | looks the transaction and its slot up, occupies the slot and marks the transaction SUCCESS; exactly `Endpoints.Confirm`, invariant kept |
| Controller.CreateSlot | parking/src/main/java/com/college/parking/controller/ParkingController.java:155-166 | edits the request object (free, default rate for 0.0) and stores it; exactly `Endpoints.Create`, the request object ends as the stored row, invariant kept |
| Controller.RemoveSlot | parking/src/main/java/com/college/parking/controller/ParkingController.java:169-186 | exactly `Endpoints.Remove`, invariant kept |
| Controller.ReleaseSlot | parking/src/main/java/com/college/parking/controller/ParkingController.java:189-205 | clears the booking fields through the setters and saves; exactly `Endpoints.Release`, invariant kept |
| EndpointProperties.BookRejectsMissingOrOccupied | parking/src/main/java/com/college/parking/controller/ParkingController.java:47-53 | booking a missing slot answers not-found and an occupied one already-booked, and neither writes anything |
| EndpointProperties.BookLogsOneTransaction | parking/src/main/java/com/college/parking/controller/ParkingController.java:56-84 | booking a free slot appends exactly one transaction priced rate times hours (hours unchecked) with the request's fields; success iff the draw is below 0.99; on success only that slot's mobile number changes and the transaction is PENDING, on failure the slots are untouched and it is INITIATION_FAILED; no occupancy changes |
| EndpointProperties.BookKeepsRevenue | parking/src/main/java/com/college/parking/controller/ParkingController.java:59-84 | booking never changes the revenue, since what it logs is PENDING or INITIATION_FAILED |
| EndpointProperties.BookKeepsConsistent | parking/src/main/java/com/college/parking/controller/ParkingController.java:59-84 | booking with an unused identifier keeps the invariant (keys, distinct ids, occupied slots backed by SUCCESS transactions) |
| EndpointProperties.ConfirmEffect | parking/src/main/java/com/college/parking/controller/ParkingController.java:94-117 | confirmation succeeds iff a transaction with that id exists and its slot exists; it then occupies that slot (start time now, transaction id set, plate, mobile number and rate kept) and sets that transaction SUCCESS whatever its prior status, changing nothing else; otherwise nothing changes |
| EndpointProperties.ConfirmRevenue | parking/src/main/java/com/college/parking/controller/ParkingController.java:111-112 | confirmation adds the transaction's amount to the revenue unless it was already SUCCESS; a failed confirmation adds nothing |
| EndpointProperties.ConfirmAvailability | parking/src/main/java/com/college/parking/controller/ParkingController.java:104 | after a confirmation the free slots are the former ones minus the confirmed slot, one fewer when that slot was free |
| EndpointProperties.ConfirmTwice | parking/src/main/java/com/college/parking/controller/ParkingController.java:100-112 | confirming twice equals confirming once with the later clock: no guard, the same writes re-applied |
| EndpointProperties.ConfirmKeepsConsistent | parking/src/main/java/com/college/parking/controller/ParkingController.java:104-112 | confirmation keeps the invariant: the newly occupied slot has a start time and names its own SUCCESS transaction |
| EndpointProperties.IndexOfTxnUnique | parking/src/main/java/com/college/parking/controller/ParkingController.java:94 | with distinct external ids the lookup finds the one transaction carrying the id |
| EndpointProperties.IndexOfTxnSeesOnlyIds | parking/src/main/java/com/college/parking/controller/ParkingController.java:94 | the lookup depends only on the external ids, so status changes do not move it |
| EndpointProperties.BookThenConfirm | parking/src/main/java/com/college/parking/controller/ParkingController.java:45-118 | the redirect URL of a successful booking names its new transaction; confirming that name occupies the booked slot (plate not copied, mobile number from the request), settles the transaction, adds the booking's price to the revenue and leaves one slot fewer available |
| EndpointProperties.CreateEffect | parking/src/main/java/com/college/parking/controller/ParkingController.java:157-165 | a duplicate id is refused and a null id fails, both writing nothing; otherwise exactly that id is added, free, at 20.0 if the rate was 0.0 and at the given rate otherwise, every other field as sent |
| EndpointProperties.CreatedSlotMayCarryStartTime | parking/src/main/java/com/college/parking/controller/ParkingController.java:160-164 | a created slot is free yet keeps a caller-supplied start time and transaction id, in a consistent database |
| EndpointProperties.CreateKeepsConsistent | parking/src/main/java/com/college/parking/controller/ParkingController.java:160 | creation keeps the invariant |
| EndpointProperties.RemoveEffect | parking/src/main/java/com/college/parking/controller/ParkingController.java:171-185 | removing a missing slot reports not-found and an occupied one is refused, neither writing anything; otherwise exactly that slot is deleted, one fewer slot, the rest unchanged |
| EndpointProperties.RemoveKeepsConsistent | parking/src/main/java/com/college/parking/controller/ParkingController.java:177-181 | removal keeps the invariant |
| EndpointProperties.ReleaseEffect | parking/src/main/java/com/college/parking/controller/ParkingController.java:191-204 | releasing a missing or free slot writes nothing; releasing an occupied one clears occupied, plate, start time, transaction id and mobile number and keeps id and rate, other slots and transactions unchanged |
| EndpointProperties.ReleaseTwice | parking/src/main/java/com/college/parking/controller/ParkingController.java:193-194 | a second release writes nothing and does not answer released |
| EndpointProperties.ReleaseKeepsConsistent | parking/src/main/java/com/college/parking/controller/ParkingController.java:196-199 | release keeps the invariant |
| Reporting.ReportBalance | parking/src/main/java/com/college/parking/controller/ParkingController.java:128-143 | the total is the number of slots, available plus occupied is the total, and the occupied list holds exactly the occupied rows |
| Reporting.RevenueAppend | parking/src/main/java/com/college/parking/controller/ParkingController.java:133-136 | appending a transaction adds its amount to the revenue if it is SUCCESS and nothing otherwise |
| Reporting.RevenueUpdate | parking/src/main/java/com/college/parking/controller/ParkingController.java:133-136 | overwriting a transaction trades its old contribution for its new one |
| Reporting.NoSuccessNoRevenue | parking/src/main/java/com/college/parking/controller/ParkingController.java:133-136 | without a SUCCESS transaction the revenue is 0 |
| DataLoader.InitDatabase | parking/src/main/java/com/college/parking/config/DataLoader.java:15-40 | builds the seven slots with the two-argument constructor and saves them only when the table is empty; the new table is `Seeded` of the old, transactions untouched, invariant kept |
| DataLoader.SeedContents | parking/src/main/java/com/college/parking/config/DataLoader.java:21-32 | the seed is exactly A1, A2, A3, A4, B1, B2, C1; B1 and B2 at 35.0, the rest at 20.0; all free, keyed by their own id, with no plate, mobile number, start time or transaction |
| DataLoader.SeedOnlyWhenEmpty | parking/src/main/java/com/college/parking/config/DataLoader.java:19-36 | only an empty table is seeded; a non-empty one is left as it is |
| DataLoader.SeedIdempotent | parking/src/main/java/com/college/parking/config/DataLoader.java:19-32 | initialising twice gives the table initialising once gives |
| DataLoader.SeedKeepsConsistent | parking/src/main/java/com/college/parking/config/DataLoader.java:19-32 | seeding keeps the invariant |
| Scenarios.CreateBookConfirm | parking/src/main/java/com/college/parking/controller/ParkingController.java:45-166 | create A1 at 20.0, book two hours, confirm: 40.0 PENDING, then occupied, one slot fewer available, revenue up by 40.0, and a new booking of A1 refused with nothing written |
| Scenarios.SeededBookingPrice | parking/src/main/java/com/college/parking/controller/ParkingController.java:56 | after seeding, three hours of B1 cost 105.0 |
| Scenarios.UncheckedDuration | parking/src/main/java/com/college/parking/controller/ParkingController.java:56 | hours are not validated: B1 for -2 hours is logged at -70.0 and its confirmation lowers the revenue by 70.0 |

## Left out

- Payment.UrlEndsWithSlot: the URL is built without percent-encoding, so a slot id containing `&` does not read back; the lemma holds only for slot ids without `&` (and `Payment.UrlCarriesTransactionId` likewise for transaction ids).
- `getStatus` and `getAllTransactions` (ParkingController.java:39-42, 148-152): both return the store's listing sorted by the database (`Sort`); the store's sorting is not modelled.
- HTTP concerns: status codes and message texts become one outcome datatype per endpoint; `System.out.println` logging is dropped.
- Randomness, identifiers and the clock are parameters (`draw`, `freshId`, `now`); the 1 % failure rate is a threshold on the draw, not a probability.
- Floating point: prices, products and the revenue sum are exact `real`s; rounding and summation order are not modelled. `Double.toString` of the amount is the parameter `formatAmount`.
- Integer widths: `durationHours` (Java `int`) and the surrogate key (`Long`) are unbounded integers.
- Concurrency: two simultaneous bookings of one free slot depend on the database's isolation and are not modelled; every endpoint runs alone.
- Persistence: `ParkingRepository` (an empty Spring Data interface) and the transaction repository are the class `Store.Database` over a map and a sequence. the unseen `TransactionRepository.findByTransactionId` is modelled by the lookup `Store.IndexOfTxn`, and external ids are kept distinct by the invariant. Entities are detached copies: a lookup hands out a new object and only a save writes it back.
- Surrogate keys: transaction `i` of the log is taken to carry key `i + 1`; the gaps an identity column can leave in its keys are not modelled.
- Getters of both entities: the model reads the fields directly.
- `paymentStatus` is a Java `String`; the model uses the three values the code writes (PENDING, SUCCESS, INITIATION_FAILED) or null.
- Null slot id on `createSlot`: the existence check throws; the model answers `MissingId` and writes nothing. A logged transaction without a slot id would make `confirmPayment` throw; the invariant rules such transactions out, and the model answers not-found there.
- Front-end scripts (`admin.js`, `script.js`): page rendering, polling and the client-side checks on mobile number and price are not part of the server.
