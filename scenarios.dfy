/** Whole flows through the endpoints, from an empty or freshly seeded database. */
module Scenarios {
  import opened Basics
  import opened Slots
  import opened Transactions
  import opened Store
  import opened Endpoints
  import opened EndpointProperties
  import opened Reporting
  import opened DataLoader

  /** Create A1 at 20.0, book it for two hours, confirm: the booking costs 40.0 and stays
      PENDING until confirmed; then A1 is occupied, one slot fewer is available, the revenue
      grows by 40.0, and a further booking of A1 is refused without writing anything. */
  lemma CreateBookConfirm(formatAmount: real -> string)
    ensures
      var t0 := Tables(map[], []);
      var (t1, created) := Create(t0, SlotRecord(Some("A1"), false, None, 20.0, None, None, None));
      var request := BookingRequest(Some("KA01AB1234"), Some("9876543210"), 2);
      var (t2, booked) := Book(t1, "A1", request, 0.5, formatAmount, 100, "txn-1");
      var (t3, confirmed) := Confirm(t2, "txn-1", 130);
      && created.Created?
      && booked.Redirect?
      && |t2.transactions| == 1
      && t2.transactions[0].amountPaid == 40.0 && t2.transactions[0].paymentStatus == Some(Pending)
      && confirmed == Confirmed
      && t3.slots["A1"].occupied
      && AdminReport(t3).availableSlots == AdminReport(t1).availableSlots - 1
      && AdminReport(t3).realRevenue == AdminReport(t1).realRevenue + 40.0
      && Book(t3, "A1", request, 0.5, formatAmount, 140, "txn-2") == (t3, AlreadyBooked)
  {
    var t0 := Tables(map[], []);
    var t1 := Create(t0, SlotRecord(Some("A1"), false, None, 20.0, None, None, None)).0;
    var request := BookingRequest(Some("KA01AB1234"), Some("9876543210"), 2);
    CreateKeepsConsistent(t0, SlotRecord(Some("A1"), false, None, 20.0, None, None, None));
    BookThenConfirm(t1, "A1", request, 0.5, formatAmount, 100, "txn-1", 130);
  }

  /** After seeding, a three-hour booking of B1 is priced at 35.0 times 3. */
  lemma SeededBookingPrice(draw: real, formatAmount: real -> string, now: Time, freshId: string)
    requires 0.0 <= draw < 1.0
    ensures
      var t := Tables(Seeded(map[]), []);
      var request := BookingRequest(Some("GJ05XY0001"), Some("9000000000"), 3);
      var (t', _) := Book(t, "B1", request, draw, formatAmount, now, freshId);
      |t'.transactions| == 1 && t'.transactions[0].amountPaid == 105.0
  {
  }

  /** Hours are not checked: a booking of B1 for -2 hours is logged at -70.0 and, once
      confirmed, takes 70.0 off the revenue. */
  lemma UncheckedDuration(formatAmount: real -> string)
    ensures
      var t := Tables(Seeded(map[]), []);
      var request := BookingRequest(Some("GJ05XY0001"), Some("9000000000"), -2);
      var (t1, booked) := Book(t, "B1", request, 0.25, formatAmount, 10, "txn-neg");
      var (t2, confirmed) := Confirm(t1, "txn-neg", 11);
      && booked.Redirect?
      && t1.transactions[0].amountPaid == -70.0
      && confirmed == Confirmed
      && AdminReport(t2).realRevenue == AdminReport(t).realRevenue - 70.0
  {
    var t := Tables(Seeded(map[]), []);
    var request := BookingRequest(Some("GJ05XY0001"), Some("9000000000"), -2);
    SeedContents();
    SeedKeepsConsistent(Tables(map[], []));
    BookThenConfirm(t, "B1", request, 0.25, formatAmount, 10, "txn-neg", 11);
  }
}
