/** The Transaction entity: one booking attempt and its payment outcome. */
module Transactions {
  import opened Basics

  /** The values the controller writes into `paymentStatus`. */
  datatype PaymentStatus = Pending | Success | InitiationFailed

  /** One row of the transaction table. */
  datatype TxnRecord = TxnRecord(
    id: Option<int>,
    transactionId: Option<string>,
    slotId: Option<string>,
    vehiclePlate: Option<string>,
    mobileNumber: Option<string>,
    bookingTime: Option<Time>,
    amountPaid: real,
    durationHours: int,
    paymentStatus: Option<PaymentStatus>)

  /** The state the five-argument constructor leaves behind: the arguments copied,
      booked at `now`, identified by the fresh identifier, PENDING, no surrogate key yet. */
  function NewPending(slotId: Option<string>, vehiclePlate: Option<string>, mobileNumber: Option<string>,
                      amountPaid: real, durationHours: int, now: Time, freshId: string): TxnRecord
  {
    TxnRecord(None, Some(freshId), slotId, vehiclePlate, mobileNumber, Some(now),
              amountPaid, durationHours, Some(Pending))
  }

  /** The entity object. Each setter changes exactly its own field. */
  class Transaction {
    var id: Option<int>
    var transactionId: Option<string>
    var slotId: Option<string>
    var vehiclePlate: Option<string>
    var mobileNumber: Option<string>
    var bookingTime: Option<Time>
    var amountPaid: real
    var durationHours: int
    var paymentStatus: Option<PaymentStatus>

    /** The row that saving this object writes. */
    function Record(): TxnRecord
      reads this
    {
      TxnRecord(id, transactionId, slotId, vehiclePlate, mobileNumber, bookingTime,
                amountPaid, durationHours, paymentStatus)
    }

    /** The no-argument constructor: every field at its Java default, the status null. */
    constructor ()
      ensures Record() == TxnRecord(None, None, None, None, None, None, 0.0, 0, None)
    {
      id := None;
      transactionId := None;
      slotId := None;
      vehiclePlate := None;
      mobileNumber := None;
      bookingTime := None;
      amountPaid := 0.0;
      durationHours := 0;
      paymentStatus := None;
    }

    /** The five-argument constructor; `now` and `freshId` stand for the clock and the UUID it draws. */
    constructor Create(slotId: Option<string>, vehiclePlate: Option<string>, mobileNumber: Option<string>,
                       amountPaid: real, durationHours: int, now: Time, freshId: string)
      ensures id == None && paymentStatus == Some(Pending)
      ensures this.slotId == slotId && this.vehiclePlate == vehiclePlate && this.mobileNumber == mobileNumber
      ensures this.amountPaid == amountPaid && this.durationHours == durationHours
      ensures bookingTime == Some(now) && transactionId == Some(freshId)
      ensures Record() == NewPending(slotId, vehiclePlate, mobileNumber, amountPaid, durationHours, now, freshId)
    {
      id := None;
      this.slotId := slotId;
      this.vehiclePlate := vehiclePlate;
      this.mobileNumber := mobileNumber;
      this.amountPaid := amountPaid;
      this.durationHours := durationHours;
      bookingTime := Some(now);
      transactionId := Some(freshId);
      paymentStatus := Some(Pending);
    }

    /** The object the store hands out for a row. */
    constructor Load(r: TxnRecord)
      ensures Record() == r
    {
      id := r.id;
      transactionId := r.transactionId;
      slotId := r.slotId;
      vehiclePlate := r.vehiclePlate;
      mobileNumber := r.mobileNumber;
      bookingTime := r.bookingTime;
      amountPaid := r.amountPaid;
      durationHours := r.durationHours;
      paymentStatus := r.paymentStatus;
    }

    method SetId(id: Option<int>)
      modifies this
      ensures Record() == old(Record()).(id := id)
    {
      this.id := id;
    }

    method SetTransactionId(transactionId: Option<string>)
      modifies this
      ensures Record() == old(Record()).(transactionId := transactionId)
    {
      this.transactionId := transactionId;
    }

    method SetSlotId(slotId: Option<string>)
      modifies this
      ensures Record() == old(Record()).(slotId := slotId)
    {
      this.slotId := slotId;
    }

    method SetVehiclePlate(vehiclePlate: Option<string>)
      modifies this
      ensures Record() == old(Record()).(vehiclePlate := vehiclePlate)
    {
      this.vehiclePlate := vehiclePlate;
    }

    method SetMobileNumber(mobileNumber: Option<string>)
      modifies this
      ensures Record() == old(Record()).(mobileNumber := mobileNumber)
    {
      this.mobileNumber := mobileNumber;
    }

    method SetBookingTime(bookingTime: Option<Time>)
      modifies this
      ensures Record() == old(Record()).(bookingTime := bookingTime)
    {
      this.bookingTime := bookingTime;
    }

    method SetAmountPaid(amountPaid: real)
      modifies this
      ensures Record() == old(Record()).(amountPaid := amountPaid)
    {
      this.amountPaid := amountPaid;
    }

    method SetDurationHours(durationHours: int)
      modifies this
      ensures Record() == old(Record()).(durationHours := durationHours)
    {
      this.durationHours := durationHours;
    }

    method SetPaymentStatus(paymentStatus: Option<PaymentStatus>)
      modifies this
      ensures Record() == old(Record()).(paymentStatus := paymentStatus)
    {
      this.paymentStatus := paymentStatus;
    }
  }
}
