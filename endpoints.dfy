/** What each controller endpoint does to the two tables, stated as pure functions.
    The controller's methods are proved to have exactly these effects. */
module Endpoints {
  import opened Basics
  import opened Slots
  import opened Transactions
  import opened Payment
  import opened Store

  /** The body of a booking request. */
  datatype BookingRequest = BookingRequest(vehiclePlate: Option<string>, mobileNumber: Option<string>, durationHours: int)

  /** Responses, one type per endpoint; the HTTP status and message text are not modelled. */
  datatype BookOutcome = Redirect(url: string) | AlreadyBooked | PaymentInitiationFailed | SlotNotFound
  datatype ConfirmOutcome = Confirmed | TxnOrSlotNotFound
  /** `MissingId` is the exception the existence check throws for a null slot id. */
  datatype CreateOutcome = Created(slot: SlotRecord) | DuplicateId | MissingId
  datatype RemoveOutcome = Removed | StillOccupied | RemoveNotFound
  datatype ReleaseOutcome = Released | AlreadyAvailable | ReleaseNotFound

  /** Price of a booking: the hourly rate times the requested hours, unchecked. */
  function BookingPrice(slot: SlotRecord, request: BookingRequest): real
  {
    slot.baseHourlyPrice * request.durationHours as real
  }

  /** The transaction a booking of `slotId` logs, once the store has given it the next key. */
  function PendingFor(t: Tables, slotId: string, slot: SlotRecord, request: BookingRequest,
                      now: Time, freshId: string): TxnRecord
  {
    NewPending(Some(slotId), request.vehiclePlate, request.mobileNumber, BookingPrice(slot, request),
               request.durationHours, now, freshId).(id := Some(|t.transactions| + 1))
  }

  /** POST /book/{slotId}. */
  function Book(t: Tables, slotId: string, request: BookingRequest, draw: real,
                formatAmount: real -> string, now: Time, freshId: string): (Tables, BookOutcome)
    requires 0.0 <= draw < 1.0
  {
    if slotId !in t.slots then (t, SlotNotFound)
    else
      var slot := t.slots[slotId];
      if slot.occupied then (t, AlreadyBooked)
      else
        var pending := PendingFor(t, slotId, slot, request, now, freshId);
        match InitiatePayment(pending, draw, formatAmount)
        case Some(url) =>
          (Tables(t.slots[slotId := slot.(mobileNumber := request.mobileNumber)], t.transactions + [pending]),
           Redirect(url))
        case None =>
          (t.(transactions := t.transactions + [pending.(paymentStatus := Some(InitiationFailed))]),
           PaymentInitiationFailed)
  }

  /** PUT /confirm-payment/{txnId}: no check of the transaction's status or of the slot's occupancy. */
  function Confirm(t: Tables, txnId: string, now: Time): (Tables, ConfirmOutcome)
  {
    match IndexOfTxn(t.transactions, txnId)
    case None => (t, TxnOrSlotNotFound)
    case Some(i) =>
      var txn := t.transactions[i];
      if txn.slotId.None? || txn.slotId.value !in t.slots then (t, TxnOrSlotNotFound)
      else
        var k := txn.slotId.value;
        var slot := t.slots[k];
        (Tables(t.slots[k := slot.(occupied := true, startTime := Some(now), transactionId := Some(txnId))],
                t.transactions[i := txn.(paymentStatus := Some(Success))]),
         Confirmed)
  }

  /** The row createSlot stores for a slot it accepts: forced free, a zero rate replaced by
      the default, every other field as the caller sent it. */
  function Admitted(newSlot: SlotRecord): SlotRecord
  {
    newSlot.(occupied := false,
             baseHourlyPrice := if newSlot.baseHourlyPrice == 0.0 then DefaultHourlyPrice else newSlot.baseHourlyPrice)
  }

  /** POST /admin/slots. */
  function Create(t: Tables, newSlot: SlotRecord): (Tables, CreateOutcome)
  {
    if newSlot.slotId.None? then (t, MissingId)
    else if newSlot.slotId.value in t.slots then (t, DuplicateId)
    else (t.(slots := t.slots[newSlot.slotId.value := Admitted(newSlot)]), Created(Admitted(newSlot)))
  }

  /** DELETE /admin/slots/{slotId}. */
  function Remove(t: Tables, slotId: string): (Tables, RemoveOutcome)
  {
    if slotId !in t.slots then (t, RemoveNotFound)
    else if t.slots[slotId].occupied then (t, StillOccupied)
    else (t.(slots := t.slots - {slotId}), Removed)
  }

  /** A released slot: free, with no plate, start time, transaction or mobile number. */
  function Cleared(slot: SlotRecord): SlotRecord
  {
    slot.(occupied := false, vehiclePlate := None, startTime := None, transactionId := None, mobileNumber := None)
  }

  /** PUT /admin/release/{slotId}. */
  function Release(t: Tables, slotId: string): (Tables, ReleaseOutcome)
  {
    if slotId !in t.slots then (t, ReleaseNotFound)
    else if !t.slots[slotId].occupied then (t, AlreadyAvailable)
    else (t.(slots := t.slots[slotId := Cleared(t.slots[slotId])]), Released)
  }
}
