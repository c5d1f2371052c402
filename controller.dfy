/** The REST controller: each endpoint loads entities from the database, edits them through
    their setters and saves them back, and is proved to have the effect its function in
    Endpoints describes while keeping the database consistent. */
module Controller {
  import opened Basics
  import opened Slots
  import opened Transactions
  import opened Payment
  import opened Store
  import opened Endpoints
  import EndpointProperties

  /** POST /book/{slotId}. `draw` is the gateway's random draw, `now` the clock and
      `freshId` the UUID the new transaction receives. */
  method BookSlot(db: Database, slotId: string, request: BookingRequest, draw: real,
                  formatAmount: real -> string, now: Time, freshId: string) returns (outcome: BookOutcome)
    requires Consistent(db.Snapshot()) && FreshId(db.Snapshot(), freshId)
    requires 0.0 <= draw < 1.0
    modifies db
    ensures Consistent(db.Snapshot())
    ensures (db.Snapshot(), outcome) == Book(old(db.Snapshot()), slotId, request, draw, formatAmount, now, freshId)
  {
    EndpointProperties.BookKeepsConsistent(db.Snapshot(), slotId, request, draw, formatAmount, now, freshId);
    ghost var before := db.Snapshot();
    if slotId in db.slots {
      var slot := new ParkingSlot.Load(db.slots[slotId]);
      if slot.occupied {
        return AlreadyBooked;
      }
      var finalPrice := slot.baseHourlyPrice * request.durationHours as real;
      var pendingTransaction := new Transaction.Create(Some(slotId), request.vehiclePlate, request.mobileNumber,
                                                       finalPrice, request.durationHours, now, freshId);
      db.SaveTransaction(pendingTransaction);
      ghost var pending := PendingFor(before, slotId, before.slots[slotId], request, now, freshId);
      assert pendingTransaction.Record() == pending;
      var paymentUrl := InitiatePayment(pendingTransaction.Record(), draw, formatAmount);
      if paymentUrl.Some? {
        slot.SetMobileNumber(request.mobileNumber);
        db.SaveSlot(slot);
        return Redirect(paymentUrl.value);
      } else {
        pendingTransaction.SetPaymentStatus(Some(InitiationFailed));
        db.SaveTransaction(pendingTransaction);
        assert db.transactions == (before.transactions + [pending])[|before.transactions| := pending.(paymentStatus := Some(InitiationFailed))];
        assert db.transactions == before.transactions + [pending.(paymentStatus := Some(InitiationFailed))];
        return PaymentInitiationFailed;
      }
    }
    return SlotNotFound;
  }

  /** PUT /confirm-payment/{txnId}. */
  method ConfirmPayment(db: Database, txnId: string, now: Time) returns (outcome: ConfirmOutcome)
    requires Consistent(db.Snapshot())
    modifies db
    ensures Consistent(db.Snapshot())
    ensures (db.Snapshot(), outcome) == Confirm(old(db.Snapshot()), txnId, now)
  {
    EndpointProperties.ConfirmKeepsConsistent(db.Snapshot(), txnId, now);
    var found := IndexOfTxn(db.transactions, txnId);
    if found.Some? {
      var transaction := new Transaction.Load(db.transactions[found.value]);
      if transaction.slotId.Some? && transaction.slotId.value in db.slots {
        var slot := new ParkingSlot.Load(db.slots[transaction.slotId.value]);
        slot.SetOccupied(true);
        slot.SetStartTime(Some(now));
        slot.SetTransactionId(Some(txnId));
        db.SaveSlot(slot);
        transaction.SetPaymentStatus(Some(Success));
        db.SaveTransaction(transaction);
        return Confirmed;
      }
    }
    return TxnOrSlotNotFound;
  }

  /** POST /admin/slots. The request body object is edited in place and, when accepted,
      is what gets stored. */
  method CreateSlot(db: Database, newSlot: ParkingSlot) returns (outcome: CreateOutcome)
    requires Consistent(db.Snapshot())
    modifies db, newSlot
    ensures Consistent(db.Snapshot())
    ensures (db.Snapshot(), outcome) == Create(old(db.Snapshot()), old(newSlot.Record()))
    ensures newSlot.Record() == if outcome.Created? then outcome.slot else old(newSlot.Record())
  {
    EndpointProperties.CreateKeepsConsistent(db.Snapshot(), newSlot.Record());
    if newSlot.slotId.None? {
      return MissingId;
    }
    if newSlot.slotId.value in db.slots {
      return DuplicateId;
    }
    newSlot.SetOccupied(false);
    if newSlot.baseHourlyPrice == 0.0 {
      newSlot.SetBaseHourlyPrice(DefaultHourlyPrice);
    }
    db.SaveSlot(newSlot);
    return Created(newSlot.Record());
  }

  /** DELETE /admin/slots/{slotId}. */
  method RemoveSlot(db: Database, slotId: string) returns (outcome: RemoveOutcome)
    requires Consistent(db.Snapshot())
    modifies db
    ensures Consistent(db.Snapshot())
    ensures (db.Snapshot(), outcome) == Remove(old(db.Snapshot()), slotId)
  {
    EndpointProperties.RemoveKeepsConsistent(db.Snapshot(), slotId);
    if slotId in db.slots {
      var slot := new ParkingSlot.Load(db.slots[slotId]);
      if slot.occupied {
        return StillOccupied;
      }
      db.DeleteSlot(slotId);
      return Removed;
    } else {
      return RemoveNotFound;
    }
  }

  /** PUT /admin/release/{slotId}. */
  method ReleaseSlot(db: Database, slotId: string) returns (outcome: ReleaseOutcome)
    requires Consistent(db.Snapshot())
    modifies db
    ensures Consistent(db.Snapshot())
    ensures (db.Snapshot(), outcome) == Release(old(db.Snapshot()), slotId)
  {
    EndpointProperties.ReleaseKeepsConsistent(db.Snapshot(), slotId);
    if slotId !in db.slots {
      return ReleaseNotFound;
    }
    var slot := new ParkingSlot.Load(db.slots[slotId]);
    if !slot.occupied {
      return AlreadyAvailable;
    }
    slot.SetOccupied(false);
    slot.SetVehiclePlate(None);
    slot.SetStartTime(None);
    slot.SetTransactionId(None);
    slot.SetMobileNumber(None);
    db.SaveSlot(slot);
    return Released;
  }
}
