/** Properties of the endpoints: each keeps the tables consistent, and each does exactly
    what the controller promises and nothing else. */
module EndpointProperties {
  import opened Basics
  import opened Slots
  import opened Transactions
  import opened Payment
  import opened Store
  import opened Endpoints
  import opened Reporting

  // ---------------------------------------------------------------------------
  // The consistency invariant

  /** Every unchanged or freed slot stays backed when the log only grows or settles. */
  lemma OccupancyKept(t: Tables, t': Tables)
    requires Consistent(t)
    requires |t.transactions| <= |t'.transactions|
    requires forall i :: 0 <= i < |t.transactions| ==>
      t'.transactions[i].transactionId == t.transactions[i].transactionId
      && t'.transactions[i].slotId == t.transactions[i].slotId
      && (t.transactions[i].paymentStatus == Some(Success) ==> t'.transactions[i].paymentStatus == Some(Success))
    ensures forall k :: k in t.slots ==> OccupancyBacked(t.slots[k], k, t'.transactions)
  {
  }

  lemma BookKeepsConsistent(t: Tables, slotId: string, request: BookingRequest, draw: real,
                            formatAmount: real -> string, now: Time, freshId: string)
    requires Consistent(t) && FreshId(t, freshId)
    requires 0.0 <= draw < 1.0
    ensures Consistent(Book(t, slotId, request, draw, formatAmount, now, freshId).0)
  {
    var t' := Book(t, slotId, request, draw, formatAmount, now, freshId).0;
    if slotId in t.slots && !t.slots[slotId].occupied {
      assert t'.transactions[..|t.transactions|] == t.transactions;
      OccupancyKept(t, t');
      var n := |t.transactions|;
      forall i, j | 0 <= i < j < |t'.transactions|
        ensures t'.transactions[i].transactionId != t'.transactions[j].transactionId
      {
        if j == n {
          assert t'.transactions[j].transactionId == Some(freshId);
        } else {
          assert t'.transactions[i] == t.transactions[i] && t'.transactions[j] == t.transactions[j];
        }
      }
    }
  }

  lemma ConfirmKeepsConsistent(t: Tables, txnId: string, now: Time)
    requires Consistent(t)
    ensures Consistent(Confirm(t, txnId, now).0)
  {
    var t' := Confirm(t, txnId, now).0;
    var r := IndexOfTxn(t.transactions, txnId);
    if r.Some? && t.transactions[r.value].slotId.value in t.slots {
      var i := r.value;
      var k := t.transactions[i].slotId.value;
      OccupancyKept(t, t');
      assert t'.transactions[i].transactionId == Some(txnId) && t'.transactions[i].slotId == Some(k);
      assert SettledBy(t'.transactions, txnId, k);
      forall i1, j1 | 0 <= i1 < j1 < |t'.transactions|
        ensures t'.transactions[i1].transactionId != t'.transactions[j1].transactionId
      {
        assert t'.transactions[i1].transactionId == t.transactions[i1].transactionId;
        assert t'.transactions[j1].transactionId == t.transactions[j1].transactionId;
      }
    }
  }

  lemma CreateKeepsConsistent(t: Tables, newSlot: SlotRecord)
    requires Consistent(t)
    ensures Consistent(Create(t, newSlot).0)
  {
  }

  lemma RemoveKeepsConsistent(t: Tables, slotId: string)
    requires Consistent(t)
    ensures Consistent(Remove(t, slotId).0)
  {
  }

  lemma ReleaseKeepsConsistent(t: Tables, slotId: string)
    requires Consistent(t)
    ensures Consistent(Release(t, slotId).0)
  {
  }

  // ---------------------------------------------------------------------------
  // Booking

  /** A missing or occupied slot is refused and nothing is written. */
  lemma BookRejectsMissingOrOccupied(t: Tables, slotId: string, request: BookingRequest, draw: real,
                                     formatAmount: real -> string, now: Time, freshId: string)
    requires 0.0 <= draw < 1.0
    requires slotId !in t.slots || t.slots[slotId].occupied
    ensures Book(t, slotId, request, draw, formatAmount, now, freshId).0 == t
    ensures Book(t, slotId, request, draw, formatAmount, now, freshId).1
            == if slotId !in t.slots then SlotNotFound else AlreadyBooked
  {
  }

  /** Booking a free slot logs exactly one new transaction, priced at rate times hours with
      no check on the hours; on a successful initiation only the slot's mobile number changes
      and the transaction stays PENDING, otherwise the slot is untouched and the transaction
      ends INITIATION_FAILED. No slot's occupancy changes. */
  lemma BookLogsOneTransaction(t: Tables, slotId: string, request: BookingRequest, draw: real,
                               formatAmount: real -> string, now: Time, freshId: string)
    requires 0.0 <= draw < 1.0
    requires slotId in t.slots && !t.slots[slotId].occupied
    ensures var (t', out) := Book(t, slotId, request, draw, formatAmount, now, freshId);
      var n := |t.transactions|;
      && |t'.transactions| == n + 1
      && t'.transactions[..n] == t.transactions
      && t'.transactions[n].amountPaid == t.slots[slotId].baseHourlyPrice * request.durationHours as real
      && t'.transactions[n].durationHours == request.durationHours
      && t'.transactions[n].slotId == Some(slotId)
      && t'.transactions[n].vehiclePlate == request.vehiclePlate
      && t'.transactions[n].mobileNumber == request.mobileNumber
      && t'.transactions[n].transactionId == Some(freshId)
      && t'.transactions[n].bookingTime == Some(now)
      && t'.transactions[n].id == Some(n + 1)
      && (out.Redirect? <==> draw < SuccessThreshold)
      && (out.Redirect? ==>
            t'.transactions[n].paymentStatus == Some(Pending)
            && t'.slots == t.slots[slotId := t.slots[slotId].(mobileNumber := request.mobileNumber)])
      && (!out.Redirect? ==>
            out == PaymentInitiationFailed
            && t'.transactions[n].paymentStatus == Some(InitiationFailed)
            && t'.slots == t.slots)
      && t'.slots.Keys == t.slots.Keys
      && (forall k :: k in t.slots ==> t'.slots[k].occupied == t.slots[k].occupied)
  {
  }

  /** Booking never changes the revenue: what it logs is PENDING or INITIATION_FAILED. */
  lemma BookKeepsRevenue(t: Tables, slotId: string, request: BookingRequest, draw: real,
                         formatAmount: real -> string, now: Time, freshId: string)
    requires 0.0 <= draw < 1.0
    ensures Revenue(Book(t, slotId, request, draw, formatAmount, now, freshId).0.transactions) == Revenue(t.transactions)
  {
    var t' := Book(t, slotId, request, draw, formatAmount, now, freshId).0;
    if t' != t {
      RevenueAppend(t.transactions, t'.transactions[|t.transactions|]);
      assert t'.transactions == t.transactions + [t'.transactions[|t.transactions|]];
    }
  }

  // ---------------------------------------------------------------------------
  // Confirmation

  /** Lookup by external id sees only the ids. */
  lemma IndexOfTxnSeesOnlyIds(log: seq<TxnRecord>, log': seq<TxnRecord>, txnId: string)
    requires |log| == |log'|
    requires forall i :: 0 <= i < |log| ==> log'[i].transactionId == log[i].transactionId
    ensures IndexOfTxn(log', txnId) == IndexOfTxn(log, txnId)
  {
  }

  /** In a consistent log the lookup finds the one transaction carrying the id. */
  lemma IndexOfTxnUnique(t: Tables, i: nat, txnId: string)
    requires Consistent(t)
    requires i < |t.transactions| && t.transactions[i].transactionId == Some(txnId)
    ensures IndexOfTxn(t.transactions, txnId) == Some(i)
  {
  }

  /** Confirmation succeeds exactly when a transaction with that id exists and its slot does;
      then it occupies that slot (start time now, transaction id set, plate, mobile number and
      rate left alone), marks that transaction SUCCESS whatever its status was, and changes
      nothing else. Otherwise nothing changes. */
  lemma ConfirmEffect(t: Tables, txnId: string, now: Time)
    requires Consistent(t)
    ensures var (t', out) := Confirm(t, txnId, now);
      && (out == Confirmed <==>
            exists i :: 0 <= i < |t.transactions| && t.transactions[i].transactionId == Some(txnId)
                        && t.transactions[i].slotId.value in t.slots)
      && (out == TxnOrSlotNotFound ==> t' == t)
      && (forall i :: 0 <= i < |t.transactions| && t.transactions[i].transactionId == Some(txnId)
                      && t.transactions[i].slotId.value in t.slots ==>
            var k := t.transactions[i].slotId.value;
            && t'.slots == t.slots[k := t.slots[k].(occupied := true, startTime := Some(now), transactionId := Some(txnId))]
            && t'.slots[k].vehiclePlate == t.slots[k].vehiclePlate
            && t'.transactions == t.transactions[i := t.transactions[i].(paymentStatus := Some(Success))])
  {
  }

  /** Confirmation adds the confirmed amount to the revenue unless that transaction had
      already been counted; a failed confirmation adds nothing. */
  lemma ConfirmRevenue(t: Tables, txnId: string, now: Time)
    ensures var (t', out) := Confirm(t, txnId, now);
      out == Confirmed ==>
        var i := IndexOfTxn(t.transactions, txnId).value;
        Revenue(t'.transactions) == Revenue(t.transactions) - Earned(t.transactions[i]) + t.transactions[i].amountPaid
    ensures var (t', out) := Confirm(t, txnId, now);
      out == TxnOrSlotNotFound ==> Revenue(t'.transactions) == Revenue(t.transactions)
  {
    var (t', out) := Confirm(t, txnId, now);
    if out == Confirmed {
      var i := IndexOfTxn(t.transactions, txnId).value;
      RevenueUpdate(t.transactions, i, t.transactions[i].(paymentStatus := Some(Success)));
    }
  }

  /** Confirming a booking of a free slot leaves one fewer slot available; confirming
      again for an occupied slot leaves the count alone. */
  lemma ConfirmAvailability(t: Tables, txnId: string, now: Time)
    ensures var (t', out) := Confirm(t, txnId, now);
      out == Confirmed ==>
        var k := t.transactions[IndexOfTxn(t.transactions, txnId).value].slotId.value;
        && FreeIds(t'.slots) == FreeIds(t.slots) - {k}
        && |FreeIds(t'.slots)| == if t.slots[k].occupied then |FreeIds(t.slots)| else |FreeIds(t.slots)| - 1
  {
  }

  /** Confirming twice re-applies the same writes: the result is that of the last
      confirmation alone. */
  lemma ConfirmTwice(t: Tables, txnId: string, now1: Time, now2: Time)
    ensures Confirm(Confirm(t, txnId, now1).0, txnId, now2) == Confirm(t, txnId, now2)
  {
    var t1 := Confirm(t, txnId, now1).0;
    IndexOfTxnSeesOnlyIds(t.transactions, t1.transactions, txnId);
    var r := IndexOfTxn(t.transactions, txnId);
    if r.Some? {
      var i := r.value;
      assert t1.transactions[i].slotId == t.transactions[i].slotId;
      if t.transactions[i].slotId.Some? && t.transactions[i].slotId.value in t.slots {
        var k := t.transactions[i].slotId.value;
        var settled := t.transactions[i].(paymentStatus := Some(Success));
        assert t1.transactions == t.transactions[i := settled];
        assert t1.transactions[i := settled] == t.transactions[i := settled];
        var occupied := t.slots[k].(occupied := true, startTime := Some(now2), transactionId := Some(txnId));
        assert t1.slots[k].(occupied := true, startTime := Some(now2), transactionId := Some(txnId)) == occupied;
        assert t1.slots[k := occupied] == t.slots[k := occupied];
      }
    }
  }

  /** The redirect URL of a booking names its new transaction, and confirming that name
      occupies the booked slot, settles the booking and adds its price to the revenue. */
  lemma BookThenConfirm(t: Tables, slotId: string, request: BookingRequest, draw: real,
                        formatAmount: real -> string, now: Time, freshId: string, later: Time)
    requires Consistent(t) && FreshId(t, freshId) && '&' !in freshId
    requires 0.0 <= draw < SuccessThreshold
    requires slotId in t.slots && !t.slots[slotId].occupied
    ensures var (t1, out) := Book(t, slotId, request, draw, formatAmount, now, freshId);
      && out.Redirect?
      && TxnIdParam(out.url) == Some(freshId)
      && var (t2, done) := Confirm(t1, freshId, later);
         && done == Confirmed
         && t2.slots[slotId] == t.slots[slotId].(occupied := true, startTime := Some(later), transactionId := Some(freshId),
                                                  mobileNumber := request.mobileNumber)
         && t2.transactions[|t.transactions|].paymentStatus == Some(Success)
         && Revenue(t2.transactions) == Revenue(t.transactions) + BookingPrice(t.slots[slotId], request)
         && |FreeIds(t2.slots)| == |FreeIds(t.slots)| - 1
  {
    var (t1, out) := Book(t, slotId, request, draw, formatAmount, now, freshId);
    var n := |t.transactions|;
    var pending := PendingFor(t, slotId, t.slots[slotId], request, now, freshId);
    UrlCarriesTransactionId(pending, draw, formatAmount);
    BookKeepsConsistent(t, slotId, request, draw, formatAmount, now, freshId);
    IndexOfTxnUnique(t1, n, freshId);
    BookKeepsRevenue(t, slotId, request, draw, formatAmount, now, freshId);
    ConfirmRevenue(t1, freshId, later);
    ConfirmAvailability(t1, freshId, later);
    assert FreeIds(t1.slots) == FreeIds(t.slots);
  }

  // ---------------------------------------------------------------------------
  // Administration

  /** A slot without an id fails, a duplicate id is refused, and neither writes anything;
      otherwise exactly that id is added, free, at the default rate when the given rate is
      0.0 and at the given rate (even a negative one) otherwise, with every other field as sent. */
  lemma CreateEffect(t: Tables, newSlot: SlotRecord)
    ensures var (t', out) := Create(t, newSlot);
      && (newSlot.slotId.None? ==> t' == t && out == MissingId)
      && (newSlot.slotId.Some? && newSlot.slotId.value in t.slots ==> t' == t && out == DuplicateId)
      && (newSlot.slotId.Some? && newSlot.slotId.value !in t.slots ==>
            var k := newSlot.slotId.value;
            && out.Created?
            && t'.slots.Keys == t.slots.Keys + {k}
            && (forall k' :: k' in t.slots ==> t'.slots[k'] == t.slots[k'])
            && t'.slots[k] == out.slot
            && !out.slot.occupied
            && out.slot.baseHourlyPrice == (if newSlot.baseHourlyPrice == 0.0 then DefaultHourlyPrice else newSlot.baseHourlyPrice)
            && out.slot.(occupied := newSlot.occupied, baseHourlyPrice := newSlot.baseHourlyPrice) == newSlot
            && t'.transactions == t.transactions)
  {
  }

  /** A created slot is free yet may carry the start time and transaction id it was sent
      with: "occupied" does not follow from having them. */
  lemma CreatedSlotMayCarryStartTime()
    ensures var slot := SlotRecord(Some("D1"), true, None, 0.0, None, Some(7), Some("t-7"));
      var (t', out) := Create(Tables(map[], []), slot);
      && Consistent(t')
      && !t'.slots["D1"].occupied
      && t'.slots["D1"].startTime == Some(7) && t'.slots["D1"].transactionId == Some("t-7")
      && t'.slots["D1"].baseHourlyPrice == DefaultHourlyPrice
  {
  }

  /** Removal refuses an occupied slot and reports a missing one, writing nothing; otherwise
      it deletes exactly that slot. */
  lemma RemoveEffect(t: Tables, slotId: string)
    ensures var (t', out) := Remove(t, slotId);
      && (slotId !in t.slots ==> t' == t && out == RemoveNotFound)
      && (slotId in t.slots && t.slots[slotId].occupied ==> t' == t && out == StillOccupied)
      && (slotId in t.slots && !t.slots[slotId].occupied ==>
            && out == Removed
            && t'.slots.Keys == t.slots.Keys - {slotId}
            && |t'.slots| == |t.slots| - 1
            && (forall k :: k in t'.slots ==> t'.slots[k] == t.slots[k])
            && t'.transactions == t.transactions)
  {
  }

  /** Releasing a missing or free slot writes nothing; releasing an occupied slot clears
      its booking and keeps its id and rate; nothing else changes. */
  lemma ReleaseEffect(t: Tables, slotId: string)
    ensures var (t', out) := Release(t, slotId);
      && (slotId !in t.slots ==> t' == t && out == ReleaseNotFound)
      && (slotId in t.slots && !t.slots[slotId].occupied ==> t' == t && out == AlreadyAvailable)
      && (slotId in t.slots && t.slots[slotId].occupied ==>
            && out == Released
            && t'.slots.Keys == t.slots.Keys
            && (forall k :: k in t.slots && k != slotId ==> t'.slots[k] == t.slots[k])
            && !t'.slots[slotId].occupied
            && t'.slots[slotId].vehiclePlate.None? && t'.slots[slotId].startTime.None?
            && t'.slots[slotId].transactionId.None? && t'.slots[slotId].mobileNumber.None?
            && t'.slots[slotId].slotId == t.slots[slotId].slotId
            && t'.slots[slotId].baseHourlyPrice == t.slots[slotId].baseHourlyPrice
            && t'.transactions == t.transactions)
  {
  }

  /** A second release writes nothing. */
  lemma ReleaseTwice(t: Tables, slotId: string)
    ensures Release(Release(t, slotId).0, slotId).0 == Release(t, slotId).0
    ensures Release(Release(t, slotId).0, slotId).1 != Released
  {
  }
}
