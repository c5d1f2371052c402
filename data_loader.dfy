/** Start-up seeding of the slot table: seven slots, written only into an empty table. */
module DataLoader {
  import opened Basics
  import opened Slots
  import opened Store

  /** The row of a slot built with the two-argument constructor. */
  function SeedSlot(slotId: string, baseHourlyPrice: real): SlotRecord
  {
    SlotRecord(Some(slotId), false, None, baseHourlyPrice, None, None, None)
  }

  /** The table the initial slots make. */
  function SeedTable(): map<string, SlotRecord>
  {
    map["A1" := SeedSlot("A1", 20.0), "A2" := SeedSlot("A2", 20.0), "A3" := SeedSlot("A3", 20.0),
        "A4" := SeedSlot("A4", 20.0), "B1" := SeedSlot("B1", 35.0), "B2" := SeedSlot("B2", 35.0),
        "C1" := SeedSlot("C1", 20.0)]
  }

  /** The slot table after initialisation. */
  function Seeded(slots: map<string, SlotRecord>): map<string, SlotRecord>
  {
    if |slots| == 0 then SeedTable() else slots
  }

  /** Saves the seven initial slots when the slot table is empty; the transaction table is
      never touched. */
  method InitDatabase(db: Database)
    requires Consistent(db.Snapshot())
    modifies db
    ensures Consistent(db.Snapshot())
    ensures db.slots == Seeded(old(db.slots))
    ensures db.transactions == old(db.transactions)
  {
    SeedKeepsConsistent(db.Snapshot());
    if |db.slots| == 0 {
      var a1 := new ParkingSlot.Of(Some("A1"), 20.0);
      var a2 := new ParkingSlot.Of(Some("A2"), 20.0);
      var a3 := new ParkingSlot.Of(Some("A3"), 20.0);
      var a4 := new ParkingSlot.Of(Some("A4"), 20.0);
      var b1 := new ParkingSlot.Of(Some("B1"), 35.0);
      var b2 := new ParkingSlot.Of(Some("B2"), 35.0);
      var c1 := new ParkingSlot.Of(Some("C1"), 20.0);
      // saving the list saves each slot in turn
      db.SaveSlot(a1);
      db.SaveSlot(a2);
      db.SaveSlot(a3);
      db.SaveSlot(a4);
      db.SaveSlot(b1);
      db.SaveSlot(b2);
      db.SaveSlot(c1);
    }
  }

  /** The seed holds exactly A1, A2, A3, A4, B1, B2 and C1; B1 and B2 at 35.0, the others
      at 20.0; each free, keyed by its own id, with no plate, mobile number, start time or
      transaction. */
  lemma SeedContents()
    ensures SeedTable().Keys == {"A1", "A2", "A3", "A4", "B1", "B2", "C1"}
    ensures |SeedTable()| == 7
    ensures forall k :: k in SeedTable() ==>
      var s := SeedTable()[k];
      && s.slotId == Some(k) && !s.occupied
      && s.baseHourlyPrice == (if k == "B1" || k == "B2" then 35.0 else 20.0)
      && s.vehiclePlate.None? && s.mobileNumber.None? && s.startTime.None? && s.transactionId.None?
  {
  }

  /** Only an empty table is seeded; any other is left as it is. */
  lemma SeedOnlyWhenEmpty(slots: map<string, SlotRecord>)
    ensures |slots| == 0 ==> Seeded(slots) == SeedTable()
    ensures |slots| > 0 ==> Seeded(slots) == slots
    ensures |Seeded(slots)| > 0
  {
  }

  /** Initialising twice gives the table initialising once gives. */
  lemma SeedIdempotent(slots: map<string, SlotRecord>)
    ensures Seeded(Seeded(slots)) == Seeded(slots)
  {
  }

  lemma SeedKeepsConsistent(t: Tables)
    requires Consistent(t)
    ensures Consistent(Tables(Seeded(t.slots), t.transactions))
  {
  }
}
