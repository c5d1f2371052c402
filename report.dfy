/** GET /admin/report: counts over the slot table and the revenue of confirmed payments. */
module Reporting {
  import opened Basics
  import opened Slots
  import opened Transactions
  import opened Store

  /** The report object; `occupiedSlots` is keyed by slot id, the order of the list is the store's. */
  datatype Report = Report(totalSlots: nat, availableSlots: nat, realRevenue: real,
                           occupiedSlots: map<string, SlotRecord>)

  /** Ids of the slots that are not occupied. */
  function FreeIds(slots: map<string, SlotRecord>): set<string>
  {
    set k | k in slots && !slots[k].occupied
  }

  /** The occupied slots with their full rows. */
  function OccupiedRows(slots: map<string, SlotRecord>): map<string, SlotRecord>
  {
    map k | k in slots && slots[k].occupied :: slots[k]
  }

  /** What a transaction contributes to revenue: its amount when SUCCESS, nothing otherwise. */
  function Earned(x: TxnRecord): real
  {
    if x.paymentStatus == Some(Success) then x.amountPaid else 0.0
  }

  /** Sum of the amounts of the SUCCESS transactions. */
  function Revenue(log: seq<TxnRecord>): real
  {
    if log == [] then 0.0 else Earned(log[0]) + Revenue(log[1..])
  }

  function AdminReport(t: Tables): Report
  {
    Report(|t.slots|, |FreeIds(t.slots)|, Revenue(t.transactions), OccupiedRows(t.slots))
  }

  /** Every slot is counted once: available plus occupied is the total, and the occupied
      list holds exactly the occupied rows. */
  lemma ReportBalance(t: Tables)
    ensures AdminReport(t).totalSlots == |t.slots|
    ensures AdminReport(t).availableSlots + |AdminReport(t).occupiedSlots| == AdminReport(t).totalSlots
    ensures forall k :: k in AdminReport(t).occupiedSlots <==> k in t.slots && t.slots[k].occupied
    ensures forall k :: k in AdminReport(t).occupiedSlots ==> AdminReport(t).occupiedSlots[k] == t.slots[k]
  {
    var free := FreeIds(t.slots);
    var busy := OccupiedRows(t.slots).Keys;
    assert free !! busy;
    assert free + busy == t.slots.Keys;
    assert |free + busy| == |free| + |busy|;
  }

  /** Appending a transaction adds exactly what it earned. */
  lemma {:induction false} RevenueAppend(log: seq<TxnRecord>, x: TxnRecord)
    ensures Revenue(log + [x]) == Revenue(log) + Earned(x)
  {
    if log != [] {
      assert (log + [x])[1..] == log[1..] + [x];
      RevenueAppend(log[1..], x);
    }
  }

  /** Overwriting one transaction trades its old contribution for its new one. */
  lemma {:induction false} RevenueUpdate(log: seq<TxnRecord>, i: nat, x: TxnRecord)
    requires i < |log|
    ensures Revenue(log[i := x]) == Revenue(log) - Earned(log[i]) + Earned(x)
  {
    if i > 0 {
      assert log[i := x][1..] == log[1..][i - 1 := x];
      RevenueUpdate(log[1..], i - 1, x);
    }
  }

  /** A log with no SUCCESS transaction has earned nothing. */
  lemma {:induction false} NoSuccessNoRevenue(log: seq<TxnRecord>)
    requires forall i :: 0 <= i < |log| ==> log[i].paymentStatus != Some(Success)
    ensures Revenue(log) == 0.0
  {
    if log != [] {
      NoSuccessNoRevenue(log[1..]);
    }
  }
}
