/** The two tables behind the repositories: slots keyed by slot id, and the transaction
    log, whose surrogate keys are taken to be 1, 2, 3, ... in log order */
module Store {
  import opened Basics
  import opened Slots
  import opened Transactions

  datatype Tables = Tables(slots: map<string, SlotRecord>, transactions: seq<TxnRecord>)

  /** Some SUCCESS transaction of slot `k` carries the external id `txnId`. */
  ghost predicate SettledBy(log: seq<TxnRecord>, txnId: string, k: string)
  {
    exists i :: 0 <= i < |log| && log[i].transactionId == Some(txnId)
                && log[i].slotId == Some(k) && log[i].paymentStatus == Some(Success)
  }

  /** An occupied slot has a start time and names a confirmed transaction of its own. */
  ghost predicate OccupancyBacked(s: SlotRecord, k: string, log: seq<TxnRecord>)
  {
    s.occupied ==> s.startTime.Some? && s.transactionId.Some? && SettledBy(log, s.transactionId.value, k)
  }

  /** What every endpoint keeps true of the tables. */
  ghost predicate Consistent(t: Tables)
  {
    && (forall k :: k in t.slots ==> t.slots[k].slotId == Some(k))
    && (forall k :: k in t.slots ==> OccupancyBacked(t.slots[k], k, t.transactions))
    && (forall i :: 0 <= i < |t.transactions| ==>
          t.transactions[i].id == Some(i + 1)
          && t.transactions[i].transactionId.Some? && t.transactions[i].slotId.Some?)
    && (forall i, j :: 0 <= i < j < |t.transactions| ==>
          t.transactions[i].transactionId != t.transactions[j].transactionId)
  }

  /** The identifier is not used by any logged transaction. */
  ghost predicate FreshId(t: Tables, txnId: string)
  {
    forall i :: 0 <= i < |t.transactions| ==> t.transactions[i].transactionId != Some(txnId)
  }

  /** Lookup of a transaction by its external id: the position of the first match. */
  function IndexOfTxn(log: seq<TxnRecord>, txnId: string): (r: Option<nat>)
    ensures r.Some? ==> r.value < |log| && log[r.value].transactionId == Some(txnId)
    ensures r.Some? ==> forall i :: 0 <= i < r.value ==> log[i].transactionId != Some(txnId)
    ensures r.None? <==> forall i :: 0 <= i < |log| ==> log[i].transactionId != Some(txnId)
  {
    if log == [] then None
    else if log[0].transactionId == Some(txnId) then Some(0)
    else
      match IndexOfTxn(log[1..], txnId)
      case None => None
      case Some(j) => Some(j + 1)
  }

  /** The database: the slot table and the transaction table. */
  class Database {
    var slots: map<string, SlotRecord>
    var transactions: seq<TxnRecord>

    constructor ()
      ensures slots == map[] && transactions == []
      ensures Consistent(Snapshot())
    {
      slots := map[];
      transactions := [];
    }

    /** The current contents of both tables. */
    function Snapshot(): Tables
      reads this
    {
      Tables(slots, transactions)
    }

    /** Inserts or overwrites the row keyed by the slot's id. */
    method SaveSlot(s: ParkingSlot)
      requires s.slotId.Some?
      modifies this
      ensures slots == old(slots)[s.slotId.value := s.Record()]
      ensures transactions == old(transactions)
    {
      slots := slots[s.slotId.value := s.Record()];
    }

    method DeleteSlot(slotId: string)
      modifies this
      ensures slots == old(slots) - {slotId}
      ensures transactions == old(transactions)
    {
      slots := slots - {slotId};
    }

    /** A transaction without a key is appended and given the next key; one with a key
        overwrites its row. */
    method SaveTransaction(t: Transaction)
      requires t.id.None? || 1 <= t.id.value <= |transactions|
      modifies this, t
      ensures slots == old(slots)
      ensures old(t.id).None? ==>
        t.Record() == old(t.Record()).(id := Some(|old(transactions)| + 1))
        && transactions == old(transactions) + [t.Record()]
      ensures old(t.id).Some? ==>
        t.Record() == old(t.Record())
        && transactions == old(transactions)[old(t.id).value - 1 := t.Record()]
    {
      if t.id.None? {
        t.SetId(Some(|transactions| + 1));
        transactions := transactions + [t.Record()];
      } else {
        transactions := transactions[t.id.value - 1 := t.Record()];
      }
    }
  }
}
