/** The ParkingSlot entity: its persisted row and the mutable object the controller edits. */
module Slots {
  import opened Basics

  /** Rate given to a slot whose price was never set. */
  const DefaultHourlyPrice: real := 20.0

  /** One row of the slot table: the state of a ParkingSlot as the store keeps it. */
  datatype SlotRecord = SlotRecord(
    slotId: Option<string>,
    occupied: bool,
    vehiclePlate: Option<string>,
    baseHourlyPrice: real,
    mobileNumber: Option<string>,
    startTime: Option<Time>,
    transactionId: Option<string>)

  /** The entity object. Each setter changes exactly its own field. */
  class ParkingSlot {
    var slotId: Option<string>
    var occupied: bool
    var vehiclePlate: Option<string>
    var baseHourlyPrice: real
    var mobileNumber: Option<string>
    var startTime: Option<Time>
    var transactionId: Option<string>

    /** The row that saving this object writes. */
    function Record(): SlotRecord
      reads this
    {
      SlotRecord(slotId, occupied, vehiclePlate, baseHourlyPrice, mobileNumber, startTime, transactionId)
    }

    /** The no-argument constructor: free, default rate, every reference null. */
    constructor ()
      ensures slotId == None && !occupied && baseHourlyPrice == DefaultHourlyPrice
      ensures vehiclePlate == None && mobileNumber == None && startTime == None && transactionId == None
    {
      slotId := None;
      occupied := false;
      vehiclePlate := None;
      baseHourlyPrice := DefaultHourlyPrice;
      mobileNumber := None;
      startTime := None;
      transactionId := None;
    }

    /** The two-argument constructor: exactly the given id and rate (a zero rate is kept). */
    constructor Of(slotId: Option<string>, baseHourlyPrice: real)
      ensures this.slotId == slotId && !occupied && this.baseHourlyPrice == baseHourlyPrice
      ensures vehiclePlate == None && mobileNumber == None && startTime == None && transactionId == None
    {
      this.slotId := slotId;
      occupied := false;
      vehiclePlate := None;
      this.baseHourlyPrice := baseHourlyPrice;
      mobileNumber := None;
      startTime := None;
      transactionId := None;
    }

    /** The object the store hands out for a row (what a lookup by id returns). */
    constructor Load(r: SlotRecord)
      ensures Record() == r
    {
      slotId := r.slotId;
      occupied := r.occupied;
      vehiclePlate := r.vehiclePlate;
      baseHourlyPrice := r.baseHourlyPrice;
      mobileNumber := r.mobileNumber;
      startTime := r.startTime;
      transactionId := r.transactionId;
    }

    method SetSlotId(slotId: Option<string>)
      modifies this
      ensures Record() == old(Record()).(slotId := slotId)
    {
      this.slotId := slotId;
    }

    method SetOccupied(occupied: bool)
      modifies this
      ensures Record() == old(Record()).(occupied := occupied)
    {
      this.occupied := occupied;
    }

    method SetVehiclePlate(vehiclePlate: Option<string>)
      modifies this
      ensures Record() == old(Record()).(vehiclePlate := vehiclePlate)
    {
      this.vehiclePlate := vehiclePlate;
    }

    method SetBaseHourlyPrice(baseHourlyPrice: real)
      modifies this
      ensures Record() == old(Record()).(baseHourlyPrice := baseHourlyPrice)
    {
      this.baseHourlyPrice := baseHourlyPrice;
    }

    method SetMobileNumber(mobileNumber: Option<string>)
      modifies this
      ensures Record() == old(Record()).(mobileNumber := mobileNumber)
    {
      this.mobileNumber := mobileNumber;
    }

    method SetStartTime(startTime: Option<Time>)
      modifies this
      ensures Record() == old(Record()).(startTime := startTime)
    {
      this.startTime := startTime;
    }

    method SetTransactionId(transactionId: Option<string>)
      modifies this
      ensures Record() == old(Record()).(transactionId := transactionId)
    {
      this.transactionId := transactionId;
    }
  }
}
