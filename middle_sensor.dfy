/**
 * The middle variant's sensor platform (`homeconnect/sensor.py`): the
 * program sensors that show a status value as it is.
 */
module MiddleSensor {
  import opened Common
  import opened MiddleApi

  class Sensor {
    const device: Device
    const name: string
    const key: string
    const unit: string
    var state: Value

    constructor (device: Device, name: string, key: string, unit: string)
      ensures this.device == device && this.name == name && this.key == key && this.unit == unit
      ensures state == NoneV
    {
      this.device := device;
      this.name := name;
      this.key := key;
      this.unit := unit;
      state := NoneV;
    }

    /** `available`: the state is not None. */
    function Available(): (up: bool)
      reads this
      ensures up <==> state != NoneV
    {
      state != NoneV
    }

    /** `unit_of_measurement` */
    function UnitOfMeasurement(): (u: string)
      ensures u == unit
    {
      unit
    }

    /** `icon`: by unit. */
    function Icon(): (icon: Option<string>)
      ensures icon == IconFor(unit)
    {
      IconFor(unit)
    }

    /** `update`: None when the key is missing, else the entry's value
        (None when the entry has none). */
    method Update()
      modifies this
      ensures key !in device.appliance.status ==> state == NoneV
      ensures key in device.appliance.status ==> state == ValueIn(device.appliance.status[key])
    {
      var status := device.appliance.status;
      if key !in status {
        state := NoneV;
      } else {
        state := if "value" in status[key] then status[key]["value"] else NoneV;
      }
    }
  }

  /** Sensors made for a device record: one per sensor descriptor, in
      order, all of that device. */
  predicate BlockFor(b: seq<Sensor>, rec: DeviceRecord)
  {
    |b| == |rec.entities.sensor|
    && forall j :: 0 <= j < |b| ==>
         b[j].device == rec.device && b[j].name == rec.entities.sensor[j].name
         && b[j].key == rec.entities.sensor[j].key && b[j].unit == rec.entities.sensor[j].unit
  }

  /** The body of the setup loop for one device record. */
  method SetupDevice(rec: DeviceRecord) returns (b: seq<Sensor>)
    modifies rec.device
    ensures BlockFor(b, rec)
    ensures rec.device.entities == old(rec.device.entities) + b
    ensures forall j :: 0 <= j < |b| ==> b[j].state == NoneV
  {
    var dicts := rec.entities.sensor;
    b := [];
    var j := 0;
    while j < |dicts|
      invariant 0 <= j <= |dicts| && |b| == j
      invariant forall i :: 0 <= i < j ==>
        b[i].device == rec.device && b[i].name == dicts[i].name && b[i].key == dicts[i].key
        && b[i].unit == dicts[i].unit && b[i].state == NoneV
      invariant rec.device.entities == old(rec.device.entities)
    {
      var sensor := new Sensor(rec.device, dicts[j].name, dicts[j].key, dicts[j].unit);
      b := b + [sensor];
      j := j + 1;
    }
    rec.device.entities := rec.device.entities + b;
  }

  /** `async_setup_entry`: every sensor descriptor of every record becomes
      a sensor, in order, which also joins its device's `entities`. */
  method SetupEntry(records: seq<DeviceRecord>) returns (entities: seq<Sensor>, ghost blocks: seq<seq<Sensor>>)
    requires forall i, j :: 0 <= i < j < |records| ==> records[i].device != records[j].device
    modifies set i | 0 <= i < |records| :: records[i].device
    ensures |blocks| == |records| && entities == Flat(blocks)
    ensures forall i :: 0 <= i < |records| ==> BlockFor(blocks[i], records[i])
    ensures forall i :: 0 <= i < |records| ==>
      records[i].device.entities == old(records[i].device.entities) + blocks[i]
  {
    entities := [];
    blocks := [];
    var i := 0;
    while i < |records|
      invariant 0 <= i <= |records| && |blocks| == i && entities == Flat(blocks)
      invariant forall k :: 0 <= k < i ==> BlockFor(blocks[k], records[k])
      invariant forall k :: 0 <= k < i ==>
        records[k].device.entities == old(records[k].device.entities) + blocks[k]
      invariant forall k :: i <= k < |records| ==> records[k].device.entities == old(records[k].device.entities)
    {
      var b := SetupDevice(records[i]);
      assert (blocks + [b])[..i] == blocks;
      blocks := blocks + [b];
      entities := entities + b;
      i := i + 1;
    }
  }
}
