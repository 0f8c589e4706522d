/**
 * The oldest variant's binary-sensor platform (`binary_sensor/homeconnect.py`):
 * the door sensor.
 */
module OldBinarySensor {
  import opened Common
  import opened OldInit

  /** The door reading: closed or locked is off, open is on, anything else
      (including no value at all) is unknown. */
  function DoorReading(v: Value): (r: Option<bool>)
    ensures r == Some(false) <==> v == Str(DOOR_CLOSED) || v == Str(DOOR_LOCKED)
    ensures r == Some(true) <==> v == Str(DOOR_OPEN)
    ensures r == None <==> v !in {Str(DOOR_CLOSED), Str(DOOR_LOCKED), Str(DOOR_OPEN)}
  {
    PyInStrings(v, [Str(DOOR_CLOSED), Str(DOOR_LOCKED)]);
    if PyIn(v, [Str(DOOR_CLOSED), Str(DOOR_LOCKED)]) then Some(false)
    else if PyEq(v, Str(DOOR_OPEN)) then Some(true)
    else None
  }

  class BinarySensor {
    const device: Device
    const name: string
    const deviceClass: string
    var state: Option<bool>

    constructor (device: Device, name: string, deviceClass: string)
      ensures this.device == device && this.name == name && this.deviceClass == deviceClass
      ensures state == None
    {
      this.device := device;
      this.name := name;
      this.deviceClass := deviceClass;
      state := None;
    }

    /** `is_on` is `bool(_state)`. */
    function IsOn(): (on: bool)
      reads this
      ensures on <==> state == Some(true)
    {
      Truthy(state)
    }

    /** `available`: a reading is known. */
    function Available(): (up: bool)
      reads this
      ensures up <==> state != None
    {
      state.Some?
    }

    /** `update` reads the door state of the appliance, whatever sensor this
        is. */
    method Update()
      modifies this
      ensures state == DoorReading(ValueAt(device.appliance.status, DOOR_STATE))
    {
      var v := ValueIn(EntryAt(device.appliance.status, DOOR_STATE));
      if v == Str(DOOR_CLOSED) || v == Str(DOOR_LOCKED) {
        state := Some(false);
      } else if v == Str(DOOR_OPEN) {
        state := Some(true);
      } else {
        state := None;
      }
    }
  }

  /** Sensors made for a device record: one per binary-sensor descriptor,
      in order, all of that device. */
  predicate BlockFor(b: seq<BinarySensor>, rec: DeviceRecord)
  {
    |b| == |rec.entities.binarySensor|
    && forall j :: 0 <= j < |b| ==>
         b[j].device == rec.device && b[j].name == rec.entities.binarySensor[j].name
         && b[j].deviceClass == rec.entities.binarySensor[j].deviceClass
  }

  /** The body of the setup loop for one device record. */
  method SetupDevice(rec: DeviceRecord) returns (b: seq<BinarySensor>)
    modifies rec.device
    ensures BlockFor(b, rec)
    ensures rec.device.entities == old(rec.device.entities) + b
    ensures forall j :: 0 <= j < |b| ==> b[j].state == None
  {
    var dicts := rec.entities.binarySensor;
    b := [];
    var j := 0;
    while j < |dicts|
      invariant 0 <= j <= |dicts| && |b| == j
      invariant forall i :: 0 <= i < j ==>
        b[i].device == rec.device && b[i].name == dicts[i].name && b[i].deviceClass == dicts[i].deviceClass
        && b[i].state == None
      invariant rec.device.entities == old(rec.device.entities)
    {
      var sensor := new BinarySensor(rec.device, dicts[j].name, dicts[j].deviceClass);
      b := b + [sensor];
      j := j + 1;
    }
    rec.device.entities := rec.device.entities + b;
  }

  /** `setup_platform`: every binary-sensor descriptor of every record
      becomes a sensor, which also joins its device's `entities`. */
  method SetupPlatform(records: seq<DeviceRecord>) returns (entities: seq<BinarySensor>, ghost blocks: seq<seq<BinarySensor>>)
    requires forall i, j :: 0 <= i < j < |records| ==> records[i].device != records[j].device
    modifies set i | 0 <= i < |records| :: records[i].device
    ensures |blocks| == |records| && entities == Flat(blocks)
    ensures forall i :: 0 <= i < |records| ==> BlockFor(blocks[i], records[i])
    ensures forall i :: 0 <= i < |records| ==>
      records[i].device.entities == old(records[i].device.entities) + blocks[i]
  {
    entities := [];
    blocks := [];
    var i := 0;
    while i < |records|
      invariant 0 <= i <= |records| && |blocks| == i && entities == Flat(blocks)
      invariant forall k :: 0 <= k < i ==> BlockFor(blocks[k], records[k])
      invariant forall k :: 0 <= k < i ==>
        records[k].device.entities == old(records[k].device.entities) + blocks[k]
      invariant forall k :: i <= k < |records| ==> records[k].device.entities == old(records[k].device.entities)
    {
      var b := SetupDevice(records[i]);
      assert (blocks + [b])[..i] == blocks;
      blocks := blocks + [b];
      entities := entities + b;
      i := i + 1;
    }
  }
}
