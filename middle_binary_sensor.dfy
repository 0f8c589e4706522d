/**
 * The middle variant's binary-sensor platform (`homeconnect/binary_sensor.py`):
 * a sensor that reads one status key as on, off or unknown.
 */
module MiddleBinarySensor {
  import opened Common
  import opened MiddleApi

  /** `BINARY_SENSORS_OFF_STATES` */
  const OFF_STATES: seq<Value> := [Str(DOOR_CLOSED), Str(DOOR_LOCKED)]

  /** `BINARY_SENSORS_ON_STATES` */
  const ON_STATES: seq<Value> := [Str(DOOR_OPEN)]

  /** The reading of one status entry: a missing or empty entry is unknown;
      a boolean value is taken as it is, before the lists are consulted; a
      value in the off list is off, one in the on list is on; anything
      else, including an entry without a value, is unknown. */
  function EntryReading(entry: Entry): (r: Option<bool>)
    ensures entry == map[] ==> r == None
    ensures entry != map[] && ValueIn(entry).Bool? ==> r == Some(ValueIn(entry).b)
    ensures entry != map[] && !ValueIn(entry).Bool? ==>
      && (r == Some(false) <==> ValueIn(entry) in OFF_STATES)
      && (r == Some(true) <==> ValueIn(entry) in ON_STATES)
      && (r == None <==> ValueIn(entry) !in OFF_STATES + ON_STATES)
  {
    var v := ValueIn(entry);
    PyInStrings(v, OFF_STATES);
    PyInStrings(v, ON_STATES);
    if entry == map[] then None
    else if v.Bool? then Some(v.b)
    else if PyIn(v, OFF_STATES) then Some(false)
    else if PyIn(v, ON_STATES) then Some(true)
    else None
  }

  /** A missing key reads as unknown, whatever the status holds otherwise. */
  lemma MissingKeyUnknown(status: Status, key: string)
    requires key !in status
    ensures EntryReading(EntryAt(status, key)) == None
  {
  }

  /** Only an open door, a closed or locked door, or a boolean gives a
      known reading. */
  lemma KnownReadings(entry: Entry)
    ensures EntryReading(entry) != None ==>
      ValueIn(entry).Bool? || ValueIn(entry) in [Str(DOOR_CLOSED), Str(DOOR_LOCKED), Str(DOOR_OPEN)]
  {
    if EntryReading(entry) != None && !ValueIn(entry).Bool? {
      assert entry != map[];
      assert OFF_STATES + ON_STATES == [Str(DOOR_CLOSED), Str(DOOR_LOCKED), Str(DOOR_OPEN)];
    }
  }

  class BinarySensor {
    const device: Device
    const name: string
    const key: string
    const deviceClass: Option<string>
    var state: Option<bool>

    /** `__init__(device, name, key, device_class=None)` */
    constructor (device: Device, name: string, key: string, deviceClass: Option<string>)
      ensures this.device == device && this.name == name && this.key == key
      ensures this.deviceClass == deviceClass && state == None
    {
      this.device := device;
      this.name := name;
      this.key := key;
      this.deviceClass := deviceClass;
      state := None;
    }

    /** `is_on` is `bool(_state)`. */
    function IsOn(): (on: bool)
      reads this
      ensures on <==> state == Some(true)
    {
      Truthy(state)
    }

    /** `available`: a reading is known. */
    function Available(): (up: bool)
      reads this
      ensures up <==> state != None
    {
      state.Some?
    }

    /** `update` reads the entry under the sensor's own key. */
    method Update()
      modifies this
      ensures state == EntryReading(EntryAt(device.appliance.status, key))
    {
      var entry := EntryAt(device.appliance.status, key);
      if entry == map[] {
        state := None;
      } else {
        var v := ValueIn(entry);
        PyInStrings(v, OFF_STATES);
        PyInStrings(v, ON_STATES);
        if v.Bool? {
          state := Some(v.b);
        } else if PyIn(v, OFF_STATES) {
          state := Some(false);
        } else if PyIn(v, ON_STATES) {
          state := Some(true);
        } else {
          state := None;
        }
      }
    }
  }

  /** `async_setup_entry` as written: the door descriptor carries no `key`,
      so building a sensor from the first record that lists one raises a
      TypeError (a missing argument) before anything joins a device's
      `entities`; with no door descriptors at all the platform adds nothing. */
  method SetupEntry(records: seq<DeviceRecord>) returns (r: Outcome<seq<BinarySensor>>)
    ensures r.Raised? <==> exists i :: 0 <= i < |records| && records[i].entities.binarySensor != []
    ensures r.Raised? ==> r.exc == TypeError
    ensures r.Done? ==> r.value == []
  {
    var i := 0;
    while i < |records|
      invariant 0 <= i <= |records|
      invariant forall k :: 0 <= k < i ==> records[k].entities.binarySensor == []
    {
      if records[i].entities.binarySensor != [] {
        return Raised(TypeError);
      }
      i := i + 1;
    }
    r := Done([]);
  }
}
