/**
 * The beta variant's binary-sensor platform (`home_connect_beta/binary_sensor.py`):
 * a sensor that reads one status key against an "on" and an "off" list.
 */
module BetaBinarySensor {
  import opened Common
  import opened BetaApi
  import opened BetaEntity

  /** The `states` argument: the status key to read and the values that
      count as on and as off. */
  datatype States = States(key: string, on: seq<Value>, off: seq<Value>)

  /** The reading of a status: on when the value under the key is in the
      on list (Python's `in`, so `1` matches `True`), else off when it is in
      the off list, else unknown. A missing key or entry reads as None. */
  function Reading(status: Status, states: States): (r: Option<bool>)
    ensures r == Some(true) <==> PyIn(ValueAt(status, states.key), states.on)
    ensures r == Some(false) <==>
      !PyIn(ValueAt(status, states.key), states.on) && PyIn(ValueAt(status, states.key), states.off)
    ensures r == None <==>
      !PyIn(ValueAt(status, states.key), states.on) && !PyIn(ValueAt(status, states.key), states.off)
  {
    var v := ValueAt(status, states.key);
    if PyIn(v, states.on) then Some(true)
    else if PyIn(v, states.off) then Some(false)
    else None
  }

  /** Only None equals None in Python. */
  lemma NoneInOnlyIfListed(xs: seq<Value>)
    ensures PyIn(NoneV, xs) <==> NoneV in xs
  {
    if PyIn(NoneV, xs) {
      var i :| 0 <= i < |xs| && PyEq(NoneV, xs[i]);
      assert xs[i] == NoneV;
    }
    if NoneV in xs {
      var i :| 0 <= i < |xs| && xs[i] == NoneV;
      assert PyEq(NoneV, xs[i]);
    }
  }

  /** A missing key reads as unknown unless None itself is listed. */
  lemma MissingKeyUnknown(status: Status, states: States)
    requires states.key !in status
    requires NoneV !in states.on && NoneV !in states.off
    ensures Reading(status, states) == None
  {
    NoneInOnlyIfListed(states.on);
    NoneInOnlyIfListed(states.off);
  }

  /** With lists of strings, the reading compares values exactly; a value
      on both lists reads as on. */
  lemma StringStatesExact(status: Status, states: States)
    requires forall i :: 0 <= i < |states.on| ==> states.on[i].Str?
    requires forall i :: 0 <= i < |states.off| ==> states.off[i].Str?
    ensures Reading(status, states) == Some(true) <==> ValueAt(status, states.key) in states.on
    ensures Reading(status, states) == Some(false) <==>
      ValueAt(status, states.key) !in states.on && ValueAt(status, states.key) in states.off
  {
    PyInStrings(ValueAt(status, states.key), states.on);
    PyInStrings(ValueAt(status, states.key), states.off);
  }

  class BinarySensor {
    const device: Device
    const desc: string
    const deviceClass: string
    const states: States
    var state: Option<bool>

    /** `__init__(device, desc, device_class, states)` */
    constructor (device: Device, desc: string, deviceClass: string, states: States)
      ensures this.device == device && this.desc == desc && this.deviceClass == deviceClass
      ensures this.states == states && state == None
    {
      this.device := device;
      this.desc := desc;
      this.deviceClass := deviceClass;
      this.states := states;
      state := None;
    }

    /** `is_on` is `bool(_state)`. */
    function IsOn(): (on: bool)
      reads this
      ensures on <==> state == Some(true)
    {
      Truthy(state)
    }

    /** `available`: a reading is known. */
    function Available(): (up: bool)
      reads this
      ensures up <==> state != None
    {
      state.Some?
    }

    /** `async_update` */
    method Update()
      modifies this
      ensures state == Reading(device.appliance.status, states)
    {
      var v := ValueAt(device.appliance.status, states.key);
      if PyIn(v, states.on) {
        state := Some(true);
      } else if PyIn(v, states.off) {
        state := Some(false);
      } else {
        state := None;
      }
    }
  }

  /** `async_setup_entry` as written: the door descriptor carries no
      `states`, so building a sensor from the first record that lists one
      raises a TypeError (a missing argument) and no sensor is added; with
      no door descriptors at all the platform adds nothing. */
  method SetupEntry(records: seq<DeviceRecord>) returns (r: Outcome<seq<BinarySensor>>)
    ensures r.Raised? <==> exists i :: 0 <= i < |records| && records[i].entities.binarySensor != []
    ensures r.Raised? ==> r.exc == TypeError
    ensures r.Done? ==> r.value == []
  {
    var i := 0;
    while i < |records|
      invariant 0 <= i <= |records|
      invariant forall k :: 0 <= k < i ==> records[k].entities.binarySensor == []
    {
      if records[i].entities.binarySensor != [] {
        return Raised(TypeError);
      }
      i := i + 1;
    }
    r := Done([]);
  }

  /** Every device of a door class makes the platform's setup fail. */
  lemma DoorDeviceBreaksSetup(records: seq<DeviceRecord>, i: nat)
    requires i < |records| && records[i].entities == GetEntityInfo(records[i].device.archetype)
    requires HasDoor(records[i].device.archetype)
    ensures records[i].entities.binarySensor != []
  {
    EntitiesPerClass(records[i].device.archetype);
  }
}
