/**
 * The oldest variant's switch platform (`switch/homeconnect.py`): one power
 * switch per device and one switch per program.
 */
module OldSwitch {
  import opened Common
  import opened OldInit

  const POWER_STATE_ON: string := "BSH.Common.Setting.PowerState.On"
  const ENUM_POWER_STATE: string := "BSH.Common.EnumType.PowerState"

  class ProgramSwitch {
    const device: Device
    const programName: string
    const name: string
    var state: Option<bool>

    constructor (device: Device, programName: string)
      ensures this.device == device && this.programName == programName
      ensures name == ProgramSwitchName(device.appliance.name, programName)
      ensures state == None
    {
      this.device := device;
      this.programName := programName;
      this.name := ProgramSwitchName(device.appliance.name, programName);
      state := None;
    }

    /** `is_on` is `bool(_state)`: an unknown state reads as off. */
    function IsOn(): (on: bool)
      reads this
      ensures on <==> state == Some(true)
    {
      Truthy(state)
    }

    /** `available` is always True. */
    function Available(): (up: bool)
      ensures up
    {
      true
    }

    /** `turn_on` starts the switch's program; the state is left to the
        next update. Nothing is caught: the error the call raises escapes. */
    method TurnOn(error: Option<Exc>) returns (call: ApplianceCall, raised: Option<Exc>)
      ensures call == StartProgram(programName) && raised == error
    {
      call, raised := StartProgram(programName), error;
    }

    /** `turn_off` stops whatever program runs; the error the call raises
        escapes. */
    method TurnOff(error: Option<Exc>) returns (call: ApplianceCall, raised: Option<Exc>)
      ensures call == StopProgram && raised == error
    {
      call, raised := StopProgram, error;
    }

    /** `update`: on exactly when the active program is this switch's
        program; always a boolean. */
    method Update()
      modifies this
      ensures state == Some(ProgramActive(device.appliance.status, programName))
    {
      var entry := EntryAt(device.appliance.status, ACTIVE_PROGRAM);
      if PyEq(ValueIn(entry), Str(programName)) {
        state := Some(true);
      } else {
        state := Some(false);
      }
    }
  }

  /** The power condition of `update` as written: the parenthesis closes
      after `A == On or B`, so the `or` yields True when the setting reads
      On and the enum value B otherwise, and that result is compared with
      the On string. */
  function PowerOnAsWritten(status: Status): bool
  {
    var setting := ValueAt(status, POWER_STATE);
    var orValue := if PyEq(setting, Str(POWER_STATE_ON)) then Bool(true) else ValueAt(status, ENUM_POWER_STATE);
    PyEq(orValue, Str(POWER_STATE_ON))
  }

  /** As written, the switch reads on exactly when the setting does NOT
      read On and the enum value does. */
  lemma PowerOnAsWrittenMeans(status: Status)
    ensures PowerOnAsWritten(status)
            <==> ValueAt(status, POWER_STATE) != Str(POWER_STATE_ON)
                 && ValueAt(status, ENUM_POWER_STATE) == Str(POWER_STATE_ON)
  {
  }

  /** The intended condition: either value reads On. */
  function PowerOnIntended(status: Status): (on: bool)
    ensures on <==> ValueAt(status, POWER_STATE) == Str(POWER_STATE_ON)
                    || ValueAt(status, ENUM_POWER_STATE) == Str(POWER_STATE_ON)
  {
    PyEq(ValueAt(status, POWER_STATE), Str(POWER_STATE_ON))
    || PyEq(ValueAt(status, ENUM_POWER_STATE), Str(POWER_STATE_ON))
  }

  /** An appliance whose power setting reads On is shown as off by the code
      as written, and as on by the intended condition. */
  lemma OnSettingReadsOff()
    ensures var status := map[POWER_STATE := map["value" := Str(POWER_STATE_ON)]];
      !PowerOnAsWritten(status) && PowerOnIntended(status)
  {
    var status: Status := map[POWER_STATE := map["value" := Str(POWER_STATE_ON)]];
    assert ValueAt(status, POWER_STATE) == Str(POWER_STATE_ON);
  }

  class PowerSwitch {
    const device: Device
    const name: string
    var state: Option<bool>

    constructor (device: Device)
      ensures this.device == device && name == device.appliance.name && state == None
    {
      this.device := device;
      this.name := device.appliance.name;
      state := None;
    }

    /** `is_on` is `bool(_state)`. */
    function IsOn(): (on: bool)
      reads this
      ensures on <==> state == Some(true)
    {
      Truthy(state)
    }

    /** `turn_on` writes the setting's On value; the error the call raises
        escapes. */
    method TurnOn(error: Option<Exc>) returns (call: ApplianceCall, raised: Option<Exc>)
      ensures call == SetSetting(POWER_STATE, Str(POWER_STATE_ON)) && raised == error
    {
      call, raised := SetSetting(POWER_STATE, Str(POWER_STATE_ON)), error;
    }

    /** `turn_off` writes the device class's power-off value; the error the
        call raises escapes. */
    method TurnOff(error: Option<Exc>) returns (call: ApplianceCall, raised: Option<Exc>)
      ensures call == SetSetting(POWER_STATE, Str(device.PowerOff())) && raised == error
    {
      call, raised := SetSetting(POWER_STATE, Str(device.PowerOff())), error;
    }

    /** `update`: always a boolean, computed by the condition as written. */
    method Update()
      modifies this
      ensures state == Some(PowerOnAsWritten(device.appliance.status))
    {
      var status := device.appliance.status;
      var orValue := if PyEq(ValueAt(status, POWER_STATE), Str(POWER_STATE_ON)) then Bool(true)
                     else ValueAt(status, ENUM_POWER_STATE);
      if PyEq(orValue, Str(POWER_STATE_ON)) {
        state := Some(true);
      } else {
        state := Some(false);
      }
    }
  }

  // ---------------------------------------------------------------------------
  // setup_platform

  /** An entity the platform hands to the host. */
  type Entity = SwitchEntity<PowerSwitch, ProgramSwitch>

  /** A block made for a device record: the power switch and one program
      switch per switch descriptor, in order, all of that device. */
  predicate BlockFor(b: SwitchBlock<PowerSwitch, ProgramSwitch>, rec: DeviceRecord)
  {
    b.power.device == rec.device
    && |b.programs| == |rec.entities.switch|
    && forall j :: 0 <= j < |b.programs| ==>
         b.programs[j].device == rec.device && b.programs[j].programName == rec.entities.switch[j].programName
  }

  /** The body of the setup loop for one device record. */
  method SetupDevice(rec: DeviceRecord) returns (b: SwitchBlock<PowerSwitch, ProgramSwitch>)
    modifies rec.device
    ensures BlockFor(b, rec)
    ensures rec.device.entities == old(rec.device.entities) + b.programs
    ensures b.power.state == None && forall j :: 0 <= j < |b.programs| ==> b.programs[j].state == None
  {
    var power := new PowerSwitch(rec.device);
    var dicts := rec.entities.switch;
    var programs: seq<ProgramSwitch> := [];
    var j := 0;
    while j < |dicts|
      invariant 0 <= j <= |dicts| && |programs| == j
      invariant forall i :: 0 <= i < j ==>
        programs[i].device == rec.device && programs[i].programName == dicts[i].programName
        && programs[i].state == None
      invariant power.state == None
      invariant rec.device.entities == old(rec.device.entities)
    {
      var sw := new ProgramSwitch(rec.device, dicts[j].programName);
      programs := programs + [sw];
      j := j + 1;
    }
    rec.device.entities := rec.device.entities + programs;
    b := SwitchBlock(power, programs);
  }

  /** `setup_platform`: for every device record, a power switch followed by
      its program switches; only the program switches join the device's
      `entities`. */
  method SetupPlatform(records: seq<DeviceRecord>) returns (entities: seq<Entity>, ghost blocks: seq<SwitchBlock<PowerSwitch, ProgramSwitch>>)
    requires forall i, j :: 0 <= i < j < |records| ==> records[i].device != records[j].device
    modifies set i | 0 <= i < |records| :: records[i].device
    ensures |blocks| == |records| && entities == Flatten(blocks, true)
    ensures forall i :: 0 <= i < |records| ==> BlockFor(blocks[i], records[i])
    ensures forall i :: 0 <= i < |records| ==>
      records[i].device.entities == old(records[i].device.entities) + blocks[i].programs
  {
    entities := [];
    blocks := [];
    var i := 0;
    while i < |records|
      invariant 0 <= i <= |records| && |blocks| == i && entities == Flatten(blocks, true)
      invariant forall k :: 0 <= k < i ==> BlockFor(blocks[k], records[k])
      invariant forall k :: 0 <= k < i ==>
        records[k].device.entities == old(records[k].device.entities) + blocks[k].programs
      invariant forall k :: i <= k < |records| ==> records[k].device.entities == old(records[k].device.entities)
    {
      var b := SetupDevice(records[i]);
      assert (blocks + [b])[..i] == blocks;
      blocks := blocks + [b];
      entities := entities + BlockEntities(b, true);
      i := i + 1;
    }
  }
}
