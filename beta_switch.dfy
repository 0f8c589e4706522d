/**
 * The beta variant's switch platform (`home_connect_beta/switch.py`): one
 * switch per program and one power switch per device.
 */
module BetaSwitch {
  import opened Common
  import opened BetaApi
  import opened BetaEntity

  /** The description of a program switch: "Program" and the program's last
      dotted segment, joined by a space. */
  function ProgramDesc(programName: string): string
  {
    "Program" + " " + LastSegment(programName)
  }

  /** Two program switches of one device share a unique id exactly when
      their programs end in the same segment. */
  lemma ProgramIdsCollide(device: Device, p: string, q: string)
    ensures UniqueId(device, ProgramDesc(p)) == UniqueId(device, ProgramDesc(q))
            <==> LastSegment(p) == LastSegment(q)
  {
    UniqueIdsDistinct(device, ProgramDesc(p), ProgramDesc(q));
    if ProgramDesc(p) == ProgramDesc(q) {
      JoinedSuffixDetermined("Program", " ", LastSegment(p), LastSegment(q));
    }
  }

  /** The washer-dryer's first washer program and its first dryer program
      are both "Cotton" programs. */
  lemma WasherDryerCottonPrograms()
    ensures Programs(WasherDryer)[0] == "LaundryCare.Washer.Program" + "." + "Cotton"
    ensures Programs(WasherDryer)[21] == "LaundryCare.Dryer.Program" + "." + "Cotton"
  {
  }

  /** The washer-dryer lists a washer and a dryer program that both end in
      "Cotton", so their two switches get the same unique id. */
  lemma WasherDryerCottonIdsCollide(device: Device)
    ensures Programs(WasherDryer)[0] != Programs(WasherDryer)[21]
    ensures UniqueId(device, ProgramDesc(Programs(WasherDryer)[0]))
            == UniqueId(device, ProgramDesc(Programs(WasherDryer)[21]))
  {
    WasherDryerCottonPrograms();
    var washer, dryer := Programs(WasherDryer)[0], Programs(WasherDryer)[21];
    assert washer[12] != dryer[12];
    LastSegmentAfterDot("LaundryCare.Washer.Program", "Cotton");
    LastSegmentAfterDot("LaundryCare.Dryer.Program", "Cotton");
    ProgramIdsCollide(device, washer, dryer);
  }

  class ProgramSwitch {
    const device: Device
    const programName: string
    const desc: string
    var state: Option<bool>

    /** `__init__(device, program_name)` */
    constructor (device: Device, programName: string)
      ensures this.device == device && this.programName == programName
      ensures desc == ProgramDesc(programName) && state == None
    {
      this.device := device;
      this.programName := programName;
      this.desc := ProgramDesc(programName);
      state := None;
    }

    /** `is_on` is `bool(_state)`. */
    function IsOn(): (on: bool)
      reads this
      ensures on <==> state == Some(true)
    {
      Truthy(state)
    }

    /** `available` is always True. */
    function Available(): (up: bool)
      ensures up
    {
      true
    }

    /** `async_turn_on` starts the switch's program; a HomeConnectError is
        logged and swallowed, any other error escapes before the entity
        update is scheduled. */
    method TurnOn(error: Option<Exc>) returns (call: ApplianceCall, raised: Option<Exc>, refresh: bool)
      ensures call == StartProgram(programName)
      ensures raised == None <==> error == None || error == Some(HomeConnectError)
      ensures raised != None ==> raised == error
      ensures refresh <==> raised == None
    {
      call := StartProgram(programName);
      raised := Escaping(error, {HomeConnectError});
      refresh := raised == None;
    }

    /** `async_turn_off` stops whatever program runs, with the same error
        handling. */
    method TurnOff(error: Option<Exc>) returns (call: ApplianceCall, raised: Option<Exc>, refresh: bool)
      ensures call == StopProgram
      ensures raised == None <==> error == None || error == Some(HomeConnectError)
      ensures raised != None ==> raised == error
      ensures refresh <==> raised == None
    {
      call := StopProgram;
      raised := Escaping(error, {HomeConnectError});
      refresh := raised == None;
    }

    /** `async_update`: on exactly when the active program is this switch's. */
    method Update()
      modifies this
      ensures state == Some(ProgramActive(device.appliance.status, programName))
    {
      var entry := EntryAt(device.appliance.status, ACTIVE_PROGRAM);
      if PyEq(ValueIn(entry), Str(programName)) {
        state := Some(true);
      } else {
        state := Some(false);
      }
    }
  }

  class PowerSwitch {
    const device: Device
    const desc: string
    var state: Option<bool>

    /** `__init__(device)`: described as "Power". */
    constructor (device: Device)
      ensures this.device == device && desc == "Power" && state == None
    {
      this.device := device;
      desc := "Power";
      state := None;
    }

    /** `is_on` is `bool(_state)`. */
    function IsOn(): (on: bool)
      reads this
      ensures on <==> state == Some(true)
    {
      Truthy(state)
    }

    /** `async_turn_on` sets the power state to On. On a HomeConnectError
        the switch shows off; any other error escapes and leaves the state
        alone; there is no status request afterwards. */
    method TurnOn(error: Option<Exc>) returns (call: ApplianceCall, raised: Option<Exc>, refresh: bool)
      modifies this
      ensures call == SetSetting(POWER_STATE, Str(POWER_ON))
      ensures raised == None <==> error == None || error == Some(HomeConnectError)
      ensures raised != None ==> raised == error
      ensures error == Some(HomeConnectError) ==> state == Some(false)
      ensures error != Some(HomeConnectError) ==> state == old(state)
      ensures refresh <==> raised == None
    {
      call := SetSetting(POWER_STATE, Str(POWER_ON));
      raised := Escaping(error, {HomeConnectError});
      state := StateAfterCall(state, error, false);
      refresh := raised == None;
    }

    /** `async_turn_off` sets the power state to the device's own off
        state (Standby for ovens and coffee makers, Off otherwise). On a
        HomeConnectError the switch shows on. */
    method TurnOff(error: Option<Exc>) returns (call: ApplianceCall, raised: Option<Exc>, refresh: bool)
      modifies this
      ensures call == SetSetting(POWER_STATE, Str(device.PowerOff()))
      ensures raised == None <==> error == None || error == Some(HomeConnectError)
      ensures raised != None ==> raised == error
      ensures error == Some(HomeConnectError) ==> state == Some(true)
      ensures error != Some(HomeConnectError) ==> state == old(state)
      ensures refresh <==> raised == None
    {
      call := SetSetting(POWER_STATE, Str(device.PowerOff()));
      raised := Escaping(error, {HomeConnectError});
      state := StateAfterCall(state, error, true);
      refresh := raised == None;
    }

    /** `async_update`: the power-state chain with the device's own off
        state. */
    method Update()
      modifies this
      ensures state == PowerChain(device.appliance.status, device.PowerOff())
    {
      var status := device.appliance.status;
      var ps := ValueAt(status, POWER_STATE);
      var os := ValueAt(status, OPERATION_STATE);
      PyInStrings(os, RUNNING_STATES);
      if PyEq(ps, Str(POWER_ON)) {
        state := Some(true);
      } else if PyEq(ps, Str(device.PowerOff())) {
        state := Some(false);
      } else if PyIn(os, RUNNING_STATES) {
        state := Some(true);
      } else if PyEq(os, Str(INACTIVE)) {
        state := Some(false);
      } else {
        state := None;
      }
    }
  }

  /** The status after the appliance has taken a power setting. */
  function Applied(status: Status, setting: string): (r: Status)
    ensures ValueAt(r, POWER_STATE) == Str(setting)
  {
    status[POWER_STATE := map["value" := Str(setting)]]
  }

  /** Once the appliance has taken the setting a power switch sends, the
      next update reads the switch as the user set it: on after turning on,
      off after turning off, whatever the operation state says. */
  lemma PowerSettingRoundTrip(device: Device, status: Status)
    ensures PowerChain(Applied(status, POWER_ON), device.PowerOff()) == Some(true)
    ensures PowerChain(Applied(status, device.PowerOff()), device.PowerOff()) == Some(false)
  {
    assert device.PowerOff() != POWER_ON;
  }

  type Entity = SwitchEntity<PowerSwitch, ProgramSwitch>

  /** A block made for a device record: its power switch and one program
      switch per switch descriptor, in order, all of that device. */
  predicate BlockFor(b: SwitchBlock<PowerSwitch, ProgramSwitch>, rec: DeviceRecord)
  {
    b.power.device == rec.device
    && |b.programs| == |rec.entities.switch|
    && forall j :: 0 <= j < |b.programs| ==>
         b.programs[j].device == rec.device && b.programs[j].programName == rec.entities.switch[j].programName
  }

  /** The body of the setup loop for one device record; every switch
      starts with an unknown state. */
  method SetupDevice(rec: DeviceRecord) returns (b: SwitchBlock<PowerSwitch, ProgramSwitch>)
    ensures BlockFor(b, rec)
    ensures b.power.state == None && forall j :: 0 <= j < |b.programs| ==> b.programs[j].state == None
  {
    var dicts := rec.entities.switch;
    var programs: seq<ProgramSwitch> := [];
    var j := 0;
    while j < |dicts|
      invariant 0 <= j <= |dicts| && |programs| == j
      invariant forall i :: 0 <= i < j ==>
        programs[i].device == rec.device && programs[i].programName == dicts[i].programName
        && programs[i].state == None
    {
      var sw := new ProgramSwitch(rec.device, dicts[j].programName);
      programs := programs + [sw];
      j := j + 1;
    }
    var power := new PowerSwitch(rec.device);
    b := SwitchBlock(power, programs);
  }

  /** `async_setup_entry`: for every device record its program switches
      followed by its power switch, so every device (the fridge-freezer
      included) gets exactly one power switch. The devices' `entities`
      lists are left as they are. */
  method SetupEntry(records: seq<DeviceRecord>) returns (entities: seq<Entity>, ghost blocks: seq<SwitchBlock<PowerSwitch, ProgramSwitch>>)
    ensures |blocks| == |records| && entities == Flatten(blocks, false)
    ensures forall i :: 0 <= i < |records| ==> BlockFor(blocks[i], records[i])
    ensures PowerCount(entities) == |records|
  {
    entities := [];
    blocks := [];
    var i := 0;
    while i < |records|
      invariant 0 <= i <= |records| && |blocks| == i && entities == Flatten(blocks, false)
      invariant forall k :: 0 <= k < i ==> BlockFor(blocks[k], records[k])
    {
      var b := SetupDevice(records[i]);
      assert (blocks + [b])[..i] == blocks;
      blocks := blocks + [b];
      entities := entities + BlockEntities(b, false);
      i := i + 1;
    }
    OnePowerSwitchPerDevice(blocks, false);
  }
}
