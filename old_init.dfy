/**
 * The oldest variant of the integration (`homeconnect/__init__.py`): the
 * bounded retry helper, device discovery, the device object that injects
 * the active program into the appliance status, and the descriptor records
 * each device hands to the switch, sensor and binary-sensor platforms.
 */
module OldInit {
  import opened Common

  // ---------------------------------------------------------------------------
  // retry

  /** How `f` was called: `f(*args)` or `f()`. */
  datatype Invocation = WithArgs(args: seq<Value>) | NoArgs

  /** `if args:` — a missing or empty argument list calls `f()`. */
  function InvocationFor(args: Option<seq<Value>>): (c: Invocation)
    ensures c.WithArgs? <==> args.Some? && |args.value| > 0
    ensures c.WithArgs? ==> c.args == args.value
  {
    if args.Some? && |args.value| > 0 then WithArgs(args.value) else NoArgs
  }

  /** What `retry` hands back: a return value (None when every attempt
      failed) or an exception that escapes it. */
  datatype RetryResult<+T> = Returned(result: Option<T>) | Propagated(exc: Exc)

  /** The result of a retry together with the number of calls it made. */
  datatype RetryRun<+T> = RetryRun(result: RetryResult<T>, attempts: nat)

  /** An attempt that raised one of the exceptions `retry` swallows. */
  predicate Swallowed<T>(o: Outcome<T>, exceptions: set<Exc>)
  {
    o.Raised? && o.exc in exceptions
  }

  /** What the first attempt that is not swallowed makes of the retry. */
  function Settle<T>(o: Outcome<T>): RetryResult<T>
  {
    match o
    case Done(v) => Returned(Some(v))
    case Raised(e) => Propagated(e)
  }

  /** The retry loop from attempt `i` on; `attempt(j)` is what the `j`-th
      call of `f` does. */
  function RetrySpec<T>(attempt: nat -> Outcome<T>, exceptions: set<Exc>, i: nat, times: int): RetryRun<T>
    decreases times - i
  {
    if times <= i then RetryRun(Returned(None), i)
    else if Swallowed(attempt(i), exceptions) then RetrySpec(attempt, exceptions, i + 1, times)
    else RetryRun(Settle(attempt(i)), i + 1)
  }

  /** `retry(f, args, times, exceptions)`: calls `f` until a call returns or
      raises an exception outside `exceptions`, at most `times` times. The
      sleep between attempts is not modelled. */
  method Retry<T>(attempt: nat -> Outcome<T>, args: Option<seq<Value>>, times: int, exceptions: set<Exc>)
    returns (r: RetryResult<T>, calls: seq<Invocation>)
    ensures RetryRun(r, |calls|) == RetrySpec(attempt, exceptions, 0, times)
    ensures forall j :: 0 <= j < |calls| ==> calls[j] == InvocationFor(args)
  {
    calls := [];
    var i: nat := 0;
    while i < times
      invariant |calls| == i
      invariant forall j :: 0 <= j < |calls| ==> calls[j] == InvocationFor(args)
      invariant RetrySpec(attempt, exceptions, i, times) == RetrySpec(attempt, exceptions, 0, times)
      decreases times - i
    {
      calls := calls + [InvocationFor(args)];
      var o := attempt(i);
      if !Swallowed(o, exceptions) {
        r := Settle(o);
        return;
      }
      i := i + 1;
    }
    r := Returned(None);
  }

  /** When attempts `i..k-1` are swallowed and attempt `k` is not, the retry
      ends after `k + 1` calls with what attempt `k` did: its return value,
      or its exception propagated without a further attempt. */
  lemma {:induction false} RetrySettlesAt<T>(attempt: nat -> Outcome<T>, exceptions: set<Exc>, i: nat, times: int, k: nat)
    requires i <= k < times
    requires forall j :: i <= j < k ==> Swallowed(attempt(j), exceptions)
    requires !Swallowed(attempt(k), exceptions)
    ensures RetrySpec(attempt, exceptions, i, times) == RetryRun(Settle(attempt(k)), k + 1)
    decreases k - i
  {
    if i < k {
      assert Swallowed(attempt(i), exceptions);
      RetrySettlesAt(attempt, exceptions, i + 1, times, k);
    }
  }

  /** When every attempt is swallowed, the retry returns None after exactly
      `times` calls (none when `times` is not positive). */
  lemma {:induction false} RetryExhausts<T>(attempt: nat -> Outcome<T>, exceptions: set<Exc>, i: nat, times: int)
    requires forall j :: i <= j < times ==> Swallowed(attempt(j), exceptions)
    ensures RetrySpec(attempt, exceptions, i, times) == RetryRun(Returned(None), if times <= i then i else times)
    decreases times - i
  {
    if i < times {
      RetryExhausts(attempt, exceptions, i + 1, times);
    }
  }

  /** Whatever the attempts do, `retry` calls `f` at most `times` times. */
  lemma {:induction false} RetryAttemptsBounded<T>(attempt: nat -> Outcome<T>, exceptions: set<Exc>, i: nat, times: int)
    ensures RetrySpec(attempt, exceptions, i, times).attempts <= if times <= i then i else times
    ensures i < times ==> i < RetrySpec(attempt, exceptions, i, times).attempts
    decreases times - i
  {
    if i < times && Swallowed(attempt(i), exceptions) {
      RetryAttemptsBounded(attempt, exceptions, i + 1, times);
    }
  }

  /** A returned value is the value of an attempt, and every earlier attempt
      raised a swallowed exception. */
  lemma {:induction false} RetryReturnsAttempt<T>(attempt: nat -> Outcome<T>, exceptions: set<Exc>, i: nat, times: int)
    requires RetrySpec(attempt, exceptions, i, times).result.Returned?
    requires RetrySpec(attempt, exceptions, i, times).result.result.Some?
    ensures var run := RetrySpec(attempt, exceptions, i, times);
      i < run.attempts
      && attempt(run.attempts - 1) == Done(run.result.result.value)
      && forall j :: i <= j < run.attempts - 1 ==> Swallowed(attempt(j), exceptions)
    decreases times - i
  {
    if i < times && Swallowed(attempt(i), exceptions) {
      RetryReturnsAttempt(attempt, exceptions, i + 1, times);
    }
  }

  // ---------------------------------------------------------------------------
  // Device classification

  /** The appliance types this variant implements. */
  const SUPPORTED: set<string> := {"Dryer", "Washer", "Dishwasher", "FridgeFreezer", "Oven", "CoffeeMaker", "Hood"}

  /** The archetypes this variant has classes for. */
  type OldArchetype = a: Archetype | a != Hob && a != WasherDryer witness Dryer

  /** The `if app.type == ...` chain of `get_devices`. */
  function Classify(kind: string): (r: Option<Archetype>)
    ensures r.Some? <==> kind in SUPPORTED
    ensures r.Some? ==> TypeName(r.value) == kind && r.value != Hob && r.value != WasherDryer
  {
    if kind == "Dryer" then Some(Dryer)
    else if kind == "Washer" then Some(Washer)
    else if kind == "Dishwasher" then Some(Dishwasher)
    else if kind == "FridgeFreezer" then Some(FridgeFreezer)
    else if kind == "Oven" then Some(Oven)
    else if kind == "CoffeeMaker" then Some(CoffeeMaker)
    else if kind == "Hood" then Some(Hood)
    else None
  }

  /** Hob and WasherDryer appliances are skipped by this variant. */
  lemma HobAndWasherDryerSkipped()
    ensures Classify(TypeName(Hob)) == None && Classify(TypeName(WasherDryer)) == None
  {
  }

  /** The `_programs` list of each class, by name. */
  function Programs(a: OldArchetype): seq<string>
  {
    match a
    case Dryer => Prefixed("LaundryCare.Dryer.Program.", ["Cotton", "Synthetic", "Mix"])
    case Dishwasher => Prefixed("Dishcare.Dishwasher.Program.", ["Auto1", "Auto2", "Auto3", "Eco50", "Quick45"])
    case Oven => Prefixed("Cooking.Oven.Program.HeatingMode.", ["PreHeating", "HotAir", "TopBottomHeating", "PizzaSetting"])
    case Washer => Prefixed("LaundryCare.Washer.Program.", ["Cotton", "EasyCare", "Mix", "DelicatesSilk", "Wool"])
    case CoffeeMaker => Prefixed("ConsumerProducts.CoffeeMaker.Program.Beverage.",
                                 ["Espresso", "EspressoMacchiato", "Coffee", "Cappuccino", "LatteMacchiato", "CaffeLatte"])
    case Hood => Prefixed("Cooking.Common.Program.Hood.", ["Automatic", "Venting", "DelayedShutOff"])
    case FridgeFreezer => Prefixed("LaundryCare.Dryer.Program.", ["Cotton", "Synthetic", "Mix"])
  }

  // ---------------------------------------------------------------------------
  // Entity descriptors

  /** The program sensors, as (name, unit) in dict order; each name is
      given by its words. */
  const PROGRAM_SENSORS: seq<(seq<string>, string)> := [(["Remaining", "Program", "Time"], "s"), (["Program", "Progress"], "%")]

  /** `get_program_sensors`: two sensors named after the appliance, one in
      seconds and one in percent. */
  function ProgramSensors(applianceName: string): (r: seq<SensorInfo>)
    ensures |r| == 2
    ensures r[0].unit == "s" && r[1].unit == "%"
  {
    SensorsFrom(PROGRAM_SENSORS, applianceName)
  }

  /** Each sensor key is the option prefix followed by the sensor name with
      its spaces removed. */
  lemma ProgramSensorKeys(applianceName: string)
    ensures forall i :: 0 <= i < |PROGRAM_SENSORS| ==>
      ProgramSensors(applianceName)[i].key == OPTION_PREFIX + RemoveSpaces(JoinWords(PROGRAM_SENSORS[i].0))
  {
    SensorKeys(PROGRAM_SENSORS, applianceName);
  }

  /** The remaining-time sensor, spelled out. */
  lemma RemainingTimeSensor(applianceName: string)
    ensures ProgramSensors(applianceName)[0].name == applianceName + " " + "Remaining Program Time"
    ensures ProgramSensors(applianceName)[0].key == OPTION_PREFIX + "RemainingProgramTime"
  {
    RemainingProgramTimeWords();
  }

  /** The progress sensor, spelled out. */
  lemma ProgressSensor(applianceName: string)
    ensures ProgramSensors(applianceName)[1].name == applianceName + " " + "Program Progress"
    ensures ProgramSensors(applianceName)[1].key == OPTION_PREFIX + "ProgramProgress"
  {
    ProgramProgressWords();
  }

  /** Which archetypes have a door sensor. */
  predicate HasDoor(a: OldArchetype)
  {
    a != CoffeeMaker && a != Hood
  }

  /** `get_entities` of each class. */
  function GetEntities(applianceName: string, a: OldArchetype): (r: Entities)
    ensures r.binarySensor == if HasDoor(a) then [DoorEntity(applianceName)] else []
    ensures r.switch == if a == FridgeFreezer then [] else ProgramSwitches(Programs(a))
    ensures r.sensor == if a == FridgeFreezer then [] else ProgramSensors(applianceName)
  {
    match a
    case FridgeFreezer => Entities([DoorEntity(applianceName)], [], [])
    case CoffeeMaker => Entities([], ProgramSwitches(Programs(a)), ProgramSensors(applianceName))
    case Hood => Entities([], ProgramSwitches(Programs(a)), ProgramSensors(applianceName))
    case _ => Entities([DoorEntity(applianceName)], ProgramSwitches(Programs(a)), ProgramSensors(applianceName))
  }

  /** A fridge-freezer declares programs but exposes only its door sensor. */
  lemma FridgeFreezerOnlyDoor(applianceName: string)
    ensures |Programs(FridgeFreezer)| > 0
    ensures GetEntities(applianceName, FridgeFreezer) == Entities([DoorEntity(applianceName)], [], [])
  {
  }

  /** Every archetype but the fridge-freezer gets one switch per program and
      both program sensors. */
  lemma ProgramSwitchesOnePerProgram(applianceName: string, a: OldArchetype)
    requires a != FridgeFreezer
    ensures |GetEntities(applianceName, a).switch| == |Programs(a)| > 0
    ensures |GetEntities(applianceName, a).sensor| == 2
  {
  }

  // ---------------------------------------------------------------------------
  // Devices

  /** `HomeConnectDevice`: an appliance, its class, and the entities that
      `event_callback` refreshes. */
  class Device {
    const appliance: Appliance
    const archetype: OldArchetype
    var entities: seq<object>
    /** Whether `listen_events` has registered `event_callback`. */
    var listening: bool

    /** `__init__`: copies the fetched active program into the status when
        it has a key, starts with no entities and registers `event_callback`
        with `listen_events`. */
    constructor (appliance: Appliance, archetype: OldArchetype)
      modifies appliance
      ensures this.appliance == appliance && this.archetype == archetype
      ensures appliance.status == InjectActiveProgram(old(appliance.status), appliance.activeProgram)
      ensures entities == [] && listening
    {
      this.appliance := appliance;
      this.archetype := archetype;
      entities := [];
      listening := true;
      new;
      if HasActiveKey(appliance.activeProgram) {
        appliance.status := appliance.status[ACTIVE_PROGRAM := map["value" := appliance.activeProgram.value["key"]]];
      }
    }

    /** `_power_off_state` of the device's class: Standby for ovens and
        coffee makers, Off otherwise. */
    function PowerOff(): (s: string)
      ensures s == POWER_STANDBY <==> archetype == Oven || archetype == CoffeeMaker
      ensures s == POWER_OFF <==> archetype != Oven && archetype != CoffeeMaker
    {
      PowerOffState(archetype)
    }

    /** `event_callback`: asks every entity of the device, in order and once
        each, to refresh; returns the entities asked. */
    method EventCallback() returns (notified: seq<object>)
      ensures notified == entities
    {
      notified := [];
      var i := 0;
      while i < |entities|
        invariant 0 <= i <= |entities| && notified == entities[..i]
      {
        notified := notified + [entities[i]];
        i := i + 1;
      }
    }
  }

  /** One element of the list `get_devices` returns. */
  datatype DeviceRecord = DeviceRecord(device: Device, entities: Entities)

  /** The records for a list of devices: each device with its `get_entities()`. */
  function Describe(devices: seq<Device>): (r: seq<DeviceRecord>)
    ensures |r| == |devices|
    ensures forall i :: 0 <= i < |r| ==>
      r[i].device == devices[i] && r[i].entities == GetEntities(devices[i].appliance.name, devices[i].archetype)
  {
    seq(|devices|, i requires 0 <= i < |devices| =>
      DeviceRecord(devices[i], GetEntities(devices[i].appliance.name, devices[i].archetype)))
  }

  /** The appliances and archetypes behind a list of devices. */
  function Kept(devices: seq<Device>): (r: seq<(Appliance, Archetype)>)
  {
    if devices == [] then []
    else Kept(devices[..|devices| - 1]) + [(devices[|devices| - 1].appliance, devices[|devices| - 1].archetype)]
  }

  /** A device for the next appliance extends what the scan has kept. */
  lemma KeptAdd(devices: seq<Device>, d: Device, apps: seq<Appliance>, i: nat)
    requires i < |apps| && Kept(devices) == Recognised(apps[..i], Classify)
    requires d.appliance == apps[i] && Classify(apps[i].kind) == Some(d.archetype)
    ensures Kept(devices + [d]) == Recognised(apps[..i + 1], Classify)
  {
    RecognisedStep(apps, i, Classify);
    assert (devices + [d])[..|devices|] == devices;
  }

  /** An appliance of an unsupported type adds nothing to what is kept. */
  lemma KeptSkip(devices: seq<Device>, apps: seq<Appliance>, i: nat)
    requires i < |apps| && Kept(devices) == Recognised(apps[..i], Classify)
    requires Classify(apps[i].kind).None?
    ensures Kept(devices) == Recognised(apps[..i + 1], Classify)
  {
    RecognisedStep(apps, i, Classify);
  }

  /** The device-building loop of `get_devices` over the fetched appliances:
      one device per appliance of a supported type, in order, no device
      twice; each constructed device has injected the active program, and
      appliances of other types are left alone. */
  method BuildDevices(apps: seq<Appliance>) returns (devices: seq<Device>)
    modifies set a | a in apps
    ensures Kept(devices) == Recognised(apps, Classify)
    ensures forall i, j :: 0 <= i < j < |devices| ==> devices[i] != devices[j]
    ensures forall a :: a in apps ==>
      a.status == if Classify(a.kind).Some? then InjectActiveProgram(old(a.status), a.activeProgram) else old(a.status)
  {
    devices := [];
    ghost var done: set<Appliance> := {};
    var i := 0;
    while i < |apps|
      invariant 0 <= i <= |apps|
      invariant Kept(devices) == Recognised(apps[..i], Classify)
      invariant forall j, k :: 0 <= j < k < |devices| ==> devices[j] != devices[k]
      invariant forall a :: a in apps ==>
        a.status == if a in done then InjectActiveProgram(old(a.status), a.activeProgram) else old(a.status)
      invariant forall a :: a in done <==> a in apps[..i] && Classify(a.kind).Some?
    {
      var app := apps[i];
      assert apps[..i + 1] == apps[..i] + [app];
      var kind := Classify(app.kind);
      if kind.Some? {
        InjectIdempotent(old(app.status), app.activeProgram);
        var device := new Device(app, kind.value);
        KeptAdd(devices, device, apps, i);
        devices := devices + [device];
        done := done + {app};
      } else {
        KeptSkip(devices, apps, i);
      }
      i := i + 1;
    }
    assert apps[..|apps|] == apps;
  }

  /** The devices behind a list of device records. */
  function DevicesOf(records: seq<DeviceRecord>): (r: seq<Device>)
    ensures |r| == |records| && forall i :: 0 <= i < |r| ==> r[i] == records[i].device
  {
    seq(|records|, i requires 0 <= i < |records| => records[i].device)
  }

  /** The `i`-th call of a vendor function scripted by `outcomes`; calls
      past the end of the script raise ValueError. */
  function Scripted<T>(outcomes: seq<Outcome<T>>): nat -> Outcome<T>
  {
    (i: nat) => if i < |outcomes| then outcomes[i] else Raised(ValueError)
  }

  /** The appliances a script of `get_appliances` outcomes hands out. */
  function Offered(outcomes: seq<Outcome<seq<Appliance>>>): set<Appliance>
  {
    set i, a | 0 <= i < |outcomes| && outcomes[i].Done? && a in outcomes[i].value :: a
  }

  /** `get_devices`: fetches the appliances with up to 20 attempts that
      swallow ValueError, then builds the devices and their descriptors.
      When every attempt fails the fetch yields None and iterating over it
      raises TypeError. */
  method GetDevices(outcomes: seq<Outcome<seq<Appliance>>>) returns (r: Outcome<seq<DeviceRecord>>)
    modifies Offered(outcomes)
    ensures var run := RetrySpec(Scripted(outcomes), {ValueError}, 0, 20);
      match run.result
      case Propagated(e) => r == Raised(e)
      case Returned(None) => r == Raised(TypeError)
      case Returned(Some(apps)) =>
        r.Done?
        && r.value == Describe(DevicesOf(r.value))
        && Kept(DevicesOf(r.value)) == Recognised(apps, Classify)
        && (forall i, j :: 0 <= i < j < |r.value| ==> r.value[i].device != r.value[j].device)
        && (forall a :: a in Offered(outcomes) ==>
              a.status == if a in apps && Classify(a.kind).Some? then InjectActiveProgram(old(a.status), a.activeProgram)
                          else old(a.status))
  {
    var attempt := Scripted(outcomes);
    var result, calls := Retry(attempt, None, 20, {ValueError});
    match result
    case Propagated(e) => r := Raised(e);
    case Returned(None) => r := Raised(TypeError);
    case Returned(Some(apps)) =>
      RetryReturnsAttempt(attempt, {ValueError}, 0, 20);
      RetryAttemptsBounded(attempt, {ValueError}, 0, 20);
      var k: nat := |calls| - 1;
      assert k < |outcomes| && outcomes[k] == Done(apps);
      assert forall a :: a in apps ==> a in Offered(outcomes);
      var devices := BuildDevices(apps);
      r := Done(Describe(devices));
      assert DevicesOf(r.value) == devices;
  }
}
