/**
 * The middle variant of the integration (`homeconnect/api.py`): device
 * discovery, the device object with its active-program injection and event
 * fan-out, the entity identifiers, and the descriptor records each device
 * hands to the switch, sensor and binary-sensor platforms.
 */
module MiddleApi {
  import opened Common

  // ---------------------------------------------------------------------------
  // Device classification

  /** The appliance types this variant implements. */
  const SUPPORTED: set<string> := {"Dryer", "Washer", "Dishwasher", "FridgeFreezer", "Oven", "CoffeeMaker", "Hood", "Hob"}

  /** The archetypes this variant has classes for. */
  type MiddleArchetype = a: Archetype | a != WasherDryer witness Dryer

  /** The `if app.type == ...` chain of `get_devices`. */
  function Classify(kind: string): (r: Option<Archetype>)
    ensures r.Some? <==> kind in SUPPORTED
    ensures r.Some? ==> TypeName(r.value) == kind && r.value != WasherDryer
  {
    if kind == "Dryer" then Some(Dryer)
    else if kind == "Washer" then Some(Washer)
    else if kind == "Dishwasher" then Some(Dishwasher)
    else if kind == "FridgeFreezer" then Some(FridgeFreezer)
    else if kind == "Oven" then Some(Oven)
    else if kind == "CoffeeMaker" then Some(CoffeeMaker)
    else if kind == "Hood" then Some(Hood)
    else if kind == "Hob" then Some(Hob)
    else None
  }

  /** Washer-dryers are skipped by this variant; hobs are recognised. */
  lemma WasherDryerSkipped()
    ensures Classify(TypeName(WasherDryer)) == None
    ensures Classify(TypeName(Hob)) == Some(Hob)
  {
  }

  // ---------------------------------------------------------------------------
  // Programs and descriptors

  /** The `_programs` list of each class, by name. A fridge-freezer has no
      programs. */
  function Programs(a: MiddleArchetype): seq<string>
  {
    match a
    case Dryer => Prefixed("LaundryCare.Dryer.Program.",
      ["Cotton", "Synthetic", "Mix", "Blankets", "BusinessShirts", "DownFeathers", "Hygiene", "Jeans",
       "Outdoor", "SyntheticRefresh", "Towels", "Delicates", "Super40", "Shirts15", "Pillow", "AntiShrink"])
    case Dishwasher => Prefixed("Dishcare.Dishwasher.Program.",
      ["Auto1", "Auto2", "Auto3", "Eco50", "Quick45", "Intensiv70", "Normal65", "Glas40", "GlassCare",
       "NightWash", "Quick65", "Normal45", "Intensiv45", "AutoHalfLoad", "IntensivPower", "MagicDaily",
       "Super60", "Kurz60", "ExpressSparkle65", "MachineCare", "SteamFresh", "MaximumCleaning"])
    case Oven => Prefixed("Cooking.Oven.Program.",
      ["HeatingMode.PreHeating", "HeatingMode.HotAir", "HeatingMode.TopBottomHeating",
       "HeatingMode.PizzaSetting", "Microwave.600Watt"])
    case Washer => Prefixed("LaundryCare.Washer.Program.",
      ["Cotton", "Cotton.CottonEco", "EasyCare", "Mix", "DelicatesSilk", "Wool", "Sensitive", "Auto30",
       "Auto40", "Auto60", "Chiffon", "Curtains", "DarkWash", "Dessous", "Monsoon", "Outdoor", "PlushToy",
       "ShirtsBlouses", "SportFitness", "Towels", "WaterProof"])
    case CoffeeMaker => Prefixed("ConsumerProducts.CoffeeMaker.Program.",
      ["Beverage.Espresso", "Beverage.EspressoMacchiato", "Beverage.Coffee", "Beverage.Cappuccino",
       "Beverage.LatteMacchiato", "Beverage.CaffeLatte", "CoffeeWorld.Americano", "Beverage.EspressoDoppio",
       "CoffeeWorld.FlatWhite", "CoffeeWorld.Galao", "Beverage.MilkFroth", "Beverage.WarmMilk",
       "Beverage.Ristretto", "CoffeeWorld.Cortado"])
    case Hood => Prefixed("Cooking.Common.Program.Hood.", ["Automatic", "Venting", "DelayedShutOff"])
    case Hob => ["Cooking.Hob.Program.PowerLevelMode"]
    case FridgeFreezer => []
  }

  /** The four program sensors, as (name, unit) in dict order; each name is
      given by its words. */
  const PROGRAM_SENSORS: seq<(seq<string>, string)> := [
    (["Remaining", "Program", "Time"], "s"),
    (["Elapsed", "Program", "Time"], "s"),
    (["Duration"], "s"),
    (["Program", "Progress"], "%")
  ]

  /** `get_program_sensors`: four sensors named after the appliance, three
      in seconds and one in percent. */
  function ProgramSensors(applianceName: string): (r: seq<SensorInfo>)
    ensures |r| == 4
    ensures r[0].unit == "s" && r[1].unit == "s" && r[2].unit == "s" && r[3].unit == "%"
  {
    SensorsFrom(PROGRAM_SENSORS, applianceName)
  }

  /** Each sensor is named after the appliance, a space and the sensor name,
      and its key is the option prefix followed by the sensor name with its
      spaces removed. */
  lemma ProgramSensorKeys(applianceName: string)
    ensures forall i :: 0 <= i < |PROGRAM_SENSORS| ==>
      ProgramSensors(applianceName)[i].name == applianceName + " " + JoinWords(PROGRAM_SENSORS[i].0)
      && ProgramSensors(applianceName)[i].key == OPTION_PREFIX + RemoveSpaces(JoinWords(PROGRAM_SENSORS[i].0))
  {
    SensorKeys(PROGRAM_SENSORS, applianceName);
  }

  /** The remaining-time sensor, spelled out. */
  lemma RemainingTimeSensor(applianceName: string)
    ensures ProgramSensors(applianceName)[0].name == applianceName + " " + "Remaining Program Time"
    ensures ProgramSensors(applianceName)[0].key == OPTION_PREFIX + "RemainingProgramTime"
  {
    RemainingProgramTimeWords();
  }

  /** The elapsed-time sensor, spelled out. */
  lemma ElapsedTimeSensor(applianceName: string)
    ensures ProgramSensors(applianceName)[1].name == applianceName + " " + "Elapsed Program Time"
    ensures ProgramSensors(applianceName)[1].key == OPTION_PREFIX + "ElapsedProgramTime"
  {
    ElapsedProgramTimeWords();
  }

  /** The duration sensor, spelled out. */
  lemma DurationSensor(applianceName: string)
    ensures ProgramSensors(applianceName)[2].name == applianceName + " " + "Duration"
    ensures ProgramSensors(applianceName)[2].key == OPTION_PREFIX + "Duration"
  {
  }

  /** The progress sensor, spelled out. */
  lemma ProgressSensor(applianceName: string)
    ensures ProgramSensors(applianceName)[3].name == applianceName + " " + "Program Progress"
    ensures ProgramSensors(applianceName)[3].key == OPTION_PREFIX + "ProgramProgress"
  {
    ProgramProgressWords();
  }

  /** Which classes derive from the door-sensor class. */
  predicate HasDoor(a: MiddleArchetype)
  {
    a == Dryer || a == Dishwasher || a == Oven || a == Washer || a == FridgeFreezer
  }

  /** `get_entities` of each class: the door sensor for the classes that
      derive from the door class, and, for every class but the
      fridge-freezer, one switch per program and the program sensors. */
  function GetEntities(applianceName: string, a: MiddleArchetype): Entities
  {
    Entities(
      if HasDoor(a) then [DoorEntity(applianceName)] else [],
      if a == FridgeFreezer then [] else ProgramSwitches(Programs(a)),
      if a == FridgeFreezer then [] else ProgramSensors(applianceName))
  }

  /** The dryer, dishwasher, oven, washer and fridge-freezer get the door
      sensor and the coffee maker, hood and hob none; every class but the
      fridge-freezer gets one switch per program, in order (and has at least
      one program), and all four program sensors; the fridge-freezer gets
      only its door sensor. */
  lemma EntitiesPerClass(applianceName: string, a: MiddleArchetype)
    ensures GetEntities(applianceName, a).binarySensor ==
      if a in {Dryer, Dishwasher, Oven, Washer, FridgeFreezer} then [DoorEntity(applianceName)] else []
    ensures a != FridgeFreezer ==>
      GetEntities(applianceName, a).switch == ProgramSwitches(Programs(a))
      && GetEntities(applianceName, a).sensor == ProgramSensors(applianceName)
    ensures a != FridgeFreezer ==>
      |GetEntities(applianceName, a).switch| == |Programs(a)| > 0
      && |GetEntities(applianceName, a).sensor| == 4
    ensures a == FridgeFreezer ==>
      GetEntities(applianceName, a) == Entities([DoorInfo(applianceName + " Door", "door")], [], [])
  {
  }

  /** `unique_id` of an entity: the appliance's haId, a dash, the entity name. */
  function UniqueId(haId: string, name: string): string
  {
    haId + "-" + name
  }

  /** On one appliance, entities with different names get different ids. */
  lemma UniqueIdsDistinct(haId: string, name1: string, name2: string)
    ensures UniqueId(haId, name1) == UniqueId(haId, name2) <==> name1 == name2
  {
    if UniqueId(haId, name1) == UniqueId(haId, name2) {
      JoinedSuffixDetermined(haId, "-", name1, name2);
    }
  }

  // ---------------------------------------------------------------------------
  // Devices

  /** `HomeConnectDevice`: an appliance, its class, and the entities that
      `event_callback` refreshes. */
  class Device {
    const appliance: Appliance
    const archetype: MiddleArchetype
    var entities: seq<object>

    /** `__init__` keeps the appliance and starts with no entities. */
    constructor (appliance: Appliance, archetype: MiddleArchetype)
      ensures this.appliance == appliance && this.archetype == archetype && entities == []
    {
      this.appliance := appliance;
      this.archetype := archetype;
      entities := [];
    }

    /** `power_off_state` of the device's class: Standby for ovens and
        coffee makers, Off otherwise. */
    function PowerOff(): (s: string)
      ensures s == POWER_STANDBY <==> archetype == Oven || archetype == CoffeeMaker
      ensures s == POWER_OFF <==> archetype != Oven && archetype != CoffeeMaker
    {
      PowerOffState(archetype)
    }

    /** `initialize`, given the error each of its three fetches raises:
        HomeConnectError and ValueError are caught, any other error escapes
        before the status is touched and before `listen_events`. When nothing
        escapes, the fetched active program is copied into the status if the
        fetch gave a dict with a key, and `listen_events` is called. */
    method Initialize(statusError: Option<Exc>, settingsError: Option<Exc>, programsError: Option<Exc>)
      returns (raised: Option<Exc>, listening: bool)
      modifies appliance
      ensures raised == InitializeEscaping(statusError, settingsError, programsError)
      ensures listening <==> raised == None
      ensures raised == None ==>
        appliance.status == InjectActiveProgram(old(appliance.status), FetchedProgram(appliance.activeProgram, programsError))
      ensures raised != None ==> appliance.status == old(appliance.status)
    {
      raised := Escaping(statusError, FETCH_CAUGHT);
      if raised == None {
        raised := Escaping(settingsError, FETCH_CAUGHT);
      }
      if raised == None {
        raised := Escaping(programsError, FETCH_CAUGHT);
      }
      listening := false;
      if raised == None {
        var programActive := if programsError.Some? then None else appliance.activeProgram;
        if programActive.Some? && "key" in programActive.value {
          appliance.status := appliance.status[ACTIVE_PROGRAM := map["value" := programActive.value["key"]]];
        }
        listening := true;
      }
    }

    /** `event_callback`: asks every entity of the device, in order and once
        each, to refresh; returns the entities asked. */
    method EventCallback() returns (notified: seq<object>)
      ensures notified == entities
    {
      notified := [];
      var i := 0;
      while i < |entities|
        invariant 0 <= i <= |entities| && notified == entities[..i]
      {
        notified := notified + [entities[i]];
        i := i + 1;
      }
    }
  }

  /** One element of the list `get_devices` returns. */
  datatype DeviceRecord = DeviceRecord(device: Device, entities: Entities)

  /** The records for a list of devices: each device with its `get_entities()`. */
  function Describe(devices: seq<Device>): (r: seq<DeviceRecord>)
    ensures |r| == |devices|
    ensures forall i :: 0 <= i < |r| ==>
      r[i].device == devices[i] && r[i].entities == GetEntities(devices[i].appliance.name, devices[i].archetype)
  {
    seq(|devices|, i requires 0 <= i < |devices| =>
      DeviceRecord(devices[i], GetEntities(devices[i].appliance.name, devices[i].archetype)))
  }

  /** The devices behind a list of device records. */
  function DevicesOf(records: seq<DeviceRecord>): (r: seq<Device>)
    ensures |r| == |records| && forall i :: 0 <= i < |r| ==> r[i] == records[i].device
  {
    seq(|records|, i requires 0 <= i < |records| => records[i].device)
  }

  /** The appliances and archetypes behind a list of devices. */
  function Kept(devices: seq<Device>): (r: seq<(Appliance, Archetype)>)
    ensures |r| == |devices|
  {
    if devices == [] then []
    else
      var last := devices[|devices| - 1];
      Kept(devices[..|devices| - 1]) + [(last.appliance, last.archetype)]
  }

  /** A device for the next appliance extends what the scan has kept. */
  lemma KeptAdd(devices: seq<Device>, d: Device, apps: seq<Appliance>, i: nat)
    requires i < |apps| && Kept(devices) == Recognised(apps[..i], Classify)
    requires d.appliance == apps[i] && Classify(apps[i].kind) == Some(d.archetype)
    ensures Kept(devices + [d]) == Recognised(apps[..i + 1], Classify)
  {
    RecognisedStep(apps, i, Classify);
    assert (devices + [d])[..|devices|] == devices;
  }

  /** An appliance of an unsupported type adds nothing to what is kept. */
  lemma KeptSkip(devices: seq<Device>, apps: seq<Appliance>, i: nat)
    requires i < |apps| && Kept(devices) == Recognised(apps[..i], Classify)
    requires Classify(apps[i].kind).None?
    ensures Kept(devices) == Recognised(apps[..i + 1], Classify)
  {
    RecognisedStep(apps, i, Classify);
  }

  /** The loop of `get_devices`: one new device per appliance of a
      supported type, in order. */
  method BuildDevices(apps: seq<Appliance>) returns (built: seq<Device>)
    ensures Kept(built) == Recognised(apps, Classify)
    ensures forall k :: 0 <= k < |built| ==> fresh(built[k])
    ensures forall k, l :: 0 <= k < l < |built| ==> built[k] != built[l]
  {
    built := [];
    var i := 0;
    while i < |apps|
      invariant 0 <= i <= |apps|
      invariant Kept(built) == Recognised(apps[..i], Classify)
      invariant forall k :: 0 <= k < |built| ==> fresh(built[k])
      invariant forall k, l :: 0 <= k < l < |built| ==> built[k] != built[l]
    {
      var app := apps[i];
      var kind := Classify(app.kind);
      if kind.Some? {
        var device := new Device(app, kind.value);
        KeptAdd(built, device, apps, i);
        built := built + [device];
      } else {
        KeptSkip(built, apps, i);
      }
      i := i + 1;
    }
    assert apps[..|apps|] == apps;
  }

  /** `ConfigEntryAuth`, seen as the holder of the discovered devices. */
  class Api {
    var devices: seq<DeviceRecord>

    constructor ()
      ensures devices == []
    {
      devices := [];
    }

    /** `get_devices` over the appliances the vendor reports: one record per
        appliance of a supported type, in order, each with a new device and
        that device's descriptors; the list is also stored in `devices`.
        `get_appliances` is called unguarded, so the error it raises
        (`appliancesError`) escapes and `devices` keeps its old value. */
    method GetDevices(apps: seq<Appliance>, appliancesError: Option<Exc>)
      returns (r: seq<DeviceRecord>, raised: Option<Exc>)
      modifies this
      ensures raised == appliancesError
      ensures raised != None ==> r == [] && devices == old(devices)
      ensures raised == None ==> devices == r
      ensures r == Describe(DevicesOf(r))
      ensures raised == None ==> Kept(DevicesOf(r)) == Recognised(apps, Classify)
      ensures forall i :: 0 <= i < |r| ==> fresh(r[i].device)
      ensures forall i, j :: 0 <= i < j < |r| ==> r[i].device != r[j].device
    {
      raised := appliancesError;
      if raised.Some? {
        r := [];
        return;
      }
      var built := BuildDevices(apps);
      r := Describe(built);
      assert DevicesOf(r) == built;
      devices := r;
    }
  }
}
