/**
 * The beta variant of the integration (`home_connect_beta/api.py`): device
 * discovery, the device object with its active-program injection and update
 * signal, and the descriptor records each device hands to the switch,
 * sensor, binary-sensor and light platforms.
 */
module BetaApi {
  import opened Common

  // ---------------------------------------------------------------------------
  // Device classification

  /** The appliance types this variant implements: every archetype. */
  const SUPPORTED: set<string> :=
    {"Dryer", "Washer", "WasherDryer", "Dishwasher", "FridgeFreezer", "Oven", "CoffeeMaker", "Hood", "Hob"}

  /** The `if app.type == ...` chain of `get_devices`. */
  function Classify(kind: string): (r: Option<Archetype>)
    ensures r.Some? <==> kind in SUPPORTED
    ensures r.Some? ==> TypeName(r.value) == kind
  {
    if kind == "Dryer" then Some(Dryer)
    else if kind == "Washer" then Some(Washer)
    else if kind == "WasherDryer" then Some(WasherDryer)
    else if kind == "Dishwasher" then Some(Dishwasher)
    else if kind == "FridgeFreezer" then Some(FridgeFreezer)
    else if kind == "Oven" then Some(Oven)
    else if kind == "CoffeeMaker" then Some(CoffeeMaker)
    else if kind == "Hood" then Some(Hood)
    else if kind == "Hob" then Some(Hob)
    else None
  }

  /** Every archetype is recognised under its own type name. */
  lemma ClassifyEveryArchetype(a: Archetype)
    ensures Classify(TypeName(a)) == Some(a)
  {
  }

  // ---------------------------------------------------------------------------
  // Programs and descriptors

  /** The `PROGRAMS` list of each class, by name. A fridge-freezer is not a
      device with programs. */
  function Programs(a: Archetype): seq<string>
  {
    match a
    case Dryer => Prefixed("LaundryCare.Dryer.Program.",
      ["Cotton", "Synthetic", "Mix", "Blankets", "BusinessShirts", "DownFeathers", "Hygiene", "Jeans",
       "Outdoor", "SyntheticRefresh", "Towels", "Delicates", "Super40", "Shirts15", "Pillow", "AntiShrink"])
    case WasherDryer =>
      Prefixed("LaundryCare.Washer.Program.",
        ["Cotton", "Cotton.CottonEco", "EasyCare", "Mix", "DelicatesSilk", "Wool", "Sensitive", "Auto30",
         "Auto40", "Auto60", "Chiffon", "Curtains", "DarkWash", "Dessous", "Monsoon", "Outdoor", "PlushToy",
         "ShirtsBlouses", "SportFitness", "Towels", "WaterProof"])
      + Prefixed("LaundryCare.Dryer.Program.",
        ["Cotton", "Synthetic", "Mix", "Blankets", "BusinessShirts", "DownFeathers", "Hygiene", "Jeans",
         "Outdoor", "SyntheticRefresh", "Towels", "Delicates", "Super40", "Shirts15", "Pillow", "AntiShrink"])
    case Dishwasher => Prefixed("Dishcare.Dishwasher.Program.",
      ["Auto1", "Auto2", "Auto3", "Eco50", "Quick45", "Intensiv70", "Normal65", "Glas40", "GlassCare",
       "NightWash", "Quick65", "Normal45", "Intensiv45", "AutoHalfLoad", "IntensivPower", "MagicDaily",
       "Super60", "Kurz60", "ExpressSparkle65", "MachineCare", "SteamFresh", "MaximumCleaning"])
    case Oven => Prefixed("Cooking.Oven.Program.",
      ["HeatingMode.PreHeating", "HeatingMode.HotAir", "HeatingMode.TopBottomHeating",
       "HeatingMode.PizzaSetting", "Microwave.600Watt", "HeatingMode.SlowCook", "HeatingMode.HotAirEco",
       "HeatingMode.TopBottomHeatingEco", "HeatingMode.HotAirGrilling", "HeatingMode.IntensiveHeat",
       "HeatingMode.BottomHeating", "HeatingMode.PreheatOvenware", "HeatingMode.Desiccation",
       "HeatingMode.KeepWarm"])
    case Washer => Prefixed("LaundryCare.Washer.Program.",
      ["Cotton", "Cotton.CottonEco", "EasyCare", "Mix", "DelicatesSilk", "Wool", "Sensitive", "Auto30",
       "Auto40", "Auto60", "Chiffon", "Curtains", "DarkWash", "Dessous", "Monsoon", "Outdoor", "PlushToy",
       "ShirtsBlouses", "SportFitness", "Towels", "WaterProof"])
    case CoffeeMaker => Prefixed("ConsumerProducts.CoffeeMaker.Program.",
      ["Beverage.Espresso", "Beverage.EspressoMacchiato", "Beverage.Coffee", "Beverage.Cappuccino",
       "Beverage.LatteMacchiato", "Beverage.CaffeLatte", "CoffeeWorld.Americano", "Beverage.EspressoDoppio",
       "CoffeeWorld.FlatWhite", "CoffeeWorld.Galao", "Beverage.MilkFroth", "Beverage.WarmMilk",
       "Beverage.Ristretto", "CoffeeWorld.Cortado", "CoffeeWorld.CafeCortado", "CoffeeWorld.WienerMelange",
       "CoffeeWorld.KleinerBrauner", "CoffeeWorld.GrosserBrauner", "CoffeeWorld.Verlaengerter",
       "CoffeeWorld.VerlaengerterBraun", "CoffeeWorld.CafeConLeche", "CoffeeWorld.CafeAuLait",
       "CoffeeWorld.Doppio", "CoffeeWorld.Kaapi", "CoffeeWorld.KoffieVerkeerd", "CoffeeWorld.Garoto",
       "CoffeeWorld.RedEye", "CoffeeWorld.BlackEye", "CoffeeWorld.DeadEye"])
    case Hood => Prefixed("Cooking.Common.Program.Hood.", ["Automatic", "Venting", "DelayedShutOff"])
    case Hob => ["Cooking.Hob.Program.PowerLevelMode"]
    case FridgeFreezer => []
  }

  /** The washer-dryer runs the washer's programs, then the dryer's. */
  lemma WasherDryerPrograms()
    ensures Programs(WasherDryer) == Programs(Washer) + Programs(Dryer)
    ensures |Programs(WasherDryer)| == 37
  {
  }

  /** `DEVICE_CLASS_TIMESTAMP` of the host. */
  const TIMESTAMP: string := "timestamp"

  /** A program sensor's descriptor: `desc`, `unit`, `key`, `icon`,
      `device_class` and `sign`. */
  datatype SensorDesc = SensorDesc(desc: string, unit: Option<string>, key: string, icon: Option<string>,
                                   deviceClass: Option<string>, sign: int)

  /** The three program sensors of `get_program_sensors`, in dict order:
      the description by its words, then (unit, icon, device class). */
  const PROGRAM_SENSORS: seq<(seq<string>, Option<string>, Option<string>, Option<string>)> := [
    (["Remaining", "Program", "Time"], None, None, Some(TIMESTAMP)),
    (["Duration"], Some("s"), Some("mdi:update"), None),
    (["Program", "Progress"], Some("%"), Some("mdi:progress-clock"), None)
  ]

  /** `get_program_sensors`: one descriptor per table entry, all with sign
      1; the remaining time is a timestamp without unit or icon. */
  function ProgramSensors(): (r: seq<SensorDesc>)
    ensures |r| == 3
    ensures forall i :: 0 <= i < 3 ==> r[i].sign == 1
    ensures r[0].unit == None && r[0].icon == None && r[0].deviceClass == Some(TIMESTAMP)
    ensures r[1].unit == Some("s") && r[1].icon == Some("mdi:update") && r[1].deviceClass == None
    ensures r[2].unit == Some("%") && r[2].icon == Some("mdi:progress-clock") && r[2].deviceClass == None
  {
    seq(|PROGRAM_SENSORS|, i requires 0 <= i < |PROGRAM_SENSORS| =>
      var e := PROGRAM_SENSORS[i];
      SensorDesc(JoinWords(e.0), e.1, OPTION_PREFIX + ConcatWords(e.0), e.2, e.3, 1))
  }

  /** Each sensor key is the option prefix followed by the description with
      its spaces removed. */
  lemma ProgramSensorKeys()
    ensures forall i :: 0 <= i < |ProgramSensors()| ==>
      ProgramSensors()[i].key == OPTION_PREFIX + RemoveSpaces(ProgramSensors()[i].desc)
  {
    forall i | 0 <= i < 3
      ensures ProgramSensors()[i].key == OPTION_PREFIX + RemoveSpaces(ProgramSensors()[i].desc)
    {
      RemoveSpacesJoinWords(PROGRAM_SENSORS[i].0);
    }
  }

  /** The remaining-time sensor, spelled out. */
  lemma RemainingTimeSensor()
    ensures ProgramSensors()[0].desc == "Remaining Program Time"
    ensures ProgramSensors()[0].key == OPTION_PREFIX + "RemainingProgramTime"
  {
    RemainingProgramTimeWords();
  }

  /** The duration sensor, spelled out. */
  lemma DurationSensor()
    ensures ProgramSensors()[1].desc == "Duration" && ProgramSensors()[1].key == OPTION_PREFIX + "Duration"
  {
  }

  /** The progress sensor, spelled out. */
  lemma ProgressSensor()
    ensures ProgramSensors()[2].desc == "Program Progress"
    ensures ProgramSensors()[2].key == OPTION_PREFIX + "ProgramProgress"
  {
    ProgramProgressWords();
  }

  /** `get_door_entity`: `{'desc': 'Door', 'device_class': 'door'}`. */
  datatype DoorDesc = DoorDesc(desc: string, deviceClass: string)
  const DOOR: DoorDesc := DoorDesc("Door", "door")

  /** `get_light_entity` and `get_ambientlight_entity`. */
  datatype LightDesc = LightDesc(desc: string, ambient: Option<bool>)
  const LIGHT: LightDesc := LightDesc("Light", None)
  const AMBIENT_LIGHT: LightDesc := LightDesc("AmbientLight", Some(true))

  /** The dict returned by `get_entity_info`, by platform; a platform the
      dict leaves out is an empty list, which is how every platform reads it. */
  datatype EntityInfo = EntityInfo(binarySensor: seq<DoorDesc>, switch: seq<SwitchInfo>,
                                   sensor: seq<SensorDesc>, light: seq<LightDesc>)

  /** Which classes derive from the door class. */
  predicate HasDoor(a: Archetype)
  {
    a == Dryer || a == WasherDryer || a == Dishwasher || a == Oven || a == Washer || a == FridgeFreezer
  }

  /** The lights of a class: the dishwasher's ambient light, the hood's
      light and then its ambient light. */
  function Lights(a: Archetype): seq<LightDesc>
  {
    if a == Dishwasher then [AMBIENT_LIGHT]
    else if a == Hood then [LIGHT, AMBIENT_LIGHT]
    else []
  }

  /** `get_entity_info` of each class. */
  function GetEntityInfo(a: Archetype): EntityInfo
  {
    EntityInfo(
      if HasDoor(a) then [DOOR] else [],
      if a == FridgeFreezer then [] else ProgramSwitches(Programs(a)),
      if a == FridgeFreezer then [] else ProgramSensors(),
      Lights(a))
  }

  /** Door sensors exactly for the door classes, lights only for the
      dishwasher and the hood, and the fridge-freezer gets its door sensor
      and nothing else. */
  lemma EntitiesPerClass(a: Archetype)
    ensures GetEntityInfo(a).binarySensor ==
      if a in {Dryer, WasherDryer, Dishwasher, Oven, Washer, FridgeFreezer} then [DoorDesc("Door", "door")] else []
    ensures GetEntityInfo(a).light ==
      if a == Dishwasher then [LightDesc("AmbientLight", Some(true))]
      else if a == Hood then [LightDesc("Light", None), LightDesc("AmbientLight", Some(true))]
      else []
    ensures |GetEntityInfo(a).binarySensor| == 1 <==> HasDoor(a)
    ensures |GetEntityInfo(a).binarySensor| <= 1
    ensures GetEntityInfo(a).light != [] <==> a == Dishwasher || a == Hood
    ensures a == FridgeFreezer ==> GetEntityInfo(a) == EntityInfo([DoorDesc("Door", "door")], [], [], [])
  {
  }

  /** Every class but the fridge-freezer gets one switch per program, in
      order (and has some programs), and the three program sensors. */
  lemma ProgramEntitiesPerClass(a: Archetype)
    requires a != FridgeFreezer
    ensures GetEntityInfo(a).switch == ProgramSwitches(Programs(a))
    ensures GetEntityInfo(a).sensor == ProgramSensors()
    ensures |GetEntityInfo(a).switch| == |Programs(a)| > 0 && |GetEntityInfo(a).sensor| == 3
  {
  }

  // ---------------------------------------------------------------------------
  // Devices

  /** `SIGNAL_UPDATE_ENTITIES` */
  const SIGNAL_UPDATE_ENTITIES: string := "home_connect_beta.update_entities"

  /** `HomeConnectDevice`: an appliance, its class, and the entities listed
      under it (by their entity ids). */
  class Device {
    const appliance: Appliance
    const archetype: Archetype
    var entities: seq<string>

    /** `__init__` keeps the appliance and starts with no entities. */
    constructor (appliance: Appliance, archetype: Archetype)
      ensures this.appliance == appliance && this.archetype == archetype && entities == []
    {
      this.appliance := appliance;
      this.archetype := archetype;
      entities := [];
    }

    /** `power_off_state` of the device's class: Standby for ovens and
        coffee makers, Off otherwise. */
    function PowerOff(): (s: string)
      ensures s == POWER_STANDBY <==> archetype == Oven || archetype == CoffeeMaker
      ensures s == POWER_OFF <==> archetype != Oven && archetype != CoffeeMaker
    {
      PowerOffState(archetype)
    }

    /** `initialize`, given the error each of its three fetches raises:
        HomeConnectError and ValueError are caught, any other error escapes
        before the status is touched and before `listen_events`. When nothing
        escapes, the fetched active program is copied into the status if the
        fetch gave a dict with a key, and `listen_events` is called. */
    method Initialize(statusError: Option<Exc>, settingsError: Option<Exc>, programsError: Option<Exc>)
      returns (raised: Option<Exc>, listening: bool)
      modifies appliance
      ensures raised == InitializeEscaping(statusError, settingsError, programsError)
      ensures listening <==> raised == None
      ensures raised == None ==>
        appliance.status == InjectActiveProgram(old(appliance.status), FetchedProgram(appliance.activeProgram, programsError))
      ensures raised != None ==> appliance.status == old(appliance.status)
    {
      raised := Escaping(statusError, FETCH_CAUGHT);
      if raised == None {
        raised := Escaping(settingsError, FETCH_CAUGHT);
      }
      if raised == None {
        raised := Escaping(programsError, FETCH_CAUGHT);
      }
      listening := false;
      if raised == None {
        var programActive := if programsError.Some? then None else appliance.activeProgram;
        if programActive.Some? && "key" in programActive.value {
          appliance.status := appliance.status[ACTIVE_PROGRAM := map["value" := programActive.value["key"]]];
        }
        listening := true;
      }
    }

    /** `event_callback`: the dispatcher signal it sends, with the haId of
        the appliance the event came from. */
    method EventCallback(from: Appliance) returns (signal: string, haId: string)
      ensures signal == SIGNAL_UPDATE_ENTITIES && haId == from.haId
    {
      signal, haId := SIGNAL_UPDATE_ENTITIES, from.haId;
    }
  }

  /** One element of the list `get_devices` returns. */
  datatype DeviceRecord = DeviceRecord(device: Device, entities: EntityInfo)

  /** The records for a list of devices: each device with its `get_entity_info()`. */
  function Describe(devices: seq<Device>): (r: seq<DeviceRecord>)
    ensures |r| == |devices|
    ensures forall i :: 0 <= i < |r| ==>
      r[i].device == devices[i] && r[i].entities == GetEntityInfo(devices[i].archetype)
  {
    seq(|devices|, i requires 0 <= i < |devices| => DeviceRecord(devices[i], GetEntityInfo(devices[i].archetype)))
  }

  /** The devices behind a list of device records. */
  function DevicesOf(records: seq<DeviceRecord>): (r: seq<Device>)
    ensures |r| == |records| && forall i :: 0 <= i < |r| ==> r[i] == records[i].device
  {
    seq(|records|, i requires 0 <= i < |records| => records[i].device)
  }

  /** The appliances and archetypes behind a list of devices. */
  function Kept(devices: seq<Device>): (r: seq<(Appliance, Archetype)>)
    ensures |r| == |devices|
  {
    if devices == [] then []
    else
      var last := devices[|devices| - 1];
      Kept(devices[..|devices| - 1]) + [(last.appliance, last.archetype)]
  }

  /** A device for the next appliance extends what the scan has kept. */
  lemma KeptAdd(devices: seq<Device>, d: Device, apps: seq<Appliance>, i: nat)
    requires i < |apps| && Kept(devices) == Recognised(apps[..i], Classify)
    requires d.appliance == apps[i] && Classify(apps[i].kind) == Some(d.archetype)
    ensures Kept(devices + [d]) == Recognised(apps[..i + 1], Classify)
  {
    RecognisedStep(apps, i, Classify);
    assert (devices + [d])[..|devices|] == devices;
  }

  /** An appliance of an unsupported type adds nothing to what is kept. */
  lemma KeptSkip(devices: seq<Device>, apps: seq<Appliance>, i: nat)
    requires i < |apps| && Kept(devices) == Recognised(apps[..i], Classify)
    requires Classify(apps[i].kind).None?
    ensures Kept(devices) == Recognised(apps[..i + 1], Classify)
  {
    RecognisedStep(apps, i, Classify);
  }

  /** The loop of `get_devices`: one new device per appliance of a
      supported type, in order. */
  method BuildDevices(apps: seq<Appliance>) returns (built: seq<Device>)
    ensures Kept(built) == Recognised(apps, Classify)
    ensures forall k :: 0 <= k < |built| ==> fresh(built[k])
    ensures forall k, l :: 0 <= k < l < |built| ==> built[k] != built[l]
  {
    built := [];
    var i := 0;
    while i < |apps|
      invariant 0 <= i <= |apps|
      invariant Kept(built) == Recognised(apps[..i], Classify)
      invariant forall k :: 0 <= k < |built| ==> fresh(built[k])
      invariant forall k, l :: 0 <= k < l < |built| ==> built[k] != built[l]
    {
      var app := apps[i];
      var kind := Classify(app.kind);
      if kind.Some? {
        var device := new Device(app, kind.value);
        KeptAdd(built, device, apps, i);
        built := built + [device];
      } else {
        KeptSkip(built, apps, i);
      }
      i := i + 1;
    }
    assert apps[..|apps|] == apps;
  }

  /** `ConfigEntryAuth`, seen as the holder of the discovered devices. */
  class Api {
    var devices: seq<DeviceRecord>

    constructor ()
      ensures devices == []
    {
      devices := [];
    }

    /** `get_devices` over the appliances the vendor reports: one record per
        appliance of a supported type, in order, each with a new device and
        that device's descriptors; the list is also stored in `devices`.
        `get_appliances` is called unguarded, so the error it raises
        (`appliancesError`) escapes and `devices` keeps its old value. */
    method GetDevices(apps: seq<Appliance>, appliancesError: Option<Exc>)
      returns (r: seq<DeviceRecord>, raised: Option<Exc>)
      modifies this
      ensures raised == appliancesError
      ensures raised != None ==> r == [] && devices == old(devices)
      ensures raised == None ==> devices == r
      ensures r == Describe(DevicesOf(r))
      ensures raised == None ==> Kept(DevicesOf(r)) == Recognised(apps, Classify)
      ensures forall i :: 0 <= i < |r| ==> fresh(r[i].device)
      ensures forall i, j :: 0 <= i < j < |r| ==> r[i].device != r[j].device
    {
      raised := appliancesError;
      if raised.Some? {
        r := [];
        return;
      }
      var built := BuildDevices(apps);
      r := Describe(built);
      assert DevicesOf(r) == built;
      devices := r;
    }
  }
}
