# Home Connect entity mapping, modelled in Dafny

The Home Connect integration for Home Assistant turns the appliances of a
Home Connect account into host entities:

- a door binary sensor;
- one switch per program and one power switch;
- program sensors (remaining time, progress and others);
- lights.

Each entity keeps a `_state` of True, False or None. It recomputes that state
from the appliance's status map, a dict from a status or setting key to an
entry such as `{"value": "BSH.Common.EnumType.DoorState.Open"}`.

The integration exists in three historical variants that differ in details.
Each variant is modelled in its own modules:

| variant | source | modules |
|---|---|---|
| Old | `homeconnect/__init__.py` and the `switch/`, `sensor/`, `binary_sensor/` platforms | `OldInit`, `OldSwitch`, `OldSensor`, `OldBinarySensor` |
| Middle | `homeconnect/api.py`, `switch.py`, `sensor.py`, `binary_sensor.py` | `MiddleApi`, `MiddleSwitch`, `MiddleSensor`, `MiddleBinarySensor` |
| Beta | `home_connect_beta/` | `BetaApi`, `BetaEntity`, `BetaSwitch`, `BetaBinarySensor`, `BetaSensor`, `BetaLight`, `BetaInit` |

`Common` (common.dfy) holds what the variants share:

- Python's value semantics (`True == 1`, `in` on a list, `dict.get`, `bool(x)`, `s.split(".")[-1]`, `s.replace(" ", "")`);
- the vendor's appliance object;
- the active-program injection;
- the power switch's priority chain;
- the entity descriptor records;
- the classification scan.

How the model is built:

- The appliance is a class whose `status` map the device initialisation rewrites in place.
- Devices and entities are classes with a `state` field that their `Update` methods change.
- Each such method is proved against a specification function of the status: `DoorReading`, `EntryReading`, `Reading`, `PowerChain`, `PowerOnAsWritten`, `ProgramActive`, `LightReading`, `Next`. The lemmas state what those functions promise.
- Calls into the vendor library are out of the model's hands. A method returns the call it makes (`ApplianceCall`) and takes the error it may raise as a parameter. The current time of the beta timestamp sensor is a parameter `now`, in whole seconds.

## Model

| member | source | states |
|---|---|---|
| Common.ValueAt | custom_components/home_connect_beta/binary_sensor.py:52-53 | `status.get(key, {}).get("value")` is None for a missing key and the entry's value when present |
| Common.LastSegment | custom_components/home_connect_beta/switch.py:44 | `split(".")[-1]` has no dot |
| Common.LastSegmentIsSuffix | custom_components/home_connect_beta/switch.py:44 | `split(".")[-1]` is a suffix of the input, preceded by a dot when shorter than the input |
| Common.RemoveSpaces | custom_components/homeconnect/api.py:190 | `replace(" ", "")` leaves no space and never lengthens the text |
| Common.RemoveSpacesJoinWords | custom_components/homeconnect/api.py:188-190 | removing the spaces from a name made of words joined by spaces runs the words together |
| Common.JoinedSuffixDetermined | custom_components/home_connect_beta/entity.py:49-51 | a fixed prefix and separator followed by a text determine that text |
| Common.InjectActiveProgram | custom_components/home_connect_beta/api.py:106-112 | the ActiveProgram entry is set to `{"value": key}` exactly when the fetch gave a dict with "key"; every other entry is unchanged, and otherwise the status is unchanged |
| Common.InjectedProgramIsActive | custom_components/home_connect_beta/api.py:106-112 | after an injection, a program switch reads on exactly when its program is the injected key |
| Common.InjectIdempotent | custom_components/homeconnect/api.py:101-104 | injecting the same answer twice is injecting it once |
| Common.InitializeEscaping | custom_components/home_connect_beta/api.py:96-110 | nothing escapes exactly when every fetch error is absent or is HomeConnectError or ValueError; otherwise the first uncaught error, in call order, escapes |
| Common.FetchedProgram | custom_components/home_connect_beta/api.py:105-110 | `program_active` is the appliance's answer when the fetch returned, and None when it raised a caught error |
| Common.FailedProgramFetchKeepsStatus | custom_components/homeconnect/api.py:95-104 | a failed program fetch leaves the status as it was |
| Common.ProgramActiveMissing | custom_components/home_connect_beta/switch.py:80-87 | with no ActiveProgram entry every program switch reads off, not unknown |
| Common.PowerOffState | custom_components/home_connect_beta/api.py:88 | the off value is Standby exactly for Oven and CoffeeMaker and Off for every other class |
| Common.PowerChain | custom_components/home_connect_beta/switch.py:129-160 | first match wins: setting On gives on; setting equal to the off value gives off; an operation state in the seven running states gives on; Inactive gives off; anything else gives unknown |
| Common.Prefixed | custom_components/home_connect_beta/api.py:237-275 | every name of the list gets the class prefix, in order |
| Common.ProgramSwitches | custom_components/homeconnect/api.py:165-171 | one switch record per program, in order, with that program's name |
| Common.SensorsFrom | custom_components/homeconnect/api.py:173-193 | one sensor record per table entry, in order: name is the appliance name, a space and the sensor name; the unit is copied |
| Common.SensorKeys | custom_components/homeconnect/api.py:190 | each sensor key is "BSH.Common.Option." followed by the sensor name without spaces |
| Common.DoorEntity | custom_components/homeconnect/api.py:199-205 | the door record is named after the appliance with " Door" and has device class "door" |
| Common.ProgramSwitchNameUnique | custom_components/homeconnect/switch.py:41 | two program switches of one appliance share a name exactly when their programs share the last dotted segment |
| Common.Recognised | custom_components/homeconnect/api.py:49-69 | the classification scan keeps at most as many appliances as it is given |
| Common.RecognisedMembers | custom_components/homeconnect/api.py:49-69 | an appliance is kept with an archetype exactly when it is in the input and its type classifies as that archetype |
| Common.RecognisedKeepsExactly | custom_components/homeconnect/__init__.py:147-166 | every kept appliance comes from the input with its classified archetype, and every classifiable input appliance is kept |
| Common.Escaping | custom_components/home_connect_beta/switch.py:60-69 | what leaves a `try`: nothing when no error was raised or the error is caught, otherwise the error itself |
| Common.IconFor | custom_components/homeconnect/sensor.py:67-72 | the icon is the clock for "s", the progress ring for "%" and None for any other unit |
| Common.BlockEntities | custom_components/homeconnect/switch.py:27-33 | a device's switch block lists one power switch, at the front or at the end, and its program switches in order |
| Common.OnePowerSwitchPerBlock | custom_components/home_connect_beta/switch.py:29-33 | a device's block holds exactly one power switch, whichever end it is at |
| Common.OnePowerSwitchPerDevice | custom_components/switch/homeconnect.py:21-27 | setup lists exactly one power switch per device, plus one program switch per program record |
| Common.DictFromKeys | custom_components/homeconnect/switch.py:190 | the keys of a dict comprehension are exactly the keys produced |
| Common.DictFromLaterWins | custom_components/homeconnect/switch.py:190 | a produced pair survives in the dict unless a later pair has the same key |
| OldInit.InvocationFor | custom_components/homeconnect/__init__.py:133-136 | `f(*args)` exactly when args is present and non-empty, `f()` otherwise |
| OldInit.Retry | custom_components/homeconnect/__init__.py:128-141 | the loop makes the calls and returns the result the retry specification prescribes, each call made with the arguments `if args:` selects |
| OldInit.RetrySettlesAt | custom_components/homeconnect/__init__.py:132-138 | when the attempts before `k` raise a swallowed exception and attempt `k` does not, the retry ends at attempt `k` with that attempt's value or exception, after `k + 1` calls |
| OldInit.RetryExhausts | custom_components/homeconnect/__init__.py:129-141 | when every attempt raises a swallowed exception, the retry returns None after exactly `times` calls |
| OldInit.RetryAttemptsBounded | custom_components/homeconnect/__init__.py:129 | whatever the attempts do, `f` is called at most `times` times and at least once when `times` is positive |
| OldInit.RetryReturnsAttempt | custom_components/homeconnect/__init__.py:133-137 | a value the retry returns is the value of its last attempt, and every earlier attempt raised a swallowed exception |
| OldInit.Classify | custom_components/homeconnect/__init__.py:147-164 | a type is recognised exactly when it is one of the seven listed names, and then as the archetype of that name |
| OldInit.HobAndWasherDryerSkipped | custom_components/homeconnect/__init__.py:162-164 | hobs and washer-dryers are not recognised |
| OldInit.ProgramSensors | custom_components/homeconnect/__init__.py:246-253 | exactly two sensors, the first in s and the second in % |
| OldInit.ProgramSensorKeys | custom_components/homeconnect/__init__.py:252 | each sensor key is the option prefix and the sensor name without spaces |
| OldInit.RemainingTimeSensor | custom_components/homeconnect/__init__.py:247-252 | the first sensor is "<appliance> Remaining Program Time" with key BSH.Common.Option.RemainingProgramTime |
| OldInit.ProgressSensor | custom_components/homeconnect/__init__.py:248-252 | the second sensor is "<appliance> Program Progress" with key BSH.Common.Option.ProgramProgress |
| OldInit.GetEntities | custom_components/homeconnect/__init__.py:266-408 | a door sensor exactly for the door classes; program switches and sensors for every class but the fridge-freezer |
| OldInit.FridgeFreezerOnlyDoor | custom_components/homeconnect/__init__.py:394-408 | the fridge-freezer declares programs but exposes only its door sensor |
| OldInit.ProgramSwitchesOnePerProgram | custom_components/homeconnect/__init__.py:241-244 | every other class gets one switch per program and two sensors |
| OldInit.Device.constructor | custom_components/homeconnect/__init__.py:176-190 | the device keeps the appliance, injects the active program into its status, starts with no entities and registers its event callback with `listen_events` |
| OldInit.Device.PowerOff | custom_components/homeconnect/__init__.py:174 | the off value is Standby for ovens and coffee makers and Off otherwise |
| OldInit.Device.EventCallback | custom_components/homeconnect/__init__.py:192-197 | every entity of the device is asked to refresh, once each, in order |
| OldInit.Describe | custom_components/homeconnect/__init__.py:165-166 | each record pairs a device with its own `get_entities()` |
| OldInit.BuildDevices | custom_components/homeconnect/__init__.py:147-166 | the devices built are the recognised appliances in order, each with its archetype, all distinct |
| OldInit.GetDevices | custom_components/homeconnect/__init__.py:144-167 | the appliance list is fetched with up to 20 attempts that swallow ValueError; a None result raises TypeError in the loop; otherwise one record per recognised appliance, in order |
| OldSwitch.ProgramSwitch.constructor | custom_components/switch/homeconnect.py:33-40 | the name is the appliance name, "Program" and the program's last dotted segment, joined by spaces; the state is unknown |
| OldSwitch.ProgramSwitch.IsOn | custom_components/switch/homeconnect.py:43-45 | on exactly when the state is True |
| OldSwitch.ProgramSwitch.Available | custom_components/switch/homeconnect.py:48-50 | always available |
| OldSwitch.ProgramSwitch.TurnOn | custom_components/switch/homeconnect.py:52-55 | starts the switch's program; the error the call raises escapes unchanged |
| OldSwitch.ProgramSwitch.TurnOff | custom_components/switch/homeconnect.py:57-60 | stops the running program; the error the call raises escapes unchanged |
| OldSwitch.ProgramSwitch.Update | custom_components/switch/homeconnect.py:62-73 | True exactly when the active program's value equals the switch's program, False otherwise, never None |
| OldSwitch.PowerOnAsWrittenMeans | custom_components/switch/homeconnect.py:97-102 | as written, the switch reads on exactly when the setting does not read "…Setting.PowerState.On" and the enum entry does |
| OldSwitch.PowerOnIntended | custom_components/switch/homeconnect.py:97-99 | the intended test: on when either value reads On |
| OldSwitch.OnSettingReadsOff | custom_components/switch/homeconnect.py:97-99 | a power setting reading On is shown as off as written and as on by the intended test |
| OldSwitch.PowerSwitch.constructor | custom_components/switch/homeconnect.py:77-79 | the power switch is named after the appliance; the state is unknown |
| OldSwitch.PowerSwitch.IsOn | custom_components/switch/homeconnect.py:82-84 | on exactly when the state is True |
| OldSwitch.PowerSwitch.TurnOn | custom_components/switch/homeconnect.py:86-89 | writes "BSH.Common.Setting.PowerState.On" to the power setting; the error the call raises escapes unchanged |
| OldSwitch.PowerSwitch.TurnOff | custom_components/switch/homeconnect.py:91-94 | writes the device class's off value to the power setting; the error the call raises escapes unchanged |
| OldSwitch.PowerSwitch.Update | custom_components/switch/homeconnect.py:96-102 | always a boolean, the condition as written |
| OldSwitch.SetupDevice | custom_components/switch/homeconnect.py:22-26 | one power switch and one program switch per record, in order; only the program switches join the device's entities |
| OldSwitch.SetupPlatform | custom_components/switch/homeconnect.py:18-28 | per device, the power switch first and then its program switches; the devices' entity lists grow by their program switches |
| OldSensor.Sensor.constructor | custom_components/sensor/homeconnect.py:31-35 | keeps name, key and unit; the state is None |
| OldSensor.Sensor.Available | custom_components/sensor/homeconnect.py:43-44 | available exactly when the state is not None |
| OldSensor.Sensor.UnitOfMeasurement | custom_components/sensor/homeconnect.py:60-62 | the constructor's unit |
| OldSensor.Sensor.Icon | custom_components/sensor/homeconnect.py:65-69 | the icon for the unit |
| OldSensor.Sensor.Update | custom_components/sensor/homeconnect.py:46-51 | None for a missing key, else the entry's value or None |
| OldSensor.SetupDevice | custom_components/sensor/homeconnect.py:21-25 | one sensor per record, in order, appended to the device's entities |
| OldSensor.SetupPlatform | custom_components/sensor/homeconnect.py:17-26 | every sensor record of every device becomes a sensor, in order |
| OldBinarySensor.DoorReading | custom_components/binary_sensor/homeconnect.py:46-55 | Closed or Locked gives off, Open gives on, any other value (a missing key included) gives unknown |
| OldBinarySensor.BinarySensor.constructor | custom_components/binary_sensor/homeconnect.py:32-35 | keeps name and device class; the state is unknown |
| OldBinarySensor.BinarySensor.IsOn | custom_components/binary_sensor/homeconnect.py:38-40 | on exactly when the state is True |
| OldBinarySensor.BinarySensor.Available | custom_components/binary_sensor/homeconnect.py:43-44 | available exactly when the state is known |
| OldBinarySensor.BinarySensor.Update | custom_components/binary_sensor/homeconnect.py:46-55 | the door reading of DoorState, whatever sensor this is |
| OldBinarySensor.SetupDevice | custom_components/binary_sensor/homeconnect.py:21-25 | one binary sensor per record, in order, appended to the device's entities |
| OldBinarySensor.SetupPlatform | custom_components/binary_sensor/homeconnect.py:18-27 | every binary-sensor record of every device becomes a sensor, in order |
| MiddleApi.Classify | custom_components/homeconnect/api.py:49-68 | a type is recognised exactly when it is one of the eight listed names, and then as the archetype of that name, never as a washer-dryer |
| MiddleApi.WasherDryerSkipped | custom_components/homeconnect/api.py:64-68 | washer-dryers are skipped; hobs are recognised |
| MiddleApi.ProgramSensors | custom_components/homeconnect/api.py:179-193 | four sensors with units s, s, s, % |
| MiddleApi.ProgramSensorKeys | custom_components/homeconnect/api.py:188-190 | each name is the appliance name, a space and the sensor name; each key is the option prefix and the sensor name without spaces |
| MiddleApi.RemainingTimeSensor | custom_components/homeconnect/api.py:180-190 | the remaining-time sensor's name and key, spelled out |
| MiddleApi.ElapsedTimeSensor | custom_components/homeconnect/api.py:181-190 | the elapsed-time sensor's name and key, spelled out |
| MiddleApi.DurationSensor | custom_components/homeconnect/api.py:182-190 | the duration sensor's name and key, spelled out |
| MiddleApi.ProgressSensor | custom_components/homeconnect/api.py:183-190 | the progress sensor's name and key, spelled out |
| MiddleApi.EntitiesPerClass | custom_components/homeconnect/api.py:230-409 | the door sensor "<name> Door" for Dryer, Dishwasher, Oven, Washer and FridgeFreezer and none for the others; the fridge-freezer gets only that; every other class gets the program switches of its program list, in order, and the four program sensors |
| MiddleApi.UniqueIdsDistinct | custom_components/homeconnect/api.py:135-137 | on one appliance, entities get the same unique id exactly when they have the same name |
| MiddleApi.Device.constructor | custom_components/homeconnect/api.py:81-84 | keeps the appliance and starts with no entities |
| MiddleApi.Device.PowerOff | custom_components/homeconnect/api.py:79 | the off value is Standby for ovens and coffee makers and Off otherwise |
| MiddleApi.Device.Initialize | custom_components/homeconnect/api.py:86-105 | the escaping error is the first fetch error other than HomeConnectError or ValueError; when one escapes the status is unchanged and `listen_events` is not called; otherwise the active program is injected exactly when the fetch returned a dict with "key", and events are listened to |
| MiddleApi.Device.EventCallback | custom_components/homeconnect/api.py:107-113 | every entity of the device is asked to refresh, once each, in order |
| MiddleApi.Describe | custom_components/homeconnect/api.py:69 | each record pairs a device with its own `get_entities()` |
| MiddleApi.BuildDevices | custom_components/homeconnect/api.py:47-69 | the devices built are the recognised appliances in order, fresh and distinct |
| MiddleApi.Api.GetDevices | custom_components/homeconnect/api.py:45-71 | an error from the unguarded `get_appliances` escapes and leaves `self.devices` unchanged; otherwise one record per recognised appliance, in order, and `self.devices` is the returned list |
| MiddleSwitch.ProgramSwitch.constructor | custom_components/homeconnect/switch.py:40-45 | the name is the appliance name, "Program" and the program's last segment; the state is unknown |
| MiddleSwitch.ProgramSwitch.IsOn | custom_components/homeconnect/switch.py:47-50 | on exactly when the state is True |
| MiddleSwitch.ProgramSwitch.Available | custom_components/homeconnect/switch.py:52-55 | always available |
| MiddleSwitch.ProgramSwitch.TurnOn | custom_components/homeconnect/switch.py:57-64 | starts the program; a HomeConnectError is swallowed and the refresh follows; any other error escapes |
| MiddleSwitch.ProgramSwitch.TurnOff | custom_components/homeconnect/switch.py:66-73 | stops the program, with the same error handling |
| MiddleSwitch.ProgramSwitch.Update | custom_components/homeconnect/switch.py:75-86 | True exactly when the active program's value equals the switch's program, False otherwise |
| MiddleSwitch.LowerRun | custom_components/homeconnect/switch.py:93 | the length of the lower-case run a text starts with |
| MiddleSwitch.SplitWords | custom_components/homeconnect/switch.py:93 | the first substitution adds only underscores to the text |
| MiddleSwitch.SplitCase | custom_components/homeconnect/switch.py:94 | the second substitution adds only underscores to the text |
| MiddleSwitch.ToLower | custom_components/homeconnect/switch.py:94 | one character through `lower()`: capitals become lower case, everything else stays |
| MiddleSwitch.Lower | custom_components/homeconnect/switch.py:94 | `lower()` keeps the length, lowers each character and leaves no capital |
| MiddleSwitch.ConvertToSnake | custom_components/homeconnect/switch.py:89-94 | the output has no capital letter |
| MiddleSwitch.SplitWordsNoUpper | custom_components/homeconnect/switch.py:93 | without capitals the first substitution changes nothing |
| MiddleSwitch.SplitCaseNoUpper | custom_components/homeconnect/switch.py:94 | without capitals the second substitution changes nothing |
| MiddleSwitch.LowerNoUpper | custom_components/homeconnect/switch.py:94 | text without capitals is its own lower-case form |
| MiddleSwitch.ConvertToSnakeIdempotent | custom_components/homeconnect/switch.py:89-94 | converting twice is converting once |
| MiddleSwitch.DropUnderscores | custom_components/homeconnect/switch.py:93-94 | the text with its underscores taken out has none left |
| MiddleSwitch.SplitWordsInsertsUnderscores | custom_components/homeconnect/switch.py:93 | apart from underscores, the first substitution returns its input |
| MiddleSwitch.SplitCaseInsertsUnderscores | custom_components/homeconnect/switch.py:94 | apart from underscores, the second substitution returns its input |
| MiddleSwitch.DropUnderscoresLower | custom_components/homeconnect/switch.py:94 | lowering neither adds nor removes underscores |
| MiddleSwitch.ConvertToSnakeInsertsUnderscores | custom_components/homeconnect/switch.py:89-94 | apart from underscores, the snake-case form is the lower-case form of the input |
| MiddleSwitch.FormatName | custom_components/homeconnect/switch.py:101 | a formatted string key has no dot and no capital |
| MiddleSwitch.FormatKey | custom_components/homeconnect/switch.py:97-101 | non-strings come back unchanged; strings come back formatted |
| MiddleSwitch.FormatKeyLastSegment | custom_components/homeconnect/switch.py:101 | a formatted key depends only on the text after the last dot |
| MiddleSwitch.FormatKeyIdempotent | custom_components/homeconnect/switch.py:97-101 | formatting twice is formatting once |
| MiddleSwitch.FormattedItems | custom_components/homeconnect/switch.py:190 | one formatted (key, value) pair per status item, in item order |
| MiddleSwitch.StateAttributes | custom_components/homeconnect/switch.py:186-190 | the attribute names are exactly the formatted status keys |
| MiddleSwitch.StateAttributesWithoutCollisions | custom_components/homeconnect/switch.py:186-190 | when no two status keys format alike, each attribute is the formatted value of its key |
| MiddleSwitch.PowerCalls | custom_components/homeconnect/switch.py:114-129 | the setting call, then a status request unless the setting call raised an unexpected error |
| MiddleSwitch.PowerRaised | custom_components/homeconnect/switch.py:114-129 | nothing escapes exactly when the setting error is caught (HomeConnectError) and the status error is caught (HomeConnectError, ValueError) |
| MiddleSwitch.PowerStateAfter | custom_components/homeconnect/switch.py:114-146 | a caught error from either call leaves the state False; without errors the state is unchanged |
| MiddleSwitch.PowerSwitch.constructor | custom_components/homeconnect/switch.py:105-107 | named after the appliance; the state is unknown |
| MiddleSwitch.PowerSwitch.IsOn | custom_components/homeconnect/switch.py:109-112 | on exactly when the state is True |
| MiddleSwitch.PowerSwitch.SetPower | custom_components/homeconnect/switch.py:114-129 | calls, escaping error and new state as the three specification functions give them |
| MiddleSwitch.PowerSwitch.TurnOn | custom_components/homeconnect/switch.py:114-129 | writes the On value, with that error handling |
| MiddleSwitch.PowerSwitch.TurnOffAsWritten | custom_components/homeconnect/switch.py:131-137 | reading the missing `_power_off_state` raises AttributeError before any call |
| MiddleSwitch.PowerSwitch.TurnOff | custom_components/homeconnect/switch.py:131-146 | writes the device class's off value, with that error handling |
| MiddleSwitch.PowerSwitch.Update | custom_components/homeconnect/switch.py:148-184 | the priority chain with the literal Off value |
| MiddleSwitch.StandbyFallsThrough | custom_components/homeconnect/switch.py:156-162 | a Standby setting reads as if there were no power setting at all |
| MiddleSwitch.SetupDevice | custom_components/homeconnect/switch.py:28-33 | one power switch and one program switch per record; only the program switches join the device's entities |
| MiddleSwitch.SetupEntry | custom_components/homeconnect/switch.py:21-34 | per device, the power switch first and then its program switches |
| MiddleSensor.Sensor.constructor | custom_components/homeconnect/sensor.py:33-37 | keeps name, key and unit; the state is None |
| MiddleSensor.Sensor.Available | custom_components/homeconnect/sensor.py:44-46 | available exactly when the state is not None |
| MiddleSensor.Sensor.UnitOfMeasurement | custom_components/homeconnect/sensor.py:62-65 | the constructor's unit |
| MiddleSensor.Sensor.Icon | custom_components/homeconnect/sensor.py:67-72 | the icon for the unit |
| MiddleSensor.Sensor.Update | custom_components/homeconnect/sensor.py:48-53 | None for a missing key, else the entry's value or None |
| MiddleSensor.SetupDevice | custom_components/homeconnect/sensor.py:22-26 | one sensor per record, in order, appended to the device's entities |
| MiddleSensor.SetupEntry | custom_components/homeconnect/sensor.py:18-27 | every sensor record of every device becomes a sensor, in order |
| MiddleBinarySensor.EntryReading | custom_components/homeconnect/binary_sensor.py:56-69 | an empty entry gives unknown; a boolean value is the state; Closed or Locked gives off; Open gives on; anything else unknown |
| MiddleBinarySensor.MissingKeyUnknown | custom_components/homeconnect/binary_sensor.py:58-60 | a missing key reads as unknown |
| MiddleBinarySensor.KnownReadings | custom_components/homeconnect/binary_sensor.py:61-69 | only a boolean, an open door or a closed or locked door gives a known state |
| MiddleBinarySensor.BinarySensor.constructor | custom_components/homeconnect/binary_sensor.py:39-44 | keeps name, key and device class; the state is unknown |
| MiddleBinarySensor.BinarySensor.IsOn | custom_components/homeconnect/binary_sensor.py:46-49 | on exactly when the state is True |
| MiddleBinarySensor.BinarySensor.Available | custom_components/homeconnect/binary_sensor.py:51-54 | available exactly when the state is known |
| MiddleBinarySensor.BinarySensor.Update | custom_components/homeconnect/binary_sensor.py:56-69 | the entry reading under the sensor's own key |
| MiddleBinarySensor.SetupEntry | custom_components/homeconnect/binary_sensor.py:22-31 | the door record has no `key`, so setup raises TypeError exactly when some device has a door record, and otherwise adds nothing |
| BetaApi.Classify | custom_components/home_connect_beta/api.py:52-78 | a type is recognised exactly when it is one of the nine listed names, and then as the archetype of that name |
| BetaApi.ClassifyEveryArchetype | custom_components/home_connect_beta/api.py:52-78 | every archetype, the washer-dryer and the hob included, is recognised |
| BetaApi.WasherDryerPrograms | custom_components/home_connect_beta/api.py:237-275 | the washer-dryer's programs are the washer's followed by the dryer's, 37 in all |
| BetaApi.ProgramSensors | custom_components/home_connect_beta/api.py:139-161 | three sensors with sign 1: a timestamp without unit or icon, a duration in s, a progress in % |
| BetaApi.ProgramSensorKeys | custom_components/home_connect_beta/api.py:145-161 | each key is the option prefix and the description without spaces |
| BetaApi.RemainingTimeSensor | custom_components/home_connect_beta/api.py:141-158 | the remaining-time sensor's description and key, spelled out |
| BetaApi.DurationSensor | custom_components/home_connect_beta/api.py:142-158 | the duration sensor's description and key, spelled out |
| BetaApi.ProgressSensor | custom_components/home_connect_beta/api.py:143-158 | the progress sensor's description and key, spelled out |
| BetaApi.EntitiesPerClass | custom_components/home_connect_beta/api.py:222-476 | the Door descriptor for Dryer, WasherDryer, Dishwasher, Oven, Washer and FridgeFreezer and none for the others; the dishwasher gets the ambient light, the hood the light and then the ambient light, every other class no light; only the door for the fridge-freezer |
| BetaApi.ProgramEntitiesPerClass | custom_components/home_connect_beta/api.py:131-161 | every other class gets the program switches of its program list, in order, and the three program sensors |
| BetaApi.Device.constructor | custom_components/home_connect_beta/api.py:90-94 | keeps the appliance and starts with no entities |
| BetaApi.Device.PowerOff | custom_components/home_connect_beta/api.py:88 | the off value is Standby for ovens and coffee makers and Off otherwise |
| BetaApi.Device.Initialize | custom_components/home_connect_beta/api.py:96-113 | the escaping error is the first fetch error other than HomeConnectError or ValueError; when one escapes the status is unchanged and `listen_events` is not called; otherwise the active program is injected exactly when the fetch returned a dict with "key", and events are listened to |
| BetaApi.Device.EventCallback | custom_components/home_connect_beta/api.py:115-119 | sends the update signal with the haId of the appliance that reported |
| BetaApi.Describe | custom_components/home_connect_beta/api.py:77-78 | each record pairs a device with its own `get_entity_info()` |
| BetaApi.BuildDevices | custom_components/home_connect_beta/api.py:55-78 | the devices built are the recognised appliances in order, fresh and distinct |
| BetaApi.Api.GetDevices | custom_components/home_connect_beta/api.py:52-80 | an error from the unguarded `get_appliances` escapes and leaves `self.devices` unchanged; otherwise one record per recognised appliance, in order, and `self.devices` is the returned list |
| BetaEntity.EntityNamesDistinct | custom_components/home_connect_beta/entity.py:22 | on one device, names are equal exactly when descriptions are |
| BetaEntity.UniqueIdsDistinct | custom_components/home_connect_beta/entity.py:48-51 | on one device, unique ids are equal exactly when descriptions are |
| BetaEntity.ShouldPoll | custom_components/home_connect_beta/entity.py:38-41 | never polled |
| BetaEntity.OwnEventsOnly | custom_components/home_connect_beta/entity.py:32-36 | the signal refreshes an entity for its own appliance's events and for no other haId |
| BetaEntity.DeviceInfoOf | custom_components/home_connect_beta/entity.py:53-61 | one identifier (domain, haId); name, manufacturer and model copied from the appliance |
| BetaEntity.SameRegistryDevice | custom_components/home_connect_beta/entity.py:53-61 | two entities share a registry device exactly when their appliances share the haId |
| BetaEntity.StateAfterCall | custom_components/home_connect_beta/switch.py:103-127 | a HomeConnectError sets the fallback state; anything else leaves the state alone |
| BetaSwitch.ProgramIdsCollide | custom_components/home_connect_beta/switch.py:42-48 | two program switches of one device share a unique id exactly when their programs share the last dotted segment |
| BetaSwitch.WasherDryerCottonPrograms | custom_components/home_connect_beta/api.py:237-258 | the washer-dryer lists a washer Cotton and a dryer Cotton program |
| BetaSwitch.WasherDryerCottonIdsCollide | custom_components/home_connect_beta/api.py:237-258 | those two different programs get switches with the same unique id |
| BetaSwitch.ProgramSwitch.constructor | custom_components/home_connect_beta/switch.py:42-48 | the description is "Program" and the program's last dotted segment; the state is unknown |
| BetaSwitch.ProgramSwitch.IsOn | custom_components/home_connect_beta/switch.py:50-53 | on exactly when the state is True |
| BetaSwitch.ProgramSwitch.Available | custom_components/home_connect_beta/switch.py:55-58 | always available |
| BetaSwitch.ProgramSwitch.TurnOn | custom_components/home_connect_beta/switch.py:60-69 | starts the program; a HomeConnectError is swallowed and the refresh follows; any other error escapes |
| BetaSwitch.ProgramSwitch.TurnOff | custom_components/home_connect_beta/switch.py:71-78 | stops the program, with the same error handling |
| BetaSwitch.ProgramSwitch.Update | custom_components/home_connect_beta/switch.py:80-87 | True exactly when the active program's value equals the switch's program, False otherwise (a missing key included) |
| BetaSwitch.PowerSwitch.constructor | custom_components/home_connect_beta/switch.py:93-96 | described as "Power"; the state is unknown |
| BetaSwitch.PowerSwitch.IsOn | custom_components/home_connect_beta/switch.py:98-101 | on exactly when the state is True |
| BetaSwitch.PowerSwitch.TurnOn | custom_components/home_connect_beta/switch.py:103-113 | writes On; a HomeConnectError leaves the switch off; success leaves the state as it was |
| BetaSwitch.PowerSwitch.TurnOff | custom_components/home_connect_beta/switch.py:115-127 | writes the device's off value; a HomeConnectError leaves the switch on |
| BetaSwitch.PowerSwitch.Update | custom_components/home_connect_beta/switch.py:129-160 | the priority chain with the device's own off value |
| BetaSwitch.Applied | custom_components/home_connect_beta/switch.py:103-127 | after the appliance takes a power setting, the setting reads that value |
| BetaSwitch.PowerSettingRoundTrip | custom_components/home_connect_beta/switch.py:103-160 | after turning on the switch reads on, after turning off it reads off, whatever the operation state |
| BetaSwitch.SetupDevice | custom_components/home_connect_beta/switch.py:29-33 | one program switch per record, in order, and one power switch |
| BetaSwitch.SetupEntry | custom_components/home_connect_beta/switch.py:22-36 | per device, its program switches and then its power switch; one power switch per device |
| BetaBinarySensor.Reading | custom_components/home_connect_beta/binary_sensor.py:50-61 | on exactly when the value is in the on list; off exactly when it is in the off list and not the on list; unknown otherwise |
| BetaBinarySensor.NoneInOnlyIfListed | custom_components/home_connect_beta/binary_sensor.py:52-56 | None is in a list, by Python's `in`, only when None is listed |
| BetaBinarySensor.MissingKeyUnknown | custom_components/home_connect_beta/binary_sensor.py:59-60 | a missing key reads as unknown unless None itself is listed |
| BetaBinarySensor.StringStatesExact | custom_components/home_connect_beta/binary_sensor.py:55-58 | with string lists the test is plain membership, and a value on both lists reads as on |
| BetaBinarySensor.BinarySensor.constructor | custom_components/home_connect_beta/binary_sensor.py:31-37 | keeps description, device class and states; the state is unknown |
| BetaBinarySensor.BinarySensor.IsOn | custom_components/home_connect_beta/binary_sensor.py:40-43 | on exactly when the state is True |
| BetaBinarySensor.BinarySensor.Available | custom_components/home_connect_beta/binary_sensor.py:45-48 | available exactly when the state is known |
| BetaBinarySensor.BinarySensor.Update | custom_components/home_connect_beta/binary_sensor.py:50-61 | the reading of the status against the sensor's lists |
| BetaBinarySensor.SetupEntry | custom_components/home_connect_beta/binary_sensor.py:12-25 | the door descriptor has no `states`, so setup raises TypeError exactly when some device has a door descriptor, and otherwise adds nothing |
| BetaBinarySensor.DoorDeviceBreaksSetup | custom_components/home_connect_beta/api.py:164-173 | every device of a door class has a door descriptor |
| BetaSensor.Shown | custom_components/home_connect_beta/sensor.py:76-77 | a None value is no state; any other value is shown as it is |
| BetaSensor.Seconds | custom_components/home_connect_beta/sensor.py:71-75 | `float(value)`: numbers and booleans convert; None raises TypeError; in this model every string raises ValueError, a simplification listed under Left out |
| BetaSensor.Next | custom_components/home_connect_beta/sensor.py:54-83 | missing key gives None; a timestamp without value gives None; a passed forward end gives None without recomputing; otherwise now + sign × value; other sensors show the value, the operation state only its last segment |
| BetaSensor.TimestampNeverPlain | custom_components/home_connect_beta/sensor.py:59-75 | a timestamp sensor only ever shows nothing or a moment |
| BetaSensor.EndNotInPast | custom_components/home_connect_beta/sensor.py:71-75 | a non-negative remaining time, counted forward, ends no earlier than now |
| BetaSensor.PassedEndFlips | custom_components/home_connect_beta/sensor.py:63-75 | with an unchanged remaining time, a passed end is cleared on one update and set again on the next |
| BetaSensor.PlainIgnoresBefore | custom_components/home_connect_beta/sensor.py:76-82 | sensors other than timestamps depend neither on the previous state nor on the time |
| BetaSensor.OperationStateShortened | custom_components/home_connect_beta/sensor.py:78-82 | the operation-state sensor shows a text without dots |
| BetaSensor.Sensor.constructor | custom_components/home_connect_beta/sensor.py:34-42 | keeps description, key, unit, icon, device class and sign, which the unit, icon and device-class properties return; the state is None |
| BetaSensor.Sensor.Available | custom_components/home_connect_beta/sensor.py:49-52 | available exactly when the state is not None |
| BetaSensor.Sensor.Update | custom_components/home_connect_beta/sensor.py:54-83 | the new state and the raised error are those of the update function |
| BetaSensor.SetupDevice | custom_components/home_connect_beta/sensor.py:19-27 | one sensor per descriptor, in order, with the descriptor's fields |
| BetaSensor.SetupEntry | custom_components/home_connect_beta/sensor.py:16-28 | every sensor descriptor of every device becomes a sensor, in order |
| BetaLight.LightReading | custom_components/home_connect_beta/light.py:73-85 | a value equal to True gives on, equal to False gives off, anything else keeps the previous state |
| BetaLight.LightValues | custom_components/home_connect_beta/light.py:75-84 | True and 1 switch on, False and 0 switch off, a missing setting changes nothing |
| BetaLight.LightReadingIdempotent | custom_components/home_connect_beta/light.py:73-85 | updating twice from one status is updating once |
| BetaLight.Light.constructor | custom_components/home_connect_beta/light.py:39-42 | keeps the description; the state is unknown |
| BetaLight.Light.WithAmbient | custom_components/home_connect_beta/api.py:176-197 | not a constructor of the source (`__init__` takes only device and desc): the constructor the corrected setup of the Findings row needs, which also keeps the descriptor's ambient entry |
| BetaLight.Light.IsOn | custom_components/home_connect_beta/light.py:44-47 | on exactly when the state is True |
| BetaLight.Light.TurnOn | custom_components/home_connect_beta/light.py:49-59 | writes True to the lighting setting; a HomeConnectError leaves the light off |
| BetaLight.Light.TurnOff | custom_components/home_connect_beta/light.py:61-71 | writes False; a HomeConnectError leaves the light on |
| BetaLight.Light.Update | custom_components/home_connect_beta/light.py:73-85 | the light reading of the lighting setting |
| BetaLight.LightSettingRoundTrip | custom_components/home_connect_beta/light.py:49-85 | once the appliance takes the setting a call sends, the next update shows that setting |
| BetaLight.SetupEntry | custom_components/home_connect_beta/light.py:18-33 | the light descriptors carry "ambient", so setup raises TypeError exactly when some device has a light descriptor, and otherwise adds nothing |
| BetaLight.LightDeviceBreaksSetup | custom_components/home_connect_beta/api.py:317-328 | every dishwasher and every hood has a light descriptor |
| BetaLight.SetupDeviceIntended | custom_components/home_connect_beta/light.py:21-29 | one light per descriptor, in order, keeping its ambient entry |
| BetaLight.SetupEntryIntended | custom_components/home_connect_beta/light.py:18-33 | every light descriptor of every device becomes a light, in order |
| BetaInit.FindInDevicesFirst | custom_components/home_connect_beta/__init__.py:76-80 | within one entry, nothing is found exactly when no device lists the id; otherwise the first such device's appliance |
| BetaInit.FindInDevicesAt | custom_components/home_connect_beta/__init__.py:76-80 | the first device, in order, whose entities include the id gives the appliance found |
| BetaInit.FindFirstEntry | custom_components/home_connect_beta/__init__.py:75-80 | the first entry with a listing device gives what is found: later entries are not looked at |
| BetaInit.ScanDevices | custom_components/home_connect_beta/__init__.py:76-80 | the device and entity loops over one entry return the appliance of its first device that lists the id, and None when none does |
| BetaInit.FindNone | custom_components/home_connect_beta/__init__.py:81-82 | nothing is found exactly when no device of any entry lists the id |
| BetaInit.FindFirst | custom_components/home_connect_beta/__init__.py:75-80 | what is found is the appliance of a listing device, and no device earlier in entry-then-device order lists the id |
| BetaInit.Store | custom_components/home_connect_beta/__init__.py:190 | the key maps to the new value, every other key keeps its value, and keys stay unique |
| BetaInit.Remove | custom_components/home_connect_beta/__init__.py:213 | the key is gone, every other key keeps its value, and keys stay unique |
| BetaInit.RemoveMissing | custom_components/home_connect_beta/__init__.py:212-213 | removing a key that is not there changes nothing |
| BetaInit.StoreThenRemove | custom_components/home_connect_beta/__init__.py:190-213 | setting an entry up and unloading it leaves the store without that key, as before |
| BetaInit.ServiceName | custom_components/home_connect_beta/__init__.py:154-177 | every handled call belongs to a registered service |
| BetaInit.ServicesRouteApart | custom_components/home_connect_beta/__init__.py:130-152 | different services never make the same vendor call |
| BetaInit.CallForInjective | custom_components/home_connect_beta/__init__.py:104-152 | for one entity, the vendor call determines the service call: each handler passes its own arguments through |
| BetaInit.Hass.constructor | custom_components/home_connect_beta/__init__.py:87 | the store starts empty |
| BetaInit.Hass.GetApplianceByEntityId | custom_components/home_connect_beta/__init__.py:71-82 | the entry loop returns the first entry's hit, entry by entry, and None when no device of any entry lists the id |
| BetaInit.Hass.HandleService | custom_components/home_connect_beta/__init__.py:104-152 | no call at all when no device lists the entity; otherwise the routed call on the found appliance |
| BetaInit.Hass.AsyncSetup | custom_components/home_connect_beta/__init__.py:85-179 | the store is reset; without the domain in the configuration no service is registered; with it, all six in order; returns True |
| BetaInit.Hass.AsyncSetupEntry | custom_components/home_connect_beta/__init__.py:182-199 | the entry's API object is stored under the entry id |
| BetaInit.Hass.AsyncUnloadEntry | custom_components/home_connect_beta/__init__.py:202-215 | the result is the conjunction of the platform results; the entry is removed only when it is true (KeyError if it was not stored) |

## Left out

- OAuth2 and token handling, the configuration flow, the configurator and `CONFIG_SCHEMA`/service schemas: external I/O and host wiring.
- The vendor library's calls (`get_appliances`, `get_status`, `get_settings`, `get_programs_active`, `start_program`, `set_setting`, `execute_command`, `listen_events`). They are not modelled as behaviour. A method returns the call it makes, and the error such a call raises is a parameter; the one exception is the old variant's device constructor, below. The appliance's `activeProgram` field stands for the answer of `get_programs_active` when it returns.
- Host-platform wiring is not modelled: `async_add_executor_job`, `async_add_entities`, the dispatcher itself, `async_schedule_update_ha_state`, `Throttle`/`update_all_devices`, `asyncio.gather`, forwarding to the platforms, and logging. Entity refreshes appear only as a `refresh` flag or as the list of entities asked.
- `time.sleep` inside `retry` has no effect on the model's results, so it is left out.
- OldInit.Device.constructor: the two-attempt retries of `get_status` and `get_programs_active` are folded into the appliance's `activeProgram` field. An exception other than HomeConnectError or ValueError escaping them is not modelled.
- BetaSensor.Next: times are whole seconds on one clock; both `utcnow()` calls of an update are the same `now`; `parse_datetime`, `timedelta` and ISO formatting are left out; see the BetaSensor.Seconds line for `float()`.
- BetaSensor.Seconds: `float()` of a numeric string such as "12" gives a number in the source, but the model raises ValueError for every string; numeric strings are not parsed.
- MiddleSwitch.ConvertToSnake: `lower()` is modelled for ASCII capitals only.
- `PROGRAM_NAMES` and `PROGRAM_OPTIONS` of the constants modules: no modelled file uses them.
- BetaBinarySensor.BinarySensor.constructor: the `states` dict is a datatype that always has its three entries, so a `states` without "key", "on" or "off" (a KeyError in the source) is not modelled.
- The `**d` construction of entities from descriptor dicts is modelled only through its outcome. Where an argument is missing or unexpected (middle and beta door sensors, beta lights), setup raises TypeError, as `MiddleBinarySensor.SetupEntry`, `BetaBinarySensor.SetupEntry` and `BetaLight.SetupEntry` state. The setup methods that succeed build the entities from the record fields.
- Beta `HomeConnectDevice.entities` is never filled by any modelled file. The entity-id lookup therefore finds nothing in practice; `BetaInit` models it over whatever the lists hold.
- BetaInit.Hass.AsyncUnloadEntry: the platforms' unload results are a parameter.
- BetaInit.Hass.HandleService: schema validation and the coercion of service data are left out.
- Entity ids are assigned by the host; the lookup sees each device's entity ids as a list of strings.
- BetaSwitch.ProgramDesc, BetaApi.GetEntityInfo, MiddleApi.GetEntities and the `Programs` tables carry no `ensures` of their own. Their facts are proved in the lemmas named in the table, because literal-heavy bodies are expensive to check as contracts.

## Findings

| source | as written | input that shows it | evidently intended | confidence | as-written member | corrected member |
|---|---|---|---|---|---|---|
| custom_components/homeconnect/switch.py:131-137 | `turn_off` reads `self.device._power_off_state`, but the middle devices define only `power_off_state` (custom_components/homeconnect/api.py:79) | any power switch's `turn_off` raises AttributeError before any appliance call | write the device class's `power_off_state` | not executed | MiddleSwitch.PowerSwitch.TurnOffAsWritten | MiddleSwitch.PowerSwitch.TurnOff |
| custom_components/switch/homeconnect.py:97-99 | the parenthesis closes after `A == On or B`, so `(True or B) == On` is compared | status `{"BSH.Common.Setting.PowerState": {"value": "BSH.Common.Setting.PowerState.On"}}` reads off | on when either value reads On | not executed | OldSwitch.OnSettingReadsOff | OldSwitch.PowerOnIntended |
| custom_components/home_connect_beta/light.py:39 | `HomeConnectLight(**d)` gets the descriptor's "ambient" entry, which `__init__(device, desc)` does not take | any Dishwasher or Hood appliance: light setup raises TypeError and no light is added | a light per descriptor that keeps its ambient entry | not executed | BetaLight.SetupEntry | BetaLight.SetupEntryIntended |

The door descriptors of the middle variant (no `key`) and of the beta variant
(no `states`) also make their platforms' setup raise a TypeError. They have
no row above because the source does not say which key or which state lists
were meant. `MiddleBinarySensor.SetupEntry` and `BetaBinarySensor.SetupEntry`
model them as written.

Two washer-dryer programs, "LaundryCare.Washer.Program.Cotton" and
"LaundryCare.Dryer.Program.Cotton", both get the description "Program Cotton".
Their switches therefore share one unique id (`BetaSwitch.WasherDryerCottonIdsCollide`).
