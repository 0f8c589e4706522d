/**
 * Values shared by the three variants of the Home Connect integration:
 * the appliance status as the vendor library keeps it, Python equality on
 * status values, the small string helpers the entity code uses, and the
 * appliance object the vendor library hands out.
 */
module Common {

  datatype Option<+T> = None | Some(value: T)

  /** A status value as it arrives from the vendor's JSON: a string, a
      boolean, a number (integers only here) or JSON null / Python None. */
  datatype Value = Str(s: string) | Bool(b: bool) | Num(n: int) | NoneV

  /** One status entry, e.g. {"value": "BSH.Common.EnumType.DoorState.Open"}. */
  type Entry = map<string, Value>

  /** `appliance.status`: status or setting key -> entry. */
  type Status = map<string, Entry>

  /** The dict returned by `get_programs_active()`. */
  type ProgramInfo = map<string, Value>

  /** Python's `==` between two status values: booleans compare equal to the
      integers 1 and 0, values of unrelated types are never equal. */
  predicate PyEq(a: Value, b: Value)
  {
    match (a, b)
    case (Str(x), Str(y)) => x == y
    case (Bool(x), Bool(y)) => x == y
    case (Num(x), Num(y)) => x == y
    case (Bool(x), Num(y)) => y == (if x then 1 else 0)
    case (Num(x), Bool(y)) => x == (if y then 1 else 0)
    case (NoneV, NoneV) => true
    case _ => false
  }

  /** Python's `v in xs` for a list. */
  predicate PyIn(v: Value, xs: seq<Value>)
  {
    exists i :: 0 <= i < |xs| && PyEq(v, xs[i])
  }

  lemma PyEqStr(v: Value, s: string)
    ensures PyEq(v, Str(s)) <==> v == Str(s)
  {
  }

  /** Among strings, Python's `in` is plain membership. */
  lemma PyInStrings(v: Value, xs: seq<Value>)
    requires forall i :: 0 <= i < |xs| ==> xs[i].Str?
    ensures PyIn(v, xs) <==> v in xs
  {
    if v in xs {
      var i :| 0 <= i < |xs| && xs[i] == v;
      assert PyEq(v, xs[i]);
    }
  }

  /** `status.get(key, {})` */
  function EntryAt(status: Status, key: string): Entry
  {
    if key in status then status[key] else map[]
  }

  /** `entry.get("value", None)` */
  function ValueIn(entry: Entry): Value
  {
    if "value" in entry then entry["value"] else NoneV
  }

  /** `status.get(key, {}).get("value", None)` */
  function ValueAt(status: Status, key: string): (v: Value)
    ensures key !in status ==> v == NoneV
    ensures key in status && "value" in status[key] ==> v == status[key]["value"]
  {
    ValueIn(EntryAt(status, key))
  }

  /** Python's `bool(x)` for an entity's `_state` that holds True, False or None. */
  predicate Truthy(state: Option<bool>)
  {
    state == Some(true)
  }

  // ---------------------------------------------------------------------------
  // String helpers

  /** `s.split(".")[-1]`: the text after the last dot, or all of `s`. */
  function LastSegment(s: string): (r: string)
    ensures '.' !in r
  {
    if s == [] then []
    else if s[|s| - 1] == '.' then []
    else LastSegment(s[..|s| - 1]) + [s[|s| - 1]]
  }

  /** The last segment is what follows the last dot: a suffix of the
      text, preceded by a dot whenever it is shorter than the text. */
  lemma {:induction false} LastSegmentIsSuffix(s: string)
    ensures |LastSegment(s)| <= |s| && LastSegment(s) == s[|s| - |LastSegment(s)|..]
    ensures |LastSegment(s)| < |s| ==> s[|s| - |LastSegment(s)| - 1] == '.'
  {
    if s != [] && s[|s| - 1] != '.' {
      var t := s[..|s| - 1];
      LastSegmentIsSuffix(t);
      var n := |LastSegment(t)|;
      assert LastSegment(s) == t[|t| - n..] + [s[|s| - 1]];
      assert s[|s| - (n + 1)..] == t[|t| - n..] + [s[|s| - 1]];
      if n < |t| {
        assert s[|s| - (n + 1) - 1] == t[|t| - n - 1];
      }
    }
  }

  /** A text without dots is its own last segment. */
  lemma {:induction false} LastSegmentNoDot(s: string)
    requires '.' !in s
    ensures LastSegment(s) == s
  {
    if s != [] {
      assert s[|s| - 1] in s;
      assert s == s[..|s| - 1] + [s[|s| - 1]];
      LastSegmentNoDot(s[..|s| - 1]);
    }
  }

  /** The last segment only depends on what follows the last dot. */
  lemma {:induction false} LastSegmentAfterDot(p: string, w: string)
    ensures LastSegment(p + "." + w) == LastSegment(w)
  {
    if w == [] {
      assert (p + "." + w)[|p + "." + w| - 1] == '.';
    } else {
      var s := p + "." + w;
      assert s[..|s| - 1] == p + "." + w[..|w| - 1];
      assert s[|s| - 1] == w[|w| - 1];
      LastSegmentAfterDot(p, w[..|w| - 1]);
    }
  }

  /** `s.replace(" ", "")` */
  function RemoveSpaces(s: string): (r: string)
    ensures ' ' !in r
    ensures |r| <= |s|
  {
    if s == [] then []
    else if s[0] == ' ' then RemoveSpaces(s[1..])
    else [s[0]] + RemoveSpaces(s[1..])
  }

  lemma {:induction false} RemoveSpacesAppend(a: string, b: string)
    ensures RemoveSpaces(a + b) == RemoveSpaces(a) + RemoveSpaces(b)
  {
    if a == [] {
      assert a + b == b;
    } else {
      assert (a + b)[1..] == a[1..] + b;
      RemoveSpacesAppend(a[1..], b);
    }
  }

  lemma {:induction false} RemoveSpacesKeeps(a: string)
    requires ' ' !in a
    ensures RemoveSpaces(a) == a
  {
    if a != [] {
      RemoveSpacesKeeps(a[1..]);
    }
  }

  /** Removing the spaces from a word, a space and a text. */
  lemma {:induction false} RemoveSpacesJoined(a: string, b: string)
    requires ' ' !in a
    ensures RemoveSpaces(a + " " + b) == a + RemoveSpaces(b)
  {
    var sp: string := [' '];
    assert RemoveSpaces(sp) == [] by {
      assert sp[1..] == [];
    }
    RemoveSpacesAppend(a + sp, b);
    RemoveSpacesAppend(a, sp);
    RemoveSpacesKeeps(a);
  }

  /** Words joined by single spaces: a sensor name such as "Program Progress". */
  function JoinWords(ws: seq<string>): string
  {
    if ws == [] then [] else if |ws| == 1 then ws[0] else ws[0] + " " + JoinWords(ws[1..])
  }

  /** The words run together: "ProgramProgress". */
  function ConcatWords(ws: seq<string>): string
  {
    if ws == [] then [] else ws[0] + ConcatWords(ws[1..])
  }

  /** Three words joined by spaces, and run together. */
  lemma ThreeWords(a: string, b: string, c: string)
    ensures JoinWords([a, b, c]) == a + " " + b + " " + c
    ensures ConcatWords([a, b, c]) == a + b + c
  {
    assert [a, b, c][1..] == [b, c];
    TwoWords(b, c);
  }

  /** Two words joined by a space, and run together. */
  lemma TwoWords(a: string, b: string)
    ensures JoinWords([a, b]) == a + " " + b
    ensures ConcatWords([a, b]) == a + b
  {
    assert [a, b][1..] == [b];
    assert [b][1..] == [];
    assert ConcatWords([b]) == b + ConcatWords([]);
  }

  /** The words of the remaining-time sensor, spelled out. */
  lemma RemainingProgramTimeWords()
    ensures JoinWords(["Remaining", "Program", "Time"]) == "Remaining Program Time"
    ensures ConcatWords(["Remaining", "Program", "Time"]) == "RemainingProgramTime"
  {
    ThreeWords("Remaining", "Program", "Time");
  }

  /** The words of the elapsed-time sensor, spelled out. */
  lemma ElapsedProgramTimeWords()
    ensures JoinWords(["Elapsed", "Program", "Time"]) == "Elapsed Program Time"
    ensures ConcatWords(["Elapsed", "Program", "Time"]) == "ElapsedProgramTime"
  {
    ThreeWords("Elapsed", "Program", "Time");
  }

  /** The words of the progress sensor, spelled out. */
  lemma ProgramProgressWords()
    ensures JoinWords(["Program", "Progress"]) == "Program Progress"
    ensures ConcatWords(["Program", "Progress"]) == "ProgramProgress"
  {
    TwoWords("Program", "Progress");
  }

  /** Removing the spaces from words joined by spaces runs the words together. */
  lemma {:induction false} RemoveSpacesJoinWords(ws: seq<string>)
    requires forall i :: 0 <= i < |ws| ==> ' ' !in ws[i]
    ensures RemoveSpaces(JoinWords(ws)) == ConcatWords(ws)
  {
    if ws == [] {
    } else if |ws| == 1 {
      RemoveSpacesKeeps(ws[0]);
      assert ConcatWords(ws[1..]) == [];
    } else {
      RemoveSpacesJoinWords(ws[1..]);
      RemoveSpacesJoined(ws[0], JoinWords(ws[1..]));
    }
  }

  /** `prefix + sep + a` determines `a`: used for names and unique ids. */
  lemma JoinedSuffixDetermined(prefix: string, sep: string, a: string, b: string)
    requires prefix + sep + a == prefix + sep + b
    ensures a == b
  {
    var n := |prefix + sep|;
    assert a == (prefix + sep + a)[n..];
    assert b == (prefix + sep + b)[n..];
  }

  /** The lists of a list of lists, one after the other. */
  function Flat<T>(blocks: seq<seq<T>>): seq<T>
  {
    if blocks == [] then [] else Flat(blocks[..|blocks| - 1]) + blocks[|blocks| - 1]
  }

  // ---------------------------------------------------------------------------
  // The vendor library, seen from the integration

  /** Exceptions that the modelled code raises, catches or lets through. */
  datatype Exc = ValueError | HomeConnectError | TypeError | AttributeError | KeyError | OtherError

  /** The outcome of one call that may raise. */
  datatype Outcome<+T> = Done(value: T) | Raised(exc: Exc)

  /** Calls the integration makes on an appliance object of the vendor library. */
  datatype ApplianceCall =
    | StartProgram(program: string)
    | StopProgram
    | SelectProgram(selected: string)
    | SetSetting(key: string, setting: Value)
    | SetOptionsActiveProgram(optionKey: string, optionValue: string)
    | SetOptionsSelectedProgram(selectedKey: string, selectedValue: string)
    | ExecuteCommand(command: string)
    | GetStatus

  /** The appliance types the vendor reports that some variant handles. */
  datatype Archetype =
    Dryer | Washer | WasherDryer | Dishwasher | FridgeFreezer | Oven | CoffeeMaker | Hood | Hob

  /** The vendor's `type` string for each archetype. */
  function TypeName(a: Archetype): string
  {
    match a
    case Dryer => "Dryer"
    case Washer => "Washer"
    case WasherDryer => "WasherDryer"
    case Dishwasher => "Dishwasher"
    case FridgeFreezer => "FridgeFreezer"
    case Oven => "Oven"
    case CoffeeMaker => "CoffeeMaker"
    case Hood => "Hood"
    case Hob => "Hob"
  }

  /**
   * An appliance object of the vendor library. Its identity and metadata are
   * fixed; its status map is refreshed by the library and written by the
   * integration. `activeProgram` is what `get_programs_active()` answers
   * when it returns; the old variant folds a failed fetch into None, the
   * later variants' `initialize` takes the error it raises as a parameter.
   */
  class Appliance {
    const haId: string
    const name: string
    const kind: string
    const brand: string
    const vib: string
    const activeProgram: Option<ProgramInfo>
    var status: Status

    constructor (haId: string, name: string, kind: string, brand: string, vib: string,
                 activeProgram: Option<ProgramInfo>, status: Status)
      ensures this.haId == haId && this.name == name && this.kind == kind
      ensures this.brand == brand && this.vib == vib
      ensures this.activeProgram == activeProgram && this.status == status
    {
      this.haId, this.name, this.kind, this.brand, this.vib := haId, name, kind, brand, vib;
      this.activeProgram, this.status := activeProgram, status;
    }
  }

  // ---------------------------------------------------------------------------
  // Status logic shared by every variant

  const ACTIVE_PROGRAM: string := "BSH.Common.Root.ActiveProgram"

  /** A program switch reads as on exactly when the active program's value
      is its program name (a missing entry reads as None, so off). */
  predicate ProgramActive(status: Status, programName: string)
  {
    ValueAt(status, ACTIVE_PROGRAM) == Str(programName)
  }

  lemma ProgramActiveMissing(status: Status, programName: string)
    requires ACTIVE_PROGRAM !in status
    ensures !ProgramActive(status, programName)
  {
  }

  /** `program_active and "key" in program_active` */
  predicate HasActiveKey(programActive: Option<ProgramInfo>)
  {
    programActive.Some? && "key" in programActive.value
  }

  /** The status after `status[ActiveProgram] = {"value": program_active["key"]}`
      has been done when the fetched program has a key, and skipped otherwise. */
  function InjectActiveProgram(status: Status, programActive: Option<ProgramInfo>): (r: Status)
    ensures r.Keys == if HasActiveKey(programActive) then status.Keys + {ACTIVE_PROGRAM} else status.Keys
    ensures forall k :: k in status && k != ACTIVE_PROGRAM ==> r[k] == status[k]
    ensures HasActiveKey(programActive) ==> r[ACTIVE_PROGRAM] == map["value" := programActive.value["key"]]
    ensures !HasActiveKey(programActive) ==> r == status
  {
    if HasActiveKey(programActive) then
      status[ACTIVE_PROGRAM := map["value" := programActive.value["key"]]]
    else
      status
  }

  /** After injection, every program switch reads its own name against the
      fetched key: the switch of that program is on and every other is off. */
  lemma InjectedProgramIsActive(status: Status, programActive: Option<ProgramInfo>, programName: string)
    requires HasActiveKey(programActive)
    ensures ProgramActive(InjectActiveProgram(status, programActive), programName)
            <==> programActive.value["key"] == Str(programName)
  {
  }

  /** Injecting twice is injecting once. */
  lemma InjectIdempotent(status: Status, programActive: Option<ProgramInfo>)
    ensures InjectActiveProgram(InjectActiveProgram(status, programActive), programActive)
            == InjectActiveProgram(status, programActive)
  {
  }

  /** The errors the three guarded fetches of `initialize` (`get_status`,
      `get_settings`, `get_programs_active`) catch. */
  const FETCH_CAUGHT: set<Exc> := {HomeConnectError, ValueError}

  /** What leaves `initialize`'s three try blocks, given the error each fetch
      raises: the first one that is not caught escapes, and the fetches after
      it are not made. */
  function InitializeEscaping(statusError: Option<Exc>, settingsError: Option<Exc>, programsError: Option<Exc>): (r: Option<Exc>)
    ensures r == None <==>
      Escaping(statusError, FETCH_CAUGHT) == None && Escaping(settingsError, FETCH_CAUGHT) == None
      && Escaping(programsError, FETCH_CAUGHT) == None
    ensures Escaping(statusError, FETCH_CAUGHT) != None ==> r == statusError
    ensures Escaping(statusError, FETCH_CAUGHT) == None && Escaping(settingsError, FETCH_CAUGHT) != None ==> r == settingsError
    ensures r != None ==> r.value !in FETCH_CAUGHT
  {
    if Escaping(statusError, FETCH_CAUGHT).Some? then statusError
    else if Escaping(settingsError, FETCH_CAUGHT).Some? then settingsError
    else Escaping(programsError, FETCH_CAUGHT)
  }

  /** `program_active` after its try block: the appliance's answer when
      `get_programs_active` returned, None when it raised a caught error. */
  function FetchedProgram(answer: Option<ProgramInfo>, programsError: Option<Exc>): (r: Option<ProgramInfo>)
    ensures programsError == None ==> r == answer
    ensures programsError != None ==> r == None
  {
    if programsError.Some? then None else answer
  }

  /** A failed program fetch never injects: the status is kept as it was. */
  lemma FailedProgramFetchKeepsStatus(status: Status, answer: Option<ProgramInfo>, programsError: Option<Exc>)
    requires programsError != None
    ensures InjectActiveProgram(status, FetchedProgram(answer, programsError)) == status
  {
  }

  // ---------------------------------------------------------------------------
  // Power state

  const POWER_STATE: string := "BSH.Common.Setting.PowerState"
  const POWER_ON: string := "BSH.Common.EnumType.PowerState.On"
  const POWER_OFF: string := "BSH.Common.EnumType.PowerState.Off"
  const POWER_STANDBY: string := "BSH.Common.EnumType.PowerState.Standby"
  const OPERATION_STATE: string := "BSH.Common.Status.OperationState"
  const INACTIVE: string := "BSH.Common.EnumType.OperationState.Inactive"

  /** The operation states in which a power switch reads as on. */
  const RUNNING_STATES: seq<Value> := [
    Str("BSH.Common.EnumType.OperationState.Ready"),
    Str("BSH.Common.EnumType.OperationState.DelayedStart"),
    Str("BSH.Common.EnumType.OperationState.Run"),
    Str("BSH.Common.EnumType.OperationState.Pause"),
    Str("BSH.Common.EnumType.OperationState.ActionRequired"),
    Str("BSH.Common.EnumType.OperationState.Aborting"),
    Str("BSH.Common.EnumType.OperationState.Finished")
  ]

  /** The value a device class writes to switch the appliance off: Standby
      for ovens and coffee makers, Off for every other class. */
  function PowerOffState(a: Archetype): (s: string)
    ensures s == POWER_STANDBY <==> a == Oven || a == CoffeeMaker
    ensures s == POWER_OFF <==> a != Oven && a != CoffeeMaker
  {
    if a == Oven || a == CoffeeMaker then POWER_STANDBY else POWER_OFF
  }

  /** The power switch's priority chain, first match wins: the power setting
      reads On (on), or reads `off` (off); else the operation state is one
      of the running states (on), or is Inactive (off); else unknown. */
  function PowerChain(status: Status, off: string): (r: Option<bool>)
    ensures var ps := ValueAt(status, POWER_STATE);
      var os := ValueAt(status, OPERATION_STATE);
      && (r == Some(true) <==> ps == Str(POWER_ON) || (ps != Str(off) && os in RUNNING_STATES))
      && (r == Some(false) <==> ps != Str(POWER_ON) && (ps == Str(off) || (os !in RUNNING_STATES && os == Str(INACTIVE))))
      && (r == None <==> ps != Str(POWER_ON) && ps != Str(off) && os !in RUNNING_STATES && os != Str(INACTIVE))
  {
    var ps := ValueAt(status, POWER_STATE);
    var os := ValueAt(status, OPERATION_STATE);
    PyInStrings(os, RUNNING_STATES);
    if PyEq(ps, Str(POWER_ON)) then Some(true)
    else if PyEq(ps, Str(off)) then Some(false)
    else if PyIn(os, RUNNING_STATES) then Some(true)
    else if PyEq(os, Str(INACTIVE)) then Some(false)
    else None
  }

  // ---------------------------------------------------------------------------
  // Entity descriptors of the old and middle variants

  /** `{'device': d, 'name': ..., 'device_class': ...}` for the door sensor. */
  datatype DoorInfo = DoorInfo(name: string, deviceClass: string)

  /** `{'device': d, 'program_name': ...}` for a program switch. */
  datatype SwitchInfo = SwitchInfo(programName: string)

  /** `{'device': d, 'name': ..., 'unit': ..., 'key': ...}` for a program sensor. */
  datatype SensorInfo = SensorInfo(name: string, unit: string, key: string)

  /** The dict returned by `get_entities`, by platform; a platform the dict
      leaves out is an empty list, which is how every platform reads it. */
  datatype Entities = Entities(binarySensor: seq<DoorInfo>, switch: seq<SwitchInfo>, sensor: seq<SensorInfo>)

  const OPTION_PREFIX: string := "BSH.Common.Option."

  /** Program names under a common key prefix. */
  function Prefixed(prefix: string, names: seq<string>): (r: seq<string>)
    ensures |r| == |names| && forall i :: 0 <= i < |r| ==> r[i] == prefix + names[i]
  {
    seq(|names|, i requires 0 <= i < |names| => prefix + names[i])
  }

  /** `get_program_switches`: one record per program, in order. */
  function ProgramSwitches(programs: seq<string>): (r: seq<SwitchInfo>)
    ensures |r| == |programs|
    ensures forall i :: 0 <= i < |r| ==> r[i].programName == programs[i]
  {
    seq(|programs|, i requires 0 <= i < |programs| => SwitchInfo(programs[i]))
  }

  /** `get_program_sensors` over a table of (name, unit) entries in dict
      order, each name given by its words: the sensor is named after the
      appliance and keyed by its name run together. */
  function SensorsFrom(table: seq<(seq<string>, string)>, applianceName: string): (r: seq<SensorInfo>)
    ensures |r| == |table|
    ensures forall i :: 0 <= i < |r| ==>
      r[i].name == applianceName + " " + JoinWords(table[i].0) && r[i].unit == table[i].1
  {
    seq(|table|, i requires 0 <= i < |table| =>
      SensorInfo(applianceName + " " + JoinWords(table[i].0), table[i].1, OPTION_PREFIX + ConcatWords(table[i].0)))
  }

  /** Each sensor key is the option prefix followed by the sensor's name
      with its spaces removed. */
  lemma SensorKeys(table: seq<(seq<string>, string)>, applianceName: string)
    requires forall i, j :: 0 <= i < |table| && 0 <= j < |table[i].0| ==> ' ' !in table[i].0[j]
    ensures forall i :: 0 <= i < |table| ==>
      SensorsFrom(table, applianceName)[i].key == OPTION_PREFIX + RemoveSpaces(JoinWords(table[i].0))
  {
    forall i | 0 <= i < |table|
      ensures SensorsFrom(table, applianceName)[i].key == OPTION_PREFIX + RemoveSpaces(JoinWords(table[i].0))
    {
      RemoveSpacesJoinWords(table[i].0);
    }
  }

  /** `get_door_entity` */
  function DoorEntity(applianceName: string): (d: DoorInfo)
    ensures d.name == applianceName + " Door" && d.deviceClass == "door"
  {
    DoorInfo(applianceName + " Door", "door")
  }

  /** A program switch's name: the appliance name, "Program", and the text
      after the program key's last dot. */
  function ProgramSwitchName(applianceName: string, programName: string): string
  {
    applianceName + " Program " + LastSegment(programName)
  }

  /** Two program switches of one appliance share a name exactly when their
      programs end in the same segment. */
  lemma ProgramSwitchNameUnique(applianceName: string, p: string, q: string)
    ensures ProgramSwitchName(applianceName, p) == ProgramSwitchName(applianceName, q)
            <==> LastSegment(p) == LastSegment(q)
  {
    if ProgramSwitchName(applianceName, p) == ProgramSwitchName(applianceName, q) {
      JoinedSuffixDetermined(applianceName, " Program ", LastSegment(p), LastSegment(q));
    }
  }

  // ---------------------------------------------------------------------------
  // Classification shared by every variant's `get_devices`

  /** The appliances a classifier keeps, each with its archetype, in order. */
  function Recognised(apps: seq<Appliance>, classify: string -> Option<Archetype>): (r: seq<(Appliance, Archetype)>)
    ensures |r| <= |apps|
  {
    if apps == [] then []
    else
      var last := apps[|apps| - 1];
      Recognised(apps[..|apps| - 1], classify)
        + match classify(last.kind) case Some(a) => [(last, a)] case None => []
  }

  /** Classification distributes over concatenation, so the kept appliances
      keep the order of the input. */
  lemma {:induction false} RecognisedAppend(xs: seq<Appliance>, ys: seq<Appliance>, classify: string -> Option<Archetype>)
    ensures Recognised(xs + ys, classify) == Recognised(xs, classify) + Recognised(ys, classify)
  {
    if ys == [] {
      assert xs + ys == xs;
    } else {
      assert (xs + ys)[..|xs + ys| - 1] == xs + ys[..|ys| - 1];
      RecognisedAppend(xs, ys[..|ys| - 1], classify);
    }
  }

  /** Extending the scanned prefix by one appliance adds it when it is classified. */
  lemma RecognisedStep(apps: seq<Appliance>, i: nat, classify: string -> Option<Archetype>)
    requires i < |apps|
    ensures Recognised(apps[..i + 1], classify)
            == Recognised(apps[..i], classify)
               + match classify(apps[i].kind) case Some(a) => [(apps[i], a)] case None => []
  {
    assert apps[..i + 1][..i] == apps[..i];
  }

  /** An appliance is kept, with archetype `a`, exactly when it is in the
      input and the classifier maps its type to `a`. */
  lemma {:induction false} RecognisedMembers(apps: seq<Appliance>, classify: string -> Option<Archetype>, x: Appliance, a: Archetype)
    ensures (x, a) in Recognised(apps, classify) <==> x in apps && classify(x.kind) == Some(a)
  {
    if apps != [] {
      var init := apps[..|apps| - 1];
      RecognisedMembers(init, classify, x, a);
      assert apps == init + [apps[|apps| - 1]];
    }
  }

  /** Every kept appliance is in the input, and every input appliance whose
      type is classified is kept. */
  lemma RecognisedKeepsExactly(apps: seq<Appliance>, classify: string -> Option<Archetype>)
    ensures forall i :: 0 <= i < |Recognised(apps, classify)| ==>
      Recognised(apps, classify)[i].0 in apps
      && classify(Recognised(apps, classify)[i].0.kind) == Some(Recognised(apps, classify)[i].1)
    ensures forall x :: x in apps && classify(x.kind).Some? ==> (x, classify(x.kind).value) in Recognised(apps, classify)
  {
    forall i | 0 <= i < |Recognised(apps, classify)|
      ensures Recognised(apps, classify)[i].0 in apps
      ensures classify(Recognised(apps, classify)[i].0.kind) == Some(Recognised(apps, classify)[i].1)
    {
      var p := Recognised(apps, classify)[i];
      RecognisedMembers(apps, classify, p.0, p.1);
    }
    forall x | x in apps && classify(x.kind).Some?
      ensures (x, classify(x.kind).value) in Recognised(apps, classify)
    {
      RecognisedMembers(apps, classify, x, classify(x.kind).value);
    }
  }

  // ---------------------------------------------------------------------------
  // Errors around vendor calls

  /** What leaves a `try` block whose call raised `error` (None: no error)
      when its `except` clause names the exceptions in `caught`. */
  function Escaping(error: Option<Exc>, caught: set<Exc>): (r: Option<Exc>)
    ensures r == None <==> error == None || error.value in caught
    ensures r != None ==> r == error
  {
    if error.Some? && error.value !in caught then error else None
  }

  // ---------------------------------------------------------------------------
  // Door states and sensor icons of the old and middle variants

  const DOOR_STATE: string := "BSH.Common.Status.DoorState"
  const DOOR_CLOSED: string := "BSH.Common.EnumType.DoorState.Closed"
  const DOOR_LOCKED: string := "BSH.Common.EnumType.DoorState.Locked"
  const DOOR_OPEN: string := "BSH.Common.EnumType.DoorState.Open"

  /** The icon for a sensor unit: a clock for seconds, a progress ring for
      percentages, none otherwise. */
  function IconFor(unit: string): (icon: Option<string>)
    ensures unit == "s" ==> icon == Some("mdi:progress-clock")
    ensures unit == "%" ==> icon == Some("mdi:timelapse")
    ensures unit != "s" && unit != "%" ==> icon == None
  {
    if unit == "s" then Some("mdi:progress-clock")
    else if unit == "%" then Some("mdi:timelapse")
    else None
  }

  // ---------------------------------------------------------------------------
  // Setup of the switch platforms

  /** An entity a switch platform hands to the host. */
  datatype SwitchEntity<P, Q> = PowerEntity(power: P) | ProgramEntity(program: Q)

  /** What a switch platform makes for one device: its power switch and its
      program switches. */
  datatype SwitchBlock<P, Q> = SwitchBlock(power: P, programs: seq<Q>)

  /** The block's entities in the order setup lists them: the power switch
      before the program switches, or after them when `powerFirst` is false. */
  function BlockEntities<P, Q>(b: SwitchBlock<P, Q>, powerFirst: bool): (r: seq<SwitchEntity<P, Q>>)
    ensures |r| == 1 + |b.programs|
    ensures r[if powerFirst then 0 else |b.programs|] == PowerEntity(b.power)
    ensures forall j :: 0 <= j < |b.programs| ==>
      r[if powerFirst then j + 1 else j] == ProgramEntity(b.programs[j])
  {
    var programs := seq(|b.programs|, j requires 0 <= j < |b.programs| => ProgramEntity(b.programs[j]));
    if powerFirst then [PowerEntity(b.power)] + programs else programs + [PowerEntity(b.power)]
  }

  /** The blocks' entities, block after block. */
  function Flatten<P, Q>(blocks: seq<SwitchBlock<P, Q>>, powerFirst: bool): seq<SwitchEntity<P, Q>>
  {
    if blocks == [] then []
    else Flatten(blocks[..|blocks| - 1], powerFirst) + BlockEntities(blocks[|blocks| - 1], powerFirst)
  }

  /** Number of power switches in a list of entities. */
  function PowerCount<P, Q>(es: seq<SwitchEntity<P, Q>>): nat
  {
    if es == [] then 0 else (if es[0].PowerEntity? then 1 else 0) + PowerCount(es[1..])
  }

  lemma {:induction false} PowerCountAppend<P, Q>(a: seq<SwitchEntity<P, Q>>, b: seq<SwitchEntity<P, Q>>)
    ensures PowerCount(a + b) == PowerCount(a) + PowerCount(b)
  {
    if a == [] {
      assert a + b == b;
    } else {
      assert (a + b)[1..] == a[1..] + b;
      PowerCountAppend(a[1..], b);
    }
  }

  lemma {:induction false} NoPowerCounted<P, Q>(es: seq<SwitchEntity<P, Q>>)
    requires forall j :: 0 <= j < |es| ==> es[j].ProgramEntity?
    ensures PowerCount(es) == 0
  {
    if es != [] {
      NoPowerCounted(es[1..]);
    }
  }

  /** A block holds exactly one power switch, whichever end it is at. */
  lemma OnePowerSwitchPerBlock<P, Q>(b: SwitchBlock<P, Q>, powerFirst: bool)
    ensures PowerCount(BlockEntities(b, powerFirst)) == 1
  {
    var es := BlockEntities(b, powerFirst);
    var n := |b.programs|;
    if powerFirst {
      assert es == es[..1] + es[1..];
      NoPowerCounted(es[1..]);
      PowerCountAppend(es[..1], es[1..]);
    } else {
      assert es == es[..n] + es[n..];
      NoPowerCounted(es[..n]);
      PowerCountAppend(es[..n], es[n..]);
    }
  }

  /** Number of program switches over all blocks. */
  function SumPrograms<P, Q>(blocks: seq<SwitchBlock<P, Q>>): nat
  {
    if blocks == [] then 0 else SumPrograms(blocks[..|blocks| - 1]) + |blocks[|blocks| - 1].programs|
  }

  /** Setup lists exactly one power switch per device, and one program
      switch per program record. */
  lemma {:induction false} OnePowerSwitchPerDevice<P, Q>(blocks: seq<SwitchBlock<P, Q>>, powerFirst: bool)
    ensures PowerCount(Flatten(blocks, powerFirst)) == |blocks|
    ensures |Flatten(blocks, powerFirst)| == |blocks| + SumPrograms(blocks)
  {
    if blocks != [] {
      var b := blocks[|blocks| - 1];
      OnePowerSwitchPerDevice(blocks[..|blocks| - 1], powerFirst);
      PowerCountAppend(Flatten(blocks[..|blocks| - 1], powerFirst), BlockEntities(b, powerFirst));
      OnePowerSwitchPerBlock(b, powerFirst);
    }
  }

  // ---------------------------------------------------------------------------
  // Dicts built from items

  /** A dict built from (key, value) pairs in order, as a dict comprehension
      builds it: a later pair overwrites an earlier one with the same key. */
  function DictFrom<K, V>(items: seq<(K, V)>): map<K, V>
  {
    if items == [] then map[]
    else DictFrom(items[..|items| - 1])[items[|items| - 1].0 := items[|items| - 1].1]
  }

  /** The dict's keys are exactly the pairs' keys. */
  lemma {:induction false} DictFromKeys<K, V>(items: seq<(K, V)>)
    ensures forall i :: 0 <= i < |items| ==> items[i].0 in DictFrom(items)
    ensures forall x :: x in DictFrom(items) ==> exists i :: 0 <= i < |items| && items[i].0 == x
  {
    if items != [] {
      var init := items[..|items| - 1];
      DictFromKeys(init);
      forall i | 0 <= i < |init| ensures init[i] == items[i] { }
    }
  }

  /** A pair's value is the dict's value for its key unless a later pair
      has the same key. */
  lemma {:induction false} DictFromLaterWins<K, V>(items: seq<(K, V)>, i: nat)
    requires i < |items|
    requires forall j :: i < j < |items| ==> items[j].0 != items[i].0
    ensures items[i].0 in DictFrom(items) && DictFrom(items)[items[i].0] == items[i].1
  {
    if i < |items| - 1 {
      var init := items[..|items| - 1];
      assert init[i] == items[i];
      DictFromLaterWins(init, i);
    }
  }
}
