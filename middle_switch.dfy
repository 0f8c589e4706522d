/**
 * The middle variant's switch platform (`homeconnect/switch.py`): one power
 * switch per device and one switch per program, the power switch's state
 * attributes, and the key formatting they use.
 */
module MiddleSwitch {
  import opened Common
  import opened MiddleApi

  // ---------------------------------------------------------------------------
  // Program switch

  class ProgramSwitch {
    const device: Device
    const programName: string
    const name: string
    var state: Option<bool>

    constructor (device: Device, programName: string)
      ensures this.device == device && this.programName == programName
      ensures name == ProgramSwitchName(device.appliance.name, programName)
      ensures state == None
    {
      this.device := device;
      this.programName := programName;
      this.name := ProgramSwitchName(device.appliance.name, programName);
      state := None;
    }

    /** `is_on` is `bool(_state)`: an unknown state reads as off. */
    function IsOn(): (on: bool)
      reads this
      ensures on <==> state == Some(true)
    {
      Truthy(state)
    }

    /** `available` is always True. */
    function Available(): (up: bool)
      ensures up
    {
      true
    }

    /** `turn_on` starts the switch's program. A HomeConnectError from the
        call is logged and swallowed; any other error escapes before the
        entity update is scheduled. The state is left to that update. */
    method TurnOn(error: Option<Exc>) returns (call: ApplianceCall, raised: Option<Exc>, refresh: bool)
      ensures call == StartProgram(programName)
      ensures raised == None <==> error == None || error == Some(HomeConnectError)
      ensures raised != None ==> raised == error
      ensures refresh <==> raised == None
    {
      call := StartProgram(programName);
      raised := Escaping(error, {HomeConnectError});
      refresh := raised == None;
    }

    /** `turn_off` stops whatever program runs, with the same error handling
        as `turn_on`. */
    method TurnOff(error: Option<Exc>) returns (call: ApplianceCall, raised: Option<Exc>, refresh: bool)
      ensures call == StopProgram
      ensures raised == None <==> error == None || error == Some(HomeConnectError)
      ensures raised != None ==> raised == error
      ensures refresh <==> raised == None
    {
      call := StopProgram;
      raised := Escaping(error, {HomeConnectError});
      refresh := raised == None;
    }

    /** `update`: on exactly when the active program is this switch's
        program; always a boolean. */
    method Update()
      modifies this
      ensures state == Some(ProgramActive(device.appliance.status, programName))
    {
      var entry := EntryAt(device.appliance.status, ACTIVE_PROGRAM);
      if PyEq(ValueIn(entry), Str(programName)) {
        state := Some(true);
      } else {
        state := Some(false);
      }
    }
  }

  // ---------------------------------------------------------------------------
  // CamelCase to snake_case

  predicate IsUpper(c: char) { 'A' <= c <= 'Z' }
  predicate IsLower(c: char) { 'a' <= c <= 'z' }
  predicate IsDigit(c: char) { '0' <= c <= '9' }

  /** No character of `s` is an upper-case letter. */
  predicate NoUpper(s: string)
  {
    forall i :: 0 <= i < |s| ==> !IsUpper(s[i])
  }

  /** The number of lower-case letters `s` starts with. */
  function LowerRun(s: string): (n: nat)
    ensures n <= |s|
    ensures forall i :: 0 <= i < n ==> IsLower(s[i])
    ensures n < |s| ==> !IsLower(s[n])
  {
    if s != [] && IsLower(s[0]) then 1 + LowerRun(s[1..]) else 0
  }

  /** `re.sub("(.)([A-Z][a-z]+)", r"\1_\2", s)`: scanning from the left, a
      character other than a newline that is followed by a capital and at
      least one lower-case letter gets an underscore after it; the scan
      resumes after the whole lower-case run. */
  function SplitWords(s: string): (r: string)
    ensures forall i :: 0 <= i < |r| ==> r[i] == '_' || r[i] in s
    decreases |s|
  {
    if |s| >= 3 && s[0] != '\n' && IsUpper(s[1]) && IsLower(s[2]) then
      var n := 2 + LowerRun(s[2..]);
      [s[0], '_'] + s[1..n] + SplitWords(s[n..])
    else if s == [] then []
    else [s[0]] + SplitWords(s[1..])
  }

  /** `re.sub("([a-z0-9])([A-Z])", r"\1_\2", s)`: an underscore between a
      lower-case letter or digit and the capital after it; the scan resumes
      after the capital. */
  function SplitCase(s: string): (r: string)
    ensures forall i :: 0 <= i < |r| ==> r[i] == '_' || r[i] in s
  {
    if |s| >= 2 && (IsLower(s[0]) || IsDigit(s[0])) && IsUpper(s[1]) then
      [s[0], '_', s[1]] + SplitCase(s[2..])
    else if s == [] then []
    else [s[0]] + SplitCase(s[1..])
  }

  /** One character through `str.lower()` (ASCII letters). */
  function ToLower(c: char): (d: char)
    ensures !IsUpper(d)
    ensures IsUpper(c) ==> IsLower(d)
    ensures !IsUpper(c) ==> d == c
  {
    if IsUpper(c) then (c as int - 'A' as int + 'a' as int) as char else c
  }

  /** `str.lower()` */
  function Lower(s: string): (r: string)
    ensures |r| == |s| && NoUpper(r)
    ensures forall i :: 0 <= i < |s| ==> r[i] == ToLower(s[i])
  {
    seq(|s|, i requires 0 <= i < |s| => ToLower(s[i]))
  }

  /** `convert_to_snake` */
  function ConvertToSnake(s: string): (r: string)
    ensures NoUpper(r)
  {
    Lower(SplitCase(SplitWords(s)))
  }

  /** Without capitals there is nothing for the first substitution to do. */
  lemma {:induction false} SplitWordsNoUpper(s: string)
    requires NoUpper(s)
    ensures SplitWords(s) == s
    decreases |s|
  {
    if s != [] {
      assert |s| >= 3 ==> !IsUpper(s[1]);
      SplitWordsNoUpper(s[1..]);
      assert s == [s[0]] + s[1..];
    }
  }

  /** Without capitals there is nothing for the second substitution to do. */
  lemma {:induction false} SplitCaseNoUpper(s: string)
    requires NoUpper(s)
    ensures SplitCase(s) == s
  {
    if s != [] {
      assert |s| >= 2 ==> !IsUpper(s[1]);
      SplitCaseNoUpper(s[1..]);
      assert s == [s[0]] + s[1..];
    }
  }

  /** Text without capitals is its own lower-case form. */
  lemma LowerNoUpper(s: string)
    requires NoUpper(s)
    ensures Lower(s) == s
  {
    assert forall i :: 0 <= i < |s| ==> Lower(s)[i] == s[i];
  }

  /** `convert_to_snake` leaves no capital behind, so converting twice is
      converting once. */
  lemma ConvertToSnakeIdempotent(s: string)
    ensures ConvertToSnake(ConvertToSnake(s)) == ConvertToSnake(s)
  {
    var t := ConvertToSnake(s);
    SplitWordsNoUpper(t);
    SplitCaseNoUpper(t);
    LowerNoUpper(t);
  }

  /** `s` without its underscores. */
  function DropUnderscores(s: string): (r: string)
    ensures '_' !in r
  {
    if s == [] then []
    else if s[0] == '_' then DropUnderscores(s[1..])
    else [s[0]] + DropUnderscores(s[1..])
  }

  lemma {:induction false} DropUnderscoresAppend(a: string, b: string)
    ensures DropUnderscores(a + b) == DropUnderscores(a) + DropUnderscores(b)
  {
    if a == [] {
      assert a + b == b;
    } else {
      assert (a + b)[1..] == a[1..] + b;
      DropUnderscoresAppend(a[1..], b);
    }
  }

  /** The first substitution only inserts underscores. */
  lemma {:induction false} SplitWordsInsertsUnderscores(s: string)
    ensures DropUnderscores(SplitWords(s)) == DropUnderscores(s)
    decreases |s|
  {
    if |s| >= 3 && s[0] != '\n' && IsUpper(s[1]) && IsLower(s[2]) {
      var n := 2 + LowerRun(s[2..]);
      SplitWordsInsertsUnderscores(s[n..]);
      DropUnderscoresAppend([s[0], '_'] + s[1..n], SplitWords(s[n..]));
      DropUnderscoresAppend([s[0], '_'], s[1..n]);
      DropUnderscoresAppend([s[0]], s[1..n]);
      DropUnderscoresAppend([s[0]] + s[1..n], s[n..]);
      assert [s[0], '_'][1..] == ['_'];
      assert s == [s[0]] + s[1..n] + s[n..];
    } else if s != [] {
      SplitWordsInsertsUnderscores(s[1..]);
      DropUnderscoresAppend([s[0]], SplitWords(s[1..]));
      DropUnderscoresAppend([s[0]], s[1..]);
      assert s == [s[0]] + s[1..];
    }
  }

  /** The second substitution only inserts underscores. */
  lemma {:induction false} SplitCaseInsertsUnderscores(s: string)
    ensures DropUnderscores(SplitCase(s)) == DropUnderscores(s)
  {
    if |s| >= 2 && (IsLower(s[0]) || IsDigit(s[0])) && IsUpper(s[1]) {
      SplitCaseInsertsUnderscores(s[2..]);
      DropUnderscoresAppend([s[0], '_', s[1]], SplitCase(s[2..]));
      DropUnderscoresAppend([s[0], s[1]], s[2..]);
      assert [s[0], '_', s[1]][1..] == ['_', s[1]];
      assert [s[0], s[1]][1..] == [s[1]];
      assert s == [s[0], s[1]] + s[2..];
    } else if s != [] {
      SplitCaseInsertsUnderscores(s[1..]);
      DropUnderscoresAppend([s[0]], SplitCase(s[1..]));
      DropUnderscoresAppend([s[0]], s[1..]);
      assert s == [s[0]] + s[1..];
    }
  }

  /** Lowering neither adds nor removes underscores. */
  lemma {:induction false} DropUnderscoresLower(s: string)
    ensures DropUnderscores(Lower(s)) == Lower(DropUnderscores(s))
  {
    if s != [] {
      DropUnderscoresLower(s[1..]);
      assert Lower(s)[1..] == Lower(s[1..]);
      assert Lower(s) == [ToLower(s[0])] + Lower(s[1..]);
      if s[0] != '_' {
        assert Lower([s[0]] + DropUnderscores(s[1..])) == [ToLower(s[0])] + Lower(DropUnderscores(s[1..]));
      }
    }
  }

  /** Apart from its underscores, the snake-case form is the lower-case
      form of the input: the conversion only inserts underscores. */
  lemma ConvertToSnakeInsertsUnderscores(s: string)
    ensures DropUnderscores(ConvertToSnake(s)) == Lower(DropUnderscores(s))
  {
    SplitWordsInsertsUnderscores(s);
    SplitCaseInsertsUnderscores(SplitWords(s));
    DropUnderscoresLower(SplitCase(SplitWords(s)));
  }

  // ---------------------------------------------------------------------------
  // format_key and the power switch's state attributes

  /** `format_key` on a string: the text after the last dot, in snake case. */
  function FormatName(s: string): (r: string)
    ensures '.' !in r && NoUpper(r)
  {
    var t := LastSegment(s);
    var r := ConvertToSnake(t);
    assert forall i :: 0 <= i < |SplitWords(t)| ==> SplitWords(t)[i] != '.';
    assert forall i :: 0 <= i < |SplitCase(SplitWords(t))| ==> SplitCase(SplitWords(t))[i] != '.';
    r
  }

  /** `format_key`: strings are formatted, every other value is returned
      unchanged. */
  function FormatKey(v: Value): (r: Value)
    ensures !v.Str? ==> r == v
    ensures v.Str? ==> r.Str? && '.' !in r.s && NoUpper(r.s)
  {
    if v.Str? then Str(FormatName(v.s)) else v
  }

  /** A formatted key only depends on the text after the last dot. */
  lemma FormatKeyLastSegment(prefix: string, last: string)
    ensures FormatKey(Str(prefix + "." + last)) == FormatKey(Str(last))
  {
    LastSegmentAfterDot(prefix, last);
    if '.' !in last {
      LastSegmentNoDot(last);
    } else {
      var i :| 0 <= i < |last| && last[i] == '.';
      assert last == last[..i] + "." + last[i + 1..];
      LastSegmentAfterDot(last[..i], last[i + 1..]);
    }
  }

  /** Formatting a formatted key changes nothing. */
  lemma FormatKeyIdempotent(v: Value)
    ensures FormatKey(FormatKey(v)) == FormatKey(v)
  {
    if v.Str? {
      var t := LastSegment(v.s);
      var r := ConvertToSnake(t);
      LastSegmentNoDot(r);
      ConvertToSnakeIdempotent(t);
    }
  }

  /** The status items in the order given, each key and value formatted. */
  function FormattedItems(status: Status, order: seq<string>): (items: seq<(string, Value)>)
    ensures |items| == |order|
    ensures forall i :: 0 <= i < |order| ==>
      items[i] == (FormatName(order[i]), FormatKey(ValueAt(status, order[i])))
  {
    seq(|order|, i requires 0 <= i < |order| => (FormatName(order[i]), FormatKey(ValueAt(status, order[i]))))
  }

  /** `order` lists every key of `status` once: the order of `status.items()`. */
  predicate Enumerates(order: seq<string>, status: Status)
  {
    (forall i :: 0 <= i < |order| ==> order[i] in status)
    && (forall k :: k in status ==> k in order)
    && (forall i, j :: 0 <= i < j < |order| ==> order[i] != order[j])
  }

  /** `device_state_attributes`: one attribute per formatted status key,
      and no other. */
  function StateAttributes(status: Status, order: seq<string>): (r: map<string, Value>)
    requires Enumerates(order, status)
    ensures forall i :: 0 <= i < |order| ==> FormatName(order[i]) in r
    ensures forall x :: x in r ==> exists i :: 0 <= i < |order| && FormatName(order[i]) == x
  {
    var items := FormattedItems(status, order);
    DictFromKeys(items);
    DictFrom(items)
  }

  /** When no two status keys format alike, each attribute is the
      formatted value of its key's entry, whatever the item order. */
  lemma StateAttributesWithoutCollisions(status: Status, order: seq<string>)
    requires Enumerates(order, status)
    requires forall k1, k2 :: k1 in status && k2 in status && FormatName(k1) == FormatName(k2) ==> k1 == k2
    ensures forall k :: k in status ==>
      StateAttributes(status, order)[FormatName(k)] == FormatKey(ValueIn(status[k]))
  {
    var items := FormattedItems(status, order);
    forall k | k in status
      ensures StateAttributes(status, order)[FormatName(k)] == FormatKey(ValueIn(status[k]))
    {
      var i :| 0 <= i < |order| && order[i] == k;
      DictFromLaterWins(items, i);
    }
  }

  // ---------------------------------------------------------------------------
  // Power switch

  /** The calls `turn_on`/`turn_off` make: the power setting, then, unless
      that call raised something other than a HomeConnectError, a status
      refresh. */
  function PowerCalls(setting: string, setError: Option<Exc>): (calls: seq<ApplianceCall>)
    ensures 1 <= |calls| <= 2 && calls[0] == SetSetting(POWER_STATE, Str(setting))
    ensures |calls| == 2 <==> setError == None || setError == Some(HomeConnectError)
    ensures |calls| == 2 ==> calls[1] == GetStatus
  {
    [SetSetting(POWER_STATE, Str(setting))]
      + if Escaping(setError, {HomeConnectError}) == None then [GetStatus] else []
  }

  /** What escapes `turn_on`/`turn_off`: an unexpected error of the setting
      call, else an unexpected error of the status refresh. */
  function PowerRaised(setError: Option<Exc>, statusError: Option<Exc>): (raised: Option<Exc>)
    ensures raised == None <==>
      (setError == None || setError == Some(HomeConnectError))
      && (statusError == None || statusError == Some(HomeConnectError) || statusError == Some(ValueError))
    ensures raised != None ==> raised == setError || raised == statusError
  {
    var escaped := Escaping(setError, {HomeConnectError});
    if escaped != None then escaped else Escaping(statusError, {HomeConnectError, ValueError})
  }

  /** The switch state after `turn_on`/`turn_off`: False when an error was
      caught, unchanged when the calls succeeded or when the setting call
      raised something unexpected. */
  function PowerStateAfter(before: Option<bool>, setError: Option<Exc>, statusError: Option<Exc>): (after: Option<bool>)
    ensures setError == None && statusError == None ==> after == before
    ensures setError == Some(HomeConnectError) ==> after == Some(false)
    ensures PowerRaised(setError, statusError) == None && (setError != None || statusError != None)
            ==> after == Some(false)
    ensures setError != None && setError != Some(HomeConnectError) ==> after == before
    ensures after == before || after == Some(false)
  {
    if setError == Some(HomeConnectError) then Some(false)
    else if setError != None then before
    else if statusError == Some(HomeConnectError) || statusError == Some(ValueError) then Some(false)
    else before
  }

  class PowerSwitch {
    const device: Device
    const name: string
    var state: Option<bool>

    constructor (device: Device)
      ensures this.device == device && name == device.appliance.name && state == None
    {
      this.device := device;
      this.name := device.appliance.name;
      state := None;
    }

    /** `is_on` is `bool(_state)`. */
    function IsOn(): (on: bool)
      reads this
      ensures on <==> state == Some(true)
    {
      Truthy(state)
    }

    /** The body `turn_on` and the corrected `turn_off` share: write
        `setting`, then refresh the status, turning the switch off on a
        caught error; an entity update is scheduled when nothing escapes. */
    method SetPower(setting: string, setError: Option<Exc>, statusError: Option<Exc>)
      returns (calls: seq<ApplianceCall>, raised: Option<Exc>, refresh: bool)
      modifies this
      ensures calls == PowerCalls(setting, setError)
      ensures raised == PowerRaised(setError, statusError)
      ensures state == PowerStateAfter(old(state), setError, statusError)
      ensures refresh <==> raised == None
    {
      calls := [SetSetting(POWER_STATE, Str(setting))];
      raised, refresh := None, false;
      if setError.Some? {
        if setError.value == HomeConnectError {
          state := Some(false);
        } else {
          raised := setError;
          return;
        }
      }
      calls := calls + [GetStatus];
      if statusError.Some? {
        if statusError.value == HomeConnectError || statusError.value == ValueError {
          state := Some(false);
        } else {
          raised := statusError;
          return;
        }
      }
      refresh := true;
    }

    /** `turn_on` writes the On value. */
    method TurnOn(setError: Option<Exc>, statusError: Option<Exc>)
      returns (calls: seq<ApplianceCall>, raised: Option<Exc>, refresh: bool)
      modifies this
      ensures calls == PowerCalls(POWER_ON, setError)
      ensures raised == PowerRaised(setError, statusError)
      ensures state == PowerStateAfter(old(state), setError, statusError)
      ensures refresh <==> raised == None
    {
      calls, raised, refresh := SetPower(POWER_ON, setError, statusError);
    }

    /** `turn_off` as written reads `device._power_off_state`, an attribute
        no device class of this variant defines (they define
        `power_off_state`): the AttributeError escapes the `try`, whose
        `except` only names HomeConnectError, before any call is made.
        `setError` and `statusError` are never read; they are kept only so
        that the signature matches TurnOff's. */
    method TurnOffAsWritten(setError: Option<Exc>, statusError: Option<Exc>)
      returns (calls: seq<ApplianceCall>, raised: Option<Exc>, refresh: bool)
      ensures calls == [] && raised == Some(AttributeError) && !refresh
    {
      calls, raised, refresh := [], Some(AttributeError), false;
    }

    /** `turn_off` as intended: writes the device class's power-off value. */
    method TurnOff(setError: Option<Exc>, statusError: Option<Exc>)
      returns (calls: seq<ApplianceCall>, raised: Option<Exc>, refresh: bool)
      modifies this
      ensures calls == PowerCalls(device.PowerOff(), setError)
      ensures raised == PowerRaised(setError, statusError)
      ensures state == PowerStateAfter(old(state), setError, statusError)
      ensures refresh <==> raised == None
    {
      calls, raised, refresh := SetPower(device.PowerOff(), setError, statusError);
    }

    /** `update`: the priority chain with the literal Off value. */
    method Update()
      modifies this
      ensures state == PowerChain(device.appliance.status, POWER_OFF)
    {
      var status := device.appliance.status;
      var ps := ValueAt(status, POWER_STATE);
      var os := ValueAt(status, OPERATION_STATE);
      if PyEq(ps, Str(POWER_ON)) {
        state := Some(true);
      } else if PyEq(ps, Str(POWER_OFF)) {
        state := Some(false);
      } else if PyIn(os, RUNNING_STATES) {
        state := Some(true);
      } else if PyEq(os, Str(INACTIVE)) {
        state := Some(false);
      } else {
        state := None;
      }
    }
  }

  /** A Standby power setting is not recognised by `update`: the switch
      reads as if there were no power setting at all. */
  lemma StandbyFallsThrough(status: Status)
    requires ValueAt(status, POWER_STATE) == Str(POWER_STANDBY)
    ensures PowerChain(status, POWER_OFF) == PowerChain(status - {POWER_STATE}, POWER_OFF)
  {
    assert ValueAt(status - {POWER_STATE}, OPERATION_STATE) == ValueAt(status, OPERATION_STATE);
  }

  // ---------------------------------------------------------------------------
  // async_setup_entry

  /** An entity the platform hands to the host. */
  type Entity = SwitchEntity<PowerSwitch, ProgramSwitch>

  /** A block made for a device record: the power switch and one program
      switch per switch descriptor, in order, all of that device. */
  predicate BlockFor(b: SwitchBlock<PowerSwitch, ProgramSwitch>, rec: DeviceRecord)
  {
    b.power.device == rec.device
    && |b.programs| == |rec.entities.switch|
    && forall j :: 0 <= j < |b.programs| ==>
         b.programs[j].device == rec.device && b.programs[j].programName == rec.entities.switch[j].programName
  }

  /** The body of the setup loop for one device record. */
  method SetupDevice(rec: DeviceRecord) returns (b: SwitchBlock<PowerSwitch, ProgramSwitch>)
    modifies rec.device
    ensures BlockFor(b, rec)
    ensures rec.device.entities == old(rec.device.entities) + b.programs
    ensures b.power.state == None && forall j :: 0 <= j < |b.programs| ==> b.programs[j].state == None
  {
    var power := new PowerSwitch(rec.device);
    var dicts := rec.entities.switch;
    var programs: seq<ProgramSwitch> := [];
    var j := 0;
    while j < |dicts|
      invariant 0 <= j <= |dicts| && |programs| == j
      invariant forall i :: 0 <= i < j ==>
        programs[i].device == rec.device && programs[i].programName == dicts[i].programName
        && programs[i].state == None
      invariant power.state == None
      invariant rec.device.entities == old(rec.device.entities)
    {
      var sw := new ProgramSwitch(rec.device, dicts[j].programName);
      programs := programs + [sw];
      j := j + 1;
    }
    rec.device.entities := rec.device.entities + programs;
    b := SwitchBlock(power, programs);
  }

  /** `async_setup_entry`: for every device record, a power switch followed
      by its program switches; only the program switches join the device's
      `entities`. */
  method SetupEntry(records: seq<DeviceRecord>) returns (entities: seq<Entity>, ghost blocks: seq<SwitchBlock<PowerSwitch, ProgramSwitch>>)
    requires forall i, j :: 0 <= i < j < |records| ==> records[i].device != records[j].device
    modifies set i | 0 <= i < |records| :: records[i].device
    ensures |blocks| == |records| && entities == Flatten(blocks, true)
    ensures forall i :: 0 <= i < |records| ==> BlockFor(blocks[i], records[i])
    ensures forall i :: 0 <= i < |records| ==>
      records[i].device.entities == old(records[i].device.entities) + blocks[i].programs
  {
    entities := [];
    blocks := [];
    var i := 0;
    while i < |records|
      invariant 0 <= i <= |records| && |blocks| == i && entities == Flatten(blocks, true)
      invariant forall k :: 0 <= k < i ==> BlockFor(blocks[k], records[k])
      invariant forall k :: 0 <= k < i ==>
        records[k].device.entities == old(records[k].device.entities) + blocks[k].programs
      invariant forall k :: i <= k < |records| ==> records[k].device.entities == old(records[k].device.entities)
    {
      var b := SetupDevice(records[i]);
      assert (blocks + [b])[..i] == blocks;
      blocks := blocks + [b];
      entities := entities + BlockEntities(b, true);
      i := i + 1;
    }
  }
}
