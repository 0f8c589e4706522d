/**
 * The beta variant's sensor platform (`home_connect_beta/sensor.py`): the
 * program sensors, one of which turns a remaining time into the moment the
 * program ends. Times are whole seconds on one clock; `now` is a parameter.
 */
module BetaSensor {
  import opened Common
  import opened BetaApi

  /** What a sensor shows: nothing (None), a status value, or a moment in
      time (the ISO timestamp of the source, as seconds). */
  datatype SensorState = Unknown | Plain(v: Value) | At(seconds: int)

  /** A status value as the sensor shows it; a None value is no state. */
  function Shown(v: Value): (s: SensorState)
    ensures s == Unknown <==> v == NoneV
    ensures s != Unknown ==> s == Plain(v)
  {
    if v == NoneV then Unknown else Plain(v)
  }

  /** `float(value)` as whole seconds: a number as it is, a boolean as 1 or
      0; None cannot be converted (TypeError). A string is a simplification
      of this model: every string raises ValueError, numeric ones included. */
  function Seconds(v: Value): (r: Outcome<int>)
    ensures v.Num? ==> r == Done(v.n)
    ensures v.Bool? ==> r == Done(if v.b then 1 else 0)
    ensures v.Str? ==> r == Raised(ValueError)
    ensures v == NoneV ==> r == Raised(TypeError)
  {
    match v
    case Num(n) => Done(n)
    case Bool(b) => Done(if b then 1 else 0)
    case Str(_) => Raised(ValueError)
    case NoneV => Raised(TypeError)
  }

  /** The state `async_update` leaves and the error it raises, from the
      sensor's key, device class and sign, its state before, the status,
      and the current time. */
  function Next(key: string, deviceClass: Option<string>, sign: int, before: SensorState, status: Status, now: int)
    : (r: (SensorState, Option<Exc>))
    ensures key !in status ==> r == (Unknown, None)
    ensures key in status && deviceClass == Some(TIMESTAMP) ==>
      && ("value" !in status[key] ==> r == (Unknown, None))
      && ("value" in status[key] && before.At? && sign == 1 && before.seconds < now ==> r == (Unknown, None))
      && ("value" in status[key] && !(before.At? && sign == 1 && before.seconds < now) ==>
            match Seconds(status[key]["value"])
            case Done(s) => r == (At(now + sign * s), None)
            case Raised(e) => r == (before, Some(e)))
    ensures key in status && deviceClass != Some(TIMESTAMP) && key != OPERATION_STATE ==>
      r == (Shown(ValueIn(status[key])), None)
    ensures key in status && deviceClass != Some(TIMESTAMP) && key == OPERATION_STATE ==>
      if ValueIn(status[key]).Str? then r == (Plain(Str(LastSegment(ValueIn(status[key]).s))), None)
      else r == (Shown(ValueIn(status[key])), Some(AttributeError))
  {
    if key !in status then (Unknown, None)
    else if deviceClass == Some(TIMESTAMP) then
      if "value" !in status[key] then (Unknown, None)
      else if before.At? && sign == 1 && before.seconds < now then (Unknown, None)
      else
        match Seconds(status[key]["value"])
        case Done(s) => (At(now + sign * s), None)
        case Raised(e) => (before, Some(e))
    else
      var v := ValueIn(status[key]);
      if key != OPERATION_STATE then (Shown(v), None)
      else if v.Str? then (Plain(Str(LastSegment(v.s))), None)
      else (Shown(v), Some(AttributeError))
  }

  /** A timestamp sensor only ever shows nothing or a moment, provided it
      started that way. */
  lemma TimestampNeverPlain(key: string, sign: int, before: SensorState, status: Status, now: int)
    requires !before.Plain?
    ensures !Next(key, Some(TIMESTAMP), sign, before, status, now).0.Plain?
  {
  }

  /** A remaining time that is not negative, counted forward, ends no
      earlier than now. */
  lemma EndNotInPast(key: string, before: SensorState, status: Status, now: int)
    requires key in status && "value" in status[key]
    requires status[key]["value"].Num? && status[key]["value"].n >= 0
    ensures Next(key, Some(TIMESTAMP), 1, before, status, now).0.At? ==>
      Next(key, Some(TIMESTAMP), 1, before, status, now).0.seconds >= now
  {
  }

  /** While the appliance keeps reporting the same remaining time, a
      forward timestamp sensor whose end has passed is cleared on one update
      and set again, from the new time, on the next. */
  lemma {:induction false} PassedEndFlips(key: string, status: Status, end: int, now: int, n: int)
    requires key in status && "value" in status[key] && status[key]["value"] == Num(n)
    requires end < now
    ensures Next(key, Some(TIMESTAMP), 1, At(end), status, now) == (Unknown, None)
    ensures Next(key, Some(TIMESTAMP), 1, Unknown, status, now) == (At(now + n), None)
  {
    assert Seconds(Num(n)) == Done(n);
  }

  /** Sensors other than timestamps do not depend on what they showed. */
  lemma PlainIgnoresBefore(key: string, deviceClass: Option<string>, sign: int, b1: SensorState, b2: SensorState,
                           status: Status, now1: int, now2: int)
    requires deviceClass != Some(TIMESTAMP)
    ensures Next(key, deviceClass, sign, b1, status, now1) == Next(key, deviceClass, sign, b2, status, now2)
  {
  }

  /** The operation-state sensor shows only the last dotted segment of
      the state, when the state is a string. */
  lemma OperationStateShortened(deviceClass: Option<string>, sign: int, before: SensorState, status: Status, now: int)
    requires deviceClass != Some(TIMESTAMP)
    requires OPERATION_STATE in status && ValueIn(status[OPERATION_STATE]).Str?
    ensures Next(OPERATION_STATE, deviceClass, sign, before, status, now).0.Plain?
    ensures Next(OPERATION_STATE, deviceClass, sign, before, status, now).0.v.Str?
    ensures '.' !in Next(OPERATION_STATE, deviceClass, sign, before, status, now).0.v.s
  {
  }

  class Sensor {
    const device: Device
    const desc: string
    const key: string
    const unit: Option<string>
    const icon: Option<string>
    const deviceClass: Option<string>
    const sign: int
    var state: SensorState

    /** `__init__(device, desc, key, unit, icon, device_class, sign=1)` */
    constructor (device: Device, desc: string, key: string, unit: Option<string>, icon: Option<string>,
                 deviceClass: Option<string>, sign: int)
      ensures this.device == device && this.desc == desc && this.key == key && this.unit == unit
      ensures this.icon == icon && this.deviceClass == deviceClass && this.sign == sign
      ensures state == Unknown
    {
      this.device := device;
      this.desc := desc;
      this.key := key;
      this.unit := unit;
      this.icon := icon;
      this.deviceClass := deviceClass;
      this.sign := sign;
      state := Unknown;
    }

    /** `available`: the state is not None. */
    function Available(): (up: bool)
      reads this
      ensures up <==> state != Unknown
    {
      state != Unknown
    }

    /** `async_update` at time `now`; an error leaves the state as the
        first assignment of the branch left it. */
    method Update(now: int) returns (raised: Option<Exc>)
      modifies this
      ensures (state, raised) == Next(key, deviceClass, sign, old(state), device.appliance.status, now)
    {
      var status := device.appliance.status;
      raised := None;
      if key !in status {
        state := Unknown;
      } else if deviceClass == Some(TIMESTAMP) {
        if "value" !in status[key] {
          state := Unknown;
        } else if state.At? && sign == 1 && state.seconds < now {
          state := Unknown;
        } else {
          var seconds := Seconds(status[key]["value"]);
          if seconds.Raised? {
            raised := Some(seconds.exc);
          } else {
            state := At(now + sign * seconds.value);
          }
        }
      } else {
        var v := ValueIn(status[key]);
        state := Shown(v);
        if key == OPERATION_STATE {
          if v.Str? {
            state := Plain(Str(LastSegment(v.s)));
          } else {
            raised := Some(AttributeError);
          }
        }
      }
    }
  }

  /** Sensors made for a device record: one per sensor descriptor, in
      order, all of that device, carrying the descriptor's fields. */
  predicate BlockFor(b: seq<Sensor>, rec: DeviceRecord)
  {
    |b| == |rec.entities.sensor|
    && forall j :: 0 <= j < |b| ==>
         var d := rec.entities.sensor[j];
         b[j].device == rec.device && b[j].desc == d.desc && b[j].key == d.key && b[j].unit == d.unit
         && b[j].icon == d.icon && b[j].deviceClass == d.deviceClass && b[j].sign == d.sign
  }

  /** The sensors of one device record, each starting with no state. */
  method SetupDevice(rec: DeviceRecord) returns (b: seq<Sensor>)
    ensures BlockFor(b, rec)
    ensures forall j :: 0 <= j < |b| ==> b[j].state == Unknown
  {
    var dicts := rec.entities.sensor;
    b := [];
    var j := 0;
    while j < |dicts|
      invariant 0 <= j <= |dicts| && |b| == j
      invariant forall i :: 0 <= i < j ==>
        var d := dicts[i];
        b[i].device == rec.device && b[i].desc == d.desc && b[i].key == d.key && b[i].unit == d.unit
        && b[i].icon == d.icon && b[i].deviceClass == d.deviceClass && b[i].sign == d.sign
        && b[i].state == Unknown
    {
      var d := dicts[j];
      var sensor := new Sensor(rec.device, d.desc, d.key, d.unit, d.icon, d.deviceClass, d.sign);
      b := b + [sensor];
      j := j + 1;
    }
  }

  /** `async_setup_entry`: every sensor descriptor of every record becomes
      a sensor, in order; the devices' `entities` lists are left alone. */
  method SetupEntry(records: seq<DeviceRecord>) returns (entities: seq<Sensor>, ghost blocks: seq<seq<Sensor>>)
    ensures |blocks| == |records| && entities == Flat(blocks)
    ensures forall i :: 0 <= i < |records| ==> BlockFor(blocks[i], records[i])
  {
    entities := [];
    blocks := [];
    var i := 0;
    while i < |records|
      invariant 0 <= i <= |records| && |blocks| == i && entities == Flat(blocks)
      invariant forall k :: 0 <= k < i ==> BlockFor(blocks[k], records[k])
    {
      var b := SetupDevice(records[i]);
      assert (blocks + [b])[..i] == blocks;
      blocks := blocks + [b];
      entities := entities + b;
      i := i + 1;
    }
  }
}
