/**
 * The beta variant's light platform (`home_connect_beta/light.py`): a light
 * switched through the cooking-lighting setting.
 */
module BetaLight {
  import opened Common
  import opened BetaApi
  import opened BetaEntity

  /** `COOKING_LIGHTING` */
  const COOKING_LIGHTING: string := "Cooking.Common.Setting.Lighting"

  /** The state after an update: on when the lighting value equals True
      and off when it equals False, by Python's `==` (so 1 and 0 count);
      anything else keeps the state as it was. */
  function LightReading(before: Option<bool>, v: Value): (r: Option<bool>)
    ensures r == Some(true) <==> PyEq(v, Bool(true)) || (!PyEq(v, Bool(false)) && before == Some(true))
    ensures r == Some(false) <==> PyEq(v, Bool(false)) || (!PyEq(v, Bool(true)) && before == Some(false))
    ensures !PyEq(v, Bool(true)) && !PyEq(v, Bool(false)) ==> r == before
  {
    if PyEq(v, Bool(true)) then Some(true)
    else if PyEq(v, Bool(false)) then Some(false)
    else before
  }

  /** The values an update acts on: True and 1 switch the light on, False
      and 0 switch it off; a missing setting changes nothing. */
  lemma LightValues(before: Option<bool>)
    ensures LightReading(before, Bool(true)) == Some(true) && LightReading(before, Num(1)) == Some(true)
    ensures LightReading(before, Bool(false)) == Some(false) && LightReading(before, Num(0)) == Some(false)
    ensures LightReading(before, NoneV) == before
  {
  }

  /** Updating twice from the same status is updating once. */
  lemma LightReadingIdempotent(before: Option<bool>, v: Value)
    ensures LightReading(LightReading(before, v), v) == LightReading(before, v)
  {
  }

  class Light {
    const device: Device
    const desc: string
    const ambient: Option<bool>
    var state: Option<bool>

    /** `__init__(device, desc)`: the only parameters the class takes. */
    constructor (device: Device, desc: string)
      ensures this.device == device && this.desc == desc && ambient == None && state == None
    {
      this.device := device;
      this.desc := desc;
      ambient := None;
      state := None;
    }

    /** Not a constructor of the source: `__init__` takes only `device` and
        `desc`. This is the constructor the light setup evidently needs, one
        that also accepts the descriptor's `ambient` entry; only the corrected
        setup uses it. */
    constructor WithAmbient(device: Device, desc: string, ambient: Option<bool>)
      ensures this.device == device && this.desc == desc && this.ambient == ambient && state == None
    {
      this.device := device;
      this.desc := desc;
      this.ambient := ambient;
      state := None;
    }

    /** `is_on` is `bool(_state)`. */
    function IsOn(): (on: bool)
      reads this
      ensures on <==> state == Some(true)
    {
      Truthy(state)
    }

    /** `async_turn_on` sets the lighting to True; on a HomeConnectError the
        light shows off, any other error escapes and leaves it alone. */
    method TurnOn(error: Option<Exc>) returns (call: ApplianceCall, raised: Option<Exc>, refresh: bool)
      modifies this
      ensures call == SetSetting(COOKING_LIGHTING, Bool(true))
      ensures raised == None <==> error == None || error == Some(HomeConnectError)
      ensures raised != None ==> raised == error
      ensures error == Some(HomeConnectError) ==> state == Some(false)
      ensures error != Some(HomeConnectError) ==> state == old(state)
      ensures refresh <==> raised == None
    {
      call := SetSetting(COOKING_LIGHTING, Bool(true));
      raised := Escaping(error, {HomeConnectError});
      state := StateAfterCall(state, error, false);
      refresh := raised == None;
    }

    /** `async_turn_off` sets the lighting to False; on a HomeConnectError
        the light shows on. */
    method TurnOff(error: Option<Exc>) returns (call: ApplianceCall, raised: Option<Exc>, refresh: bool)
      modifies this
      ensures call == SetSetting(COOKING_LIGHTING, Bool(false))
      ensures raised == None <==> error == None || error == Some(HomeConnectError)
      ensures raised != None ==> raised == error
      ensures error == Some(HomeConnectError) ==> state == Some(true)
      ensures error != Some(HomeConnectError) ==> state == old(state)
      ensures refresh <==> raised == None
    {
      call := SetSetting(COOKING_LIGHTING, Bool(false));
      raised := Escaping(error, {HomeConnectError});
      state := StateAfterCall(state, error, true);
      refresh := raised == None;
    }

    /** `async_update` */
    method Update()
      modifies this
      ensures state == LightReading(old(state), ValueAt(device.appliance.status, COOKING_LIGHTING))
    {
      var v := ValueAt(device.appliance.status, COOKING_LIGHTING);
      if PyEq(v, Bool(true)) {
        state := Some(true);
      } else if PyEq(v, Bool(false)) {
        state := Some(false);
      }
    }
  }

  /** Once the appliance has taken the setting a light call sends, the next
      update shows the light as the user set it. */
  lemma LightSettingRoundTrip(before: Option<bool>, on: bool)
    ensures LightReading(before, Bool(on)) == Some(on)
  {
  }

  /** `async_setup_entry` as written: every light descriptor carries an
      `ambient` entry the constructor does not take, so the first record
      with a light raises a TypeError and no light is added. */
  method SetupEntry(records: seq<DeviceRecord>) returns (r: Outcome<seq<Light>>)
    ensures r.Raised? <==> exists i :: 0 <= i < |records| && records[i].entities.light != []
    ensures r.Raised? ==> r.exc == TypeError
    ensures r.Done? ==> r.value == []
  {
    var i := 0;
    while i < |records|
      invariant 0 <= i <= |records|
      invariant forall k :: 0 <= k < i ==> records[k].entities.light == []
    {
      if records[i].entities.light != [] {
        return Raised(TypeError);
      }
      i := i + 1;
    }
    r := Done([]);
  }

  /** A dishwasher or a hood makes the setup as written fail. */
  lemma LightDeviceBreaksSetup(records: seq<DeviceRecord>, i: nat)
    requires i < |records| && records[i].entities == GetEntityInfo(records[i].device.archetype)
    requires records[i].device.archetype == Dishwasher || records[i].device.archetype == Hood
    ensures records[i].entities.light != []
  {
    EntitiesPerClass(records[i].device.archetype);
  }

  /** Lights made for a device record: one per light descriptor, in order,
      of that device, with the descriptor's description and ambient flag. */
  predicate BlockFor(b: seq<Light>, rec: DeviceRecord)
  {
    |b| == |rec.entities.light|
    && forall j :: 0 <= j < |b| ==>
         b[j].device == rec.device && b[j].desc == rec.entities.light[j].desc
         && b[j].ambient == rec.entities.light[j].ambient
  }

  /** The lights of one device record, built with the ambient entry, each
      starting with an unknown state. */
  method SetupDeviceIntended(rec: DeviceRecord) returns (b: seq<Light>)
    ensures BlockFor(b, rec)
    ensures forall j :: 0 <= j < |b| ==> b[j].state == None
  {
    var dicts := rec.entities.light;
    b := [];
    var j := 0;
    while j < |dicts|
      invariant 0 <= j <= |dicts| && |b| == j
      invariant forall i :: 0 <= i < j ==>
        b[i].device == rec.device && b[i].desc == dicts[i].desc && b[i].ambient == dicts[i].ambient
        && b[i].state == None
    {
      var light := new Light.WithAmbient(rec.device, dicts[j].desc, dicts[j].ambient);
      b := b + [light];
      j := j + 1;
    }
  }

  /** The setup as evidently intended: every light descriptor of every
      record becomes a light, in order, and nothing raises. */
  method SetupEntryIntended(records: seq<DeviceRecord>) returns (entities: seq<Light>, ghost blocks: seq<seq<Light>>)
    ensures |blocks| == |records| && entities == Flat(blocks)
    ensures forall i :: 0 <= i < |records| ==> BlockFor(blocks[i], records[i])
  {
    entities := [];
    blocks := [];
    var i := 0;
    while i < |records|
      invariant 0 <= i <= |records| && |blocks| == i && entities == Flat(blocks)
      invariant forall k :: 0 <= k < i ==> BlockFor(blocks[k], records[k])
    {
      var b := SetupDeviceIntended(records[i]);
      assert (blocks + [b])[..i] == blocks;
      blocks := blocks + [b];
      entities := entities + b;
      i := i + 1;
    }
  }
}
