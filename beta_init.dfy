/**
 * The beta variant's component setup (`home_connect_beta/__init__.py`):
 * the per-entry store of API objects, the lookup of an appliance by entity
 * id, the services routed to the vendor calls, and entry unloading.
 */
module BetaInit {
  import opened Common
  import opened BetaApi
  import BetaEntity

  /** `PLATFORMS` */
  const PLATFORMS: seq<string> := ["binary_sensor", "sensor", "switch", "light"]

  /** The service names, in the order `async_setup` registers them. */
  const SERVICE_OPTION_ACTIVE: string := "set_option_active"
  const SERVICE_OPTION_SELECTED: string := "set_option_selected"
  const SERVICE_SETTING: string := "change_setting"
  const SERVICE_PAUSE: string := "pause_program"
  const SERVICE_RESUME: string := "resume_program"
  const SERVICE_SELECT: string := "select_program"
  const SERVICES: seq<string> :=
    [SERVICE_OPTION_ACTIVE, SERVICE_OPTION_SELECTED, SERVICE_SETTING, SERVICE_PAUSE, SERVICE_RESUME, SERVICE_SELECT]

  /** `BSH_PAUSE` and `BSH_RESUME` */
  const BSH_PAUSE: string := "BSH.Common.Command.PauseProgram"
  const BSH_RESUME: string := "BSH.Common.Command.ResumeProgram"

  // ---------------------------------------------------------------------------
  // Looking an appliance up by entity id

  /** What the lookup sees of one device: its appliance and the entity ids
      of the entities listed under it. */
  type DeviceView = (Appliance, seq<string>)

  /** The appliance of the first device, in order, that lists the id. */
  function FindInDevices(ds: seq<DeviceView>, id: string): Option<Appliance>
  {
    if ds == [] then None
    else if id in ds[0].1 then Some(ds[0].0)
    else FindInDevices(ds[1..], id)
  }

  /** The appliance of the first device, entry by entry and device by
      device, that lists the id. */
  function Find(views: seq<seq<DeviceView>>, id: string): Option<Appliance>
  {
    if views == [] then None
    else match FindInDevices(views[0], id)
      case Some(a) => Some(a)
      case None => Find(views[1..], id)
  }

  /** Device `j` of entry `i` lists the id. */
  predicate Hit(views: seq<seq<DeviceView>>, id: string, i: int, j: int)
  {
    0 <= i < |views| && 0 <= j < |views[i]| && id in views[i][j].1
  }

  /** Within one entry: nothing is found exactly when no device lists the
      id, and what is found is the appliance of the first device that does. */
  lemma {:induction false} FindInDevicesFirst(ds: seq<DeviceView>, id: string)
    ensures FindInDevices(ds, id) == None <==> forall j :: 0 <= j < |ds| ==> id !in ds[j].1
    ensures FindInDevices(ds, id) != None ==>
      exists j :: 0 <= j < |ds| && id in ds[j].1 && FindInDevices(ds, id) == Some(ds[j].0)
                  && forall k :: 0 <= k < j ==> id !in ds[k].1
  {
    if ds != [] && id !in ds[0].1 {
      FindInDevicesFirst(ds[1..], id);
      if FindInDevices(ds, id) != None {
        var j :| 0 <= j < |ds[1..]| && id in ds[1..][j].1 && FindInDevices(ds[1..], id) == Some(ds[1..][j].0)
                 && forall k :: 0 <= k < j ==> id !in ds[1..][k].1;
        assert forall k :: 0 <= k < j + 1 ==> id !in ds[k].1 by {
          forall k | 0 <= k < j + 1 ensures id !in ds[k].1 {
            if k > 0 { assert ds[k] == ds[1..][k - 1]; }
          }
        }
      } else {
        forall j | 0 <= j < |ds| ensures id !in ds[j].1 {
          if j > 0 { assert ds[j] == ds[1..][j - 1]; }
        }
      }
    }
  }

  /** The first device that lists the id is the one found. */
  lemma {:induction false} FindInDevicesAt(ds: seq<DeviceView>, id: string, j: nat)
    requires j < |ds| && id in ds[j].1
    requires forall k :: 0 <= k < j ==> id !in ds[k].1
    ensures FindInDevices(ds, id) == Some(ds[j].0)
  {
    if j > 0 {
      assert id !in ds[0].1;
      assert forall k :: 0 <= k < j - 1 ==> id !in ds[1..][k].1 by {
        forall k | 0 <= k < j - 1 ensures id !in ds[1..][k].1 {
          assert ds[1..][k] == ds[k + 1];
        }
      }
      FindInDevicesAt(ds[1..], id, j - 1);
    }
  }

  /** The first entry with a device that lists the id gives what is
      found. */
  lemma {:induction false} FindFirstEntry(views: seq<seq<DeviceView>>, id: string, i: nat)
    requires i < |views| && FindInDevices(views[i], id) != None
    requires forall i', j' :: 0 <= i' < i ==> !Hit(views, id, i', j')
    ensures Find(views, id) == FindInDevices(views[i], id)
  {
    if i > 0 {
      FindInDevicesFirst(views[0], id);
      forall k | 0 <= k < |views[0]| ensures id !in views[0][k].1 {
        assert !Hit(views, id, 0, k);
      }
      var rest, i1 := views[1..], i - 1;
      assert rest[i1] == views[i];
      forall i', j' | 0 <= i' < i1 ensures !Hit(rest, id, i', j') {
        assert !Hit(views, id, i' + 1, j');
      }
      FindFirstEntry(rest, id, i1);
    }
  }

  /** Over all entries: nothing is found exactly when no device of any
      entry lists the id. */
  lemma {:induction false} FindNone(views: seq<seq<DeviceView>>, id: string)
    ensures Find(views, id) == None <==> forall i, j :: !Hit(views, id, i, j)
  {
    if views != [] {
      FindInDevicesFirst(views[0], id);
      FindNone(views[1..], id);
      if Find(views, id) == None {
        forall i, j | 0 <= i < |views| && 0 <= j < |views[i]| ensures id !in views[i][j].1 {
          if i > 0 { assert views[i] == views[1..][i - 1]; assert !Hit(views[1..], id, i - 1, j); }
        }
      } else if FindInDevices(views[0], id) == None {
        var i, j :| Hit(views[1..], id, i, j);
        assert Hit(views, id, i + 1, j);
      } else {
        var j :| 0 <= j < |views[0]| && id in views[0][j].1;
        assert Hit(views, id, 0, j);
      }
    }
  }

  /** Over all entries: what is found is the appliance of a device that
      lists the id, and no device in an earlier entry, nor an earlier device
      of the same entry, lists it. */
  lemma {:induction false} FindFirst(views: seq<seq<DeviceView>>, id: string)
    requires Find(views, id) != None
    ensures exists i, j ::
      (&& Hit(views, id, i, j) && Find(views, id) == Some(views[i][j].0)
       && (forall i', j' :: 0 <= i' < i ==> !Hit(views, id, i', j'))
       && (forall j' :: 0 <= j' < j ==> !Hit(views, id, i, j')))
  {
    FindInDevicesFirst(views[0], id);
    if FindInDevices(views[0], id) != None {
      var j :| 0 <= j < |views[0]| && id in views[0][j].1 && FindInDevices(views[0], id) == Some(views[0][j].0)
               && forall k :: 0 <= k < j ==> id !in views[0][k].1;
      assert Hit(views, id, 0, j);
    } else {
      FindFirst(views[1..], id);
      var i, j :| Hit(views[1..], id, i, j) && Find(views[1..], id) == Some(views[1..][i][j].0)
        && (forall i', j' :: 0 <= i' < i ==> !Hit(views[1..], id, i', j'))
        && (forall j' :: 0 <= j' < j ==> !Hit(views[1..], id, i, j'));
      assert Hit(views, id, i + 1, j);
      forall i', j' | 0 <= i' < i + 1 ensures !Hit(views, id, i', j') {
        if i' > 0 { assert !Hit(views[1..], id, i' - 1, j'); }
      }
      var i1 := i + 1;
      forall j' | 0 <= j' < j ensures !Hit(views, id, i1, j') {
        assert !Hit(views[1..], id, i, j');
      }
    }
  }

  /** The lookup's view of a list of device records. */
  function DevicesView(records: seq<DeviceRecord>): (r: seq<DeviceView>)
    reads set j | 0 <= j < |records| :: records[j].device
    ensures |r| == |records|
    ensures forall j :: 0 <= j < |r| ==> r[j] == (records[j].device.appliance, records[j].device.entities)
  {
    if records == [] then []
    else [(records[0].device.appliance, records[0].device.entities)] + DevicesView(records[1..])
  }

  /** The objects the lookup reads: the API objects of the entries and
      their devices. */
  function Footprint(entries: seq<(string, Api)>): set<object>
    reads set i | 0 <= i < |entries| :: entries[i].1
  {
    (set i | 0 <= i < |entries| :: entries[i].1)
    + (set i, j | 0 <= i < |entries| && 0 <= j < |entries[i].1.devices| :: entries[i].1.devices[j].device)
  }

  /** The lookup's view of the stored entries. */
  function EntriesView(entries: seq<(string, Api)>): (r: seq<seq<DeviceView>>)
    reads set i | 0 <= i < |entries| :: entries[i].1
    reads Footprint(entries)
    ensures |r| == |entries|
    ensures forall i :: 0 <= i < |r| ==> r[i] == DevicesView(entries[i].1.devices)
  {
    seq(|entries|, i requires 0 <= i < |entries| reads Footprint(entries) => DevicesView(entries[i].1.devices))
  }

  /** The device and entity loops of the lookup, over one entry: the
      appliance of the first device that lists the id. */
  method ScanDevices(devices: seq<DeviceRecord>, id: string) returns (found: Option<Appliance>)
    ensures found == FindInDevices(DevicesView(devices), id)
  {
    ghost var view := DevicesView(devices);
    var j := 0;
    while j < |devices|
      invariant 0 <= j <= |devices|
      invariant forall j' :: 0 <= j' < j ==> id !in view[j'].1
    {
      var device := devices[j].device;
      var ids := device.entities;
      var k := 0;
      while k < |ids|
        invariant 0 <= k <= |ids| && id !in ids[..k]
      {
        if ids[k] == id {
          FindInDevicesAt(view, id, j);
          return Some(device.appliance);
        }
        k := k + 1;
      }
      assert ids[..k] == ids;
      j := j + 1;
    }
    FindInDevicesFirst(view, id);
    return None;
  }

  // ---------------------------------------------------------------------------
  // The entry store

  /** The value stored under a key. */
  function ValueOf(entries: seq<(string, Api)>, key: string): Option<Api>
  {
    if entries == [] then None
    else if entries[0].0 == key then Some(entries[0].1)
    else ValueOf(entries[1..], key)
  }

  /** Keys appear at most once, as in a dict. */
  predicate UniqueKeys(entries: seq<(string, Api)>)
  {
    forall i, j :: 0 <= i < j < |entries| ==> entries[i].0 != entries[j].0
  }

  /** `data[key] = value`: replaces the value in place when the key is
      there, appends the pair otherwise. */
  function Store(entries: seq<(string, Api)>, key: string, value: Api): (r: seq<(string, Api)>)
    ensures ValueOf(r, key) == Some(value)
    ensures forall k :: k != key ==> ValueOf(r, k) == ValueOf(entries, k)
    ensures UniqueKeys(entries) ==> UniqueKeys(r)
    ensures forall i :: 0 <= i < |r| ==> r[i].0 == key || exists k :: 0 <= k < |entries| && entries[k] == r[i]
  {
    if entries == [] then [(key, value)]
    else if entries[0].0 == key then [(key, value)] + entries[1..]
    else [entries[0]] + Store(entries[1..], key, value)
  }

  /** `data.pop(key)` once the key is known to be there. */
  function Remove(entries: seq<(string, Api)>, key: string): (r: seq<(string, Api)>)
    requires UniqueKeys(entries)
    ensures ValueOf(r, key) == None
    ensures forall k :: k != key ==> ValueOf(r, k) == ValueOf(entries, k)
    ensures UniqueKeys(r) && |r| <= |entries|
    ensures forall i :: 0 <= i < |r| ==> exists k :: 0 <= k < |entries| && entries[k] == r[i]
  {
    if entries == [] then []
    else if entries[0].0 == key then
      assert forall i :: 0 <= i < |entries[1..]| ==> entries[1..][i].0 != key by {
        forall i | 0 <= i < |entries[1..]| ensures entries[1..][i].0 != key {
          assert entries[1..][i] == entries[i + 1];
        }
      }
      ValueOfMissing(entries[1..], key);
      entries[1..]
    else
      var rest := Remove(entries[1..], key);
      assert forall i :: 0 <= i < |rest| ==> rest[i].0 != entries[0].0 by {
        forall i | 0 <= i < |rest| ensures rest[i].0 != entries[0].0 {
          var k :| 0 <= k < |entries[1..]| && entries[1..][k] == rest[i];
          assert entries[k + 1] == rest[i];
        }
      }
      [entries[0]] + rest
  }

  /** A key not stored. */
  lemma {:induction false} ValueOfMissing(entries: seq<(string, Api)>, key: string)
    requires forall i :: 0 <= i < |entries| ==> entries[i].0 != key
    ensures ValueOf(entries, key) == None
  {
    if entries != [] {
      ValueOfMissing(entries[1..], key);
    }
  }

  /** Removing a key that is not there changes nothing. */
  lemma {:induction false} RemoveMissing(entries: seq<(string, Api)>, key: string)
    requires UniqueKeys(entries) && ValueOf(entries, key) == None
    ensures Remove(entries, key) == entries
  {
    if entries != [] {
      RemoveMissing(entries[1..], key);
    }
  }

  /** Setting an entry up and unloading it again leaves the store as
      unloading it alone would. */
  lemma {:induction false} StoreThenRemove(entries: seq<(string, Api)>, key: string, value: Api)
    requires UniqueKeys(entries)
    ensures Remove(Store(entries, key, value), key) == Remove(entries, key)
  {
    if entries != [] && entries[0].0 != key {
      StoreThenRemove(entries[1..], key, value);
    } else if entries == [] {
      assert Remove([(key, value)], key) == [];
    }
  }

  // ---------------------------------------------------------------------------
  // Services

  /** A service call as its schema admits it (the setting value is coerced
      to a string). */
  datatype ServiceCall =
    | OptionActive(entityId: string, key: string, value: string)
    | OptionSelected(entityId: string, key: string, value: string)
    | Setting(entityId: string, key: string, value: string)
    | Pause(entityId: string)
    | Resume(entityId: string)
    | Select(entityId: string, program: string)

  /** The name the call was registered under. */
  function ServiceName(c: ServiceCall): (name: string)
    ensures name in SERVICES
  {
    match c
    case OptionActive(_, _, _) => SERVICE_OPTION_ACTIVE
    case OptionSelected(_, _, _) => SERVICE_OPTION_SELECTED
    case Setting(_, _, _) => SERVICE_SETTING
    case Pause(_) => SERVICE_PAUSE
    case Resume(_) => SERVICE_RESUME
    case Select(_, _) => SERVICE_SELECT
  }

  /** The vendor call each handler makes on the appliance it found. */
  function CallFor(c: ServiceCall): ApplianceCall
  {
    match c
    case OptionActive(_, key, value) => SetOptionsActiveProgram(key, value)
    case OptionSelected(_, key, value) => SetOptionsSelectedProgram(key, value)
    case Setting(_, key, value) => SetSetting(key, Str(value))
    case Pause(_) => ExecuteCommand(BSH_PAUSE)
    case Resume(_) => ExecuteCommand(BSH_RESUME)
    case Select(_, program) => SelectProgram(program)
  }

  /** Different services never make the same vendor call: the handlers
      route to six different calls, pause and resume to different commands. */
  lemma ServicesRouteApart(c1: ServiceCall, c2: ServiceCall)
    requires ServiceName(c1) != ServiceName(c2)
    ensures CallFor(c1) != CallFor(c2)
  {
  }

  /** The call carries the service's own arguments: a call from the same
      service with the same arguments is the same call, and only then. */
  lemma CallForInjective(c1: ServiceCall, c2: ServiceCall)
    requires c1.entityId == c2.entityId
    ensures CallFor(c1) == CallFor(c2) <==> c1 == c2
  {
  }

  // ---------------------------------------------------------------------------
  // The component

  /** `hass.data[DOMAIN]`: config entry id -> API object, in insertion order. */
  class Hass {
    var entries: seq<(string, Api)>

    constructor ()
      ensures entries == []
    {
      entries := [];
    }

    /** `_get_appliance_by_entity_id`: the appliance of the first device,
        entry by entry and device by device, one of whose entities has the
        id; None when there is none. */
    method GetApplianceByEntityId(id: string) returns (found: Option<Appliance>)
      ensures found == Find(EntriesView(entries), id)
    {
      ghost var views := EntriesView(entries);
      var i := 0;
      while i < |entries|
        invariant 0 <= i <= |entries| && views == EntriesView(entries)
        invariant forall i', j' :: 0 <= i' < i ==> !Hit(views, id, i', j')
      {
        found := ScanDevices(entries[i].1.devices, id);
        assert views == EntriesView(entries);
        assert found == FindInDevices(views[i], id);
        FindInDevicesFirst(views[i], id);
        if found.Some? {
          FindFirstEntry(views, id, i);
          return;
        }
        i := i + 1;
      }
      FindNone(views, id);
      return None;
    }

    /** A service handler: the vendor call is made on the appliance the
        entity id leads to, and no call is made when it leads nowhere. */
    method HandleService(c: ServiceCall) returns (made: Option<(Appliance, ApplianceCall)>)
      ensures made == None <==> forall i, j :: !Hit(EntriesView(entries), c.entityId, i, j)
      ensures made != None ==> Find(EntriesView(entries), c.entityId) != None && made == Some((Find(EntriesView(entries), c.entityId).value, CallFor(c)))
    {
      var appliance := GetApplianceByEntityId(c.entityId);
      FindNone(EntriesView(entries), c.entityId);
      if appliance.Some? {
        made := Some((appliance.value, CallFor(c)));
      } else {
        made := None;
      }
    }

    /** `async_setup`: resets the store; without a configuration for the
        domain it is done, otherwise it registers the six services. */
    method AsyncSetup(config: set<string>) returns (ok: bool, registered: seq<string>)
      modifies this
      ensures ok && entries == []
      ensures registered == if BetaEntity.DOMAIN in config then SERVICES else []
    {
      entries := [];
      if BetaEntity.DOMAIN !in config {
        return true, [];
      }
      registered := [SERVICE_OPTION_ACTIVE, SERVICE_OPTION_SELECTED, SERVICE_SETTING];
      registered := registered + [SERVICE_PAUSE, SERVICE_RESUME, SERVICE_SELECT];
      ok := true;
    }

    /** `async_setup_entry`, as far as the store goes: the entry's API
        object is stored under the entry id. */
    method AsyncSetupEntry(entryId: string, api: Api) returns (ok: bool)
      modifies this
      ensures ok && entries == Store(old(entries), entryId, api)
    {
      entries := Store(entries, entryId, api);
      ok := true;
    }

    /** `async_unload_entry`, given what unloading each platform reported:
        only when all succeeded is the entry popped, and popping an entry
        that is not stored raises a KeyError. */
    method AsyncUnloadEntry(entryId: string, results: seq<bool>) returns (ok: bool, raised: Option<Exc>)
      requires |results| == |PLATFORMS|
      requires UniqueKeys(entries)
      modifies this
      ensures ok <==> forall i :: 0 <= i < |results| ==> results[i]
      ensures ok && ValueOf(old(entries), entryId) != None ==> raised == None && entries == Remove(old(entries), entryId)
      ensures ok && ValueOf(old(entries), entryId) == None ==> raised == Some(KeyError) && entries == old(entries)
      ensures !ok ==> raised == None && entries == old(entries)
    {
      ok := true;
      var i := 0;
      while i < |results|
        invariant 0 <= i <= |results|
        invariant ok <==> forall k :: 0 <= k < i ==> results[k]
      {
        ok := ok && results[i];
        i := i + 1;
      }
      raised := None;
      if ok {
        if ValueOf(entries, entryId) == None {
          raised := Some(KeyError);
        } else {
          entries := Remove(entries, entryId);
        }
      }
    }
  }
}
