/**
 * The beta variant's entity base class (`home_connect_beta/entity.py`):
 * what every entity derives from its device and its description.
 */
module BetaEntity {
  import opened Common
  import opened BetaApi

  /** `DOMAIN` of the beta integration. */
  const DOMAIN: string := "home_connect_beta"

  /** The entity `name`: the appliance's name, a space, the description. */
  function EntityName(device: Device, desc: string): string
  {
    device.appliance.name + " " + desc
  }

  /** On one device, entities with different descriptions get different names. */
  lemma EntityNamesDistinct(device: Device, desc1: string, desc2: string)
    ensures EntityName(device, desc1) == EntityName(device, desc2) <==> desc1 == desc2
  {
    if EntityName(device, desc1) == EntityName(device, desc2) {
      JoinedSuffixDetermined(device.appliance.name, " ", desc1, desc2);
    }
  }

  /** The entity `unique_id`: the appliance's haId, a dash, the description. */
  function UniqueId(device: Device, desc: string): string
  {
    device.appliance.haId + "-" + desc
  }

  /** On one device, entities with different descriptions get different ids,
      and the same description always gives the same id. */
  lemma UniqueIdsDistinct(device: Device, desc1: string, desc2: string)
    ensures UniqueId(device, desc1) == UniqueId(device, desc2) <==> desc1 == desc2
  {
    if UniqueId(device, desc1) == UniqueId(device, desc2) {
      JoinedSuffixDetermined(device.appliance.haId, "-", desc1, desc2);
    }
  }

  /** `should_poll`: entities are refreshed by signal, never polled. */
  function ShouldPoll(): (poll: bool)
    ensures !poll
  {
    false
  }

  /** `_update_callback`: whether the signal carrying `haId` refreshes an
      entity of `device`. */
  predicate Refreshes(device: Device, haId: string)
  {
    haId == device.appliance.haId
  }

  /** An entity is refreshed by the events of its own appliance and by no
      event of an appliance with another haId. */
  lemma OwnEventsOnly(device: Device, from: Appliance)
    ensures from == device.appliance ==> Refreshes(device, from.haId)
    ensures from.haId != device.appliance.haId ==> !Refreshes(device, from.haId)
  {
  }

  /** `device_info` of the host's device registry. */
  datatype DeviceInfo = DeviceInfo(identifiers: set<(string, string)>, name: string, manufacturer: string,
                                   model: string)

  /** `device_info`: the registry entry is identified by the domain and
      the haId, and names the appliance, its brand and its model. */
  function DeviceInfoOf(device: Device): (info: DeviceInfo)
    ensures (DOMAIN, device.appliance.haId) in info.identifiers && |info.identifiers| == 1
    ensures info.name == device.appliance.name && info.manufacturer == device.appliance.brand
    ensures info.model == device.appliance.vib
  {
    DeviceInfo({(DOMAIN, device.appliance.haId)}, device.appliance.name, device.appliance.brand,
               device.appliance.vib)
  }

  /** Two entities land on the same registry device exactly when their
      appliances have the same haId. */
  lemma SameRegistryDevice(d1: Device, d2: Device)
    ensures DeviceInfoOf(d1).identifiers == DeviceInfoOf(d2).identifiers
            <==> d1.appliance.haId == d2.appliance.haId
  {
    if DeviceInfoOf(d1).identifiers == DeviceInfoOf(d2).identifiers {
      assert (DOMAIN, d1.appliance.haId) in DeviceInfoOf(d2).identifiers;
    }
  }

  /** The state a switch or light keeps after a setting call: the fallback
      when the call raised a HomeConnectError, the old state otherwise. */
  function StateAfterCall(before: Option<bool>, error: Option<Exc>, fallback: bool): (after: Option<bool>)
    ensures error == Some(HomeConnectError) ==> after == Some(fallback)
    ensures error != Some(HomeConnectError) ==> after == before
  {
    if error == Some(HomeConnectError) then Some(fallback) else before
  }
}
