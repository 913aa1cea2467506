/**
 * Facts that tie the modules together: the ids the switch platform gives its entities are
 * the ones the integration's device linking understands, the device an entity describes is
 * the device the integration creates, and an imported entry is already in migrated form.
 */
module Agreement {
  import opened Wrappers
  import opened Text
  import opened Docker
  import opened Platform
  import Const
  import Entity
  import Integration
  import ConfigFlow
  import Switch

  /** The part of a switch's unique id before its last colon is its container's device key. */
  lemma SwitchIdNamesItsDevice(hostUid: string, id: string)
    ensures BeforeLast(Switch.SwitchUniqueId(hostUid, id), ':') == Integration.ContainerDeviceKey(hostUid, id)
  {
    var key := Integration.ContainerDeviceKey(hostUid, id);
    assert Switch.SwitchUniqueId(hostUid, id) == key + [':'] + "switch";
    BeforeLastAppend(key, ':', "switch");
  }

  /**
   * An entity's `device_info` for a container is the device `_async_link_devices` creates
   * for it, apart from the name (the entity passes its alias, the integration the container name).
   */
  lemma EntityDeviceIsLinkedDevice(hostUid: string, cname: string, c: Container, name: Option<string>)
    ensures Entity.BaseDeviceInfo(hostUid, Some(c), name) == Integration.ContainerDevice(hostUid, cname, c).(name := name)
    ensures Entity.BaseDeviceInfo(hostUid, Some(c), Some(cname)) == Integration.ContainerDevice(hostUid, cname, c)
  {
  }

  /**
   * Container device keys of one host never clash with another host's: when the short
   * container ids hold no colon, equal keys mean the same host and the same short id.
   */
  lemma DeviceKeysSeparateHosts(h1: string, id1: string, h2: string, id2: string)
    requires ':' !in Take(id1, 12) && ':' !in Take(id2, 12)
    ensures Integration.ContainerDeviceKey(h1, id1) == Integration.ContainerDeviceKey(h2, id2) <==>
      h1 == h2 && Take(id1, 12) == Take(id2, 12)
  {
    var k1, k2 := Integration.ContainerDeviceKey(h1, id1), Integration.ContainerDeviceKey(h2, id2);
    assert k1 == h1 + [':'] + Take(id1, 12);
    assert k2 == h2 + [':'] + Take(id2, 12);
    BeforeLastAppend(h1, ':', Take(id1, 12));
    BeforeLastAppend(h2, ':', Take(id2, 12));
    if k1 == k2 {
      assert h1 == h2;
      assert Take(id1, 12) == k1[|h1| + 1..];
      assert Take(id2, 12) == k2[|h2| + 1..];
    }
  }

  /**
   * Every switch the platform sets up has its device in the `devices` map of the device
   * linking; a registry entry carrying the switch's unique id is re-pointed exactly when that
   * device's id is non-empty and the entry is not already on it, and then to that device.
   */
  lemma SwitchEntryRelinks(cfg: PlatformConfig, hostUid: string, api: DockerApi, matches: (string, string) -> bool,
                           deviceIdOf: DeviceInfo -> string, p: Switch.SwitchParams, e: Integration.RegistryEntry)
    requires p in Switch.Switches(cfg, hostUid, api, api.names, matches)
    requires e.platform == Const.Domain && e.uniqueId == Some(Switch.SwitchUniqueId(p.hostUid, p.container.id))
    ensures var devices := Integration.DeviceIds(hostUid, api, api.names, deviceIdOf);
      var key := Integration.ContainerDeviceKey(hostUid, p.container.id);
      && key in devices
      && (Integration.Relinks(e, devices) <==> devices[key] != "" && e.deviceId != Some(devices[key]))
      && (Integration.Relinks(e, devices) ==> Integration.Target(e, devices) == devices[key])
  {
    Switch.SwitchesSelected(cfg, hostUid, api, api.names, matches);
    Integration.DeviceIdsCover(hostUid, api, api.names, deviceIdOf, p.cname);
    SwitchIdNamesItsDevice(hostUid, p.container.id);
  }

  /**
   * An imported entry is split the way migrating a version-1 entry holding the whole YAML
   * configuration would split it, and migrating it again changes nothing.
   */
  lemma ImportIsMigrated<V>(importConfig: map<string, V>, defaultName: V)
    ensures var r := ConfigFlow.ImportStep(importConfig, defaultName);
      && r.data == Integration.MigratedData(importConfig)
      && r.options == Integration.MigratedOptions(importConfig, map[])
      && Integration.MigratedData(r.data) == r.data
      && Integration.MigratedOptions(r.data, r.options) == r.options
  {
    var r := ConfigFlow.ImportStep(importConfig, defaultName);
    Integration.MoveOptionsSpec(importConfig, map[], Const.OptionKeys);
    assert r.options == Integration.MigratedOptions(importConfig, map[]);
    assert r.data == Integration.MigratedData(importConfig);
    Integration.MigrationIsIdempotent(importConfig, map[]);
  }
}
