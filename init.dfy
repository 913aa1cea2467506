/**
 * The integration's entry points (__init__.py): migrating a version-1 config entry,
 * normalising the monitored conditions, deriving the host's identifier and name, and
 * linking registry entities to container devices.
 */
module Integration {
  import opened Wrappers
  import opened Text
  import opened Docker
  import opened Const

  // ---------------------------------------------------------------------------
  // Config entries and their migration

  /** A config entry as the migration sees it: a version, a data dictionary and an options dictionary. */
  class ConfigEntry<V> {
    var version: int
    var data: map<string, V>
    var options: map<string, V>
    const entryId: string
    const uniqueId: Option<string>

    constructor (version: int, data: map<string, V>, options: map<string, V>, entryId: string, uniqueId: Option<string>)
      ensures this.version == version && this.data == data && this.options == options
      ensures this.entryId == entryId && this.uniqueId == uniqueId
    {
      this.version := version;
      this.data := data;
      this.options := options;
      this.entryId := entryId;
      this.uniqueId := uniqueId;
    }
  }

  /** The data dictionary a migration keeps: every key except the option keys. */
  function MigratedData<V>(data: map<string, V>): (migrated: map<string, V>)
    ensures forall k :: k in migrated <==> k in data && k !in OptionKeys
    ensures forall k :: k in migrated ==> migrated[k] == data[k]
  {
    map k | k in data && k !in OptionKeys :: data[k]
  }

  /** The options after copying, key by key, each of `keys` that `data` has and `options` lacks. */
  function MoveOptions<V>(data: map<string, V>, options: map<string, V>, keys: seq<string>): map<string, V>
    decreases |keys|
  {
    if keys == [] then options
    else
      var before := MoveOptions(data, options, keys[..|keys| - 1]);
      var key := keys[|keys| - 1];
      if key in data && key !in before then before[key := data[key]] else before
  }

  function MigratedOptions<V>(data: map<string, V>, options: map<string, V>): map<string, V>
  {
    MoveOptions(data, options, OptionKeys)
  }

  /**
   * Moving keys never overwrites an option and never touches a key outside `keys`: a key is
   * an option afterwards exactly when it was one before or is a moved key that data holds.
   */
  lemma {:induction false} MoveOptionsSpec<V>(data: map<string, V>, options: map<string, V>, keys: seq<string>)
    ensures var r := MoveOptions(data, options, keys);
      forall k :: (k in r <==> k in options || (k in keys && k in data))
        && (k in options ==> r[k] == options[k])
        && (k !in options && k in keys && k in data ==> r[k] == data[k])
    decreases |keys|
  {
    if keys != [] {
      var init := keys[..|keys| - 1];
      MoveOptionsSpec(data, options, init);
      assert keys == init + [keys[|keys| - 1]];
      assert forall k :: k in keys <==> k in init || k == keys[|keys| - 1];
    }
  }

  /**
   * What `async_setup_entry` reads is `{**entry.data, **entry.options}`; migration leaves that
   * merged configuration exactly as it was.
   */
  lemma MigrationKeepsMergedConfig<V>(data: map<string, V>, options: map<string, V>)
    ensures MigratedData(data) + MigratedOptions(data, options) == data + options
  {
    MoveOptionsSpec(data, options, OptionKeys);
    var before := data + options;
    var after := MigratedData(data) + MigratedOptions(data, options);
    assert forall k :: k in OptionKeys <==> k == ContainersKey || k == MonitoredConditionsKey;
    assert after.Keys == before.Keys;
    forall k | k in after
      ensures after[k] == before[k]
    {
    }
  }

  /** Migrating what a migration produced changes nothing more. */
  lemma MigrationIsIdempotent<V>(data: map<string, V>, options: map<string, V>)
    ensures MigratedData(MigratedData(data)) == MigratedData(data)
    ensures MigratedOptions(MigratedData(data), MigratedOptions(data, options)) == MigratedOptions(data, options)
  {
    var d, o := MigratedData(data), MigratedOptions(data, options);
    MoveOptionsSpec(d, o, OptionKeys);
    var o2 := MigratedOptions(d, o);
    assert o2.Keys == o.Keys;
  }

  /**
   * `async_migrate_entry`: an entry above version 1 is left alone; otherwise the two option
   * keys move from data into options, where an existing option wins, and the version becomes 2.
   */
  method MigrateEntry<V>(entry: ConfigEntry<V>) returns (ok: bool)
    modifies entry
    ensures ok
    ensures old(entry.version) > 1 ==>
      entry.version == old(entry.version) && entry.data == old(entry.data) && entry.options == old(entry.options)
    ensures old(entry.version) <= 1 ==>
      && entry.version == 2
      && entry.data == MigratedData(old(entry.data))
      && entry.options == MigratedOptions(old(entry.data), old(entry.options))
  {
    if entry.version > 1 {
      return true;
    }
    var data := map k | k in entry.data && k !in OptionKeys :: entry.data[k];
    var options := entry.options;
    for i := 0 to |OptionKeys|
      invariant options == MoveOptions(entry.data, entry.options, OptionKeys[..i])
    {
      var key := OptionKeys[i];
      if key in entry.data && key !in options {
        options := options[key := entry.data[key]];
      }
      assert OptionKeys[..i + 1][..i] == OptionKeys[..i];
    }
    assert OptionKeys[..|OptionKeys|] == OptionKeys;
    entry.version := 2;
    entry.data, entry.options := data, options;
    return true;
  }

  /** A configuration value of the kinds the migration test uses. */
  datatype Value = Str(text: string) | Number(n: int) | Items(items: seq<Value>)

  /** The migration test case: a version-1 entry whose data holds both option keys and one more. */
  method MigrationExample()
  {
    var containers := Items([Str("c1")]);
    var conditions := Items([Str("condition")]);
    var data := map[ContainersKey := containers, MonitoredConditionsKey := conditions, "other" := Number(1)];
    var entry := new ConfigEntry<Value>(1, data, map[], "test", None);
    var ok := MigrateEntry(entry);
    MoveOptionsSpec(data, map[], OptionKeys);
    assert ok && entry.version == 2;
    assert ContainersKey !in entry.data && MonitoredConditionsKey !in entry.data;
    assert entry.options[ContainersKey] == containers;
    assert entry.options[MonitoredConditionsKey] == conditions;
    assert entry.data["other"] == Number(1);
  }

  // ---------------------------------------------------------------------------
  // Monitored conditions

  /** `lst.index(x)` */
  function IndexOf(s: seq<string>, x: string): (i: nat)
    requires x in s
    ensures i < |s| && s[i] == x && x !in s[..i]
  {
    if s[0] == x then 0
    else
      var j := IndexOf(s[1..], x);
      assert s[..j + 1] == [s[0]] + s[1..][..j];
      j + 1
  }

  /** `lst.remove(x)` on a copy of `lst`: its first `x` is dropped. */
  function RemoveFirst(s: seq<string>, x: string): (r: seq<string>)
    requires x in s
    ensures |r| == |s| - 1
    ensures multiset(r) == multiset(s) - multiset{x}
  {
    var i := IndexOf(s, x);
    assert s == s[..i] + [x] + s[i + 1..];
    s[..i] + s[i + 1..]
  }

  /** `list.remove` keeps the order: the result with `x` put back at its first position is the list again. */
  lemma RemoveFirstKeepsOrder(s: seq<string>, x: string)
    requires x in s
    ensures var r := RemoveFirst(s, x);
      exists i :: 0 <= i <= |r| && x !in r[..i] && s == r[..i] + [x] + r[i..]
  {
    var i := IndexOf(s, x);
    var r := RemoveFirst(s, x);
    assert r == s[..i] + s[i + 1..];
    SpliceAt(s, i);
    assert x !in r[..i] by {
      assert r[..i] == s[..i];
    }
    assert s == r[..i] + [x] + r[i..];
  }

  /** Cutting out position `i` and putting it back. */
  lemma SpliceAt(s: seq<string>, i: nat)
    requires i < |s|
    ensures var r := s[..i] + s[i + 1..];
      r[..i] == s[..i] && r[i..] == s[i + 1..] && s == r[..i] + [s[i]] + r[i..]
  {
    var r := s[..i] + s[i + 1..];
    assert r[..i] == s[..i];
    assert r[i..] == s[i + 1..];
    assert s == s[..i] + [s[i]] + s[i + 1..];
  }

  /**
   * The normalisation in `async_setup_entry`: an empty list becomes the full list without the
   * all-in-one condition; a list of just all-in-one becomes the full list followed by all-in-one;
   * any other list is kept. `allInOne in allConditions` is what the source's `.remove` relies on.
   */
  method NormaliseConditions(monitored: seq<string>, allConditions: seq<string>, allInOne: string)
    returns (conditions: seq<string>)
    requires allInOne in allConditions
    ensures monitored != [] && monitored != [allInOne] ==> conditions == monitored
    ensures monitored == [allInOne] ==> conditions == allConditions + [allInOne]
    ensures monitored == [] ==>
      if RemoveFirst(allConditions, allInOne) == [allInOne] then conditions == allConditions + [allInOne]
      else conditions == RemoveFirst(allConditions, allInOne)
    ensures monitored == [] && multiset(allConditions)[allInOne] == 1 ==>
      && allInOne !in conditions
      && multiset(conditions) == multiset(allConditions) - multiset{allInOne}
  {
    conditions := monitored;
    if |conditions| == 0 {
      conditions := allConditions;
      conditions := RemoveFirst(conditions, allInOne);
      RemoveOnlyOccurrence(allConditions, allInOne);
    }
    if |conditions| == 1 && allInOne in conditions {
      assert conditions == [allInOne];
      conditions := allConditions + [allInOne];
    }
  }

  /** Removing the only occurrence of `x` leaves no `x`. */
  lemma RemoveOnlyOccurrence(s: seq<string>, x: string)
    requires x in s
    ensures multiset(s)[x] == 1 ==> x !in RemoveFirst(s, x)
  {
    if multiset(s)[x] == 1 {
      assert multiset(RemoveFirst(s, x))[x] == 0;
    }
  }

  // ---------------------------------------------------------------------------
  // The host's identifier and name

  /** Python truthiness of an optional string. */
  predicate Truthy(s: Option<string>) {
    s.Some? && s.value != ""
  }

  /** `entry.data.get("host") or entry.data.get(CONF_URL) or "host"` */
  function HostLabel(host: Option<string>, url: Option<string>): (hostLabel: string)
    ensures hostLabel != ""
    ensures Truthy(host) ==> hostLabel == host.value
    ensures !Truthy(host) && Truthy(url) ==> hostLabel == url.value
    ensures !Truthy(host) && !Truthy(url) ==> hostLabel == "host"
  {
    if Truthy(host) then host.value else if Truthy(url) then url.value else "host"
  }

  /** `entry.unique_id or entry.entry_id` */
  function EntryKey(uniqueId: Option<string>, entryId: string): (key: string)
    ensures Truthy(uniqueId) ==> key == uniqueId.value
    ensures !Truthy(uniqueId) ==> key == entryId
  {
    if Truthy(uniqueId) then uniqueId.value else entryId
  }

  /**
   * `host_uid`: the host label, a colon, then the entry's unique id or else its entry id.
   * When that key holds no colon, the part before the last colon is the host label again.
   */
  function HostUid(host: Option<string>, url: Option<string>, uniqueId: Option<string>, entryId: string): (uid: string)
    ensures |uid| > |HostLabel(host, url)| && uid[..|HostLabel(host, url)| + 1] == HostLabel(host, url) + ":"
    ensures uid[|HostLabel(host, url)| + 1..] == EntryKey(uniqueId, entryId)
    ensures ':' !in EntryKey(uniqueId, entryId) ==> BeforeLast(uid, ':') == HostLabel(host, url)
  {
    var hostLabel := HostLabel(host, url);
    var key := EntryKey(uniqueId, entryId);
    var uid := hostLabel + ":" + key;
    assert ':' !in key ==> BeforeLast(uid, ':') == hostLabel by {
      if ':' !in key {
        BeforeLastAppend(hostLabel, ':', key);
      }
    }
    uid
  }

  /** `host_name`: the host when one is given (then it is also the label of `HostUid`), else a fixed name. */
  function HostName(host: Option<string>): (name: string)
    ensures name != ""
    ensures Truthy(host) ==> forall url :: name == HostLabel(host, url)
    ensures !Truthy(host) ==> name == "Remote Docker Host"
  {
    if Truthy(host) then host.value else "Remote Docker Host"
  }

  // ---------------------------------------------------------------------------
  // Linking entities to container devices

  /** The identifier of a container's device: `f"{host_uid}:{capi.id[:12]}"`. */
  function ContainerDeviceKey(hostUid: string, id: string): (key: string)
    ensures |key| == |hostUid| + 1 + |Take(id, 12)| && key[|hostUid|] == ':'
    ensures key[..|hostUid|] == hostUid && key[|hostUid| + 1..] == Take(id, 12)
  {
    var key := hostUid + [':'] + Take(id, 12);
    assert key[|hostUid| + 1..] == Take(id, 12);
    key
  }

  /** The device `_async_link_devices` asks the registry for, for container `cname`. */
  function ContainerDevice(hostUid: string, cname: string, c: Container): (d: DeviceInfo)
    ensures d.identifiers == {(Domain, ContainerDeviceKey(hostUid, c.id))} && d.viaDevice == Some((Domain, hostUid))
    ensures d.manufacturer == "Docker" && d.name == Some(cname) && d.model != ""
    ensures d.swVersion.Some? <==> c.info.imageHash.HashText?
  {
    var model := if c.info.image.Some? && c.info.image.value != "" then c.info.image.value else "container";
    var sw := if c.info.imageHash.HashText? then Some(Take(c.info.imageHash.text, 12)) else None;
    DeviceInfo({(Domain, ContainerDeviceKey(hostUid, c.id))}, Some((Domain, hostUid)), "Docker", model, Some(cname), sw)
  }

  /** The devices created for `names`, in order, skipping names that resolve to no container. */
  function ContainerDevices(hostUid: string, api: DockerApi, names: seq<string>): seq<DeviceInfo>
    decreases |names|
  {
    if names == [] then []
    else
      var n := names[|names| - 1];
      ContainerDevices(hostUid, api, names[..|names| - 1])
        + if n in api.containers then [ContainerDevice(hostUid, n, api.containers[n])] else []
  }

  /**
   * A device is created for each listed container the API resolves, and every created device
   * is the device of such a container: unresolvable names are skipped.
   */
  lemma {:induction false} ContainerDevicesSpec(hostUid: string, api: DockerApi, names: seq<string>)
    ensures |ContainerDevices(hostUid, api, names)| <= |names|
    ensures forall d :: d in ContainerDevices(hostUid, api, names) ==>
      exists n :: n in names && n in api.containers && d == ContainerDevice(hostUid, n, api.containers[n])
    ensures forall n :: n in names && n in api.containers ==>
      ContainerDevice(hostUid, n, api.containers[n]) in ContainerDevices(hostUid, api, names)
    decreases |names|
  {
    if names != [] {
      var init := names[..|names| - 1];
      ContainerDevicesSpec(hostUid, api, init);
      assert names == init + [names[|names| - 1]];
    }
  }

  /** The `devices` map: device key to registry device id, a later container winning a shared key. */
  function DeviceIds(hostUid: string, api: DockerApi, names: seq<string>, deviceIdOf: DeviceInfo -> string): map<string, string>
    decreases |names|
  {
    if names == [] then map[]
    else
      var n := names[|names| - 1];
      var before := DeviceIds(hostUid, api, names[..|names| - 1], deviceIdOf);
      if n in api.containers then
        before[ContainerDeviceKey(hostUid, api.containers[n].id) := deviceIdOf(ContainerDevice(hostUid, n, api.containers[n]))]
      else before
  }

  /** Every resolvable container gets its device key in the map. */
  lemma {:induction false} DeviceIdsCover(hostUid: string, api: DockerApi, names: seq<string>, deviceIdOf: DeviceInfo -> string, n: string)
    requires n in names && n in api.containers
    ensures ContainerDeviceKey(hostUid, api.containers[n].id) in DeviceIds(hostUid, api, names, deviceIdOf)
    decreases |names|
  {
    var init := names[..|names| - 1];
    if n != names[|names| - 1] {
      assert names == init + [names[|names| - 1]];
      DeviceIdsCover(hostUid, api, init, deviceIdOf, n);
    }
  }

  /** Every key of the map is the device key of a listed, resolvable container, and maps to the id of that container's device. */
  lemma {:induction false} DeviceIdsOrigin(hostUid: string, api: DockerApi, names: seq<string>, deviceIdOf: DeviceInfo -> string, k: string)
    requires k in DeviceIds(hostUid, api, names, deviceIdOf)
    ensures exists i :: (0 <= i < |names| && names[i] in api.containers
      && k == ContainerDeviceKey(hostUid, api.containers[names[i]].id)
      && DeviceIds(hostUid, api, names, deviceIdOf)[k] == deviceIdOf(ContainerDevice(hostUid, names[i], api.containers[names[i]])))
    decreases |names|
  {
    var last := |names| - 1;
    var init := names[..last];
    var n := names[last];
    if n in api.containers && k == ContainerDeviceKey(hostUid, api.containers[n].id) {
      assert names[last] == n;
    } else {
      DeviceIdsOrigin(hostUid, api, init, deviceIdOf, k);
      var i :| 0 <= i < |init| && init[i] in api.containers
        && k == ContainerDeviceKey(hostUid, api.containers[init[i]].id)
        && DeviceIds(hostUid, api, init, deviceIdOf)[k] == deviceIdOf(ContainerDevice(hostUid, init[i], api.containers[init[i]]));
      assert names[i] == init[i];
    }
  }

  /** An entity-registry entry: its entity id, platform, unique id and current device. */
  datatype RegistryEntry = RegistryEntry(entityId: string, platform: string, uniqueId: Option<string>, deviceId: Option<string>)

  /**
   * The entry belongs to this integration, has a unique id, the part of that id before its last
   * colon names a known device with a non-empty id, and the entry is not already on that device.
   */
  predicate Relinks(e: RegistryEntry, devices: map<string, string>) {
    && e.platform == Domain
    && Truthy(e.uniqueId)
    && BeforeLast(e.uniqueId.value, ':') in devices
    && devices[BeforeLast(e.uniqueId.value, ':')] != ""
    && e.deviceId != Some(devices[BeforeLast(e.uniqueId.value, ':')])
  }

  function Target(e: RegistryEntry, devices: map<string, string>): string
    requires Relinks(e, devices)
  {
    devices[BeforeLast(e.uniqueId.value, ':')]
  }

  /** The `(entity_id, device_id)` registry updates, in entry order. */
  function Relinked(entries: seq<RegistryEntry>, devices: map<string, string>): seq<(string, string)>
    decreases |entries|
  {
    if entries == [] then []
    else
      var e := entries[|entries| - 1];
      Relinked(entries[..|entries| - 1], devices)
        + if Relinks(e, devices) then [(e.entityId, Target(e, devices))] else []
  }

  /** Exactly the entries that need re-pointing are updated, each to the device its unique id names. */
  lemma {:induction false} RelinkedSpec(entries: seq<RegistryEntry>, devices: map<string, string>)
    ensures |Relinked(entries, devices)| <= |entries|
    ensures forall i :: 0 <= i < |entries| && Relinks(entries[i], devices) ==>
      (entries[i].entityId, Target(entries[i], devices)) in Relinked(entries, devices)
    ensures forall u :: u in Relinked(entries, devices) ==>
      exists i :: 0 <= i < |entries| && Relinks(entries[i], devices) && u == (entries[i].entityId, Target(entries[i], devices))
    decreases |entries|
  {
    if entries != [] {
      var last := |entries| - 1;
      var init := entries[..last];
      RelinkedSpec(init, devices);
      forall i | 0 <= i < |entries| && Relinks(entries[i], devices)
        ensures (entries[i].entityId, Target(entries[i], devices)) in Relinked(entries, devices)
      {
        if i < last {
          assert entries[i] == init[i];
        }
      }
      forall u | u in Relinked(entries, devices)
        ensures exists i :: 0 <= i < |entries| && Relinks(entries[i], devices) && u == (entries[i].entityId, Target(entries[i], devices))
      {
        if u in Relinked(init, devices) {
          var i :| 0 <= i < |init| && Relinks(init[i], devices) && u == (init[i].entityId, Target(init[i], devices));
          assert entries[i] == init[i];
        } else {
          assert Relinks(entries[last], devices);
        }
      }
    }
  }

  /**
   * `_async_link_devices`: one registry device per resolvable container, the `devices` map
   * from device key to device id, and the entity updates that re-point entries to their devices.
   * The device registry's answer is the parameter `deviceIdOf`.
   */
  method LinkDevices(hostUid: string, api: DockerApi, entries: seq<RegistryEntry>, deviceIdOf: DeviceInfo -> string)
    returns (created: seq<DeviceInfo>, devices: map<string, string>, updates: seq<(string, string)>)
    ensures created == ContainerDevices(hostUid, api, api.names)
    ensures devices == DeviceIds(hostUid, api, api.names, deviceIdOf)
    ensures updates == Relinked(entries, devices)
  {
    created, devices := CreateDevices(hostUid, api, deviceIdOf);
    updates := RelinkEntries(entries, devices);
  }

  /** The first loop of `_async_link_devices`: one device per resolvable container, and the `devices` map. */
  method CreateDevices(hostUid: string, api: DockerApi, deviceIdOf: DeviceInfo -> string)
    returns (created: seq<DeviceInfo>, devices: map<string, string>)
    ensures created == ContainerDevices(hostUid, api, api.names)
    ensures devices == DeviceIds(hostUid, api, api.names, deviceIdOf)
  {
    created, devices := [], map[];
    for i := 0 to |api.names|
      invariant created == ContainerDevices(hostUid, api, api.names[..i])
      invariant devices == DeviceIds(hostUid, api, api.names[..i], deviceIdOf)
    {
      var cname := api.names[i];
      assert api.names[..i + 1][..i] == api.names[..i];
      if cname !in api.containers {
        continue;
      }
      var capi := api.containers[cname];
      var cidShort := Take(capi.id, 12);
      var model := if capi.info.image.Some? && capi.info.image.value != "" then capi.info.image.value else "container";
      var sw := if capi.info.imageHash.HashText? then Some(Take(capi.info.imageHash.text, 12)) else None;
      var device := DeviceInfo({(Domain, hostUid + ":" + cidShort)}, Some((Domain, hostUid)), "Docker", model, Some(cname), sw);
      assert device == ContainerDevice(hostUid, cname, capi);
      created := created + [device];
      devices := devices[hostUid + ":" + cidShort := deviceIdOf(device)];
    }
    assert api.names[..|api.names|] == api.names;
  }

  /** The second loop of `_async_link_devices`: the registry updates of the relinking rule, in entry order. */
  method RelinkEntries(entries: seq<RegistryEntry>, devices: map<string, string>) returns (updates: seq<(string, string)>)
    ensures updates == Relinked(entries, devices)
  {
    updates := [];
    for j := 0 to |entries|
      invariant updates == Relinked(entries[..j], devices)
    {
      var ent := entries[j];
      assert entries[..j + 1][..j] == entries[..j];
      if ent.platform != Domain || !Truthy(ent.uniqueId) {
        continue;
      }
      var baseUid := BeforeLast(ent.uniqueId.value, ':');
      if baseUid in devices && devices[baseUid] != "" && ent.deviceId != Some(devices[baseUid]) {
        updates := updates + [(ent.entityId, devices[baseUid])];
      }
    }
    assert entries[..|entries|] == entries;
  }
}
