/** The container switch platform (switch.py): which switches are created, their ids, and a switch's state. */
module Switch {
  import opened Wrappers
  import opened Text
  import opened Docker
  import opened Platform
  import Entity
  import Const

  /** The constructor arguments of one `DockerContainerSwitch`. */
  datatype SwitchParams = SwitchParams(
    hostUid: string,
    container: Container,
    instance: string,
    prefix: string,
    cname: string,
    aliasEntityId: string,
    aliasName: string,
    nameFormat: string)

  /** A container gets a switch when it is included and switches are enabled for it. */
  predicate Wanted(cfg: PlatformConfig, cname: string) {
    Included(cname, cfg.containers, cfg.exclude) && EnabledFor(cfg.switchEnabled, cname)
  }

  /**
   * Every wanted listed name resolves to a container. Only a wanted name is looked up: a switch
   * reads its container's id when it is built, and an unwanted name is never touched.
   */
  predicate ResolvesWanted(cfg: PlatformConfig, api: DockerApi, names: seq<string>) {
    forall i :: 0 <= i < |names| && Wanted(cfg, names[i]) ==> names[i] in api.containers
  }

  /** The switch made for container `cname`: the raw name for the entity id unless renaming it is asked for, the renamed alias for the display name. */
  function ParamsFor(cfg: PlatformConfig, hostUid: string, api: DockerApi, cname: string, matches: (string, string) -> bool): SwitchParams
    requires cname in api.containers
  {
    var alias := Renamed(cfg.rename, cname, matches);
    SwitchParams(hostUid, api.containers[cname], cfg.name, PrefixFor(cfg, cfg.name), cname,
      if cfg.renameEntity then alias else cname, alias, cfg.switchName)
  }

  /** The switches for the listed names, in order: one per wanted name that resolves. */
  function Switches(cfg: PlatformConfig, hostUid: string, api: DockerApi, clist: seq<string>, matches: (string, string) -> bool): seq<SwitchParams>
    decreases |clist|
  {
    if clist == [] then []
    else
      var cname := clist[|clist| - 1];
      Switches(cfg, hostUid, api, clist[..|clist| - 1], matches)
        + if Wanted(cfg, cname) && cname in api.containers then [ParamsFor(cfg, hostUid, api, cname, matches)] else []
  }

  /**
   * A switch is made exactly for each wanted listed container that resolves, bound to that
   * container, and for nothing else; when every wanted name resolves, for every wanted name.
   */
  lemma {:induction false} SwitchesSelected(cfg: PlatformConfig, hostUid: string, api: DockerApi, clist: seq<string>, matches: (string, string) -> bool)
    ensures |Switches(cfg, hostUid, api, clist, matches)| <= |clist|
    ensures forall p :: p in Switches(cfg, hostUid, api, clist, matches) ==>
      && p.cname in clist && p.cname in api.containers && Wanted(cfg, p.cname)
      && p == ParamsFor(cfg, hostUid, api, p.cname, matches)
      && p.container == api.containers[p.cname] && p.hostUid == hostUid
    ensures forall c :: c in clist && Wanted(cfg, c) && c in api.containers ==>
      ParamsFor(cfg, hostUid, api, c, matches) in Switches(cfg, hostUid, api, clist, matches)
    ensures ResolvesWanted(cfg, api, clist) ==> forall c :: c in clist && Wanted(cfg, c) ==>
      c in api.containers && ParamsFor(cfg, hostUid, api, c, matches) in Switches(cfg, hostUid, api, clist, matches)
    decreases |clist|
  {
    if clist != [] {
      var init := clist[..|clist| - 1];
      SwitchesSelected(cfg, hostUid, api, init, matches);
      assert clist == init + [clist[|clist| - 1]];
    }
  }

  /**
   * What `async_setup_entry` ends with: its return value, or the AttributeError a switch's
   * constructor raises when a wanted name's `get_container` answers None.
   */
  datatype SetupResult = Finished(ok: bool) | NoContainer(cname: string)

  /**
   * The setup loop: for each listed container, the include/exclude flag, the enabled check and
   * the two renames. It stops at the first wanted name that resolves to no container.
   */
  method SelectSwitches(cfg: PlatformConfig, hostUid: string, instance: string, prefix: string, api: DockerApi,
                        clist: seq<string>, lib: HostLib)
    returns (switches: seq<SwitchParams>, missing: Option<string>)
    requires instance == cfg.name && prefix == PrefixFor(cfg, instance)
    ensures missing.None? <==> ResolvesWanted(cfg, api, clist)
    ensures missing.None? ==> switches == Switches(cfg, hostUid, api, clist, lib.matches)
    ensures missing.Some? ==> exists i ::
      && 0 <= i < |clist| && clist[i] == missing.value
      && Wanted(cfg, clist[i]) && clist[i] !in api.containers && ResolvesWanted(cfg, api, clist[..i])
  {
    switches := [];
    for i := 0 to |clist|
      invariant switches == Switches(cfg, hostUid, api, clist[..i], lib.matches)
      invariant ResolvesWanted(cfg, api, clist[..i])
    {
      var cname := clist[i];
      assert clist[..i + 1][..i] == clist[..i];
      assert clist[..i + 1] == clist[..i] + [cname];
      var includeContainer := false;
      if cname in cfg.containers || cfg.containers == [] {
        includeContainer := true;
      }
      if cfg.exclude != [] && cname in cfg.exclude {
        includeContainer := false;
      }
      if includeContainer {
        if cfg.switchEnabled == Flag(true) || (cfg.switchEnabled.Only? && cname in cfg.switchEnabled.names) {
          if cname !in api.containers {
            assert !ResolvesWanted(cfg, api, clist) by {
              assert clist[i] == cname;
            }
            return switches, Some(cname);
          }
          var aliasEntityId := cname;
          if cfg.renameEntity {
            aliasEntityId := FindRename(cfg.rename, cname, lib.matches);
          }
          var aliasName := FindRename(cfg.rename, cname, lib.matches);
          var made := SwitchParams(hostUid, api.containers[cname], instance, prefix, cname,
                                   aliasEntityId, aliasName, cfg.switchName);
          assert made == ParamsFor(cfg, hostUid, api, cname, lib.matches);
          switches := switches + [made];
        }
      }
    }
    assert clist[..|clist|] == clist;
    return switches, None;
  }

  /**
   * `async_setup_entry`: true and no switches when switches are disabled; otherwise one
   * switch per wanted listed container and false when there is none, unless a wanted name
   * resolves to no container, which raises before any switch is added.
   */
  method SetupEntry(cfg: PlatformConfig, hostUid: string, api: DockerApi, lib: HostLib)
    returns (r: SetupResult, switches: seq<SwitchParams>)
    ensures cfg.switchEnabled == Flag(false) ==> r == Finished(true) && switches == []
    ensures cfg.switchEnabled != Flag(false) && ResolvesWanted(cfg, api, api.names) ==>
      switches == Switches(cfg, hostUid, api, api.names, lib.matches) && r == Finished(switches != [])
    ensures cfg.switchEnabled != Flag(false) && !ResolvesWanted(cfg, api, api.names) ==>
      && r.NoContainer? && switches == []
      && (exists i ::
            && 0 <= i < |api.names| && api.names[i] == r.cname
            && Wanted(cfg, r.cname) && r.cname !in api.containers && ResolvesWanted(cfg, api, api.names[..i]))
  {
    var instance := cfg.name;
    var prefix := if cfg.prefix != "" then cfg.prefix else instance;
    if cfg.switchEnabled == Flag(false) {
      return Finished(true), [];
    }
    var missing;
    switches, missing := SelectSwitches(cfg, hostUid, instance, prefix, api, api.names, lib);
    if missing.Some? {
      return NoContainer(missing.value), [];
    }
    if switches == [] {
      return Finished(false), switches;
    }
    return Finished(true), switches;
  }

  /** `f"{host_uid}:{container.id[:12]}:switch"` */
  function SwitchUniqueId(hostUid: string, id: string): (uid: string)
    ensures |uid| == |hostUid| + |Take(id, 12)| + 8
    ensures uid[..|hostUid|] == hostUid && uid[|hostUid|] == ':'
    ensures uid[|hostUid| + 1..|uid| - 7] == Take(id, 12) && uid[|uid| - 7..] == ":switch"
  {
    var uid := hostUid + ":" + Take(id, 12) + ":switch";
    assert uid[|hostUid| + 1..|uid| - 7] == Take(id, 12);
    assert uid[|uid| - 7..] == ":switch";
    uid
  }

  /** `DockerContainerSwitch`: a switch whose `_state` follows its container. */
  class ContainerSwitch {
    const hostUid: string
    const container: Container
    const instance: string
    const cname: string
    const alias: string
    const entityId: string
    const name: string
    const uniqueId: string
    var state: Option<bool>
    var removed: bool
    var updatesScheduled: nat
    var removalsScheduled: nat

    function Snapshot(): EntityState
      reads this
    {
      EntityState(state, removed, updatesScheduled, removalsScheduled)
    }

    ghost predicate Valid()
      reads this
    {
      RemovedOnce(Snapshot())
    }

    /** The entity id is built from the prefix and `alias_entityid`, the name from the alias, the unique id from the host and the container id. */
    constructor (p: SwitchParams, lib: HostLib)
      ensures Valid() && Snapshot() == Fresh
      ensures hostUid == p.hostUid && container == p.container && instance == p.instance
      ensures cname == p.cname && alias == p.aliasName
      ensures entityId == "switch." + lib.slugify(p.prefix + "_" + p.aliasEntityId)
      ensures name == lib.formatName(p.nameFormat, p.aliasName)
      ensures uniqueId == SwitchUniqueId(p.hostUid, p.container.id)
    {
      hostUid := p.hostUid;
      container := p.container;
      instance := p.instance;
      cname := p.cname;
      alias := p.aliasName;
      state := Some(false);
      entityId := "switch." + lib.slugify(p.prefix + "_" + p.aliasEntityId);
      name := lib.formatName(p.nameFormat, p.aliasName);
      var cidShort := Take(p.container.id, 12);
      uniqueId := p.hostUid + ":" + cidShort + ":switch";
      removed := false;
      updatesScheduled, removalsScheduled := 0, 0;
    }

    /** `device_info`, inherited from the base entity: the container's device, named by the alias. */
    function DeviceDescription(): (d: DeviceInfo)
      ensures d.identifiers == {(Const.Domain, hostUid + ":" + Take(container.id, 12))}
      ensures d.viaDevice == Some((Const.Domain, hostUid)) && d.name == Some(alias)
    {
      Entity.BaseDeviceInfo(hostUid, Some(container), Some(alias))
    }

    /** `async_turn_on`: after the container starts, the switch reads on and an update is scheduled. */
    method TurnOn()
      requires Valid()
      modifies this
      ensures Valid() && Snapshot() == Commanded(old(Snapshot()), true)
    {
      state := Some(true);
      updatesScheduled := updatesScheduled + 1;
    }

    /** `async_turn_off`: after the container stops, the switch reads off and an update is scheduled. */
    method TurnOff()
      requires Valid()
      modifies this
      ensures Valid() && Snapshot() == Commanded(old(Snapshot()), false)
    {
      state := Some(false);
      updatesScheduled := updatesScheduled + 1;
    }

    /** `event_callback` as intended (see `RemoveCallbackAsWritten`), with `get_info()` answering `info`. */
    method EventCallback(remove: bool, info: InfoResult)
      requires Valid()
      modifies this
      ensures Valid() && Snapshot() == CallbackStep(old(Snapshot()), remove, info)
    {
      if remove {
        if removed {
          return;
        }
        removalsScheduled := removalsScheduled + 1;
        removed := true;
        return;
      }
      var newState: Option<bool> := None;
      if info.InfoOk? {
        newState := Some(info.info.state == Some("running"));
      }
      if newState != state {
        state := newState;
        updatesScheduled := updatesScheduled + 1;
      }
    }
  }

  // ---------------------------------------------------------------------------
  // The remove callback as written: switch.py never imports asyncio, so the name lookup in
  // `asyncio.create_task(...)` raises NameError before `_removed` is set.

  /**
   * A callback as written: the new state, and whether the call raised. It agrees with the
   * intended step exactly when it does not raise, and it raises on the first remove callback.
   */
  function RemoveCallbackAsWritten(st: EntityState, remove: bool, info: InfoResult): (r: (EntityState, bool))
    ensures r.1 <==> remove && !st.removed
    ensures r.1 ==> r.0 == st
    ensures !r.1 ==> r.0 == CallbackStep(st, remove, info)
  {
    if remove then
      if st.removed then (st, false) else (st, true)
    else (CallbackStep(st, false, info), false)
  }

  /** The state after `n` remove callbacks as written, with how many of them raised. */
  function RemovesAsWritten(st: EntityState, n: nat): (EntityState, nat)
    decreases n
  {
    if n == 0 then (st, 0)
    else
      var r := RemoveCallbackAsWritten(st, true, InfoMissing);
      var rest := RemovesAsWritten(r.0, n - 1);
      (rest.0, rest.1 + if r.1 then 1 else 0)
  }

  /**
   * As written, a switch that is not yet removed stays exactly as it is however many remove
   * callbacks arrive, and every one of them raises: it is never removed.
   */
  lemma {:induction false} SwitchNeverRemovedAsWritten(st: EntityState, n: nat)
    requires !st.removed
    ensures RemovesAsWritten(st, n) == (st, n)
    decreases n
  {
    if n > 0 {
      SwitchNeverRemovedAsWritten(st, n - 1);
    }
  }

  /** Two remove callbacks on a new switch: as written nothing is scheduled; as intended one removal is. */
  lemma RemoveAsWrittenDiffers()
    ensures RemovesAsWritten(Fresh, 2) == (Fresh, 2)
    ensures Run(Fresh, [Callback(true, InfoMissing), Callback(true, InfoMissing)]).removalsScheduled == 1
    ensures Run(Fresh, [Callback(true, InfoMissing), Callback(true, InfoMissing)]).removed
  {
    SwitchNeverRemovedAsWritten(Fresh, 2);
  }
}
