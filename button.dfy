/** The restart-button platform (button.py): which buttons are created, and a button's state. */
module Button {
  import opened Wrappers
  import opened Docker
  import opened Platform

  /** The constructor arguments of one `DockerContainerButton`. */
  datatype ButtonParams = ButtonParams(
    container: Option<Container>,
    instance: string,
    prefix: string,
    cname: string,
    aliasEntityId: string,
    aliasName: string,
    nameFormat: string)

  /** A container gets a button when it is included and buttons are enabled for it. */
  predicate Wanted(cfg: PlatformConfig, cname: string) {
    Included(cname, cfg.containers, cfg.exclude) && EnabledFor(cfg.buttonEnabled, cname)
  }

  /** The button made for container `cname`: the raw name for the entity id unless renaming it is asked for, the renamed alias for the display name. */
  function ParamsFor(cfg: PlatformConfig, instance: string, api: DockerApi, cname: string, matches: (string, string) -> bool): ButtonParams {
    var alias := Renamed(cfg.rename, cname, matches);
    ButtonParams(
      if cname in api.containers then Some(api.containers[cname]) else None,
      instance, PrefixFor(cfg, instance), cname,
      if cfg.renameEntity then alias else cname,
      alias, cfg.buttonName)
  }

  /** The buttons for the candidate names, in order. */
  function Buttons(cfg: PlatformConfig, instance: string, api: DockerApi, clist: seq<string>, matches: (string, string) -> bool): seq<ButtonParams>
    decreases |clist|
  {
    if clist == [] then []
    else
      var cname := clist[|clist| - 1];
      Buttons(cfg, instance, api, clist[..|clist| - 1], matches)
        + if Wanted(cfg, cname) then [ParamsFor(cfg, instance, api, cname, matches)] else []
  }

  /** A button is made exactly for each wanted candidate, and for nothing else. */
  lemma {:induction false} ButtonsSelected(cfg: PlatformConfig, instance: string, api: DockerApi, clist: seq<string>, matches: (string, string) -> bool)
    ensures |Buttons(cfg, instance, api, clist, matches)| <= |clist|
    ensures forall b :: b in Buttons(cfg, instance, api, clist, matches) ==>
      b.cname in clist && Wanted(cfg, b.cname) && b == ParamsFor(cfg, instance, api, b.cname, matches)
    ensures forall c :: c in clist && Wanted(cfg, c) ==> ParamsFor(cfg, instance, api, c, matches) in Buttons(cfg, instance, api, clist, matches)
    decreases |clist|
  {
    if clist != [] {
      var init := clist[..|clist| - 1];
      ButtonsSelected(cfg, instance, api, init, matches);
      assert clist == init + [clist[|clist| - 1]];
    }
  }

  /** The discovery information the platform is started with: the instance name and possibly one container. */
  datatype Discovery = Discovery(name: string, container: Option<string>)

  /** What `async_setup_platform` returns: None, or a boolean. */
  datatype SetupReturn = NoValue | Returned(ok: bool)

  /** The names to consider: the one container named by the discovery, else every listed container. */
  function Candidates(d: Discovery, api: DockerApi): seq<string> {
    if d.container.Some? then [d.container.value] else api.names
  }

  /** The setup loop: for each candidate, the include/exclude flag, the enabled check and the two renames. */
  method SelectButtons(cfg: PlatformConfig, instance: string, prefix: string, api: DockerApi, clist: seq<string>, lib: HostLib)
    returns (buttons: seq<ButtonParams>)
    requires prefix == PrefixFor(cfg, instance)
    ensures buttons == Buttons(cfg, instance, api, clist, lib.matches)
  {
    buttons := [];
    for i := 0 to |clist|
      invariant buttons == Buttons(cfg, instance, api, clist[..i], lib.matches)
    {
      var cname := clist[i];
      assert clist[..i + 1][..i] == clist[..i];
      var includeContainer := false;
      if cname in cfg.containers || cfg.containers == [] {
        includeContainer := true;
      }
      if cfg.exclude != [] && cname in cfg.exclude {
        includeContainer := false;
      }
      assert includeContainer == Included(cname, cfg.containers, cfg.exclude);
      if includeContainer {
        if cfg.buttonEnabled == Flag(true) || (cfg.buttonEnabled.Only? && cname in cfg.buttonEnabled.names) {
          var aliasEntityId := cname;
          if cfg.renameEntity {
            aliasEntityId := FindRename(cfg.rename, cname, lib.matches);
          }
          var aliasName := FindRename(cfg.rename, cname, lib.matches);
          var container := if cname in api.containers then Some(api.containers[cname]) else None;
          var made := ButtonParams(container, instance, prefix, cname, aliasEntityId, aliasName, cfg.buttonName);
          assert made == ParamsFor(cfg, instance, api, cname, lib.matches);
          buttons := buttons + [made];
        }
      }
    }
    assert clist[..|clist|] == clist;
  }

  /**
   * `async_setup_platform`: nothing without discovery information; true and no buttons when
   * buttons are disabled; otherwise one button per wanted candidate and false when there is none.
   * `cfg` is the configuration stored for the discovered instance.
   */
  method SetupPlatform(discovery: Option<Discovery>, cfg: PlatformConfig, api: DockerApi, lib: HostLib)
    returns (ret: SetupReturn, buttons: seq<ButtonParams>)
    ensures discovery.None? ==> ret == NoValue && buttons == []
    ensures discovery.Some? && cfg.buttonEnabled == Flag(false) ==> ret == Returned(true) && buttons == []
    ensures discovery.Some? && cfg.buttonEnabled != Flag(false) ==>
      && buttons == Buttons(cfg, discovery.value.name, api, Candidates(discovery.value, api), lib.matches)
      && ret == Returned(buttons != [])
  {
    if discovery.None? {
      return NoValue, [];
    }
    var instance := discovery.value.name;
    var prefix := instance;
    if cfg.prefix != "" {
      prefix := cfg.prefix;
    }
    if cfg.buttonEnabled == Flag(false) {
      return Returned(true), [];
    }
    var clist := if discovery.value.container.Some? then [discovery.value.container.value] else api.names;
    buttons := SelectButtons(cfg, instance, prefix, api, clist, lib);
    if buttons == [] {
      return Returned(false), buttons;
    }
    return Returned(true), buttons;
  }

  /** `DockerContainerButton`: a restart button whose `_state` follows its container. */
  class ContainerButton {
    const container: Option<Container>
    const instance: string
    const cname: string
    const entityId: string
    const name: string
    var state: Option<bool>
    var removed: bool
    var updatesScheduled: nat
    var removalsScheduled: nat

    function Snapshot(): EntityState
      reads this
    {
      EntityState(state, removed, updatesScheduled, removalsScheduled)
    }

    ghost predicate Valid()
      reads this
    {
      RemovedOnce(Snapshot())
    }

    /** The entity id is built from the prefix and the raw container name; the display name from the alias. */
    constructor (p: ButtonParams, lib: HostLib)
      ensures Valid() && Snapshot() == Fresh
      ensures container == p.container && instance == p.instance && cname == p.cname
      ensures entityId == "button." + lib.slugify(p.prefix + "_" + p.cname + "_restart")
      ensures name == lib.formatName(p.nameFormat, p.aliasName)
    {
      container := p.container;
      instance := p.instance;
      cname := p.cname;
      state := Some(false);
      entityId := "button." + lib.slugify(p.prefix + "_" + p.cname + "_restart");
      name := lib.formatName(p.nameFormat, p.aliasName);
      removed := false;
      updatesScheduled, removalsScheduled := 0, 0;
    }

    /** `unique_id`: the container's `get_id()` followed by "_restart" (None where the property would raise: no container). */
    function UniqueId(): (uid: Option<string>)
      ensures uid.Some? <==> container.Some?
      ensures uid.Some? ==> uid.value == container.value.apiId + "_restart"
    {
      if container.Some? then Some(container.value.apiId + "_restart") else None
    }

    /** `async_press`: after the container restarts, the button reads off and an update is scheduled. */
    method Press()
      requires Valid()
      modifies this
      ensures Valid() && Snapshot() == Commanded(old(Snapshot()), false)
    {
      state := Some(false);
      updatesScheduled := updatesScheduled + 1;
    }

    /** `event_callback` with the container's `get_info()` answering `info`. */
    method EventCallback(remove: bool, info: InfoResult)
      requires Valid()
      modifies this
      ensures Valid() && Snapshot() == CallbackStep(old(Snapshot()), remove, info)
    {
      if remove {
        if removed {
          return;
        }
        removalsScheduled := removalsScheduled + 1;
        removed := true;
        return;
      }
      var newState: Option<bool> := None;
      if info.InfoOk? {
        newState := Some(info.info.state == Some("running"));
      }
      if newState != state {
        state := newState;
        updatesScheduled := updatesScheduled + 1;
      }
    }
  }

  /** A client: a second remove callback schedules no second removal. */
  method RemoveTwice(b: ContainerButton, info: InfoResult)
    requires b.Valid() && !b.removed
    modifies b
    ensures b.removed && b.removalsScheduled == old(b.removalsScheduled) + 1
  {
    b.EventCallback(true, info);
    b.EventCallback(true, info);
  }
}
