/**
 * The rules that button.py and switch.py both spell out, each in its own copy: which
 * containers get an entity, the first-match rename, the restart service's dispatch, and
 * how an entity's state reacts to the container's callbacks.
 */
module Platform {
  import opened Wrappers
  import opened Docker

  /** A platform's "enabled" option: a flag, or the list of container names that get an entity. */
  datatype Enabled = Flag(on: bool) | Only(names: seq<string>)

  /** The validated configuration fields the entity platforms read. */
  datatype PlatformConfig = PlatformConfig(
    name: string,
    prefix: string,
    containers: seq<string>,
    exclude: seq<string>,
    rename: seq<(string, string)>,   // the rename dictionary, in its order
    renameEntity: bool,
    switchEnabled: Enabled,
    buttonEnabled: Enabled,
    switchName: string,
    buttonName: string)

  /** The host-library calls the platforms make: `re.match(pattern, s)`, `slugify`, `fmt.format(name=s)`. */
  datatype HostLib = HostLib(
    matches: (string, string) -> bool,
    slugify: string -> string,
    formatName: (string, string) -> string)

  /** The `includeContainer` rule: listed (or no list given), and not in a non-empty exclude list. */
  predicate Included(cname: string, containers: seq<string>, exclude: seq<string>) {
    (cname in containers || containers == []) && !(exclude != [] && cname in exclude)
  }

  /** `enabled == True or cname in enabled` */
  predicate EnabledFor(e: Enabled, cname: string) {
    match e
    case Flag(on) => on
    case Only(names) => cname in names
  }

  /** The entity prefix: the configured prefix, or the instance name when that is empty. */
  function PrefixFor(cfg: PlatformConfig, instance: string): (prefix: string)
    ensures prefix == "" ==> instance == "" && cfg.prefix == ""
    ensures cfg.prefix != "" ==> prefix == cfg.prefix
    ensures cfg.prefix == "" ==> prefix == instance
  {
    if cfg.prefix != "" then cfg.prefix else instance
  }

  // ---------------------------------------------------------------------------
  // find_rename

  /** The position of the first pattern that matches `item`, or `|renames|` when none does. */
  function FirstMatch(renames: seq<(string, string)>, item: string, matches: (string, string) -> bool): (k: nat)
    ensures k <= |renames|
    ensures forall j :: 0 <= j < k ==> !matches(renames[j].0, item)
    ensures k < |renames| ==> matches(renames[k].0, item)
    decreases |renames|
  {
    if renames == [] then 0
    else if matches(renames[0].0, item) then 0
    else
      var k := FirstMatch(renames[1..], item, matches);
      assert forall j :: 1 <= j < k + 1 ==> renames[j] == renames[1..][j - 1];
      k + 1
  }

  /** The value of the first matching pattern, or the name itself when no pattern matches. */
  function Renamed(renames: seq<(string, string)>, item: string, matches: (string, string) -> bool): (r: string)
    ensures (forall i :: 0 <= i < |renames| ==> !matches(renames[i].0, item)) ==> r == item
    ensures forall i :: (0 <= i < |renames| && matches(renames[i].0, item)
      && (forall j :: 0 <= j < i ==> !matches(renames[j].0, item))) ==> r == renames[i].1
  {
    var k := FirstMatch(renames, item, matches);
    if k < |renames| then renames[k].1 else item
  }

  /** `find_rename`: try the patterns in dictionary order and stop at the first match. */
  method FindRename(renames: seq<(string, string)>, item: string, matches: (string, string) -> bool) returns (r: string)
    ensures r == Renamed(renames, item, matches)
  {
    for i := 0 to |renames|
      invariant forall j :: 0 <= j < i ==> !matches(renames[j].0, item)
    {
      if matches(renames[i].0, item) {
        return renames[i].1;
      }
    }
    return item;
  }

  // ---------------------------------------------------------------------------
  // The restart service

  /** What the restart service sees of one configured server: its container list and the names its API resolves. */
  datatype ServerState = ServerState(containers: seq<string>, resolvable: set<string>)

  /** What one call of the restart service does. */
  datatype RestartOutcome =
    | UnknownServer(server: string)        // "Server ... is not configured", nothing restarted
    | ServerMissing(server: string)        // the default server's lookup raises KeyError
    | Restart(server: string, cname: string)
    | NoSuchContainer(server: string, cname: string)
    | NotConfigured(server: string, cname: string)

  /**
   * `async_restart`: a named server must be configured; with an empty container list any
   * container the server resolves is restarted, otherwise only a listed one.
   */
  function DispatchRestart(cname: string, cserver: Option<string>, defaultServer: string,
                           servers: map<string, ServerState>): (r: RestartOutcome)
    ensures cserver.Some? && cserver.value !in servers <==> r.UnknownServer?
    ensures r.UnknownServer? ==> r.server == cserver.value
    ensures cserver.None? && defaultServer !in servers <==> r.ServerMissing?
    ensures r.ServerMissing? ==> r == ServerMissing(defaultServer)
    ensures r.Restart? <==>
      var s := cserver.GetOr(defaultServer);
      s in servers && cname in servers[s].resolvable && (servers[s].containers == [] || cname in servers[s].containers)
    ensures r.Restart? ==> r == Restart(cserver.GetOr(defaultServer), cname)
    ensures r.NotConfigured? <==>
      var s := cserver.GetOr(defaultServer);
      s in servers && servers[s].containers != [] && cname !in servers[s].containers
    ensures r.NotConfigured? ==> r == NotConfigured(cserver.GetOr(defaultServer), cname)
    ensures r.NoSuchContainer? <==>
      var s := cserver.GetOr(defaultServer);
      s in servers && cname !in servers[s].resolvable && (servers[s].containers == [] || cname in servers[s].containers)
    ensures r.NoSuchContainer? ==> r == NoSuchContainer(cserver.GetOr(defaultServer), cname)
  {
    var serverName := if cserver.Some? then cserver.value else defaultServer;
    if cserver.Some? && cserver.value !in servers then UnknownServer(cserver.value)
    else if serverName !in servers then ServerMissing(serverName)
    else
      var server := servers[serverName];
      if |server.containers| == 0 then
        if cname in server.resolvable then Restart(serverName, cname) else NoSuchContainer(serverName, cname)
      else if cname in server.containers then
        if cname in server.resolvable then Restart(serverName, cname) else NoSuchContainer(serverName, cname)
      else NotConfigured(serverName, cname)
  }

  // ---------------------------------------------------------------------------
  // The entities' callback state machine

  /**
   * An entity's `_state` and `_removed`, with the number of state updates and of removals it
   * has scheduled on the host.
   */
  datatype EntityState = EntityState(state: Option<bool>, removed: bool, updatesScheduled: nat, removalsScheduled: nat)

  /** A newly constructed entity: off, not removed, nothing scheduled. */
  const Fresh: EntityState := EntityState(Some(false), false, 0, 0)

  /** A removal is scheduled exactly when, and only once, the entity is marked removed. */
  predicate RemovedOnce(st: EntityState) {
    st.removalsScheduled == if st.removed then 1 else 0
  }

  /** `info.get(CONTAINER_INFO_STATE) == "running"`, or None when the info is missing or asking for it raised. */
  function ObservedState(res: InfoResult): (s: Option<bool>)
    ensures s.Some? <==> res.InfoOk?
    ensures s == Some(true) <==> res.InfoOk? && res.info.state == Some("running")
  {
    match res
    case InfoOk(info) => Some(info.state == Some("running"))
    case _ => None
  }

  /**
   * `event_callback(remove=remove)`: a removal is scheduled the first time only; otherwise
   * the state follows the container and an update is scheduled only when it changed.
   */
  function CallbackStep(st: EntityState, remove: bool, info: InfoResult): (r: EntityState)
    ensures RemovedOnce(st) ==> RemovedOnce(r)
    ensures r.removed == (st.removed || remove)
    ensures r.updatesScheduled <= st.updatesScheduled + 1
    ensures remove ==> r.state == st.state
  {
    if remove then
      if st.removed then st
      else st.(removed := true, removalsScheduled := st.removalsScheduled + 1)
    else
      var state := ObservedState(info);
      if state != st.state then st.(state := state, updatesScheduled := st.updatesScheduled + 1)
      else st
  }

  /** `async_press`, `async_turn_on`, `async_turn_off`: the state is set and an update scheduled. */
  function Commanded(st: EntityState, on: bool): (r: EntityState)
    ensures r.state == Some(on) && r.removed == st.removed
    ensures RemovedOnce(st) ==> RemovedOnce(r)
    ensures r.updatesScheduled == st.updatesScheduled + 1
  {
    st.(state := Some(on), updatesScheduled := st.updatesScheduled + 1)
  }

  /** The callback's effect, case by case. */
  lemma CallbackStepSpec(st: EntityState, remove: bool, info: InfoResult)
    ensures remove ==>
      var next := CallbackStep(st, remove, info);
      && next.removed && next.state == st.state && next.updatesScheduled == st.updatesScheduled
      && next.removalsScheduled == st.removalsScheduled + (if st.removed then 0 else 1)
    ensures !remove ==>
      var next := CallbackStep(st, remove, info);
      && next.state == ObservedState(info) && next.removed == st.removed
      && next.removalsScheduled == st.removalsScheduled
      && next.updatesScheduled == st.updatesScheduled + (if ObservedState(info) != st.state then 1 else 0)
  {
  }

  /** A second remove callback does nothing. */
  lemma RemoveIsIdempotent(st: EntityState, info: InfoResult, info': InfoResult)
    ensures CallbackStep(CallbackStep(st, true, info), true, info') == CallbackStep(st, true, info)
  {
  }

  /** Repeating a state callback with the same info schedules no further update. */
  lemma StateCallbackSettles(st: EntityState, info: InfoResult)
    ensures CallbackStep(CallbackStep(st, false, info), false, info) == CallbackStep(st, false, info)
  {
  }

  /** One callback or command, as the host delivers it. */
  datatype Event = Callback(remove: bool, info: InfoResult) | Command(on: bool)

  predicate IsRemove(e: Event) {
    e.Callback? && e.remove
  }

  function Apply(st: EntityState, e: Event): EntityState {
    match e
    case Callback(remove, info) => CallbackStep(st, remove, info)
    case Command(on) => Commanded(st, on)
  }

  /** The state after a run of events. */
  function Run(st: EntityState, events: seq<Event>): EntityState
    decreases |events|
  {
    if events == [] then st else Run(Apply(st, events[0]), events[1..])
  }

  /**
   * However many remove callbacks arrive, a fresh entity schedules its removal at most once,
   * and exactly once if any of them arrived.
   */
  lemma {:induction false} RemovalScheduledAtMostOnce(st: EntityState, events: seq<Event>)
    requires RemovedOnce(st)
    ensures RemovedOnce(Run(st, events))
    ensures Run(st, events).removalsScheduled <= 1
    ensures Run(st, events).removed <==> st.removed || exists i :: 0 <= i < |events| && IsRemove(events[i])
    decreases |events|
  {
    if events != [] {
      var next := Apply(st, events[0]);
      RemovalScheduledAtMostOnce(next, events[1..]);
      assert forall i :: 1 <= i < |events| ==> events[1..][i - 1] == events[i];
      if Run(st, events).removed && !st.removed && !next.removed {
        var i :| 0 <= i < |events[1..]| && IsRemove(events[1..][i]);
        assert IsRemove(events[i + 1]);
      }
    }
  }

  /** From any reachable state, the number of scheduled updates is at most the number of events. */
  lemma {:induction false} UpdatesBoundedByEvents(st: EntityState, events: seq<Event>)
    ensures Run(st, events).updatesScheduled <= st.updatesScheduled + |events|
    decreases |events|
  {
    if events != [] {
      UpdatesBoundedByEvents(Apply(st, events[0]), events[1..]);
    }
  }
}
