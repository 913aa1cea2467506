# monitor_docker — a Dafny model of its configuration, identifier and entity rules

`monitor_docker` is a Home Assistant integration that watches a Docker engine. It creates a
device per listed container the engine knows, and a start/stop switch for each selected
container (listed, not excluded, switches enabled for it), provided every wanted container is
known to the engine; otherwise switch setup raises and no switch is made. A restart button per container is
optional and off by default (`CONF_BUTTONENABLED` defaults to False, `__init__.py:81`). Most of
its code calls the host's registries or the Docker client. This model covers the sequential rules
inside that glue:

- **Config entries** (`Integration`, `ConfigFlow`):
  - migrating a version-1 entry, which moves `containers` and `monitored_conditions` from data
    to options, where an existing option wins;
  - splitting a YAML import into data and options;
  - the user step;
  - the options form, which parses a comma-separated container list and shows it joined by `", "`;
  - normalising an empty or all-in-one monitored-conditions list.
- **Identifiers** (`Integration`, `Entity`, `Switch`, `Agreement`):
  - `host_uid` and `host_name`;
  - the container device key `host_uid:<id[:12]>`;
  - the device an entity describes;
  - the switch unique id `host_uid:<id[:12]>:switch`;
  - how `_async_link_devices` re-points a registry entry to the device named by its unique id
    up to the last colon.
- **Entities** (`Platform`, `Button`, `Switch`):
  - the include/exclude rule gated by a bool-or-list "enabled" option;
  - the first-match rename;
  - the restart service's decision;
  - each entity's `_state`/`_removed` state machine, modelled as classes whose methods are
    proved against one pure step function.

Module layout:

| module | models |
|---|---|
| `Wrappers` | `Option` |
| `Text` | `str.strip`, `split`, `join`, `s[:n]`, `rsplit(c, 1)[0]` |
| `Const` | the option key names |
| `Docker` | what the integration reads from the Docker API |
| `Platform` | the rules `button.py` and `switch.py` each spell out in their own copy |
| `Integration` | `__init__.py` |
| `ConfigFlow` | `config_flow.py` |
| `Entity` | `entity.py` |
| `Button` | `button.py` |
| `Switch` | `switch.py` |
| `Agreement` | lemmas that relate the modules to one another |

Three host-library calls are function-typed parameters (`Platform.HostLib`): `re.match`,
`slugify` and `str.format(name=…)`. The device registry's answer is the parameter `deviceIdOf`.

## Model

| member | source | states |
|---|---|---|
| Integration.MigrateEntry | custom_components/monitor_docker/__init__.py:186-214 | An entry above version 1 is left exactly as it was; otherwise the version becomes 2, data loses the two option keys and options gain each one data has and options lack; always returns true |
| Integration.MigratedData | custom_components/monitor_docker/__init__.py:195-199 | The migrated data holds exactly the keys of data other than `containers` and `monitored_conditions`, with their values |
| Integration.MigrationExample | tests/test_migrate.py:30-46 | A version-1 entry with both option keys and "other" in data migrates to version 2 with both keys in options, neither in data, and "other" kept |
| Integration.MoveOptions | custom_components/monitor_docker/__init__.py:200-204 | The key loop over options; characterised by MoveOptionsSpec |
| Integration.MigratedOptions | custom_components/monitor_docker/__init__.py:200-204 | The loop run over `containers` and `monitored_conditions`; characterised by MoveOptionsSpec and MigrateEntry |
| Integration.MoveOptionsSpec | custom_components/monitor_docker/__init__.py:200-204 | After the key loop a key is an option iff it was one or is a moved key in data; existing options keep their value; a moved key takes data's value |
| Integration.MigrationKeepsMergedConfig | custom_components/monitor_docker/__init__.py:124 | Migration leaves the merged `{**data, **options}` configuration that setup reads unchanged |
| Integration.MigrationIsIdempotent | custom_components/monitor_docker/__init__.py:195-204 | Migrating the migrated data and options again changes neither |
| Integration.IndexOf | custom_components/monitor_docker/__init__.py:129 | The index found holds the element and no earlier position does |
| Integration.RemoveFirst | custom_components/monitor_docker/__init__.py:129 | `list.remove` drops exactly one occurrence: one element shorter, multiset minus that element |
| Integration.RemoveFirstKeepsOrder | custom_components/monitor_docker/__init__.py:129 | The rest keeps its order: the input is the result with the element put back before the first position whose prefix lacks it |
| Integration.RemoveOnlyOccurrence | custom_components/monitor_docker/__init__.py:128-129 | Removing an element that occurs once leaves a list without it |
| Integration.NormaliseConditions | custom_components/monitor_docker/__init__.py:127-137 | Empty becomes the full list minus all-in-one (then without all-in-one when it occurs once); only-all-in-one becomes the full list plus all-in-one; any other list is kept |
| Integration.Truthy | custom_components/monitor_docker/__init__.py:142-143 | Python truthiness of an optional string: present and non-empty |
| Integration.HostLabel | custom_components/monitor_docker/__init__.py:142 | The first truthy of host and url, else "host"; never empty |
| Integration.EntryKey | custom_components/monitor_docker/__init__.py:143 | `entry.unique_id or entry.entry_id`: the unique id when it is truthy, else the entry id |
| Integration.HostUid | custom_components/monitor_docker/__init__.py:142-143 | Label, colon, then unique id or else entry id; when that key has no colon, the part before the last colon is the label |
| Integration.HostName | custom_components/monitor_docker/__init__.py:144 | The host when truthy, and then equal to the uid's label, else "Remote Docker Host" |
| Integration.ContainerDeviceKey | custom_components/monitor_docker/__init__.py:229-236 | The key is the host uid, a colon, then the first 12 characters of the container id |
| Integration.ContainerDevice | custom_components/monitor_docker/__init__.py:229-243 | The device is identified by the container device key, hangs off the host device, is made by "Docker", is named by the container and has a non-empty model; it has an sw_version exactly when the image hash is a string |
| Integration.ContainerDevices | custom_components/monitor_docker/__init__.py:224-242 | The devices the loop asks the registry for, in order; characterised by ContainerDevicesSpec |
| Integration.ContainerDevicesSpec | custom_components/monitor_docker/__init__.py:224-242 | A device is created for each listed container the API resolves, and every created device is such a container's device; unresolvable names are skipped |
| Integration.DeviceIds | custom_components/monitor_docker/__init__.py:224-243 | The `devices` map the loop builds; characterised by the two lemmas below |
| Integration.DeviceIdsCover | custom_components/monitor_docker/__init__.py:224-243 | Every listed container the API resolves has its device key in the `devices` map |
| Integration.DeviceIdsOrigin | custom_components/monitor_docker/__init__.py:224-243 | Every key of `devices` is the key of a listed, resolvable container and maps to the id of that container's device |
| Integration.Relinks | custom_components/monitor_docker/__init__.py:245-251 | An entry of this platform with a truthy unique id whose prefix before the last colon names a non-empty device id other than its own |
| Integration.Target | custom_components/monitor_docker/__init__.py:248-251 | The device id that prefix names |
| Integration.Relinked | custom_components/monitor_docker/__init__.py:245-251 | The registry updates of the second loop, in entry order; characterised by RelinkedSpec |
| Integration.RelinkedSpec | custom_components/monitor_docker/__init__.py:245-251 | An update is issued exactly for each entry of this platform with a unique id whose prefix before the last colon names a known, non-empty device id other than its current one |
| Integration.LinkDevices | custom_components/monitor_docker/__init__.py:217-251 | The loops create one device per resolvable container, fill `devices`, and issue exactly the updates of the relinking rule |
| Integration.CreateDevices | custom_components/monitor_docker/__init__.py:224-243 | The first loop creates exactly the devices of ContainerDevices and builds exactly the `devices` map of DeviceIds |
| Integration.RelinkEntries | custom_components/monitor_docker/__init__.py:245-251 | The second loop issues exactly the registry updates of Relinked, in entry order |
| ConfigFlow.UserStep | custom_components/monitor_docker/config_flow.py:26-37 | No input shows the "user" form; input creates an entry whose data is the input and whose title is its name |
| ConfigFlow.ImportOptions | custom_components/monitor_docker/config_flow.py:41-46 | The options hold exactly the option keys the import config has, with its values |
| ConfigFlow.ImportData | custom_components/monitor_docker/config_flow.py:41-46 | The data holds exactly the other keys of the import config, with its values |
| ConfigFlow.ImportStep | custom_components/monitor_docker/config_flow.py:39-49 | Options are exactly the option keys present; data and options are disjoint and together are the import config; title is the name or the default |
| ConfigFlow.CleanPieces | custom_components/monitor_docker/config_flow.py:68-72 | Only non-empty, stripped pieces are kept, no more of them than there were pieces; its value piece by piece is stated by CleanPiecesOne and CleanPiecesAppend |
| ConfigFlow.Kept | custom_components/monitor_docker/config_flow.py:69-71 | What one piece contributes: its stripped text exactly when that is non-empty, otherwise nothing |
| ConfigFlow.CleanPiecesOne | custom_components/monitor_docker/config_flow.py:69-71 | One piece gives its stripped text when that is non-empty, and nothing otherwise |
| ConfigFlow.CleanPiecesAppend | custom_components/monitor_docker/config_flow.py:68-72 | The names of two runs of pieces are the names of the first run followed by those of the second: order is kept and each piece is cleaned on its own |
| ConfigFlow.CleanPiecesNoBlank | custom_components/monitor_docker/config_flow.py:68-72 | When no piece is blank, the i-th name is the i-th piece stripped |
| ConfigFlow.StripEach | custom_components/monitor_docker/config_flow.py:69 | Every piece stripped, one name per piece |
| ConfigFlow.CleanAroundBlank | custom_components/monitor_docker/config_flow.py:68-72 | A blank piece between two names is dropped, and the two names are kept stripped, in order |
| ConfigFlow.ParseContainers | custom_components/monitor_docker/config_flow.py:68-72 | Every parsed name is non-empty, stripped and comma-free; a missing field gives no names; a field without a comma gives its stripped text, or nothing when it is all whitespace |
| ConfigFlow.ParseCommaJoined | custom_components/monitor_docker/config_flow.py:68-72 | Any field, read as comma-joined pieces, parses to exactly those pieces cleaned (stripped, blanks dropped, in order) |
| ConfigFlow.StripExamples | custom_components/monitor_docker/config_flow.py:69 | `" a ".strip()` is "a", `"".strip()` is "" and `" b".strip()` is "b" |
| ConfigFlow.ParseExample | custom_components/monitor_docker/config_flow.py:68-72 | The field `" a ,, b"` parses to the names "a" and "b" |
| ConfigFlow.CleanPiecesLeadingSpace | custom_components/monitor_docker/config_flow.py:69-71 | A space before the first piece does not change the parse |
| ConfigFlow.CleanPiecesPlainHead | custom_components/monitor_docker/config_flow.py:69-71 | A non-empty stripped first piece is kept as it is |
| ConfigFlow.JoinCommaSpace | custom_components/monitor_docker/config_flow.py:82-84 | A `", "`-join of several names is the first, a comma, a space, and the join of the rest |
| ConfigFlow.RoundTripStep | custom_components/monitor_docker/config_flow.py:68-84 | The parse-of-join round trip extends by one plain name at the front |
| ConfigFlow.EmptyFieldParsesEmpty | custom_components/monitor_docker/config_flow.py:68-72 | An empty field parses to no names |
| ConfigFlow.SingleNameRoundTrip | custom_components/monitor_docker/config_flow.py:68-84 | One plain name shown in the form parses back to itself |
| ConfigFlow.CleanSplitJoin | custom_components/monitor_docker/config_flow.py:68-84 | Splitting the `", "`-join of plain names at commas and cleaning the pieces gives the names back |
| ConfigFlow.ParseJoinRoundTrip | custom_components/monitor_docker/config_flow.py:68-84 | Parsing the displayed existing container list returns that list, for non-empty, stripped, comma-free names |
| ConfigFlow.OptionsStep | custom_components/monitor_docker/config_flow.py:63-98 | Input creates options with the parsed containers and the chosen conditions (empty when missing); no input shows the form with the joined containers and the stored conditions or the full list |
| ConfigFlow.ExistingContainers | custom_components/monitor_docker/config_flow.py:82-84 | No stored list or an empty one shows ""; one name shows itself; several begin with the first and `", "` |
| ConfigFlow.OptionsFormRoundTrip | custom_components/monitor_docker/config_flow.py:68-87 | Submitting the form's defaults unchanged stores the same container list again |
| Entity.BaseDeviceInfo | custom_components/monitor_docker/entity.py:42-64 | No container: the host's identifier, model "Remote Engine", no via device or sw_version; a container: identifier `host_uid:id[:12]` via the host, model the image or "container", sw_version exactly `hash[:12]` when the hash is a string and none otherwise |
| Platform.PrefixFor | custom_components/monitor_docker/switch.py:98 | The configured prefix when non-empty, else the instance name |
| Text.IsSpace | custom_components/monitor_docker/config_flow.py:69 | Python's `str.isspace` set for one character: the characters `str.strip()` removes |
| Platform.Included | custom_components/monitor_docker/button.py:125-130 | A container is included when it is listed or no list is given, and not when a non-empty exclude list holds it |
| Platform.EnabledFor | custom_components/monitor_docker/button.py:133-136 | The enabled option is true, or a list that names the container |
| Platform.FirstMatch | custom_components/monitor_docker/button.py:89-94 | The position of the first matching pattern: none before it matches, it matches, or there is none |
| Platform.Renamed | custom_components/monitor_docker/button.py:89-94 | The value of the first matching pattern in dictionary order, else the name unchanged |
| Platform.FindRename | custom_components/monitor_docker/button.py:89-94 | The loop with its early return computes `Renamed` |
| Platform.DispatchRestart | custom_components/monitor_docker/button.py:54-87 | An unknown named server restarts nothing; an unresolvable default server is a KeyError; with an empty container list a resolvable container restarts; otherwise only a listed, resolvable one; a name the server cannot resolve, listed or under an empty list, gives `NoSuchContainer`; a name absent from a non-empty list gives `NotConfigured`; every outcome carries the server it used and, where it has one, the container name |
| Platform.ObservedState | custom_components/monitor_docker/button.py:277-290 | The state is known exactly when info was obtained, and true exactly when it says "running" |
| Platform.CallbackStep | custom_components/monitor_docker/button.py:264-294 | The entity is removed afterwards iff it was or this is a remove callback; a removal is scheduled only with the first remove; at most one update is scheduled; a remove leaves the state alone |
| Platform.Commanded | custom_components/monitor_docker/button.py:252-255 | A command sets the state to its value, schedules one update, and leaves removal alone |
| Platform.CallbackStepSpec | custom_components/monitor_docker/button.py:264-294 | Remove sets `_removed` and schedules a removal only the first time; otherwise the state follows the container and one update is scheduled only on a change |
| Platform.RemoveIsIdempotent | custom_components/monitor_docker/button.py:267-275 | A second remove callback changes nothing |
| Platform.StateCallbackSettles | custom_components/monitor_docker/button.py:277-294 | Repeating a state callback with the same info schedules no further update |
| Platform.RemovalScheduledAtMostOnce | custom_components/monitor_docker/button.py:264-275 | Over any run of callbacks and commands, a removal is scheduled at most once, and the entity is removed iff a remove callback arrived |
| Platform.UpdatesBoundedByEvents | custom_components/monitor_docker/button.py:252-294 | Each callback or command schedules at most one update |
| Button.ParamsFor | custom_components/monitor_docker/button.py:138-154 | The constructor arguments of one button: the raw or renamed entity alias, the renamed display alias; characterised through ButtonsSelected |
| Button.Buttons | custom_components/monitor_docker/button.py:124-156 | The buttons the loop appends, in order; characterised by ButtonsSelected |
| Button.Candidates | custom_components/monitor_docker/button.py:119-122 | The discovered container alone, else every listed container; used by SetupPlatform |
| Button.Wanted | custom_components/monitor_docker/button.py:124-136 | A candidate gets a button exactly when it is included (listed or no list, not in a non-empty exclude list) and buttons are enabled for it |
| Button.ButtonsSelected | custom_components/monitor_docker/button.py:124-156 | A button is made exactly for each included, enabled candidate, with the raw or renamed entity alias and the renamed display alias |
| Button.SelectButtons | custom_components/monitor_docker/button.py:124-156 | The loop with its `includeContainer` flag and renames builds exactly the selected buttons, in order |
| Button.SetupPlatform | custom_components/monitor_docker/button.py:96-160 | No discovery returns nothing; disabled returns true with no buttons; otherwise the loop builds exactly the selected buttons and returns whether there are any |
| Button.ContainerButton.constructor | custom_components/monitor_docker/button.py:189-208 | Starts off and not removed; the entity id is built from the prefix and the raw name, the name from the alias through the format |
| Button.ContainerButton.UniqueId | custom_components/monitor_docker/button.py:210-212 | The container's id followed by "_restart" |
| Button.ContainerButton.Press | custom_components/monitor_docker/button.py:252-255 | The state becomes off and one update is scheduled |
| Button.ContainerButton.EventCallback | custom_components/monitor_docker/button.py:264-294 | The fields change exactly as the callback step says, keeping "removal scheduled iff removed" |
| Button.RemoveTwice | custom_components/monitor_docker/button.py:267-275 | Two remove callbacks schedule one removal |
| Switch.Wanted | custom_components/monitor_docker/switch.py:110-122 | A listed container gets a switch exactly when it is included (listed or no list, not in a non-empty exclude list) and switches are enabled for it |
| Switch.ResolvesWanted | custom_components/monitor_docker/switch.py:110-133 | Every wanted listed name resolves to a container; the condition under which SelectSwitches and SetupEntry build all switches |
| Switch.ParamsFor | custom_components/monitor_docker/switch.py:125-141 | The constructor arguments of one switch: the raw or renamed entity alias, the renamed display alias; characterised through SwitchesSelected |
| Switch.Switches | custom_components/monitor_docker/switch.py:110-141 | The switches the loop appends, in order; characterised by SwitchesSelected |
| Switch.SwitchesSelected | custom_components/monitor_docker/switch.py:110-143 | A switch is made exactly for each wanted listed container that resolves, bound to that container and host; when every wanted name resolves, for every wanted name |
| Switch.SelectSwitches | custom_components/monitor_docker/switch.py:110-143 | The loop either builds exactly the selected switches, in order, when every wanted name resolves, or stops at the first wanted name that resolves to no container |
| Switch.SetupEntry | custom_components/monitor_docker/switch.py:90-155 | Disabled returns true with no switches; when every wanted name resolves, the loop builds exactly the selected switches and returns whether there are any; otherwise it ends in the error a switch raises for the first wanted unresolvable name, adding none |
| Switch.SwitchUniqueId | custom_components/monitor_docker/switch.py:182-183 | The unique id is the host uid, a colon, the first 12 characters of the container id, then ":switch" |
| Switch.ContainerSwitch.constructor | custom_components/monitor_docker/switch.py:159-184 | Starts off and not removed; entity id from the prefix and `alias_entityid`, name from the alias, unique id `host_uid:id[:12]:switch` |
| Switch.ContainerSwitch.DeviceDescription | custom_components/monitor_docker/entity.py:42-64 | The switch's device is its container's device `host_uid:id[:12]`, via the host, named by the alias |
| Switch.ContainerSwitch.TurnOn | custom_components/monitor_docker/switch.py:207-210 | The state becomes on and one update is scheduled |
| Switch.ContainerSwitch.TurnOff | custom_components/monitor_docker/switch.py:212-215 | The state becomes off and one update is scheduled |
| Switch.ContainerSwitch.EventCallback | custom_components/monitor_docker/switch.py:224-254 | The intended callback: the fields change exactly as the callback step says |
| Switch.RemoveCallbackAsWritten | custom_components/monitor_docker/switch.py:224-235 | As written: a first remove callback raises and changes nothing; any other callback is the intended step |
| Switch.RemovesAsWritten | custom_components/monitor_docker/switch.py:227-235 | The state after n remove callbacks as written, with how many raised; characterised by SwitchNeverRemovedAsWritten |
| Switch.SwitchNeverRemovedAsWritten | custom_components/monitor_docker/switch.py:227-235 | As written, any number of remove callbacks leave a live switch unchanged, and each raises |
| Switch.RemoveAsWrittenDiffers | custom_components/monitor_docker/switch.py:227-235 | Two remove callbacks on a new switch: none scheduled as written, exactly one as intended |
| Agreement.SwitchIdNamesItsDevice | custom_components/monitor_docker/switch.py:182-183 | The part of a switch's unique id before its last colon is its container's device key |
| Agreement.EntityDeviceIsLinkedDevice | custom_components/monitor_docker/entity.py:53-63 | An entity's container device equals the device the integration creates for that container, apart from the name |
| Agreement.DeviceKeysSeparateHosts | custom_components/monitor_docker/__init__.py:236 | Colon-free short ids give equal device keys iff host and short id are equal |
| Agreement.SwitchEntryRelinks | custom_components/monitor_docker/__init__.py:245-251 | A registry entry carrying a set-up switch's unique id has its device in the map and is re-pointed iff that device id is non-empty and differs from its own, and then to that device |
| Agreement.ImportIsMigrated | custom_components/monitor_docker/config_flow.py:41-48 | An import splits a config as migrating it from version 1 would, and migrating the result changes nothing |
| Text.LeadingSpace | custom_components/monitor_docker/config_flow.py:69 | The count of leading whitespace: all of it whitespace, and the next character is not |
| Text.TrailingSpace | custom_components/monitor_docker/config_flow.py:69 | The count of trailing whitespace: all of it whitespace, and the character before it is not |
| Text.Strip | custom_components/monitor_docker/config_flow.py:69-71 | The slice of the string between its leading and trailing whitespace runs: no whitespace at either end, only whitespace after it, empty iff all whitespace, and the identity on stripped strings |
| Text.StripIn | custom_components/monitor_docker/config_flow.py:69-71 | Every character of the stripped string occurs in the string |
| Text.StripLeadingSpace | custom_components/monitor_docker/config_flow.py:69-71 | A leading space does not change the stripped result |
| Text.Join | custom_components/monitor_docker/config_flow.py:82-84 | `delim.join(parts)`; characterised by JoinSplit, SplitJoin and JoinCommaSpace |
| Text.Split | custom_components/monitor_docker/config_flow.py:70 | At least one piece, none containing the separator |
| Text.JoinSplit | custom_components/monitor_docker/config_flow.py:70 | Joining the pieces of a split with the separator gives the string back |
| Text.SplitSingle | custom_components/monitor_docker/config_flow.py:70 | A string without the separator splits into itself |
| Text.SplitAfterFirst | custom_components/monitor_docker/config_flow.py:70 | Splitting at a first separator gives the part before it and the split of the rest |
| Text.SplitJoin | custom_components/monitor_docker/config_flow.py:70 | Splitting the separator-join of separator-free pieces gives the pieces back |
| Text.SplitLeadingOther | custom_components/monitor_docker/config_flow.py:70 | A leading non-separator character joins the first piece |
| Text.Take | custom_components/monitor_docker/entity.py:53 | `s[:n]` is a prefix of s: all of s when it is at most n long, exactly n characters otherwise |
| Text.LastIndexOf | custom_components/monitor_docker/__init__.py:248 | The last position holding the character, or none when it is absent |
| Text.BeforeLast | custom_components/monitor_docker/__init__.py:248 | `rsplit(c, 1)[0]` is a prefix ending just before the last c, or the whole string |
| Text.BeforeLastAppend | custom_components/monitor_docker/__init__.py:248 | Nothing after the last separator reaches the result |

## Left out

- The host runtime is not modelled: the device and entity registries, forwarded platform setup,
  unloading, service registration, the update coordinator and `async_add_entities`. Scheduling a
  state update or a removal is a counter, and a registry lookup is the parameter `deviceIdOf`.
- Docker client calls (`restart`, `start`, `stop`, `list_containers`, `get_container`, `get_info`)
  are inputs, in `Docker.DockerApi` and `Docker.InfoResult`; `helpers.py` is not part of this
  model. A restart that fails after dispatch is not modelled.
- `re.match`, `slugify` and `str.format(name=…)` are uninterpreted function parameters; Python
  regex is not modelled.
- voluptuous schema validation and its defaults (`__init__.py:63-101`) are not modelled; the
  platform configuration is a validated record. `const.py` is not part of this model: key names
  are the literal strings the code reads, and `DEFAULT_NAME`, `MONITORED_CONDITIONS_LIST` and
  `CONTAINER_INFO_ALLINONE` are parameters.
- Async execution, `asyncio.create_task`, `async_remove`, logging and the scan interval are not modelled.
- Switch.SetupEntry: the error raised for a wanted name that resolves to no container is the
  outcome `NoContainer`; the model assumes `get_container` answers None for such a name
  (`helpers.py` is not part of this model), and an unwanted name is never looked up.
- Entity.BaseDeviceInfo: reads the container's info as always present. `get_info()`
  (`entity.py:52`) may raise or answer None, and then `info.get` raises; that is not modelled.
- Button.ContainerButton.Press: assumes the Docker `restart()` call (`button.py:253`) succeeds.
- Switch.ContainerSwitch.TurnOn: assumes the Docker `start()` call (`switch.py:208`) succeeds.
- Switch.ContainerSwitch.TurnOff: assumes the Docker `stop()` call (`switch.py:213`) succeeds.
- Integration.LinkDevices: assumes `get_info()` returns a dictionary. A `None` answer would make
  `info.get` raise, and that is not modelled.
- The legacy unique-id back-fill in `button.py:162-175` is registry plumbing and is left out.
  So is the button's `device_info` (`button.py:214-224`), which only feeds that back-fill.
- `find_rename` and `async_restart` appear twice, identically, in `button.py:54-94` and
  `switch.py:49-88`. Each is modelled once, in `Platform`.
- The button's `alias_entityid` is passed to its constructor but never used. Its entity id comes
  from the raw container name (`button.py:204-206`), and the model keeps that behaviour.
- Button.SetupPlatform: takes the platform configuration as given. The source looks it up as
  `hass.data[DOMAIN][name]` with the discovery name (`button.py:101-102`), while `__init__.py:153`
  keys that map by entry id, so the lookup can raise KeyError before anything is set up; that is
  not modelled.
- Platform.DispatchRestart: the default server is whatever name the caller passes. In `switch.py`
  that name is the config name while `hass.data[DOMAIN]` is keyed by entry id, so a call with no
  server can end in `ServerMissing` (a KeyError). Whether `helpers.py` also registers by name is
  not visible here.
- The rename dictionary is a sequence of pairs, so that its insertion order is explicit. Its
  patterns are taken to be distinct, as dictionary keys are; a repeated pattern is never reached. The other
  dictionaries are Dafny maps, whose key order is not modelled.
- `host` and `url` values that are not strings are not modelled.
- Container names and ids are strings; the Docker id format itself is not modelled.

## Findings

| source | as written | input that shows it | evidently intended | confidence | as-written member | corrected member |
|---|---|---|---|---|---|---|
| custom_components/monitor_docker/switch.py:233 | `asyncio.create_task(...)` in a module that never imports `asyncio`, so the remove branch raises NameError before `_removed` is set | two remove callbacks on a new switch: each raises, and no removal is ever scheduled | as in `button.py:273`, which imports `asyncio`: the first remove schedules removal and sets `_removed`, later ones do nothing | not executed; high | Switch.RemoveAsWrittenDiffers | Switch.ContainerSwitch.EventCallback |
