# tmt prepare step, modelled in Dafny

This project models the prepare step of tmt, the test management tool. The
model covers the `Prepare` step class and the `PrepareMultihost` plugin, which
is the implicit plugin that sets up multihost testing.

The step does the following:

- While it wakes up, it keeps the configured plugins that carry data.
- In `go()`, it first adds up to three implicit plugins:
  - an install of the packages required by the discover, provision and
    execute steps;
  - an install of the recommended packages, with missing ones skipped;
  - with more than one guest, the multihost setup, which carries a role
    mapping (role to guest names) and a host mapping (guest name to address).
- Then it walks the guests in order. For each guest it:
  - pushes the workdir;
  - makes a copy of the guest whose parent is the prepare step;
  - applies every plugin enabled on that copy, counting each one before it
    runs;
  - pulls the artifacts back when the plugin list is not empty.
- The multihost plugin writes each role into the plan environment as the
  comma-joined names of that role's guests. It then adds one `/etc/hosts` line
  on the guest for each host that has an address.

Modules:

- `Dicts` (`dicts.dfy`) models Python dictionaries with string keys as item
  lists in insertion order. The order matters because `go()` iterates over the
  dictionaries.
- `Plans` (`plans.dfy`) holds the plan-side entities:
  - plugin data values;
  - guests;
  - the `Plan` class, whose environment is changed in place;
  - the events log (push, pull, a plugin call, a remote command) that records
    every operation issued on a guest.
- `Multihost` (`multihost.dfy`) models `PrepareMultihost`:
  - `Default` models the option defaults;
  - `Go` is the imperative plugin, proved equal to the reference function
    `Effect`.
- `PrepareStep` (`prepare.dfy`) models the `Prepare` class:
  - `Wake`, `PrepareRoles`, `PrepareHosts` and `Go` are imperative methods on
    a class with the step's fields (`status`, `_plugins`,
    `preparations_applied`);
  - each method is proved against reference functions: `Kept`,
    `IsRoleMapping`, `IsHostMapping`, `IsImplicit` and
    `PrepareGuests`/`PrepareGuest`/`ApplyPlugins`;
  - lemmas about those functions state what the step promises.

Some pieces come from the base classes in `tmt.steps` and are taken as given.
They are bundled in `StepBase`:

- the run order of the step's plugins (`self.plugins()`);
- `enabled_on_guest`;
- whether `go()` of a plugin other than multihost returns normally.

Plugin delegation and waking are taken the same way: a `woken` function
supplies the woken plugin for each data record.

Some data comes from the other steps and is passed in as parameters:

- the package requirements and recommendations;
- the provisioned guests;
- the plan data directory;
- the two order constants.

The status that the base step restored from the workdir is a constructor
parameter.

Notes on the code's behaviour, which the model follows:

- Sorting the plugins by their order is not done in this code. It happens in
  `self.plugins()` of the base step, so the sorted order is a given function
  here.
- A plugin that raises ends the whole `go()`, not only the current guest's
  schedule. The status then stays what it was, and the counter already
  includes the plugin that raised.
- The comment at `tmt/steps/prepare/__init__.py:137-138` speaks of pulling
  when at least one plugin was executed. The code pulls whenever the plugin
  list is non-empty, and so does the model (`PullsInOrder`).
- The role mapping holds lists of guest names, not sets. A guest name that
  appears twice under a role is listed twice.

## Model

| member | source | states |
|---|---|---|
| PrepareStep.Kept | tmt/steps/prepare/__init__.py:30-35 | only plugins whose data has more than two keys are kept, and every woken record with more than two keys is kept |
| PrepareStep.Prepare.constructor | tmt/steps/prepare/__init__.py:20-23 | a new step has its plan and data, the restored status, no plugins and a zero counter |
| PrepareStep.Prepare.Wake | tmt/steps/prepare/__init__.py:25-44 | the plugin list grows by exactly the kept plugins in configuration order; the status becomes todo unless it was done, which it stays; the counter is untouched |
| PrepareStep.Prepare.PrepareRoles | tmt/steps/prepare/__init__.py:57-63 | the result is the role mapping of the guests: keys are the truthy roles in order of first appearance, each holding the names of its guests in guest order |
| PrepareStep.RoleStep | tmt/steps/prepare/__init__.py:60-62 | each iteration (skip a guest without a truthy role, append to an existing role, start a new role) keeps the role mapping of the guests seen so far |
| PrepareStep.GuestRolesMembers | tmt/steps/prepare/__init__.py:60-61 | the listed roles are exactly the non-empty roles some guest has |
| PrepareStep.NamesWithRoleMembers | tmt/steps/prepare/__init__.py:60-62 | the names listed under a role are exactly the names of the guests with that non-empty role |
| PrepareStep.NamesWithRoleEmpty | tmt/steps/prepare/__init__.py:60-62 | a role has no guest names exactly when no guest has it as its truthy role |
| PrepareStep.RoleMappingProperties | tmt/steps/prepare/__init__.py:57-63 | a role mapping has distinct keys, its keys are exactly the truthy guest roles, and no role maps to an empty list |
| PrepareStep.Prepare.PrepareHosts | tmt/steps/prepare/__init__.py:65-71 | the result is the host mapping of the guests: keys are the names of guests with a truthy address in order of first insertion, each holding the last such address |
| PrepareStep.HostStep | tmt/steps/prepare/__init__.py:68-70 | each iteration (skip a guest without an address, or set its name to its address) keeps the host mapping of the guests seen so far |
| PrepareStep.HostPut | tmt/steps/prepare/__init__.py:69-70 | assigning an address to a name keeps an existing key in its place and adds a new key at the end, and the host mapping stays correct |
| PrepareStep.LastAddress | tmt/steps/prepare/__init__.py:68-70 | a name gets an address exactly when some guest of that name has a truthy address, and that address is non-empty |
| PrepareStep.AddressedNamesMembers | tmt/steps/prepare/__init__.py:69 | the addressed names are exactly the names of guests with a truthy address |
| PrepareStep.LastAddressOfUniqueName | tmt/steps/prepare/__init__.py:68-70 | with unique guest names, the address recorded for a guest's name is that guest's own address |
| PrepareStep.HostMappingProperties | tmt/steps/prepare/__init__.py:65-71 | a host mapping has distinct keys, its keys are exactly the names of guests with a truthy address, every value is non-empty, and with unique names every addressed guest appears with its own address |
| Dicts.DedupeProperties | tmt/steps/prepare/__init__.py:67-70 | the keys a dictionary ends up with are distinct and are exactly the keys inserted |
| PrepareStep.ListOfSet | tmt/steps/prepare/__init__.py:85-97 | the package list of the required install holds every required package exactly once and nothing else |
| PrepareStep.Prepare.ImplicitPlugins | tmt/steps/prepare/__init__.py:84-121 | the added plugins are: the required install exactly when the union of requirements is non-empty; the recommended install with missing packages skipped exactly when there are recommendations; the multihost setup carrying both mappings exactly when there is more than one guest; in that order |
| PrepareStep.OnePackageOneGuest | tmt/steps/prepare/__init__.py:84-121 | with one required package, no recommendation and a single guest, exactly one plugin is added, the install of that package, and no multihost setup |
| PrepareStep.ExportRoleMapping | tmt/steps/prepare/multihost.py:47-49 | exporting a role mapping sets every truthy guest role to the comma-join of its guests' names and keeps every other variable |
| PrepareStep.HostMappingCommands | tmt/steps/prepare/multihost.py:51-54 | a host mapping yields one /etc/hosts command per entry, which is one per distinct addressed guest name |
| PrepareStep.SynthesizedMultihostRun | tmt/steps/prepare/__init__.py:112-121 | under the intended go() (see Findings), the implicit multihost plugin completes on any guest, exports every truthy role as the comma-join of its guests, leaves other variables alone and issues one hosts command per addressed guest name |
| PrepareStep.RunPlugin | tmt/steps/prepare/__init__.py:135 | a plugin call is recorded against the guest and then runs as the multihost effect or completes as the base decides |
| PrepareStep.PluginGo | tmt/steps/prepare/__init__.py:135 | a plugin call appends its own call record first and then only what the plugin does; a plugin other than the multihost setup leaves the environment alone |
| PrepareStep.ApplyPlugins | tmt/steps/prepare/__init__.py:132-135 | the plugin loop does nothing once a plugin has raised, reports success only if it started from success, and bumps the counter at most once per plugin |
| PrepareStep.PrepareGuest | tmt/steps/prepare/__init__.py:124-140 | one guest iteration does nothing once a plugin has raised, reports success only if it started from success, and bumps the counter at most once per plugin |
| PrepareStep.PrepareGuests | tmt/steps/prepare/__init__.py:124-140 | the guest loop does nothing once a plugin has raised, reports success only if it started from success, and never lowers the counter |
| PrepareStep.MultihostAsWrittenRaises | tmt/steps/prepare/multihost.py:42-44 | as written, go() of the implicit multihost plugin raises and changes nothing, while the intended go() completes, so the two differ |
| PrepareStep.PluginGoDelta | tmt/steps/prepare/__init__.py:135 | a plugin call adds only plugin events on that guest, exactly one of them a plugin call |
| PrepareStep.ApplyPluginDelta | tmt/steps/prepare/__init__.py:133-135 | one plugin-loop iteration adds only plugin events on the guest, and the counter grows by its plugin calls |
| PrepareStep.ApplyPluginsDelta | tmt/steps/prepare/__init__.py:132-135 | the plugin loop adds only plugin events on the guest copy, and the counter grows by exactly the plugin calls made |
| PrepareStep.ApplyPluginsCount | tmt/steps/prepare/__init__.py:132-135 | when no plugin raised, the counter grew by the number of plugins enabled on the guest |
| PrepareStep.ApplyPluginsAfterFailure | tmt/steps/prepare/__init__.py:132-135 | once a plugin has raised, no later plugin of the loop runs |
| PrepareStep.PrepareGuestsAfterFailure | tmt/steps/prepare/__init__.py:124-140 | once a plugin has raised, no later guest is touched |
| PrepareStep.GuestOrder | tmt/steps/prepare/__init__.py:124-140 | for one guest the log gets the push first, then only plugin events on a copy whose parent is the prepare step, then the pull of the copy exactly when nothing raised and the plugin list is not empty |
| PrepareStep.GuestTransfers | tmt/steps/prepare/__init__.py:124-140 | each guest is pushed once, and its copy is pulled once exactly when nothing raised and there are plugins |
| PrepareStep.GuestCounter | tmt/steps/prepare/__init__.py:132-135 | for one guest the counter grows by the plugin calls made, and by the number of plugins enabled on the copy when none raised |
| PrepareStep.CounterCountsCalls | tmt/steps/prepare/__init__.py:133-135 | over the whole guest loop the counter equals the number of plugin calls, including one that raised, because it is bumped before the call |
| PrepareStep.CounterOnSuccess | tmt/steps/prepare/__init__.py:124-135 | when nothing raised, the counter grew by the number of (guest, plugin) pairs with the plugin enabled on the guest's copy |
| PrepareStep.PushesInOrder | tmt/steps/prepare/__init__.py:124-125 | when nothing raised, every guest was pushed exactly once, in guest order |
| PrepareStep.Copies | tmt/steps/prepare/__init__.py:129-130 | each copy keeps its guest's name and has the prepare step as parent |
| PrepareStep.PullsInOrder | tmt/steps/prepare/__init__.py:137-140 | when nothing raised, the copies were pulled in guest order exactly when the plugin list is non-empty, whether or not any plugin was enabled on them |
| PrepareStep.Prepare.ApplyToGuest | tmt/steps/prepare/__init__.py:124-140 | one guest iteration leaves the plan, the counter and the outcome as the reference semantics of one guest says, and changes neither the plugins nor the status |
| PrepareStep.Prepare.ApplyToGuests | tmt/steps/prepare/__init__.py:124-140 | the guest loop leaves the plan, the counter and the outcome as the reference semantics of the guest loop says, stopping at the first plugin that raises, and changes neither the plugins nor the status |
| PrepareStep.Prepare.Go | tmt/steps/prepare/__init__.py:73-145 | a done step returns at once with nothing changed; otherwise old plugins are kept, the implicit plugins are appended, the plan state and counter follow the guest loop's reference semantics over the ordered plugins, and the status becomes done exactly when no plugin raised |
| Multihost.Default | tmt/steps/prepare/multihost.py:36-40 | roles and hosts default to an empty dictionary, every other option to the supplied default |
| Multihost.EmptyTablesChangeNothing | tmt/steps/prepare/multihost.py:42-54 | with both mappings empty, the intended go() completes, changes no environment variable and executes nothing |
| Multihost.SplitJoin | tmt/steps/prepare/multihost.py:47-49 | when no guest name has a comma, splitting the exported value on commas gives back the role's guest list |
| Multihost.ExportSetsRoles | tmt/steps/prepare/multihost.py:47-49 | after the export every role of the table holds the comma-join of its guest names |
| Multihost.ExportKeepsOthers | tmt/steps/prepare/multihost.py:47-49 | a variable that is not a role of the table keeps its presence and value |
| Multihost.Addressed | tmt/steps/prepare/multihost.py:51-52 | the hosts that get a command are exactly those with a non-empty address |
| Multihost.HostCommands | tmt/steps/prepare/multihost.py:51-54 | every command issued is a remote command on the guest go() was given |
| Multihost.HostCommandsExact | tmt/steps/prepare/multihost.py:51-54 | one command per host with a truthy address, in mapping order, each exactly `echo "<address> <name>" >> /etc/hosts` |
| Multihost.EffectCommands | tmt/steps/prepare/multihost.py:51-54 | the commands of go() are remote commands on its guest only |
| Multihost.EffectAppendsCommands | tmt/steps/prepare/multihost.py:42-54 | go() appends nothing to the log but its remote commands on the guest |
| Multihost.Effect | tmt/steps/prepare/multihost.py:42-54 | the intended go() completes exactly when both values have items(); a roles value without items() changes nothing; otherwise the environment is the export of the roles, even when the hosts value then fails |
| Multihost.Characters | tmt/steps/prepare/multihost.py:47-49 | iterating a string gives one single-character string per character, in order |
| Multihost.HostTableAsRoles | tmt/steps/prepare/multihost.py:47-49 | a host dictionary given as roles is joined character by character: `{server: srv1}` exports `server=s,r,v,1` and issues nothing |
| Multihost.RoleTableHostItems | tmt/steps/prepare/multihost.py:51-54 | a role dictionary given as hosts is read as names with the list text of their guests, an empty list giving a falsy value |
| Multihost.RoleTableAsHosts | tmt/steps/prepare/multihost.py:51-54 | a role dictionary given as hosts formats each non-empty guest list into the hosts command and skips the empty one, leaving the environment alone |
| Multihost.ExportRoleVariables | tmt/steps/prepare/multihost.py:47-49 | the role loop sets each role's variable to its joined guest names, later roles overriding earlier ones as in the export of the table, and issues nothing |
| Multihost.AddHostEntries | tmt/steps/prepare/multihost.py:51-54 | the host loop appends exactly the hosts commands of the table on the guest and leaves the environment alone |
| Multihost.Go | tmt/steps/prepare/multihost.py:42-54 | the environment after the role loop and the commands of the host loop are those of the intended go(); a value without items() makes it fail, after the roles when it is the hosts value |

## Left out

- The click CLI (`base_command`), `show` and `summary` are left out: they are user interface and message formatting.
- The `info`/`debug` logging is left out: it has no effect on state. The `on` message of `PreparePlugin.go` is left out too; how the multihost plugin reaches it is under Findings.
- `save()`, the workdir and the status persistence of the base step are input/output. The restored status is a constructor parameter.
- `super().wake()` and `super().go()` of the base step are code that is not part of this model.
- `PreparePlugin.delegate`, plugin waking, `enabled_on_guest` and the ordering inside `self.plugins()` live in `tmt.steps`, which is not part of this model. They are given functions (`woken`, `StepBase`).
- The install plugins and any other non-multihost plugin are not modelled beyond whether their `go()` returns normally. Their effect on the guest is not modelled.
- The guest transport behind push, pull and execute is not modelled. These operations are log events that never fail.
- The numeric values of `DEFAULT_PLUGIN_ORDER_*` and the `_methods`/`_keys` registration of the multihost plugin are left out. The two orders go() uses are parameters.
- `copy.copy` aliasing is not modelled. The copy is the same guest record with its parent set to the step.
- Multihost.Go: it models the intended go(), in which `super().go(guest)` reaches a base go() that accepts the guest. As written the call raises, which `Multihost.EffectAsWritten` models (see Findings).
- Multihost.Go: only values without `.items()` make go() fail: text, numbers and lists, including the list-of-mappings layout shown in the plugin's docstring. A host dictionary given as roles and a role dictionary given as hosts are modelled. Guest names are strings, and a non-string element of a guest list is not modelled.
- Multihost.ListText: the list text of a guest list does not reproduce Python's `repr` escaping of quotes and backslashes inside names. An empty guest list is represented by the empty text, which is falsy like the empty list.
- Multihost.Addressed: configured host addresses are strings. Python's `None` and the empty string are both represented by the empty string, since both are falsy there.
- `self.plugins()` is called on every guest iteration in the source. The model evaluates it once, because the plugin list does not change during the loop.
- The order in which `list(set(...))` lists the required packages is unspecified in Python. `ListOfSet` picks an arbitrary order, and its contract states only distinctness and membership.

## Findings

| source | as written | input that shows it | evidently intended | confidence | as-written member | corrected member |
|---|---|---|---|---|---|---|
| tmt/steps/prepare/multihost.py:44 | `super().go(guest)` passes a guest to `PreparePlugin.go(self)` at tmt/steps/prepare/__init__.py:177, which takes none, so every call raises `TypeError` before any role is exported | the implicit multihost plugin of a step with two guests, run on either guest | go() exports the roles and writes the hosts commands on the guest | not executed | PrepareStep.MultihostAsWrittenRaises (with Multihost.EffectAsWritten) | Multihost.Effect (with PrepareStep.SynthesizedMultihostRun) |
