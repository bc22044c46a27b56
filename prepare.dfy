/** The prepare step of a tmt plan: it collects the configured prepare
    plugins, adds the implicit ones (required and recommended package
    installation, multihost setup) and applies every plugin enabled on a
    guest to that guest, between a workdir push and an artifact pull. */
module PrepareStep {
  import opened Dicts
  import opened Plans
  import Multihost

  /** The step status as the base step stores it: unset, 'todo' or 'done'. */
  datatype Status = NotStarted | Todo | Done

  /** tmt.utils.DEFAULT_PLUGIN_ORDER_REQUIRES and _RECOMMENDS (70 and 75 in tmt). */
  datatype Orders = Orders(required: int, recommended: int)

  /** What the base classes in tmt.steps decide and this model takes as given:
      the run order of the step's plugins (self.plugins()), whether a plugin
      is enabled on a guest (plugin.enabled_on_guest) and whether go() of a
      plugin other than multihost returns normally rather than raising. */
  datatype StepBase = StepBase(
    ordered: seq<Plugin> -> seq<Plugin>,
    enabledOnGuest: (Plugin, Guest) -> bool,
    completes: (Plugin, Guest) -> bool)

  // ---------------------------------------------------------------------
  // Waking up: which configured plugins are kept

  /** The plugins wake() keeps: those whose data has more than two keys once
      delegated and woken, in configuration order. */
  function Kept(woken: map<string, Value> -> Plugin, records: seq<map<string, Value>>): (kept: seq<Plugin>)
    ensures |kept| <= |records|
    ensures forall p :: p in kept ==> |p.data| > 2
    ensures forall d :: d in records && |woken(d).data| > 2 ==> woken(d) in kept
  {
    if records == [] then []
    else
      var last := records[|records| - 1];
      assert records == records[..|records| - 1] + [last];
      Kept(woken, records[..|records| - 1]) + (if |woken(last).data| > 2 then [woken(last)] else [])
  }

  // ---------------------------------------------------------------------
  // The two mappings handed to the multihost plugin

  /** The truthy roles of the guests, in guest order (repetitions kept). */
  function GuestRoles(gs: seq<Guest>): seq<string> {
    if gs == [] then []
    else
      var last := gs[|gs| - 1];
      GuestRoles(gs[..|gs| - 1]) + (if Truthy(last.role) then [last.role.value] else [])
  }

  /** The names of the guests whose role is role, in guest order. */
  function NamesWithRole(gs: seq<Guest>, role: string): seq<string> {
    if gs == [] then []
    else
      var last := gs[|gs| - 1];
      NamesWithRole(gs[..|gs| - 1], role) + (if Truthy(last.role) && last.role.value == role then [last.name] else [])
  }

  /** GuestRoles lists exactly the truthy roles of the guests. */
  lemma {:induction false} GuestRolesMembers(gs: seq<Guest>)
    ensures forall r :: r in GuestRoles(gs) <==> exists i :: 0 <= i < |gs| && gs[i].role == Some(r) && r != ""
  {
    if gs != [] {
      var n := |gs| - 1;
      GuestRolesMembers(gs[..n]);
      assert gs == gs[..n] + [gs[n]];
    }
  }

  /** NamesWithRole lists exactly the names of the guests with that role. */
  lemma {:induction false} NamesWithRoleMembers(gs: seq<Guest>, role: string)
    ensures forall x :: x in NamesWithRole(gs, role) <==>
      exists i :: 0 <= i < |gs| && gs[i].name == x && gs[i].role == Some(role) && role != ""
  {
    if gs != [] {
      var n := |gs| - 1;
      NamesWithRoleMembers(gs[..n], role);
      assert gs == gs[..n] + [gs[n]];
    }
  }

  /** A role has guests exactly when some guest has it as its truthy role. */
  lemma {:induction false} NamesWithRoleEmpty(gs: seq<Guest>, role: string)
    ensures NamesWithRole(gs, role) == [] <==> role !in GuestRoles(gs)
  {
    if gs != [] {
      NamesWithRoleEmpty(gs[..|gs| - 1], role);
    }
  }

  /** t is the role mapping of the guests: one entry per truthy role, in order
      of first appearance, holding the names of that role's guests in order. */
  ghost predicate IsRoleMapping(t: seq<(string, seq<string>)>, gs: seq<Guest>) {
    && Keys(t) == Dedupe(GuestRoles(gs))
    && forall i :: 0 <= i < |t| ==> t[i].1 == NamesWithRole(gs, t[i].0)
  }

  /** The role mapping has each truthy role of a guest exactly once, nothing
      else, and no role with an empty guest list. */
  lemma RoleMappingProperties(t: seq<(string, seq<string>)>, gs: seq<Guest>)
    requires IsRoleMapping(t, gs)
    ensures Distinct(Keys(t))
    ensures forall r :: r in Keys(t) <==> exists i :: 0 <= i < |gs| && gs[i].role == Some(r) && r != ""
    ensures forall i :: 0 <= i < |t| ==> t[i].1 != []
  {
    GuestRolesMembers(gs);
    DedupeProperties(GuestRoles(gs));
    forall i | 0 <= i < |t|
      ensures t[i].1 != []
    {
      assert Keys(t)[i] == t[i].0;
      NamesWithRoleEmpty(gs, t[i].0);
    }
  }

  /** The names of the guests that have a truthy address, in guest order. */
  function AddressedNames(gs: seq<Guest>): seq<string> {
    if gs == [] then []
    else
      var last := gs[|gs| - 1];
      AddressedNames(gs[..|gs| - 1]) + (if Truthy(last.address) then [last.name] else [])
  }

  /** AddressedNames lists exactly the names of the guests with a truthy address. */
  lemma {:induction false} AddressedNamesMembers(gs: seq<Guest>)
    ensures forall n :: n in AddressedNames(gs) <==> exists i :: 0 <= i < |gs| && gs[i].name == n && Truthy(gs[i].address)
  {
    if gs != [] {
      var n := |gs| - 1;
      AddressedNamesMembers(gs[..n]);
      assert gs == gs[..n] + [gs[n]];
    }
  }

  /** The address of the last guest called name that has a truthy one. */
  function LastAddress(gs: seq<Guest>, name: string): (a: Option<string>)
    ensures a.Some? <==> name in AddressedNames(gs)
    ensures a.Some? ==> a.value != ""
  {
    if gs == [] then None
    else
      var last := gs[|gs| - 1];
      if last.name == name && Truthy(last.address) then last.address
      else LastAddress(gs[..|gs| - 1], name)
  }

  /** When guest names are unique, the address recorded for a guest's name is that guest's. */
  lemma {:induction false} LastAddressOfUniqueName(gs: seq<Guest>, i: nat)
    requires i < |gs| && Truthy(gs[i].address)
    requires forall j, k :: 0 <= j < k < |gs| ==> gs[j].name != gs[k].name
    ensures LastAddress(gs, gs[i].name) == gs[i].address
  {
    if i < |gs| - 1 {
      LastAddressOfUniqueName(gs[..|gs| - 1], i);
    }
  }

  /** How the guest summaries grow when one more guest is looked at. */
  lemma GuestSnoc(gs: seq<Guest>, g: Guest)
    ensures GuestRoles(gs + [g]) == GuestRoles(gs) + (if Truthy(g.role) then [g.role.value] else [])
    ensures AddressedNames(gs + [g]) == AddressedNames(gs) + (if Truthy(g.address) then [g.name] else [])
    ensures forall r :: (NamesWithRole(gs + [g], r)
      == NamesWithRole(gs, r) + (if Truthy(g.role) && g.role.value == r then [g.name] else []))
    ensures forall n :: (LastAddress(gs + [g], n)
      == if g.name == n && Truthy(g.address) then g.address else LastAddress(gs, n))
  {
    assert (gs + [g])[..|gs|] == gs;
  }

  /** A guest without a truthy role leaves the role mapping as it is. */
  lemma RoleSkipped(t: seq<(string, seq<string>)>, gs: seq<Guest>, g: Guest)
    requires IsRoleMapping(t, gs) && !Truthy(g.role)
    ensures IsRoleMapping(t, gs + [g])
  {
    GuestSnoc(gs, g);
    assert GuestRoles(gs + [g]) == GuestRoles(gs);
  }

  /** A guest whose role is already mapped is appended to that role's list. */
  lemma RoleAppended(t: seq<(string, seq<string>)>, gs: seq<Guest>, g: Guest, k: nat)
    requires IsRoleMapping(t, gs) && Truthy(g.role)
    requires k < |t| && t[k].0 == g.role.value
    ensures IsRoleMapping(t[k := (t[k].0, t[k].1 + [g.name])], gs + [g])
  {
    var role := g.role.value;
    var t' := t[k := (role, t[k].1 + [g.name])];
    DedupeProperties(GuestRoles(gs));
    GuestSnoc(gs, g);
    assert Keys(t)[k] == role;
    DedupeSnoc(GuestRoles(gs), role);
    KeysUpdate(t, k, t[k].1 + [g.name]);
    forall j | 0 <= j < |t'|
      ensures t'[j].1 == NamesWithRole(gs + [g], t'[j].0)
    {
      if j != k {
        DistinctKeysAt(t, j, k);
      }
    }
  }

  /** A guest with a role not mapped yet starts a new entry at the end. */
  lemma RoleAdded(t: seq<(string, seq<string>)>, gs: seq<Guest>, g: Guest)
    requires IsRoleMapping(t, gs) && Truthy(g.role)
    requires g.role.value !in Keys(t)
    ensures IsRoleMapping(t + [(g.role.value, [g.name])], gs + [g])
  {
    var role := g.role.value;
    var t' := t + [(role, [g.name])];
    RoleAddedKeys(t, gs, g);
    GuestSnoc(gs, g);
    NamesWithRoleEmpty(gs, role);
    forall j | 0 <= j < |t'|
      ensures t'[j].1 == NamesWithRole(gs + [g], t'[j].0)
    {
      if j < |t| {
        assert Keys(t)[j] == t[j].0;
        assert t'[j] == t[j] && t[j].0 != role;
      } else {
        assert t'[j] == (role, [g.name]);
        assert NamesWithRole(gs + [g], role) == NamesWithRole(gs, role) + [g.name];
      }
    }
  }

  /** A role not among the keys is no guest's role yet, and it is appended
      to the keys and to the deduplicated roles alike. */
  lemma RoleAddedKeys(t: seq<(string, seq<string>)>, gs: seq<Guest>, g: Guest)
    requires Keys(t) == Dedupe(GuestRoles(gs)) && Truthy(g.role)
    requires g.role.value !in Keys(t)
    ensures g.role.value !in GuestRoles(gs)
    ensures Keys(t + [(g.role.value, [g.name])]) == Dedupe(GuestRoles(gs + [g]))
  {
    var role := g.role.value;
    GuestSnoc(gs, g);
    DedupeProperties(GuestRoles(gs));
    DedupeSnoc(GuestRoles(gs), role);
    KeysSnoc(t, role, [g.name]);
  }

  /** One iteration of the guest loop of _prepare_roles keeps the role
      mapping of the guests looked at so far, in each of its three cases. */
  lemma RoleStep(t: seq<(string, seq<string>)>, guests: seq<Guest>, i: nat)
    requires i < |guests| && IsRoleMapping(t, guests[..i])
    ensures var g := guests[i];
      !Truthy(g.role) ==> IsRoleMapping(t, guests[..i + 1])
    ensures var g := guests[i];
      Truthy(g.role) ==> var k := IndexOf(Keys(t), g.role.value);
        k < |t| ==> IsRoleMapping(t[k := (g.role.value, t[k].1 + [g.name])], guests[..i + 1])
    ensures var g := guests[i];
      Truthy(g.role) && IndexOf(Keys(t), g.role.value) == |t| ==> IsRoleMapping(t + [(g.role.value, [g.name])], guests[..i + 1])
  {
    var g := guests[i];
    assert guests[..i + 1] == guests[..i] + [g];
    if !Truthy(g.role) {
      RoleSkipped(t, guests[..i], g);
    } else {
      var k := IndexOf(Keys(t), g.role.value);
      if k < |t| {
        assert Keys(t)[k] == t[k].0;
        RoleAppended(t, guests[..i], g, k);
      } else {
        RoleAdded(t, guests[..i], g);
      }
    }
  }

  /** h is the host mapping of the guests: one entry per name of a guest with
      a truthy address, in order of first appearance, holding the address of
      the last such guest of that name. */
  ghost predicate IsHostMapping(h: seq<(string, string)>, gs: seq<Guest>) {
    && Keys(h) == Dedupe(AddressedNames(gs))
    && forall i :: 0 <= i < |h| ==> LastAddress(gs, h[i].0) == Some(h[i].1)
  }

  /** A guest without a truthy address leaves the host mapping as it is. */
  lemma HostSkipped(h: seq<(string, string)>, gs: seq<Guest>, g: Guest)
    requires IsHostMapping(h, gs) && !Truthy(g.address)
    ensures IsHostMapping(h, gs + [g])
  {
    GuestSnoc(gs, g);
    assert AddressedNames(gs + [g]) == AddressedNames(gs);
  }

  /** A guest with a truthy address sets its name to its address: a name
      already present keeps its place, a new one goes at the end. */
  lemma HostPut(h: seq<(string, string)>, gs: seq<Guest>, g: Guest)
    requires IsHostMapping(h, gs) && Truthy(g.address)
    ensures IsHostMapping(Put(h, g.name, g.address.value), gs + [g])
  {
    var h' := Put(h, g.name, g.address.value);
    DedupeProperties(AddressedNames(gs));
    GuestSnoc(gs, g);
    DedupeSnoc(AddressedNames(gs), g.name);
    var k := IndexOf(Keys(h), g.name);
    if k < |h| {
      KeysUpdate(h, k, g.address.value);
    } else {
      KeysSnoc(h, g.name, g.address.value);
    }
    forall j | 0 <= j < |h'|
      ensures LastAddress(gs + [g], h'[j].0) == Some(h'[j].1)
    {
      if j < |h| && j != k {
        if k < |h| {
          DistinctKeysAt(h, j, k);
        } else {
          assert Keys(h)[j] == h[j].0;
        }
      }
    }
  }

  /** One iteration of the guest loop of _prepare_hosts keeps the host
      mapping of the guests looked at so far. */
  lemma HostStep(h: seq<(string, string)>, guests: seq<Guest>, i: nat)
    requires i < |guests| && IsHostMapping(h, guests[..i])
    ensures var g := guests[i];
      IsHostMapping(if Truthy(g.address) then Put(h, g.name, g.address.value) else h, guests[..i + 1])
  {
    var g := guests[i];
    assert guests[..i + 1] == guests[..i] + [g];
    if Truthy(g.address) {
      HostPut(h, guests[..i], g);
    } else {
      HostSkipped(h, guests[..i], g);
    }
  }

  /** The host mapping names exactly the guests with a truthy address, each
      once and with a non-empty address; with unique guest names it pairs
      every such guest with its own address. */
  lemma HostMappingProperties(h: seq<(string, string)>, gs: seq<Guest>)
    requires IsHostMapping(h, gs)
    ensures Distinct(Keys(h))
    ensures forall n :: n in Keys(h) <==> exists i :: 0 <= i < |gs| && gs[i].name == n && Truthy(gs[i].address)
    ensures forall i :: 0 <= i < |h| ==> h[i].1 != ""
    ensures (forall j, k :: 0 <= j < k < |gs| ==> gs[j].name != gs[k].name) ==>
      forall i :: 0 <= i < |gs| && Truthy(gs[i].address) ==> (gs[i].name, gs[i].address.value) in h
  {
    AddressedNamesMembers(gs);
    DedupeProperties(AddressedNames(gs));
    if forall j, k :: 0 <= j < k < |gs| ==> gs[j].name != gs[k].name {
      forall i | 0 <= i < |gs| && Truthy(gs[i].address)
        ensures (gs[i].name, gs[i].address.value) in h
      {
        LastAddressOfUniqueName(gs, i);
        assert gs[i].name in Keys(h);
        var k := IndexOf(Keys(h), gs[i].name);
        assert h[k] == (gs[i].name, gs[i].address.value);
      }
    }
  }

  // ---------------------------------------------------------------------
  // The implicit plugins

  /** set(discover.requires() + provision.requires() + execute.requires()) */
  function RequiredPackages(discover: seq<string>, provision: seq<string>, execute: seq<string>): set<string> {
    set x | x in discover + provision + execute
  }

  /** The data of the implicit required-packages install plugin. */
  function RequiresData(packages: seq<string>, order: int): map<string, Value> {
    map["how" := Text("install"), "name" := Text("requires"),
        "summary" := Text("Install required packages"),
        "order" := Number(order), "package" := Names(packages)]
  }

  /** The data of the implicit recommended-packages install plugin. */
  function RecommendsData(recommends: seq<string>, order: int): map<string, Value> {
    map["how" := Text("install"), "name" := Text("recommends"),
        "summary" := Text("Install recommended packages"),
        "order" := Number(order), "package" := Names(recommends),
        "missing" := Text("skip")]
  }

  /** The data of the implicit multihost plugin. */
  function MultihostData(roles: seq<(string, seq<string>)>, hosts: seq<(string, string)>): map<string, Value> {
    map["how" := Text("multihost"), "name" := Text("multihost"),
        "summary" := Text("Setup guest for multihost testing"),
        "roles" := RoleTable(roles), "hosts" := HostTable(hosts)]
  }

  /** p installs the required packages: its package list holds each of them once. */
  ghost predicate IsRequiresInstall(p: Plugin, required: set<string>, order: int) {
    && "package" in p.data && p.data["package"].Names?
    && var packages := p.data["package"].names;
    && p.data == RequiresData(packages, order)
    && Distinct(packages)
    && forall x :: x in packages <==> x in required
  }

  /** p is the multihost setup carrying the role and host mappings of the guests. */
  ghost predicate IsMultihostSetup(p: Plugin, guests: seq<Guest>) {
    && "roles" in p.data && p.data["roles"].RoleTable?
    && "hosts" in p.data && p.data["hosts"].HostTable?
    && p.data == MultihostData(p.data["roles"].roles, p.data["hosts"].hosts)
    && IsRoleMapping(p.data["roles"].roles, guests)
    && IsHostMapping(p.data["hosts"].hosts, guests)
  }

  /** added are the implicit plugins go() appends, in the order it appends
      them: the required-packages install exactly when some package is
      required, the recommended-packages install (missing packages skipped)
      exactly when some are recommended, and the multihost setup exactly when
      there is more than one guest. */
  ghost predicate IsImplicit(added: seq<Plugin>, required: set<string>, recommends: seq<string>,
                             guests: seq<Guest>, orders: Orders) {
    var k1 := if required != {} then 1 else 0;
    var k2 := if recommends != [] then 1 else 0;
    var k3 := if |guests| > 1 then 1 else 0;
    && |added| == k1 + k2 + k3
    && (required != {} ==> IsRequiresInstall(added[0], required, orders.required))
    && (recommends != [] ==> added[k1] == Plugin(RecommendsData(recommends, orders.recommended)))
    && (|guests| > 1 ==> IsMultihostSetup(added[k1 + k2], guests))
  }

  /** With one required package, no recommendation and a single guest, go()
      adds exactly one plugin: the install of that package at the required
      order, and no multihost setup. */
  lemma OnePackageOneGuest(added: seq<Plugin>, package: string, g: Guest, orders: Orders)
    requires IsImplicit(added, {package}, [], [g], orders)
    ensures |added| == 1
    ensures added[0].data == RequiresData([package], orders.required)
    ensures !added[0].IsMultihost()
  {
    var packages := added[0].data["package"].names;
    assert package in packages;
    if |packages| > 1 {
      DistinctPair(packages);
      assert false;
    }
    assert packages == [package];
  }

  /** Exporting a role mapping sets every truthy role of the guests to the
      comma-joined names of its guests and keeps every other variable. */
  lemma ExportRoleMapping(env: map<string, string>, roles: seq<(string, seq<string>)>, guests: seq<Guest>)
    requires IsRoleMapping(roles, guests)
    ensures var e := Multihost.ExportRoles(env, roles);
      forall r :: r in GuestRoles(guests) ==> r in e && e[r] == Multihost.Join(NamesWithRole(guests, r))
    ensures var e := Multihost.ExportRoles(env, roles);
      forall k :: k !in GuestRoles(guests) ==> (k in e <==> k in env) && (k in env ==> e[k] == env[k])
  {
    DedupeProperties(GuestRoles(guests));
    Multihost.ExportSetsRoles(env, roles);
    forall r | r in GuestRoles(guests)
      ensures r in Multihost.ExportRoles(env, roles)
      ensures Multihost.ExportRoles(env, roles)[r] == Multihost.Join(NamesWithRole(guests, r))
    {
      var i := IndexOf(Keys(roles), r);
      assert roles[i].0 == Keys(roles)[i];
    }
    forall k | k !in GuestRoles(guests)
      ensures k in Multihost.ExportRoles(env, roles) <==> k in env
      ensures k in env ==> Multihost.ExportRoles(env, roles)[k] == env[k]
    {
      Multihost.ExportKeepsOthers(env, roles, k);
    }
  }

  /** The /etc/hosts commands for a host mapping: one per entry, which is one
      per distinct name of an addressed guest. */
  lemma HostMappingCommands(hosts: seq<(string, string)>, guests: seq<Guest>, g: Guest)
    requires IsHostMapping(hosts, guests)
    ensures |Multihost.HostCommands(hosts, g)| == |hosts| == |Dedupe(AddressedNames(guests))|
  {
    Multihost.HostCommandsExact(hosts, g);
    AllAddressed(hosts);
    assert |Keys(hosts)| == |hosts|;
  }

  /** The implicit multihost plugin, run on any guest, completes; it exports
      every truthy role as the comma-joined names of its guests in guest
      order, leaves every other environment variable as it was, and issues one
      /etc/hosts command per addressed guest name. */
  lemma SynthesizedMultihostRun(p: Plugin, guests: seq<Guest>, w: World, g: Guest)
    requires IsMultihostSetup(p, guests)
    ensures p.IsMultihost()
    ensures var (w', ok) := Multihost.Effect(w, p, g);
      && ok
      && (forall r :: r in GuestRoles(guests) ==> r in w'.environment && w'.environment[r] == Multihost.Join(NamesWithRole(guests, r)))
      && (forall k :: k !in GuestRoles(guests) ==> (k in w'.environment <==> k in w.environment))
      && (forall k :: k !in GuestRoles(guests) && k in w.environment ==> w'.environment[k] == w.environment[k])
      && w'.log == w.log + Multihost.HostCommands(p.data["hosts"].hosts, g)
      && |w'.log| == |w.log| + |Dedupe(AddressedNames(guests))|
  {
    var roles := p.data["roles"].roles;
    var hosts := p.data["hosts"].hosts;
    assert Multihost.RolesOf(p) == Some(roles);
    assert Multihost.HostsOf(p) == Some(hosts);
    ExportRoleMapping(w.environment, roles, guests);
    HostMappingCommands(hosts, guests, g);
  }

  /** As written, the implicit multihost plugin raises on every guest and
      changes nothing, where the intended go() completes. */
  lemma MultihostAsWrittenRaises(p: Plugin, guests: seq<Guest>, w: World, g: Guest)
    requires IsMultihostSetup(p, guests)
    ensures Multihost.EffectAsWritten(w, p, g) == (w, false)
    ensures Multihost.Effect(w, p, g).1
    ensures Multihost.EffectAsWritten(w, p, g) != Multihost.Effect(w, p, g)
  {
    SynthesizedMultihostRun(p, guests, w, g);
  }

  /** A table whose addresses are all non-empty is its own addressed part. */
  lemma {:induction false} AllAddressed(hosts: seq<(string, string)>)
    requires forall i :: 0 <= i < |hosts| ==> hosts[i].1 != ""
    ensures Multihost.Addressed(hosts) == hosts
  {
    if hosts != [] {
      var n := |hosts| - 1;
      var front := hosts[..n];
      assert forall i :: 0 <= i < |front| ==> front[i] == hosts[i];
      AllAddressed(front);
      assert hosts == front + [hosts[n]];
      Multihost.AddressedSnoc(front, hosts[n]);
    }
  }

  // ---------------------------------------------------------------------
  // Applying the plugins: the reference semantics of go()'s guest loop

  /** The plan state, the applied counter, and whether no plugin has raised. */
  datatype Progress = Progress(world: World, applied: nat, ok: bool)

  /** plugin.go(guest): the call is recorded; the multihost plugin then runs
      as Multihost.Effect, any other plugin completes as the base decides. */
  function PluginGo(w: World, p: Plugin, g: Guest, base: StepBase): (r: (World, bool))
    ensures |w.log| < |r.0.log| && r.0.log[..|w.log| + 1] == w.log + [Run(p, g)]
    ensures !p.IsMultihost() ==> r.0.environment == w.environment
  {
    var called := w.(log := w.log + [Run(p, g)]);
    if p.IsMultihost() then
      Multihost.EffectAppendsCommands(called, p, g);
      Multihost.Effect(called, p, g)
    else (called, base.completes(p, g))
  }

  /** One iteration of the plugin loop: an enabled plugin first bumps the
      counter, then runs. */
  function ApplyPlugin(s: Progress, p: Plugin, g: Guest, base: StepBase): Progress {
    if !s.ok || !base.enabledOnGuest(p, g) then s
    else
      var (w, ok) := PluginGo(s.world, p, g, base);
      Progress(w, s.applied + 1, ok)
  }

  /** The plugin loop for one guest: the plugins in order, stopping at the first that raises. */
  function ApplyPlugins(s: Progress, ps: seq<Plugin>, g: Guest, base: StepBase): (r: Progress)
    ensures !s.ok ==> r == s
    ensures r.ok ==> s.ok
    ensures s.applied <= r.applied <= s.applied + |ps|
  {
    if ps == [] then s
    else ApplyPlugin(ApplyPlugins(s, ps[..|ps| - 1], g, base), ps[|ps| - 1], g, base)
  }

  /** One iteration of the guest loop: push, plugins on the copy, pull when there are plugins. */
  function PrepareGuest(s: Progress, ps: seq<Plugin>, g: Guest, dataDirectory: string, base: StepBase): (r: Progress)
    ensures !s.ok ==> r == s
    ensures r.ok ==> s.ok
    ensures s.applied <= r.applied <= s.applied + |ps|
  {
    if !s.ok then s
    else
      var pushed := s.(world := s.world.(log := s.world.log + [Push(g)]));
      var guestCopy := Copy(g);
      var done := ApplyPlugins(pushed, ps, guestCopy, base);
      if done.ok && ps != [] then done.(world := done.world.(log := done.world.log + [Pull(guestCopy, dataDirectory)]))
      else done
  }

  /** The guest loop of go(): the guests in order, stopping at the first plugin that raises. */
  function PrepareGuests(s: Progress, gs: seq<Guest>, ps: seq<Plugin>, dataDirectory: string, base: StepBase): (r: Progress)
    ensures !s.ok ==> r == s
    ensures r.ok ==> s.ok
    ensures s.applied <= r.applied
  {
    if gs == [] then s
    else PrepareGuest(PrepareGuests(s, gs[..|gs| - 1], ps, dataDirectory, base), ps, gs[|gs| - 1], dataDirectory, base)
  }

  /** The number of plugins of ps enabled on g. */
  function EnabledCount(ps: seq<Plugin>, g: Guest, base: StepBase): nat {
    if ps == [] then 0
    else EnabledCount(ps[..|ps| - 1], g, base) + (if base.enabledOnGuest(ps[|ps| - 1], g) then 1 else 0)
  }

  /** The number of (guest, plugin) pairs where the plugin is enabled on the guest's copy. */
  function EnabledPairs(gs: seq<Guest>, ps: seq<Plugin>, base: StepBase): nat {
    if gs == [] then 0
    else EnabledPairs(gs[..|gs| - 1], ps, base) + EnabledCount(ps, Copy(gs[|gs| - 1]), base)
  }

  /** Once a plugin has raised, the rest of the plugin loop does nothing. */
  lemma {:induction false} ApplyPluginsAfterFailure(s: Progress, ps: seq<Plugin>, j: nat, g: Guest, base: StepBase)
    requires j <= |ps| && !ApplyPlugins(s, ps[..j], g, base).ok
    ensures ApplyPlugins(s, ps, g, base) == ApplyPlugins(s, ps[..j], g, base)
  {
    if j < |ps| {
      var n := |ps| - 1;
      assert ps[..n][..j] == ps[..j];
      ApplyPluginsAfterFailure(s, ps[..n], j, g, base);
    } else {
      assert ps[..j] == ps;
    }
  }

  /** Once a plugin has raised, the rest of the guest loop does nothing. */
  lemma {:induction false} PrepareGuestsAfterFailure(s: Progress, gs: seq<Guest>, i: nat, ps: seq<Plugin>, dataDirectory: string, base: StepBase)
    requires i <= |gs| && !PrepareGuests(s, gs[..i], ps, dataDirectory, base).ok
    ensures PrepareGuests(s, gs, ps, dataDirectory, base) == PrepareGuests(s, gs[..i], ps, dataDirectory, base)
  {
    if i < |gs| {
      var n := |gs| - 1;
      assert gs[..n][..i] == gs[..i];
      PrepareGuestsAfterFailure(s, gs[..n], i, ps, dataDirectory, base);
    } else {
      assert gs[..i] == gs;
    }
  }

  /** plugin.go(g) adds only plugin events on g to the log, among them exactly one plugin call. */
  lemma PluginGoDelta(w: World, p: Plugin, g: Guest, base: StepBase)
    ensures var (w', _) := PluginGo(w, p, g, base);
      PluginSuffix(w.log, w'.log, g) && Runs(w'.log) == Runs(w.log) + 1
  {
    var called := [Run(p, g)];
    assert Runs(called) == 1 by {
      assert called[..0] == [];
    }
    var cmds := if p.IsMultihost() then Multihost.EffectCommands(p, g) else [];
    if p.IsMultihost() {
      Multihost.EffectAppendsCommands(w.(log := w.log + called), p, g);
    } else {
      assert called + cmds == called;
    }
    CommandsAreNotRuns(cmds, g);
    assert PluginGo(w, p, g, base).0.log == w.log + (called + cmds);
    ExtractAppend(called, cmds);
    ExtractAppend(w.log, called + cmds);
    PluginSuffixAppend(w.log, called + cmds, g);
  }

  /** One plugin on g adds only plugin events on g to the log, one plugin
      call per counter increment. */
  lemma ApplyPluginDelta(q: Progress, p: Plugin, g: Guest, base: StepBase)
    ensures var r := ApplyPlugin(q, p, g, base);
      PluginSuffix(q.world.log, r.world.log, g) && r.applied + Runs(q.world.log) == q.applied + Runs(r.world.log)
  {
    if q.ok && base.enabledOnGuest(p, g) {
      PluginGoDelta(q.world, p, g, base);
    } else {
      PluginSuffixAppend(q.world.log, [], g);
      assert q.world.log + [] == q.world.log;
    }
  }

  /** The plugin loop on g only adds plugin events on g to the log, one plugin
      call per counter increment. */
  lemma {:induction false} ApplyPluginsDelta(s: Progress, ps: seq<Plugin>, g: Guest, base: StepBase)
    ensures var r := ApplyPlugins(s, ps, g, base);
      PluginSuffix(s.world.log, r.world.log, g) && r.applied + Runs(s.world.log) == s.applied + Runs(r.world.log)
  {
    if ps == [] {
      assert s.world.log[|s.world.log|..] == [];
    } else {
      var n := |ps| - 1;
      var q := ApplyPlugins(s, ps[..n], g, base);
      ApplyPluginsDelta(s, ps[..n], g, base);
      ApplyPluginDelta(q, ps[n], g, base);
      PluginSuffixTrans(s.world.log, q.world.log, ApplyPlugins(s, ps, g, base).world.log, g);
    }
  }

  /** When no plugin raised, the counter grew by the number of plugins enabled on g. */
  lemma {:induction false} ApplyPluginsCount(s: Progress, ps: seq<Plugin>, g: Guest, base: StepBase)
    ensures var r := ApplyPlugins(s, ps, g, base);
      r.ok ==> s.ok && r.applied == s.applied + EnabledCount(ps, g, base)
  {
    if ps != [] {
      ApplyPluginsCount(s, ps[..|ps| - 1], g, base);
    }
  }

  /** One guest: the log gets the push of the guest, then only plugin events
      on its copy (whose parent is the prepare step), then the pull of the
      copy exactly when nothing raised and there are plugins. */
  lemma GuestOrder(s: Progress, ps: seq<Plugin>, g: Guest, dataDirectory: string, base: StepBase)
    requires s.ok
    ensures Copy(g).parent == PrepareParent && Copy(g).name == g.name
    ensures var r := PrepareGuest(s, ps, g, dataDirectory, base);
      var done := ApplyPlugins(s.(world := s.world.(log := s.world.log + [Push(g)])), ps, Copy(g), base);
      && PluginSuffix(s.world.log + [Push(g)], done.world.log, Copy(g))
      && r.world.log == done.world.log + (if r.ok && ps != [] then [Pull(Copy(g), dataDirectory)] else [])
      && r.ok == done.ok
  {
    var pushed := s.(world := s.world.(log := s.world.log + [Push(g)]));
    ApplyPluginsDelta(pushed, ps, Copy(g), base);
    var done := ApplyPlugins(pushed, ps, Copy(g), base);
    if !(done.ok && ps != []) {
      assert done.world.log + [] == done.world.log;
    }
  }

  /** One guest: it is pushed once, and its copy is pulled once exactly when
      nothing raised and there are plugins. */
  lemma GuestTransfers(s: Progress, ps: seq<Plugin>, g: Guest, dataDirectory: string, base: StepBase)
    requires s.ok
    ensures var r := PrepareGuest(s, ps, g, dataDirectory, base);
      && Pushed(r.world.log) == Pushed(s.world.log) + [g]
      && Pulled(r.world.log) == Pulled(s.world.log) + (if r.ok && ps != [] then [Copy(g)] else [])
  {
    var pushed := s.(world := s.world.(log := s.world.log + [Push(g)]));
    var done := ApplyPlugins(pushed, ps, Copy(g), base);
    var r := PrepareGuest(s, ps, g, dataDirectory, base);
    var pull := if r.ok && ps != [] then [Pull(Copy(g), dataDirectory)] else [];
    GuestOrder(s, ps, g, dataDirectory, base);
    PluginSuffixCounts(pushed.world.log, done.world.log, Copy(g));
    ExtractAppend(s.world.log, [Push(g)]);
    ExtractAppend(done.world.log, pull);
    assert Pushed([Push(g)]) == [g] && Pulled([Push(g)]) == [] by {
      assert [Push(g)][..0] == [];
    }
    assert Pushed(pull) == [] && Pulled(pull) == (if r.ok && ps != [] then [Copy(g)] else []) by {
      if pull != [] {
        assert pull[..0] == [];
      }
    }
  }

  /** One guest: the counter grows by the plugin calls made, which is the
      number of plugins enabled on the copy when none raised. */
  lemma GuestCounter(s: Progress, ps: seq<Plugin>, g: Guest, dataDirectory: string, base: StepBase)
    requires s.ok
    ensures var r := PrepareGuest(s, ps, g, dataDirectory, base);
      && r.applied + Runs(s.world.log) == s.applied + Runs(r.world.log)
      && (r.ok ==> r.applied == s.applied + EnabledCount(ps, Copy(g), base))
  {
    var pushed := s.(world := s.world.(log := s.world.log + [Push(g)]));
    var done := ApplyPlugins(pushed, ps, Copy(g), base);
    var r := PrepareGuest(s, ps, g, dataDirectory, base);
    var pull := if r.ok && ps != [] then [Pull(Copy(g), dataDirectory)] else [];
    GuestOrder(s, ps, g, dataDirectory, base);
    ApplyPluginsDelta(pushed, ps, Copy(g), base);
    ApplyPluginsCount(pushed, ps, Copy(g), base);
    ExtractAppend(s.world.log, [Push(g)]);
    ExtractAppend(done.world.log, pull);
    assert Runs([Push(g)]) == 0 by {
      assert [Push(g)][..0] == [];
    }
    assert Runs(pull) == 0 by {
      if pull != [] {
        assert pull[..0] == [];
      }
    }
  }

  /** Over the whole guest loop the counter grows by exactly the number of
      plugin calls made, including a call that raised: it is bumped before
      plugin.go runs. */
  lemma {:induction false} CounterCountsCalls(s: Progress, gs: seq<Guest>, ps: seq<Plugin>, dataDirectory: string, base: StepBase)
    requires s.ok
    ensures var r := PrepareGuests(s, gs, ps, dataDirectory, base);
      r.applied + Runs(s.world.log) == s.applied + Runs(r.world.log)
  {
    if gs != [] {
      var n := |gs| - 1;
      var q := PrepareGuests(s, gs[..n], ps, dataDirectory, base);
      CounterCountsCalls(s, gs[..n], ps, dataDirectory, base);
      if q.ok {
        GuestCounter(q, ps, gs[n], dataDirectory, base);
      }
    }
  }

  /** When every plugin completes, the counter grows by the number of
      (guest, plugin) pairs where the plugin is enabled on the guest. */
  lemma {:induction false} CounterOnSuccess(s: Progress, gs: seq<Guest>, ps: seq<Plugin>, dataDirectory: string, base: StepBase)
    requires s.ok
    ensures var r := PrepareGuests(s, gs, ps, dataDirectory, base);
      r.ok ==> r.applied == s.applied + EnabledPairs(gs, ps, base)
  {
    if gs != [] {
      var n := |gs| - 1;
      var q := PrepareGuests(s, gs[..n], ps, dataDirectory, base);
      CounterOnSuccess(s, gs[..n], ps, dataDirectory, base);
      if q.ok {
        GuestCounter(q, ps, gs[n], dataDirectory, base);
      }
    }
  }

  /** The copies go() makes of the guests, in guest order. */
  function Copies(gs: seq<Guest>): (cs: seq<Guest>)
    ensures |cs| == |gs|
    ensures forall i :: 0 <= i < |gs| ==> cs[i] == Copy(gs[i]) && cs[i].name == gs[i].name && cs[i].parent == PrepareParent
  {
    if gs == [] then [] else Copies(gs[..|gs| - 1]) + [Copy(gs[|gs| - 1])]
  }

  /** When every plugin completes, each guest is pushed exactly once, in guest order. */
  lemma {:induction false} PushesInOrder(s: Progress, gs: seq<Guest>, ps: seq<Plugin>, dataDirectory: string, base: StepBase)
    requires s.ok
    ensures var r := PrepareGuests(s, gs, ps, dataDirectory, base);
      r.ok ==> Pushed(r.world.log) == Pushed(s.world.log) + gs
  {
    if gs == [] {
      assert Pushed(s.world.log) + gs == Pushed(s.world.log);
    } else {
      var n := |gs| - 1;
      var q := PrepareGuests(s, gs[..n], ps, dataDirectory, base);
      PushesInOrder(s, gs[..n], ps, dataDirectory, base);
      if q.ok {
        GuestTransfers(q, ps, gs[n], dataDirectory, base);
        assert gs == gs[..n] + [gs[n]];
      }
    }
  }

  /** When every plugin completes, the copies are pulled in guest order exactly
      when the plugin list is not empty, whether or not a plugin was enabled on them. */
  lemma {:induction false} PullsInOrder(s: Progress, gs: seq<Guest>, ps: seq<Plugin>, dataDirectory: string, base: StepBase)
    requires s.ok
    ensures var r := PrepareGuests(s, gs, ps, dataDirectory, base);
      r.ok ==> Pulled(r.world.log) == Pulled(s.world.log) + (if ps == [] then [] else Copies(gs))
  {
    if gs == [] {
      assert Pulled(s.world.log) + [] == Pulled(s.world.log);
    } else {
      var n := |gs| - 1;
      var q := PrepareGuests(s, gs[..n], ps, dataDirectory, base);
      var r := PrepareGuest(q, ps, gs[n], dataDirectory, base);
      assert PrepareGuests(s, gs, ps, dataDirectory, base) == r;
      if r.ok {
        PullsInOrder(s, gs[..n], ps, dataDirectory, base);
        GuestTransfers(q, ps, gs[n], dataDirectory, base);
        assert Copies(gs) == Copies(gs[..n]) + [Copy(gs[n])];
        if ps != [] {
          assert Pulled(r.world.log) == Pulled(s.world.log) + Copies(gs[..n]) + [Copy(gs[n])];
        }
      }
    }
  }

  // ---------------------------------------------------------------------
  // The step object

  /** list(requires): the distinct required packages in the set's (unspecified) iteration order. */
  method ListOfSet(required: set<string>) returns (packages: seq<string>)
    ensures Distinct(packages)
    ensures forall x :: x in packages <==> x in required
  {
    packages := [];
    var rest := required;
    while rest != {}
      invariant forall x :: x in required <==> x in rest || x in packages
      invariant forall x :: x in rest ==> x !in packages
      invariant Distinct(packages)
      decreases |rest|
    {
      var x :| x in rest;
      packages := packages + [x];
      rest := rest - {x};
    }
  }

  /** One configured plugin applied to one guest: plugin.go(guest). */
  method RunPlugin(p: Plugin, guest: Guest, plan: Plan, base: StepBase) returns (ok: bool)
    modifies plan
    ensures (plan.State(), ok) == PluginGo(old(plan.State()), p, guest, base)
  {
    plan.log := plan.log + [Run(p, guest)];
    if p.IsMultihost() {
      ok := Multihost.Go(p, guest, plan);
    } else {
      ok := base.completes(p, guest);
    }
  }

  class Prepare {
    /** The plan this step belongs to. */
    const plan: Plan
    /** The step's configuration records (self.data). */
    const data: seq<map<string, Value>>
    var status: Status
    /** self._plugins */
    var plugins: seq<Plugin>
    var preparationsApplied: nat

    /** A prepare step of plan with its configuration; saved is the status the
        base step restored from the workdir. */
    constructor (plan: Plan, data: seq<map<string, Value>>, saved: Status)
      ensures this.plan == plan && this.data == data
      ensures status == saved && plugins == [] && preparationsApplied == 0
    {
      this.plan := plan;
      this.data := data;
      status := saved;
      plugins := [];
      preparationsApplied := 0;
    }

    /** Prepare.wake: keep each woken plugin with more than two data keys,
        then mark the step 'todo' unless it is already 'done'. woken stands
        for PreparePlugin.delegate followed by plugin.wake(). */
    method Wake(woken: map<string, Value> -> Plugin)
      modifies this
      ensures plugins == old(plugins) + Kept(woken, data)
      ensures status == (if old(status) == Done then Done else Todo)
      ensures preparationsApplied == old(preparationsApplied)
    {
      var i := 0;
      while i < |data|
        invariant 0 <= i <= |data|
        invariant plugins == old(plugins) + Kept(woken, data[..i])
        invariant status == old(status) && preparationsApplied == old(preparationsApplied)
      {
        var plugin := woken(data[i]);
        if |plugin.data| > 2 {
          plugins := plugins + [plugin];
        }
        assert data[..i + 1][..i] == data[..i];
        i := i + 1;
      }
      assert data[..i] == data;
      if status != Done {
        status := Todo;
      }
    }

    /** Prepare._prepare_roles */
    method PrepareRoles(guests: seq<Guest>) returns (roleMapping: seq<(string, seq<string>)>)
      ensures IsRoleMapping(roleMapping, guests)
    {
      roleMapping := [];
      var i := 0;
      while i < |guests|
        invariant 0 <= i <= |guests|
        invariant IsRoleMapping(roleMapping, guests[..i])
      {
        var guest := guests[i];
        RoleStep(roleMapping, guests, i);
        if Truthy(guest.role) {
          var role := guest.role.value;
          var k := IndexOf(Keys(roleMapping), role);
          if k < |roleMapping| {
            // role_mapping[role] already holds a list: append to it
            roleMapping := roleMapping[k := (role, roleMapping[k].1 + [guest.name])];
          } else {
            // the defaultdict starts an empty list for the new role
            roleMapping := roleMapping + [(role, [guest.name])];
          }
        }
        i := i + 1;
      }
      assert guests[..i] == guests;
    }

    /** Prepare._prepare_hosts */
    method PrepareHosts(guests: seq<Guest>) returns (hostMapping: seq<(string, string)>)
      ensures IsHostMapping(hostMapping, guests)
    {
      hostMapping := [];
      var i := 0;
      while i < |guests|
        invariant 0 <= i <= |guests|
        invariant IsHostMapping(hostMapping, guests[..i])
      {
        var guest := guests[i];
        HostStep(hostMapping, guests, i);
        if Truthy(guest.address) {
          hostMapping := Put(hostMapping, guest.name, guest.address.value);
        }
        i := i + 1;
      }
      assert guests[..i] == guests;
    }

    /** The implicit plugins of Prepare.go, in the order go() appends them. */
    method ImplicitPlugins(discoverRequires: seq<string>, provisionRequires: seq<string>,
                           executeRequires: seq<string>, recommends: seq<string>,
                           guests: seq<Guest>, orders: Orders)
      returns (added: seq<Plugin>)
      ensures IsImplicit(added, RequiredPackages(discoverRequires, provisionRequires, executeRequires),
                         recommends, guests, orders)
    {
      added := [];
      var required := RequiredPackages(discoverRequires, provisionRequires, executeRequires);
      if required != {} {
        var packages := ListOfSet(required);
        added := added + [Plugin(RequiresData(packages, orders.required))];
      }
      if recommends != [] {
        added := added + [Plugin(RecommendsData(recommends, orders.recommended))];
      }
      if |guests| > 1 {
        var roles := PrepareRoles(guests);
        var hosts := PrepareHosts(guests);
        added := added + [Plugin(MultihostData(roles, hosts))];
      }
    }

    /** One iteration of the guest loop of Prepare.go: push the guest, apply
        every plugin enabled on its copy, counting each before it runs, and
        pull the copy when there are plugins. ok is false when a plugin raised. */
    method ApplyToGuest(guest: Guest, ordered: seq<Plugin>, dataDirectory: string, base: StepBase)
      returns (ok: bool)
      modifies this, plan
      ensures var r := PrepareGuest(Progress(old(plan.State()), old(preparationsApplied), true),
                                    ordered, guest, dataDirectory, base);
        plan.State() == r.world && preparationsApplied == r.applied && ok == r.ok
      ensures plugins == old(plugins) && status == old(status)
    {
      plan.log := plan.log + [Push(guest)];
      var guestCopy := Copy(guest);
      ghost var pushed := Progress(plan.State(), preparationsApplied, true);
      var j := 0;
      while j < |ordered|
        invariant 0 <= j <= |ordered|
        invariant ApplyPlugins(pushed, ordered[..j], guestCopy, base)
                  == Progress(plan.State(), preparationsApplied, true)
        invariant plugins == old(plugins) && status == old(status)
      {
        var plugin := ordered[j];
        assert ordered[..j + 1][..j] == ordered[..j];
        if base.enabledOnGuest(plugin, guestCopy) {
          preparationsApplied := preparationsApplied + 1;
          var completed := RunPlugin(plugin, guestCopy, plan, base);
          if !completed {
            ApplyPluginsAfterFailure(pushed, ordered, j + 1, guestCopy, base);
            return false;
          }
        }
        j := j + 1;
      }
      assert ordered[..j] == ordered;
      if ordered != [] {
        plan.log := plan.log + [Pull(guestCopy, dataDirectory)];
      }
      ok := true;
    }

    /** The guest loop of go(): each guest in order, stopping at the first
        plugin that raises. */
    method ApplyToGuests(guests: seq<Guest>, ordered: seq<Plugin>, dataDirectory: string, base: StepBase)
      returns (ok: bool)
      modifies this, plan
      ensures var r := PrepareGuests(Progress(old(plan.State()), old(preparationsApplied), true),
                                     guests, ordered, dataDirectory, base);
        plan.State() == r.world && preparationsApplied == r.applied && ok == r.ok
      ensures plugins == old(plugins) && status == old(status)
    {
      ghost var start := Progress(plan.State(), preparationsApplied, true);
      var i := 0;
      while i < |guests|
        invariant 0 <= i <= |guests|
        invariant PrepareGuests(start, guests[..i], ordered, dataDirectory, base)
                  == Progress(plan.State(), preparationsApplied, true)
        invariant plugins == old(plugins) && status == old(status)
      {
        assert guests[..i + 1][..i] == guests[..i];
        var completed := ApplyToGuest(guests[i], ordered, dataDirectory, base);
        if !completed {
          PrepareGuestsAfterFailure(start, guests, i + 1, ordered, dataDirectory, base);
          return false;
        }
        i := i + 1;
      }
      assert guests[..i] == guests;
      ok := true;
    }

    /** Prepare.go. The discover, provision and execute requirements, the
        recommendations, the provisioned guests and the plan data directory
        are what the other steps report. ok is false when a plugin raised;
        the step then stays unfinished. */
    method Go(discoverRequires: seq<string>, provisionRequires: seq<string>,
              executeRequires: seq<string>, recommends: seq<string>,
              guests: seq<Guest>, orders: Orders, dataDirectory: string, base: StepBase)
      returns (ok: bool)
      modifies this, plan
      ensures old(status) == Done ==>
        ok && status == Done && plugins == old(plugins)
        && preparationsApplied == old(preparationsApplied) && plan.State() == old(plan.State())
      ensures old(status) != Done ==>
        && |old(plugins)| <= |plugins| && plugins[..|old(plugins)|] == old(plugins)
        && IsImplicit(plugins[|old(plugins)|..],
                      RequiredPackages(discoverRequires, provisionRequires, executeRequires),
                      recommends, guests, orders)
      ensures old(status) != Done ==>
        var r := PrepareGuests(Progress(old(plan.State()), old(preparationsApplied), true),
                               guests, base.ordered(plugins), dataDirectory, base);
        && plan.State() == r.world && preparationsApplied == r.applied && ok == r.ok
        && status == (if r.ok then Done else old(status))
    {
      if status == Done {
        return true;
      }
      var added := ImplicitPlugins(discoverRequires, provisionRequires, executeRequires, recommends, guests, orders);
      plugins := plugins + added;
      assert plugins[..|old(plugins)|] == old(plugins) && plugins[|old(plugins)|..] == added;
      var ordered := base.ordered(plugins);
      ok := ApplyToGuests(guests, ordered, dataDirectory, base);
      if !ok {
        return false;
      }
      status := Done;
      ok := true;
    }
  }
}
