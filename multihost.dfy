/** The multihost prepare plugin: exports guest roles into the plan
    environment and adds every known host to the guest's /etc/hosts. */
module Multihost {
  import opened Dicts
  import opened Plans

  /** A value that stands for Python's empty dictionary. */
  predicate IsEmptyTable(v: Value) {
    (v.RoleTable? && v.roles == []) || (v.HostTable? && v.hosts == [])
  }

  /** PrepareMultihost.default: 'roles' and 'hosts' default to an empty
      dictionary, every other option to the default the caller supplies. */
  function Default(option: string, default: Option<Value>): (r: Option<Value>)
    ensures (option == "roles" || option == "hosts") ==> r.Some? && IsEmptyTable(r.value)
    ensures option != "roles" && option != "hosts" ==> r == default
  {
    if option == "roles" then Some(RoleTable([]))
    else if option == "hosts" then Some(HostTable([]))
    else default
  }

  /** self.get(option): the value in the plugin's data, else the class default. */
  function Get(p: Plugin, option: string): Option<Value> {
    if option in p.data then Some(p.data[option]) else Default(option, None)
  }

  /** The one-character strings of s: what iterating over a Python string gives. */
  function Characters(s: string): (cs: seq<string>)
    ensures |cs| == |s|
    ensures forall i :: 0 <= i < |s| ==> cs[i] == [s[i]]
  {
    seq(|s|, i requires 0 <= i < |s| => [s[i]])
  }

  /** The text an f-string gives for a list of names, for names without
      quotes or backslashes: ['a', 'b']. */
  function ListText(names: seq<string>): string {
    "[" + QuotedNames(names) + "]"
  }

  /** The quoted names of a list, separated by ", ". */
  function QuotedNames(names: seq<string>): string {
    if names == [] then ""
    else if |names| == 1 then "'" + names[0] + "'"
    else "'" + names[0] + "', " + QuotedNames(names[1..])
  }

  /** The items go() iterates over for 'roles', or None when the value has no
      items() and go() raises. A host dictionary given as roles is iterated
      too: joining an address string joins its characters. */
  function RolesOf(p: Plugin): Option<seq<(string, seq<string>)>> {
    match Get(p, "roles")
    case Some(RoleTable(t)) => Some(t)
    case Some(HostTable(h)) => Some(seq(|h|, i requires 0 <= i < |h| => (h[i].0, Characters(h[i].1))))
    case _ => None
  }

  /** The items go() iterates over for 'hosts', as name and address text, or
      None when the value has no items() and go() raises. A role dictionary
      given as hosts is iterated too: a guest list is truthy when it is not
      empty and is formatted into the command as list text; an empty list
      stands as the falsy empty text. */
  function HostsOf(p: Plugin): Option<seq<(string, string)>> {
    match Get(p, "hosts")
    case Some(HostTable(t)) => Some(t)
    case Some(RoleTable(r)) =>
      Some(seq(|r|, i requires 0 <= i < |r| => (r[i].0, if r[i].1 == [] then "" else ListText(r[i].1))))
    case _ => None
  }

  /** ','.join(names) */
  function Join(names: seq<string>): string {
    if names == [] then ""
    else if |names| == 1 then names[0]
    else names[0] + "," + Join(names[1..])
  }

  /** s.split(','): the pieces between commas; never empty, "" gives [""]. */
  function Split(s: string): (parts: seq<string>)
    ensures |parts| >= 1
  {
    if s == [] then [""]
    else
      var rest := Split(s[1..]);
      if s[0] == ',' then [""] + rest else [[s[0]] + rest[0]] + rest[1..]
  }

  /** A comma-free prefix glues onto the first piece. */
  lemma {:induction false} SplitCommaFreePrefix(a: string, rest: string)
    requires ',' !in a
    ensures Split(a + rest) == [a + Split(rest)[0]] + Split(rest)[1..]
  {
    if a == [] {
      assert a + rest == rest;
      assert a + Split(rest)[0] == Split(rest)[0];
      assert Split(rest) == [Split(rest)[0]] + Split(rest)[1..];
    } else {
      assert (a + rest)[0] == a[0];
      assert (a + rest)[1..] == a[1..] + rest;
      SplitCommaFreePrefix(a[1..], rest);
      assert [a[0]] + (a[1..] + Split(rest)[0]) == a + Split(rest)[0];
    }
  }

  /** The exported value of a role gives back its guest list when split on
      commas, provided the list is not empty and no guest name has a comma. */
  lemma {:induction false} SplitJoin(names: seq<string>)
    requires names != []
    requires forall i :: 0 <= i < |names| ==> ',' !in names[i]
    ensures Split(Join(names)) == names
  {
    if |names| == 1 {
      SplitCommaFreePrefix(names[0], "");
      assert names[0] + "" == names[0];
    } else {
      var j := Join(names[1..]);
      SplitJoin(names[1..]);
      assert names[0] + "," + j == names[0] + ("," + j);
      SplitCommaFreePrefix(names[0], "," + j);
      assert ("," + j)[1..] == j;
      assert names[0] + "" == names[0];
      assert names == [names[0]] + names[1..];
    }
  }

  /** plan.environment after 'environment[role] = ",".join(guests)' for each
      role of the table, in table order. */
  function ExportRoles(env: map<string, string>, roles: seq<(string, seq<string>)>): map<string, string> {
    if roles == [] then env
    else
      var last := roles[|roles| - 1];
      ExportRoles(env, roles[..|roles| - 1])[last.0 := Join(last.1)]
  }

  /** Every role of the table is exported as the comma-join of its guest names. */
  lemma {:induction false} ExportSetsRoles(env: map<string, string>, roles: seq<(string, seq<string>)>)
    requires Distinct(Keys(roles))
    ensures forall i :: 0 <= i < |roles| ==>
      roles[i].0 in ExportRoles(env, roles) && ExportRoles(env, roles)[roles[i].0] == Join(roles[i].1)
  {
    if roles != [] {
      var n := |roles| - 1;
      var front := roles[..n];
      assert Keys(front) == Keys(roles)[..n];
      ExportSetsRoles(env, front);
      forall i | 0 <= i < n
        ensures roles[i].0 != roles[n].0
      {
        assert Keys(roles)[i] == roles[i].0 && Keys(roles)[n] == roles[n].0;
      }
    }
  }

  /** An environment variable that is not a role of the table keeps its presence and value. */
  lemma {:induction false} ExportKeepsOthers(env: map<string, string>, roles: seq<(string, seq<string>)>, k: string)
    requires k !in Keys(roles)
    ensures k in ExportRoles(env, roles) <==> k in env
    ensures k in env ==> ExportRoles(env, roles)[k] == env[k]
  {
    if roles != [] {
      var n := |roles| - 1;
      assert Keys(roles[..n]) == Keys(roles)[..n];
      assert Keys(roles)[n] == roles[n].0;
      ExportKeepsOthers(env, roles[..n], k);
    }
  }

  /** The line appended to /etc/hosts for one host. */
  function HostsCommand(address: string, name: string): string {
    "echo \"" + address + " " + name + "\" >> /etc/hosts"
  }

  /** The hosts with a non-empty address, in table order. */
  function Addressed(hosts: seq<(string, string)>): (r: seq<(string, string)>)
    ensures forall x :: x in r <==> x in hosts && x.1 != ""
    ensures |r| <= |hosts|
  {
    if hosts == [] then []
    else
      var last := hosts[|hosts| - 1];
      assert hosts == hosts[..|hosts| - 1] + [last];
      Addressed(hosts[..|hosts| - 1]) + (if last.1 != "" then [last] else [])
  }

  /** Looking at one more host appends it when its address is non-empty. */
  lemma AddressedSnoc(front: seq<(string, string)>, last: (string, string))
    ensures Addressed(front + [last]) == Addressed(front) + (if last.1 != "" then [last] else [])
  {
    assert (front + [last])[..|front|] == front;
  }

  /** The commands go() issues on guest g for the host table, in table order. */
  function HostCommands(hosts: seq<(string, string)>, g: Guest): (cmds: seq<Event>)
    ensures CommandsOn(cmds, g)
  {
    if hosts == [] then []
    else
      var last := hosts[|hosts| - 1];
      HostCommands(hosts[..|hosts| - 1], g)
        + (if last.1 != "" then [Execute(g, HostsCommand(last.1, last.0))] else [])
  }

  /** One command per host with a non-empty address, in table order, and each
      exactly the /etc/hosts append for that host's address and name. */
  lemma {:induction false} HostCommandsExact(hosts: seq<(string, string)>, g: Guest)
    ensures |HostCommands(hosts, g)| == |Addressed(hosts)|
    ensures forall k :: 0 <= k < |Addressed(hosts)| ==>
      HostCommands(hosts, g)[k] == Execute(g, HostsCommand(Addressed(hosts)[k].1, Addressed(hosts)[k].0))
  {
    if hosts != [] {
      HostCommandsExact(hosts[..|hosts| - 1], g);
    }
  }

  /** PrepareMultihost.go on guest g as intended, with the base go() taking
      the guest (see EffectAsWritten): the new plan state and whether it
      completed. A 'roles' or 'hosts' value without items() makes it raise;
      roles are exported before the hosts are read. */
  function Effect(w: World, p: Plugin, g: Guest): (r: (World, bool))
    ensures r.1 <==> RolesOf(p).Some? && HostsOf(p).Some?
    ensures RolesOf(p).None? ==> r.0 == w
    ensures RolesOf(p).Some? ==> r.0.environment == ExportRoles(w.environment, RolesOf(p).value)
  {
    match RolesOf(p)
    case None => (w, false)
    case Some(roles) =>
      var env := ExportRoles(w.environment, roles);
      match HostsOf(p)
      case None => (World(env, w.log), false)
      case Some(hosts) => (World(env, w.log + HostCommands(hosts, g)), true)
  }

  /** The remote commands go() issues on g: the host commands, once both
      tables have been read. */
  function EffectCommands(p: Plugin, g: Guest): (cmds: seq<Event>)
    ensures CommandsOn(cmds, g)
  {
    if RolesOf(p).Some? && HostsOf(p).Some? then HostCommands(HostsOf(p).value, g) else []
  }

  /** go() appends nothing to the log but its remote commands on g. */
  lemma EffectAppendsCommands(w: World, p: Plugin, g: Guest)
    ensures Effect(w, p, g).0.log == w.log + EffectCommands(p, g)
  {
    if RolesOf(p).None? || HostsOf(p).None? {
      assert w.log + [] == w.log;
    }
  }

  /** With both tables empty, go() changes nothing and executes nothing. */
  lemma EmptyTablesChangeNothing(w: World, p: Plugin, g: Guest)
    requires RolesOf(p) == Some([]) && HostsOf(p) == Some([])
    ensures Effect(w, p, g) == (w, true)
  {
    assert w.log + [] == w.log;
  }

  /** A host dictionary given as roles is iterated like a role dictionary:
      the address string is joined character by character. */
  lemma HostTableAsRoles(w: World, g: Guest)
    ensures var (w', ok) := Effect(w, Plugin(map["roles" := HostTable([("server", "srv1")])]), g);
      ok && w'.environment == w.environment["server" := "s,r,v,1"] && w'.log == w.log
  {
    var h := [("server", "srv1")];
    var p := Plugin(map["roles" := HostTable(h)]);
    var cs := Characters("srv1");
    var items := seq(|h|, i requires 0 <= i < |h| => (h[i].0, Characters(h[i].1)));
    assert items == [("server", cs)];
    assert cs == ["s", "r", "v", "1"];
    assert cs[1..] == ["r", "v", "1"] && cs[2..] == ["v", "1"] && cs[3..] == ["1"];
    assert Join(cs) == "s,r,v,1";
    assert RolesOf(p) == Some([("server", cs)]);
    assert HostsOf(p) == Some([]);
    assert ExportRoles(w.environment, [("server", cs)]) == ExportRoles(w.environment, [])["server" := Join(cs)];
    assert w.log + [] == w.log;
  }

  /** A role dictionary given as hosts is read as names with list texts, an
      empty guest list giving the falsy empty text. */
  lemma RoleTableHostItems()
    ensures HostsOf(Plugin(map["hosts" := RoleTable([("db", ["a"]), ("none", [])])]))
      == Some([("db", "['a']"), ("none", "")])
  {
    var t := [("db", ["a"]), ("none", [])];
    assert ListText(["a"]) == "['a']";
    var items := seq(|t|, i requires 0 <= i < |t| => (t[i].0, if t[i].1 == [] then "" else ListText(t[i].1)));
    assert items == [("db", "['a']"), ("none", "")];
  }

  /** A role dictionary given as hosts is iterated like a host dictionary: a
      non-empty guest list is formatted into the command as list text, an
      empty one is skipped. */
  lemma RoleTableAsHosts(w: World, g: Guest)
    ensures var (w', ok) := Effect(w, Plugin(map["hosts" := RoleTable([("db", ["a"]), ("none", [])])]), g);
      ok && w'.environment == w.environment && w'.log == w.log + [Execute(g, "echo \"['a'] db\" >> /etc/hosts")]
  {
    var p := Plugin(map["hosts" := RoleTable([("db", ["a"]), ("none", [])])]);
    var hosts := [("db", "['a']"), ("none", "")];
    RoleTableHostItems();
    assert RolesOf(p) == Some([]);
    assert hosts[..1] == [("db", "['a']")] && hosts[..1][..0] == [];
    assert HostCommands(hosts[..1], g) == [Execute(g, HostsCommand("['a']", "db"))];
    assert HostCommands(hosts, g) == HostCommands(hosts[..1], g);
    assert HostsCommand("['a']", "db") == "echo \"['a'] db\" >> /etc/hosts";
  }

  /** PrepareMultihost.go(guest) as written: its first statement,
      super().go(guest), calls PreparePlugin.go, which takes no guest
      argument, so Python raises TypeError before any role is exported or
      any command is issued. */
  function EffectAsWritten(w: World, p: Plugin, g: Guest): (World, bool) {
    (w, false)
  }

  /** PrepareMultihost.go(guest) */
  method Go(p: Plugin, guest: Guest, plan: Plan) returns (ok: bool)
    modifies plan
    ensures (plan.State(), ok) == Effect(old(plan.State()), p, guest)
  {
    var roles := RolesOf(p);
    if roles.None? {
      return false;
    }
    ExportRoleVariables(roles.value, plan);
    var hosts := HostsOf(p);
    if hosts.None? {
      return false;
    }
    AddHostEntries(hosts.value, guest, plan);
    ok := true;
  }

  /** The role loop of go(): each role's variable is set to its joined guest names. */
  method ExportRoleVariables(roles: seq<(string, seq<string>)>, plan: Plan)
    modifies plan
    ensures plan.environment == ExportRoles(old(plan.environment), roles)
    ensures plan.log == old(plan.log)
  {
    var i := 0;
    while i < |roles|
      invariant 0 <= i <= |roles|
      invariant plan.environment == ExportRoles(old(plan.environment), roles[..i])
      invariant plan.log == old(plan.log)
    {
      var (role, correspondingGuests) := roles[i];
      plan.environment := plan.environment[role := Join(correspondingGuests)];
      assert roles[..i + 1][..i] == roles[..i];
      i := i + 1;
    }
    assert roles[..i] == roles;
  }

  /** The host loop of go(): one /etc/hosts command on guest per host with an address. */
  method AddHostEntries(hosts: seq<(string, string)>, guest: Guest, plan: Plan)
    modifies plan
    ensures plan.environment == old(plan.environment)
    ensures plan.log == old(plan.log) + HostCommands(hosts, guest)
  {
    var j := 0;
    while j < |hosts|
      invariant 0 <= j <= |hosts|
      invariant plan.environment == old(plan.environment)
      invariant plan.log == old(plan.log) + HostCommands(hosts[..j], guest)
    {
      var (hostName, hostAddress) := hosts[j];
      if hostAddress != "" {
        plan.log := plan.log + [Execute(guest, HostsCommand(hostAddress, hostName))];
      }
      assert hosts[..j + 1][..j] == hosts[..j];
      j := j + 1;
    }
    assert hosts[..j] == hosts;
  }
}
