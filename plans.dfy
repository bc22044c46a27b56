/** The pieces of a tmt plan that the prepare step works with: plugin data,
    guests, the plan environment and the log of operations issued on guests. */
module Plans {

  datatype Option<+T> = None | Some(value: T)

  /** Python truthiness of an optional string: present and not empty. */
  predicate Truthy(o: Option<string>) {
    o.Some? && o.value != ""
  }

  /** A value stored in a plugin's data record. The two tables are the
      dictionaries the multihost plugin reads: role -> guest names and
      guest name -> address, each as items in insertion order. */
  datatype Value =
    | Text(text: string)
    | Number(number: int)
    | Names(names: seq<string>)
    | RoleTable(roles: seq<(string, seq<string>)>)
    | HostTable(hosts: seq<(string, string)>)

  /** A prepare plugin: the data record it was created from. Which plugin
      class runs it is chosen by its 'how' key. */
  datatype Plugin = Plugin(data: map<string, Value>) {
    predicate IsMultihost() {
      "how" in data && data["how"] == Text("multihost")
    }
  }

  /** The step a guest object belongs to; it decides where the guest's
      operations look up step configuration and directories. */
  datatype Parent = ProvisionParent | PrepareParent

  /** A provisioned guest. 'address' is the 'guest' attribute (hostname or IP);
      None stands both for a missing attribute and for Python's None. */
  datatype Guest = Guest(name: string, role: Option<string>, address: Option<string>, parent: Parent)

  /** copy.copy(guest) followed by 'guest_copy.parent = self' in the prepare step. */
  function Copy(g: Guest): Guest {
    g.(parent := PrepareParent)
  }

  /** An operation issued on a guest: a workdir push, an artifact pull, a
      prepare plugin's go() invoked with the guest, or a remote command. */
  datatype Event =
    | Push(guest: Guest)
    | Pull(guest: Guest, path: string)
    | Run(plugin: Plugin, guest: Guest)
    | Execute(guest: Guest, command: string)

  /** The observable state of a plan: its environment and the guest operations so far. */
  datatype World = World(environment: map<string, string>, log: seq<Event>)

  /** The plan object: its environment is updated in place by plugins, and
      every operation issued on one of its guests is appended to log. */
  class Plan {
    var environment: map<string, string>
    var log: seq<Event>

    constructor (environment: map<string, string>)
      ensures this.environment == environment && log == []
    {
      this.environment := environment;
      log := [];
    }

    function State(): World
      reads this
    {
      World(environment, log)
    }
  }

  /** The guests pushed in log, in order. */
  function Pushed(log: seq<Event>): seq<Guest> {
    if log == [] then []
    else Pushed(log[..|log| - 1]) + (if log[|log| - 1].Push? then [log[|log| - 1].guest] else [])
  }

  /** The guests pulled in log, in order. */
  function Pulled(log: seq<Event>): seq<Guest> {
    if log == [] then []
    else Pulled(log[..|log| - 1]) + (if log[|log| - 1].Pull? then [log[|log| - 1].guest] else [])
  }

  /** The number of plugin go() invocations in log. */
  function Runs(log: seq<Event>): nat {
    if log == [] then 0
    else Runs(log[..|log| - 1]) + (if log[|log| - 1].Run? then 1 else 0)
  }

  /** Extracting pushes, pulls and plugin runs distributes over concatenation. */
  lemma {:induction false} ExtractAppend(a: seq<Event>, b: seq<Event>)
    ensures Pushed(a + b) == Pushed(a) + Pushed(b)
    ensures Pulled(a + b) == Pulled(a) + Pulled(b)
    ensures Runs(a + b) == Runs(a) + Runs(b)
  {
    if b != [] {
      var b' := b[..|b| - 1];
      assert (a + b)[..|a + b| - 1] == a + b';
      ExtractAppend(a, b');
    } else {
      assert a + b == a;
    }
  }

  /** Every event of t is a plugin run or a remote command on guest g. */
  ghost predicate PluginEventsOn(t: seq<Event>, g: Guest) {
    forall k :: 0 <= k < |t| ==> (t[k].Run? || t[k].Execute?) && t[k].guest == g
  }

  /** Plugin events contain no push and no pull. */
  lemma {:induction false} PluginEventsNoTransfer(t: seq<Event>, g: Guest)
    requires PluginEventsOn(t, g)
    ensures Pushed(t) == [] && Pulled(t) == []
  {
    if t != [] {
      PluginEventsNoTransfer(t[..|t| - 1], g);
    }
  }

  /** after is before followed by plugin events on g only. */
  ghost predicate PluginSuffix(before: seq<Event>, after: seq<Event>, g: Guest) {
    && |before| <= |after|
    && after[..|before|] == before
    && PluginEventsOn(after[|before|..], g)
  }

  /** Appending plugin events on g gives a plugin-event suffix. */
  lemma PluginSuffixAppend(a: seq<Event>, t: seq<Event>, g: Guest)
    requires PluginEventsOn(t, g)
    ensures PluginSuffix(a, a + t, g)
  {
    assert (a + t)[|a|..] == t;
  }

  /** Plugin-event suffixes compose. */
  lemma PluginSuffixTrans(a: seq<Event>, b: seq<Event>, c: seq<Event>, g: Guest)
    requires PluginSuffix(a, b, g) && PluginSuffix(b, c, g)
    ensures PluginSuffix(a, c, g)
  {
    assert c[..|a|] == c[..|b|][..|a|];
    forall k | |a| <= k < |c|
      ensures (c[k].Run? || c[k].Execute?) && c[k].guest == g
    {
      if k < |b| {
        assert c[k] == c[..|b|][k] == b[k] == b[|a|..][k - |a|];
      } else {
        assert c[k] == c[|b|..][k - |b|];
      }
    }
    assert forall k :: 0 <= k < |c| - |a| ==> c[|a|..][k] == c[|a| + k];
  }

  /** A plugin-event suffix adds no push and no pull, and its plugin calls
      are the difference in plugin calls. */
  lemma PluginSuffixCounts(a: seq<Event>, b: seq<Event>, g: Guest)
    requires PluginSuffix(a, b, g)
    ensures Pushed(b) == Pushed(a) && Pulled(b) == Pulled(a)
  {
    assert b == a + b[|a|..];
    ExtractAppend(a, b[|a|..]);
    PluginEventsNoTransfer(b[|a|..], g);
  }

  /** Every event of t is a remote command on guest g. */
  ghost predicate CommandsOn(t: seq<Event>, g: Guest) {
    forall k :: 0 <= k < |t| ==> t[k].Execute? && t[k].guest == g
  }

  /** Remote commands are plugin events and contain no plugin call. */
  lemma {:induction false} CommandsAreNotRuns(t: seq<Event>, g: Guest)
    requires CommandsOn(t, g)
    ensures PluginEventsOn(t, g) && Runs(t) == 0
  {
    if t != [] {
      CommandsAreNotRuns(t[..|t| - 1], g);
    }
  }
}
