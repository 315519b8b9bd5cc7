/** server/server.go, lines 712-783 and 991-1001, and capability/group.go, lines 73-108: the count of
    tools a user is shown and the menu a model loads from, both against what filteredTools admits. */
module RoutingMenu {
  import opened JsonTree
  import opened ToolBudget
  import opened Router
  import opened Routing

  // ----- capabilities -----

  // The last capability of a server, or of an id, is the one that counts.
  function ServerToCap(caps: seq<Capability>): map<string, string> {
    if caps == [] then map[]
    else ServerToCap(caps[..|caps| - 1])[caps[|caps| - 1].server := caps[|caps| - 1].id]
  }

  function StatesOf(caps: seq<Capability>): map<string, CapState> {
    if caps == [] then map[]
    else StatesOf(caps[..|caps| - 1])[caps[|caps| - 1].id := caps[|caps| - 1].state]
  }

  function Ids(caps: seq<Capability>): set<string> {
    if caps == [] then {} else Ids(caps[..|caps| - 1]) + {caps[|caps| - 1].id}
  }

  ghost predicate DistinctIds(caps: seq<Capability>) {
    caps == [] || (caps[|caps| - 1].id !in Ids(caps[..|caps| - 1]) && DistinctIds(caps[..|caps| - 1]))
  }

  function IdsIn(caps: seq<Capability>, state: CapState): set<string> {
    if caps == [] then {}
    else
      var front, c := IdsIn(caps[..|caps| - 1], state), caps[|caps| - 1];
      if c.state == state then front + {c.id} else front
  }

  lemma {:induction false} StatesByIds(caps: seq<Capability>)
    requires DistinctIds(caps)
    ensures StatesOf(caps).Keys == Ids(caps)
    ensures forall state, id :: id in IdsIn(caps, state) <==> id in Ids(caps) && StatesOf(caps)[id] == state
  {
    if caps != [] {
      StatesByIds(caps[..|caps| - 1]);
    }
  }

  function ToolServerMap(caps: seq<Capability>, toolMap: map<string, string>): map<string, string> {
    var serverToCap := ServerToCap(caps);
    map name | name in toolMap && toolMap[name] in serverToCap :: serverToCap[toolMap[name]]
  }

  /** The mapping runChatWithOptions builds from tools to capabilities. */
  method BuildToolServerMap(caps: seq<Capability>, toolMap: map<string, string>) returns (m: map<string, string>)
    ensures m == ToolServerMap(caps, toolMap)
  {
    var serverToCap := MapServers(caps);
    m := map[];
    var waiting := toolMap.Keys;
    while waiting != {}
      invariant waiting <= toolMap.Keys
      invariant forall name :: name in m <==> name in toolMap && name !in waiting && toolMap[name] in serverToCap
      invariant forall name :: name in m ==> m[name] == serverToCap[toolMap[name]]
    {
      var name :| name in waiting;
      waiting := waiting - {name};
      if toolMap[name] in serverToCap {
        m := m[name := serverToCap[toolMap[name]]];
      }
    }
  }

  method MapServers(caps: seq<Capability>) returns (m: map<string, string>)
    ensures m == ServerToCap(caps)
  {
    m := map[];
    for i := 0 to |caps|
      invariant m == ServerToCap(caps[..i])
    {
      assert caps[..i + 1][..i] == caps[..i];
      m := m[caps[i].server := caps[i].id];
    }
    assert caps[..|caps|] == caps;
  }

  // ----- computeToolBudget -----

  predicate Counted(caps: seq<Capability>, readWrite: bool, toolMap: map<string, string>, t: ToolDef) {
    var serverToCap, server := ServerToCap(caps), Lookup(toolMap, t.name);
    server in serverToCap &&
    var cap := serverToCap[server];
    cap !in IdsIn(caps, Off) && (readWrite || cap in IdsIn(caps, AskOnWrite) || t.readOnly)
  }

  function CountedFor(caps: seq<Capability>, readWrite: bool, toolMap: map<string, string>, t: ToolDef): string
    requires Counted(caps, readWrite, toolMap, t)
  {
    ServerToCap(caps)[Lookup(toolMap, t.name)]
  }

  function CountAll(caps: seq<Capability>, readWrite: bool, toolMap: map<string, string>, tools: seq<ToolDef>): nat {
    if tools == [] then 0
    else
      CountAll(caps, readWrite, toolMap, tools[..|tools| - 1]) +
      if Counted(caps, readWrite, toolMap, tools[|tools| - 1]) then 1 else 0
  }

  function CountOf(caps: seq<Capability>, readWrite: bool, toolMap: map<string, string>, tools: seq<ToolDef>,
                   cap: string): nat {
    if tools == [] then 0
    else
      var t := tools[|tools| - 1];
      CountOf(caps, readWrite, toolMap, tools[..|tools| - 1], cap) +
      if Counted(caps, readWrite, toolMap, t) && CountedFor(caps, readWrite, toolMap, t) == cap then 1 else 0
  }

  /** computeToolBudget: the total, and the count of each capability that has any. */
  method ComputeToolBudget(caps: seq<Capability>, readWrite: bool, tools: seq<ToolDef>, toolMap: map<string, string>)
      returns (total: nat, perCap: map<string, nat>)
    ensures total == CountAll(caps, readWrite, toolMap, tools)
    ensures forall c :: (if c in perCap then perCap[c] else 0) == CountOf(caps, readWrite, toolMap, tools, c)
  {
    var srvToCap := MapServers(caps);
    var off, askOnWrite := SplitStates(caps);
    total, perCap := 0, map[];
    for i := 0 to |tools|
      invariant total == CountAll(caps, readWrite, toolMap, tools[..i])
      invariant forall c :: (if c in perCap then perCap[c] else 0) == CountOf(caps, readWrite, toolMap, tools[..i], c)
    {
      var t := tools[i];
      assert tools[..i + 1][..i] == tools[..i];
      var server := Lookup(toolMap, t.name);
      if server !in srvToCap || srvToCap[server] in off {
        continue;
      }
      var cap := srvToCap[server];
      if !readWrite && cap !in askOnWrite && !t.readOnly {
        continue;
      }
      perCap := perCap[cap := (if cap in perCap then perCap[cap] else 0) + 1];
      total := total + 1;
    }
    assert tools[..|tools|] == tools;
  }

  method SplitStates(caps: seq<Capability>) returns (off: set<string>, askOnWrite: set<string>)
    ensures off == IdsIn(caps, Off) && askOnWrite == IdsIn(caps, AskOnWrite)
  {
    off, askOnWrite := {}, {};
    for i := 0 to |caps|
      invariant off == IdsIn(caps[..i], Off) && askOnWrite == IdsIn(caps[..i], AskOnWrite)
    {
      assert caps[..i + 1][..i] == caps[..i];
      match caps[i].state
      case Off => off := off + {caps[i].id};
      case AskOnWrite => askOnWrite := askOnWrite + {caps[i].id};
      case _ =>
    }
    assert caps[..|caps|] == caps;
  }

  // An agent wired to `caps` and the router as runChatWithOptions does it.
  ghost predicate WiredTo(cfg: Config, caps: seq<Capability>, toolMap: map<string, string>) {
    cfg.capStates == Some(StatesOf(caps)) && cfg.toolServerMap == Some(ToolServerMap(caps, toolMap))
  }

  // Every tool is of a server that belongs to a capability, and none has an internal tool's name.
  ghost predicate Owned(cfg: Config, caps: seq<Capability>, toolMap: map<string, string>, tools: seq<ToolDef>) {
    && ToolNames(tools) !! Reserved(cfg)
    && ToolNames(tools) <= ToolServerMap(caps, toolMap).Keys
  }

  lemma CountedIsCallable(cfg: Config, caps: seq<Capability>, toolMap: map<string, string>, t: ToolDef)
    requires DistinctIds(caps) && WiredTo(cfg, caps, toolMap)
    requires t.name !in Reserved(cfg) && t.name in ToolServerMap(caps, toolMap)
    ensures Callable(cfg, t) <==> Counted(caps, cfg.readWrite, toolMap, t)
    ensures Counted(caps, cfg.readWrite, toolMap, t) ==>
      CountedFor(caps, cfg.readWrite, toolMap, t) == Lookup(cfg.toolServerMap.value, t.name)
  {
    StatesByIds(caps);
  }

  /** Without routing, the total that computeToolBudget reports is the number of tools admitted. */
  lemma {:induction false} TotalIsAdmitted(
      cfg: Config, caps: seq<Capability>, toolMap: map<string, string>, loaded: Loaded, tools: seq<ToolDef>)
    requires DistinctIds(caps) && WiredTo(cfg, caps, toolMap) && Owned(cfg, caps, toolMap, tools) && !cfg.inBand
    ensures CountAll(caps, cfg.readWrite, toolMap, tools) == |AdmittedTools(cfg, loaded, tools)|
  {
    if tools != [] {
      TotalIsAdmitted(cfg, caps, toolMap, loaded, tools[..|tools| - 1]);
      CountedIsCallable(cfg, caps, toolMap, tools[|tools| - 1]);
    }
  }

  // The tool is counted for `cap`.
  predicate CountsFor(cfg: Config, caps: seq<Capability>, toolMap: map<string, string>, t: ToolDef, cap: string) {
    Counted(caps, cfg.readWrite, toolMap, t) && CountedFor(caps, cfg.readWrite, toolMap, t) == cap
  }

  // The tool is counted for an always-on capability.
  predicate CountsAlwaysOn(cfg: Config, caps: seq<Capability>, toolMap: map<string, string>, t: ToolDef) {
    Counted(caps, cfg.readWrite, toolMap, t) && CountedFor(caps, cfg.readWrite, toolMap, t) in cfg.alwaysOn
  }

  // No tool is counted for an always-on capability other than `cap`.
  predicate NoneBeside(cfg: Config, caps: seq<Capability>, toolMap: map<string, string>, tools: seq<ToolDef>,
                       cap: string)
  {
    forall t :: t in tools && CountsAlwaysOn(cfg, caps, toolMap, t) ==> CountsFor(cfg, caps, toolMap, t, cap)
  }

  lemma AdmittedByGroup(cfg: Config, caps: seq<Capability>, toolMap: map<string, string>, t: ToolDef, cap: string)
    requires DistinctIds(caps) && WiredTo(cfg, caps, toolMap) && cfg.inBand
    requires t.name !in Reserved(cfg) && t.name in ToolServerMap(caps, toolMap)
    ensures Admitted(cfg, Loaded({cap}, {}), t) <==>
      CountsFor(cfg, caps, toolMap, t, cap) || CountsAlwaysOn(cfg, caps, toolMap, t)
  {
    CountedIsCallable(cfg, caps, toolMap, t);
  }

  /** With routing, its count for a capability is at most the number of tools that loading its group admits, and
      it is that number exactly when no tool is counted for another capability that is always on. */
  lemma {:induction false} CountIsGroup(
      cfg: Config, caps: seq<Capability>, toolMap: map<string, string>, tools: seq<ToolDef>, cap: string)
    requires DistinctIds(caps) && WiredTo(cfg, caps, toolMap) && Owned(cfg, caps, toolMap, tools) && cfg.inBand
    ensures CountOf(caps, cfg.readWrite, toolMap, tools, cap) <= |AdmittedTools(cfg, Loaded({cap}, {}), tools)|
    ensures CountOf(caps, cfg.readWrite, toolMap, tools, cap) == |AdmittedTools(cfg, Loaded({cap}, {}), tools)| <==>
      NoneBeside(cfg, caps, toolMap, tools, cap)
  {
    if tools != [] {
      var front, t := tools[..|tools| - 1], tools[|tools| - 1];
      assert tools == front + [t];
      CountIsGroup(cfg, caps, toolMap, front, cap);
      AdmittedByGroup(cfg, caps, toolMap, t, cap);
    }
  }

  // What loading `other` admits beside the tools of an always-on capability.
  lemma {:induction false} AlwaysOnAdds(cfg: Config, caps: seq<Capability>, toolMap: map<string, string>,
                                        tools: seq<ToolDef>, cap: string, other: string)
    requires DistinctIds(caps) && WiredTo(cfg, caps, toolMap) && Owned(cfg, caps, toolMap, tools) && cfg.inBand
    requires cap in cfg.alwaysOn && other !in {cap}
    ensures CountOf(caps, cfg.readWrite, toolMap, tools, cap) + CountOf(caps, cfg.readWrite, toolMap, tools, other)
      <= |AdmittedTools(cfg, Loaded({other}, {}), tools)|
  {
    if tools != [] {
      AlwaysOnAdds(cfg, caps, toolMap, tools[..|tools| - 1], cap, other);
      AdmittedByGroup(cfg, caps, toolMap, tools[|tools| - 1], other);
    }
  }

  lemma {:induction false} CountedIn(cfg: Config, caps: seq<Capability>, toolMap: map<string, string>,
                                     tools: seq<ToolDef>, t: ToolDef, cap: string)
    requires t in tools && CountsFor(cfg, caps, toolMap, t, cap)
    ensures CountOf(caps, cfg.readWrite, toolMap, tools, cap) > 0
  {
    if t != tools[|tools| - 1] {
      assert tools == tools[..|tools| - 1] + [tools[|tools| - 1]];
      CountedIn(cfg, caps, toolMap, tools[..|tools| - 1], t, cap);
    }
  }

  // If all tools counted are of one capability, loading any group admits no more than its tools.
  lemma {:induction false} OnlyOneCounts(cfg: Config, caps: seq<Capability>, toolMap: map<string, string>,
                                         tools: seq<ToolDef>, cap: string, other: string)
    requires DistinctIds(caps) && WiredTo(cfg, caps, toolMap) && Owned(cfg, caps, toolMap, tools) && cfg.inBand
    requires forall t :: t in tools && Counted(caps, cfg.readWrite, toolMap, t) ==>
      CountsFor(cfg, caps, toolMap, t, cap)
    ensures |AdmittedTools(cfg, Loaded({other}, {}), tools)| <= CountOf(caps, cfg.readWrite, toolMap, tools, cap)
  {
    if tools != [] {
      var front, t := tools[..|tools| - 1], tools[|tools| - 1];
      assert tools == front + [t] && t in tools;
      OnlyOneCounts(cfg, caps, toolMap, front, cap, other);
      AdmittedByGroup(cfg, caps, toolMap, t, other);
    }
  }

  // No tool is counted for an always-on capability, or all tools counted are of that one.
  predicate NoneAlwaysOnBeside(cfg: Config, caps: seq<Capability>, toolMap: map<string, string>, tools: seq<ToolDef>) {
    forall t, u ::
      t in tools && u in tools && CountsAlwaysOn(cfg, caps, toolMap, t) && Counted(caps, cfg.readWrite, toolMap, u) ==>
        SameCapability(cfg, caps, toolMap, t, u)
  }

  predicate SameCapability(cfg: Config, caps: seq<Capability>, toolMap: map<string, string>, t: ToolDef, u: ToolDef)
    requires Counted(caps, cfg.readWrite, toolMap, t)
  {
    CountsFor(cfg, caps, toolMap, u, CountedFor(caps, cfg.readWrite, toolMap, t))
  }

  // `budget` is the largest count of a capability.
  ghost predicate LargestCount(cfg: Config, caps: seq<Capability>, toolMap: map<string, string>, tools: seq<ToolDef>,
                               budget: nat)
  {
    && (forall cap :: CountOf(caps, cfg.readWrite, toolMap, tools, cap) <= budget)
    && exists cap :: CountOf(caps, cfg.readWrite, toolMap, tools, cap) == budget
  }

  lemma LargestSuffices(cfg: Config, caps: seq<Capability>, toolMap: map<string, string>, tools: seq<ToolDef>,
                        budget: nat, cap: string)
    requires DistinctIds(caps) && WiredTo(cfg, caps, toolMap) && Owned(cfg, caps, toolMap, tools) && cfg.inBand
    requires LargestCount(cfg, caps, toolMap, tools, budget) && NoneAlwaysOnBeside(cfg, caps, toolMap, tools)
    ensures |AdmittedTools(cfg, Loaded({cap}, {}), tools)| <= budget
  {
    if t :| t in tools && CountsAlwaysOn(cfg, caps, toolMap, t) {
      var one := CountedFor(caps, cfg.readWrite, toolMap, t);
      forall u | u in tools && Counted(caps, cfg.readWrite, toolMap, u) ensures CountsFor(cfg, caps, toolMap, u, one) {
        assert SameCapability(cfg, caps, toolMap, t, u);
      }
      OnlyOneCounts(cfg, caps, toolMap, tools, one, cap);
      assert CountOf(caps, cfg.readWrite, toolMap, tools, one) <= budget;
    } else {
      CountIsGroup(cfg, caps, toolMap, tools, cap);
      assert CountOf(caps, cfg.readWrite, toolMap, tools, cap) <= budget;
    }
  }

  lemma LargestTooSmall(cfg: Config, caps: seq<Capability>, toolMap: map<string, string>, tools: seq<ToolDef>,
                        budget: nat) returns (cap: string)
    requires DistinctIds(caps) && WiredTo(cfg, caps, toolMap) && Owned(cfg, caps, toolMap, tools) && cfg.inBand
    requires LargestCount(cfg, caps, toolMap, tools, budget) && !NoneAlwaysOnBeside(cfg, caps, toolMap, tools)
    ensures |AdmittedTools(cfg, Loaded({cap}, {}), tools)| > budget
  {
    var t, u :| t in tools && u in tools && CountsAlwaysOn(cfg, caps, toolMap, t)
      && Counted(caps, cfg.readWrite, toolMap, u) && !SameCapability(cfg, caps, toolMap, t, u);
    var one := CountedFor(caps, cfg.readWrite, toolMap, t);
    cap :| CountOf(caps, cfg.readWrite, toolMap, tools, cap) == budget;
    if cap in {one} {
      cap := CountedFor(caps, cfg.readWrite, toolMap, u);
      CountedIn(cfg, caps, toolMap, tools, u, cap);
    } else {
      CountedIn(cfg, caps, toolMap, tools, t, one);
    }
    AlwaysOnAdds(cfg, caps, toolMap, tools, one, cap);
  }

  /** effectiveToolBudget, for any order in which the counts are looked at. */
  method EffectiveToolBudget(total: nat, perCap: map<string, nat>, routingOn: bool) returns (budget: nat)
    ensures !routingOn ==> budget == total
    ensures routingOn ==> forall c :: c in perCap ==> perCap[c] <= budget
    ensures routingOn && budget > 0 ==> exists c :: c in perCap && perCap[c] == budget
  {
    if !routingOn {
      return total;
    }
    budget := 0;
    var waiting := perCap.Keys;
    while waiting != {}
      invariant waiting <= perCap.Keys
      invariant forall c :: c in perCap && c !in waiting ==> perCap[c] <= budget
      invariant budget > 0 ==> exists c :: c in perCap && perCap[c] == budget
    {
      var c :| c in waiting;
      if perCap[c] > budget {
        budget := perCap[c];
      }
      waiting := waiting - {c};
    }
  }

  /** The budget a user sees. Without routing it is the number of tools of every request; with it the largest
      count of a capability, which bounds what loading a single group leads to exactly when no capability is
      always on beside another that has tools. */
  method ReportedBudget(cfg: Config, caps: seq<Capability>, toolMap: map<string, string>, tools: seq<ToolDef>)
      returns (budget: nat)
    requires DistinctIds(caps) && WiredTo(cfg, caps, toolMap) && Owned(cfg, caps, toolMap, tools)
    ensures !cfg.inBand ==> forall loaded :: budget == |AdmittedTools(cfg, loaded, tools)|
    ensures cfg.inBand ==> exists cap :: budget <= |AdmittedTools(cfg, Loaded({cap}, {}), tools)|
    ensures cfg.inBand ==>
      ((forall cap :: |AdmittedTools(cfg, Loaded({cap}, {}), tools)| <= budget) <==>
       NoneAlwaysOnBeside(cfg, caps, toolMap, tools))
  {
    var total, perCap := ComputeToolBudget(caps, cfg.readWrite, tools, toolMap);
    budget := EffectiveToolBudget(total, perCap, cfg.inBand);
    if cfg.inBand {
      IsLargest(cfg, caps, toolMap, tools, perCap, budget);
      ghost var most :| CountOf(caps, cfg.readWrite, toolMap, tools, most) == budget;
      CountIsGroup(cfg, caps, toolMap, tools, most);
      if NoneAlwaysOnBeside(cfg, caps, toolMap, tools) {
        forall cap ensures |AdmittedTools(cfg, Loaded({cap}, {}), tools)| <= budget {
          LargestSuffices(cfg, caps, toolMap, tools, budget, cap);
        }
      } else {
        ghost var cap := LargestTooSmall(cfg, caps, toolMap, tools, budget);
      }
    } else {
      forall loaded ensures total == |AdmittedTools(cfg, loaded, tools)| {
        TotalIsAdmitted(cfg, caps, toolMap, loaded, tools);
      }
    }
  }

  lemma IsLargest(cfg: Config, caps: seq<Capability>, toolMap: map<string, string>, tools: seq<ToolDef>,
                  perCap: map<string, nat>, budget: nat)
    requires forall c :: (if c in perCap then perCap[c] else 0) == CountOf(caps, cfg.readWrite, toolMap, tools, c)
    requires forall c :: c in perCap ==> perCap[c] <= budget
    requires budget > 0 ==> exists c :: c in perCap && perCap[c] == budget
    ensures LargestCount(cfg, caps, toolMap, tools, budget)
  {
    if budget > 0 {
      var c :| c in perCap && perCap[c] == budget;
      assert CountOf(caps, cfg.readWrite, toolMap, tools, c) == budget;
    } else {
      assert CountOf(caps, cfg.readWrite, toolMap, tools, "") == 0;
    }
  }

  // An instance: two capabilities with a tool each, the first of them always on.
  const TWO_CAPS := [Capability("a", "s", Allow), Capability("b", "t", Allow)]
  const TWO_TOOLS := [ToolDef("x", "", "{}", true), ToolDef("y", "", "{}", true)]
  const SERVED_BY := map["x" := "s", "y" := "t"]

  const ALWAYS_ON_CONFIG := Config(
    map[], Some(map["a" := Allow, "b" := Allow]), Some(map["x" := "a", "y" := "b"]), false, true, [], ["a"], 0)

  lemma ExampleWired()
    ensures ServerToCap(TWO_CAPS) == map["s" := "a", "t" := "b"] && IdsIn(TWO_CAPS, Off) == {}
    ensures DistinctIds(TWO_CAPS) && WiredTo(ALWAYS_ON_CONFIG, TWO_CAPS, SERVED_BY)
    ensures Owned(ALWAYS_ON_CONFIG, TWO_CAPS, SERVED_BY, TWO_TOOLS)
  {
    var first := [Capability("a", "s", Allow)];
    assert TWO_CAPS[..1] == first && first[..0] == [];
    assert ServerToCap(first) == map["s" := "a"] && StatesOf(first) == map["a" := Allow] && Ids(first) == {"a"};
    assert IdsIn(first, Off) == {} && DistinctIds(first);
    assert ToolServerMap(TWO_CAPS, SERVED_BY) == map["x" := "a", "y" := "b"];
    assert TWO_TOOLS[..1] == [TWO_TOOLS[0]] && [TWO_TOOLS[0]][..0] == [];
    assert ToolNames([TWO_TOOLS[0]]) == {"x"} && ToolNames(TWO_TOOLS) == {"x", "y"};
  }

  lemma ExampleCounts(cap: string)
    ensures CountOf(TWO_CAPS, false, SERVED_BY, TWO_TOOLS, cap) == if cap in {"a", "b"} then 1 else 0
  {
    ExampleWired();
    assert TWO_TOOLS[..1] == [TWO_TOOLS[0]] && [TWO_TOOLS[0]][..0] == [];
    assert CountOf(TWO_CAPS, false, SERVED_BY, [TWO_TOOLS[0]], cap) == if cap in {"a"} then 1 else 0;
  }

  /** No capability has more than one tool, and yet loading the second admits two. */
  lemma AlwaysOnExample()
    ensures LargestCount(ALWAYS_ON_CONFIG, TWO_CAPS, SERVED_BY, TWO_TOOLS, 1)
    ensures |AdmittedTools(ALWAYS_ON_CONFIG, Loaded({"b"}, {}), TWO_TOOLS)| == 2
  {
    ExampleWired();
    forall cap ensures CountOf(TWO_CAPS, false, SERVED_BY, TWO_TOOLS, cap) == if cap in {"a", "b"} then 1 else 0 {
      ExampleCounts(cap);
    }
    AlwaysOnAdds(ALWAYS_ON_CONFIG, TWO_CAPS, SERVED_BY, TWO_TOOLS, "a", "b");
    AdmittedWithin(ALWAYS_ON_CONFIG, Loaded({"b"}, {}), TWO_TOOLS);
    assert TWO_TOOLS[..1] == [TWO_TOOLS[0]] && [TWO_TOOLS[0]][..0] == [];
  }

  // ----- the menu of groups -----

  function EnabledIds(caps: seq<Capability>, states: map<string, CapState>, connected: set<string>): set<string> {
    if caps == [] then {}
    else
      var front, c := EnabledIds(caps[..|caps| - 1], states, connected), caps[|caps| - 1];
      if c.server in connected && !IsOff(states, c.id) then front + {c.id} else front
  }

  function AskIds(caps: seq<Capability>, states: map<string, CapState>): set<string> {
    if caps == [] then {}
    else
      var front, c := AskIds(caps[..|caps| - 1], states), caps[|caps| - 1];
      if c.id in states && states[c.id].AskOnWrite? then front + {c.id} else front
  }

  // The tools of a capability that may be called in this mode.
  predicate Listed(ask: set<string>, readWrite: bool, toolServerMap: map<string, string>, t: ToolDef, cap: string) {
    && t.name in toolServerMap && toolServerMap[t.name] == cap
    && (readWrite || cap in ask || t.readOnly)
  }

  function ListedNames(ask: set<string>, readWrite: bool, toolServerMap: map<string, string>, tools: seq<ToolDef>,
                       cap: string): seq<string> {
    if tools == [] then []
    else
      var front, t := ListedNames(ask, readWrite, toolServerMap, tools[..|tools| - 1], cap), tools[|tools| - 1];
      if Listed(ask, readWrite, toolServerMap, t, cap) then front + [t.name] else front
  }

  function InsertName(names: seq<string>, name: string): (r: seq<string>)
    ensures forall n :: n in r <==> n == name || n in names
  {
    if names != [] && Less(name, names[|names| - 1]) then
      assert names == names[..|names| - 1] + [names[|names| - 1]];
      InsertName(names[..|names| - 1], name) + [names[|names| - 1]]
    else names + [name]
  }

  function SortNames(names: seq<string>): (r: seq<string>)
    ensures forall n :: n in r <==> n in names
  {
    if names == [] then []
    else
      assert names == names[..|names| - 1] + [names[|names| - 1]];
      InsertName(SortNames(names[..|names| - 1]), names[|names| - 1])
  }

  function InsertGroup(groups: seq<Group>, g: Group): (r: seq<Group>)
    ensures forall x :: x in r <==> x == g || x in groups
  {
    if groups != [] && Less(g.id, groups[|groups| - 1].id) then
      assert groups == groups[..|groups| - 1] + [groups[|groups| - 1]];
      InsertGroup(groups[..|groups| - 1], g) + [groups[|groups| - 1]]
    else groups + [g]
  }

  function NamesFor(names: map<string, seq<string>>, cap: string): seq<string> {
    if cap in names then names[cap] else []
  }

  function GroupsOf(caps: seq<Capability>, enabled: set<string>, names: map<string, seq<string>>): seq<Group> {
    if caps == [] then []
    else
      var front, c := GroupsOf(caps[..|caps| - 1], enabled, names), caps[|caps| - 1];
      if c.id in enabled then InsertGroup(front, Group(c.id, SortNames(NamesFor(names, c.id)))) else front
  }

  /** The menu: each enabled capability with its tools that may be called in this mode. */
  function Menu(caps: seq<Capability>, enabled: set<string>, ask: set<string>, readWrite: bool,
                toolServerMap: map<string, string>, tools: seq<ToolDef>): seq<Group> {
    if caps == [] then []
    else
      var front, c := Menu(caps[..|caps| - 1], enabled, ask, readWrite, toolServerMap, tools), caps[|caps| - 1];
      if c.id in enabled
      then InsertGroup(front, Group(c.id, SortNames(ListedNames(ask, readWrite, toolServerMap, tools, c.id))))
      else front
  }

  lemma {:induction false} GroupsAreMenu(
      caps: seq<Capability>, enabled: set<string>, names: map<string, seq<string>>, ask: set<string>,
      readWrite: bool, toolServerMap: map<string, string>, tools: seq<ToolDef>)
    requires ListsAll(names, ask, readWrite, toolServerMap, tools)
    ensures GroupsOf(caps, enabled, names) == Menu(caps, enabled, ask, readWrite, toolServerMap, tools)
  {
    if caps != [] {
      GroupsAreMenu(caps[..|caps| - 1], enabled, names, ask, readWrite, toolServerMap, tools);
    }
  }

  // `names` holds, for every capability, its tools that may be called in this mode.
  ghost predicate ListsAll(names: map<string, seq<string>>, ask: set<string>, readWrite: bool,
                           toolServerMap: map<string, string>, tools: seq<ToolDef>) {
    forall c :: NamesFor(names, c) == ListedNames(ask, readWrite, toolServerMap, tools, c)
  }

  // No group is before one that precedes it in the list.
  ghost predicate ById(groups: seq<Group>) {
    groups == [] ||
    (ById(groups[..|groups| - 1]) &&
      forall g :: g in groups[..|groups| - 1] ==> !Less(groups[|groups| - 1].id, g.id))
  }

  lemma {:induction false} InsertGroupById(groups: seq<Group>, g: Group)
    requires ById(groups)
    ensures ById(InsertGroup(groups, g))
  {
    if groups == [] {
    } else {
      var front, last := groups[..|groups| - 1], groups[|groups| - 1];
      LessTotal(g.id, last.id);
      if Less(g.id, last.id) {
        InsertGroupById(front, g);
        var r := InsertGroup(front, g);
        assert (r + [last])[..|r|] == r;
      } else {
        assert (groups + [g])[..|groups|] == groups;
        forall x | x in groups ensures !Less(g.id, x.id) {
          assert groups == front + [last];
          NotLess(g.id, last.id, x.id);
        }
      }
    }
  }

  lemma NotLess(a: string, b: string, c: string)
    requires !Less(a, b) && (b == c || !Less(b, c))
    ensures !Less(a, c)
  {
    LessTotal(a, b);
    LessTotal(b, c);
    if Less(c, b) && Less(b, a) {
      LessTransitive(c, b, a);
    }
    LessTotal(a, c);
  }

  /** The menu is ordered by capability id, whatever order the capabilities are configured in. */
  lemma {:induction false} MenuById(caps: seq<Capability>, enabled: set<string>, names: map<string, seq<string>>)
    ensures ById(GroupsOf(caps, enabled, names))
  {
    if caps != [] {
      var front, c := caps[..|caps| - 1], caps[|caps| - 1];
      MenuById(front, enabled, names);
      InsertGroupById(GroupsOf(front, enabled, names), Group(c.id, SortNames(NamesFor(names, c.id))));
    }
  }

  /** BuildGroupsExpanding: sorting is by insertion here. */
  method BuildGroups(caps: seq<Capability>, enabled: set<string>, names: map<string, seq<string>>)
      returns (groups: seq<Group>)
    ensures groups == GroupsOf(caps, enabled, names)
  {
    groups := [];
    for i := 0 to |caps|
      invariant groups == GroupsOf(caps[..i], enabled, names)
    {
      assert caps[..i + 1][..i] == caps[..i];
      if caps[i].id !in enabled {
        continue;
      }
      groups := InsertGroup(groups, Group(caps[i].id, SortNames(NamesFor(names, caps[i].id))));
    }
    assert caps[..|caps|] == caps;
  }

  /** buildRoutingGroups. */
  method BuildRoutingGroups(caps: seq<Capability>, states: map<string, CapState>, readWrite: bool,
                            connected: set<string>, toolServerMap: map<string, string>, tools: seq<ToolDef>)
      returns (groups: seq<Group>)
    ensures groups ==
      Menu(caps, EnabledIds(caps, states, connected), AskIds(caps, states), readWrite, toolServerMap, tools)
  {
    var enabled, askOnWrite := {}, {};
    for i := 0 to |caps|
      invariant enabled == EnabledIds(caps[..i], states, connected)
      invariant askOnWrite == AskIds(caps[..i], states)
    {
      assert caps[..i + 1][..i] == caps[..i];
      if caps[i].server in connected && !IsOff(states, caps[i].id) {
        enabled := enabled + {caps[i].id};
      }
      if caps[i].id in states && states[caps[i].id].AskOnWrite? {
        askOnWrite := askOnWrite + {caps[i].id};
      }
    }
    assert caps[..|caps|] == caps;
    var toolsByCap: map<string, seq<string>> := map[];
    for i := 0 to |tools|
      invariant ListsAll(toolsByCap, askOnWrite, readWrite, toolServerMap, tools[..i])
    {
      var t := tools[i];
      assert tools[..i + 1][..i] == tools[..i];
      if t.name !in toolServerMap {
        continue;
      }
      var cap := toolServerMap[t.name];
      if !readWrite && cap !in askOnWrite && !t.readOnly {
        continue;
      }
      toolsByCap := toolsByCap[cap := NamesFor(toolsByCap, cap) + [t.name]];
    }
    assert tools[..|tools|] == tools;
    groups := BuildGroups(caps, enabled, toolsByCap);
    GroupsAreMenu(caps, enabled, toolsByCap, askOnWrite, readWrite, toolServerMap, tools);
  }

  // ----- what the menu holds -----

  lemma {:induction false} MenuHolds(
      caps: seq<Capability>, enabled: set<string>, ask: set<string>, readWrite: bool,
      toolServerMap: map<string, string>, tools: seq<ToolDef>, g: Group)
    ensures g in Menu(caps, enabled, ask, readWrite, toolServerMap, tools) <==>
      && g.id in enabled && g.id in Ids(caps)
      && g.toolNames == SortNames(ListedNames(ask, readWrite, toolServerMap, tools, g.id))
  {
    if caps != [] {
      MenuHolds(caps[..|caps| - 1], enabled, ask, readWrite, toolServerMap, tools, g);
    }
  }

  lemma {:induction false} ListedHolds(
      ask: set<string>, readWrite: bool, toolServerMap: map<string, string>, tools: seq<ToolDef>, cap: string,
      t: ToolDef)
    requires NamedApart(tools) && t in tools
    ensures t.name in ListedNames(ask, readWrite, toolServerMap, tools, cap) <==>
      Listed(ask, readWrite, toolServerMap, t, cap)
    decreases |tools|
  {
    var front, last := tools[..|tools| - 1], tools[|tools| - 1];
    assert tools == front + [last];
    if t == last {
      ListedAreNames(ask, readWrite, toolServerMap, front, cap, t.name);
    } else {
      ListedHolds(ask, readWrite, toolServerMap, front, cap, t);
      NameIn(front, t);
    }
  }

  lemma {:induction false} ListedAreNames(
      ask: set<string>, readWrite: bool, toolServerMap: map<string, string>, tools: seq<ToolDef>, cap: string,
      name: string)
    ensures name in ListedNames(ask, readWrite, toolServerMap, tools, cap) ==> name in ToolNames(tools)
  {
    if tools != [] {
      ListedAreNames(ask, readWrite, toolServerMap, tools[..|tools| - 1], cap, name);
    }
  }

  lemma {:induction false} NameIn(tools: seq<ToolDef>, t: ToolDef)
    requires t in tools
    ensures t.name in ToolNames(tools)
  {
    if t != tools[|tools| - 1] {
      assert tools == tools[..|tools| - 1] + [tools[|tools| - 1]];
      NameIn(tools[..|tools| - 1], t);
    }
  }

  lemma {:induction false} IdsAreAsked(caps: seq<Capability>, states: map<string, CapState>, cap: string)
    requires cap in Ids(caps)
    ensures cap in AskIds(caps, states) <==> cap in states && states[cap].AskOnWrite?
  {
    if cap in Ids(caps[..|caps| - 1]) {
      IdsAreAsked(caps[..|caps| - 1], states, cap);
    } else {
      AskAreIds(caps[..|caps| - 1], states);
    }
  }

  lemma {:induction false} AskAreIds(caps: seq<Capability>, states: map<string, CapState>)
    ensures AskIds(caps, states) <= Ids(caps)
  {
    if caps != [] {
      AskAreIds(caps[..|caps| - 1], states);
    }
  }

  // The capability of a connected server is in the menu unless it is off.
  lemma {:induction false} ServerIsEnabled(
      caps: seq<Capability>, states: map<string, CapState>, connected: set<string>, server: string)
    requires server in ServerToCap(caps) && server in connected
    ensures var cap := ServerToCap(caps)[server];
      cap in Ids(caps) && (cap in EnabledIds(caps, states, connected) <==> !IsOff(states, cap))
  {
    var front, c := caps[..|caps| - 1], caps[|caps| - 1];
    EnabledAreOn(front, states, connected);
    if c.server != server {
      ServerIsEnabled(front, states, connected, server);
    }
  }

  lemma {:induction false} EnabledAreOn(caps: seq<Capability>, states: map<string, CapState>, connected: set<string>)
    ensures forall id :: id in EnabledIds(caps, states, connected) ==> !IsOff(states, id)
  {
    if caps != [] {
      EnabledAreOn(caps[..|caps| - 1], states, connected);
    }
  }

  // An agent given the menu built for it, where every tool belongs to a capability.
  ghost predicate GivenMenu(cfg: Config, caps: seq<Capability>, toolMap: map<string, string>, connected: set<string>,
                            tools: seq<ToolDef>) {
    && cfg.inBand && cfg.capStates.Some? && cfg.toolServerMap == Some(ToolServerMap(caps, toolMap))
    && cfg.groups == Menu(caps, EnabledIds(caps, cfg.capStates.value, connected), AskIds(caps, cfg.capStates.value),
                          cfg.readWrite, cfg.toolServerMap.value, tools)
    && NamedApart(tools) && Owned(cfg, caps, toolMap, tools)
  }

  function NamesOffered(cfg: Config, caps: seq<Capability>, tools: seq<ToolDef>, cap: string): seq<string>
    requires cfg.capStates.Some? && cfg.toolServerMap.Some?
  {
    ListedNames(AskIds(caps, cfg.capStates.value), cfg.readWrite, cfg.toolServerMap.value, tools, cap)
  }

  lemma ListedIsCallable(cfg: Config, caps: seq<Capability>, toolMap: map<string, string>, connected: set<string>,
                         tools: seq<ToolDef>, t: ToolDef, cap: string)
    requires GivenMenu(cfg, caps, toolMap, connected, tools) && t in tools
    requires t.name in toolMap && toolMap[t.name] in connected
    ensures t.name in cfg.toolServerMap.value
    ensures t.name in SortNames(NamesOffered(cfg, caps, tools, cap))
      && cap in EnabledIds(caps, cfg.capStates.value, connected)
      <==> cap == cfg.toolServerMap.value[t.name] && Callable(cfg, t)
    ensures cfg.toolServerMap.value[t.name] in Ids(caps)
  {
    NameIn(tools, t);
    var states, home := cfg.capStates.value, cfg.toolServerMap.value[t.name];
    ServerIsEnabled(caps, states, connected, toolMap[t.name]);
    IdsAreAsked(caps, states, home);
    ListedHolds(AskIds(caps, states), cfg.readWrite, cfg.toolServerMap.value, tools, cap, t);
  }

  lemma MenuOffers(cfg: Config, caps: seq<Capability>, toolMap: map<string, string>, connected: set<string>,
                   tools: seq<ToolDef>, t: ToolDef, g: Group)
    requires GivenMenu(cfg, caps, toolMap, connected, tools) && t in tools
    requires t.name in toolMap && toolMap[t.name] in connected
    ensures g in cfg.groups && t.name in g.toolNames ==>
      g.id == Lookup(cfg.toolServerMap.value, t.name) && Callable(cfg, t)
    ensures Callable(cfg, t) ==>
      g == Group(Lookup(cfg.toolServerMap.value, t.name), SortNames(NamesOffered(cfg, caps, tools, g.id))) ==>
      g in cfg.groups && t.name in g.toolNames
  {
    ListedIsCallable(cfg, caps, toolMap, connected, tools, t, g.id);
    MenuHolds(caps, EnabledIds(caps, cfg.capStates.value, connected), AskIds(caps, cfg.capStates.value),
              cfg.readWrite, cfg.toolServerMap.value, tools, g);
  }

  predicate Picked(cfg: Config, loaded: Loaded, id: string, name: string) {
    id in cfg.alwaysOn || id in loaded.groups || name in loaded.tools
  }

  // `t` is in a group of the menu that is loaded or always on, or it is in the menu and loaded itself.
  ghost predicate Chosen(cfg: Config, loaded: Loaded, t: ToolDef) {
    exists g :: g in cfg.groups && t.name in g.toolNames && Picked(cfg, loaded, g.id, t.name)
  }

  /** With every tool of a connected server that belongs to a capability, and none under an internal
      tool's name, what is admitted is exactly what the menu offers and the model chose. */
  lemma MenuIsAdmitted(
      cfg: Config, caps: seq<Capability>, toolMap: map<string, string>, connected: set<string>,
      loaded: Loaded, tools: seq<ToolDef>, t: ToolDef)
    requires GivenMenu(cfg, caps, toolMap, connected, tools) && t in tools
    requires t.name in toolMap && toolMap[t.name] in connected
    ensures Admitted(cfg, loaded, t) <==> Chosen(cfg, loaded, t)
  {
    var cap := Lookup(cfg.toolServerMap.value, t.name);
    if Admitted(cfg, loaded, t) {
      var g := Group(cap, SortNames(NamesOffered(cfg, caps, tools, cap)));
      MenuOffers(cfg, caps, toolMap, connected, tools, t, g);
      assert Picked(cfg, loaded, g.id, t.name);
    }
    if Chosen(cfg, loaded, t) {
      var g :| g in cfg.groups && t.name in g.toolNames && Picked(cfg, loaded, g.id, t.name);
      MenuOffers(cfg, caps, toolMap, connected, tools, t, g);
    }
  }
}
