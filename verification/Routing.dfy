/** Which tools a request offers. agent/agent.go, lines 1635-1719 and 1849-1997, filters the router's
    tools; server/server.go, lines 712-783 and 991-1001, counts them and builds the menu of groups
    with capability/group.go, lines 73-108. */
module Routing {
  import opened JsonTree
  import opened ToolBudget
  import opened Router

  datatype CapState = Allow | Ask | AskOnWrite | Off

  datatype Capability = Capability(id: string, server: string, state: CapState)

  datatype InternalTool = InternalTool(def: ToolDef, readWriteOnly: bool)

  datatype Group = Group(id: string, toolNames: seq<string>)

  const MAX_TOOLS_PER_REQUEST := 128
  const MAX_TOOL_BYTES_PER_REQUEST := 393216

  // What an agent is built with. `capStates` and `toolServerMap` may be left unset.
  datatype Config = Config(
    internalTools: map<string, InternalTool>,
    capStates: Option<map<string, CapState>>,
    toolServerMap: Option<map<string, string>>,
    readWrite: bool,
    inBand: bool,
    groups: seq<Group>,
    alwaysOn: seq<string>,
    maxRoutedTools: int)

  datatype Loaded = Loaded(groups: set<string>, tools: set<string>)

  function Lookup(m: map<string, string>, key: string): string {
    if key in m then m[key] else ""
  }

  predicate IsOff(states: map<string, CapState>, cap: string) {
    cap in states && states[cap].Off?
  }

  // Write tools are offered in read-write mode, or where every write asks for approval.
  predicate ModeAllows(readWrite: bool, states: map<string, CapState>, cap: string, t: ToolDef) {
    readWrite || (cap in states && states[cap].AskOnWrite?) || t.readOnly
  }

  // ----- filteredTools -----

  function Reserved(cfg: Config): set<string> {
    cfg.internalTools.Keys + set k | k in cfg.internalTools :: cfg.internalTools[k].def.name
  }

  predicate Callable(cfg: Config, t: ToolDef) {
    && t.name !in Reserved(cfg)
    && (cfg.capStates.Some? && cfg.toolServerMap.Some? ==>
      var cap := Lookup(cfg.toolServerMap.value, t.name);
      !IsOff(cfg.capStates.value, cap) && ModeAllows(cfg.readWrite, cfg.capStates.value, cap, t))
  }

  predicate Routes(cfg: Config) {
    cfg.inBand && cfg.toolServerMap.Some?
  }

  predicate Active(cfg: Config, loaded: Loaded, t: ToolDef) {
    Routes(cfg) ==>
      var cap := Lookup(cfg.toolServerMap.value, t.name);
      cap in cfg.alwaysOn || cap in loaded.groups || t.name in loaded.tools
  }

  predicate Admitted(cfg: Config, loaded: Loaded, t: ToolDef) {
    Callable(cfg, t) && Active(cfg, loaded, t)
  }

  function AdmittedTools(cfg: Config, loaded: Loaded, tools: seq<ToolDef>): seq<ToolDef> {
    if tools == [] then []
    else
      var front, t := AdmittedTools(cfg, loaded, tools[..|tools| - 1]), tools[|tools| - 1];
      if Admitted(cfg, loaded, t) then front + [t] else front
  }

  function RequestLimits(cfg: Config, internal: seq<ToolDef>): Limits {
    var budget := MAX_TOOLS_PER_REQUEST - |internal|;
    Limits(if Routes(cfg) && 0 < cfg.maxRoutedTools < budget then cfg.maxRoutedTools else budget,
           MAX_TOOL_BYTES_PER_REQUEST - Total(internal).bytes)
  }

  function OwnershipOf(cfg: Config, servers: map<string, string>): Ownership {
    Ownership(servers, if cfg.toolServerMap.Some? then cfg.toolServerMap.value else map[])
  }

  // The tools of MCP servers that a request carries, next to the internal ones.
  function KeptTools(cfg: Config, loaded: Loaded, tools: seq<ToolDef>, servers: map<string, string>,
                     internal: seq<ToolDef>): seq<ToolDef> {
    var own := OwnershipOf(cfg, servers);
    var admitted := AdmittedTools(cfg, loaded, tools);
    Without(admitted, own, Excluded(admitted, own, RequestLimits(cfg, internal)))
  }

  predicate Enabled(cfg: Config, key: string) {
    key in cfg.internalTools && (cfg.internalTools[key].readWriteOnly ==> cfg.readWrite)
  }

  // `internal` holds the definition of each enabled internal tool once, in the order of `keys`.
  ghost predicate Lists(cfg: Config, internal: seq<ToolDef>, keys: seq<string>) {
    && |keys| == |internal|
    && (forall i :: 0 <= i < |keys| ==> Enabled(cfg, keys[i]) && internal[i] == cfg.internalTools[keys[i]].def)
    && (forall i, j :: 0 <= i < j < |keys| ==> keys[i] != keys[j])
    && (forall k :: Enabled(cfg, k) ==> k in keys)
  }

  predicate TooMany(internal: seq<ToolDef>) {
    |internal| > MAX_TOOLS_PER_REQUEST || Total(internal).bytes > MAX_TOOL_BYTES_PER_REQUEST
  }

  ghost predicate ListsInternal(cfg: Config, internal: seq<ToolDef>) {
    exists keys :: Lists(cfg, internal, keys)
  }

  // The list for a request, given a listing of the internal tools.
  function ListFor(cfg: Config, loaded: Loaded, tools: seq<ToolDef>, servers: map<string, string>,
                   internal: seq<ToolDef>): Option<seq<ToolDef>> {
    if TooMany(internal) then None else Some(KeptTools(cfg, loaded, tools, servers, internal) + internal)
  }

  // `list` is what a request may carry; the order of the internal tools is up to the map they are in.
  ghost predicate Sends(cfg: Config, loaded: Loaded, tools: seq<ToolDef>, servers: map<string, string>,
                        list: Option<seq<ToolDef>>) {
    exists internal :: ListsInternal(cfg, internal) && list == ListFor(cfg, loaded, tools, servers, internal)
  }

  lemma {:induction false} TotalAppend(a: seq<ToolDef>, b: seq<ToolDef>)
    ensures Total(a + b).bytes == Total(a).bytes + Total(b).bytes
  {
    if b == [] {
      assert a + b == a;
    } else {
      assert (a + b)[..|a + b| - 1] == a + b[..|b| - 1];
      TotalAppend(a, b[..|b| - 1]);
    }
  }

  lemma ListFits(cfg: Config, loaded: Loaded, tools: seq<ToolDef>, servers: map<string, string>, internal: seq<ToolDef>)
    requires !TooMany(internal)
    ensures var sent := KeptTools(cfg, loaded, tools, servers, internal) + internal;
      |sent| <= MAX_TOOLS_PER_REQUEST && Total(sent).bytes <= MAX_TOOL_BYTES_PER_REQUEST
  {
    var own := OwnershipOf(cfg, servers);
    ExcludedFits(AdmittedTools(cfg, loaded, tools), own, RequestLimits(cfg, internal));
    TotalAppend(KeptTools(cfg, loaded, tools, servers, internal), internal);
  }

  /** Every list sent to a provider meets both limits. */
  lemma RequestFits(cfg: Config, loaded: Loaded, tools: seq<ToolDef>, servers: map<string, string>,
                    list: Option<seq<ToolDef>>)
    requires Sends(cfg, loaded, tools, servers, list) && list.Some?
    ensures |list.value| <= MAX_TOOLS_PER_REQUEST && Total(list.value).bytes <= MAX_TOOL_BYTES_PER_REQUEST
  {
    var internal :| ListsInternal(cfg, internal) && list == ListFor(cfg, loaded, tools, servers, internal);
    ListFits(cfg, loaded, tools, servers, internal);
  }

  /** When everything fits, everything is sent: the cap on routed tools counts only with routing, and only when it
      is positive. */
  lemma NothingDropped(cfg: Config, loaded: Loaded, tools: seq<ToolDef>, servers: map<string, string>,
                       internal: seq<ToolDef>)
    requires |AdmittedTools(cfg, loaded, tools)| + |internal| <= 128
    requires Total(AdmittedTools(cfg, loaded, tools)).bytes + Total(internal).bytes <= 393216
    requires cfg.inBand && cfg.toolServerMap.Some? && cfg.maxRoutedTools > 0 ==>
      |AdmittedTools(cfg, loaded, tools)| <= cfg.maxRoutedTools
    ensures ListFor(cfg, loaded, tools, servers, internal) == Some(AdmittedTools(cfg, loaded, tools) + internal)
  {
    var own, limits := OwnershipOf(cfg, servers), RequestLimits(cfg, internal);
    var admitted := AdmittedTools(cfg, loaded, tools);
    assert Fits(Total(admitted), limits);
    NoneIsEnough(admitted, own, limits);
    assert Excluded(admitted, own, limits) == {};
    WithoutNone(admitted, own, {});
  }

  /** With routing a positive cap bounds the tools of MCP servers. */
  lemma CapHolds(cfg: Config, loaded: Loaded, tools: seq<ToolDef>, servers: map<string, string>,
                 internal: seq<ToolDef>)
    requires !TooMany(internal) && cfg.inBand && cfg.toolServerMap.Some? && cfg.maxRoutedTools > 0
    ensures |KeptTools(cfg, loaded, tools, servers, internal)| <= cfg.maxRoutedTools
  {
    ExcludedFits(AdmittedTools(cfg, loaded, tools), OwnershipOf(cfg, servers), RequestLimits(cfg, internal));
  }

  // The capability a tool is mapped to, or the empty name.
  function MappedTo(cfg: Config, name: string): string {
    if cfg.toolServerMap.Some? && name in cfg.toolServerMap.value then cfg.toolServerMap.value[name] else ""
  }

  /** A tool is admitted when no internal tool has its name; its capability is not off and, unless writes are
      allowed or asked for one by one, it is read-only; and, with routing, its capability is always on or loaded or
      it is loaded itself. */
  lemma AdmittedMeaning(cfg: Config, loaded: Loaded, t: ToolDef)
    ensures var cap, states := MappedTo(cfg, t.name), cfg.capStates;
      Admitted(cfg, loaded, t) <==>
        && t.name !in cfg.internalTools
        && (forall key :: key in cfg.internalTools ==> cfg.internalTools[key].def.name != t.name)
        && (states.Some? && cfg.toolServerMap.Some? && cap in states.value ==> states.value[cap] != Off)
        && (states.Some? && cfg.toolServerMap.Some? ==>
          cfg.readWrite || t.readOnly || (cap in states.value && states.value[cap] == AskOnWrite))
        && (cfg.inBand && cfg.toolServerMap.Some? ==>
          cap in cfg.alwaysOn || cap in loaded.groups || t.name in loaded.tools)
  {
  }

  // ----- names and order -----

  // `a` is `b` with some elements left out.
  ghost predicate Within(a: seq<ToolDef>, b: seq<ToolDef>) {
    a == [] ||
    (b != [] &&
      ((a[|a| - 1] == b[|b| - 1] && Within(a[..|a| - 1], b[..|b| - 1])) || Within(a, b[..|b| - 1])))
  }

  lemma {:induction false} WithinNames(a: seq<ToolDef>, b: seq<ToolDef>)
    requires Within(a, b)
    ensures ToolNames(a) <= ToolNames(b)
    ensures NamedApart(b) ==> NamedApart(a)
  {
    if a != [] {
      if a[|a| - 1] == b[|b| - 1] && Within(a[..|a| - 1], b[..|b| - 1]) {
        WithinNames(a[..|a| - 1], b[..|b| - 1]);
      } else {
        WithinNames(a, b[..|b| - 1]);
      }
    }
  }

  lemma WithinSnoc(a: seq<ToolDef>, b: seq<ToolDef>, t: ToolDef)
    requires Within(a, b)
    ensures Within(a, b + [t]) && Within(a + [t], b + [t])
  {
    assert (b + [t])[..|b|] == b && (a + [t])[..|a|] == a;
  }

  lemma {:induction false} WithoutWithin(tools: seq<ToolDef>, own: Ownership, excluded: set<string>)
    ensures Within(Without(tools, own, excluded), tools)
  {
    if tools != [] {
      var front, t := tools[..|tools| - 1], tools[|tools| - 1];
      assert tools == front + [t];
      WithoutWithin(front, own, excluded);
      WithinSnoc(Without(front, own, excluded), front, t);
    }
  }

  lemma {:induction false} AdmittedWithin(cfg: Config, loaded: Loaded, tools: seq<ToolDef>)
    ensures Within(AdmittedTools(cfg, loaded, tools), tools)
    ensures ToolNames(AdmittedTools(cfg, loaded, tools)) !! Reserved(cfg)
  {
    if tools != [] {
      var front, t := tools[..|tools| - 1], tools[|tools| - 1];
      assert tools == front + [t];
      AdmittedWithin(cfg, loaded, front);
      WithinSnoc(AdmittedTools(cfg, loaded, front), front, t);
      NamesSnoc(AdmittedTools(cfg, loaded, front), t);
    }
  }

  lemma {:induction false} WithinTrans(a: seq<ToolDef>, b: seq<ToolDef>, c: seq<ToolDef>)
    requires Within(a, b) && Within(b, c)
    ensures Within(a, c)
    decreases |b| + |c|
  {
    if a != [] {
      var b', c' := b[..|b| - 1], c[..|c| - 1];
      if b[|b| - 1] == c[|c| - 1] && Within(b', c') {
        if a[|a| - 1] == b[|b| - 1] && Within(a[..|a| - 1], b') {
          WithinTrans(a[..|a| - 1], b', c');
        } else {
          WithinTrans(a, b', c');
        }
      } else {
        WithinTrans(a, b, c');
      }
    }
  }

  /** The tools of MCP servers keep the router's order. */
  lemma RequestOrder(cfg: Config, loaded: Loaded, tools: seq<ToolDef>, servers: map<string, string>,
                     internal: seq<ToolDef>)
    ensures Within(KeptTools(cfg, loaded, tools, servers, internal), tools)
  {
    var own := OwnershipOf(cfg, servers);
    var admitted := AdmittedTools(cfg, loaded, tools);
    AdmittedWithin(cfg, loaded, tools);
    WithoutWithin(admitted, own, Excluded(admitted, own, RequestLimits(cfg, internal)));
    WithinTrans(KeptTools(cfg, loaded, tools, servers, internal), admitted, tools);
  }

  lemma {:induction false} ApartAppend(a: seq<ToolDef>, b: seq<ToolDef>)
    requires NamedApart(a) && ToolNames(a) !! ToolNames(b)
    ensures NamedApart(a + b) <==> NamedApart(b)
    ensures ToolNames(a + b) == ToolNames(a) + ToolNames(b)
  {
    if b == [] {
      assert a + b == a;
    } else {
      assert (a + b)[..|a + b| - 1] == a + b[..|b| - 1];
      ApartAppend(a, b[..|b| - 1]);
    }
  }

  ghost predicate IsInternal(cfg: Config, t: ToolDef) {
    exists k :: k in cfg.internalTools && t == cfg.internalTools[k].def
  }

  lemma {:induction false} InternalNames(cfg: Config, internal: seq<ToolDef>)
    requires forall i :: 0 <= i < |internal| ==> IsInternal(cfg, internal[i])
    ensures ToolNames(internal) <= Reserved(cfg)
  {
    if internal != [] {
      InternalNames(cfg, internal[..|internal| - 1]);
      assert IsInternal(cfg, internal[|internal| - 1]);
      var k :| k in cfg.internalTools && internal[|internal| - 1] == cfg.internalTools[k].def;
    }
  }

  /** The names in a request are pairwise distinct exactly when those of the internal tools are, given
      that the router's are. */
  lemma RequestNames(cfg: Config, loaded: Loaded, tools: seq<ToolDef>, servers: map<string, string>,
                     internal: seq<ToolDef>, keys: seq<string>)
    requires NamedApart(tools) && Lists(cfg, internal, keys)
    ensures NamedApart(KeptTools(cfg, loaded, tools, servers, internal) + internal) <==> NamedApart(internal)
  {
    var own := OwnershipOf(cfg, servers);
    var admitted := AdmittedTools(cfg, loaded, tools);
    var kept := KeptTools(cfg, loaded, tools, servers, internal);
    AdmittedWithin(cfg, loaded, tools);
    WithinNames(admitted, tools);
    WithoutWithin(admitted, own, Excluded(admitted, own, RequestLimits(cfg, internal)));
    WithinNames(kept, admitted);
    forall i | 0 <= i < |internal| ensures IsInternal(cfg, internal[i]) {
      assert Enabled(cfg, keys[i]);
    }
    InternalNames(cfg, internal);
    ApartAppend(kept, internal);
  }

  /** Two internal tools whose definitions share a name: a request carries the name twice. */
  lemma SharedNameExample(def: ToolDef, loaded: Loaded, cfg: Config)
    requires cfg.internalTools == map["k1" := InternalTool(def, false), "k2" := InternalTool(def, false)]
    requires Total([def]).bytes <= MAX_TOOL_BYTES_PER_REQUEST / 2
    ensures Sends(cfg, loaded, [], map[], Some([def, def])) && !NamedApart([def, def])
  {
    var internal, keys := [def, def], ["k1", "k2"];
    assert Lists(cfg, internal, keys);
    assert internal[..1] == [def] && [def][..0] == [];
    var kept := KeptTools(cfg, loaded, [], map[], internal);
    assert kept == [] && kept + internal == internal;
    assert ListFor(cfg, loaded, [], map[], internal) == Some(internal);
  }

  // ----- loading more -----

  /** Loading only adds: what was admitted stays admitted, in its place. */
  lemma {:induction false} LoadingAdds(cfg: Config, before: Loaded, after: Loaded, tools: seq<ToolDef>)
    requires before.groups <= after.groups && before.tools <= after.tools
    ensures Within(AdmittedTools(cfg, before, tools), AdmittedTools(cfg, after, tools))
  {
    if tools != [] {
      var front, t := tools[..|tools| - 1], tools[|tools| - 1];
      LoadingAdds(cfg, before, after, front);
      WithinSnoc(AdmittedTools(cfg, before, front), AdmittedTools(cfg, after, front), t);
    }
  }

  /** A tool counts for the server that reports it, else for the capability it is mapped to. */
  lemma ToolOwner(cfg: Config, servers: map<string, string>, name: string)
    ensures OwnershipOf(cfg, servers).Of(name) == if name in servers then servers[name] else MappedTo(cfg, name)
    ensures cfg.toolServerMap == None || name !in cfg.toolServerMap.value ==> MappedTo(cfg, name) == ""
    ensures cfg.toolServerMap.Some? && name in cfg.toolServerMap.value ==>
      MappedTo(cfg, name) == cfg.toolServerMap.value[name]
  {
    OwnerMeaning(OwnershipOf(cfg, servers), name);
  }

  /** Of one server's admitted tools, a request carries all or none; so it does of one capability's that no server
      reports. */
  lemma WholeServers(cfg: Config, loaded: Loaded, tools: seq<ToolDef>, servers: map<string, string>,
                     internal: seq<ToolDef>, t: ToolDef, u: ToolDef)
    requires t in AdmittedTools(cfg, loaded, tools) && u in AdmittedTools(cfg, loaded, tools)
    requires if t.name in servers then u.name in servers && servers[t.name] == servers[u.name]
             else u.name !in servers && MappedTo(cfg, t.name) == MappedTo(cfg, u.name)
    ensures t in KeptTools(cfg, loaded, tools, servers, internal) <==>
      u in KeptTools(cfg, loaded, tools, servers, internal)
  {
    var own := OwnershipOf(cfg, servers);
    var admitted := AdmittedTools(cfg, loaded, tools);
    AllOrNothing(admitted, own, Excluded(admitted, own, RequestLimits(cfg, internal)), t);
    AllOrNothing(admitted, own, Excluded(admitted, own, RequestLimits(cfg, internal)), u);
  }

  // ----- the agent -----

  datatype LoadOutcome = Rejected | Handled(unknownGroups: seq<string>, unknownTools: seq<string>)

  predicate KnownGroup(cfg: Config, id: string) {
    exists g :: g in cfg.groups && g.id == id
  }

  predicate KnownTool(cfg: Config, name: string) {
    exists g :: g in cfg.groups && name in g.toolNames
  }

  /** What can be loaded: the groups of the menu by their ids, and the tools they list by their names. */
  lemma LoadableMeaning(cfg: Config, name: string)
    ensures KnownGroup(cfg, name) <==> exists i :: 0 <= i < |cfg.groups| && cfg.groups[i].id == name
    ensures KnownTool(cfg, name) <==> exists i :: 0 <= i < |cfg.groups| && name in cfg.groups[i].toolNames
  {
  }

  /** The internal tools of a request are those that do not need write access, and with write access all. */
  lemma InternalMeaning(cfg: Config, internal: seq<ToolDef>, t: ToolDef)
    requires ListsInternal(cfg, internal)
    ensures t in internal <==>
      exists key :: key in cfg.internalTools && cfg.internalTools[key].def == t
                    && (cfg.readWrite || !cfg.internalTools[key].readWriteOnly)
  {
    var keys :| Lists(cfg, internal, keys);
    if key :| key in cfg.internalTools && cfg.internalTools[key].def == t
              && (cfg.readWrite || !cfg.internalTools[key].readWriteOnly) {
      assert Enabled(cfg, key);
      var i :| 0 <= i < |keys| && keys[i] == key;
      assert internal[i] == t;
    }
  }

  class RoutedAgent {
    const cfg: Config
    var loadedGroups: set<string>
    var loadedTools: set<string>

    constructor (cfg: Config)
      ensures this.cfg == cfg && loadedGroups == {} && loadedTools == {}
    {
      this.cfg, loadedGroups, loadedTools := cfg, {}, {};
    }

    function CurrentlyLoaded(): Loaded
      reads this
    {
      Loaded(loadedGroups, loadedTools)
    }

    /** appendInternalTools, in whatever order the map yields the tools. */
    method InternalDefs() returns (internal: seq<ToolDef>)
      ensures ListsInternal(cfg, internal)
    {
      internal := [];
      ghost var keys: seq<string> := [];
      var waiting := cfg.internalTools.Keys;
      while waiting != {}
        invariant waiting <= cfg.internalTools.Keys
        invariant |keys| == |internal|
        invariant forall i :: 0 <= i < |keys| ==>
          Enabled(cfg, keys[i]) && keys[i] !in waiting && internal[i] == cfg.internalTools[keys[i]].def
        invariant forall i, j :: 0 <= i < j < |keys| ==> keys[i] != keys[j]
        invariant forall k :: Enabled(cfg, k) && k !in waiting ==> k in keys
      {
        var key :| key in waiting;
        waiting := waiting - {key};
        var it := cfg.internalTools[key];
        if it.readWriteOnly && !cfg.readWrite {
          continue;
        }
        internal := internal + [it.def];
        keys := keys + [key];
      }
      assert Lists(cfg, internal, keys);
    }

    method AdmitTools(tools: seq<ToolDef>) returns (admitted: seq<ToolDef>)
      ensures admitted == AdmittedTools(cfg, CurrentlyLoaded(), tools)
    {
      admitted := [];
      var reserved := Reserved(cfg);
      for i := 0 to |tools|
        invariant admitted == AdmittedTools(cfg, CurrentlyLoaded(), tools[..i])
      {
        var t := tools[i];
        assert tools[..i + 1][..i] == tools[..i];
        if t.name in reserved {
          continue;
        }
        if cfg.toolServerMap.Some? {
          var cap := Lookup(cfg.toolServerMap.value, t.name);
          if cfg.capStates.Some? {
            if IsOff(cfg.capStates.value, cap) || !ModeAllows(cfg.readWrite, cfg.capStates.value, cap, t) {
              continue;
            }
          }
          if cfg.inBand && cap !in cfg.alwaysOn && cap !in loadedGroups && t.name !in loadedTools {
            continue;
          }
        }
        admitted := admitted + [t];
      }
      assert tools[..|tools|] == tools;
    }

    /** filteredTools: no list when the internal tools alone are too many. */
    method FilteredTools(tools: seq<ToolDef>, servers: map<string, string>)
        returns (list: Option<seq<ToolDef>>)
      ensures Sends(cfg, CurrentlyLoaded(), tools, servers, list)
    {
      var defs := InternalDefs();
      var used := TotalUsage(defs);
      if used.count > MAX_TOOLS_PER_REQUEST || used.bytes > MAX_TOOL_BYTES_PER_REQUEST {
        return None;
      }
      var admitted := AdmitTools(tools);
      var budget := MAX_TOOLS_PER_REQUEST - |defs|;
      if cfg.inBand && cfg.toolServerMap.Some? && 0 < cfg.maxRoutedTools < budget {
        budget := cfg.maxRoutedTools;
      }
      var own := OwnershipOf(cfg, servers);
      var limits := Limits(budget, MAX_TOOL_BYTES_PER_REQUEST - used.bytes);
      assert limits == RequestLimits(cfg, defs);
      var kept, excluded := FitToolBudget(admitted, own, limits);
      assert kept == KeptTools(cfg, CurrentlyLoaded(), tools, servers, defs);
      list := Some(kept + defs);
      assert list == ListFor(cfg, CurrentlyLoaded(), tools, servers, defs);
    }

    /** handleLoadTools; `request` is absent when its input is not valid. */
    method HandleLoadTools(request: Option<(seq<string>, seq<string>)>) returns (outcome: LoadOutcome)
      modifies this`loadedGroups, this`loadedTools
      ensures outcome.Rejected? <==> request.None? || (request.value.0 == [] && request.value.1 == [])
      ensures outcome.Rejected? ==> CurrentlyLoaded() == old(CurrentlyLoaded())
      ensures outcome.Handled? ==>
        && loadedGroups == old(loadedGroups) + set g | g in request.value.0 && KnownGroup(cfg, g)
        && loadedTools == old(loadedTools) + set t | t in request.value.1 && KnownTool(cfg, t)
        && (forall g :: g in outcome.unknownGroups <==> g in request.value.0 && !KnownGroup(cfg, g))
        && (forall t :: t in outcome.unknownTools <==> t in request.value.1 && !KnownTool(cfg, t))
    {
      if request.None? || (|request.value.0| == 0 && |request.value.1| == 0) {
        return Rejected;
      }
      var (groups, names) := request.value;
      var unknownGroups, unknownTools := [], [];
      for i := 0 to |groups|
        invariant loadedGroups == old(loadedGroups) + set g | g in groups[..i] && KnownGroup(cfg, g)
        invariant loadedTools == old(loadedTools)
        invariant forall g :: g in unknownGroups <==> g in groups[..i] && !KnownGroup(cfg, g)
      {
        assert groups[..i + 1] == groups[..i] + [groups[i]];
        if KnownGroup(cfg, groups[i]) {
          loadedGroups := loadedGroups + {groups[i]};
        } else {
          unknownGroups := unknownGroups + [groups[i]];
        }
      }
      assert groups[..|groups|] == groups;
      for i := 0 to |names|
        invariant loadedGroups == old(loadedGroups) + set g | g in groups && KnownGroup(cfg, g)
        invariant loadedTools == old(loadedTools) + set t | t in names[..i] && KnownTool(cfg, t)
        invariant forall t :: t in unknownTools <==> t in names[..i] && !KnownTool(cfg, t)
      {
        assert names[..i + 1] == names[..i] + [names[i]];
        if KnownTool(cfg, names[i]) {
          loadedTools := loadedTools + {names[i]};
        } else {
          unknownTools := unknownTools + [names[i]];
        }
      }
      assert names[..|names|] == names;
      outcome := Handled(unknownGroups, unknownTools);
    }
  }
}
