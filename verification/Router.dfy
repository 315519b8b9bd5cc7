/** mcpclient/router.go, lines 103-216 and 431-533: the tools of the connected MCP servers, checked,
    merged and indexed. */
module Router {
  import opened JsonTree
  import opened ToolBudget

  // A tool as a server lists it. `schema` is its encoding and `schemaOk` what validateToolSchema says.
  datatype McpTool = McpTool(name: string, description: string, schema: string, schemaOk: bool, readOnly: bool)

  const MAX_TOOLS_PER_SERVER := 128
  const MAX_TOOLS_SCANNED_PER_SERVER := 4 * MAX_TOOLS_PER_SERVER
  const MAX_TOOL_DESCRIPTION_BYTES := 4096
  const MAX_TOOL_BYTES_PER_SERVER := 262144

  predicate NameChar(c: char) {
    'a' <= c <= 'z' || 'A' <= c <= 'Z' || '0' <= c <= '9' || c == '_' || c == '-'
  }

  predicate ValidName(name: string) {
    1 <= |name| <= 64 && forall i :: 0 <= i < |name| ==> NameChar(name[i])
  }

  predicate Acceptable(t: Option<McpTool>) {
    t.Some? && ValidName(t.value.name) && t.value.schemaOk
  }

  // Cuts a long description short; `clip` makes the cut a whole number of characters.
  function Clipped(t: McpTool, clip: string -> string): McpTool {
    if |t.description| > MAX_TOOL_DESCRIPTION_BYTES
    then t.(description := clip(t.description[..MAX_TOOL_DESCRIPTION_BYTES]))
    else t
  }

  function SizeOf(t: McpTool): nat {
    |t.name| + |t.description| + |t.schema|
  }

  function SizeOfAll(ts: seq<McpTool>): nat {
    if ts == [] then 0 else SizeOfAll(ts[..|ts| - 1]) + SizeOf(ts[|ts| - 1])
  }

  function NamesOf(ts: seq<McpTool>): set<string> {
    if ts == [] then {} else NamesOf(ts[..|ts| - 1]) + {ts[|ts| - 1].name}
  }

  ghost predicate DistinctNames(ts: seq<McpTool>) {
    ts == [] || (ts[|ts| - 1].name !in NamesOf(ts[..|ts| - 1]) && DistinctNames(ts[..|ts| - 1]))
  }

  predicate WellFormed(t: McpTool) {
    ValidName(t.name) && t.schemaOk && |t.description| <= MAX_TOOL_DESCRIPTION_BYTES
  }

  // What may be kept of one server.
  ghost predicate Bounded(ts: seq<McpTool>) {
    && |ts| <= MAX_TOOLS_PER_SERVER && SizeOfAll(ts) <= MAX_TOOL_BYTES_PER_SERVER
    && DistinctNames(ts)
    && forall k :: 0 <= k < |ts| ==> WellFormed(ts[k])
  }

  // `out` holds tools of `tools` in their order: the one at `k` comes from `from[k]`.
  ghost predicate Selects(
      tools: seq<Option<McpTool>>, clip: string -> string, out: seq<McpTool>, from: seq<nat>, below: nat)
    requires below <= |tools|
  {
    && |from| == |out|
    && (forall k :: 0 <= k < |from| ==>
      from[k] < below && tools[from[k]].Some? && out[k] == Clipped(tools[from[k]].value, clip))
    && (forall j, k :: 0 <= j < k < |from| ==> from[j] < from[k])
  }

  // No acceptable tool was dropped while there was room for it.
  ghost predicate NoneDropped(tools: seq<Option<McpTool>>, clip: string -> string, out: seq<McpTool>, below: nat)
    requires below <= |tools|
  {
    forall i :: 0 <= i < below && Acceptable(tools[i]) && tools[i].value.name !in NamesOf(out) ==>
      Full(out, Clipped(tools[i].value, clip))
  }

  predicate Full(out: seq<McpTool>, t: McpTool) {
    |out| >= MAX_TOOLS_PER_SERVER || SizeOfAll(out) + SizeOf(t) > MAX_TOOL_BYTES_PER_SERVER
  }

  // What sanitizeTools keeps of what a server lists.
  ghost predicate Sanitized(tools: seq<Option<McpTool>>, clip: string -> string, out: seq<McpTool>) {
    && Bounded(out)
    && (exists from :: Selects(tools, clip, out, from, |tools|))
    && NoneDropped(tools, clip, out, |tools|)
  }

  // The part of a long list that is looked at.
  function Scanned(listed: seq<Option<McpTool>>): seq<Option<McpTool>> {
    if |listed| > MAX_TOOLS_SCANNED_PER_SERVER then listed[..MAX_TOOLS_SCANNED_PER_SERVER] else listed
  }

  /** sanitizeTools. `from` records where each kept tool stood. */
  method SanitizeTools(tools: seq<Option<McpTool>>, clip: string -> string)
      returns (out: seq<McpTool>, ghost from: seq<nat>)
    requires forall s :: |clip(s)| <= |s|
    ensures Bounded(out)
    ensures Selects(tools, clip, out, from, |tools|)
    ensures NoneDropped(tools, clip, out, |tools|)
  {
    out, from := [], [];
    var seen: set<string> := {};
    var totalBytes := 0;
    for i := 0 to |tools|
      invariant seen == NamesOf(out) && totalBytes == SizeOfAll(out)
      invariant Bounded(out)
      invariant Selects(tools, clip, out, from, i)
      invariant NoneDropped(tools, clip, out, i)
    {
      if tools[i].None? || !ValidName(tools[i].value.name) || tools[i].value.name in seen || !tools[i].value.schemaOk {
        continue;
      }
      var t := Clipped(tools[i].value, clip);
      var size := SizeOf(t);
      if |out| >= MAX_TOOLS_PER_SERVER || totalBytes + size > MAX_TOOL_BYTES_PER_SERVER {
        continue;
      }
      KeepOne(out, t);
      KeepNoneDropped(tools, clip, out, i, t);
      seen := seen + {t.name};
      totalBytes := totalBytes + size;
      out, from := out + [t], from + [i];
    }
  }

  lemma KeepOne(out: seq<McpTool>, t: McpTool)
    requires Bounded(out) && !Full(out, t) && t.name !in NamesOf(out) && WellFormed(t)
    ensures Bounded(out + [t])
    ensures NamesOf(out + [t]) == NamesOf(out) + {t.name}
    ensures SizeOfAll(out + [t]) == SizeOfAll(out) + SizeOf(t)
  {
    assert (out + [t])[..|out|] == out;
  }

  // What was full stays full, and what is kept now is not dropped.
  lemma KeepNoneDropped(tools: seq<Option<McpTool>>, clip: string -> string, out: seq<McpTool>, i: nat, t: McpTool)
    requires i < |tools| && NoneDropped(tools, clip, out, i) && tools[i].Some? && tools[i].value.name == t.name
    requires NamesOf(out + [t]) == NamesOf(out) + {t.name}
    requires SizeOfAll(out + [t]) == SizeOfAll(out) + SizeOf(t)
    ensures NoneDropped(tools, clip, out + [t], i + 1)
  {
  }

  // ----- the merged index -----

  // A connected server: the names its configuration allows as read-only, and its checked tools.
  datatype Server = Server(readOnlyTools: set<string>, tools: seq<McpTool>)

  function Converted(t: McpTool, readOnlyTools: set<string>): ToolDef {
    ToolDef(t.name, t.description, t.schema, t.readOnly || t.name in readOnlyTools)
  }

  function ToolNames(ts: seq<ToolDef>): set<string> {
    if ts == [] then {} else ToolNames(ts[..|ts| - 1]) + {ts[|ts| - 1].name}
  }

  ghost predicate NamedApart(ts: seq<ToolDef>) {
    ts == [] || (ts[|ts| - 1].name !in ToolNames(ts[..|ts| - 1]) && NamedApart(ts[..|ts| - 1]))
  }

  lemma NamesSnoc(ts: seq<ToolDef>, t: ToolDef)
    ensures ToolNames(ts + [t]) == ToolNames(ts) + {t.name}
    ensures NamedApart(ts + [t]) <==> NamedApart(ts) && t.name !in ToolNames(ts)
  {
    assert (ts + [t])[..|ts|] == ts;
  }

  ghost predicate Offers(server: Server, t: ToolDef) {
    exists k :: 0 <= k < |server.tools| && t == Converted(server.tools[k], server.readOnlyTools)
  }

  // `t` is a tool of the server that `toolMap` names for it.
  ghost predicate Routed(servers: map<string, Server>, toolMap: map<string, string>, t: ToolDef) {
    t.name in toolMap && toolMap[t.name] in servers && Offers(servers[toolMap[t.name]], t)
  }

  ghost predicate RoutedAll(servers: map<string, Server>, toolMap: map<string, string>, toolDefs: seq<ToolDef>) {
    && NamedApart(toolDefs)
    && toolMap.Keys == ToolNames(toolDefs)
    && forall k :: 0 <= k < |toolDefs| ==> Routed(servers, toolMap, toolDefs[k])
  }

  ghost predicate NamesKnown(ts: seq<McpTool>, upTo: nat, toolMap: map<string, string>)
    requires upTo <= |ts|
  {
    forall k :: 0 <= k < upTo ==> ts[k].name in toolMap
  }

  // What the index says of the servers: each tool once, under a server that has it, and no name missing.
  ghost predicate Indexed(servers: map<string, Server>, toolMap: map<string, string>, toolDefs: seq<ToolDef>) {
    && RoutedAll(servers, toolMap, toolDefs)
    && forall s :: s in servers ==> NamesKnown(servers[s].tools, |servers[s].tools|, toolMap)
  }

  lemma RouteOne(servers: map<string, Server>, toolMap: map<string, string>, toolDefs: seq<ToolDef>, s: string, k: nat)
    requires RoutedAll(servers, toolMap, toolDefs)
    requires s in servers && k < |servers[s].tools| && servers[s].tools[k].name !in toolMap
    ensures RoutedAll(servers, toolMap[servers[s].tools[k].name := s],
                      toolDefs + [Converted(servers[s].tools[k], servers[s].readOnlyTools)])
  {
    var t := Converted(servers[s].tools[k], servers[s].readOnlyTools);
    var after := toolMap[t.name := s];
    NamesSnoc(toolDefs, t);
    assert Offers(servers[s], t);
    assert Routed(servers, after, t);
    forall j | 0 <= j < |toolDefs| ensures Routed(servers, after, toolDefs[j]) {
      assert Routed(servers, toolMap, toolDefs[j]);
    }
  }

  // What a router holds; `toolMap` and `toolDefs` are the index.
  datatype Tables = Tables(servers: map<string, Server>, toolMap: map<string, string>, toolDefs: seq<ToolDef>)

  const NOTHING := Tables(map[], map[], [])

  ghost predicate IndexedBy(s: Tables) {
    Indexed(s.servers, s.toolMap, s.toolDefs)
  }

  datatype Change = Connects(name: string, server: Server) | FailsToConnect(name: string) | Disconnects(name: string)

  /** What a change does to the tables. A failed one leaves the index as it was, and so does the
      disconnection of a server that is not connected; any other rebuilds it. */
  ghost predicate LeadsTo(s: Tables, c: Change, t: Tables) {
    match c
    case Connects(name, server) => t.servers == s.servers[name := server] && IndexedBy(t)
    case FailsToConnect(name) => t == s.(servers := s.servers - {name})
    case Disconnects(name) =>
      t.servers == s.servers - {name} && if name in s.servers then IndexedBy(t) else t == s
  }

  class Router {
    var servers: map<string, Server>
    var toolMap: map<string, string>
    var toolDefs: seq<ToolDef>

    constructor ()
      ensures View() == NOTHING
    {
      servers, toolMap, toolDefs := map[], map[], [];
    }

    function View(): Tables
      reads this
    {
      Tables(servers, toolMap, toolDefs)
    }

    /** rebuildToolIndex, for any order in which the map of servers is iterated. */
    method RebuildToolIndex()
      modifies this`toolMap, this`toolDefs
      ensures Indexed(servers, toolMap, toolDefs)
    {
      toolMap, toolDefs := map[], [];
      var waiting := servers.Keys;
      while waiting != {}
        invariant waiting <= servers.Keys
        invariant RoutedAll(servers, toolMap, toolDefs)
        invariant forall s :: s in servers && s !in waiting ==>
          NamesKnown(servers[s].tools, |servers[s].tools|, toolMap)
      {
        var name :| name in waiting;
        var sc := servers[name];
        ghost var before := toolMap;
        for k := 0 to |sc.tools|
          invariant RoutedAll(servers, toolMap, toolDefs)
          invariant before.Keys <= toolMap.Keys
          invariant NamesKnown(sc.tools, k, toolMap)
        {
          if sc.tools[k].name in toolMap {
            continue;
          }
          RouteOne(servers, toolMap, toolDefs, name, k);
          toolMap := toolMap[sc.tools[k].name := name];
          toolDefs := toolDefs + [Converted(sc.tools[k], sc.readOnlyTools)];
        }
        waiting := waiting - {name};
      }
    }

    /** Connect: whatever the server was before is closed and forgotten first; `listed` is what it
        lists, nothing when connecting or listing fails. */
    method Connect(name: string, readOnlyTools: set<string>, listed: Option<seq<Option<McpTool>>>,
                   clip: string -> string)
        returns (ok: bool)
      requires forall s :: |clip(s)| <= |s|
      modifies this
      ensures ok == listed.Some?
      ensures ok ==>
        && name in servers && LeadsTo(old(View()), Connects(name, servers[name]), View())
        && servers[name].readOnlyTools == readOnlyTools
        && Sanitized(Scanned(listed.value), clip, servers[name].tools)
      ensures !ok ==> LeadsTo(old(View()), FailsToConnect(name), View())
    {
      servers := servers - {name};
      if listed.None? {
        return false;
      }
      ghost var from;
      var tools;
      tools, from := SanitizeTools(Scanned(listed.value), clip);
      servers := servers[name := Server(readOnlyTools, tools)];
      RebuildToolIndex();
      assert servers == old(servers)[name := servers[name]];
      return true;
    }

    method Disconnect(name: string)
      modifies this
      ensures LeadsTo(old(View()), Disconnects(name), View())
    {
      if name !in servers {
        assert servers - {name} == servers;
        return;
      }
      servers := servers - {name};
      RebuildToolIndex();
    }
  }

  // ----- any sequence of changes -----

  ghost predicate Runs(states: seq<Tables>, changes: seq<Change>) {
    && |states| == |changes| + 1
    && states[0] == NOTHING
    && forall i :: 0 <= i < |changes| ==> LeadsTo(states[i], changes[i], states[i + 1])
  }

  // The servers lost to failed reconnects since the index was last rebuilt.
  function Dropped(states: seq<Tables>, changes: seq<Change>, i: nat): set<string>
    requires |states| == |changes| + 1 && i < |states|
  {
    if i == 0 then {}
    else
      var before, connected := Dropped(states, changes, i - 1), states[i - 1].servers.Keys;
      match changes[i - 1]
      case Connects(_, _) => {}
      case FailsToConnect(name) => before + ({name} * connected)
      case Disconnects(name) => if name in connected then {} else before
  }

  // The index names each tool once, under a server that is connected or was dropped since.
  ghost predicate Indexes(s: Tables, dropped: set<string>) {
    && NamedApart(s.toolDefs) && s.toolMap.Keys == ToolNames(s.toolDefs)
    && s.toolMap.Values <= s.servers.Keys + dropped
    && dropped !! s.servers.Keys
  }

  lemma FreshIndexes(s: Tables)
    requires IndexedBy(s)
    ensures Indexes(s, {})
  {
    forall t | t in s.toolMap ensures s.toolMap[t] in s.servers {
      NameOfTool(s.toolDefs, t);
    }
  }

  lemma {:induction false} RunIndexes(states: seq<Tables>, changes: seq<Change>, i: nat)
    requires Runs(states, changes) && i < |states|
    ensures Indexes(states[i], Dropped(states, changes, i))
  {
    if i > 0 {
      RunIndexes(states, changes, i - 1);
      assert LeadsTo(states[i - 1], changes[i - 1], states[i]);
      if IndexedBy(states[i]) {
        FreshIndexes(states[i]);
      }
    }
  }

  /** After any connections, failed connections and disconnections the index names each tool once, and
      every indexed tool has a live server exactly when none was of a server that a failed reconnect has
      dropped since the index was last rebuilt. */
  lemma StaleAfterFailures(states: seq<Tables>, changes: seq<Change>, i: nat)
    requires Runs(states, changes) && i < |states|
    ensures NamedApart(states[i].toolDefs) && states[i].toolMap.Keys == ToolNames(states[i].toolDefs)
    ensures (forall t :: t in states[i].toolMap ==> states[i].toolMap[t] in states[i].servers) <==>
      Dropped(states, changes, i) !! states[i].toolMap.Values
  {
    RunIndexes(states, changes, i);
  }

  // One server with one tool, as the index has it.
  function OneServer(s: string, tool: McpTool): Tables {
    Tables(map[s := Server({}, [tool])], map[tool.name := s], [Converted(tool, {})])
  }

  lemma OneServerIndexed(s: string, tool: McpTool)
    ensures IndexedBy(OneServer(s, tool))
  {
    hide NamedApart;
    var servers, def := map[s := Server({}, [tool])], Converted(tool, {});
    RouteOne(servers, map[], [], s, 0) by { NothingApart(); }
    assert [] + [def] == [def];
    assert NamesKnown([tool], 1, map[tool.name := s]);
  }

  lemma NothingApart()
    ensures NamedApart([]) && ToolNames([]) == {}
  {
  }

  /** One connection and one failed reconnect are enough: the tool is still indexed and its server is gone. */
  lemma StaleExample(s: string, tool: McpTool) returns (states: seq<Tables>, changes: seq<Change>)
    ensures Runs(states, changes)
    ensures changes == [Connects(s, Server({}, [tool])), FailsToConnect(s)]
    ensures states[2].toolMap == map[tool.name := s] && states[2].servers == map[]
  {
    hide IndexedBy;
    var server, connected := Server({}, [tool]), OneServer(s, tool);
    var lost := connected.(servers := map[]);
    OneServerIndexed(s, tool);
    assert connected.servers == NOTHING.servers[s := server];
    assert map[] == connected.servers - {s};
    states, changes := [NOTHING, connected, lost], [Connects(s, server), FailsToConnect(s)];
  }

  lemma {:induction false} NameOfTool(ts: seq<ToolDef>, name: string)
    requires name in ToolNames(ts)
    ensures exists k :: 0 <= k < |ts| && ts[k].name == name
  {
    if name != ts[|ts| - 1].name {
      NameOfTool(ts[..|ts| - 1], name);
    }
  }

  // ----- what a server may offer -----

  /** A tool is acceptable with a name of 1 to 64 letters, digits, underscores and hyphens and a valid schema; a long
      description is cut to 4096 bytes at most; a tool counts as read-only when it says so or the configuration does. */
  lemma ToolMeaning(t: McpTool, clip: string -> string, readOnlyTools: set<string>)
    requires forall s :: |clip(s)| <= |s|
    ensures Acceptable(Some(t)) <==>
      && 1 <= |t.name| <= 64 && t.schemaOk
      && forall i :: 0 <= i < |t.name| ==>
        'a' <= t.name[i] <= 'z' || 'A' <= t.name[i] <= 'Z' || '0' <= t.name[i] <= '9' || t.name[i] in "_-"
    ensures |t.description| <= 4096 ==> Clipped(t, clip) == t
    ensures |t.description| > 4096 ==> Clipped(t, clip) == t.(description := clip(t.description[..4096]))
    ensures Converted(t, readOnlyTools) ==
      ToolDef(t.name, t.description, t.schema, t.readOnly || t.name in readOnlyTools)
    ensures SizeOf(t) == |t.name| + |t.description| + |t.schema|
  {
  }

  /** There is room for a tool as long as fewer than 128 are kept and with it they take at most 262144 bytes; of a
      long list the first 512 are looked at. */
  lemma RoomMeaning(out: seq<McpTool>, t: McpTool, listed: seq<Option<McpTool>>)
    ensures Full(out, t) <==> |out| >= 128 || SizeOfAll(out + [t]) > 262144
    ensures SizeOfAll(out + [t]) == SizeOfAll(out) + |t.name| + |t.description| + |t.schema|
    ensures Bounded(out) ==> |out| <= 128 && SizeOfAll(out) <= 262144
    ensures |listed| <= 512 ==> Scanned(listed) == listed
    ensures |listed| > 512 ==> Scanned(listed) == listed[..512]
  {
    assert (out + [t])[..|out|] == out;
  }
}
