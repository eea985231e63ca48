/** The MCP tool (backend/app/domain/services/tools/mcp.py): a client
  * manager that connects to the configured MCP servers, exposes their tools
  * under mangled names and routes calls back to the right server. The
  * transports and the servers are inputs: whether a session comes up, the
  * tool list it reports and the result of each call. */
module Mcp {
  import opened Wrappers
  import J = Json
  import opened PyStr
  import opened ToolResults

  datatype Transport = Stdio | Sse | StreamableHttp

  /** The parts of a server's configuration the manager reads. */
  datatype ServerConfig = ServerConfig(transport: Transport, enabled: bool, command: Option<string>, url: Option<string>)

  /** A tool as a server lists it. */
  datatype ToolInfo = ToolInfo(name: string, description: Option<string>, inputSchema: J.Json)

  /** An item of a call's content: text, or anything else shown by `str`. */
  datatype ContentItem = TextItem(text: string) | OtherItem(shown: string)

  predicate Truthy(s: Option<string>)
  {
    s.Some? && s.value != ""
  }

  const SuccessText: string := "\U{5DE5}\U{5177}\U{6267}\U{884C}\U{6210}\U{529F}"
  const CallFailed: string := "\U{8C03}\U{7528} MCP \U{5DE5}\U{5177}\U{5931}\U{8D25}: "
  const NoConfig: string := "'NoneType' object has no attribute 'mcpServers'"

  function CannotParse(toolName: string): string
  {
    "\U{65E0}\U{6CD5}\U{89E3}\U{6790} MCP \U{5DE5}\U{5177}\U{540D}\U{79F0}: " + toolName
  }

  function NotConnected(server: string): string
  {
    "MCP \U{670D}\U{52A1}\U{5668} " + server + " \U{672A}\U{8FDE}\U{63A5}"
  }

  /** The prefix of a server's tools: its name when that already starts
    * with "mcp_", otherwise "mcp_" and the name. */
  function Prefix(server: string): (p: string)
    ensures StartsWith(p, "mcp_")
    ensures StartsWith(server, "mcp_") ==> p == server
    ensures !StartsWith(server, "mcp_") ==> p == "mcp_" + server
  {
    if StartsWith(server, "mcp_") then server else "mcp_" + server
  }

  /** The name a server's tool is exposed under. */
  function ExposedName(server: string, tool: string): string
  {
    if StartsWith(server, "mcp_") then server + "_" + tool else "mcp_" + server + "_" + tool
  }

  lemma ExposedNameShape(server: string, tool: string)
    ensures ExposedName(server, tool) == Prefix(server) + "_" + tool
    ensures StartsWith(ExposedName(server, tool), Prefix(server) + "_")
  {
    var p := Prefix(server) + "_";
    assert ExposedName(server, tool) == p + tool;
    assert (p + tool)[..|p|] == p;
  }

  /** The standard schema of an exposed tool. */
  function ToolSchema(server: string, t: ToolInfo): J.Json
  {
    var description := if Truthy(t.description) then t.description.value else t.name;
    J.JObj([("type", J.JStr("function")),
            ("function", J.JObj([("name", J.JStr(ExposedName(server, t.name))),
                                 ("description", J.JStr("[" + server + "] " + description)),
                                 ("parameters", t.inputSchema)]))])
  }

  /** The function name a schema declares, if it has one. */
  function SchemaName(schema: J.Json): Option<string>
  {
    var f := if schema.JObj? then J.Lookup(schema.fields, "function") else None;
    var n := if f.Some? && f.value.JObj? then J.Lookup(f.value.fields, "name") else None;
    if n.Some? && n.value.JStr? then Some(n.value.s) else None
  }

  lemma ToolSchemaName(server: string, t: ToolInfo)
    ensures SchemaName(ToolSchema(server, t)) == Some(ExposedName(server, t.name))
  {
  }

  function ServerSchemas(server: string, tools: seq<ToolInfo>): (r: seq<J.Json>)
    ensures |r| == |tools|
    ensures forall k :: 0 <= k < |tools| ==> r[k] == ToolSchema(server, tools[k])
  {
    seq(|tools|, k requires 0 <= k < |tools| => ToolSchema(server, tools[k]))
  }

  /** The schemas of every cached tool, server by server in cache order. */
  function AllSchemas(cache: seq<(string, seq<ToolInfo>)>): seq<J.Json>
  {
    if cache == [] then []
    else AllSchemas(cache[..|cache| - 1]) + ServerSchemas(cache[|cache| - 1].0, cache[|cache| - 1].1)
  }

  /** The function names a list of schemas declares. */
  function SchemaNames(schemas: seq<J.Json>): (r: set<string>)
    ensures forall n :: n in r <==> exists k :: 0 <= k < |schemas| && SchemaName(schemas[k]) == Some(n)
  {
    set k | 0 <= k < |schemas| && SchemaName(schemas[k]).Some? :: SchemaName(schemas[k]).value
  }

  /** The exposed names of the tools in a cache. */
  function ExposedNames(cache: seq<(string, seq<ToolInfo>)>): set<string>
  {
    if cache == [] then {}
    else
      var last := cache[|cache| - 1];
      ExposedNames(cache[..|cache| - 1]) + set t | t in last.1 :: ExposedName(last.0, t.name)
  }

  lemma SchemaNamesAppend(a: seq<J.Json>, b: seq<J.Json>)
    ensures SchemaNames(a + b) == SchemaNames(a) + SchemaNames(b)
  {
    forall n | n in SchemaNames(a + b) ensures n in SchemaNames(a) + SchemaNames(b) {
      var k :| 0 <= k < |a + b| && SchemaName((a + b)[k]) == Some(n);
      if k < |a| {
        assert (a + b)[k] == a[k];
      } else {
        assert (a + b)[k] == b[k - |a|];
      }
    }
    forall n | n in SchemaNames(a) + SchemaNames(b) ensures n in SchemaNames(a + b) {
      if n in SchemaNames(a) {
        var k :| 0 <= k < |a| && SchemaName(a[k]) == Some(n);
        assert (a + b)[k] == a[k];
      } else {
        var k :| 0 <= k < |b| && SchemaName(b[k]) == Some(n);
        assert (a + b)[|a| + k] == b[k];
      }
    }
  }

  lemma ServerSchemaNames(server: string, tools: seq<ToolInfo>)
    ensures SchemaNames(ServerSchemas(server, tools)) == set t | t in tools :: ExposedName(server, t.name)
  {
    var ss := ServerSchemas(server, tools);
    forall n | n in SchemaNames(ss) ensures n in set t | t in tools :: ExposedName(server, t.name) {
      var k :| 0 <= k < |ss| && SchemaName(ss[k]) == Some(n);
      ToolSchemaName(server, tools[k]);
    }
    forall t | t in tools ensures ExposedName(server, t.name) in SchemaNames(ss) {
      var k :| 0 <= k < |tools| && tools[k] == t;
      ToolSchemaName(server, t);
      assert SchemaName(ss[k]) == Some(ExposedName(server, t.name));
    }
  }

  /** The schemas of a cache declare exactly the exposed names of its
    * tools. */
  lemma {:induction false} AllSchemasNames(cache: seq<(string, seq<ToolInfo>)>)
    ensures SchemaNames(AllSchemas(cache)) == ExposedNames(cache)
  {
    if cache != [] {
      var front := cache[..|cache| - 1];
      var last := cache[|cache| - 1];
      AllSchemasNames(front);
      SchemaNamesAppend(AllSchemas(front), ServerSchemas(last.0, last.1));
      ServerSchemaNames(last.0, last.1);
    }
  }

  /** The first configured server whose prefix and "_" begin the name. */
  function MatchServer(servers: seq<string>, toolName: string): (r: Option<nat>)
    ensures r.Some? ==> r.value < |servers| && StartsWith(toolName, Prefix(servers[r.value]) + "_")
    ensures r.Some? ==> forall j :: 0 <= j < r.value ==> !StartsWith(toolName, Prefix(servers[j]) + "_")
    ensures r.None? ==> forall j :: 0 <= j < |servers| ==> !StartsWith(toolName, Prefix(servers[j]) + "_")
  {
    if servers == [] then None
    else if StartsWith(toolName, Prefix(servers[0]) + "_") then Some(0)
    else
      var rest := MatchServer(servers[1..], toolName);
      if rest.Some? then Some(rest.value + 1) else None
  }

  /** The server of an exposed name and the tool name after its prefix. */
  function ParseSpec(servers: seq<string>, toolName: string): (r: Option<(string, string)>)
    ensures r.None? <==> forall j :: 0 <= j < |servers| ==> !StartsWith(toolName, Prefix(servers[j]) + "_")
    ensures r.Some? ==> r.value.0 in servers && ExposedName(r.value.0, r.value.1) == toolName
  {
    var m := MatchServer(servers, toolName);
    if m.None? then None
    else
      var server := servers[m.value];
      Some((server, toolName[|Prefix(server)| + 1..]))
  }

  /** The loop of `call_tool` that finds the server of a name. */
  method ParseToolName(servers: seq<string>, toolName: string) returns (r: Option<(string, string)>)
    ensures r == ParseSpec(servers, toolName)
  {
    var i := 0;
    while i < |servers|
      invariant 0 <= i <= |servers|
      invariant forall j :: 0 <= j < i ==> !StartsWith(toolName, Prefix(servers[j]) + "_")
    {
      var prefix := if StartsWith(servers[i], "mcp_") then servers[i] else "mcp_" + servers[i];
      if StartsWith(toolName, prefix + "_") {
        MatchFirst(servers, toolName, i);
        return Some((servers[i], toolName[|prefix| + 1..]));
      }
      i := i + 1;
    }
    return None;
  }

  lemma MatchFirst(servers: seq<string>, toolName: string, i: nat)
    requires i < |servers| && StartsWith(toolName, Prefix(servers[i]) + "_")
    requires forall j :: 0 <= j < i ==> !StartsWith(toolName, Prefix(servers[j]) + "_")
    ensures MatchServer(servers, toolName) == Some(i)
  {
    if i > 0 {
      MatchFirst(servers[1..], toolName, i - 1);
    }
  }

  /** Parsing an exposed name gives back its server and tool, provided no
    * earlier configured server claims the name. */
  lemma ParseExposedName(servers: seq<string>, i: nat, tool: string)
    requires i < |servers|
    requires forall j :: 0 <= j < i ==> !StartsWith(ExposedName(servers[i], tool), Prefix(servers[j]) + "_")
    ensures ParseSpec(servers, ExposedName(servers[i], tool)) == Some((servers[i], tool))
  {
    var name := ExposedName(servers[i], tool);
    ExposedNameShape(servers[i], tool);
    MatchFirst(servers, name, i);
    var p := Prefix(servers[i]) + "_";
    assert name == p + tool;
    assert name[|p|..] == tool;
  }

  /** The mangling is not injective: server "a" with tool "b_c" and server
    * "a_b" with tool "c" are exposed under the same name, and a call to it
    * goes to whichever of the two is configured first. */
  lemma ExposedNamesCollide()
    ensures ExposedName("a", "b_c") == ExposedName("a_b", "c") == "mcp_a_b_c"
    ensures ParseSpec(["a", "a_b"], "mcp_a_b_c") == Some(("a", "b_c"))
  {
    assert !StartsWith("a", "mcp_");
    assert !StartsWith("a_b", "mcp_");
    assert Prefix("a") == "mcp_a";
    assert StartsWith("mcp_a_b_c", "mcp_a_");
    MatchFirst(["a", "a_b"], "mcp_a_b_c", 0);
    assert "mcp_a_b_c"[6..] == "b_c";
  }

  /** A successful call's data: the content items' text joined by newlines,
    * or the fixed success text when there is no content. */
  function ContentText(content: Option<seq<ContentItem>>): (r: string)
    ensures content.None? || content.value == [] ==> r == SuccessText
  {
    if content.None? || content.value == [] then SuccessText
    else
      var items := content.value;
      Join("\n", seq(|items|, k requires 0 <= k < |items| => if items[k].TextItem? then items[k].text else items[k].shown))
  }

  /** How connecting to one configured server ends. */
  datatype Connection = Skipped | Failed(reason: string) | Connected(tools: seq<ToolInfo>)

  class ClientManager {
    /** The servers with a live session. */
    var clients: set<string>
    /** The tools each connected server listed, in connection order. */
    var toolsCache: seq<(string, seq<ToolInfo>)>
    var initialized: bool
    /** The configured servers in order, or no configuration at all. */
    const config: Option<seq<(string, ServerConfig)>>
    /** Whether the session with a server comes up. */
    const connect: string -> bool
    /** A server's tool list; `None` when listing fails. */
    const listTools: string -> Option<seq<ToolInfo>>
    /** A server's result for a call; `Err` is an exception, `Ok(None)` no
      * result object. */
    const callTool: (string, string, seq<(string, J.Json)>) -> Result<Option<Option<seq<ContentItem>>>, string>

    /** Before initialization, and after a cleanup, nothing is connected. */
    predicate Valid()
      reads this
    {
      !initialized ==> clients == {} && toolsCache == []
    }

    constructor (config: Option<seq<(string, ServerConfig)>>, connect: string -> bool,
                 listTools: string -> Option<seq<ToolInfo>>,
                 callTool: (string, string, seq<(string, J.Json)>) -> Result<Option<Option<seq<ContentItem>>>, string>)
      ensures Valid() && !initialized
      ensures this.config == config && this.connect == connect && this.listTools == listTools && this.callTool == callTool
    {
      this.config := config;
      this.connect := connect;
      this.listTools := listTools;
      this.callTool := callTool;
      clients := {};
      toolsCache := [];
      initialized := false;
    }

    /** `_connect_server`: disabled servers are skipped; a stdio server
      * needs a command and the others a URL; a server whose session comes
      * up is connected even when listing its tools fails. */
    function Outcome(name: string, cfg: ServerConfig): (r: Connection)
      ensures !cfg.enabled ==> r == Skipped
      ensures r.Connected? ==> cfg.enabled && connect(name)
      ensures r.Connected? && listTools(name).None? ==> r.tools == []
    {
      if !cfg.enabled then Skipped
      else if cfg.transport == Stdio && !Truthy(cfg.command) then Failed("missing command")
      else if cfg.transport != Stdio && !Truthy(cfg.url) then Failed("missing url")
      else if !connect(name) then Failed("connection failed")
      else Connected(listTools(name).GetOr([]))
    }

    /** The cache entries of the servers that connect, in order. */
    function CacheEntries(servers: seq<(string, ServerConfig)>): seq<(string, seq<ToolInfo>)>
    {
      if servers == [] then []
      else
        var last := servers[|servers| - 1];
        var o := Outcome(last.0, last.1);
        CacheEntries(servers[..|servers| - 1]) + (if o.Connected? then [(last.0, o.tools)] else [])
    }

    /** A server is connected exactly when its own connection succeeds:
      * servers that fail do not stop the others. */
    lemma {:induction false} CacheEntriesIff(servers: seq<(string, ServerConfig)>, name: string, tools: seq<ToolInfo>)
      ensures (name, tools) in CacheEntries(servers) <==>
        exists i :: 0 <= i < |servers| && servers[i].0 == name && Outcome(name, servers[i].1) == Connected(tools)
    {
      if servers != [] {
        var front := servers[..|servers| - 1];
        CacheEntriesIff(front, name, tools);
        var last := servers[|servers| - 1];
        if exists i :: 0 <= i < |front| && front[i].0 == name && Outcome(name, front[i].1) == Connected(tools) {
          var i :| 0 <= i < |front| && front[i].0 == name && Outcome(name, front[i].1) == Connected(tools);
          assert servers[i] == front[i];
        }
        if exists i :: 0 <= i < |servers| && servers[i].0 == name && Outcome(name, servers[i].1) == Connected(tools) {
          var i :| 0 <= i < |servers| && servers[i].0 == name && Outcome(name, servers[i].1) == Connected(tools);
          if i < |front| {
            assert front[i] == servers[i];
          }
        }
      }
    }

    function CacheNames(cache: seq<(string, seq<ToolInfo>)>): (r: set<string>)
      ensures forall i :: 0 <= i < |cache| ==> cache[i].0 in r
      ensures forall n :: n in r ==> exists i :: 0 <= i < |cache| && cache[i].0 == n
    {
      set i | 0 <= i < |cache| :: cache[i].0
    }

    lemma CacheNamesAppend(cache: seq<(string, seq<ToolInfo>)>, e: (string, seq<ToolInfo>))
      ensures CacheNames(cache + [e]) == CacheNames(cache) + {e.0}
    {
      var c := cache + [e];
      assert c[|cache|] == e;
      forall n | n in CacheNames(cache) ensures n in CacheNames(c) {
        var i :| 0 <= i < |cache| && cache[i].0 == n;
        assert c[i] == cache[i];
      }
    }

    /** `_connect_servers`, one configured server at a time. */
    method ConnectServers(servers: seq<(string, ServerConfig)>)
      modifies this
      ensures toolsCache == old(toolsCache) + CacheEntries(servers)
      ensures clients == old(clients) + CacheNames(CacheEntries(servers))
      ensures initialized == old(initialized)
    {
      var i := 0;
      while i < |servers|
        invariant 0 <= i <= |servers|
        invariant toolsCache == old(toolsCache) + CacheEntries(servers[..i])
        invariant clients == old(clients) + CacheNames(CacheEntries(servers[..i]))
        invariant initialized == old(initialized)
      {
        assert servers[..i + 1][..i] == servers[..i];
        var name := servers[i].0;
        var o := Outcome(name, servers[i].1);
        if o.Connected? {
          clients := clients + {name};
          toolsCache := toolsCache + [(name, o.tools)];
          assert CacheEntries(servers[..i + 1]) == CacheEntries(servers[..i]) + [(name, o.tools)];
          CacheNamesAppend(CacheEntries(servers[..i]), (name, o.tools));
        } else {
          assert CacheEntries(servers[..i + 1]) == CacheEntries(servers[..i]) + [];
          assert CacheEntries(servers[..i]) + [] == CacheEntries(servers[..i]);
        }
        i := i + 1;
      }
      assert servers[..i] == servers;
    }

    /** `initialize`: connects once; without a configuration it raises. */
    method Initialize() returns (err: Option<string>)
      requires Valid()
      modifies this
      ensures Valid()
      ensures old(initialized) ==> err.None? && clients == old(clients) && toolsCache == old(toolsCache) && initialized
      ensures !old(initialized) && config.None? ==> err == Some(NoConfig) && !initialized && toolsCache == [] && clients == {}
      ensures !old(initialized) && config.Some? ==>
        err.None? && initialized && toolsCache == CacheEntries(config.value) && clients == CacheNames(toolsCache)
    {
      if initialized {
        return None;
      }
      if config.None? {
        return Some(NoConfig);
      }
      ConnectServers(config.value);
      initialized := true;
      err := None;
    }

    /** `get_all_tools`, server by server and tool by tool. */
    method GetAllTools() returns (all: seq<J.Json>)
      ensures all == AllSchemas(toolsCache)
    {
      all := [];
      var i := 0;
      while i < |toolsCache|
        invariant 0 <= i <= |toolsCache|
        invariant all == AllSchemas(toolsCache[..i])
      {
        var server := toolsCache[i].0;
        var tools := toolsCache[i].1;
        var j := 0;
        while j < |tools|
          invariant 0 <= j <= |tools|
          invariant all == AllSchemas(toolsCache[..i]) + ServerSchemas(server, tools[..j])
        {
          assert ServerSchemas(server, tools[..j + 1]) == ServerSchemas(server, tools[..j]) + [ToolSchema(server, tools[j])];
          all := all + [ToolSchema(server, tools[j])];
          j := j + 1;
        }
        assert tools[..j] == tools;
        assert toolsCache[..i + 1][..i] == toolsCache[..i];
        all := all;
        i := i + 1;
      }
      assert toolsCache[..i] == toolsCache;
    }

    /** `call_tool`: never raises; a name no server claims, a server
      * without a session and a call that raises give a failed result. */
    method CallTool(toolName: string, args: seq<(string, J.Json)>) returns (r: ToolResult)
      ensures config.None? ==> r == ToolResult(false, Some(CallFailed + NoConfig), None)
      ensures config.Some? ==>
        var servers := seq(|config.value|, k requires 0 <= k < |config.value| => config.value[k].0);
        var parsed := ParseSpec(servers, toolName);
        if parsed.None? || parsed.value.0 == "" || parsed.value.1 == "" then
          r == ToolResult(false, Some(CallFailed + CannotParse(toolName)), None)
        else if parsed.value.0 !in clients then
          r == ToolResult(false, Some(NotConnected(parsed.value.0)), None)
        else
          var res := callTool(parsed.value.0, parsed.value.1, args);
          if res.Err? then r == ToolResult(false, Some(CallFailed + res.error), None)
          else r == ToolResult(true, None, Some(J.JStr(if res.value.None? then SuccessText else ContentText(res.value.value))))
      ensures r.success ==> r.data.Some? && r.data.value.JStr?
      ensures !r.success ==> r.message.Some? && r.data.None?
    {
      if config.None? {
        return ToolResult(false, Some(CallFailed + NoConfig), None);
      }
      var servers := seq(|config.value|, k requires 0 <= k < |config.value| => config.value[k].0);
      var parsed := ParseToolName(servers, toolName);
      if parsed.None? || parsed.value.0 == "" || parsed.value.1 == "" {
        return ToolResult(false, Some(CallFailed + CannotParse(toolName)), None);
      }
      var server := parsed.value.0;
      if server !in clients {
        return ToolResult(false, Some(NotConnected(server)), None);
      }
      var res := callTool(server, parsed.value.1, args);
      if res.Err? {
        return ToolResult(false, Some(CallFailed + res.error), None);
      }
      var text := if res.value.None? then SuccessText else ContentText(res.value.value);
      return ToolResult(true, None, Some(J.JStr(text)));
    }

    /** `cleanup`: with the transports closed, every session and the tool
      * cache are dropped and the manager may be initialized again; when
      * closing fails nothing changes. */
    method Cleanup(closed: bool)
      modifies this
      ensures closed ==> clients == {} && toolsCache == [] && !initialized && Valid()
      ensures !closed ==> clients == old(clients) && toolsCache == old(toolsCache) && initialized == old(initialized)
    {
      if closed {
        clients := {};
        toolsCache := [];
        initialized := false;
      }
    }
  }

  /** The tool the agents see: its schemas are fetched once from the
    * manager it creates on first initialization. */
  class McpTool {
    var initialized: bool
    var tools: seq<J.Json>
    /** Unset until the first initialization. */
    var manager: ClientManager?

    constructor ()
      ensures !initialized && tools == [] && manager == null
    {
      initialized := false;
      tools := [];
      manager := null;
    }

    /** `initialized`: on the first successful call, a new manager is
      * initialized and its schemas cached; later calls do nothing. */
    method Initialized(config: Option<seq<(string, ServerConfig)>>, connect: string -> bool,
                       listTools: string -> Option<seq<ToolInfo>>,
                       callTool: (string, string, seq<(string, J.Json)>) -> Result<Option<Option<seq<ContentItem>>>, string>)
      returns (err: Option<string>)
      modifies this
      ensures old(initialized) ==> err.None? && initialized && tools == old(tools) && manager == old(manager)
      ensures !old(initialized) ==> manager != null && fresh(manager) && manager.config == config && manager.connect == connect
      ensures !old(initialized) && config.None? ==> err.Some? && !initialized && tools == old(tools)
      ensures !old(initialized) && config.Some? ==>
        err.None? && initialized && manager.initialized && tools == AllSchemas(manager.toolsCache)
        && manager.toolsCache == manager.CacheEntries(config.value)
    {
      if initialized {
        return None;
      }
      var m := new ClientManager(config, connect, listTools, callTool);
      manager := m;
      err := m.Initialize();
      if err.Some? {
        return;
      }
      tools := m.GetAllTools();
      initialized := true;
    }

    /** `has_function`: whether a cached schema declares the name. */
    method HasFunction(functionName: string) returns (b: bool)
      ensures b <==> exists k :: 0 <= k < |tools| && SchemaName(tools[k]) == Some(functionName)
    {
      var i := 0;
      while i < |tools|
        invariant 0 <= i <= |tools|
        invariant forall k :: 0 <= k < i ==> SchemaName(tools[k]) != Some(functionName)
      {
        if SchemaName(tools[i]) == Some(functionName) {
          return true;
        }
        i := i + 1;
      }
      return false;
    }

    /** `invoke_function`: the manager's call; before the first
      * initialization there is no manager and it raises. */
    method InvokeFunction(functionName: string, kwargs: seq<(string, J.Json)>) returns (r: Result<ToolResult, string>)
      ensures manager == null <==> r.Err?
      ensures r.Ok? ==> (r.value.success ==> r.value.data.Some?)
    {
      if manager == null {
        return Err("'MCPTool' object has no attribute 'manager'");
      }
      var res := manager.CallTool(functionName, kwargs);
      return Ok(res);
    }

    /** `cleanup`: cleans the manager up, but the tool itself stays
      * initialized with the schemas it had. */
    method Cleanup(closed: bool) returns (err: Option<string>)
      modifies this, manager
      ensures err.Some? <==> old(manager) == null
      ensures initialized == old(initialized) && tools == old(tools) && manager == old(manager)
      ensures manager != null && closed ==> manager.clients == {} && manager.toolsCache == [] && !manager.initialized
    {
      if manager == null {
        return Some("'MCPTool' object has no attribute 'manager'");
      }
      manager.Cleanup(closed);
      err := None;
    }
  }

  /** After the tool is initialized, it offers exactly the exposed names of
    * the tools its servers listed. */
  lemma InitializedOffers(cache: seq<(string, seq<ToolInfo>)>, name: string)
    ensures (exists k :: 0 <= k < |AllSchemas(cache)| && SchemaName(AllSchemas(cache)[k]) == Some(name))
        <==> name in ExposedNames(cache)
  {
    AllSchemasNames(cache);
  }
}
