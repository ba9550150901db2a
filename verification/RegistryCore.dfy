/** internal/registry/registry.go and index.go: the registry's shared fields, and each
    critical section under `mu` as a function of them. RegistryObject proves the
    imperative sections against these functions; RegistryMachine interleaves them. */
module RegistryCore {
  import opened Options
  import opened McpConfig

  type Name = string
  type Session = nat
  /** Nanoseconds. */
  type Time = nat

  const ERROR_RETRY_INTERVAL: Time := 30_000_000_000
  const DEFAULT_MAX_RETRIES := 5
  const INITIAL_BACKOFF: Time := 1_000_000_000
  const MAX_BACKOFF: Time := 60_000_000_000
  const CUSTOM_MCP: Name := "_custom"

  // ---------------------------------------------------------------- data

  /** What a server reports for one tool. */
  datatype ListedTool = ListedTool(name: Name, description: string, schema: string)

  datatype ToolInfo = ToolInfo(
    name: Name, description: string, mcpName: Name, schema: string, sourceDescription: string)
  {
    function Upstream(): string
    {
      if sourceDescription != "" then sourceDescription else description
    }
  }

  datatype CachedTool = CachedTool(name: Name, description: string, mcpName: Name, schema: string)

  datatype CacheEntry = CacheEntry(configHash: string, tools: seq<CachedTool>)

  datatype Phase =
    | Configured | Connecting | Connected | Disconnected
    | Reconnecting | Errored | NeedsAuth | Cached

  datatype McpState = McpState(
    config: MCPConfig,
    phase: Phase,
    toolsIndexed: bool,
    attempts: nat,
    lastFailure: Option<Time>)

  datatype CustomDecl = CustomDecl(name: Name, description: string, schema: string)

  /** The override provider as the view of the override store it gives. */
  datatype Provider =
    | NoProvider
    | Provider(overrides: map<(Name, Name), string>, customs: seq<CustomDecl>)

  type Tools = map<Name, seq<ToolInfo>>

  datatype Core = Core(
    connections: map<Name, Session>,
    states: map<Name, McpState>,
    tools: Tools,
    provider: Provider,
    index: Tools,
    closed: bool,
    reconnecting: set<Name>)

  // ---------------------------------------------------------------- the search index

  function IndexedTool(mcp: Name, t: ToolInfo, p: Provider): ToolInfo
  {
    var named := if t.mcpName == "" then t.(mcpName := mcp) else t;
    if p.Provider? && (mcp, t.name) in p.overrides
    then named.(sourceDescription := t.description, description := p.overrides[(mcp, t.name)])
    else named
  }

  function IndexedTools(mcp: Name, ts: seq<ToolInfo>, p: Provider): seq<ToolInfo>
  {
    seq(|ts|, i requires 0 <= i < |ts| => IndexedTool(mcp, ts[i], p))
  }

  function CustomEntry(c: CustomDecl): ToolInfo
  {
    ToolInfo(c.name, c.description, CUSTOM_MCP, c.schema, "")
  }

  function CustomEntries(cs: seq<CustomDecl>): seq<ToolInfo>
  {
    seq(|cs|, i requires 0 <= i < |cs| => CustomEntry(cs[i]))
  }

  function BuildIndex(tools: Tools, p: Provider): Tools
  {
    var base: Tools := map n | n in tools :: IndexedTools(n, tools[n], p);
    if p.Provider? && p.customs != [] then base[CUSTOM_MCP := CustomEntries(p.customs)] else base
  }

  /** What an index shows for these tools: each under its MCP, with that MCP's name where it
      has none, and with its override for a description where it has one; and the custom
      tools under _custom. */
  ghost predicate Shows(byMCP: Tools, tools: Tools, p: Provider)
  {
    var custom := p.Provider? && |p.customs| > 0;
    && (forall n :: n in byMCP <==> n in tools || (custom && n == "_custom"))
    && (forall n <- tools | !(custom && n == "_custom") ::
          && |byMCP[n]| == |tools[n]|
          && forall i | 0 <= i < |tools[n]| :: ShowsTool(byMCP[n][i], n, tools[n][i], p))
    && (custom ==>
          && |byMCP["_custom"]| == |p.customs|
          && forall i | 0 <= i < |p.customs| ::
               var t, c := byMCP["_custom"][i], p.customs[i];
               && t.name == c.name && t.description == c.description && t.schema == c.schema
               && t.mcpName == "_custom" && t.sourceDescription == "")
  }

  ghost predicate ShowsTool(shown: ToolInfo, n: Name, t: ToolInfo, p: Provider)
  {
    && shown.name == t.name && shown.schema == t.schema
    && shown.mcpName == (if t.mcpName == "" then n else t.mcpName)
    && if p.Provider? && (n, t.name) in p.overrides
       then shown.description == p.overrides[(n, t.name)] && shown.sourceDescription == t.description
       else shown.description == t.description && shown.sourceDescription == t.sourceDescription
  }

  /** The build is the one index that shows them. */
  lemma IndexShows(tools: Tools, p: Provider)
    ensures Shows(BuildIndex(tools, p), tools, p)
  {
  }

  lemma ShownOnce(a: Tools, b: Tools, tools: Tools, p: Provider)
    requires Shows(a, tools, p) && Shows(b, tools, p)
    ensures a == b
  {
    forall n <- a ensures a[n] == b[n] {
      forall i | 0 <= i < |a[n]| ensures a[n][i] == b[n][i] {
        if !(n in tools && !(p.Provider? && |p.customs| > 0 && n == "_custom")) { assert n == "_custom"; }
      }
    }
  }

  // ---------------------------------------------------------------- reads

  function PrevAttempts(c: Core, n: Name): nat
  {
    if n in c.states then c.states[n].attempts else 0
  }

  predicate IsConnected(c: Core, n: Name)
  {
    n in c.states && c.states[n].phase == Connected
  }

  predicate WithinWindow(st: McpState, now: Time)
  {
    st.lastFailure.Some? && now < st.lastFailure.value + ERROR_RETRY_INTERVAL
  }

  function ToCached(ts: seq<ToolInfo>): seq<CachedTool>
  {
    seq(|ts|, i requires 0 <= i < |ts| =>
      CachedTool(ts[i].name, ts[i].Upstream(), ts[i].mcpName, ts[i].schema))
  }

  function FromCache(cs: seq<CachedTool>): seq<ToolInfo>
  {
    seq(|cs|, i requires 0 <= i < |cs| =>
      ToolInfo(cs[i].name, cs[i].description, cs[i].mcpName, cs[i].schema, ""))
  }

  function FetchTools(n: Name, listed: seq<ListedTool>): seq<ToolInfo>
  {
    seq(|listed|, i requires 0 <= i < |listed| =>
      ToolInfo(listed[i].name, listed[i].description, n, listed[i].schema, ""))
  }

  /** What updateCache would persist for this name, if anything. */
  function EntryFor(c: Core, n: Name): Option<CacheEntry>
  {
    if n in c.connections && n in c.states && c.states[n].toolsIndexed && n in c.tools
    then Some(CacheEntry(ConfigHash(c.states[n].config), ToCached(c.tools[n])))
    else None
  }

  function ScanTargets(c: Core): set<Name>
  {
    set n | n in c.states && c.states[n].phase == Errored &&
      c.states[n].config.maxRetries != -1 && n !in c.reconnecting
  }

  // ---------------------------------------------------------------- critical sections

  function SetConfigured(c: Core, cfg: MCPConfig): Core
  {
    if cfg.name in c.states then c
    else c.(states := c.states[cfg.name := McpState(cfg, Configured, false, 0, None)])
  }

  function MarkConnecting(c: Core, cfg: MCPConfig): Core
  {
    c.(states := c.states[cfg.name := McpState(cfg, Connecting, false, PrevAttempts(c, cfg.name), None)])
  }

  function SetError(c: Core, cfg: MCPConfig, phase: Phase, attempts: nat, now: Time): Core
  {
    c.(states := c.states[cfg.name := McpState(cfg, phase, false, attempts, Some(now))])
  }

  function InstallSession(c: Core, cfg: MCPConfig, s: Session, listing: Option<seq<ToolInfo>>): Core
  {
    if c.closed then c
    else c.(connections := c.connections[cfg.name := s],
            states := c.states[cfg.name := McpState(cfg, Connected, listing.Some?, 0, None)],
            tools := if listing.Some? then c.tools[cfg.name := listing.value] else c.tools)
  }

  function DropConnection(c: Core, n: Name): Core
  {
    if n !in c.connections then c
    else
      var states := if n in c.states
                    then c.states[n := McpState(c.states[n].config, Disconnected, false, c.states[n].attempts, None)]
                    else c.states;
      c.(connections := c.connections - {n}, states := states, tools := c.tools - {n})
  }

  function RemoveName(c: Core, n: Name): Core
  {
    if n !in c.states then c
    else c.(connections := c.connections - {n}, states := c.states - {n}, tools := c.tools - {n})
  }

  function MarkFailed(c: Core, n: Name, now: Time): Core
  {
    if !IsConnected(c, n) then c
    else c.(connections := c.connections - {n},
            states := c.states[n := McpState(c.states[n].config, Errored, false, 0, Some(now))],
            tools := c.tools - {n})
  }

  function SetCached(c: Core, cfg: MCPConfig, tools: seq<ToolInfo>): Core
  {
    if IsConnected(c, cfg.name) then c
    else c.(states := c.states[cfg.name := McpState(cfg, Cached, false, 0, None)],
            tools := c.tools[cfg.name := tools])
  }

  function SetReconnecting(c: Core, n: Name): Core
  {
    if n in c.states then c.(states := c.states[n := c.states[n].(phase := Reconnecting)]) else c
  }

  function SetAttempts(c: Core, n: Name, k: nat): Core
  {
    if n in c.states then c.(states := c.states[n := c.states[n].(attempts := k)]) else c
  }

  function GiveUp(c: Core, n: Name, now: Time): Core
  {
    if n in c.states
    then c.(states := c.states[n := c.states[n].(phase := Errored, lastFailure := Some(now))])
    else c
  }

  function Shutdown(c: Core): Core
  {
    c.(closed := true,
       connections := map[],
       states := map n | n in c.states ::
         if n in c.connections then c.states[n].(phase := Disconnected) else c.states[n])
  }

  // ---------------------------------------------------------------- backoff

  /** min(2^(attempt-1), 60) seconds. */
  function Backoff(attempt: nat): Time
    requires attempt >= 1
  {
    if attempt <= 6 then INITIAL_BACKOFF * Pow2(attempt - 1) else MAX_BACKOFF
  }

  function Pow2(n: nat): nat
  {
    if n == 0 then 1 else 2 * Pow2(n - 1)
  }

  /** The retry budget of ReconnectWithBackoff; None when auto-reconnect is disabled. */
  function RetryBudget(arg: int, cfg: MCPConfig): (r: Option<nat>)
    ensures r.Some? ==> r.value >= 1
    ensures r.None? <==> arg < 0 || (arg == 0 && cfg.maxRetries < 0)
    ensures arg > 0 ==> r == Some(arg)
    ensures arg == 0 && cfg.maxRetries >= 0 ==> r == Some(if cfg.maxRetries == 0 then 5 else cfg.maxRetries)
  {
    if arg > 0 then Some(arg)
    else if arg < 0 then None
    else if cfg.maxRetries > 0 then Some(cfg.maxRetries)
    else if cfg.maxRetries == 0 then Some(DEFAULT_MAX_RETRIES)
    else None
  }
}
