/** internal/registry/registry.go as the object it is: the Registry's fields, and its
    critical sections as methods that update them in place. Each method is proved to
    compute the section function of RegistryCore that the machine interleaves. */
module RegistryObject {
  import opened Options
  import opened McpConfig
  import opened RegistryCore

  /** calculateBackoff: doubles until the cap is passed. */
  method CalculateBackoff(attempt: nat) returns (backoff: Time)
    requires attempt >= 1
    ensures backoff == Backoff(attempt)
    ensures backoff == (match attempt
                        case 1 => 1 case 2 => 2 case 3 => 4 case 4 => 8 case 5 => 16 case 6 => 32
                        case _ => 60) * 1_000_000_000
  {
    backoff := INITIAL_BACKOFF;
    var i := 1;
    while i < attempt
      invariant 1 <= i <= attempt
      invariant i <= 6 && backoff == INITIAL_BACKOFF * Pow2(i - 1)
      invariant backoff <= MAX_BACKOFF
    {
      backoff := backoff * 2;
      i := i + 1;
      PowersUpTo64();
      if backoff > MAX_BACKOFF {
        return MAX_BACKOFF;
      }
    }
    PowersUpTo64();
  }

  lemma PowersUpTo64()
    ensures Pow2(0) == 1 && Pow2(1) == 2 && Pow2(2) == 4 && Pow2(3) == 8
    ensures Pow2(4) == 16 && Pow2(5) == 32 && Pow2(6) == 64
  {
    assert Pow2(6) == 2 * Pow2(5) && Pow2(5) == 2 * Pow2(4) && Pow2(4) == 2 * Pow2(3);
  }

  /** The delays of the first k attempts add up to 2^k - 1 seconds until the cap is
      reached, and grow by a minute each after that. */
  function TotalBackoff(k: nat): Time
  {
    if k == 0 then 0 else TotalBackoff(k - 1) + Backoff(k)
  }

  lemma {:induction false} BackoffTotals(k: nat)
    ensures k <= 6 ==> TotalBackoff(k) == INITIAL_BACKOFF * (Pow2(k) - 1)
    ensures k > 6 ==> TotalBackoff(k) == INITIAL_BACKOFF * 63 + MAX_BACKOFF * (k - 6)
    ensures k >= 1 ==> Backoff(k) <= Backoff(k + 1) <= MAX_BACKOFF
  {
    PowersUpTo64();
    if k > 0 {
      BackoffTotals(k - 1);
    }
  }

  /** buildIndex: copies every list, applying the overrides, then adds the custom tools. */
  method BuildToolIndex(snapshot: Tools, provider: Provider) returns (byMCP: Tools)
    ensures byMCP == BuildIndex(snapshot, provider)
    ensures Shows(byMCP, snapshot, provider)
  {
    IndexShows(snapshot, provider);
    byMCP := map[];
    var todo := snapshot.Keys;
    while todo != {}
      invariant todo <= snapshot.Keys && byMCP.Keys == snapshot.Keys - todo
      invariant forall n <- byMCP :: byMCP[n] == IndexedTools(n, snapshot[n], provider)
      decreases todo
    {
      var n :| n in todo;
      var copied := [];
      for i := 0 to |snapshot[n]|
        invariant |copied| == i
        invariant forall j | 0 <= j < i :: copied[j] == IndexedTool(n, snapshot[n][j], provider)
      {
        var t := snapshot[n][i];
        if t.mcpName == "" {
          t := t.(mcpName := n);
        }
        if provider.Provider? && (n, t.name) in provider.overrides {
          t := t.(sourceDescription := t.description);
          t := t.(description := provider.overrides[(n, t.name)]);
        }
        copied := copied + [t];
      }
      byMCP := byMCP[n := copied];
      todo := todo - {n};
    }
    if provider.Provider? && |provider.customs| > 0 {
      var customTools := [];
      for i := 0 to |provider.customs|
        invariant |customTools| == i
        invariant forall j | 0 <= j < i :: customTools[j] == CustomEntry(provider.customs[j])
      {
        customTools := customTools + [CustomEntry(provider.customs[i])];
      }
      assert customTools == CustomEntries(provider.customs);
      byMCP := byMCP[CUSTOM_MCP := customTools];
    }
  }

  /** An override hides the server's own description in the index. UpstreamDescription
      recovers it exactly when there was one to save. */
  lemma UpstreamSurvivesTheIndex(mcp: Name, t: ToolInfo, p: Provider)
    requires t.sourceDescription == ""
    ensures IndexedTool(mcp, t, p).Upstream() == t.description <==>
      (p.Provider? && (mcp, t.name) in p.overrides && t.description == "" ==> p.overrides[(mcp, t.name)] == "")
  {
  }

  /** The tools of a cache entry, with nothing overridden. */
  ghost predicate Restores(tools: seq<ToolInfo>, cached: seq<CachedTool>)
  {
    && |tools| == |cached|
    && forall i | 0 <= i < |tools| ::
         var t, c := tools[i], cached[i];
         && t.name == c.name && t.description == c.description && t.mcpName == c.mcpName
         && t.schema == c.schema && t.sourceDescription == ""
  }

  /** The turns LoadCache's loop takes, in the order the map happens to be iterated. */
  function LoadAll(c: Core, order: seq<Name>, mcps: map<Name, MCPConfig>, file: map<Name, CacheEntry>): Core
    requires forall n <- order :: n in mcps
  {
    if order == [] then c
    else LoadOne(LoadAll(c, order[..|order| - 1], mcps, file), order[|order| - 1], mcps[order[|order| - 1]], file)
  }

  function LoadOne(c: Core, key: Name, cfg: MCPConfig, file: map<Name, CacheEntry>): Core
  {
    if cfg.isDynamic || key !in file || file[key].configHash != ConfigHash(cfg) then c
    else SetCached(c, cfg, FromCache(file[key].tools))
  }

  /** A cache load makes this name Cached: it is static, with an entry of the same hash, and
      has no live connection. */
  predicate IsHit(c: Core, n: Name, cfg: MCPConfig, file: map<Name, CacheEntry>)
  {
    !cfg.isDynamic && n in file && file[n].configHash == ConfigHash(cfg) && !IsConnected(c, n)
  }

  function Hits(c: Core, names: set<Name>, mcps: map<Name, MCPConfig>, file: map<Name, CacheEntry>): (r: set<Name>)
    ensures r <= names && r <= mcps.Keys && r <= file.Keys
  {
    set n <- names | n in mcps && IsHit(c, n, mcps[n], file)
  }

  /** Each hit is Cached with the tools of its entry; nothing else has changed. */
  function Loaded(c: Core, hits: set<Name>, mcps: map<Name, MCPConfig>, file: map<Name, CacheEntry>): Core
    requires hits <= mcps.Keys && hits <= file.Keys
  {
    c.(states := map n | n in c.states.Keys + hits ::
         if n in hits then McpState(mcps[n], Cached, false, 0, None) else c.states[n],
       tools := map n | n in c.tools.Keys + hits ::
         if n in hits then FromCache(file[n].tools) else c.tools[n])
  }

  ghost predicate Filed(mcps: map<Name, MCPConfig>)
  {
    forall n <- mcps :: mcps[n].name == n
  }

  lemma HitLoads(c: Core, hits: set<Name>, n: Name, mcps: map<Name, MCPConfig>, file: map<Name, CacheEntry>)
    requires hits <= mcps.Keys && hits <= file.Keys && n !in hits
    requires n in mcps && mcps[n].name == n && n in file && !IsConnected(c, n)
    ensures SetCached(Loaded(c, hits, mcps, file), mcps[n], FromCache(file[n].tools))
         == Loaded(c, hits + {n}, mcps, file)
  {
    hide FromCache;
    var l, m := Loaded(c, hits, mcps, file), Loaded(c, hits + {n}, mcps, file);
    assert l.states[n := McpState(mcps[n], Cached, false, 0, None)] == m.states;
    assert l.tools[n := FromCache(file[n].tools)] == m.tools;
  }

  lemma OneMoreHit(c: Core, done: set<Name>, n: Name, mcps: map<Name, MCPConfig>, file: map<Name, CacheEntry>)
    requires n in mcps && n !in done
    ensures Hits(c, done + {n}, mcps, file) ==
      if IsHit(c, n, mcps[n], file) then Hits(c, done, mcps, file) + {n} else Hits(c, done, mcps, file)
  {
    hide IsHit;
  }

  lemma OneMoreLoaded(c: Core, done: set<Name>, n: Name, mcps: map<Name, MCPConfig>, file: map<Name, CacheEntry>)
    requires n in mcps && mcps[n].name == n && n !in done
    ensures var l := Loaded(c, Hits(c, done, mcps, file), mcps, file);
      && LoadOne(l, n, mcps[n], file) == Loaded(c, Hits(c, done + {n}, mcps, file), mcps, file)
      && IsHit(l, n, mcps[n], file) == IsHit(c, n, mcps[n], file)
  {
    var before := Hits(c, done, mcps, file);
    var l := Loaded(c, before, mcps, file);
    OneMoreHit(c, done, n, mcps, file);
    assert n !in before && IsConnected(l, n) == IsConnected(c, n);
    hide Hits, ConfigHash, FromCache;
    if IsHit(c, n, mcps[n], file) {
      HitLoads(c, before, n, mcps, file);
    } else {
      hide Loaded;
      assert LoadOne(l, n, mcps[n], file) == l;
    }
  }

  lemma NothingLoaded(c: Core, mcps: map<Name, MCPConfig>, file: map<Name, CacheEntry>)
    ensures Hits(c, {}, mcps, file) == {} && Loaded(c, {}, mcps, file) == c
  {
  }

  /** How many of those turns make a name Cached. */
  function LoadCount(c: Core, order: seq<Name>, mcps: map<Name, MCPConfig>, file: map<Name, CacheEntry>): nat
    requires forall n <- order :: n in mcps
  {
    if order == [] then 0
    else
      var front, n := order[..|order| - 1], order[|order| - 1];
      LoadCount(c, front, mcps, file) + (if IsHit(LoadAll(c, front, mcps, file), n, mcps[n], file) then 1 else 0)
  }

  /** For configurations filed under their own names the turns, in whatever order, make
      exactly the hits Cached. */
  lemma {:induction false} LoadsTheHits(c: Core, order: seq<Name>, mcps: map<Name, MCPConfig>,
                                         file: map<Name, CacheEntry>)
    requires Filed(mcps) && (forall n <- order :: n in mcps)
    requires forall i, j | 0 <= i < j < |order| :: order[i] != order[j]
    ensures var hits := Hits(c, (set n <- order), mcps, file);
      && LoadAll(c, order, mcps, file) == Loaded(c, hits, mcps, file)
      && LoadCount(c, order, mcps, file) == |hits|
  {
    hide Hits, Loaded, LoadOne, IsHit;
    if order == [] {
      NothingLoaded(c, mcps, file);
      assert (set n <- order) == {};
    } else {
      var front, n := order[..|order| - 1], order[|order| - 1];
      LoadsTheHits(c, front, mcps, file);
      var done := set m <- front;
      assert n !in done;
      OneMoreLoaded(c, done, n, mcps, file);
      OneMoreHit(c, done, n, mcps, file);
      assert order == front + [n];
      assert (set m <- order) == done + {n};
    }
  }

  /** Exactly the static MCPs with an entry of the same hash and no live connection are
      Cached, with the tools of that entry; every other name is as it was. */
  ghost predicate CacheLoaded(was: Core, now: Core, mcps: map<Name, MCPConfig>, file: map<Name, CacheEntry>)
  {
    forall n: Name ::
      if n in mcps && !mcps[n].isDynamic && n in file && file[n].configHash == ConfigHash(mcps[n])
         && !(n in was.states && was.states[n].phase == Connected)
      then
        && n in now.states && now.states[n] == McpState(mcps[n], Cached, false, 0, None)
        && n in now.tools && Restores(now.tools[n], file[n].tools)
      else
        && (n in now.states <==> n in was.states) && (n in now.states ==> now.states[n] == was.states[n])
        && (n in now.tools <==> n in was.tools) && (n in now.tools ==> now.tools[n] == was.tools[n])
  }

  lemma HitsAreLoaded(c: Core, mcps: map<Name, MCPConfig>, file: map<Name, CacheEntry>)
    ensures CacheLoaded(c, Loaded(c, Hits(c, mcps.Keys, mcps, file), mcps, file), mcps, file)
  {
    hide ConfigHash, FromCache, Restores;
    forall n <- file ensures Restores(FromCache(file[n].tools), file[n].tools) { CacheRestores(file[n].tools); }
  }

  lemma CacheRestores(cached: seq<CachedTool>)
    ensures Restores(FromCache(cached), cached)
  {
  }

  class Registry {
    var connections: map<Name, Session>
    var states: map<Name, McpState>
    var tools: Tools
    var overrides: Provider
    var index: Tools
    var closed: bool
    var reconnecting: set<Name>

    ghost function View(): Core
      reads this
    {
      Core(connections, states, tools, overrides, index, closed, reconnecting)
    }

    /** States are filed under their own names, a Connected one has its connection and one
        in Error its time of failure; a closed registry has no connections. */
    ghost predicate Valid()
      reads this
    {
      && (forall n <- states ::
            && states[n].config.name == n
            && (states[n].phase == Connected ==> n in connections)
            && (states[n].phase == Errored ==> states[n].lastFailure.Some?))
      && (closed ==> connections == map[])
    }

    constructor ()
      ensures View() == Core(map[], map[], map[], NoProvider, BuildIndex(map[], NoProvider), false, {})
    {
      connections, states, tools, overrides := map[], map[], map[], NoProvider;
      index, closed, reconnecting := map[], false, {};
    }

    method SetConfigured(cfg: MCPConfig)
      requires Valid()
      modifies this`states
      ensures Valid()
      ensures View() == RegistryCore.SetConfigured(old(View()), cfg)
      ensures states == if cfg.name in old(states) then old(states)
                        else old(states)[cfg.name := McpState(cfg, Configured, false, 0, None)]
    {
      if cfg.name !in states {
        states := states[cfg.name := McpState(cfg, Configured, false, 0, None)];
      }
    }

    /** connectLocked: mark the name connecting, keeping its attempt counter. */
    method BeginConnect(cfg: MCPConfig) returns (prevAttempts: nat)
      requires Valid()
      modifies this`states
      ensures Valid()
      ensures View() == MarkConnecting(old(View()), cfg)
      ensures prevAttempts == if cfg.name in old(states) then old(states)[cfg.name].attempts else 0
      ensures states == old(states)[cfg.name := McpState(cfg, Connecting, false, prevAttempts, None)]
    {
      prevAttempts := 0;
      if cfg.name in states {
        prevAttempts := states[cfg.name].attempts;
      }
      states := states[cfg.name := McpState(cfg, Connecting, false, prevAttempts, None)];
    }

    /** connectLocked: the setError helper. */
    method FailConnect(cfg: MCPConfig, phase: Phase, prevAttempts: nat, now: Time)
      requires Valid() && (phase == Errored || phase == NeedsAuth)
      modifies this`states
      ensures Valid()
      ensures View() == SetError(old(View()), cfg, phase, prevAttempts, now)
      ensures states == old(states)[cfg.name := McpState(cfg, phase, false, prevAttempts, Some(now))]
    {
      states := states[cfg.name := McpState(cfg, phase, false, prevAttempts, Some(now))];
    }

    /** connectLocked: install connection, state and tools together. `toClose` is the
        session the caller must close: the late one, or the one it replaces. */
    method InstallConnection(cfg: MCPConfig, session: Session, listing: Option<seq<ToolInfo>>)
      returns (installed: bool, toClose: Option<Session>)
      requires Valid()
      modifies this`connections, this`states, this`tools
      ensures Valid()
      ensures View() == InstallSession(old(View()), cfg, session, listing)
      ensures installed == !old(closed)
      ensures !installed ==> connections == old(connections) && states == old(states) && tools == old(tools)
      ensures installed ==>
        && connections == old(connections)[cfg.name := session]
        && states == old(states)[cfg.name := McpState(cfg, Connected, listing.Some?, 0, None)]
        && tools == if listing.Some? then old(tools)[cfg.name := listing.value] else old(tools)
      ensures toClose == if !installed then Some(session)
                         else if cfg.name in old(connections) then Some(old(connections)[cfg.name]) else None
    {
      if closed {
        return false, Some(session);
      }
      toClose := if cfg.name in connections then Some(connections[cfg.name]) else None;
      connections := connections[cfg.name := session];
      states := states[cfg.name := McpState(cfg, Connected, listing.Some?, 0, None)];
      if listing.Some? {
        tools := tools[cfg.name := listing.value];
      }
      installed := true;
    }

    /** disconnectLocked, up to the close. */
    method TakeConnection(name: Name) returns (toClose: Option<Session>)
      requires Valid()
      modifies this`connections, this`states, this`tools
      ensures Valid()
      ensures View() == DropConnection(old(View()), name)
      ensures toClose.None? ==> connections == old(connections) && states == old(states) && tools == old(tools)
      ensures toClose.Some? ==>
        && connections == old(connections) - {name} && tools == old(tools) - {name}
        && states.Keys == old(states).Keys
        && forall n <- states :: var was := old(states)[n];
             states[n] == if n == name then McpState(was.config, Disconnected, false, was.attempts, None) else was
      ensures toClose == if name in old(connections) then Some(old(connections)[name]) else None
    {
      if name !in connections {
        return None;
      }
      toClose := Some(connections[name]);
      if name in states {
        var state := states[name];
        states := states[name := McpState(state.config, Disconnected, false, state.attempts, None)];
      }
      connections := connections - {name};
      tools := tools - {name};
    }

    /** Unregister, up to the close. */
    method Forget(name: Name) returns (found: bool, toClose: Option<Session>)
      requires Valid()
      modifies this`connections, this`states, this`tools
      ensures Valid()
      ensures View() == RemoveName(old(View()), name)
      ensures states == old(states) - {name}
      ensures found ==> connections == old(connections) - {name} && tools == old(tools) - {name}
      ensures !found ==> connections == old(connections) && tools == old(tools)
      ensures found == (name in old(states))
      ensures toClose == if found && name in old(connections) then Some(old(connections)[name]) else None
    {
      if name !in states {
        return false, None;
      }
      toClose := if name in connections then Some(connections[name]) else None;
      connections := connections - {name};
      tools := tools - {name};
      states := states - {name};
      found := true;
    }

    /** markConnectionFailed, up to the close. */
    method MarkConnectionFailed(name: Name, now: Time) returns (demoted: bool, toClose: Option<Session>)
      requires Valid()
      modifies this`connections, this`states, this`tools
      ensures Valid()
      ensures View() == MarkFailed(old(View()), name, now)
      ensures demoted == (name in old(states) && old(states)[name].phase == Connected)
      ensures !demoted ==> connections == old(connections) && states == old(states) && tools == old(tools)
      ensures demoted ==>
        && connections == old(connections) - {name} && tools == old(tools) - {name}
        && states == old(states)[name := McpState(old(states)[name].config, Errored, false, 0, Some(now))]
      ensures toClose == if demoted && name in old(connections) then Some(old(connections)[name]) else None
    {
      if name !in states || states[name].phase != Connected {
        return false, None;
      }
      toClose := if name in connections then Some(connections[name]) else None;
      states := states[name := McpState(states[name].config, Errored, false, 0, Some(now))];
      connections := connections - {name};
      tools := tools - {name};
      demoted := true;
    }

    method SetCachedLocked(cfg: MCPConfig, cached: seq<ToolInfo>) returns (changed: bool)
      requires Valid()
      modifies this`states, this`tools
      ensures Valid()
      ensures View() == SetCached(old(View()), cfg, cached)
      ensures changed == !(cfg.name in old(states) && old(states)[cfg.name].phase == Connected)
      ensures !changed ==> states == old(states) && tools == old(tools)
      ensures changed ==>
        && states == old(states)[cfg.name := McpState(cfg, Cached, false, 0, None)]
        && tools == old(tools)[cfg.name := cached]
    {
      if cfg.name in states && states[cfg.name].phase == Connected {
        return false;
      }
      states := states[cfg.name := McpState(cfg, Cached, false, 0, None)];
      tools := tools[cfg.name := cached];
      changed := true;
    }

    /** One turn of LoadCache's loop. */
    method LoadEntry(name: Name, cfg: MCPConfig, file: map<Name, CacheEntry>) returns (changed: bool)
      requires Valid()
      modifies this`states, this`tools
      ensures Valid()
      ensures View() == LoadOne(old(View()), name, cfg, file)
      ensures cfg.name == name ==> changed == IsHit(old(View()), name, cfg, file)
    {
      hide ConfigHash, FromCache;
      changed := false;
      if !cfg.isDynamic && name in file && file[name].configHash == ConfigHash(cfg) {
        changed := SetCachedLocked(cfg, FromCache(file[name].tools));
      }
    }

    /** LoadCache's loop, over the MCPs in whatever order the map is iterated. */
    method LoadEach(file: map<Name, CacheEntry>, mcps: map<Name, MCPConfig>)
      returns (loaded: nat, ghost order: seq<Name>)
      requires Valid()
      modifies this`states, this`tools
      ensures Valid()
      ensures (set n <- order) == mcps.Keys
      ensures forall i, j | 0 <= i < j < |order| :: order[i] != order[j]
      ensures View() == LoadAll(old(View()), order, mcps, file)
      ensures Filed(mcps) ==> loaded == LoadCount(old(View()), order, mcps, file)
    {
      hide LoadOne, IsHit;
      loaded, order := 0, [];
      var todo := mcps.Keys;
      while todo != {}
        invariant Valid()
        invariant todo <= mcps.Keys && forall n :: n in order <==> n in mcps && n !in todo
        invariant forall i, j | 0 <= i < j < |order| :: order[i] != order[j]
        invariant View() == LoadAll(old(View()), order, mcps, file)
        invariant Filed(mcps) ==> loaded == LoadCount(old(View()), order, mcps, file)
        decreases todo
      {
        var name :| name in todo;
        var cfg := mcps[name];
        assert (order + [name])[..|order|] == order;
        todo, order := todo - {name}, order + [name];
        var changed := LoadEntry(name, cfg, file);
        if changed {
          loaded := loaded + 1;
        }
      }
    }

    /** LoadCache's critical section. */
    method LoadCache(file: map<Name, CacheEntry>, mcps: map<Name, MCPConfig>)
      returns (loaded: nat, ghost order: seq<Name>)
      requires Valid()
      modifies this`states, this`tools
      ensures Valid()
      ensures (set n <- order) == mcps.Keys
      ensures forall i, j | 0 <= i < j < |order| :: order[i] != order[j]
      ensures View() == LoadAll(old(View()), order, mcps, file)
      ensures Filed(mcps) ==>
        var hits := Hits(old(View()), mcps.Keys, mcps, file);
        View() == Loaded(old(View()), hits, mcps, file) && loaded == |hits|
      ensures Filed(mcps) ==> CacheLoaded(old(View()), View(), mcps, file)
    {
      loaded, order := LoadEach(file, mcps);
      if Filed(mcps) {
        LoadsTheHits(old(View()), order, mcps, file);
        HitsAreLoaded(old(View()), mcps, file);
      }
      hide Hits, Loaded, CacheLoaded, LoadAll, LoadCount;
    }

    /** rebuildIndex without interference: snapshot, build, store. */
    method RebuildIndex()
      requires Valid()
      modifies this`index
      ensures Valid()
      ensures View() == old(View()).(index := BuildIndex(tools, overrides))
      ensures Shows(index, tools, overrides)
    {
      var idx := BuildToolIndex(tools, overrides);
      index := idx;
    }

    method SetOverrideProvider(p: Provider)
      requires Valid()
      modifies this`overrides, this`index
      ensures Valid()
      ensures View() == old(View()).(provider := p, index := BuildIndex(tools, p))
      ensures Shows(index, tools, p)
    {
      overrides := p;
      var idx := BuildToolIndex(tools, p);
      index := idx;
    }

    /** autoReconnectErrored's scan: the names it will spawn a goroutine for. */
    method ClaimErrored() returns (targets: set<Name>)
      requires Valid()
      modifies this`reconnecting
      ensures Valid()
      ensures targets == ScanTargets(old(View()))
      ensures View() == old(View()).(reconnecting := old(reconnecting) + targets)
      ensures forall n :: n in targets <==>
        && n in states && states[n].phase == Errored && states[n].config.maxRetries != -1
        && n !in old(reconnecting)
    {
      targets := {};
      var todo := states.Keys;
      while todo != {}
        invariant todo <= states.Keys
        invariant reconnecting == old(reconnecting) + targets
        invariant targets == ScanTargets(old(View())) - todo
        decreases todo
      {
        var name :| name in todo;
        todo := todo - {name};
        var st := states[name];
        if st.phase == Errored && st.config.maxRetries != -1 && name !in reconnecting {
          reconnecting := reconnecting + {name};
          targets := targets + {name};
        }
      }
    }

    /** Close's loop: every installed session is closed, in map order. */
    method CloseEach() returns (closes: seq<Session>, ghost order: seq<Name>)
      modifies this`states
      ensures states == Marked(old(states), connections.Keys)
      ensures ClosedInOrder(connections, connections.Keys, order, closes)
    {
      closes, order := [], [];
      var todo := connections.Keys;
      ghost var done: set<Name> := {};
      NoneMarked(states);
      NoneClosed(connections);
      hide Marked, ClosedInOrder;
      while todo != {}
        invariant todo !! done && todo + done == connections.Keys
        invariant ClosedInOrder(connections, done, order, closes)
        invariant states == Marked(old(states), done)
        decreases todo
      {
        var name :| name in todo;
        OneMoreMarked(old(states), done, name);
        OneMoreClosed(connections, done, name, order, closes);
        todo, done := todo - {name}, done + {name};
        closes := closes + [connections[name]];
        order := order + [name];
        if name in states {
          states := states[name := states[name].(phase := Disconnected)];
        }
      }
      assert done == connections.Keys;
    }

    /** Close: every installed session is closed, under the lock. */
    method Close() returns (closes: seq<Session>, ghost order: seq<Name>)
      requires Valid()
      modifies this`connections, this`states, this`closed
      ensures Valid()
      ensures View() == Shutdown(old(View()))
      ensures closed && connections == map[] && states.Keys == old(states).Keys
      ensures forall n <- states ::
        states[n] == (if n in old(connections) then old(states)[n].(phase := Disconnected) else old(states)[n])
      ensures ClosedInOrder(old(connections), old(connections).Keys, order, closes)
    {
      AllMarked(View());
      hide Marked, Shutdown, ClosedInOrder;
      closed := true;
      closes, order := CloseEach();
      connections := map[];
    }
  }

  /** The sessions of exactly these names, one a name, in this order. */
  ghost predicate ClosedInOrder(connections: map<Name, Session>, names: set<Name>, order: seq<Name>,
                                closes: seq<Session>)
  {
    && (set n <- order) == names && |order| == |closes|
    && (forall i | 0 <= i < |order| :: order[i] in connections && closes[i] == connections[order[i]])
    && (forall i, j | 0 <= i < j < |order| :: order[i] != order[j])
  }

  lemma NoneClosed(connections: map<Name, Session>)
    ensures ClosedInOrder(connections, {}, [], [])
  {
  }

  lemma OneMoreClosed(connections: map<Name, Session>, done: set<Name>, n: Name, order: seq<Name>,
                      closes: seq<Session>)
    requires ClosedInOrder(connections, done, order, closes) && n in connections && n !in done
    ensures ClosedInOrder(connections, done + {n}, order + [n], closes + [connections[n]])
  {
  }

  /** The states with these names Disconnected. */
  function Marked(states: map<Name, McpState>, names: set<Name>): (r: map<Name, McpState>)
    ensures r.Keys == states.Keys
  {
    map n | n in states :: if n in names then states[n].(phase := Disconnected) else states[n]
  }

  lemma NoneMarked(states: map<Name, McpState>)
    ensures Marked(states, {}) == states
  {
  }

  lemma OneMoreMarked(states: map<Name, McpState>, done: set<Name>, n: Name)
    ensures Marked(states, done + {n}) ==
      if n in states then Marked(states, done)[n := Marked(states, done)[n].(phase := Disconnected)]
      else Marked(states, done)
  {
  }

  lemma AllMarked(c: Core)
    requires forall n <- c.states :: c.states[n].phase == Connected ==> n in c.connections
    ensures Shutdown(c) == c.(closed := true, connections := map[], states := Marked(c.states, c.connections.Keys))
    ensures forall n <- c.states ::
      var st := Marked(c.states, c.connections.Keys)[n];
      st.phase in {c.states[n].phase, Disconnected} - {Connected} && st == c.states[n].(phase := st.phase)
  {
  }
}
