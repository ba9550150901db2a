/** internal/registry/registry.go: what each call does in the end, as steps of its goroutine
    taken one after the other from any state. RegistryTheorems says what stays true whatever
    runs between them. */
module RegistryCalls {
  import opened Options
  import opened McpConfig
  import opened RegistryCore
  import opened RegistryMachine
  import opened RegistryInvariants
  import opened RegistrySteps
  import opened RegistryTheorems
  import opened RegistryRetries

  // ---------------------------------------------------------------- steps in a row

  /** That many steps of g, all of them enabled, lead from s to t. */
  ghost predicate Leads(s: State, g: Gid, steps: nat, t: State)
    decreases steps
  {
    if steps == 0 then s == t else CanAdvance(s, g) && Leads(StepAdvance(s, g), g, steps - 1, t)
  }

  lemma OneStep(s: State, g: Gid)
    requires CanAdvance(s, g)
    ensures Leads(s, g, 1, StepAdvance(s, g))
  {
    assert Leads(StepAdvance(s, g), g, 0, StepAdvance(s, g));
    hide StepAdvance, CanAdvance;
  }

  lemma {:induction false} LeadsOn(s: State, g: Gid, j: nat, t: State, k: nat, u: State)
    requires Leads(s, g, j, t) && Leads(t, g, k, u)
    ensures Leads(s, g, j + k, u)
    decreases j
  {
    hide StepAdvance, CanAdvance;
    if j > 0 {
      LeadsOn(StepAdvance(s, g), g, j - 1, t, k, u);
    }
  }

  lemma NextIsAdvance(s: State, g: Gid)
    requires CanAdvance(s, g)
    ensures Enabled(s, Advance(g)) && Next(s, Advance(g)) == StepAdvance(s, g)
  {
    hide StepAdvance, CanAdvance;
  }

  // ---------------------------------------------------------------- EnsureConnected

  /** Nothing connected it yet, or its last failure is 30 seconds old. */
  predicate Due(c: Core, n: Name, now: Time)
  {
    n in c.states &&
    var st := c.states[n];
    || st.phase == Cached || st.phase == Configured
    || (st.phase == Errored && st.lastFailure.Some? && st.lastFailure.value + 30_000_000_000 <= now)
  }

  /** What the step reads of the name. */
  ghost predicate Dated(s: State, n: Name)
  {
    n in s.core.states ==>
      && s.core.states[n].config.name == n
      && (s.core.states[n].phase == Errored ==> s.core.states[n].lastFailure.Some?)
  }

  lemma ReachableDates(s: State, n: Name)
    requires Reachable(s)
    ensures Dated(s, n)
  {
    ReachableInv(s);
    assert NameInv(s, n);
    hide SemInv, SessionInv, IndexInv, AutoInv, LocalInv, ReportsInv, FileBacked, Reported, Restored;
  }

  /** EnsureConnected goes for the semaphore exactly when the name is due, or being connected. */
  lemma EnsureConnectedWaits(s: State, g: Gid, n: Name)
    requires Reachable(s) && s.PcOf(g) == PreCheck(n)
    ensures CanAdvance(s, g)
    ensures StepAdvance(s, g) == s.At(g,
      if Due(s.core, n, s.now) || (n in s.core.states && s.core.states[n].phase == Connecting)
      then Wait(n, OpEnsure) else IDLE)
  {
    ReachableDates(s, n);
    hide Reachable;
  }

  lemma Rechecks(s: State, g: Gid, n: Name)
    requires Reachable(s) && s.PcOf(g) == Recheck(n)
    ensures Leads(s, g, 1,
      s.At(g, Go(if Due(s.core, n, s.now) then Begin(s.core.states[n].config, Lazy) else Release(n, false))))
  {
    ReachableDates(s, n);
    OneStep(s, g);
    hide Reachable, Leads;
  }

  /** A goroutine about to dial marks the name Connecting, and carries its counter over. */
  function Connects(s: State, g: Gid, cfg: MCPConfig, goal: Goal): State
  {
    var count := if cfg.name in s.core.states then s.core.states[cfg.name].attempts else 0;
    s.(core := s.core.(states := s.core.states[cfg.name := McpState(cfg, Connecting, false, count, None)]))
     .At(g, Dial(cfg, count, goal))
  }

  // Where g stood makes no difference to what it does next.

  lemma ConnectsFromAnywhere(s: State, g: Gid, pc: Pc, cfg: MCPConfig, goal: Goal)
    ensures Connects(s.At(g, pc), g, cfg, goal) == Connects(s, g, cfg, goal)
  {
  }

  lemma Begins(s: State, g: Gid, cfg: MCPConfig, goal: Goal)
    requires s.PcOf(g) == Go(Begin(cfg, goal)) && !goal.Retry?
    ensures Leads(s, g, 1, Connects(s, g, cfg, goal))
  {
    OneStep(s, g);
    hide Leads;
  }

  lemma Releases(s: State, g: Gid, n: Name)
    requires s.PcOf(g) == Go(Release(n, false))
    ensures Leads(s, g, 1, s.(sem := s.sem - {n}).At(g, IDLE))
  {
    OneStep(s, g);
    hide Leads;
  }

  /** With it, EnsureConnected dials the name's own configuration exactly when the name is
      due; otherwise it gives the semaphore back and is done. */
  lemma EnsureConnectedDials(s: State, g: Gid, n: Name)
    requires Reachable(s) && s.PcOf(g) == Recheck(n)
    ensures Leads(s, g, 2,
      if Due(s.core, n, s.now) then Connects(s, g, s.core.states[n].config, Lazy)
      else s.(sem := s.sem - {n}).At(g, IDLE))
  {
    Rechecks(s, g, n);
    var t := s.At(g, Go(if Due(s.core, n, s.now) then Begin(s.core.states[n].config, Lazy) else Release(n, false)));
    hide Leads, Connects, Reachable;
    if Due(s.core, n, s.now) {
      var cfg := s.core.states[n].config;
      Begins(t, g, cfg, Lazy);
      ConnectsFromAnywhere(s, g, Go(Begin(cfg, Lazy)), cfg, Lazy);
      LeadsOn(s, g, 1, t, 1, Connects(t, g, cfg, Lazy));
    } else {
      Releases(t, g, n);
      var u := t.(sem := t.sem - {n}).At(g, IDLE);
      assert u == s.(sem := s.sem - {n}).At(g, IDLE);
      LeadsOn(s, g, 1, t, 1, u);
    }
  }

  // ---------------------------------------------------------------- closing and rebuilding

  /** The index is rebuilt from what is there, and g goes on. */
  function Rebuilt(s: State, g: Gid, k: Cont): State
  {
    s.(core := s.core.(index := BuildIndex(s.core.tools, s.core.provider))).At(g, Go(k))
  }

  lemma RebuiltFromAnywhere(s: State, g: Gid, pc: Pc, k: Cont)
    ensures Rebuilt(s.At(g, pc), g, k) == Rebuilt(s, g, k)
    ensures Rebuilt(s, g, k) == Rebuilt(s, g, Done).At(g, Go(k))
  {
    hide BuildIndex;
  }

  lemma Snapshots(s: State, g: Gid, k: Cont)
    requires s.PcOf(g) == Snapshot(k)
    ensures Leads(s, g, 1, s.At(g, Publish(s.core.tools, s.core.provider, k)))
  {
    hide Leads;
    OneStep(s, g);
  }

  lemma Publishes(s: State, g: Gid, tools: Tools, p: Provider, k: Cont)
    requires s.PcOf(g) == Publish(tools, p, k)
    ensures Leads(s, g, 1, s.(core := s.core.(index := BuildIndex(tools, p)), rebuildMu := None).At(g, Go(k)))
  {
    hide Leads, BuildIndex;
    OneStep(s, g);
  }

  lemma Shuts(s: State, g: Gid, x: Session, rebuild: bool, k: Cont)
    requires s.PcOf(g) == Shut(x, rebuild, k)
    ensures Leads(s, g, 1, s.(closes := s.closes + [x]).At(g, if rebuild then Rebuild(k) else Go(k)))
  {
    hide Leads;
    OneStep(s, g);
  }

  lemma TakesRebuildMu(s: State, g: Gid, k: Cont)
    requires s.PcOf(g) == Rebuild(k) && s.rebuildMu.None?
    ensures Leads(s, g, 1, s.(rebuildMu := Some(g)).At(g, Snapshot(k)))
  {
    hide Leads;
    OneStep(s, g);
  }

  lemma RebuildsTheIndex(s: State, g: Gid, k: Cont)
    requires s.PcOf(g) == Rebuild(k) && s.rebuildMu.None?
    ensures Leads(s, g, 3, Rebuilt(s, g, k))
  {
    hide Leads, BuildIndex;
    var t, pc := s.(rebuildMu := Some(g)).At(g, Snapshot(k)), Publish(s.core.tools, s.core.provider, k);
    TakesRebuildMu(s, g, k);
    Snapshots(t, g, k);
    Publishes(t.At(g, pc), g, pc.tools, pc.provider, k);
    assert t.At(g, pc).(core := s.core.(index := BuildIndex(pc.tools, pc.provider)), rebuildMu := None).At(g, Go(k))
        == Rebuilt(s, g, k);
    LeadsOn(s, g, 1, t, 1, t.At(g, pc));
    LeadsOn(s, g, 2, t.At(g, pc), 1, Rebuilt(s, g, k));
  }

  /** A session taken out of the map is closed first. */
  lemma ClosesAndRebuilds(s: State, g: Gid, x: Session, k: Cont)
    requires s.PcOf(g) == Shut(x, true, k) && s.rebuildMu.None?
    ensures Leads(s, g, 4, Rebuilt(s.(closes := s.closes + [x]), g, k))
  {
    hide Leads, Rebuilt;
    var t := s.(closes := s.closes + [x]);
    Shuts(s, g, x, true, k);
    RebuildsTheIndex(t.At(g, Rebuild(k)), g, k);
    RebuiltFromAnywhere(t, g, Rebuild(k), k);
    LeadsOn(s, g, 1, t.At(g, Rebuild(k)), 3, Rebuilt(t, g, k));
  }

  // ---------------------------------------------------------------- taking a semaphore

  /** The call holds the semaphore and stands at pc. */
  function Entered(s: State, g: Gid, n: Name, pc: Pc): State
  {
    s.(sem := s.sem[n := g]).At(g, pc)
  }

  lemma Enters(s: State, g: Gid, n: Name, op: Op)
    requires s.PcOf(g) == Wait(n, op) && n !in s.sem
    ensures Leads(s, g, 1, Entered(s, g, n, Entry(n, op)))
  {
    hide Leads;
    OneStep(s, g);
  }

  /** The call is over and holds nothing. */
  function Over(s: State, g: Gid): State
  {
    s.At(g, IDLE)
  }

  lemma LeavesAgain(s: State, t: State, g: Gid, n: Name)
    requires n !in s.sem && t.sem == s.sem[n := g] && t.PcOf(g) == Go(Release(n, false)) && g in t.pcs
    ensures Leads(t, g, 1, Over(t.(sem := s.sem), g))
  {
    hide Leads, StepAdvance, CanAdvance;
    Releases(t, g, n);
    assert t.sem - {n} == s.sem;
  }

  /** EnsureConnected from its wait on: it dials when the name is due, and changes nothing
      otherwise. */
  lemma EnsureConnectedRuns(s: State, g: Gid, n: Name)
    requires Reachable(s) && s.PcOf(g) == Wait(n, OpEnsure) && n !in s.sem
    ensures Leads(s, g, 3,
      if Due(s.core, n, s.now) then Connects(s.(sem := s.sem[n := g]), g, s.core.states[n].config, Lazy)
      else Over(s, g))
  {
    hide Leads, Connects;
    var t := Entered(s, g, n, Recheck(n));
    Enters(s, g, n, OpEnsure);
    StaysReachable(s, g, t);
    EnsureConnectedDials(t, g, n);
    assert s.sem[n := g] - {n} == s.sem;
    if Due(s.core, n, s.now) {
      var cfg := s.core.states[n].config;
      ConnectsFromAnywhere(s.(sem := s.sem[n := g]), g, Recheck(n), cfg, Lazy);
      LeadsOn(s, g, 1, t, 2, Connects(t, g, cfg, Lazy));
    } else {
      assert t.(sem := t.sem - {n}).At(g, IDLE) == Over(s, g);
      LeadsOn(s, g, 1, t, 2, Over(s, g));
    }
  }

  lemma StaysReachable(s: State, g: Gid, t: State)
    requires Reachable(s) && Leads(s, g, 1, t)
    ensures Reachable(t)
  {
    assert Leads(StepAdvance(s, g), g, 0, t);
    NextIsAdvance(s, g);
    hide Next, Enabled, StepAdvance, CanAdvance;
    var events :| IsRun(INITIAL, events) && Run(INITIAL, events) == s;
    RunOneMore(INITIAL, events, Advance(g));
  }

  lemma {:induction false} RunOneMore(s: State, events: seq<Event>, e: Event)
    requires IsRun(s, events) && Enabled(Run(s, events), e)
    ensures IsRun(s, events + [e]) && Run(s, events + [e]) == Next(Run(s, events), e)
    decreases events
  {
    hide Next, Enabled;
    var all := events + [e];
    if events == [] {
      assert all == [e] && all[1..] == [];
      assert IsRun(Next(s, e), []) && Run(Next(s, e), []) == Next(s, e);
    } else {
      RunOneMore(Next(s, events[0]), events[1..], e);
      assert all[0] == events[0] && all[1..] == events[1..] + [e];
    }
  }

  /** Connect takes the semaphore and dials the configuration it was given. */
  lemma ConnectDials(s: State, g: Gid, cfg: MCPConfig)
    requires s.PcOf(g) == Wait(cfg.name, OpConnect(cfg)) && cfg.name !in s.sem
    ensures Leads(s, g, 2, Connects(s.(sem := s.sem[cfg.name := g]), g, cfg, Explicit))
  {
    hide Leads, StepAdvance, CanAdvance;
    var t := Entered(s, g, cfg.name, Go(Begin(cfg, Explicit)));
    Enters(s, g, cfg.name, OpConnect(cfg));
    Begins(t, g, cfg, Explicit);
    assert Connects(t, g, cfg, Explicit) == Connects(s.(sem := s.sem[cfg.name := g]), g, cfg, Explicit);
    LeadsOn(s, g, 1, t, 1, Connects(t, g, cfg, Explicit));
  }

  // ---------------------------------------------------------------- Disconnect and Reconnect

  /** n's connection and tools are gone and its session is closed; a known name keeps its
      configuration and counter. */
  function Dropped(s: State, n: Name): State
    requires n in s.core.connections
  {
    var states := if n !in s.core.states then s.core.states
      else
        var st := s.core.states[n];
        s.core.states[n := McpState(st.config, Disconnected, false, st.attempts, None)];
    s.(core := s.core.(connections := s.core.connections - {n}, tools := s.core.tools - {n}, states := states),
       closes := s.closes + [s.core.connections[n]])
  }

  lemma DroppedFromAnywhere(s: State, g: Gid, pc: Pc, n: Name)
    requires n in s.core.connections
    ensures Dropped(s.At(g, pc), n) == Dropped(s, n).At(g, pc)
  {
  }

  lemma TakesConnection(s: State, g: Gid, n: Name, k: Cont)
    requires s.PcOf(g) == Drop(n, k) && n in s.core.connections
    ensures Leads(s, g, 1, Dropped(s, n).(closes := s.closes).At(g, Shut(s.core.connections[n], true, k)))
  {
    hide Leads;
    OneStep(s, g);
  }

  lemma Drops(s: State, g: Gid, n: Name, k: Cont)
    requires s.PcOf(g) == Drop(n, k) && n in s.core.connections && s.rebuildMu.None?
    ensures Leads(s, g, 5, Rebuilt(Dropped(s, n), g, k))
  {
    hide Leads, Rebuilt;
    var x, after := s.core.connections[n], Dropped(s, n);
    var t := after.(closes := s.closes).At(g, Shut(x, true, k));
    TakesConnection(s, g, n, k);
    ClosesAndRebuilds(t, g, x, k);
    assert t.(closes := t.closes + [x]) == after.At(g, Shut(x, true, k));
    RebuiltFromAnywhere(after, g, Shut(x, true, k), k);
    LeadsOn(s, g, 1, t, 4, Rebuilt(after, g, k));
  }

  lemma NothingToDrop(s: State, g: Gid, n: Name, k: Cont)
    requires s.PcOf(g) == Drop(n, k) && n !in s.core.connections
    ensures Leads(s, g, 1, s.At(g, Go(k)))
  {
    hide Leads;
    OneStep(s, g);
  }

  lemma DropsInside(s: State, g: Gid, n: Name)
    requires n in s.core.connections && n !in s.sem
    ensures var t := Entered(s, g, n, Drop(n, Release(n, false)));
      && t.PcOf(g) == Drop(n, Release(n, false)) && n in t.core.connections && t.rebuildMu == s.rebuildMu
      && var u := Rebuilt(Dropped(t, n), g, Release(n, false));
         && u.sem == s.sem[n := g] && u.PcOf(g) == Go(Release(n, false)) && g in u.pcs
         && Over(u.(sem := s.sem), g) == Rebuilt(Dropped(s, n), g, Done)
  {
    hide BuildIndex;
  }

  lemma NothingInside(s: State, g: Gid, n: Name, pc: Pc)
    ensures var t := Entered(s, g, n, pc);
      && t.PcOf(g) == pc && t.core == s.core && t.rebuildMu == s.rebuildMu
      && var u := t.At(g, Go(Release(n, false)));
         && u.sem == s.sem[n := g] && u.PcOf(g) == Go(Release(n, false)) && g in u.pcs
         && Over(u.(sem := s.sem), g) == Over(s, g)
  {
  }

  /** Disconnect takes a connection out, closes its session and rebuilds the index; without
      one it changes nothing. */
  lemma DisconnectDrops(s: State, g: Gid, n: Name)
    requires s.PcOf(g) == Wait(n, OpDisconnect) && n !in s.sem && s.rebuildMu.None?
    ensures n in s.core.connections ==> Leads(s, g, 7, Rebuilt(Dropped(s, n), g, Done))
    ensures n !in s.core.connections ==> Leads(s, g, 3, Over(s, g))
  {
    hide Leads, Rebuilt, Dropped, Over, Entered;
    var t := Entered(s, g, n, Drop(n, Release(n, false)));
    Enters(s, g, n, OpDisconnect);
    NothingInside(s, g, n, Drop(n, Release(n, false)));
    if n in s.core.connections {
      DropsInside(s, g, n);
      Drops(t, g, n, Release(n, false));
      var u := Rebuilt(Dropped(t, n), g, Release(n, false));
      LeadsOn(s, g, 1, t, 5, u);
      LeavesAgain(s, u, g, n);
      LeadsOn(s, g, 6, u, 1, Over(u.(sem := s.sem), g));
    } else {
      NothingToDrop(t, g, n, Release(n, false));
      var u := t.At(g, Go(Release(n, false)));
      LeadsOn(s, g, 1, t, 1, u);
      LeavesAgain(s, u, g, n);
      LeadsOn(s, g, 2, u, 1, Over(s, g));
    }
  }

  lemma ReadsConfig(s: State, g: Gid, n: Name, goal: Goal)
    requires s.PcOf(g) == ReadConfig(n, goal)
    ensures n in s.core.states ==> Leads(s, g, 1, s.At(g, Drop(n, Begin(s.core.states[n].config, goal))))
    ensures n !in s.core.states && goal.Relogin? ==> Leads(s, g, 1, s.At(g, Go(Release(n, false))))
  {
    hide Leads;
    OneStep(s, g);
  }

  lemma EnteredTwice(s: State, g: Gid, n: Name, pc: Pc, next: Pc)
    ensures Entered(s, g, n, pc).At(g, next) == Entered(s, g, n, next)
  {
  }

  /** Reconnect drops what is connected and dials the name's own configuration; an unknown
      name is left alone. */
  lemma ReconnectDials(s: State, g: Gid, n: Name)
    requires s.PcOf(g) == Wait(n, OpReconnect) && n !in s.sem && s.rebuildMu.None?
    ensures n !in s.core.states ==> Leads(s, g, 3, Over(s, g))
    ensures n in s.core.states ==>
      var t, cfg := s.(sem := s.sem[n := g]), s.core.states[n].config;
      if n in s.core.connections then Leads(s, g, 8, Connects(Rebuilt(Dropped(t, n), g, Done), g, cfg, Relogin))
      else Leads(s, g, 4, Connects(t, g, cfg, Relogin))
  {
    hide Leads, BuildIndex, Connects, Rebuilt, Dropped, Over, Entered;
    var t := Entered(s, g, n, ReadConfig(n, Relogin));
    Enters(s, g, n, OpReconnect);
    NothingInside(s, g, n, ReadConfig(n, Relogin));
    ReadsConfig(t, g, n, Relogin);
    if n !in s.core.states {
      var u := t.At(g, Go(Release(n, false)));
      LeadsOn(s, g, 1, t, 1, u);
      LeavesAgain(s, u, g, n);
      LeadsOn(s, g, 2, u, 1, Over(s, g));
    } else {
      var pc := Drop(n, Begin(s.core.states[n].config, Relogin));
      EnteredTwice(s, g, n, ReadConfig(n, Relogin), pc);
      LeadsOn(s, g, 1, t, 1, Entered(s, g, n, pc));
      ReconnectRedials(s, g, n, Entered(s, g, n, pc));
    }
  }

  lemma DropsThenDials(u: State, t: State, g: Gid, n: Name, cfg: MCPConfig)
    requires u == t.At(g, Drop(n, Begin(cfg, Relogin)))
    ensures n in t.core.connections ==>
      var v := Rebuilt(Dropped(u, n), g, Begin(cfg, Relogin));
      && v.PcOf(g) == Go(Begin(cfg, Relogin))
      && Connects(v, g, cfg, Relogin) == Connects(Rebuilt(Dropped(t, n), g, Done), g, cfg, Relogin)
    ensures Connects(u.At(g, Go(Begin(cfg, Relogin))), g, cfg, Relogin) == Connects(t, g, cfg, Relogin)
  {
    hide BuildIndex, Connects, Rebuilt, Dropped;
    var k := Begin(cfg, Relogin);
    if n in t.core.connections {
      DroppedFromAnywhere(t, g, Drop(n, k), n);
      RebuiltFromAnywhere(Dropped(t, n), g, Drop(n, k), k);
      ConnectsFromAnywhere(Rebuilt(Dropped(t, n), g, Done), g, Go(k), cfg, Relogin);
    }
    ConnectsFromAnywhere(t, g, Drop(n, k), cfg, Relogin);
    ConnectsFromAnywhere(u, g, Go(k), cfg, Relogin);
  }

  lemma ReconnectRedials(s: State, g: Gid, n: Name, u: State)
    requires Leads(s, g, 2, u) && n in s.core.states && s.rebuildMu.None?
    requires u == Entered(s, g, n, Drop(n, Begin(s.core.states[n].config, Relogin)))
    ensures var t, cfg := s.(sem := s.sem[n := g]), s.core.states[n].config;
      if n in s.core.connections then Leads(s, g, 8, Connects(Rebuilt(Dropped(t, n), g, Done), g, cfg, Relogin))
      else Leads(s, g, 4, Connects(t, g, cfg, Relogin))
  {
    hide Leads, Rebuilt, Dropped, Connects;
    var t, cfg := s.(sem := s.sem[n := g]), s.core.states[n].config;
    assert u == t.At(g, Drop(n, Begin(cfg, Relogin)));
    DropsThenDials(u, t, g, n, cfg);
    if n in s.core.connections {
      var v := Rebuilt(Dropped(u, n), g, Begin(cfg, Relogin));
      Drops(u, g, n, Begin(cfg, Relogin));
      LeadsOn(s, g, 2, u, 5, v);
      Begins(v, g, cfg, Relogin);
      LeadsOn(s, g, 7, v, 1, Connects(v, g, cfg, Relogin));
    } else {
      var v := u.At(g, Go(Begin(cfg, Relogin)));
      NothingToDrop(u, g, n, Begin(cfg, Relogin));
      LeadsOn(s, g, 2, u, 1, v);
      Begins(v, g, cfg, Relogin);
      LeadsOn(s, g, 3, v, 1, Connects(v, g, cfg, Relogin));
    }
  }

  // ---------------------------------------------------------------- Unregister

  /** Nothing of n is left but a cache entry. */
  function Forgotten(s: State, n: Name): State
  {
    s.(core := s.core.(connections := s.core.connections - {n}, states := s.core.states - {n},
                       tools := s.core.tools - {n}),
       closes := if n in s.core.connections then s.closes + [s.core.connections[n]] else s.closes,
       cooling := s.cooling - {n})
  }

  lemma RemovesFirst(s: State, g: Gid, n: Name, k: Cont)
    requires s.PcOf(g) == Remove(n) && n in s.core.states && k == Release(n, false)
    ensures Leads(s, g, 1, Forgotten(s, n).(closes := s.closes)
      .At(g, if n in s.core.connections then Shut(s.core.connections[n], true, k) else Rebuild(k)))
  {
    hide Leads;
    OneStep(s, g);
  }

  lemma Removes(s: State, g: Gid, n: Name, k: Cont)
    requires s.PcOf(g) == Remove(n) && n in s.core.states && s.rebuildMu.None? && k == Release(n, false)
    ensures Leads(s, g, if n in s.core.connections then 5 else 4, Rebuilt(Forgotten(s, n), g, k))
  {
    hide Leads, Rebuilt;
    var after := Forgotten(s, n);
    RemovesFirst(s, g, n, k);
    if n in s.core.connections {
      var x := s.core.connections[n];
      var t := after.(closes := s.closes).At(g, Shut(x, true, k));
      ClosesAndRebuilds(t, g, x, k);
      assert t.(closes := t.closes + [x]) == after.At(g, Shut(x, true, k));
      RebuiltFromAnywhere(after, g, Shut(x, true, k), k);
      LeadsOn(s, g, 1, t, 4, Rebuilt(after, g, k));
    } else {
      assert after.(closes := s.closes) == after;
      RebuildsTheIndex(after.At(g, Rebuild(k)), g, k);
      RebuiltFromAnywhere(after, g, Rebuild(k), k);
      LeadsOn(s, g, 1, after.At(g, Rebuild(k)), 3, Rebuilt(after, g, k));
    }
  }

  lemma RemovesInside(s: State, g: Gid, n: Name)
    requires n !in s.sem
    ensures var t := Entered(s, g, n, Remove(n));
      var u := Rebuilt(Forgotten(t, n), g, Release(n, false));
      && t.PcOf(g) == Remove(n)
      && u.sem == s.sem[n := g] && u.PcOf(g) == Go(Release(n, false)) && g in u.pcs
      && Over(u.(sem := s.sem), g) == Rebuilt(Forgotten(s, n), g, Done)
  {
    hide BuildIndex;
  }

  lemma UnknownIsLeft(s: State, g: Gid, n: Name)
    requires s.PcOf(g) == Remove(n) && n !in s.core.states
    ensures Leads(s, g, 1, s.At(g, Go(Release(n, false))))
  {
    hide Leads;
    OneStep(s, g);
  }

  /** Unregister removes a known name altogether, closes its session and rebuilds the index. */
  lemma UnregisterForgets(s: State, g: Gid, n: Name)
    requires s.PcOf(g) == Wait(n, OpUnregister) && n !in s.sem && s.rebuildMu.None?
    ensures n in s.core.states ==>
      Leads(s, g, if n in s.core.connections then 7 else 6, Rebuilt(Forgotten(s, n), g, Done))
    ensures n !in s.core.states ==> Leads(s, g, 3, Over(s, g))
  {
    hide Leads, Rebuilt, Forgotten, Over, Entered;
    var t := Entered(s, g, n, Remove(n));
    Enters(s, g, n, OpUnregister);
    NothingInside(s, g, n, Remove(n));
    if n in s.core.states {
      RemovesInside(s, g, n);
      var steps := if n in s.core.connections then 5 else 4;
      var u := Rebuilt(Forgotten(t, n), g, Release(n, false));
      Removes(t, g, n, Release(n, false));
      LeadsOn(s, g, 1, t, steps, u);
      LeavesAgain(s, u, g, n);
      LeadsOn(s, g, 1 + steps, u, 1, Over(u.(sem := s.sem), g));
    } else {
      var u := t.At(g, Go(Release(n, false)));
      UnknownIsLeft(t, g, n);
      LeadsOn(s, g, 1, t, 1, u);
      LeavesAgain(s, u, g, n);
      LeadsOn(s, g, 2, u, 1, Over(s, g));
    }
  }

  // ---------------------------------------------------------------- how a dial ends

  /** A listed tool is kept as it was reported, under the MCP's name. */
  ghost predicate Keeps(tools: seq<ToolInfo>, n: Name, listed: seq<ListedTool>)
  {
    && |tools| == |listed|
    && forall i | 0 <= i < |tools| ::
         var t, l := tools[i], listed[i];
         && t.name == l.name && t.description == l.description && t.schema == l.schema
         && t.mcpName == n && t.sourceDescription == ""
  }

  lemma ListingIsKept(s: State, g: Gid, cfg: MCPConfig, x: Session, goal: Goal, listed: Option<seq<ListedTool>>)
    requires s.PcOf(g) == Listing(cfg, x, goal)
    ensures var t := Next(s, Listed(g, listed));
      && t.PcOf(g).Install? && t.PcOf(g).cfg == cfg && t.PcOf(g).session == x && t.PcOf(g).goal == goal
      && (t.PcOf(g).listing.None? <==> listed.None?)
      && (listed.Some? ==> Keeps(t.PcOf(g).listing.value, cfg.name, listed.value))
      && t.core == s.core
  {
  }

  /** The session is installed, with its tools if they could be listed. */
  function Installed(s: State, cfg: MCPConfig, x: Session, listing: Option<seq<ToolInfo>>): State
  {
    var n := cfg.name;
    s.(core := s.core.(connections := s.core.connections[n := x],
                       states := s.core.states[n := McpState(cfg, Connected, listing.Some?, 0, None)],
                       tools := if listing.Some? then s.core.tools[n := listing.value] else s.core.tools),
       closes := if n in s.core.connections then s.closes + [s.core.connections[n]] else s.closes,
       cooling := s.cooling - {n})
  }

  /** What connectLocked's caller does once it returns. */
  lemma InstallsFirst(s: State, g: Gid, cfg: MCPConfig, x: Session, listing: Option<seq<ToolInfo>>, goal: Goal)
    requires s.PcOf(g) == Install(cfg, x, listing, goal) && !s.core.closed
    ensures var n, k := cfg.name, After(cfg.name, true, goal);
      Leads(s, g, 1, Installed(s, cfg, x, listing).(closes := s.closes)
        .At(g, if n in s.core.connections then Shut(s.core.connections[n], true, k) else Rebuild(k)))
  {
    hide Leads, After;
    OneStep(s, g);
  }

  lemma Installs(s: State, g: Gid, cfg: MCPConfig, x: Session, listing: Option<seq<ToolInfo>>, goal: Goal)
    requires s.PcOf(g) == Install(cfg, x, listing, goal) && !s.core.closed && s.rebuildMu.None?
    ensures Leads(s, g, if cfg.name in s.core.connections then 5 else 4,
      Rebuilt(Installed(s, cfg, x, listing), g, After(cfg.name, true, goal)))
  {
    hide Leads, BuildIndex, After, Rebuilt;
    var n, k, after := cfg.name, After(cfg.name, true, goal), Installed(s, cfg, x, listing);
    InstallsFirst(s, g, cfg, x, listing, goal);
    if n in s.core.connections {
      var y := s.core.connections[n];
      var t := after.(closes := s.closes).At(g, Shut(y, true, k));
      ClosesAndRebuilds(t, g, y, k);
      assert t.(closes := t.closes + [y]) == after.At(g, Shut(y, true, k));
      RebuiltFromAnywhere(after, g, Shut(y, true, k), k);
      LeadsOn(s, g, 1, t, 4, Rebuilt(after, g, k));
    } else {
      var t := after.At(g, Rebuild(k));
      RebuildsTheIndex(t, g, k);
      assert after.(closes := s.closes) == after;
      RebuiltFromAnywhere(after, g, Rebuild(k), k);
      LeadsOn(s, g, 1, t, 3, Rebuilt(after, g, k));
    }
  }

  /** Connect ends with the session installed. */
  lemma ConnectInstalls(s: State, g: Gid, cfg: MCPConfig, x: Session, listing: Option<seq<ToolInfo>>)
    requires s.PcOf(g) == Install(cfg, x, listing, Explicit) && !s.core.closed && s.rebuildMu.None?
    ensures Leads(s, g, if cfg.name in s.core.connections then 6 else 5,
      Rebuilt(Installed(s, cfg, x, listing), g, Done).(sem := s.sem - {cfg.name}))
  {
    hide Leads, BuildIndex, StepAdvance, CanAdvance;
    var steps := if cfg.name in s.core.connections then 5 else 4;
    var t := Rebuilt(Installed(s, cfg, x, listing), g, Release(cfg.name, false));
    Installs(s, g, cfg, x, listing, Explicit);
    Releases(t, g, cfg.name);
    var u := t.(sem := t.sem - {cfg.name}).At(g, IDLE);
    assert u == Rebuilt(Installed(s, cfg, x, listing), g, Done).(sem := s.sem - {cfg.name});
    LeadsOn(s, g, steps, t, 1, u);
  }

  lemma InstalledThenSaved(s: State, g: Gid, cfg: MCPConfig, x: Session, tools: seq<ToolInfo>)
    ensures var t := Rebuilt(Installed(s, cfg, x, Some(tools)), g, SaveCache(cfg.name, true));
      && t.PcOf(g) == Go(SaveCache(cfg.name, true)) && cfg.name in t.core.connections
      && cfg.name in t.core.tools && cfg.name in t.core.states && t.core.states[cfg.name].toolsIndexed
      && Saved(t, g, cfg.name) == Rebuilt(Installed(s, cfg, x, Some(tools)), g, Done)
           .(sem := s.sem - {cfg.name}, file := s.file[cfg.name := CacheEntry(ConfigHash(cfg), ToCached(tools))])
  {
    hide BuildIndex, ConfigHash, ToCached;
  }

  /** So do EnsureConnected and Reconnect, which then write what was listed to the cache,
      under the hash of what was dialled. */
  lemma LazyConnectIsCached(s: State, g: Gid, cfg: MCPConfig, x: Session, tools: seq<ToolInfo>, goal: Goal)
    requires goal.Lazy? || goal.Relogin?
    requires s.PcOf(g) == Install(cfg, x, Some(tools), goal) && !s.core.closed && s.rebuildMu.None?
    ensures Leads(s, g, if cfg.name in s.core.connections then 8 else 7,
      Rebuilt(Installed(s, cfg, x, Some(tools)), g, Done)
        .(sem := s.sem - {cfg.name}, file := s.file[cfg.name := CacheEntry(ConfigHash(cfg), ToCached(tools))]))
  {
    hide Leads, Rebuilt, Installed, Saved;
    var n := cfg.name;
    var steps := if n in s.core.connections then 5 else 4;
    var t := Rebuilt(Installed(s, cfg, x, Some(tools)), g, SaveCache(n, true));
    Installs(s, g, cfg, x, Some(tools), goal);
    InstalledThenSaved(s, g, cfg, x, tools);
    SavesAndLeaves(t, g, n);
    LeadsOn(s, g, steps, t, 3, Saved(t, g, n));
  }

  function Saved(s: State, g: Gid, n: Name): State
    requires n in s.core.states && n in s.core.tools
  {
    s.(sem := s.sem - {n},
       file := s.file[n := CacheEntry(ConfigHash(s.core.states[n].config), ToCached(s.core.tools[n]))]).At(g, IDLE)
  }

  lemma ReadsEntry(s: State, g: Gid, n: Name, held: bool)
    requires s.PcOf(g) == Go(SaveCache(n, held)) && n in s.core.connections && n in s.core.tools
    requires n in s.core.states && s.core.states[n].toolsIndexed
    ensures Leads(s, g, 1, s.At(g,
      WriteCache(n, CacheEntry(ConfigHash(s.core.states[n].config), ToCached(s.core.tools[n])), held)))
  {
    hide Leads, ConfigHash, ToCached;
    OneStep(s, g);
  }

  lemma WritesEntry(s: State, g: Gid, n: Name, entry: CacheEntry, held: bool)
    requires s.PcOf(g) == WriteCache(n, entry, held)
    ensures Leads(s, g, 1, s.(file := s.file[n := entry]).At(g, if held then Go(Release(n, false)) else IDLE))
  {
    hide Leads;
    OneStep(s, g);
  }

  lemma SavesAndLeaves(s: State, g: Gid, n: Name)
    requires s.PcOf(g) == Go(SaveCache(n, true)) && n in s.core.connections && n in s.core.tools
    requires n in s.core.states && s.core.states[n].toolsIndexed
    ensures Leads(s, g, 3, Saved(s, g, n))
  {
    hide Leads, ConfigHash, ToCached;
    var entry := CacheEntry(ConfigHash(s.core.states[n].config), ToCached(s.core.tools[n]));
    var t := s.At(g, WriteCache(n, entry, true));
    ReadsEntry(s, g, n, true);
    var u := s.(file := s.file[n := entry]).At(g, Go(Release(n, false)));
    WritesEntry(t, g, n, entry, true);
    assert u == t.(file := t.file[n := entry]).At(g, Go(Release(n, false)));
    Releases(u, g, n);
    assert u.(sem := u.sem - {n}).At(g, IDLE) == Saved(s, g, n);
    LeadsOn(s, g, 1, t, 1, u);
    LeadsOn(s, g, 2, u, 1, Saved(s, g, n));
  }

  lemma DialFailed(s: State, g: Gid, cfg: MCPConfig, count: nat, goal: Goal, auth: bool)
    requires s.PcOf(g) == Dial(cfg, count, goal) && !goal.Retry?
    ensures Next(s, DialFails(g, auth)) ==
      s.(core := s.core.(states := s.core.states[cfg.name :=
           McpState(cfg, if auth then NeedsAuth else Errored, false, count, Some(s.now))]),
         cooling := s.cooling[cfg.name := s.now]).At(g, Go(Release(cfg.name, false)))
  {
  }

  /** A failed dial is recorded with its time and the counter it began with, and the call ends. */
  lemma FailedDialIsRecorded(s: State, g: Gid, cfg: MCPConfig, count: nat, goal: Goal, auth: bool)
    requires s.PcOf(g) == Dial(cfg, count, goal) && !goal.Retry?
    ensures Leads(Next(s, DialFails(g, auth)), g, 1,
      s.(core := s.core.(states := s.core.states[cfg.name :=
           McpState(cfg, if auth then NeedsAuth else Errored, false, count, Some(s.now))]),
         cooling := s.cooling[cfg.name := s.now], sem := s.sem - {cfg.name}).At(g, IDLE))
  {
    hide Leads, Next;
    var t := s.(core := s.core.(states := s.core.states[cfg.name :=
                  McpState(cfg, if auth then NeedsAuth else Errored, false, count, Some(s.now))]),
                cooling := s.cooling[cfg.name := s.now]).At(g, Go(Release(cfg.name, false)));
    DialFailed(s, g, cfg, count, goal, auth);
    Releases(t, g, cfg.name);
    assert t.(sem := t.sem - {cfg.name}).At(g, IDLE)
        == s.(core := s.core.(states := s.core.states[cfg.name :=
                McpState(cfg, if auth then NeedsAuth else Errored, false, count, Some(s.now))]),
              cooling := s.cooling[cfg.name := s.now], sem := s.sem - {cfg.name}).At(g, IDLE);
  }

  lemma TurnsAway(s: State, g: Gid, cfg: MCPConfig, x: Session, listing: Option<seq<ToolInfo>>, goal: Goal)
    requires s.PcOf(g) == Install(cfg, x, listing, goal) && s.core.closed && !goal.Retry?
    ensures Leads(s, g, 1, s.At(g, Shut(x, false, Release(cfg.name, false))))
  {
    hide Leads;
    OneStep(s, g);
  }

  /** A call that comes to install after Close closes its session and ends. */
  lemma TooLateIsClosed(s: State, g: Gid, cfg: MCPConfig, x: Session, listing: Option<seq<ToolInfo>>, goal: Goal)
    requires s.PcOf(g) == Install(cfg, x, listing, goal) && s.core.closed && !goal.Retry?
    ensures Leads(s, g, 3, s.(closes := s.closes + [x], sem := s.sem - {cfg.name}).At(g, IDLE))
  {
    hide Leads;
    var k := Release(cfg.name, false);
    var t := s.At(g, Shut(x, false, k));
    var u := s.(closes := s.closes + [x]).At(g, Go(k));
    TurnsAway(s, g, cfg, x, listing, goal);
    Shuts(t, g, x, false, k);
    assert t.(closes := t.closes + [x]).At(g, Go(k)) == u;
    Releases(u, g, cfg.name);
    assert u.(sem := u.sem - {cfg.name}).At(g, IDLE)
        == s.(closes := s.closes + [x], sem := s.sem - {cfg.name}).At(g, IDLE);
    LeadsOn(s, g, 1, t, 1, u);
    LeadsOn(s, g, 2, u, 1, u.(sem := u.sem - {cfg.name}).At(g, IDLE));
  }

  // ---------------------------------------------------------------- demotion, provider

  /** n's connection and tools are gone, its session is closed, and it is in Error from now on
      with a fresh counter. */
  function Demoted(s: State, n: Name): State
    requires n in s.core.states && n in s.core.connections
  {
    s.(core := s.core.(connections := s.core.connections - {n}, tools := s.core.tools - {n},
         states := s.core.states[n := McpState(s.core.states[n].config, Errored, false, 0, Some(s.now))]),
       closes := s.closes + [s.core.connections[n]], cooling := s.cooling[n := s.now])
  }

  lemma Demotes(s: State, g: Gid, n: Name)
    requires s.PcOf(g) == Demote(n) && (IsConnected(s.core, n) ==> n in s.core.connections)
    ensures Leads(s, g, 1,
      if IsConnected(s.core, n)
      then Demoted(s, n).(closes := s.closes).At(g, Shut(s.core.connections[n], true, Done)) else Over(s, g))
  {
    hide Leads;
    OneStep(s, g);
  }

  lemma DemotedCloses(s: State, g: Gid, n: Name)
    requires IsConnected(s.core, n) && n in s.core.connections
    ensures var x, after := s.core.connections[n], Demoted(s, n);
      var t := after.(closes := s.closes).At(g, Shut(x, true, Done));
      && t.rebuildMu == s.rebuildMu && t.PcOf(g) == Shut(x, true, Done)
      && t.(closes := t.closes + [x]) == after.At(g, Shut(x, true, Done))
  {
  }

  /** A demotion of a Connected name takes its connection out, and of any other does nothing. */
  lemma DemotionDisconnects(s: State, g: Gid, n: Name)
    requires Reachable(s) && s.PcOf(g) == Demote(n) && s.rebuildMu.None?
    ensures IsConnected(s.core, n) ==>
      n in s.core.connections && Leads(s, g, 5, Rebuilt(Demoted(s, n), g, Done))
    ensures !IsConnected(s.core, n) ==> Leads(s, g, 1, Over(s, g))
  {
    hide Leads, Rebuilt, Demoted;
    if IsConnected(s.core, n) {
      ConnectedMeansInstalled(s, n);
      var x, after := s.core.connections[n], Demoted(s, n);
      var t := after.(closes := s.closes).At(g, Shut(x, true, Done));
      Demotes(s, g, n);
      DemotedCloses(s, g, n);
      ClosesAndRebuilds(t, g, x, Done);
      RebuiltFromAnywhere(after, g, Shut(x, true, Done), Done);
      LeadsOn(s, g, 1, t, 4, Rebuilt(after, g, Done));
    } else {
      Demotes(s, g, n);
    }
    hide Reachable;
  }

  lemma Swaps(s: State, g: Gid, p: Provider)
    requires s.PcOf(g) == SwapProvider(p)
    ensures Leads(s, g, 1, s.(core := s.core.(provider := p)).At(g, Publish(s.core.tools, p, Done)))
  {
    hide Leads;
    OneStep(s, g);
  }

  lemma WantsToSwap(s: State, g: Gid, p: Provider)
    requires s.PcOf(g) == WantProvider(p) && s.rebuildMu.None?
    ensures Leads(s, g, 1, s.(rebuildMu := Some(g)).At(g, SwapProvider(p)))
  {
    hide Leads;
    OneStep(s, g);
  }

  /** A new override provider takes effect, and the index shows it. */
  lemma ProviderTakesEffect(s: State, g: Gid, p: Provider)
    requires s.PcOf(g) == WantProvider(p) && s.rebuildMu.None?
    ensures Leads(s, g, 3, Rebuilt(s.(core := s.core.(provider := p)), g, Done))
  {
    hide Leads, BuildIndex;
    var t := s.(rebuildMu := Some(g)).At(g, SwapProvider(p));
    var u := t.(core := s.core.(provider := p)).At(g, Publish(s.core.tools, p, Done));
    WantsToSwap(s, g, p);
    Swaps(t, g, p);
    Publishes(u, g, s.core.tools, p, Done);
    var v := u.(core := u.core.(index := BuildIndex(s.core.tools, p)), rebuildMu := None).At(g, IDLE);
    assert v == Rebuilt(s.(core := s.core.(provider := p)), g, Done);
    LeadsOn(s, g, 1, t, 1, u);
    LeadsOn(s, g, 2, u, 1, v);
  }

  // ---------------------------------------------------------------- the backoff loop

  /** Seconds to wait before attempt k. */
  function Delay(k: nat): nat
  {
    match k case 0 => 0 case 1 => 1 case 2 => 2 case 3 => 4 case 4 => 8 case 5 => 16 case 6 => 32 case _ => 60
  }

  lemma DelayIsBackoff(k: nat)
    requires k >= 1
    ensures Backoff(k) == Delay(k) * 1_000_000_000
  {
    assert Pow2(5) == 32 && Pow2(4) == 16 && Pow2(3) == 8 && Pow2(2) == 4;
  }

  lemma BackoffMarks(s: State, g: Gid, n: Name, base: nat, max: nat, auto: bool)
    requires s.PcOf(g) == BackoffMark(n, base, max, auto) && n in s.core.states
    ensures Leads(s, g, 1,
      s.(core := s.core.(states := s.core.states[n := s.core.states[n].(phase := Reconnecting)]))
       .At(g, Go(CountRetry(n, Retry(base, 1, max, 0, auto)))))
  {
    hide Leads;
    OneStep(s, g);
  }

  lemma BackoffReads(s: State, g: Gid, n: Name, arg: int, auto: bool)
    requires s.PcOf(g) == BackoffRead(n, arg, auto)
    ensures Leads(s, g, 1, s.At(g,
      if n in s.core.states && RetryBudget(arg, s.core.states[n].config).Some?
      then BackoffMark(n, s.core.states[n].attempts, RetryBudget(arg, s.core.states[n].config).value, auto)
      else Go(Release(n, auto))))
  {
    hide Leads, RetryBudget;
    OneStep(s, g);
  }

  /** A backoff call that has a budget marks the name Reconnecting and starts with attempt
      one; any other ends at once. */
  lemma BackoffBegins(s: State, g: Gid, n: Name, arg: int, auto: bool)
    requires s.PcOf(g) == Wait(n, OpBackoff(arg, auto)) && n !in s.sem
    ensures n in s.core.states && RetryBudget(arg, s.core.states[n].config).Some? ==>
      var st, max := s.core.states[n], RetryBudget(arg, s.core.states[n].config).value;
      Leads(s, g, 3, Entered(s.(core := s.core.(states := s.core.states[n := st.(phase := Reconnecting)])), g, n,
        Go(CountRetry(n, Retry(st.attempts, 1, max, 0, auto)))))
    ensures !(n in s.core.states && RetryBudget(arg, s.core.states[n].config).Some?) ==>
      Leads(s, g, 2, Entered(s, g, n, Go(Release(n, auto))))
  {
    hide Leads, RetryBudget;
    var t := Entered(s, g, n, BackoffRead(n, arg, auto));
    Enters(s, g, n, OpBackoff(arg, auto));
    BackoffReads(t, g, n, arg, auto);
    if n in s.core.states && RetryBudget(arg, s.core.states[n].config).Some? {
      var st, max := s.core.states[n], RetryBudget(arg, s.core.states[n].config).value;
      var pc := BackoffMark(n, st.attempts, max, auto);
      EnteredTwice(s, g, n, BackoffRead(n, arg, auto), pc);
      var u := Entered(s, g, n, pc);
      LeadsOn(s, g, 1, t, 1, u);
      BackoffMarks(u, g, n, st.attempts, max, auto);
      MarkedEntered(s, g, n, pc, Go(CountRetry(n, Retry(st.attempts, 1, max, 0, auto))));
      LeadsOn(s, g, 2, u, 1,
        Entered(s.(core := s.core.(states := s.core.states[n := st.(phase := Reconnecting)])), g, n,
          Go(CountRetry(n, Retry(st.attempts, 1, max, 0, auto)))));
    } else {
      EnteredTwice(s, g, n, BackoffRead(n, arg, auto), Go(Release(n, auto)));
      LeadsOn(s, g, 1, t, 1, Entered(s, g, n, Go(Release(n, auto))));
    }
  }

  lemma MarkedEntered(s: State, g: Gid, n: Name, pc: Pc, next: Pc)
    requires n in s.core.states
    ensures var t, states := Entered(s, g, n, pc), s.core.states[n := s.core.states[n].(phase := Reconnecting)];
      t.(core := t.core.(states := t.core.states[n := t.core.states[n].(phase := Reconnecting)])).At(g, next)
      == Entered(s.(core := s.core.(states := states)), g, n, next)
  {
  }

  /** Each attempt is counted, and preceded by its delay. */
  lemma RetryIsCounted(s: State, g: Gid, n: Name, retry: RetryGoal)
    requires s.PcOf(g) == Go(CountRetry(n, retry))
    ensures CanAdvance(s, g)
    ensures var t := StepAdvance(s, g);
      && t.PcOf(g) == BackoffSleep(n, s.now + Delay(retry.attempt) * 1_000_000_000, retry)
      && t.core.states == if n in s.core.states
         then s.core.states[n := s.core.states[n].(attempts := retry.base + retry.attempt)] else s.core.states
  {
    DelayIsBackoff(retry.attempt);
    hide Backoff;
  }

  /** The goroutine sleeps on, through whatever runs beside it, until the time has come. */
  lemma {:induction false} SleepsThrough(s: State, events: seq<Event>, g: Gid, n: Name, wake: Time, retry: RetryGoal)
    requires Inv(s) && IsRun(s, events) && s.PcOf(g) == BackoffSleep(n, wake, retry)
    requires Cancel(g) !in events && Restart !in events
    ensures Run(s, events).PcOf(g) == BackoffSleep(n, wake, retry) || Run(s, events).now >= wake
    decreases events
  {
    if events != [] {
      var e := events[0];
      NextKeeps(s, e);
      assert Cancel(g) !in events[1..] && Restart !in events[1..];
      if OfGoroutine(e) && e.g == g {
        TimeOnlyGrows(Next(s, e), events[1..]);
        SleeperWakes(s, e, g, n, wake, retry);
      } else {
        OthersDoNotMoveIt(s, e, g);
        hide Inv, Next, Enabled;
        SleepsThrough(Next(s, e), events[1..], g, n, wake, retry);
      }
    }
  }

  lemma SleeperWakes(s: State, e: Event, g: Gid, n: Name, wake: Time, retry: RetryGoal)
    requires Enabled(s, e) && OfGoroutine(e) && e.g == g && e != Cancel(g)
    requires s.PcOf(g) == BackoffSleep(n, wake, retry)
    ensures e == Advance(g) && s.now >= wake && Next(s, e).now == s.now
  {
  }

  lemma NowGrows(s: State, e: Event)
    requires Inv(s) && Enabled(s, e)
    ensures Next(s, e).now >= s.now
  {
    if OfGoroutine(e) {
      var n, m := EventMoves(s, e);
      hide Inv, Next, Enabled, Locks, NameMove, Bystander, Lands;
    } else {
      hide Inv, BuildIndex, Shutdown, ScanTargets, SessionsIn, StepAdvance, StepDialFails, StepDialOpens, StepListed;
    }
  }

  lemma {:induction false} TimeOnlyGrows(s: State, events: seq<Event>)
    requires Inv(s) && IsRun(s, events)
    ensures Run(s, events).now >= s.now
    decreases events
  {
    hide Inv, Next, Enabled;
    if events != [] {
      NowGrows(s, events[0]);
      NextKeeps(s, events[0]);
      TimeOnlyGrows(Next(s, events[0]), events[1..]);
    }
  }

  lemma AdvanceKeeps(s: State, g: Gid)
    requires Inv(s) && CanAdvance(s, g)
    ensures Inv(StepAdvance(s, g))
  {
    NextIsAdvance(s, g);
    NextKeeps(s, Advance(g));
    hide Inv, Next, Enabled, StepAdvance, CanAdvance;
  }

  lemma FallsAsleep(s: State, t: State, g: Gid, n: Name, retry: RetryGoal)
    requires Reachable(s) && s.PcOf(g) == Go(CountRetry(n, retry)) && Leads(s, g, 1, t)
    ensures Inv(t) && t.PcOf(g) == BackoffSleep(n, s.now + Delay(retry.attempt) * 1_000_000_000, retry)
  {
    ReachableInv(s);
    RetryIsCounted(s, g, n, retry);
    AdvanceKeeps(s, g);
    assert Leads(StepAdvance(s, g), g, 0, t);
    hide Inv, Reachable, StepAdvance, CanAdvance, Delay;
  }

  /** So attempt k is not dialled before its delay is over, whatever runs meanwhile. */
  lemma RetriesWait(s: State, t: State, events: seq<Event>, g: Gid, n: Name, retry: RetryGoal)
    requires Reachable(s) && s.PcOf(g) == Go(CountRetry(n, retry))
    requires Leads(s, g, 1, t) && IsRun(t, events) && Cancel(g) !in events && Restart !in events
    ensures var u := Run(t, events);
      u.PcOf(g).BackoffSleep? || u.now >= s.now + Delay(retry.attempt) * 1_000_000_000
  {
    var wake := s.now + Delay(retry.attempt) * 1_000_000_000;
    FallsAsleep(s, t, g, n, retry);
    SleepsThrough(t, events, g, n, wake, retry);
    hide Inv, Reachable, Leads, Delay, IsRun, Run;
  }

  lemma RetryBegins(s: State, g: Gid, cfg: MCPConfig, retry: RetryGoal)
    requires s.PcOf(g) == Go(Begin(cfg, retry))
    ensures Leads(s, g, 1, Connects(s, g, cfg, retry.(dials := retry.dials + 1)))
  {
    OneStep(s, g);
    hide Leads;
  }

  lemma RetryWakes(s: State, g: Gid, n: Name, wake: Time, retry: RetryGoal)
    requires s.PcOf(g) == BackoffSleep(n, wake, retry) && wake <= s.now && n in s.core.states
    ensures Leads(s, g, 2, s.At(g, Drop(n, Begin(s.core.states[n].config, retry))))
  {
    hide Leads;
    var t := s.At(g, ReadConfig(n, retry));
    OneStep(s, g);
    ReadsConfig(t, g, n, retry);
    var pc := Drop(n, Begin(s.core.states[n].config, retry));
    assert t.At(g, pc) == s.At(g, pc);
    LeadsOn(s, g, 1, t, 1, s.At(g, pc));
  }

  /** Then it dials the configuration the name has by now. */
  lemma RetryDials(s: State, g: Gid, n: Name, wake: Time, retry: RetryGoal)
    requires s.PcOf(g) == BackoffSleep(n, wake, retry) && wake <= s.now
    requires n !in s.core.connections && n in s.core.states
    ensures var cfg := s.core.states[n].config;
      Leads(s, g, 4, Connects(s, g, cfg, retry.(dials := retry.dials + 1)))
  {
    hide Leads, Connects;
    var cfg, goal := s.core.states[n].config, retry.(dials := retry.dials + 1);
    var u := s.At(g, Drop(n, Begin(cfg, retry)));
    var v := u.At(g, Go(Begin(cfg, retry)));
    RetryWakes(s, g, n, wake, retry);
    NothingToDrop(u, g, n, Begin(cfg, retry));
    RetryBegins(v, g, cfg, retry);
    ConnectsFromAnywhere(u, g, Go(Begin(cfg, retry)), cfg, goal);
    ConnectsFromAnywhere(s, g, Drop(n, Begin(cfg, retry)), cfg, goal);
    LeadsOn(s, g, 2, u, 1, v);
    LeadsOn(s, g, 3, v, 1, Connects(v, g, cfg, goal));
  }

  /** A failed attempt goes on with the next one while there is budget, and otherwise leaves the
      name in Error. */
  lemma FailedRetryGoesOn(s: State, g: Gid, cfg: MCPConfig, count: nat, retry: RetryGoal, auth: bool)
    requires s.PcOf(g) == Dial(cfg, count, retry)
    ensures var t := Next(s, DialFails(g, auth));
      if retry.attempt < retry.max then t.PcOf(g) == Go(CountRetry(cfg.name, retry.(attempt := retry.attempt + 1)))
      else
        && t.PcOf(g) == Go(GiveUpRetry(cfg.name, retry)) && CanAdvance(t, g)
        && var u := StepAdvance(t, g);
           && cfg.name in u.core.states && u.core.states[cfg.name].phase == Errored
           && u.core.states[cfg.name].config == cfg && u.PcOf(g) == Go(Release(cfg.name, retry.auto))
  {
  }

  /** The end of any backoff call frees the semaphore and, if it was an auto-reconnect, the
      name's flag. */
  lemma BackoffEnds(s: State, g: Gid, n: Name, auto: bool)
    requires s.PcOf(g) == Go(Release(n, auto))
    ensures Leads(s, g, if auto then 2 else 1,
      s.(sem := s.sem - {n},
         core := if auto then s.core.(reconnecting := s.core.reconnecting - {n}) else s.core).At(g, IDLE))
  {
    hide Leads;
    OneStep(s, g);
    var t := s.(sem := s.sem - {n}).At(g, if auto then AutoDone(n) else IDLE);
    assert t == StepAdvance(s, g);
    if auto {
      OneStep(t, g);
      assert StepAdvance(t, g)
          == s.(sem := s.sem - {n}, core := s.core.(reconnecting := s.core.reconnecting - {n})).At(g, IDLE);
      LeadsOn(s, g, 1, t, 1, StepAdvance(t, g));
    }
  }

  // ---------------------------------------------------------------- LoadCache and Close

  /** One turn of LoadCache: a static MCP with an entry of the same hash and no live connection
      becomes Cached with that entry's tools, and any other is skipped. */
  lemma LoadTurns(s: State, g: Gid, key: Name, cfg: MCPConfig, rest: seq<(Name, MCPConfig)>,
                  file: map<Name, CacheEntry>, changed: bool)
    requires s.PcOf(g) == LoadNext([(key, cfg)] + rest, file, changed)
    ensures CanAdvance(s, g)
    ensures StepAdvance(s, g) ==
      if !cfg.isDynamic && key in file && file[key].configHash == ConfigHash(cfg)
         && !(cfg.name in s.core.states && s.core.states[cfg.name].phase == Connected)
      then s.(core := s.core.(states := s.core.states[cfg.name := McpState(cfg, Cached, false, 0, None)],
                              tools := s.core.tools[cfg.name := FromCache(file[key].tools)]),
              cooling := s.cooling - {cfg.name}, disturbed := s.disturbed + {cfg.name})
            .At(g, LoadNext(rest, file, true))
      else s.At(g, LoadNext(rest, file, changed))
  {
    hide ConfigHash, FromCache;
    assert ([(key, cfg)] + rest)[1..] == rest;
  }

  /** A load starts from the file, and rebuilds the index exactly if it changed something. */
  lemma LoadBeginsAndEnds(s: State, g: Gid, todo: seq<(Name, MCPConfig)>, file: map<Name, CacheEntry>, changed: bool)
    ensures s.PcOf(g) == LoadFile(todo) ==> Leads(s, g, 1, s.At(g, LoadNext(todo, s.file, false)))
    ensures s.PcOf(g) == LoadNext([], file, changed) && s.rebuildMu.None? ==>
      Leads(s, g, if changed then 4 else 1, if changed then Rebuilt(s, g, Done) else Over(s, g))
  {
    hide Leads, BuildIndex;
    if CanAdvance(s, g) { OneStep(s, g); }
    if s.PcOf(g) == LoadNext([], file, changed) && s.rebuildMu.None? && changed {
      var t := s.At(g, Rebuild(Done));
      RebuildsTheIndex(t, g, Done);
      assert Rebuilt(t, g, Done) == Rebuilt(s, g, Done);
      LeadsOn(s, g, 1, t, 3, Rebuilt(s, g, Done));
    }
  }

  /** Close disconnects every connected name and closes its session, once each. */
  lemma CloseDisconnects(s: State, order: seq<Name>)
    requires Enumerates(order, s.core.connections.Keys)
    ensures var t := Next(s, Close(order));
      && t.core.closed && t.core.connections == map[] && t.core.states.Keys == s.core.states.Keys
      && (forall n <- s.core.states :: t.core.states[n] ==
            (if n in s.core.connections then s.core.states[n].(phase := Disconnected) else s.core.states[n]))
      && |t.closes| == |s.closes| + |order| && t.closes[..|s.closes|] == s.closes
      && (forall i | 0 <= i < |order| :: order[i] in s.core.connections
            && t.closes[|s.closes| + i] == s.core.connections[order[i]])
  {
    assert forall i | 0 <= i < |order| :: order[i] in order;
  }

  /** A configuration is noted under its name unless the name is known. */
  lemma ConfigureAdds(s: State, cfg: MCPConfig)
    ensures Next(s, Configure(cfg)) ==
      if cfg.name in s.core.states then s
      else s.(core := s.core.(states := s.core.states[cfg.name := McpState(cfg, Configured, false, 0, None)]))
  {
  }

  /** A new process knows nothing but the cache file, and its index is empty. */
  lemma RestartKeepsTheFile(s: State)
    ensures var t := Next(s, Restart);
      && t.file == s.file && t.now == s.now && t.pcs == map[] && t.sem == map[] && t.rebuildMu.None?
      && t.core.connections == map[] && t.core.states == map[] && t.core.tools == map[] && t.core.index == map[]
      && !t.core.closed && t.core.reconnecting == {}
  {
  }

  /** After Connect the tools are saved in the background, by a goroutine that holds nothing. */
  lemma BackgroundSave(s: State, g: Gid, n: Name)
    requires s.PcOf(g) == IDLE
    ensures Enabled(s, Start(g, Go(SaveCache(n, false))))
    ensures n in s.core.connections && n in s.core.tools && n in s.core.states && s.core.states[n].toolsIndexed ==>
      var entry := CacheEntry(ConfigHash(s.core.states[n].config), ToCached(s.core.tools[n]));
      Leads(Next(s, Start(g, Go(SaveCache(n, false)))), g, 2, s.(file := s.file[n := entry]).At(g, IDLE))
  {
    hide Leads, ConfigHash, ToCached;
    if n in s.core.connections && n in s.core.tools && n in s.core.states && s.core.states[n].toolsIndexed {
      var entry := CacheEntry(ConfigHash(s.core.states[n].config), ToCached(s.core.tools[n]));
      var t, u := s.At(g, Go(SaveCache(n, false))), s.At(g, WriteCache(n, entry, false));
      ReadsEntry(t, g, n, false);
      assert t.At(g, WriteCache(n, entry, false)) == u;
      WritesEntry(u, g, n, entry, false);
      assert u.(file := u.file[n := entry]).At(g, IDLE) == s.(file := s.file[n := entry]).At(g, IDLE);
      LeadsOn(t, g, 1, u, 1, u.(file := u.file[n := entry]).At(g, IDLE));
    }
  }

  // ---------------------------------------------------------------- what may go wrong

  /** A call cancelled while it waits or sleeps ends, and gives back what it holds. */
  lemma CancelledCallEnds(s: State, g: Gid)
    requires s.PcOf(g).Wait? || s.PcOf(g).BackoffSleep?
    ensures Enabled(s, Cancel(g))
    ensures var t, pc := Next(s, Cancel(g)), s.PcOf(g);
      && t.core == s.core && t.sem == s.sem
      && (pc.Wait? && !(pc.op.OpBackoff? && pc.op.auto) ==> t.PcOf(g) == IDLE)
      && (pc.Wait? && pc.op.OpBackoff? && pc.op.auto ==> t.PcOf(g) == AutoDone(pc.n))
      && (pc.BackoffSleep? ==> t.PcOf(g) == Go(Release(pc.n, pc.retry.auto)))
  {
  }

  /** Nothing is assumed of servers, disks and callers: any dial and any listing may fail or
      come through, any cache write or load may be given up, and at any moment time may
      pass, the cache file may be lost, and the process may restart. */
  lemma AnythingMayFail(s: State, g: Gid, d: nat, auth: bool, x: Session, listed: Option<seq<ListedTool>>)
    ensures Enabled(s, Tick(d)) && Enabled(s, LoseCache) && Enabled(s, Restart)
    ensures s.PcOf(g).Dial? ==> Enabled(s, DialFails(g, auth))
    ensures s.PcOf(g).Dial? && x !in s.dialled ==> Enabled(s, DialOpens(g, x))
    ensures s.PcOf(g).Listing? ==> Enabled(s, Listed(g, listed))
    ensures s.PcOf(g).WriteCache? || s.PcOf(g).LoadFile? ==> Enabled(s, Cancel(g))
  {
  }

  /** Any call may come at any time, in a goroutine of its own. */
  lemma AnyCallMayStart(s: State, g: Gid, n: Name, cfg: MCPConfig, p: Provider, arg: int, todo: seq<(Name, MCPConfig)>)
    requires s.PcOf(g) == IDLE
    ensures forall job <- {PreCheck(n), Wait(cfg.name, OpConnect(cfg)), Wait(n, OpDisconnect), Wait(n, OpUnregister),
                           Wait(n, OpReconnect), Wait(n, OpBackoff(arg, false)), Demote(n), WantProvider(p),
                           LoadFile(todo)} ::
      Enabled(s, Start(g, job)) && Next(s, Start(g, job)) == s.At(g, job)
  {
  }
}
