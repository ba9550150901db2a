/** What every reachable state of the registry machine satisfies. Each invariant is kept
    by every event; the theorems at the end of RegistryTheorems read them off. */
module RegistryInvariants {
  import opened Options
  import opened McpConfig
  import opened RegistryCore
  import opened RegistryMachine

  // ---------------------------------------------------------------- what a counter stands for

  function HeldBy(k: Cont): Option<Name>
  {
    match k
    case Done => None
    case Begin(cfg, _) => Some(cfg.name)
    case SaveCache(n, held) => if held then Some(n) else None
    case CountRetry(n, _) => Some(n)
    case ResetCount(n, _) => Some(n)
    case GiveUpRetry(n, _) => Some(n)
    case Release(n, _) => Some(n)
  }

  /** The name whose semaphore a goroutine at this counter holds. */
  function Holds(pc: Pc): Option<Name>
  {
    match pc
    case Go(k) => HeldBy(k)
    case Recheck(n) => Some(n)
    case ReadConfig(n, _) => Some(n)
    case Drop(n, _) => Some(n)
    case Remove(n) => Some(n)
    case Dial(cfg, _, _) => Some(cfg.name)
    case Listing(cfg, _, _) => Some(cfg.name)
    case Install(cfg, _, _, _) => Some(cfg.name)
    case BackoffRead(n, _, _) => Some(n)
    case BackoffMark(n, _, _, _) => Some(n)
    case BackoffSleep(n, _, _) => Some(n)
    case Shut(_, _, k) => HeldBy(k)
    case Rebuild(k) => HeldBy(k)
    case Snapshot(k) => HeldBy(k)
    case Publish(_, _, k) => HeldBy(k)
    case WriteCache(n, _, held) => if held then Some(n) else None
    case _ => None
  }

  /** The session a goroutine has in hand: freshly dialled, or about to be closed. */
  function Owned(pc: Pc): Option<Session>
  {
    match pc
    case Listing(_, x, _) => Some(x)
    case Install(_, x, _, _) => Some(x)
    case Shut(x, _, _) => Some(x)
    case _ => None
  }

  predicate OwesRebuild(pc: Pc)
  {
    || pc.Rebuild? || pc.Snapshot?
    || (pc.Shut? && pc.rebuild)
    || (pc.LoadNext? && pc.changed)
  }

  predicate HoldsRebuildMu(pc: Pc)
  {
    pc.Snapshot? || pc.Publish? || pc.SwapProvider?
  }

  function AutoGoal(n: Name, goal: Goal): Option<Name>
  {
    if goal.Retry? && goal.auto then Some(n) else None
  }

  function AutoCont(k: Cont): Option<Name>
  {
    match k
    case Begin(cfg, goal) => AutoGoal(cfg.name, goal)
    case CountRetry(n, retry) => AutoGoal(n, retry)
    case GiveUpRetry(n, retry) => AutoGoal(n, retry)
    case ResetCount(n, auto) => if auto then Some(n) else None
    case Release(n, auto) => if auto then Some(n) else None
    case _ => None
  }

  /** The name an auto-reconnect goroutine was spawned for. */
  function AutoOf(pc: Pc): Option<Name>
  {
    match pc
    case Go(k) => AutoCont(k)
    case Wait(n, op) => if op.OpBackoff? && op.auto then Some(n) else None
    case ReadConfig(n, goal) => AutoGoal(n, goal)
    case Drop(_, k) => AutoCont(k)
    case Dial(cfg, _, goal) => AutoGoal(cfg.name, goal)
    case Listing(cfg, _, goal) => AutoGoal(cfg.name, goal)
    case Install(cfg, _, _, goal) => AutoGoal(cfg.name, goal)
    case BackoffRead(n, _, auto) => if auto then Some(n) else None
    case BackoffMark(n, _, _, auto) => if auto then Some(n) else None
    case BackoffSleep(n, _, retry) => AutoGoal(n, retry)
    case Shut(_, _, k) => AutoCont(k)
    case Rebuild(k) => AutoCont(k)
    case Snapshot(k) => AutoCont(k)
    case Publish(_, _, k) => AutoCont(k)
    case AutoDone(n) => Some(n)
    case _ => None
  }

  function ColdCont(k: Cont): Option<Name>
  {
    match k
    case Begin(cfg, goal) => if goal.Lazy? || goal.Retry? then Some(cfg.name) else None
    case CountRetry(n, _) => Some(n)
    case GiveUpRetry(n, _) => Some(n)
    case _ => None
  }

  /** The name a goroutine is dialling, or is committed to dial: it must exist and not be
      Connected, whatever runs beside it. */
  function Cold(pc: Pc): Option<Name>
  {
    match pc
    case Go(k) => ColdCont(k)
    case ReadConfig(n, goal) => if goal.Lazy? || goal.Retry? then Some(n) else None
    case Drop(_, k) => ColdCont(k)
    case Dial(cfg, _, _) => Some(cfg.name)
    case Listing(cfg, _, _) => Some(cfg.name)
    case Install(cfg, _, _, _) => Some(cfg.name)
    case BackoffSleep(n, _, _) => Some(n)
    case Shut(_, _, k) => ColdCont(k)
    case Rebuild(k) => ColdCont(k)
    case Snapshot(k) => ColdCont(k)
    case Publish(_, _, k) => ColdCont(k)
    case _ => None
  }

  function LazyGoal(n: Name, goal: Goal): Option<Name>
  {
    if goal.Lazy? then Some(n) else None
  }

  function LazyCont(k: Cont): Option<Name>
  {
    if k.Begin? then LazyGoal(k.cfg.name, k.goal) else None
  }

  /** The name EnsureConnected is about to dial, or is dialling. */
  function LazyDial(pc: Pc): Option<Name>
  {
    match pc
    case Go(k) => LazyCont(k)
    case ReadConfig(n, goal) => LazyGoal(n, goal)
    case Drop(_, k) => LazyCont(k)
    case Dial(cfg, _, goal) => LazyGoal(cfg.name, goal)
    case Listing(cfg, _, goal) => LazyGoal(cfg.name, goal)
    case Install(cfg, _, _, goal) => LazyGoal(cfg.name, goal)
    case Shut(_, _, k) => LazyCont(k)
    case Rebuild(k) => LazyCont(k)
    case Snapshot(k) => LazyCont(k)
    case Publish(_, _, k) => LazyCont(k)
    case _ => None
  }

  // ---------------------------------------------------------------- retry accounting

  type States = map<Name, McpState>

  predicate Counted(states: States, disturbed: set<Name>, n: Name, count: nat)
  {
    n !in disturbed ==> n in states && states[n].attempts == count
  }

  /** About to make attempt number `attempt`. */
  predicate ReadyToDial(states: States, disturbed: set<Name>, n: Name, goal: Goal)
  {
    goal.Retry? ==>
      && goal.dials + 1 == goal.attempt <= goal.max
      && Counted(states, disturbed, n, goal.base + goal.attempt)
  }

  /** Attempt number `attempt` has been dialled. */
  predicate DialledOnce(states: States, disturbed: set<Name>, n: Name, goal: Goal)
  {
    goal.Retry? ==>
      && goal.dials == goal.attempt <= goal.max
      && Counted(states, disturbed, n, goal.base + goal.attempt)
  }

  predicate AccountCont(states: States, disturbed: set<Name>, k: Cont)
  {
    match k
    case Begin(cfg, goal) => ReadyToDial(states, disturbed, cfg.name, goal)
    case CountRetry(_, retry) => retry.dials + 1 == retry.attempt <= retry.max
    case GiveUpRetry(n, retry) =>
      retry.dials == retry.attempt == retry.max && Counted(states, disturbed, n, retry.base + retry.max)
    case _ => true
  }

  predicate Account(states: States, disturbed: set<Name>, pc: Pc)
  {
    match pc
    case Go(k) => AccountCont(states, disturbed, k)
    case ReadConfig(n, goal) => ReadyToDial(states, disturbed, n, goal)
    case Drop(_, k) => AccountCont(states, disturbed, k)
    case BackoffMark(n, _, max, _) => max >= 1 && n in states
    case BackoffSleep(n, _, retry) => ReadyToDial(states, disturbed, n, retry)
    case Dial(cfg, attempts, goal) =>
      && DialledOnce(states, disturbed, cfg.name, goal)
      && (goal.Retry? && cfg.name !in disturbed ==> attempts == goal.base + goal.attempt)
    case Listing(cfg, _, goal) => DialledOnce(states, disturbed, cfg.name, goal)
    case Install(cfg, _, _, goal) => DialledOnce(states, disturbed, cfg.name, goal)
    case Shut(_, _, k) => AccountCont(states, disturbed, k)
    case Rebuild(k) => AccountCont(states, disturbed, k)
    case Snapshot(k) => AccountCont(states, disturbed, k)
    case Publish(_, _, k) => AccountCont(states, disturbed, k)
    case _ => true
  }

  // ---------------------------------------------------------------- provenance

  ghost predicate Reported(reports: set<Report>, cfg: MCPConfig, tools: seq<ToolInfo>)
  {
    exists r :: r in reports && r.config == cfg && r.tools == tools
  }

  /** The entry holds a list some session of n reported, under the hash of what it was
      dialled with. */
  ghost predicate Backed(reports: set<Report>, n: Name, e: CacheEntry)
  {
    exists r :: (
      && r in reports && r.config.name == n
      && ConfigHash(r.config) == e.configHash && ToCached(r.tools) == e.tools)
  }

  ghost predicate FileBacked(reports: set<Report>, file: map<Name, CacheEntry>)
  {
    forall n <- file :: Backed(reports, n, file[n])
  }

  /** The list was reported under a configuration that hashes like this one. */
  ghost predicate Restored(reports: set<Report>, cfg: MCPConfig, tools: seq<ToolInfo>)
  {
    exists r :: r in reports && ConfigHash(r.config) == ConfigHash(cfg) && r.tools == tools
  }

  /** No override has been applied: the descriptions are the server's own. */
  ghost predicate Plain(tools: seq<ToolInfo>)
  {
    forall t <- tools :: t.sourceDescription == ""
  }

  ghost predicate ReportsInv(dialled: map<Session, MCPConfig>, reports: set<Report>)
  {
    forall r <- reports ::
      && r.session in dialled && dialled[r.session] == r.config
      && Plain(r.tools)
  }

  ghost predicate Provenance(dialled: map<Session, MCPConfig>, reports: set<Report>, pc: Pc)
  {
    match pc
    case Listing(cfg, x, _) => x in dialled && dialled[x] == cfg
    case Install(cfg, x, listing, _) => listing.Some? ==> Reported(reports, cfg, listing.value)
    case WriteCache(n, entry, _) => Backed(reports, n, entry)
    case LoadNext(_, file, _) => FileBacked(reports, file)
    case _ => true
  }

  // ---------------------------------------------------------------- the invariant

  /** Everything that concerns one goroutine. */
  ghost predicate LocalInv(s: State, pc: Pc)
  {
    && (pc.Wait? && pc.op.OpConnect? ==> pc.op.cfg.name == pc.n)
    && (pc.Drop? ==> HeldBy(pc.k) == Some(pc.n))
    && (Cold(pc).Some? ==> Cold(pc).value in s.core.states && !IsConnected(s.core, Cold(pc).value))
    && (LazyDial(pc).Some? && LazyDial(pc).value in s.cooling ==>
          s.cooling[LazyDial(pc).value] + ERROR_RETRY_INTERVAL <= s.now)
    && Account(s.core.states, s.disturbed, pc)
    && Provenance(s.dialled, s.reports, pc)
  }

  /** Everything that concerns one name. */
  ghost predicate NameInv(s: State, n: Name)
  {
    && (n in s.core.states ==>
          var st := s.core.states[n];
          && st.config.name == n
          && (st.phase == Connected ==> n in s.core.connections)
          && (st.phase == Errored ==> st.lastFailure.Some?)
          && (st.toolsIndexed ==> n in s.core.tools && Reported(s.reports, st.config, s.core.tools[n]))
          && (st.phase == Cached ==> n in s.core.tools && Restored(s.reports, st.config, s.core.tools[n])))
    && (s.core.closed ==> n !in s.core.connections)
    && (n in s.cooling ==>
          && n in s.core.states
          && var st := s.core.states[n];
             && st.phase !in {Cached, Configured, Connected}
             && (st.phase == Errored ==> st.lastFailure == Some(s.cooling[n])))
  }

  /** Mutual exclusion: the semaphore map says exactly who is inside. */
  ghost predicate SemInv(s: State)
  {
    && (forall g <- s.pcs :: Holds(s.pcs[g]).Some? ==>
          Holds(s.pcs[g]).value in s.sem && s.sem[Holds(s.pcs[g]).value] == g)
    && (forall n <- s.sem :: s.sem[n] in s.pcs && Holds(s.pcs[s.sem[n]]) == Some(n))
  }

  ghost predicate InFlight(s: State, g: Gid, x: Session)
  {
    g in s.pcs && Owned(s.pcs[g]) == Some(x)
  }

  ghost predicate InstalledAt(s: State, n: Name, x: Session)
  {
    n in s.core.connections && s.core.connections[n] == x
  }

  /** Every session is in exactly one place. */
  ghost predicate SessionInv(s: State)
  {
    && s.sessions <= s.dialled.Keys
    && (forall n, x :: InstalledAt(s, n, x) ==> x in s.sessions && x !in s.closes)
    && (forall n, m, x :: InstalledAt(s, n, x) && InstalledAt(s, m, x) ==> n == m)
    && (forall g, x :: InFlight(s, g, x) ==> x in s.sessions && x !in s.closes)
    && (forall g, n, x :: InFlight(s, g, x) ==> !InstalledAt(s, n, x))
    && (forall g, h, x :: InFlight(s, g, x) && InFlight(s, h, x) ==> g == h)
    && (forall i, j | 0 <= i < j < |s.closes| :: s.closes[i] != s.closes[j])
    && (forall x <- s.closes :: x in s.sessions)
    && (forall x <- s.sessions ::
          x in s.closes || (exists n :: InstalledAt(s, n, x)) || (exists g :: InFlight(s, g, x)))
  }

  ghost predicate SomeoneOwes(s: State)
  {
    exists g :: g in s.pcs && OwesRebuild(s.pcs[g])
  }

  predicate IndexFresh(c: Core)
  {
    c.index == BuildIndex(c.tools, c.provider)
  }

  /** The index is right, or a snapshot that will make it right is about to be published,
      or someone has still to take one. */
  ghost predicate IndexInv(s: State)
  {
    && (forall g <- s.pcs :: HoldsRebuildMu(s.pcs[g]) <==> s.rebuildMu == Some(g))
    && (s.rebuildMu.Some? ==> s.rebuildMu.value in s.pcs)
    && (SomeoneOwes(s)
        || if s.rebuildMu.Some? && s.pcs[s.rebuildMu.value].Publish?
           then var p := s.pcs[s.rebuildMu.value]; p.tools == s.core.tools && p.provider == s.core.provider
           else IndexFresh(s.core))
  }

  ghost predicate Reconnects(s: State, g: Gid, n: Name)
  {
    g in s.pcs && AutoOf(s.pcs[g]) == Some(n)
  }

  /** One auto-reconnect goroutine for each name whose flag is set, and none for another. */
  ghost predicate AutoInv(s: State)
  {
    && (forall n <- s.core.reconnecting :: exists g :: Reconnects(s, g, n))
    && (forall g <- s.pcs :: AutoOf(s.pcs[g]).Some? ==> AutoOf(s.pcs[g]).value in s.core.reconnecting)
    && (forall g, h | g in s.pcs && h in s.pcs && AutoOf(s.pcs[g]).Some? && AutoOf(s.pcs[g]) == AutoOf(s.pcs[h]) ::
          g == h)
  }

  ghost predicate Inv(s: State)
  {
    && SemInv(s)
    && SessionInv(s)
    && IndexInv(s)
    && AutoInv(s)
    && ReportsInv(s.dialled, s.reports)
    && FileBacked(s.reports, s.file)
    && (forall n :: NameInv(s, n))
    && (forall g <- s.pcs :: LocalInv(s, s.pcs[g]))
  }
}
