/** internal/registry/registry.go as a step machine: any number of goroutines, each at a
    program counter between two critical sections. Everything a goroutine does between
    sections (dial, list tools, close a session, sleep) is a step of its own, so every
    interleaving the Go scheduler allows is a sequence of events here. */
module RegistryMachine {
  import opened Options
  import opened McpConfig
  import opened RegistryCore

  type Gid = nat

  // ---------------------------------------------------------------- program counters

  /** What the holder of a name's semaphore is dialling for. */
  datatype Goal =
    | Explicit                  // Connect
    | Lazy                      // EnsureConnected
    | Relogin                   // Reconnect
    | Retry(base: nat, attempt: Count, max: nat, dials: nat, auto: bool)  // ReconnectWithBackoff

  type Count = n: nat | n >= 1 witness 1
  type RetryGoal = g: Goal | g.Retry? witness Retry(0, 1, 1, 0, false)

  datatype Op =
    | OpConnect(cfg: MCPConfig)
    | OpEnsure
    | OpDisconnect
    | OpUnregister
    | OpReconnect
    | OpBackoff(arg: int, auto: bool)

  /** What a goroutine does next once its current errand is over. */
  datatype Cont =
    | Done
    | Begin(cfg: MCPConfig, goal: Goal)
    | SaveCache(n: Name, held: bool)
    | CountRetry(n: Name, retry: RetryGoal)
    | ResetCount(n: Name, auto: bool)
    | GiveUpRetry(n: Name, retry: RetryGoal)
    | Release(n: Name, auto: bool)

  /** Where a goroutine stands, between two steps. */
  datatype Pc =
    | Go(k: Cont)
    | PreCheck(n: Name)
    | Wait(n: Name, op: Op)
    // holding the semaphore of n, or of cfg.name
    | Recheck(n: Name)
    | ReadConfig(n: Name, goal: Goal)
    | Drop(n: Name, k: Cont)
    | Remove(n: Name)
    | Dial(cfg: MCPConfig, attempts: nat, goal: Goal)
    | Listing(cfg: MCPConfig, session: Session, goal: Goal)
    | Install(cfg: MCPConfig, session: Session, listing: Option<seq<ToolInfo>>, goal: Goal)
    | BackoffRead(n: Name, arg: int, auto: bool)
    | BackoffMark(n: Name, base: nat, max: nat, auto: bool)
    | BackoffSleep(n: Name, wake: Time, retry: RetryGoal)
    // with or without a semaphore, as k or held says
    | Shut(session: Session, rebuild: bool, k: Cont)
    | Rebuild(k: Cont)
    | Snapshot(k: Cont)
    | Publish(tools: Tools, provider: Provider, k: Cont)
    | WriteCache(n: Name, entry: CacheEntry, held: bool)
    // without a semaphore
    | AutoDone(n: Name)
    | Demote(n: Name)
    | WantProvider(provider: Provider)
    | SwapProvider(provider: Provider)
    | LoadFile(todo: seq<(Name, MCPConfig)>)
    | LoadNext(todo: seq<(Name, MCPConfig)>, file: map<Name, CacheEntry>, changed: bool)

  const IDLE: Pc := Go(Done)

  datatype Report = Report(session: Session, config: MCPConfig, tools: seq<ToolInfo>)

  /** The shared fields, the locks, the goroutines, the clock and the cache file; and,
      for the statements only, a history: sessions opened and closed, what each was
      dialled with, what each reported, the last failure of each name that nothing has
      overridden since, and the names a cache load touched during a backoff. */
  datatype State = State(
    core: Core,
    sem: map<Name, Gid>,
    rebuildMu: Option<Gid>,
    pcs: map<Gid, Pc>,
    now: Time,
    file: map<Name, CacheEntry>,
    sessions: set<Session>,
    closes: seq<Session>,
    dialled: map<Session, MCPConfig>,
    reports: set<Report>,
    cooling: map<Name, Time>,
    disturbed: set<Name>)
  {
    function PcOf(g: Gid): Pc
    {
      if g in pcs then pcs[g] else IDLE
    }

    function At(g: Gid, pc: Pc): State
    {
      this.(pcs := pcs[g := pc])
    }
  }

  datatype Event =
    | Tick(d: nat)
    | Start(g: Gid, job: Pc)
    | Cancel(g: Gid)
    | Advance(g: Gid)
    | DialFails(g: Gid, auth: bool)
    | DialOpens(g: Gid, session: Session)
    | Listed(g: Gid, listed: Option<seq<ListedTool>>)
    | Configure(cfg: MCPConfig)
    | AutoScan(spawned: map<Gid, Name>)
    | Close(order: seq<Name>)
    | LoseCache
    | Restart

  // ---------------------------------------------------------------- control flow

  /** Where connectLocked's caller goes when it returns. */
  function After(n: Name, ok: bool, goal: Goal): Cont
  {
    match goal
    case Explicit => Release(n, false)
    case Lazy => if ok then SaveCache(n, true) else Release(n, false)
    case Relogin => if ok then SaveCache(n, true) else Release(n, false)
    case Retry(base, attempt, max, dials, auto) =>
      if ok then ResetCount(n, auto)
      else if attempt < max then CountRetry(n, Retry(base, attempt + 1, max, dials, auto))
      else GiveUpRetry(n, goal)
  }

  function Dialled(goal: Goal): Goal
  {
    if goal.Retry? then goal.(dials := goal.dials + 1) else goal
  }

  function Entry(n: Name, op: Op): Pc
  {
    match op
    case OpConnect(cfg) => Go(Begin(cfg, Explicit))
    case OpEnsure => Recheck(n)
    case OpDisconnect => Drop(n, Release(n, false))
    case OpUnregister => Remove(n)
    case OpReconnect => ReadConfig(n, Relogin)
    case OpBackoff(arg, auto) => BackoffRead(n, arg, auto)
  }

  function Exit(n: Name, auto: bool): Pc
  {
    if auto then AutoDone(n) else IDLE
  }

  /** updateCache is over: its caller may still hold the semaphore. */
  function AfterCache(n: Name, held: bool): Pc
  {
    if held then Go(Release(n, false)) else IDLE
  }

  /** What an API call or background tick may start a goroutine with. */
  predicate IsJob(pc: Pc)
  {
    match pc
    case PreCheck(_) => true
    case Wait(n, op) => (op.OpConnect? ==> op.cfg.name == n) && !op.OpEnsure? && !(op.OpBackoff? && op.auto)
    case Demote(_) => true
    case WantProvider(_) => true
    case LoadFile(_) => true
    case Go(k) => k.SaveCache? && !k.held
    case _ => false
  }

  // ---------------------------------------------------------------- enabledness

  predicate CanAdvance(s: State, g: Gid)
  {
    match s.PcOf(g)
    case Go(k) => !k.Done?
    case Wait(n, _) => n !in s.sem
    case Dial(_, _, _) => false
    case Listing(_, _, _) => false
    case BackoffSleep(_, wake, _) => wake <= s.now
    case Rebuild(_) => s.rebuildMu.None?
    case WantProvider(_) => s.rebuildMu.None?
    case _ => true
  }

  predicate CanCancel(pc: Pc)
  {
    pc.Wait? || pc.BackoffSleep? || pc.WriteCache? || pc.LoadFile?
  }

  ghost predicate Injective<K, V>(m: map<K, V>)
  {
    forall a, b | a in m && b in m && m[a] == m[b] :: a == b
  }

  ghost predicate Enumerates(order: seq<Name>, names: set<Name>)
  {
    && (forall n :: n in order <==> n in names)
    && (forall i, j | 0 <= i < j < |order| :: order[i] != order[j])
  }

  ghost predicate Enabled(s: State, e: Event)
  {
    match e
    case Tick(_) => true
    case Start(g, job) => s.PcOf(g) == IDLE && IsJob(job)
    case Cancel(g) => CanCancel(s.PcOf(g))
    case Advance(g) => CanAdvance(s, g)
    case DialFails(g, _) => s.PcOf(g).Dial?
    case DialOpens(g, x) => s.PcOf(g).Dial? && x !in s.dialled
    case Listed(g, _) => s.PcOf(g).Listing?
    case Configure(_) => true
    case AutoScan(spawned) =>
      && spawned.Values == ScanTargets(s.core)
      && Injective(spawned)
      && forall g <- spawned :: s.PcOf(g) == IDLE
    case Close(order) => Enumerates(order, s.core.connections.Keys)
    case LoseCache => true
    case Restart => true
  }

  // ---------------------------------------------------------------- steps

  function Cancelled(pc: Pc): Pc
    requires CanCancel(pc)
  {
    match pc
    case Wait(n, op) => Exit(n, op.OpBackoff? && op.auto)
    case BackoffSleep(n, _, retry) => Go(Release(n, retry.auto))
    case WriteCache(n, _, held) => AfterCache(n, held)
    case LoadFile(_) => IDLE
  }

  /** A connection taken out of the map is closed outside the lock, then the index is
      rebuilt. */
  function Teardown(c: Core, n: Name, k: Cont): Pc
  {
    if n in c.connections then Shut(c.connections[n], true, k) else Rebuild(k)
  }

  /** markConnectionFailed. */
  function StepDemote(s: State, g: Gid, n: Name): State
  {
    if !IsConnected(s.core, n) then s.At(g, IDLE)
    else s.(core := MarkFailed(s.core, n, s.now), cooling := s.cooling[n := s.now])
          .At(g, Teardown(s.core, n, Done))
  }

  /** disconnectLocked. */
  function StepDrop(s: State, g: Gid, n: Name, k: Cont): State
  {
    if n !in s.core.connections then s.At(g, Go(k))
    else s.(core := DropConnection(s.core, n)).At(g, Teardown(s.core, n, k))
  }

  /** Unregister. */
  function StepRemove(s: State, g: Gid, n: Name): State
  {
    if n !in s.core.states then s.At(g, Go(Release(n, false)))
    else s.(core := RemoveName(s.core, n), cooling := s.cooling - {n})
          .At(g, Teardown(s.core, n, Release(n, false)))
  }

  /** connectLocked, up to the dial. */
  function StepBegin(s: State, g: Gid, cfg: MCPConfig, goal: Goal): State
  {
    s.(core := MarkConnecting(s.core, cfg)).At(g, Dial(cfg, PrevAttempts(s.core, cfg.name), Dialled(goal)))
  }

  /** connectLocked's install section: a session that comes too late is closed instead,
      and one it replaces is closed after it. */
  function StepInstall(s: State, g: Gid, cfg: MCPConfig, x: Session, listing: Option<seq<ToolInfo>>, goal: Goal): State
  {
    if s.core.closed then s.At(g, Shut(x, false, After(cfg.name, false, goal)))
    else
      s.(core := InstallSession(s.core, cfg, x, listing), cooling := s.cooling - {cfg.name})
       .At(g, Teardown(s.core, cfg.name, After(cfg.name, true, goal)))
  }

  /** EnsureConnected before it waits for the semaphore. */
  function StepPreCheck(s: State, g: Gid, n: Name): State
  {
    s.At(g,
      if n !in s.core.states then IDLE
      else
        match s.core.states[n].phase
        case Cached => Wait(n, OpEnsure)
        case Configured => Wait(n, OpEnsure)
        case Connecting => Wait(n, OpEnsure)
        case Errored => if WithinWindow(s.core.states[n], s.now) then IDLE else Wait(n, OpEnsure)
        case _ => IDLE)
  }

  /** EnsureConnected's second look, under the semaphore. */
  function StepRecheck(s: State, g: Gid, n: Name): State
  {
    s.At(g, Go(
      if n !in s.core.states then Release(n, false)
      else
        var st := s.core.states[n];
        match st.phase
        case Cached => Begin(st.config, Lazy)
        case Configured => Begin(st.config, Lazy)
        case Errored => if WithinWindow(st, s.now) then Release(n, false) else Begin(st.config, Lazy)
        case _ => Release(n, false)))
  }

  /** reconnectLocked reads the configuration; a name nobody configured is an error. */
  function StepReadConfig(s: State, g: Gid, n: Name, goal: Goal): State
  {
    s.At(g,
      if n in s.core.states then Drop(n, Begin(s.core.states[n].config, goal))
      else Go(After(n, false, goal)))
  }

  function StepBackoffRead(s: State, g: Gid, n: Name, arg: int, auto: bool): State
  {
    s.At(g,
      if n !in s.core.states then Go(Release(n, auto))
      else
        var budget := RetryBudget(arg, s.core.states[n].config);
        if budget.None? then Go(Release(n, auto))
        else BackoffMark(n, s.core.states[n].attempts, budget.value, auto))
  }

  /** One turn of LoadCache's loop. */
  function StepLoadNext(s: State, g: Gid, todo: seq<(Name, MCPConfig)>, file: map<Name, CacheEntry>,
                        changed: bool): State
  {
    if todo == [] then s.At(g, if changed then Rebuild(Done) else IDLE)
    else
      var (key, cfg) := todo[0];
      if cfg.isDynamic || key !in file || file[key].configHash != ConfigHash(cfg) || IsConnected(s.core, cfg.name)
      then s.At(g, LoadNext(todo[1..], file, changed))
      else s.(core := SetCached(s.core, cfg, FromCache(file[key].tools)),
              cooling := s.cooling - {cfg.name},
              disturbed := s.disturbed + {cfg.name}).At(g, LoadNext(todo[1..], file, true))
  }

  function StepGo(s: State, g: Gid, k: Cont): State
  {
    match k
    case Done => s
    case Begin(cfg, goal) => StepBegin(s, g, cfg, goal)
    case SaveCache(n, held) =>
      s.At(g, if EntryFor(s.core, n).Some? then WriteCache(n, EntryFor(s.core, n).value, held)
              else AfterCache(n, held))
    case CountRetry(n, retry) =>
      s.(core := SetAttempts(s.core, n, retry.base + retry.attempt), disturbed := s.disturbed - {n})
       .At(g, BackoffSleep(n, s.now + Backoff(retry.attempt), retry))
    case ResetCount(n, auto) => s.(core := SetAttempts(s.core, n, 0)).At(g, Go(Release(n, auto)))
    case GiveUpRetry(n, retry) =>
      s.(core := GiveUp(s.core, n, s.now),
         cooling := if n in s.core.states then s.cooling[n := s.now] else s.cooling).At(g, Go(Release(n, retry.auto)))
    case Release(n, auto) => s.(sem := s.sem - {n}).At(g, Exit(n, auto))
  }

  function StepAdvance(s: State, g: Gid): State
    requires CanAdvance(s, g)
  {
    match s.PcOf(g)
    case Go(k) => StepGo(s, g, k)
    case PreCheck(n) => StepPreCheck(s, g, n)
    case Wait(n, op) => s.(sem := s.sem[n := g]).At(g, Entry(n, op))
    case Recheck(n) => StepRecheck(s, g, n)
    case ReadConfig(n, goal) => StepReadConfig(s, g, n, goal)
    case Drop(n, k) => StepDrop(s, g, n, k)
    case Remove(n) => StepRemove(s, g, n)
    case Install(cfg, x, listing, goal) => StepInstall(s, g, cfg, x, listing, goal)
    case BackoffRead(n, arg, auto) => StepBackoffRead(s, g, n, arg, auto)
    case BackoffMark(n, base, max, auto) =>
      s.(core := SetReconnecting(s.core, n)).At(g, Go(CountRetry(n, Retry(base, 1, max, 0, auto))))
    case BackoffSleep(n, _, retry) => s.At(g, ReadConfig(n, retry))
    case Shut(x, rebuild, k) => s.(closes := s.closes + [x]).At(g, if rebuild then Rebuild(k) else Go(k))
    case Rebuild(k) => s.(rebuildMu := Some(g)).At(g, Snapshot(k))
    case Snapshot(k) => s.At(g, Publish(s.core.tools, s.core.provider, k))
    case Publish(tools, p, k) =>
      s.(core := s.core.(index := BuildIndex(tools, p)), rebuildMu := None).At(g, Go(k))
    case WriteCache(n, entry, held) => s.(file := s.file[n := entry]).At(g, AfterCache(n, held))
    case AutoDone(n) => s.(core := s.core.(reconnecting := s.core.reconnecting - {n})).At(g, IDLE)
    case Demote(n) => StepDemote(s, g, n)
    case WantProvider(p) => s.(rebuildMu := Some(g)).At(g, SwapProvider(p))
    case SwapProvider(p) => s.(core := s.core.(provider := p)).At(g, Publish(s.core.tools, p, Done))
    case LoadFile(todo) => s.At(g, LoadNext(todo, s.file, false))
    case LoadNext(todo, file, changed) => StepLoadNext(s, g, todo, file, changed)
  }

  function StepDialFails(s: State, g: Gid, auth: bool): State
    requires s.PcOf(g).Dial?
  {
    var Dial(cfg, attempts, goal) := s.PcOf(g);
    s.(core := SetError(s.core, cfg, if auth then NeedsAuth else Errored, attempts, s.now),
       cooling := s.cooling[cfg.name := s.now]).At(g, Go(After(cfg.name, false, goal)))
  }

  function StepDialOpens(s: State, g: Gid, x: Session): State
    requires s.PcOf(g).Dial?
  {
    var Dial(cfg, _, goal) := s.PcOf(g);
    s.(sessions := s.sessions + {x}, dialled := s.dialled[x := cfg]).At(g, Listing(cfg, x, goal))
  }

  function StepListed(s: State, g: Gid, listed: Option<seq<ListedTool>>): State
    requires s.PcOf(g).Listing?
  {
    var Listing(cfg, x, goal) := s.PcOf(g);
    if listed.None? then s.At(g, Install(cfg, x, None, goal))
    else
      var tools := FetchTools(cfg.name, listed.value);
      s.(reports := s.reports + {Report(x, cfg, tools)}).At(g, Install(cfg, x, Some(tools), goal))
  }

  /** The sessions Close closes, in the order the map happens to be iterated. */
  function SessionsIn(c: Core, order: seq<Name>): (r: seq<Session>)
    requires forall n <- order :: n in c.connections
  {
    seq(|order|, i requires 0 <= i < |order| => assert order[i] in order; c.connections[order[i]])
  }

  function StepScan(s: State, spawned: map<Gid, Name>): State
  {
    s.(core := s.core.(reconnecting := s.core.reconnecting + ScanTargets(s.core)),
       pcs := s.pcs + map g | g in spawned :: Wait(spawned[g], OpBackoff(0, true)))
  }

  /** A new process: nothing survives but the clock, the cache file and the history. */
  function NewProcess(file: map<Name, CacheEntry>, now: Time, dialled: map<Session, MCPConfig>,
                      reports: set<Report>): State
  {
    State(Core(map[], map[], map[], NoProvider, BuildIndex(map[], NoProvider), false, {}),
          map[], None, map[], now, file, {}, [], dialled, reports, map[], {})
  }

  const INITIAL: State := NewProcess(map[], 0, map[], {})

  function Next(s: State, e: Event): State
    requires Enabled(s, e)
  {
    match e
    case Tick(d) => s.(now := s.now + d)
    case Start(g, job) => s.At(g, job)
    case Cancel(g) => s.At(g, Cancelled(s.PcOf(g)))
    case Advance(g) => StepAdvance(s, g)
    case DialFails(g, auth) => StepDialFails(s, g, auth)
    case DialOpens(g, x) => StepDialOpens(s, g, x)
    case Listed(g, listed) => StepListed(s, g, listed)
    case Configure(cfg) => s.(core := SetConfigured(s.core, cfg))
    case AutoScan(spawned) => StepScan(s, spawned)
    case Close(order) => s.(core := Shutdown(s.core), closes := s.closes + SessionsIn(s.core, order))
    case LoseCache => s.(file := map[])
    case Restart => NewProcess(s.file, s.now, s.dialled, s.reports)
  }

  // ---------------------------------------------------------------- runs

  ghost predicate IsRun(s: State, events: seq<Event>)
    decreases events
  {
    events == [] || (Enabled(s, events[0]) && IsRun(Next(s, events[0]), events[1..]))
  }

  ghost function Run(s: State, events: seq<Event>): State
    requires IsRun(s, events)
    decreases events
  {
    if events == [] then s else Run(Next(s, events[0]), events[1..])
  }

  ghost predicate Reachable(s: State)
  {
    exists events :: IsRun(INITIAL, events) && Run(INITIAL, events) == s
  }
}
