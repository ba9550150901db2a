/** What the registry promises, for every run: any number of goroutines and names, any
    interleaving, any outcome of each dial, listing and save. */
module RegistryTheorems {
  import opened Options
  import opened McpConfig
  import opened RegistryCore
  import opened RegistryMachine
  import opened RegistryInvariants
  import opened RegistrySteps

  // ---------------------------------------------------------------- every reachable state

  predicate OfGoroutine(e: Event)
  {
    e.Start? || e.Cancel? || e.Advance? || e.DialFails? || e.DialOpens? || e.Listed?
  }

  /** Every event of a goroutine is one move. */
  lemma EventMoves(s: State, e: Event) returns (n: Name, m: SessionMove)
    requires Inv(s) && Enabled(s, e) && OfGoroutine(e)
    ensures Moved(s, Next(s, e), e.g, n, m)
  {
    hide Inv, Fit, Moved, StepAdvance, StepDialFails, StepDialOpens, StepListed;
    m := Quiet;
    match e
    case Start(g, job) => n := ""; StartMoves(s, g, job);
    case Cancel(g) => n := ""; FitsIn(s, g, n); CancelMoves(s, g);
    case Advance(g) => n, m := AdvanceMoves(s, g);
    case DialFails(g, auth) => n := s.PcOf(g).cfg.name; FitsIn(s, g, n); DialFailsMoves(s, g, auth);
    case DialOpens(g, x) => n, m := s.PcOf(g).cfg.name, Opens(x); FitsIn(s, g, n); DialOpensMoves(s, g, x);
    case Listed(g, listed) => n := s.PcOf(g).cfg.name; FitsIn(s, g, n); ListedMoves(s, g, listed);
  }

  lemma NextKeeps(s: State, e: Event)
    requires Inv(s) && Enabled(s, e)
    ensures Inv(Next(s, e))
  {
    if OfGoroutine(e) {
      hide Inv, Moved, Next, Enabled;
      var n, m := EventMoves(s, e);
      MovedKeeps(s, Next(s, e), e.g, n, m);
    } else {
      hide Inv, Ambient, FileBacked, ReportsInv, StepScan, Shutdown, StepAdvance;
      Persisted(s);
      match e
      case Tick(d) => TickAmbient(s, s.now + d, s.file); AmbientKeeps(s, Next(s, e));
      case Configure(cfg) => ConfigureAmbient(s, cfg); AmbientKeeps(s, Next(s, e));
      case AutoScan(spawned) => ScanKeeps(s, spawned);
      case Close(order) => CloseKeeps(s, order);
      case LoseCache =>
        NothingCached(s.reports);
        TickAmbient(s, s.now, map[]);
        AmbientKeeps(s, Next(s, e));
      case Restart => NewProcessInv(s.file, s.now, s.dialled, s.reports);
    }
  }

  /** The persistent part of the invariant. */
  lemma Persisted(s: State)
    requires Inv(s)
    ensures FileBacked(s.reports, s.file) && ReportsInv(s.dialled, s.reports)
  {
  }

  lemma NothingCached(reports: set<Report>)
    ensures FileBacked(reports, map[])
  {
  }

  lemma NewProcessInv(file: map<Name, CacheEntry>, now: Time, dialled: map<Session, MCPConfig>, reports: set<Report>)
    requires ReportsInv(dialled, reports) && FileBacked(reports, file)
    ensures Inv(NewProcess(file, now, dialled, reports))
  {
  }

  lemma {:induction false} RunKeeps(s: State, events: seq<Event>)
    requires Inv(s) && IsRun(s, events)
    ensures Inv(Run(s, events))
    decreases events
  {
    hide Inv, Enabled, Next;
    if events != [] {
      NextKeeps(s, events[0]);
      RunKeeps(Next(s, events[0]), events[1..]);
    }
  }

  lemma ReachableInv(s: State)
    requires Reachable(s)
    ensures Inv(s)
  {
    NothingCached({});
    NewProcessInv(map[], 0, map[], {});
    var events :| IsRun(INITIAL, events) && Run(INITIAL, events) == s;
    RunKeeps(INITIAL, events);
  }

  // ---------------------------------------------------------------- sessions

  ghost predicate Installed(s: State, x: Session)
  {
    exists n :: InstalledAt(s, n, x)
  }

  ghost predicate InHand(s: State, x: Session)
  {
    exists g :: InFlight(s, g, x)
  }

  /** A session a dial opened is installed under one name, or in one goroutine's hands, or
      closed: exactly one of the three, and it has been closed at most once. */
  lemma SessionConservation(s: State, x: Session)
    requires Reachable(s) && x in s.sessions
    ensures Installed(s, x) || InHand(s, x) || x in s.closes
    ensures !(Installed(s, x) && InHand(s, x))
    ensures !(Installed(s, x) && x in s.closes) && !(InHand(s, x) && x in s.closes)
    ensures forall n, m :: InstalledAt(s, n, x) && InstalledAt(s, m, x) ==> n == m
    ensures forall g, h :: InFlight(s, g, x) && InFlight(s, h, x) ==> g == h
    ensures multiset(s.closes)[x] <= 1
  {
    ReachableInv(s);
    DistinctOnce(s.closes, x);
  }

  lemma {:induction false} DistinctOnce(a: seq<Session>, x: Session)
    requires Distinct(a)
    ensures multiset(a)[x] == if x in a then 1 else 0
  {
    if a != [] {
      var last := |a| - 1;
      assert a == a[..last] + [a[last]];
      assert a[last] !in a[..last];
      DistinctOnce(a[..last], x);
    }
  }

  ghost predicate Quiescent(s: State)
  {
    forall g :: s.PcOf(g) == IDLE
  }

  /** Once Close has run and every goroutine is done, each session ever opened has been
      closed, once. */
  lemma NothingLeaks(s: State, x: Session)
    requires Reachable(s) && s.core.closed && Quiescent(s) && x in s.sessions
    ensures multiset(s.closes)[x] == 1
  {
    ReachableInv(s);
    SessionConservation(s, x);
    DistinctOnce(s.closes, x);
    forall n ensures !InstalledAt(s, n, x) { assert NameInv(s, n); }
    forall g ensures !InFlight(s, g, x) { assert s.PcOf(g) == IDLE; }
  }

  // ---------------------------------------------------------------- index

  /** A goroutine that will make the index right: it has yet to take its snapshot, or the
      one it holds is of the current tools and overrides. */
  ghost predicate WillRefresh(s: State, g: Gid)
  {
    var pc := s.PcOf(g);
    OwesRebuild(pc) || (pc.Publish? && pc.tools == s.core.tools && pc.provider == s.core.provider)
  }

  lemma IndexNeverStale(s: State)
    requires Reachable(s)
    ensures Shows(s.core.index, s.core.tools, s.core.provider) || exists g :: WillRefresh(s, g)
  {
    ReachableInv(s);
    IndexShows(s.core.tools, s.core.provider);
    hide Shows, BuildIndex;
    if g :| g in s.pcs && OwesRebuild(s.pcs[g]) {
      assert WillRefresh(s, g);
    } else if s.rebuildMu.Some? && s.pcs[s.rebuildMu.value].Publish? {
      assert WillRefresh(s, s.rebuildMu.value);
    }
  }

  lemma IndexFreshAtRest(s: State)
    requires Reachable(s) && Quiescent(s)
    ensures Shows(s.core.index, s.core.tools, s.core.provider)
  {
    IndexNeverStale(s);
    hide Shows;
  }

  // ---------------------------------------------------------------- lifecycle

  lemma ConnectedMeansInstalled(s: State, n: Name)
    requires Reachable(s) && IsConnected(s.core, n)
    ensures n in s.core.connections && !s.core.closed
  {
    ReachableInv(s);
    assert NameInv(s, n);
  }

  lemma OthersNeverConnect(s: State, e: Event, n: Name)
    requires Enabled(s, e) && !OfGoroutine(e) && IsConnected(Next(s, e).core, n)
    ensures IsConnected(s.core, n)
  {
    hide BuildIndex, SessionsIn;
  }

  /** Only the goroutine inside n's semaphore, at the end of its dial, makes n Connected. */
  lemma OnlyTheHolderConnects(s: State, e: Event, n: Name)
    requires Reachable(s) && Enabled(s, e)
    requires !IsConnected(s.core, n) && IsConnected(Next(s, e).core, n)
    ensures OfGoroutine(e) && s.PcOf(e.g).Install? && s.PcOf(e.g).cfg.name == n
    ensures n in s.sem && s.sem[n] == e.g && !s.core.closed
  {
    ReachableInv(s);
    if !OfGoroutine(e) { OthersNeverConnect(s, e, n); }
    hide Next, Enabled, Ledger, IndexMove, SemMove, AutoMove, Lands;
    var k, m := EventMoves(s, e);
    assert k != n ==> NameUntouched(s, Next(s, e), n);
    assert Holds(s.pcs[e.g]) == Some(n);
  }

  predicate Dialling(pc: Pc, n: Name)
  {
    (pc.Dial? || pc.Listing? || pc.Install?) && pc.cfg.name == n
  }

  /** A failed call or health check cannot demote a name while a dial for it is under way. */
  lemma DemotionNeverHitsADial(s: State, g: Gid, h: Gid, n: Name)
    requires Reachable(s) && Dialling(s.PcOf(h), n) && s.PcOf(g) == Demote(n)
    ensures StepAdvance(s, g) == s.At(g, IDLE)
  {
    ReachableInv(s);
    assert LocalInv(s, s.pcs[h]);
    hide SemInv, SessionInv, IndexInv, AutoInv, NameInv, Account, Provenance, StepGo, StepInstall, StepLoadNext;
  }

  /** After Close nothing is installed and no name is Connected again, for the rest of the
      process's life. */
  lemma ClosedForGood(s: State, events: seq<Event>)
    requires Reachable(s) && IsRun(s, events) && s.core.closed && Restart !in events
    ensures Run(s, events).core.closed
    ensures Run(s, events).core.connections == map[]
    ensures forall n :: !IsConnected(Run(s, events).core, n)
  {
    ReachableInv(s);
    RunKeeps(s, events);
    RunStaysClosed(s, events);
    var t := Run(s, events);
    forall n ensures !IsConnected(t.core, n) && n !in t.core.connections { assert NameInv(t, n); }
  }

  lemma {:induction false} RunStaysClosed(s: State, events: seq<Event>)
    requires Inv(s) && IsRun(s, events) && s.core.closed && Restart !in events
    ensures Run(s, events).core.closed
    decreases events
  {
    hide Inv, Enabled, Next;
    if events != [] {
      NextKeeps(s, events[0]);
      StaysClosed(s, events[0]);
      RunStaysClosed(Next(s, events[0]), events[1..]);
    }
  }

  lemma StaysClosed(s: State, e: Event)
    requires Inv(s) && Enabled(s, e) && s.core.closed && e != Restart
    ensures Next(s, e).core.closed
  {
    if OfGoroutine(e) {
      var n, m := EventMoves(s, e);
      hide Next;
    }
  }

  // ---------------------------------------------------------------- no connect storm

  /** Event e is a failed dial of n, or the demotion of a live n. */
  ghost predicate Fails(s: State, e: Event, n: Name)
  {
    || (e.DialFails? && s.PcOf(e.g).Dial? && s.PcOf(e.g).cfg.name == n)
    || (e.Advance? && s.PcOf(e.g) == Demote(n) && IsConnected(s.core, n))
  }

  /** Event e wipes the failure of n out: a new session installed, an unregister, a cache
      load of n that takes effect, or a new process. */
  predicate Overrides(s: State, e: Event, n: Name)
  {
    e.Restart? || (OfGoroutine(e) && Lifts(s, s.PcOf(e.g), n))
  }

  ghost predicate NeverOverridden(s: State, events: seq<Event>, n: Name)
    requires IsRun(s, events)
    decreases events
  {
    events == [] || (!Overrides(s, events[0], n) && NeverOverridden(Next(s, events[0]), events[1..], n))
  }

  /** After n fails, EnsureConnected does not dial n for 30 seconds, however many goroutines
      call it, unless a success, an unregister or a cache load comes first. */
  lemma NoConnectStorm(s: State, e: Event, events: seq<Event>, n: Name, g: Gid)
    requires Reachable(s) && Enabled(s, e) && Fails(s, e, n)
    requires IsRun(Next(s, e), events) && NeverOverridden(Next(s, e), events, n)
    requires LazyDial(Run(Next(s, e), events).PcOf(g)) == Some(n)
    ensures Run(Next(s, e), events).now >= s.now + 30_000_000_000
  {
    ReachableInv(s);
    var t := Next(s, e);
    NextKeeps(s, e);
    FailureIsNoted(s, e, n);
    StaysCooling(t, events, n, s.now);
    var u := Run(t, events);
    RunKeeps(t, events);
    assert LocalInv(u, u.PcOf(g));
    hide Next, Enabled, SemInv, SessionInv, IndexInv, AutoInv, NameInv, Account, Provenance;
  }

  lemma FailureIsNoted(s: State, e: Event, n: Name)
    requires Enabled(s, e) && Fails(s, e, n)
    ensures var t := Next(s, e); n in t.cooling && t.cooling[n] == s.now == t.now
  {
    hide SetError, MarkFailed, StepGo, StepInstall, StepLoadNext;
  }

  lemma {:induction false} StaysCooling(s: State, events: seq<Event>, n: Name, since: Time)
    requires Inv(s) && IsRun(s, events) && NeverOverridden(s, events, n)
    requires n in s.cooling && since <= s.cooling[n] && since <= s.now
    ensures n in Run(s, events).cooling && since <= Run(s, events).cooling[n]
    decreases events
  {
    hide Inv, Enabled, Next, Overrides;
    if events != [] {
      NextKeeps(s, events[0]);
      CoolingStep(s, events[0], n, since);
      StaysCooling(Next(s, events[0]), events[1..], n, since);
    }
  }

  lemma CoolingStep(s: State, e: Event, n: Name, since: Time)
    requires Inv(s) && Enabled(s, e) && !Overrides(s, e, n)
    requires n in s.cooling && since <= s.cooling[n] && since <= s.now
    ensures n in Next(s, e).cooling && since <= Next(s, e).cooling[n] && since <= Next(s, e).now
  {
    if OfGoroutine(e) {
      hide Inv, Next, Enabled, Ledger, IndexMove, SemMove, AutoMove, Lands;
      var k, m := EventMoves(s, e);
      assert k != n ==> NameUntouched(s, Next(s, e), n);
    }
  }

  // ---------------------------------------------------------------- cache

  /** Whatever the cache file holds for n was reported by a session of n, in this process or
      an earlier one, dialled with a configuration of that hash. */
  lemma CacheHoldsReports(s: State, n: Name)
    requires Reachable(s) && n in s.file
    ensures exists r :: (
      && r in s.reports && r.session in s.dialled && s.dialled[r.session] == r.config && r.config.name == n
      && s.file[n].configHash == ConfigHash(r.config) && s.file[n].tools == ToCached(r.tools))
  {
    ReachableInv(s);
  }

  /** A name in state Cached offers exactly a list some session dialled with an equally
      hashed configuration reported. */
  lemma CachedToolsWereReported(s: State, n: Name)
    requires Reachable(s) && n in s.core.states && s.core.states[n].phase == Cached
    ensures n in s.core.tools
    ensures exists r :: (
      && r in s.reports && r.session in s.dialled && s.dialled[r.session] == r.config
      && ConfigHash(r.config) == ConfigHash(s.core.states[n].config) && r.tools == s.core.tools[n])
  {
    ReachableInv(s);
    assert NameInv(s, n);
  }

  // ---------------------------------------------------------------- reconnect accounting

  /** A backoff loop that runs out of retries has dialled exactly that often, and its last
      step leaves the name in Error with the counter raised by that much, unless a cache
      load replaced the state since the last wait began. */
  lemma RetriesAreCounted(s: State, g: Gid, n: Name, retry: RetryGoal)
    requires Reachable(s) && s.PcOf(g) == Go(GiveUpRetry(n, retry))
    ensures retry.dials == retry.max
    ensures n in s.core.states && StepAdvance(s, g).core.states[n].phase == Errored
    ensures StepAdvance(s, g).core.states[n].lastFailure == Some(s.now)
    ensures n !in s.disturbed ==> StepAdvance(s, g).core.states[n].attempts == retry.base + retry.max
  {
    ReachableInv(s);
    assert LocalInv(s, s.pcs[g]);
  }

  /** Before the wait of attempt k the loop has dialled k - 1 times, and the counter shows
      attempt k. */
  lemma AttemptsAreDials(s: State, g: Gid, n: Name, wake: Time, retry: RetryGoal)
    requires Reachable(s) && s.PcOf(g) == BackoffSleep(n, wake, retry)
    ensures retry.dials + 1 == retry.attempt <= retry.max
    ensures n !in s.disturbed ==> n in s.core.states && s.core.states[n].attempts == retry.base + retry.attempt
  {
    ReachableInv(s);
    assert LocalInv(s, s.pcs[g]);
  }

  /** A dial of the loop that succeeds leaves the name Connected with the counter at zero,
      within the budget. */
  lemma RetrySucceeds(s: State, g: Gid, cfg: MCPConfig, x: Session, listing: Option<seq<ToolInfo>>, retry: RetryGoal)
    requires Reachable(s) && s.PcOf(g) == Install(cfg, x, listing, retry) && !s.core.closed
    ensures retry.dials == retry.attempt <= retry.max
    ensures var t := StepAdvance(s, g);
      IsConnected(t.core, cfg.name) && t.core.states[cfg.name].attempts == 0 && t.core.connections[cfg.name] == x
  {
    ReachableInv(s);
    assert LocalInv(s, s.pcs[g]);
  }

  /** A name's auto-reconnect flag is set exactly while one goroutine reconnects it, and
      never two. */
  lemma OneAutoReconnect(s: State, n: Name)
    requires Reachable(s)
    ensures n in s.core.reconnecting <==> exists g :: Reconnects(s, g, n)
    ensures forall g, h :: Reconnects(s, g, n) && Reconnects(s, h, n) ==> g == h
  {
    ReachableInv(s);
  }

  predicate Claimable(c: Core, n: Name)
  {
    n in c.states && c.states[n].phase == Errored && c.states[n].config.maxRetries != -1
  }

  /** A scan sets the flag of every name in Error that allows reconnecting, and starts one
      goroutine each for those that had none, and for nothing else. */
  lemma ScanReconnectsTheErrored(s: State, spawned: map<Gid, Name>)
    requires Reachable(s) && Enabled(s, AutoScan(spawned))
    ensures var t := Next(s, AutoScan(spawned));
      && (forall n | Claimable(s.core, n) ::
            n in t.core.reconnecting && exists g :: Reconnects(t, g, n))
      && (forall n :: n in t.core.reconnecting && n !in s.core.reconnecting <==> n in spawned.Values)
      && (forall g <- spawned :: Claimable(s.core, spawned[g]) && spawned[g] !in s.core.reconnecting)
      && (forall g <- spawned :: s.PcOf(g) == IDLE && t.PcOf(g) == Wait(spawned[g], OpBackoff(0, true)))
      && (forall g | g !in spawned :: t.PcOf(g) == s.PcOf(g))
  {
    ReachableInv(s);
    InvHasAuto(s);
    ScanAuto(s, spawned);
    FlagsHaveGoroutines(StepScan(s, spawned));
    ScanClaims(s, spawned);
    ScanSpawns(s, spawned);
    hide Inv, AutoInv, Enabled, Next, Reconnects, Claimable, StepScan;
    assert Next(s, AutoScan(spawned)) == StepScan(s, spawned) by { ScanIsNext(s, spawned); }
  }

  lemma ScanIsNext(s: State, spawned: map<Gid, Name>)
    requires Enabled(s, AutoScan(spawned))
    ensures Next(s, AutoScan(spawned)) == StepScan(s, spawned)
  {
  }

  lemma InvHasAuto(s: State)
    requires Inv(s)
    ensures AutoInv(s)
  {
  }

  lemma FlagsHaveGoroutines(s: State)
    requires AutoInv(s)
    ensures forall n <- s.core.reconnecting :: exists g :: Reconnects(s, g, n)
  {
  }

  lemma ScanClaims(s: State, spawned: map<Gid, Name>)
    requires Enabled(s, AutoScan(spawned))
    ensures var t := Next(s, AutoScan(spawned));
      && (forall n | Claimable(s.core, n) :: n in t.core.reconnecting)
      && t.core.reconnecting == s.core.reconnecting + spawned.Values
      && (forall n <- spawned.Values :: Claimable(s.core, n) && n !in s.core.reconnecting)
  {
  }

  lemma ScanSpawns(s: State, spawned: map<Gid, Name>)
    requires Enabled(s, AutoScan(spawned))
    ensures var t := Next(s, AutoScan(spawned));
      && (forall g <- spawned :: s.PcOf(g) == IDLE && t.PcOf(g) == Wait(spawned[g], OpBackoff(0, true)))
      && (forall g | g !in spawned :: t.PcOf(g) == s.PcOf(g))
      && (forall g <- spawned :: spawned[g] in spawned.Values)
  {
    hide ScanTargets;
  }

  // ---------------------------------------------------------------- nobody is stuck

  /** This goroutine has a step to take: at once, when its dial or listing returns, or when
      its time has come. */
  predicate CanMove(s: State, g: Gid)
  {
    CanAdvance(s, g) || s.PcOf(g).Dial? || s.PcOf(g).Listing? || s.PcOf(g).BackoffSleep?
  }

  lemma RebuilderMoves(s: State) returns (h: Gid)
    requires Inv(s) && s.rebuildMu.Some?
    ensures CanMove(s, h)
  {
    h := s.rebuildMu.value;
    assert HoldsRebuildMu(s.pcs[h]);
  }

  /** Locks are taken in one order: whoever is under way can move, or waits for a semaphore
      or for the rebuild lock, whose holder, or the one that holder waits for, can move. */
  lemma NobodyIsStuck(s: State, g: Gid) returns (h: Gid)
    requires Reachable(s) && s.PcOf(g) != IDLE
    ensures CanMove(s, h)
  {
    ReachableInv(s);
    h := g;
    if s.PcOf(g).Wait? && s.PcOf(g).n in s.sem {
      h := s.sem[s.PcOf(g).n];
      assert Holds(s.pcs[h]).Some?;
    }
    if !CanMove(s, h) {
      RebuildWaits(s, h);
      h := RebuilderMoves(s);
    }
    hide Inv;
  }

  lemma RebuildWaits(s: State, h: Gid)
    requires s.PcOf(h) != IDLE && !CanMove(s, h) && !(s.PcOf(h).Wait? && s.PcOf(h).n in s.sem)
    ensures s.rebuildMu.Some?
  {
  }
}
