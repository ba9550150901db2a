/** Every event of the registry machine keeps the invariant. A step of one goroutine is
    summarised as a move (what it does to the locks, to the sessions, to the index, to
    one name); each conjunct of the invariant is kept by every move. */
module RegistrySteps {
  import opened Options
  import opened McpConfig
  import opened RegistryCore
  import opened RegistryMachine
  import opened RegistryInvariants

  // ---------------------------------------------------------------- moves

  ghost predicate SemMove(s: State, t: State, g: Gid)
  {
    var before, after := Holds(s.PcOf(g)), Holds(t.PcOf(g));
    || (t.sem == s.sem && after == before)
    || (before.None? && after.Some? && after.value !in s.sem && t.sem == s.sem[after.value := g])
    || (before.Some? && after.None? && t.sem == s.sem - {before.value})
  }

  datatype SessionMove = Quiet | Opens(x: Session) | Takes(n: Name) | Installs(n: Name) | Closes

  ghost predicate Ledger(s: State, t: State, g: Gid, m: SessionMove)
  {
    var before, after := Owned(s.PcOf(g)), Owned(t.PcOf(g));
    var was, now := s.core.connections, t.core.connections;
    match m
    case Quiet =>
      after == before && now == was && t.closes == s.closes && t.sessions == s.sessions
    case Opens(x) => (
      && before.None? && after == Some(x) && x !in s.dialled && x in t.dialled
      && now == was && t.closes == s.closes && t.sessions == s.sessions + {x})
    case Takes(n) => (
      && before.None? && n in was && after == Some(was[n])
      && now == was - {n} && t.closes == s.closes && t.sessions == s.sessions)
    case Installs(n) => (
      && before.Some? && after == (if n in was then Some(was[n]) else None)
      && now == was[n := before.value] && t.closes == s.closes && t.sessions == s.sessions)
    case Closes => (
      && before.Some? && after.None?
      && now == was && t.closes == s.closes + [before.value] && t.sessions == s.sessions)
  }

  ghost predicate IndexMove(s: State, t: State, g: Gid)
  {
    var before, after := s.PcOf(g), t.PcOf(g);
    var same := t.core.tools == s.core.tools && t.core.provider == s.core.provider;
    var out := !HoldsRebuildMu(before) && !HoldsRebuildMu(after);
    // nothing to do with the index
    || (same && out && t.core.index == s.core.index && t.rebuildMu == s.rebuildMu
        && (OwesRebuild(before) ==> OwesRebuild(after)))
    // tools change, and this goroutine owes a rebuild
    || (out && t.core.index == s.core.index && t.rebuildMu == s.rebuildMu && OwesRebuild(after))
    // rebuildMu is taken
    || (same && t.core.index == s.core.index && s.rebuildMu.None? && t.rebuildMu == Some(g)
        && !HoldsRebuildMu(before) && HoldsRebuildMu(after) && !after.Publish?
        && (OwesRebuild(before) ==> OwesRebuild(after)))
    // a snapshot is taken under rebuildMu
    || (t.rebuildMu == s.rebuildMu && HoldsRebuildMu(before) && after.Publish?
        && after.tools == t.core.tools && after.provider == t.core.provider)
    // and published
    || (same && before.Publish? && !HoldsRebuildMu(after) && t.rebuildMu.None?
        && t.core.index == BuildIndex(before.tools, before.provider))
  }

  ghost predicate AutoMove(s: State, t: State, g: Gid)
  {
    var before, after := AutoOf(s.PcOf(g)), AutoOf(t.PcOf(g));
    || (after == before && t.core.reconnecting == s.core.reconnecting)
    || (before.Some? && after.None? && t.core.reconnecting == s.core.reconnecting - {before.value})
  }

  predicate SameAt<V(==)>(n: Name, a: map<Name, V>, b: map<Name, V>)
  {
    (n in a <==> n in b) && (n in a ==> a[n] == b[n])
  }

  ghost predicate NameUntouched(s: State, t: State, n: Name)
  {
    && SameAt(n, s.core.states, t.core.states)
    && SameAt(n, s.core.connections, t.core.connections)
    && SameAt(n, s.core.tools, t.core.tools)
    && SameAt(n, s.cooling, t.cooling)
    && (n in s.disturbed <==> n in t.disturbed)
  }

  /** What a goroutine that holds n's semaphore can rely on while another one moves. */
  ghost predicate Bystander(s: State, t: State, n: Name)
  {
    n in s.core.states ==>
      && n in t.core.states
      && (s.core.states[n].phase != Connected ==>
            && t.core.states[n].phase != Connected
            && (n in t.cooling ==> n in s.cooling && t.cooling[n] == s.cooling[n])
            && (n !in t.disturbed ==> n !in s.disturbed && t.core.states[n].attempts == s.core.states[n].attempts))
  }

  ghost predicate HistoryGrows(s: State, t: State)
  {
    && s.now <= t.now
    && s.reports <= t.reports
    && (forall x <- s.dialled :: x in t.dialled && t.dialled[x] == s.dialled[x])
    && ReportsInv(t.dialled, t.reports)
    && FileBacked(t.reports, t.file)
  }

  /** Nothing to load, or nothing to load for this name. */
  predicate Skips(s: State, todo: seq<(Name, MCPConfig)>, file: map<Name, CacheEntry>)
  {
    todo == [] ||
    var (key, cfg) := todo[0];
    cfg.isDynamic || key !in file || file[key].configHash != ConfigHash(cfg) || IsConnected(s.core, cfg.name)
  }

  /** What overrides a recorded failure of n: a new session installed, an unregister, a cache
      load of n that takes effect. */
  predicate Lifts(s: State, pc: Pc, n: Name)
  {
    || (pc.Install? && pc.cfg.name == n && !s.core.closed)
    || (pc == Remove(n) && n in s.core.states)
    || (pc.LoadNext? && !Skips(s, pc.todo, pc.file) && pc.todo[0].1.name == n)
  }

  /** The visible transitions of one name. */
  ghost predicate NameMove(s: State, t: State, pc: Pc, n: Name)
  {
    && (IsConnected(t.core, n) && !IsConnected(s.core, n) ==> pc.Install? && pc.cfg.name == n && !s.core.closed)
    && (n in s.cooling && n !in t.cooling ==> Lifts(s, pc, n))
    && (n in t.cooling ==> t.cooling[n] == s.now || (n in s.cooling && t.cooling[n] == s.cooling[n]))
  }

  /** Goroutine g moves, and takes or leaves its locks, its session, its duties. */
  ghost predicate Locks(s: State, t: State, g: Gid, m: SessionMove)
  {
    && t.pcs == s.pcs[g := t.PcOf(g)]
    && SemMove(s, t, g)
    && Ledger(s, t, g, m)
    && IndexMove(s, t, g)
    && AutoMove(s, t, g)
  }

  /** n is the one name the step at pc, under the semaphore held, may touch. */
  ghost predicate Touches(s: State, t: State, pc: Pc, n: Name)
  {
    && HistoryGrows(s, t)
    && t.core.closed == s.core.closed
    && NameMove(s, t, pc, n)
    && (forall k | k != n :: NameUntouched(s, t, k))
    && (Holds(pc) != Some(n) ==> Bystander(s, t, n))
  }

  /** Goroutine g moves; n is the one name it may touch. */
  ghost predicate Moves(s: State, t: State, g: Gid, n: Name, m: SessionMove)
  {
    Locks(s, t, g, m) && Touches(s, t, s.PcOf(g), n)
  }

  /** The mover's own obligations, and the name's, hold again. */
  ghost predicate Lands(t: State, g: Gid, n: Name)
  {
    NameInv(t, n) && LocalInv(t, t.PcOf(g))
  }

  ghost predicate Moved(s: State, t: State, g: Gid, n: Name, m: SessionMove)
  {
    Moves(s, t, g, n, m) && Lands(t, g, n)
  }

  // ---------------------------------------------------------------- moves keep each conjunct

  lemma SemKept(s: State, t: State, g: Gid)
    requires SemInv(s) && t.pcs == s.pcs[g := t.PcOf(g)] && SemMove(s, t, g)
    ensures SemInv(t)
  {
  }

  /** What the ledger entry says of every session's place. */
  ghost predicate Places(s: State, t: State, g: Gid, n: Name)
  {
    var before, after := Owned(s.PcOf(g)), Owned(t.PcOf(g));
    && (forall h: Gid, x: Session :: InFlight(t, h, x) <==> if h == g then after == Some(x) else InFlight(s, h, x))
    && (forall x: Session :: InFlight(s, g, x) <==> before == Some(x))
    && (forall k, x | k != n :: InstalledAt(t, k, x) <==> InstalledAt(s, k, x))
    && (n in s.core.connections ==> InstalledAt(s, n, s.core.connections[n]))
  }

  function Shifted(m: SessionMove): Name
  {
    if m.Takes? || m.Installs? then m.n else ""
  }

  lemma LedgerPlaces(s: State, t: State, g: Gid, m: SessionMove)
    requires t.pcs == s.pcs[g := t.PcOf(g)] && Ledger(s, t, g, m)
    ensures Places(s, t, g, Shifted(m))
  {
    hide Owned;
    assert Owned(IDLE) == None by { NothingIdle(); }
  }

  lemma NothingIdle()
    ensures Owned(IDLE) == None
  {
  }

  lemma LedgerCovers(s: State, t: State, g: Gid, m: SessionMove)
    requires SessionInv(s) && Ledger(s, t, g, m) && Places(s, t, g, Shifted(m))
    ensures forall x <- t.sessions ::
      x in t.closes || (exists k :: InstalledAt(t, k, x)) || (exists h :: InFlight(t, h, x))
  {
    hide Owned;
    var n := Shifted(m);
    var before, after := Owned(s.PcOf(g)), Owned(t.PcOf(g));
    forall x <- t.sessions
      ensures x in t.closes || (exists k :: InstalledAt(t, k, x)) || (exists h :: InFlight(t, h, x))
    {
      if before == Some(x) || after == Some(x) {
        assert InFlight(t, g, x) || InstalledAt(t, n, x) || x in t.closes;
      } else if k :| InstalledAt(s, k, x) {
        assert InstalledAt(t, k, x);
      } else if h :| InFlight(s, h, x) {
        assert InFlight(t, h, x);
      }
    }
  }

  lemma LedgerKept(s: State, t: State, g: Gid, m: SessionMove)
    requires SessionInv(s) && t.pcs == s.pcs[g := t.PcOf(g)] && Ledger(s, t, g, m)
    requires s.dialled.Keys <= t.dialled.Keys
    ensures SessionInv(t)
  {
    hide Owned;
    LedgerPlaces(s, t, g, m);
    LedgerCovers(s, t, g, m);
  }

  lemma IndexKept(s: State, t: State, g: Gid)
    requires IndexInv(s) && t.pcs == s.pcs[g := t.PcOf(g)] && IndexMove(s, t, g)
    ensures IndexInv(t)
  {
  }

  lemma AutoKept(s: State, t: State, g: Gid)
    requires AutoInv(s) && t.pcs == s.pcs[g := t.PcOf(g)] && AutoMove(s, t, g)
    ensures AutoInv(t)
  {
    forall n <- t.core.reconnecting ensures exists h :: Reconnects(t, h, n) {
      var h :| Reconnects(s, h, n);
      assert Reconnects(t, h, n);
    }
  }

  lemma NameKept(s: State, t: State, n: Name)
    requires NameInv(s, n) && NameUntouched(s, t, n) && t.core.closed == s.core.closed && s.reports <= t.reports
    ensures NameInv(t, n)
  {
  }

  lemma NamesKept(s: State, t: State, g: Gid, n: Name, m: SessionMove)
    requires (forall k :: NameInv(s, k)) && Moved(s, t, g, n, m)
    ensures forall k :: NameInv(t, k)
  {
    hide NameInv, LocalInv, SemMove, Ledger, IndexMove, AutoMove, NameMove;
    forall k ensures NameInv(t, k) {
      if k != n {
        assert NameInv(s, k) && NameUntouched(s, t, k);
        NameKept(s, t, k);
      }
    }
  }

  lemma ProvenanceStable(s: State, t: State, pc: Pc)
    requires Provenance(s.dialled, s.reports, pc) && HistoryGrows(s, t)
    ensures Provenance(t.dialled, t.reports, pc)
  {
  }

  lemma AccountStable(s: State, t: State, pc: Pc)
    requires Account(s.core.states, s.disturbed, pc)
    requires pc.Drop? ==> HeldBy(pc.k) == Some(pc.n)
    requires Cold(pc).Some? ==> Cold(pc).value in s.core.states && !IsConnected(s.core, Cold(pc).value)
    requires Holds(pc).Some? ==> Bystander(s, t, Holds(pc).value)
    ensures Account(t.core.states, t.disturbed, pc)
  {
  }

  /** A goroutine standing still relies only on what its semaphore protects. */
  lemma StandsStill(s: State, t: State, pc: Pc)
    requires LocalInv(s, pc) && HistoryGrows(s, t)
    requires Holds(pc).Some? ==> Bystander(s, t, Holds(pc).value)
    ensures LocalInv(t, pc)
  {
    ProvenanceStable(s, t, pc);
    AccountStable(s, t, pc);
    assert Cold(pc).Some? ==> Holds(pc) == Cold(pc);
    assert LazyDial(pc).Some? ==> Cold(pc) == LazyDial(pc);
  }

  lemma MovedKeeps(s: State, t: State, g: Gid, n: Name, m: SessionMove)
    requires Inv(s) && Moved(s, t, g, n, m)
    ensures Inv(t)
  {
    SemKept(s, t, g);
    LedgerKept(s, t, g, m);
    IndexKept(s, t, g);
    AutoKept(s, t, g);
    NamesKept(s, t, g, n, m);
    OthersKept(s, t, g, n, m);
    hide SessionInv, IndexInv, AutoInv, SemInv, LocalInv, NameInv, SemMove, Ledger, IndexMove, AutoMove, NameMove;
  }

  lemma OthersKept(s: State, t: State, g: Gid, n: Name, m: SessionMove)
    requires Inv(s) && Moved(s, t, g, n, m)
    ensures forall h <- t.pcs :: LocalInv(t, t.pcs[h])
  {
    hide SessionInv, IndexInv, AutoInv, SemMove, Ledger, IndexMove, AutoMove, NameMove, NameInv;
    forall h <- t.pcs ensures LocalInv(t, t.pcs[h]) {
      if h != g {
        assert Holds(s.pcs[h]).Some? && Holds(s.pcs[h]) != Some(n) ==> NameUntouched(s, t, Holds(s.pcs[h]).value);
        StandsStill(s, t, s.pcs[h]);
      }
    }
  }

  // ---------------------------------------------------------------- steps that touch a name

  /** What a step may assume: its own goroutine's obligations, and those of the name it touches. */
  ghost predicate Fit(s: State, g: Gid, n: Name)
  {
    && g in s.pcs
    && LocalInv(s, s.pcs[g])
    && NameInv(s, n)
    && ReportsInv(s.dialled, s.reports)
    && FileBacked(s.reports, s.file)
  }

  /** A goroutine only changes its mind: nothing shared is touched. */
  ghost predicate SameDuties(before: Pc, after: Pc)
  {
    && Holds(after) == Holds(before) && Owned(after) == Owned(before) && AutoOf(after) == AutoOf(before)
    && !HoldsRebuildMu(before) && !HoldsRebuildMu(after)
    && (OwesRebuild(before) ==> OwesRebuild(after))
  }

  /** Everything the locks guard, apart from the states, is as it was. */
  ghost predicate SameShared(s: State, t: State)
  {
    && t.sem == s.sem && t.rebuildMu == s.rebuildMu && t.closes == s.closes && t.sessions == s.sessions
    && t.core.connections == s.core.connections && t.core.tools == s.core.tools
    && t.core.provider == s.core.provider && t.core.index == s.core.index
    && t.core.reconnecting == s.core.reconnecting
  }

  lemma SharedLocks(s: State, t: State, g: Gid)
    requires t.pcs == s.pcs[g := t.PcOf(g)] && SameDuties(s.PcOf(g), t.PcOf(g)) && SameShared(s, t)
    ensures Locks(s, t, g, Quiet)
  {
    hide Holds, Owned, AutoOf, BuildIndex;
  }

  /** Every name is as it was. */
  ghost predicate SameNames(s: State, t: State)
  {
    && t.core.states == s.core.states && t.core.connections == s.core.connections && t.core.tools == s.core.tools
    && t.core.closed == s.core.closed && t.cooling == s.cooling && t.disturbed == s.disturbed
    && HistoryGrows(s, t)
  }

  lemma SameNamesMoved(s: State, t: State, g: Gid, n: Name, m: SessionMove)
    requires Locks(s, t, g, m) && SameNames(s, t) && NameInv(s, n) && LocalInv(t, t.PcOf(g))
    ensures Moved(s, t, g, n, m)
  {
    NameKept(s, t, n);
    hide Locks, NameInv, LocalInv, ReportsInv, FileBacked, Lifts;
  }

  lemma AtMoves(s: State, g: Gid, pc: Pc, n: Name)
    requires SameDuties(s.PcOf(g), pc) && LocalInv(s, pc)
    requires NameInv(s, n) && ReportsInv(s.dialled, s.reports) && FileBacked(s.reports, s.file)
    ensures Moved(s, s.At(g, pc), g, n, Quiet)
  {
    hide Moved, Locks, ReportsInv, FileBacked, NameInv, SameDuties, Cold, LazyDial, Account, Provenance;
    SharedLocks(s, s.At(g, pc), g);
    SameNamesMoved(s, s.At(g, pc), g, n, Quiet);
  }

  function Taken(s: State, n: Name): SessionMove
  {
    if n in s.core.connections then Takes(n) else Quiet
  }

  lemma DropMoves(s: State, g: Gid, n: Name, k: Cont)
    requires Fit(s, g, n) && s.PcOf(g) == Drop(n, k) && HeldBy(k) == Some(n) && n in s.core.connections
    ensures Moves(s, StepDrop(s, g, n, k), g, n, Takes(n))
  {
    hide NameInv, LocalInv, ReportsInv, FileBacked, HeldBy, AutoCont;
  }

  lemma DropLands(s: State, g: Gid, n: Name, k: Cont)
    requires Fit(s, g, n) && s.PcOf(g) == Drop(n, k) && n in s.core.connections
    ensures Lands(StepDrop(s, g, n, k), g, n)
  {
    hide ReportsInv, FileBacked, Reported, Restored;
  }

  lemma DropMoved(s: State, g: Gid, n: Name, k: Cont)
    requires Fit(s, g, n) && s.PcOf(g) == Drop(n, k)
    ensures Moved(s, StepDrop(s, g, n, k), g, n, Taken(s, n))
  {
    hide Moved, Moves, Lands, NameInv, ReportsInv, FileBacked;
    if n in s.core.connections {
      DropMoves(s, g, n, k);
      DropLands(s, g, n, k);
      MovesAndLands(s, StepDrop(s, g, n, k), g, n, Takes(n));
    } else {
      AtMoves(s, g, Go(k), n);
    }
  }

  lemma RemoveLocks(s: State, g: Gid, n: Name)
    requires s.PcOf(g) == Remove(n)
    ensures Locks(s, StepRemove(s, g, n), g, if n in s.core.states then Taken(s, n) else Quiet)
  {
    hide BuildIndex;
  }

  lemma RemoveMoves(s: State, g: Gid, n: Name)
    requires Fit(s, g, n) && s.PcOf(g) == Remove(n)
    ensures Moves(s, StepRemove(s, g, n), g, n, if n in s.core.states then Taken(s, n) else Quiet)
  {
    hide Locks, NameInv, LocalInv, ReportsInv, FileBacked;
    RemoveLocks(s, g, n);
  }

  lemma RemoveClears(s: State, g: Gid, n: Name)
    requires NameInv(s, n)
    ensures NameInv(StepRemove(s, g, n), n)
  {
    hide Teardown, Reported, Restored;
  }

  lemma RemoveFrees(s: State, g: Gid, n: Name)
    ensures LocalInv(StepRemove(s, g, n), StepRemove(s, g, n).PcOf(g))
  {
    LeavingIsFree(StepRemove(s, g, n), s.core, n, Release(n, false));
    hide LocalInv, RemoveName, Teardown;
  }

  lemma LeavingIsFree(t: State, c: Core, n: Name, k: Cont)
    requires k == Done || k == Release(n, false)
    ensures LocalInv(t, Go(k)) && LocalInv(t, Teardown(c, n, k))
  {
  }

  lemma RemoveLands(s: State, g: Gid, n: Name)
    requires Fit(s, g, n) && s.PcOf(g) == Remove(n)
    ensures Lands(StepRemove(s, g, n), g, n)
  {
    RemoveClears(s, g, n);
    RemoveFrees(s, g, n);
    hide NameInv, LocalInv, ReportsInv, FileBacked, StepRemove;
  }

  lemma DemoteMoves(s: State, g: Gid, n: Name)
    requires Fit(s, g, n) && s.PcOf(g) == Demote(n)
    ensures Moves(s, StepDemote(s, g, n), g, n, if IsConnected(s.core, n) then Taken(s, n) else Quiet)
  {
    if IsConnected(s.core, n) { DemoteTakes(s, g, n); } else { DemoteMisses(s, g, n); }
    hide Moves, StepDemote, Fit;
  }

  lemma DemoteMisses(s: State, g: Gid, n: Name)
    requires Fit(s, g, n) && s.PcOf(g) == Demote(n) && !IsConnected(s.core, n)
    ensures Moves(s, StepDemote(s, g, n), g, n, Quiet)
  {
    hide Locks, NameInv, LocalInv, ReportsInv, FileBacked;
    SharedLocks(s, StepDemote(s, g, n), g);
  }

  lemma DemoteLocks(s: State, g: Gid, n: Name)
    requires s.PcOf(g) == Demote(n) && IsConnected(s.core, n)
    ensures Locks(s, StepDemote(s, g, n), g, Taken(s, n))
  {
    hide BuildIndex;
  }

  lemma DemoteTakes(s: State, g: Gid, n: Name)
    requires Fit(s, g, n) && s.PcOf(g) == Demote(n) && IsConnected(s.core, n)
    ensures Moves(s, StepDemote(s, g, n), g, n, Taken(s, n))
  {
    hide Locks, NameInv, LocalInv, ReportsInv, FileBacked;
    DemoteLocks(s, g, n);
  }

  lemma DemoteFails(s: State, g: Gid, n: Name)
    requires NameInv(s, n)
    ensures NameInv(StepDemote(s, g, n), n)
  {
    hide Teardown, Reported, Restored;
  }

  lemma DemoteFrees(s: State, g: Gid, n: Name)
    ensures LocalInv(StepDemote(s, g, n), StepDemote(s, g, n).PcOf(g))
  {
    LeavingIsFree(StepDemote(s, g, n), s.core, n, Done);
    hide LocalInv, MarkFailed, IsConnected, Teardown;
  }

  lemma DemoteLands(s: State, g: Gid, n: Name)
    requires Fit(s, g, n) && s.PcOf(g) == Demote(n)
    ensures Lands(StepDemote(s, g, n), g, n)
  {
    DemoteFails(s, g, n);
    DemoteFrees(s, g, n);
    hide NameInv, LocalInv, ReportsInv, FileBacked, StepDemote;
  }

  lemma InstallLocks(s: State, g: Gid, cfg: MCPConfig, x: Session, listing: Option<seq<ToolInfo>>, goal: Goal)
    requires s.PcOf(g) == Install(cfg, x, listing, goal) && !s.core.closed
    ensures Locks(s, StepInstall(s, g, cfg, x, listing, goal), g, Installs(cfg.name))
  {
    hide After, HeldBy, AutoCont, AutoGoal, BuildIndex;
    AfterDuties(cfg.name, true, goal);
  }

  lemma InstallMoves(s: State, g: Gid, cfg: MCPConfig, x: Session, listing: Option<seq<ToolInfo>>, goal: Goal)
    requires Fit(s, g, cfg.name) && s.PcOf(g) == Install(cfg, x, listing, goal) && !s.core.closed
    ensures Moves(s, StepInstall(s, g, cfg, x, listing, goal), g, cfg.name, Installs(cfg.name))
  {
    hide Locks, NameInv, LocalInv, ReportsInv, FileBacked, After;
    InstallLocks(s, g, cfg, x, listing, goal);
  }

  lemma InstallTooLate(s: State, g: Gid, cfg: MCPConfig, x: Session, listing: Option<seq<ToolInfo>>, goal: Goal)
    requires Fit(s, g, cfg.name) && s.PcOf(g) == Install(cfg, x, listing, goal) && s.core.closed
    ensures Moves(s, StepInstall(s, g, cfg, x, listing, goal), g, cfg.name, Quiet)
  {
    hide Moved, Locks, NameInv, LocalInv, ReportsInv, FileBacked, After, HeldBy, AutoCont, AutoGoal;
    AfterDuties(cfg.name, false, goal);
    SharedLocks(s, StepInstall(s, g, cfg, x, listing, goal), g);
  }

  /** After a successful dial nothing depends on the name's state any more. */
  lemma AfterDial(t: State, c: Core, n: Name, goal: Goal)
    ensures LocalInv(t, Teardown(c, n, After(n, true, goal)))
  {
  }

  lemma InstallLands(s: State, g: Gid, cfg: MCPConfig, x: Session, listing: Option<seq<ToolInfo>>, goal: Goal)
    requires Fit(s, g, cfg.name) && s.PcOf(g) == Install(cfg, x, listing, goal) && !s.core.closed
    ensures Lands(StepInstall(s, g, cfg, x, listing, goal), g, cfg.name)
  {
    AfterDial(StepInstall(s, g, cfg, x, listing, goal), s.core, cfg.name, goal);
    hide Teardown, After, Account, ReportsInv, FileBacked, Reported, Restored;
  }

  lemma InstallTooLateLands(s: State, g: Gid, cfg: MCPConfig, x: Session, listing: Option<seq<ToolInfo>>, goal: Goal)
    requires Fit(s, g, cfg.name) && s.PcOf(g) == Install(cfg, x, listing, goal) && s.core.closed
    ensures Lands(StepInstall(s, g, cfg, x, listing, goal), g, cfg.name)
  {
    hide ReportsInv, FileBacked, Reported, Restored;
  }

  lemma BeginLands(s: State, g: Gid, cfg: MCPConfig, goal: Goal)
    requires Fit(s, g, cfg.name) && s.PcOf(g) == Go(Begin(cfg, goal))
    ensures Lands(StepBegin(s, g, cfg, goal), g, cfg.name)
  {
    hide ReportsInv, FileBacked, Reported, Restored;
  }

  lemma BeginMoves(s: State, g: Gid, cfg: MCPConfig, goal: Goal)
    requires Fit(s, g, cfg.name) && s.PcOf(g) == Go(Begin(cfg, goal))
    ensures Moved(s, StepBegin(s, g, cfg, goal), g, cfg.name, Quiet)
  {
    hide Lands, Locks, NameInv, ReportsInv, FileBacked, Backed, BuildIndex, Account;
    SharedLocks(s, StepBegin(s, g, cfg, goal), g);
    BeginLands(s, g, cfg, goal);
  }

  lemma DialFailsLands(s: State, g: Gid, auth: bool)
    requires s.PcOf(g).Dial? && Fit(s, g, s.PcOf(g).cfg.name)
    ensures Lands(StepDialFails(s, g, auth), g, s.PcOf(g).cfg.name)
  {
    hide ReportsInv, FileBacked, Reported, Restored;
  }

  lemma DialFailsMoves(s: State, g: Gid, auth: bool)
    requires s.PcOf(g).Dial? && Fit(s, g, s.PcOf(g).cfg.name)
    ensures Moved(s, StepDialFails(s, g, auth), g, s.PcOf(g).cfg.name, Quiet)
  {
    hide Lands, Locks, NameInv, ReportsInv, FileBacked, Backed, BuildIndex, Account, After, HeldBy, AutoCont, AutoGoal;
    AfterDuties(s.PcOf(g).cfg.name, false, s.PcOf(g).goal);
    SharedLocks(s, StepDialFails(s, g, auth), g);
    DialFailsLands(s, g, auth);
  }

  lemma DialOpensMoves(s: State, g: Gid, x: Session)
    requires s.PcOf(g).Dial? && Fit(s, g, s.PcOf(g).cfg.name) && x !in s.dialled
    ensures Moved(s, StepDialOpens(s, g, x), g, s.PcOf(g).cfg.name, Opens(x))
  {
    hide Moved, NameInv, FileBacked, Reported, Restored, Backed, Plain, BuildIndex;
    SameNamesMoved(s, StepDialOpens(s, g, x), g, s.PcOf(g).cfg.name, Opens(x));
  }

  lemma FileBackedGrows(reports: set<Report>, more: set<Report>, file: map<Name, CacheEntry>)
    requires FileBacked(reports, file) && reports <= more
    ensures FileBacked(more, file)
  {
  }

  lemma FetchedIsPlain(n: Name, listed: seq<ListedTool>)
    ensures Plain(FetchTools(n, listed))
  {
  }

  lemma ListedMoves(s: State, g: Gid, listed: Option<seq<ListedTool>>)
    requires s.PcOf(g).Listing? && Fit(s, g, s.PcOf(g).cfg.name)
    ensures Moved(s, StepListed(s, g, listed), g, s.PcOf(g).cfg.name, Quiet)
  {
    ListedLands(s, g, listed);
    ListedQuietly(s, g, listed);
    hide StepListed, Lands, HistoryGrows, Ledger, SemMove, IndexMove, AutoMove, NameMove, NameUntouched, Bystander;
  }

  /** A listing changes nothing but the goroutine's own counter and the reports. */
  lemma ListedQuietly(s: State, g: Gid, listed: Option<seq<ListedTool>>)
    requires s.PcOf(g).Listing? && Fit(s, g, s.PcOf(g).cfg.name)
    ensures var t, n := StepListed(s, g, listed), s.PcOf(g).cfg.name;
      && t.pcs == s.pcs[g := t.PcOf(g)]
      && SemMove(s, t, g) && Ledger(s, t, g, Quiet) && IndexMove(s, t, g) && AutoMove(s, t, g)
      && t.core.closed == s.core.closed && NameMove(s, t, s.PcOf(g), n)
      && (forall k | k != n :: NameUntouched(s, t, k))
      && (Holds(s.PcOf(g)) != Some(n) ==> Bystander(s, t, n))
  {
    hide FetchTools, Fit;
  }

  lemma ListedLands(s: State, g: Gid, listed: Option<seq<ListedTool>>)
    requires s.PcOf(g).Listing? && Fit(s, g, s.PcOf(g).cfg.name)
    ensures Lands(StepListed(s, g, listed), g, s.PcOf(g).cfg.name)
    ensures HistoryGrows(s, StepListed(s, g, listed))
  {
    hide ConfigHash, ToCached, FetchTools, FileBacked, Plain, NameInv;
    if listed.Some? { FetchedIsPlain(s.PcOf(g).cfg.name, listed.value); }
    NameKept(s, StepListed(s, g, listed), s.PcOf(g).cfg.name);
    FileBackedGrows(s.reports, StepListed(s, g, listed).reports, s.file);
  }

  /** What goes through the cache comes back as it was reported. */
  lemma CacheRoundTrip(tools: seq<ToolInfo>)
    requires Plain(tools)
    ensures FromCache(ToCached(tools)) == tools
  {
    forall i | 0 <= i < |tools| ensures FromCache(ToCached(tools))[i] == tools[i] {
      assert tools[i] in tools;
    }
  }

  lemma EntryRestores(s: State, n: Name, e: CacheEntry, cfg: MCPConfig)
    requires ReportsInv(s.dialled, s.reports) && Backed(s.reports, n, e) && e.configHash == ConfigHash(cfg)
    ensures Restored(s.reports, cfg, FromCache(e.tools))
  {
    var r :| (
      && r in s.reports && r.config.name == n
      && ConfigHash(r.config) == e.configHash && ToCached(r.tools) == e.tools);
    CacheRoundTrip(r.tools);
  }

  function Loading(todo: seq<(Name, MCPConfig)>): Name
  {
    if todo == [] then "" else todo[0].1.name
  }

  lemma SkipsOn(s: State, g: Gid, todo: seq<(Name, MCPConfig)>, file: map<Name, CacheEntry>, changed: bool)
    requires Skips(s, todo, file)
    ensures StepLoadNext(s, g, todo, file, changed) ==
      s.At(g, if todo != [] then LoadNext(todo[1..], file, changed) else if changed then Rebuild(Done) else IDLE)
  {
    hide ConfigHash, SetCached;
  }

  lemma LoadSkipMoves(s: State, g: Gid, todo: seq<(Name, MCPConfig)>, file: map<Name, CacheEntry>, changed: bool)
    requires s.PcOf(g) == LoadNext(todo, file, changed) && Fit(s, g, Loading(todo)) && Skips(s, todo, file)
    ensures Moved(s, StepLoadNext(s, g, todo, file, changed), g, Loading(todo), Quiet)
  {
    hide Moved, NameInv, ReportsInv, FileBacked, Skips, StepLoadNext;
    SkipsOn(s, g, todo, file, changed);
    AtMoves(s, g, StepLoadNext(s, g, todo, file, changed).pcs[g], Loading(todo));
  }

  lemma LoadHitLocks(s: State, g: Gid, todo: seq<(Name, MCPConfig)>, file: map<Name, CacheEntry>, changed: bool)
    requires s.PcOf(g) == LoadNext(todo, file, changed) && !Skips(s, todo, file)
    ensures Locks(s, StepLoadNext(s, g, todo, file, changed), g, Quiet)
  {
    hide ConfigHash, FromCache, BuildIndex;
  }

  lemma LoadHitMoves(s: State, g: Gid, todo: seq<(Name, MCPConfig)>, file: map<Name, CacheEntry>, changed: bool)
    requires s.PcOf(g) == LoadNext(todo, file, changed) && Fit(s, g, Loading(todo)) && !Skips(s, todo, file)
    ensures Moves(s, StepLoadNext(s, g, todo, file, changed), g, Loading(todo), Quiet)
  {
    hide Locks, NameInv, LocalInv, ReportsInv, FileBacked, ConfigHash, FromCache;
    LoadHitLocks(s, g, todo, file, changed);
  }

  lemma LoadHitName(s: State, g: Gid, todo: seq<(Name, MCPConfig)>, file: map<Name, CacheEntry>, changed: bool)
    requires !Skips(s, todo, file) && Restored(s.reports, todo[0].1, FromCache(file[todo[0].0].tools))
    requires NameInv(s, Loading(todo))
    ensures NameInv(StepLoadNext(s, g, todo, file, changed), Loading(todo))
  {
    hide ConfigHash, FromCache, Reported, Restored;
  }

  lemma LoadHitLands(s: State, g: Gid, todo: seq<(Name, MCPConfig)>, file: map<Name, CacheEntry>, changed: bool)
    requires s.PcOf(g) == LoadNext(todo, file, changed) && Fit(s, g, Loading(todo)) && !Skips(s, todo, file)
    ensures Lands(StepLoadNext(s, g, todo, file, changed), g, Loading(todo))
  {
    hide ConfigHash, FromCache, Backed, Restored, ReportsInv, NameInv, SetCached;
    var (key, cfg) := todo[0];
    EntryRestores(s, key, file[key], cfg);
    LoadHitName(s, g, todo, file, changed);
  }

  lemma EntryBacked(s: State, n: Name)
    requires NameInv(s, n) && EntryFor(s.core, n).Some?
    ensures Backed(s.reports, n, EntryFor(s.core, n).value)
  {
    hide ConfigHash;
  }

  lemma CountLands(s: State, g: Gid, n: Name, retry: RetryGoal)
    requires s.PcOf(g) == Go(CountRetry(n, retry)) && Fit(s, g, n)
    ensures Lands(StepGo(s, g, CountRetry(n, retry)), g, n)
  {
    hide ReportsInv, FileBacked, Reported, Restored, Backoff;
  }

  lemma CountMoves(s: State, g: Gid, n: Name, retry: RetryGoal)
    requires s.PcOf(g) == Go(CountRetry(n, retry)) && Fit(s, g, n)
    ensures Moved(s, StepGo(s, g, CountRetry(n, retry)), g, n, Quiet)
  {
    hide Lands, Locks, NameInv, ReportsInv, FileBacked, Backed, BuildIndex, Backoff, Account;
    SharedLocks(s, StepGo(s, g, CountRetry(n, retry)), g);
    CountLands(s, g, n, retry);
  }

  lemma GiveUpLands(s: State, g: Gid, n: Name, retry: RetryGoal)
    requires s.PcOf(g) == Go(GiveUpRetry(n, retry)) && Fit(s, g, n)
    ensures Lands(StepGo(s, g, GiveUpRetry(n, retry)), g, n)
  {
    hide ReportsInv, FileBacked, Reported, Restored;
  }

  lemma GiveUpMoves(s: State, g: Gid, n: Name, retry: RetryGoal)
    requires s.PcOf(g) == Go(GiveUpRetry(n, retry)) && Fit(s, g, n)
    ensures Moved(s, StepGo(s, g, GiveUpRetry(n, retry)), g, n, Quiet)
  {
    hide Lands, Locks, NameInv, ReportsInv, FileBacked, Backed, BuildIndex, Account;
    SharedLocks(s, StepGo(s, g, GiveUpRetry(n, retry)), g);
    GiveUpLands(s, g, n, retry);
  }

  lemma ResetMoves(s: State, g: Gid, n: Name, auto: bool)
    requires s.PcOf(g) == Go(ResetCount(n, auto)) && Fit(s, g, n)
    ensures Moved(s, StepGo(s, g, ResetCount(n, auto)), g, n, Quiet)
  {
    hide Locks, ReportsInv, FileBacked, Reported, Restored, Backed, BuildIndex;
    SharedLocks(s, StepGo(s, g, ResetCount(n, auto)), g);
  }

  lemma ReleaseMoves(s: State, g: Gid, n: Name, auto: bool)
    requires s.PcOf(g) == Go(Release(n, auto)) && Fit(s, g, n)
    ensures Moved(s, StepGo(s, g, Release(n, auto)), g, n, Quiet)
  {
    hide Moved, NameInv, ReportsInv, FileBacked, Reported, Restored, Backed, BuildIndex;
    SameNamesMoved(s, StepGo(s, g, Release(n, auto)), g, n, Quiet);
  }

  lemma SaveCacheMoves(s: State, g: Gid, n: Name, held: bool)
    requires s.PcOf(g) == Go(SaveCache(n, held)) && Fit(s, g, n)
    ensures Moved(s, StepGo(s, g, SaveCache(n, held)), g, n, Quiet)
  {
    hide Moved, NameInv, ReportsInv, FileBacked, EntryFor, Backed;
    if EntryFor(s.core, n).Some? { EntryBacked(s, n); }
    AtMoves(s, g, StepGo(s, g, SaveCache(n, held)).pcs[g], n);
  }

  lemma PreCheckMoves(s: State, g: Gid, n: Name)
    requires s.PcOf(g) == PreCheck(n) && Fit(s, g, n)
    ensures Moved(s, StepAdvance(s, g), g, n, Quiet)
  {
    hide Moved, ReportsInv, FileBacked;
    AtMoves(s, g, StepAdvance(s, g).pcs[g], n);
  }

  lemma RecheckMoves(s: State, g: Gid, n: Name)
    requires s.PcOf(g) == Recheck(n) && Fit(s, g, n)
    ensures Moved(s, StepAdvance(s, g), g, n, Quiet)
  {
    hide Moved, ReportsInv, FileBacked;
    AtMoves(s, g, StepAdvance(s, g).pcs[g], n);
  }

  /** Entering the semaphore changes nothing else. */
  lemma EntryDuties(n: Name, op: Op)
    requires op.OpConnect? ==> op.cfg.name == n
    ensures Holds(Entry(n, op)) == Some(n) && Holds(Wait(n, op)) == None
    ensures Owned(Entry(n, op)) == Owned(Wait(n, op)) == None && AutoOf(Entry(n, op)) == AutoOf(Wait(n, op))
    ensures !HoldsRebuildMu(Entry(n, op))
  {
  }

  /** Leaving connectLocked keeps the semaphore, and an auto-reconnect stays one. */
  lemma AfterDuties(n: Name, ok: bool, goal: Goal)
    ensures HeldBy(After(n, ok, goal)) == Some(n) && AutoCont(After(n, ok, goal)) == AutoGoal(n, goal)
  {
  }

  lemma WaitLocks(s: State, g: Gid)
    requires s.PcOf(g).Wait? && Fit(s, g, s.PcOf(g).n) && CanAdvance(s, g)
    ensures Locks(s, StepAdvance(s, g), g, Quiet)
  {
    hide NameInv, LocalInv, ReportsInv, FileBacked, Entry, Holds, Owned, AutoOf, BuildIndex;
    assert s.PcOf(g).op.OpConnect? ==> s.PcOf(g).op.cfg.name == s.PcOf(g).n by { WaitsForOwnName(s.pcs[g], s); }
    EntryDuties(s.PcOf(g).n, s.PcOf(g).op);
    assert s.PcOf(g) == Wait(s.PcOf(g).n, s.PcOf(g).op);
  }

  lemma WaitsForOwnName(pc: Pc, s: State)
    requires LocalInv(s, pc) && pc.Wait?
    ensures pc.op.OpConnect? ==> pc.op.cfg.name == pc.n
  {
  }

  lemma WaitMoves(s: State, g: Gid)
    requires s.PcOf(g).Wait? && Fit(s, g, s.PcOf(g).n) && CanAdvance(s, g)
    ensures Moved(s, StepAdvance(s, g), g, s.PcOf(g).n, Quiet)
  {
    hide Moved, Locks, NameInv, ReportsInv, FileBacked, Reported, Restored, Backed;
    WaitLocks(s, g);
    SameNamesMoved(s, StepAdvance(s, g), g, s.PcOf(g).n, Quiet);
  }

  lemma BackoffReadMoves(s: State, g: Gid, n: Name)
    requires s.PcOf(g).BackoffRead? && s.PcOf(g).n == n && Fit(s, g, n)
    ensures Moved(s, StepAdvance(s, g), g, n, Quiet)
  {
    hide Moved, ReportsInv, FileBacked;
    AtMoves(s, g, StepAdvance(s, g).pcs[g], n);
  }

  lemma BackoffMarkLands(s: State, g: Gid, n: Name)
    requires s.PcOf(g).BackoffMark? && s.PcOf(g).n == n && Fit(s, g, n)
    ensures Lands(StepAdvance(s, g), g, n)
  {
    hide ReportsInv, FileBacked, Reported, Restored;
  }

  lemma BackoffMarkMoves(s: State, g: Gid, n: Name)
    requires s.PcOf(g).BackoffMark? && s.PcOf(g).n == n && Fit(s, g, n)
    ensures Moved(s, StepAdvance(s, g), g, n, Quiet)
  {
    hide Lands, Locks, NameInv, LocalInv, ReportsInv, FileBacked;
    SharedLocks(s, StepAdvance(s, g), g);
    BackoffMarkLands(s, g, n);
  }

  lemma RetryMoves(s: State, g: Gid, n: Name)
    requires s.PcOf(g).ReadConfig? || s.PcOf(g).BackoffSleep?
    requires s.PcOf(g).n == n && Fit(s, g, n) && CanAdvance(s, g)
    ensures Moved(s, StepAdvance(s, g), g, n, Quiet)
  {
    hide Moved, ReportsInv, FileBacked;
    AtMoves(s, g, StepAdvance(s, g).pcs[g], n);
  }

  lemma PublishMoves(s: State, g: Gid)
    requires s.PcOf(g).Publish? && Fit(s, g, "")
    ensures Moved(s, StepAdvance(s, g), g, "", Quiet)
  {
    hide Moved, NameInv, ReportsInv, FileBacked, Reported, Restored, Backed, BuildIndex;
    hide AccountCont, HeldBy, AutoCont, ColdCont, LazyCont;
    SameNamesMoved(s, StepAdvance(s, g), g, "", Quiet);
  }

  lemma RebuildMoves(s: State, g: Gid)
    requires s.PcOf(g).Rebuild? && Fit(s, g, "") && CanAdvance(s, g)
    ensures Moved(s, StepAdvance(s, g), g, "", Quiet)
  {
    hide Moved, NameInv, ReportsInv, FileBacked, Reported, Restored, Backed, BuildIndex;
    hide AccountCont, HeldBy, AutoCont, ColdCont, LazyCont;
    SameNamesMoved(s, StepAdvance(s, g), g, "", Quiet);
  }

  lemma SnapshotMoves(s: State, g: Gid)
    requires s.PcOf(g).Snapshot? && Fit(s, g, "")
    ensures Moved(s, StepAdvance(s, g), g, "", Quiet)
  {
    hide Moved, NameInv, ReportsInv, FileBacked, Reported, Restored, Backed, BuildIndex;
    hide AccountCont, HeldBy, AutoCont, ColdCont, LazyCont;
    SameNamesMoved(s, StepAdvance(s, g), g, "", Quiet);
  }

  lemma WantProviderMoves(s: State, g: Gid)
    requires s.PcOf(g).WantProvider? && Fit(s, g, "") && CanAdvance(s, g)
    ensures Moved(s, StepAdvance(s, g), g, "", Quiet)
  {
    hide Moved, NameInv, ReportsInv, FileBacked, Reported, Restored, Backed, BuildIndex;
    SameNamesMoved(s, StepAdvance(s, g), g, "", Quiet);
  }

  lemma SwapProviderMoves(s: State, g: Gid)
    requires s.PcOf(g).SwapProvider? && Fit(s, g, "")
    ensures Moved(s, StepAdvance(s, g), g, "", Quiet)
  {
    hide Moved, NameInv, ReportsInv, FileBacked, Reported, Restored, Backed, BuildIndex;
    SameNamesMoved(s, StepAdvance(s, g), g, "", Quiet);
  }

  lemma ShutMoves(s: State, g: Gid)
    requires s.PcOf(g).Shut? && Fit(s, g, "")
    ensures Moved(s, StepAdvance(s, g), g, "", Closes)
  {
    hide Moved, NameInv, ReportsInv, FileBacked, Reported, Restored, Backed, BuildIndex;
    hide AccountCont, HeldBy, AutoCont, ColdCont, LazyCont;
    SameNamesMoved(s, StepAdvance(s, g), g, "", Closes);
  }

  lemma AutoDoneMoves(s: State, g: Gid)
    requires s.PcOf(g).AutoDone? && Fit(s, g, "")
    ensures Moved(s, StepAdvance(s, g), g, "", Quiet)
  {
    hide Moved, NameInv, ReportsInv, FileBacked, Reported, Restored, Backed, BuildIndex;
    SameNamesMoved(s, StepAdvance(s, g), g, "", Quiet);
  }

  lemma LoadFileMoves(s: State, g: Gid)
    requires s.PcOf(g).LoadFile? && Fit(s, g, "")
    ensures Moved(s, StepAdvance(s, g), g, "", Quiet)
  {
    hide Moved, ReportsInv, FileBacked;
    AtMoves(s, g, StepAdvance(s, g).pcs[g], "");
  }

  lemma WriteCacheKeepsFile(s: State, n: Name, entry: CacheEntry)
    requires FileBacked(s.reports, s.file) && Backed(s.reports, n, entry)
    ensures FileBacked(s.reports, s.file[n := entry])
  {
    hide Backed;
  }

  lemma WriteCacheMoves(s: State, g: Gid)
    requires Fit(s, g, "") && s.PcOf(g).WriteCache?
    ensures Moved(s, StepAdvance(s, g), g, "", Quiet)
  {
    hide Moved, Locks, NameInv, ReportsInv, FileBacked, Reported, Restored, Backed;
    var pc := s.PcOf(g);
    WriteCacheKeepsFile(s, pc.n, pc.entry);
    SharedLocks(s, StepAdvance(s, g), g);
    SameNamesMoved(s, StepAdvance(s, g), g, "", Quiet);
  }

  // ---------------------------------------------------------------- every event keeps the invariant

  lemma AdvanceMoves(s: State, g: Gid) returns (n: Name, m: SessionMove)
    requires Inv(s) && CanAdvance(s, g)
    ensures Moved(s, StepAdvance(s, g), g, n, m)
  {
    hide Inv, Moved, Moves, Lands, LocalInv, NameInv, ReportsInv, FileBacked;
    forall n ensures Fit(s, g, n) { FitsIn(s, g, n); }
    m := Quiet;
    match s.PcOf(g)
    case Go(k) => n := GoMoves(s, g, k);
    case PreCheck(name) => n := name; PreCheckMoves(s, g, n);
    case Wait(name, op) => n := name; WaitMoves(s, g);
    case Recheck(name) => n := name; RecheckMoves(s, g, n);
    case ReadConfig(name, goal) => n := name; RetryMoves(s, g, n);
    case Drop(name, k) => n, m := name, Taken(s, name); DropMoved(s, g, n, k);
    case Remove(name) => n, m := name, if name in s.core.states then Taken(s, name) else Quiet; RemoveMoved(s, g, n, m);
    case Install(cfg, x, listing, goal) => n := cfg.name; m := InstallMoved(s, g, cfg, x, listing, goal);
    case BackoffRead(name, arg, auto) => n := name; BackoffReadMoves(s, g, n);
    case BackoffMark(name, base, max, auto) => n := name; BackoffMarkMoves(s, g, n);
    case BackoffSleep(name, _, retry) => n := name; RetryMoves(s, g, n);
    case Shut(x, rebuild, k) => n, m := "", Closes; ShutMoves(s, g);
    case Rebuild(k) => n := ""; RebuildMoves(s, g);
    case Snapshot(k) => n := ""; SnapshotMoves(s, g);
    case Publish(tools, p, k) => n := ""; PublishMoves(s, g);
    case WriteCache(_, entry, held) => n := ""; WriteCacheMoves(s, g);
    case AutoDone(_) => n := ""; AutoDoneMoves(s, g);
    case Demote(name) =>
      n, m := name, if IsConnected(s.core, name) then Taken(s, name) else Quiet;
      DemoteMoved(s, g, n, m);
    case WantProvider(p) => n := ""; WantProviderMoves(s, g);
    case SwapProvider(p) => n := ""; SwapProviderMoves(s, g);
    case LoadFile(todo) => n := ""; LoadFileMoves(s, g);
    case LoadNext(todo, file, changed) => n := Loading(todo); LoadNextMoved(s, g, todo, file, changed);
  }

  lemma FitsIn(s: State, g: Gid, n: Name)
    requires Inv(s) && s.PcOf(g) != IDLE
    ensures Fit(s, g, n)
  {
    assert NameInv(s, n);
  }

  lemma GoMoves(s: State, g: Gid, k: Cont) returns (n: Name)
    requires s.PcOf(g) == Go(k) && k != Done && forall n :: Fit(s, g, n)
    ensures Moved(s, StepGo(s, g, k), g, n, Quiet)
  {
    hide Moved, Fit;
    match k
    case Begin(cfg, goal) => n := cfg.name; BeginMoves(s, g, cfg, goal);
    case SaveCache(name, held) => n := name; SaveCacheMoves(s, g, n, held);
    case CountRetry(name, retry) => n := name; CountMoves(s, g, n, retry);
    case ResetCount(name, auto) => n := name; ResetMoves(s, g, n, auto);
    case GiveUpRetry(name, retry) => n := name; GiveUpMoves(s, g, n, retry);
    case Release(name, auto) => n := name; ReleaseMoves(s, g, n, auto);
  }

  lemma MovesAndLands(s: State, t: State, g: Gid, n: Name, m: SessionMove)
    requires Moves(s, t, g, n, m) && Lands(t, g, n)
    ensures Moved(s, t, g, n, m)
  {
  }

  lemma RemoveMoved(s: State, g: Gid, n: Name, m: SessionMove)
    requires Fit(s, g, n) && s.PcOf(g) == Remove(n)
    requires m == if n in s.core.states then Taken(s, n) else Quiet
    ensures Moved(s, StepRemove(s, g, n), g, n, m)
  {
    hide Moves, Lands, StepRemove;
    RemoveMoves(s, g, n);
    RemoveLands(s, g, n);
  }

  lemma DemoteMoved(s: State, g: Gid, n: Name, m: SessionMove)
    requires Fit(s, g, n) && s.PcOf(g) == Demote(n)
    requires m == if IsConnected(s.core, n) then Taken(s, n) else Quiet
    ensures Moved(s, StepDemote(s, g, n), g, n, m)
  {
    hide Moves, Lands, StepDemote;
    DemoteMoves(s, g, n);
    DemoteLands(s, g, n);
  }

  lemma InstallMoved(s: State, g: Gid, cfg: MCPConfig, x: Session, listing: Option<seq<ToolInfo>>, goal: Goal)
    returns (m: SessionMove)
    requires Fit(s, g, cfg.name) && s.PcOf(g) == Install(cfg, x, listing, goal)
    ensures Moved(s, StepInstall(s, g, cfg, x, listing, goal), g, cfg.name, m)
  {
    hide Moves, Lands, StepInstall;
    if s.core.closed {
      m := Quiet;
      InstallTooLate(s, g, cfg, x, listing, goal);
      InstallTooLateLands(s, g, cfg, x, listing, goal);
    } else {
      m := Installs(cfg.name);
      InstallMoves(s, g, cfg, x, listing, goal);
      InstallLands(s, g, cfg, x, listing, goal);
    }
  }

  lemma LoadNextMoved(s: State, g: Gid, todo: seq<(Name, MCPConfig)>, file: map<Name, CacheEntry>, changed: bool)
    requires Fit(s, g, Loading(todo)) && s.PcOf(g) == LoadNext(todo, file, changed)
    ensures Moved(s, StepLoadNext(s, g, todo, file, changed), g, Loading(todo), Quiet)
  {
    hide Moves, Lands, StepLoadNext, ConfigHash;
    if Skips(s, todo, file) {
      LoadSkipMoves(s, g, todo, file, changed);
    } else {
      LoadHitMoves(s, g, todo, file, changed);
      LoadHitLands(s, g, todo, file, changed);
    }
  }

  /** A new goroutine holds nothing and depends on nothing. */
  lemma JobsAreFree(s: State, job: Pc)
    requires IsJob(job)
    ensures LocalInv(s, job) && SameDuties(IDLE, job)
  {
  }

  lemma StartMoves(s: State, g: Gid, job: Pc)
    requires Inv(s) && s.PcOf(g) == IDLE && IsJob(job)
    ensures Moved(s, s.At(g, job), g, "", Quiet)
  {
    assert NameInv(s, "");
    JobsAreFree(s, job);
    hide Moved, SemInv, SessionInv, IndexInv, AutoInv, LocalInv, NameInv, ReportsInv, FileBacked, SameDuties, IsJob;
    AtMoves(s, g, job, "");
  }

  lemma CancelMoves(s: State, g: Gid)
    requires CanCancel(s.PcOf(g)) && Fit(s, g, "")
    ensures Moved(s, s.At(g, Cancelled(s.PcOf(g))), g, "", Quiet)
  {
    hide Moved, NameInv, ReportsInv, FileBacked, Backed;
    AtMoves(s, g, Cancelled(s.PcOf(g)), "");
  }

  // Configure, Tick and LoseCache move no goroutine.

  ghost predicate Ambient(s: State, t: State)
  {
    && t.pcs == s.pcs && t.sem == s.sem && t.rebuildMu == s.rebuildMu
    && t.sessions == s.sessions && t.closes == s.closes && t.dialled == s.dialled
    && t.reports == s.reports && t.cooling == s.cooling && t.disturbed == s.disturbed
    && t.core.connections == s.core.connections && t.core.tools == s.core.tools
    && t.core.provider == s.core.provider && t.core.index == s.core.index
    && t.core.reconnecting == s.core.reconnecting && t.core.closed == s.core.closed
    && s.now <= t.now
    && FileBacked(t.reports, t.file)
    && (forall n :: NameInv(t, n))
    && (forall n <- s.core.states :: n in t.core.states && t.core.states[n] == s.core.states[n])
  }

  lemma AmbientSessions(s: State, t: State)
    requires SessionInv(s) && Ambient(s, t)
    ensures SessionInv(t)
  {
    hide NameInv, FileBacked;
    assert forall n, x :: InstalledAt(t, n, x) == InstalledAt(s, n, x);
    assert forall g, x: Session :: InFlight(t, g, x) == InFlight(s, g, x);
  }

  lemma SameReconnects(s: State, t: State)
    requires AutoInv(s) && t.pcs == s.pcs && t.core.reconnecting == s.core.reconnecting
    ensures AutoInv(t)
  {
    hide AutoOf;
    forall n <- t.core.reconnecting ensures exists g :: Reconnects(t, g, n) {
      var g :| Reconnects(s, g, n);
      assert Reconnects(t, g, n);
    }
  }

  lemma AmbientStands(s: State, t: State)
    requires Ambient(s, t) && ReportsInv(s.dialled, s.reports) && forall g <- s.pcs :: LocalInv(s, s.pcs[g])
    ensures forall g <- t.pcs :: LocalInv(t, t.pcs[g])
  {
    hide NameInv, LocalInv, FileBacked, ReportsInv, Holds;
    forall g <- t.pcs ensures LocalInv(t, t.pcs[g]) {
      StandsStill(s, t, s.pcs[g]);
    }
  }

  lemma AmbientKeeps(s: State, t: State)
    requires Inv(s) && Ambient(s, t)
    ensures Inv(t)
  {
    AmbientSessions(s, t);
    AmbientStands(s, t);
    SameReconnects(s, t);
    hide SessionInv, AutoInv, NameInv, LocalInv, FileBacked, ReportsInv;
    hide BuildIndex, Holds, OwesRebuild, HoldsRebuildMu;
  }

  lemma ConfigureAmbient(s: State, cfg: MCPConfig)
    requires Inv(s)
    ensures Ambient(s, s.(core := SetConfigured(s.core, cfg)))
  {
    hide SemInv, SessionInv, IndexInv, AutoInv, LocalInv;
    var t := s.(core := SetConfigured(s.core, cfg));
    forall n ensures NameInv(t, n) { assert NameInv(s, n); }
  }

  lemma TickAmbient(s: State, now: Time, file: map<Name, CacheEntry>)
    requires Inv(s) && s.now <= now && FileBacked(s.reports, file)
    ensures Ambient(s, s.(now := now, file := file))
  {
    hide SemInv, SessionInv, IndexInv, AutoInv, LocalInv;
    var t := s.(now := now, file := file);
    forall n ensures NameInv(t, n) { assert NameInv(s, n); }
  }

  // Close and AutoScan.

  ghost predicate Distinct<T>(a: seq<T>)
  {
    forall i, j | 0 <= i < j < |a| :: a[i] != a[j]
  }

  lemma DistinctConcat<T>(a: seq<T>, b: seq<T>)
    requires Distinct(a) && Distinct(b) && forall x <- b :: x !in a
    ensures Distinct(a + b)
  {
    forall i, j | 0 <= i < j < |a + b| ensures (a + b)[i] != (a + b)[j] {
      assert j < |a| || (a + b)[j] in b;
      assert i >= |a| || (a + b)[i] in a;
    }
  }

  lemma SweepDistinct(s: State, order: seq<Name>)
    requires SessionInv(s) && Enumerates(order, s.core.connections.Keys)
    ensures Distinct(s.closes + SessionsIn(s.core, order))
    ensures forall i | 0 <= i < |order| :: InstalledAt(s, order[i], SessionsIn(s.core, order)[i])
  {
    var swept := SessionsIn(s.core, order);
    assert forall i | 0 <= i < |order| :: order[i] in order && InstalledAt(s, order[i], swept[i]);
    DistinctConcat(s.closes, swept);
  }

  lemma SweepClosesOnce(s: State, order: seq<Name>)
    requires SessionInv(s) && Enumerates(order, s.core.connections.Keys)
    ensures SessionInv(s.(core := Shutdown(s.core), closes := s.closes + SessionsIn(s.core, order)))
  {
    var swept := SessionsIn(s.core, order);
    var t := s.(core := Shutdown(s.core), closes := s.closes + swept);
    SweepDistinct(s, order);
    assert Distinct(t.closes);
    hide Distinct, SessionsIn;
    assert forall n, x :: !InstalledAt(t, n, x);
    assert forall g, x: Session :: InFlight(t, g, x) == InFlight(s, g, x);
    forall x <- t.sessions ensures x in t.closes || exists g :: InFlight(t, g, x) {
      if n :| InstalledAt(s, n, x) {
        var i :| 0 <= i < |order| && order[i] == n;
        assert swept[i] == x;
      } else if g :| InFlight(s, g, x) {
        assert InFlight(t, g, x);
      }
    }
  }

  lemma CloseStands(s: State, order: seq<Name>, pc: Pc)
    requires LocalInv(s, pc) && ReportsInv(s.dialled, s.reports) && FileBacked(s.reports, s.file)
    requires Enumerates(order, s.core.connections.Keys)
    ensures LocalInv(s.(core := Shutdown(s.core), closes := s.closes + SessionsIn(s.core, order)), pc)
  {
    hide LocalInv, ReportsInv, FileBacked, SessionsIn, Holds;
    StandsStill(s, s.(core := Shutdown(s.core), closes := s.closes + SessionsIn(s.core, order)), pc);
  }

  lemma CloseKeeps(s: State, order: seq<Name>)
    requires Inv(s) && Enumerates(order, s.core.connections.Keys)
    ensures Inv(s.(core := Shutdown(s.core), closes := s.closes + SessionsIn(s.core, order)))
  {
    hide SessionInv, AutoInv, LocalInv, ReportsInv, FileBacked, SessionsIn;
    SweepClosesOnce(s, order);
    var t := s.(core := Shutdown(s.core), closes := s.closes + SessionsIn(s.core, order));
    SameReconnects(s, t);
    forall n ensures NameInv(t, n) { assert NameInv(s, n); }
    forall g <- t.pcs ensures LocalInv(t, t.pcs[g]) { CloseStands(s, order, s.pcs[g]); }
  }

  /** A spawned goroutine waits: it holds nothing and owes nothing. */
  lemma SpawnedIsQuiet(n: Name)
    ensures Holds(IDLE) == Holds(Wait(n, OpBackoff(0, true))) == None
    ensures Owned(IDLE) == Owned(Wait(n, OpBackoff(0, true))) == None
    ensures AutoOf(IDLE) == None && AutoOf(Wait(n, OpBackoff(0, true))) == Some(n)
  {
  }

  lemma ScanSem(s: State, spawned: map<Gid, Name>)
    requires SemInv(s) && Enabled(s, AutoScan(spawned))
    ensures SemInv(StepScan(s, spawned))
  {
    forall n { SpawnedIsQuiet(n); }
    assert forall g <- spawned :: s.PcOf(g) == IDLE;
    SpawnSem(s, StepScan(s, spawned), spawned);
    hide Holds, SemInv, ScanTargets;
  }

  lemma SpawnSem(s: State, t: State, spawned: map<Gid, Name>)
    requires SemInv(s) && t.sem == s.sem && t.pcs.Keys == s.pcs.Keys + spawned.Keys
    requires forall g <- t.pcs ::
      if g in spawned then Holds(t.pcs[g]) == None == Holds(s.PcOf(g)) else t.pcs[g] == s.pcs[g]
    ensures SemInv(t)
  {
    hide Holds;
  }

  /** Spawning touches idle goroutines only, and the new ones have nothing to rebuild. */
  lemma ScanRebuilds(s: State, spawned: map<Gid, Name>, g: Gid)
    requires Enabled(s, AutoScan(spawned))
    ensures var t := StepScan(s, spawned);
      && OwesRebuild(t.PcOf(g)) == OwesRebuild(s.PcOf(g))
      && HoldsRebuildMu(t.PcOf(g)) == HoldsRebuildMu(s.PcOf(g))
      && (g in s.pcs ==> g in t.pcs) && (HoldsRebuildMu(s.PcOf(g)) ==> t.PcOf(g) == s.PcOf(g))
  {
    hide ScanTargets;
  }

  lemma ScanIndex(s: State, spawned: map<Gid, Name>)
    requires IndexInv(s) && Enabled(s, AutoScan(spawned))
    ensures IndexInv(StepScan(s, spawned))
  {
    var t := StepScan(s, spawned);
    forall g ensures OwesRebuild(t.PcOf(g)) == OwesRebuild(s.PcOf(g)) { ScanRebuilds(s, spawned, g); }
    forall g <- t.pcs ensures HoldsRebuildMu(t.pcs[g]) <==> s.rebuildMu == Some(g) {
      ScanRebuilds(s, spawned, g);
      assert HoldsRebuildMu(s.PcOf(g)) ==> g in s.pcs;
    }
    if s.rebuildMu.Some? { ScanRebuilds(s, spawned, s.rebuildMu.value); }
    hide Enabled, BuildIndex, OwesRebuild, HoldsRebuildMu;
    if SomeoneOwes(s) {
      var g :| g in s.pcs && OwesRebuild(s.pcs[g]);
      ScanRebuilds(s, spawned, g);
      assert OwesRebuild(t.pcs[g]);
    }
  }

  lemma ScanSessions(s: State, spawned: map<Gid, Name>)
    requires SessionInv(s) && Enabled(s, AutoScan(spawned))
    ensures SessionInv(StepScan(s, spawned))
  {
    hide ScanTargets, Owned;
    var t := StepScan(s, spawned);
    forall n { SpawnedIsQuiet(n); }
    assert forall g <- spawned :: s.PcOf(g) == IDLE;
    assert forall n, x :: InstalledAt(t, n, x) == InstalledAt(s, n, x);
    assert forall g, x: Session :: InFlight(t, g, x) == InFlight(s, g, x);
  }

  lemma ScanAuto(s: State, spawned: map<Gid, Name>)
    requires AutoInv(s) && Enabled(s, AutoScan(spawned))
    ensures AutoInv(StepScan(s, spawned))
  {
    hide AutoOf, AutoInv, ScanTargets;
    forall n { SpawnedIsQuiet(n); }
    assert forall g <- spawned :: s.PcOf(g) == IDLE;
    forall g <- spawned ensures spawned[g] in ScanTargets(s.core) && spawned[g] !in s.core.reconnecting {
      assert spawned[g] in spawned.Values;
      TargetsAreUnclaimed(s.core, spawned[g]);
    }
    SpawnAuto(s, StepScan(s, spawned), spawned);
  }

  lemma TargetsAreUnclaimed(c: Core, n: Name)
    requires n in ScanTargets(c)
    ensures n !in c.reconnecting
  {
  }

  lemma SpawnAuto(s: State, t: State, spawned: map<Gid, Name>)
    requires AutoInv(s) && Injective(spawned)
    requires t.pcs.Keys == s.pcs.Keys + spawned.Keys
    requires t.core.reconnecting == s.core.reconnecting + spawned.Values
    requires forall g <- spawned :: AutoOf(s.PcOf(g)) == None
    requires forall g <- t.pcs :: AutoOf(t.pcs[g]) == if g in spawned then Some(spawned[g]) else AutoOf(s.pcs[g])
    requires forall g <- spawned :: spawned[g] !in s.core.reconnecting
    ensures AutoInv(t)
  {
    hide AutoOf;
    forall n <- t.core.reconnecting ensures exists g :: Reconnects(t, g, n) {
      if n in s.core.reconnecting {
        var g :| Reconnects(s, g, n);
        assert Reconnects(t, g, n);
      } else {
        var g :| g in spawned && spawned[g] == n;
        assert Reconnects(t, g, n);
      }
    }
  }

  lemma ScanStands(s: State, spawned: map<Gid, Name>)
    requires Inv(s) && Enabled(s, AutoScan(spawned))
    ensures var t := StepScan(s, spawned); forall g <- t.pcs :: LocalInv(t, t.pcs[g])
  {
    hide SessionInv, AutoInv, SemInv, IndexInv, NameInv, ReportsInv, FileBacked, ScanTargets;
    var t := StepScan(s, spawned);
    forall g <- t.pcs ensures LocalInv(t, t.pcs[g]) {
      if g !in spawned { StandsStill(s, t, s.pcs[g]); }
    }
  }

  lemma ScanKeeps(s: State, spawned: map<Gid, Name>)
    requires Inv(s) && Enabled(s, AutoScan(spawned))
    ensures Inv(StepScan(s, spawned))
  {
    hide ReportsInv, FileBacked, SessionInv, AutoInv, SemInv, IndexInv, LocalInv, Enabled, ScanTargets;
    var t := StepScan(s, spawned);
    ScanSem(s, spawned);
    ScanIndex(s, spawned);
    ScanSessions(s, spawned);
    ScanAuto(s, spawned);
    ScanStands(s, spawned);
    forall n ensures NameInv(t, n) { assert NameInv(s, n); }
  }
}
