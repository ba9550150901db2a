/** internal/registry/registry.go: one ReconnectWithBackoff call from the counter it reads to
    the end of its loop, whatever runs beside it. */
module RegistryRetries {
  import opened RegistryCore
  import opened RegistryMachine
  import opened RegistryInvariants
  import opened RegistrySteps
  import opened RegistryTheorems

  /** One call: for n, from this counter, with this budget. */
  datatype Loop = Loop(n: Name, base: nat, max: nat, auto: bool)

  predicate Of(l: Loop, goal: Goal)
  {
    goal.Retry? && goal.base == l.base && goal.max == l.max && goal.auto == l.auto
  }

  predicate NextIn(l: Loop, k: Cont)
  {
    match k
    case Begin(cfg, goal) => cfg.name == l.n && Of(l, goal)
    case CountRetry(n, retry) => n == l.n && Of(l, retry)
    case GiveUpRetry(n, retry) => n == l.n && Of(l, retry)
    case ResetCount(n, auto) => n == l.n && auto == l.auto
    case _ => false
  }

  /** Between the start of the loop and its end. */
  predicate Inside(l: Loop, pc: Pc)
  {
    match pc
    case BackoffMark(n, base, max, auto) => Loop(n, base, max, auto) == l
    case BackoffSleep(n, _, retry) => n == l.n && Of(l, retry)
    case ReadConfig(n, goal) => n == l.n && Of(l, goal)
    case Dial(cfg, _, goal) => cfg.name == l.n && Of(l, goal)
    case Listing(cfg, _, goal) => cfg.name == l.n && Of(l, goal)
    case Install(cfg, _, _, goal) => cfg.name == l.n && Of(l, goal)
    case Drop(n, k) => n == l.n && NextIn(l, k)
    case Shut(_, _, k) => NextIn(l, k)
    case Rebuild(k) => NextIn(l, k)
    case Snapshot(k) => NextIn(l, k)
    case Publish(_, _, k) => NextIn(l, k)
    case Go(k) => NextIn(l, k)
    case _ => false
  }

  /** The loop's two ends: a success that resets the counter, or the budget used up. */
  predicate LastStep(l: Loop, pc: Pc)
  {
    && pc.Go? && NextIn(l, pc.k)
    && (pc.k.ResetCount? || (pc.k.GiveUpRetry? && pc.k.retry.dials == l.max))
  }

  /** The loop goes on, or this was its last step. */
  ghost predicate GoesOn(s: State, e: Event, g: Gid, l: Loop)
    requires Enabled(s, e)
  {
    Inside(l, Next(s, e).PcOf(g)) ||
    (e == Advance(g) && LastStep(l, s.PcOf(g)) && Next(s, e).PcOf(g) == Go(Release(l.n, l.auto)))
  }

  lemma OthersDoNotMoveIt(s: State, e: Event, g: Gid)
    requires Inv(s) && Enabled(s, e) && s.PcOf(g) != IDLE && e != Restart && !(OfGoroutine(e) && e.g == g)
    ensures Next(s, e).PcOf(g) == s.PcOf(g)
  {
    if OfGoroutine(e) {
      var n, m := EventMoves(s, e);
      MoverMoves(s, Next(s, e), e.g, n, m);
    } else {
      AmbientDoesNotMoveIt(s, e, g);
    }
    hide Inv, Next, Enabled, Moved;
  }

  lemma MoverMoves(s: State, t: State, h: Gid, n: Name, m: SessionMove)
    requires Moved(s, t, h, n, m)
    ensures t.pcs == s.pcs[h := t.PcOf(h)]
  {
    hide SemMove, Ledger, IndexMove, AutoMove, Touches, Lands;
  }

  lemma AmbientDoesNotMoveIt(s: State, e: Event, g: Gid)
    requires Enabled(s, e) && s.PcOf(g) != IDLE && e != Restart && !OfGoroutine(e)
    ensures Next(s, e).PcOf(g) == s.PcOf(g)
  {
    hide BuildIndex, Shutdown, ScanTargets, SessionsIn, StepAdvance, StepDialFails, StepDialOpens, StepListed;
  }

  lemma LoopStep(s: State, e: Event, g: Gid, l: Loop)
    requires Inv(s) && Enabled(s, e) && Inside(l, s.PcOf(g)) && e != Cancel(g) && e != Restart
    ensures GoesOn(s, e, g, l)
  {
    if OfGoroutine(e) && e.g == g {
      assert LocalInv(s, s.PcOf(g)) && NameInv(s, l.n) by { assert g in s.pcs; }
      hide Inv;
      if e.Advance? {
        AdvanceInLoop(s, g, l);
      } else {
        DialInLoop(s, e, g, l);
      }
      hide LocalInv, NameInv, Inside, GoesOn, Enabled;
    } else {
      OthersDoNotMoveIt(s, e, g);
      hide Next, Enabled, Inv, Inside;
    }
  }

  lemma DialInLoop(s: State, e: Event, g: Gid, l: Loop)
    requires Enabled(s, e) && Inside(l, s.PcOf(g)) && OfGoroutine(e) && e.g == g && e != Cancel(g) && e != Advance(g)
    ensures GoesOn(s, e, g, l)
  {
    hide StepAdvance, SetError, FetchTools;
  }

  lemma AdvanceInLoop(s: State, g: Gid, l: Loop)
    requires CanAdvance(s, g) && Inside(l, s.PcOf(g)) && Account(s.core.states, s.disturbed, s.PcOf(g))
    requires l.n in s.core.states ==> s.core.states[l.n].config.name == l.n
    ensures GoesOn(s, Advance(g), g, l)
  {
    var pc := s.PcOf(g);
    if pc.Go? {
      GoInLoop(s, g, pc.k, l);
    } else if pc.Install? {
      InstallInLoop(s, g, l);
    } else if pc.ReadConfig? || pc.Drop? {
      RedialInLoop(s, g, l);
    } else if pc.BackoffMark? || pc.BackoffSleep? {
      WaitInLoop(s, g, l);
    } else {
      RebuildInLoop(s, g, l);
    }
    hide GoesOn, CanAdvance;
  }

  lemma RedialInLoop(s: State, g: Gid, l: Loop)
    requires Inside(l, s.PcOf(g)) && (s.PcOf(g).ReadConfig? || s.PcOf(g).Drop?)
    requires l.n in s.core.states ==> s.core.states[l.n].config.name == l.n
    ensures GoesOn(s, Advance(g), g, l)
  {
    hide StepGo, StepInstall, StepLoadNext, DropConnection;
  }

  lemma WaitInLoop(s: State, g: Gid, l: Loop)
    requires CanAdvance(s, g) && Inside(l, s.PcOf(g)) && (s.PcOf(g).BackoffMark? || s.PcOf(g).BackoffSleep?)
    ensures GoesOn(s, Advance(g), g, l)
  {
    hide StepGo, StepInstall, StepReadConfig, StepDrop, StepLoadNext, SetReconnecting;
  }

  /** Closing the session that was replaced and rebuilding the index, on the way. */
  lemma RebuildInLoop(s: State, g: Gid, l: Loop)
    requires CanAdvance(s, g) && Inside(l, s.PcOf(g))
    requires var pc := s.PcOf(g); pc.Shut? || pc.Rebuild? || pc.Snapshot? || pc.Publish?
    ensures GoesOn(s, Advance(g), g, l)
  {
    hide NextIn, After, StepGo, StepInstall, StepReadConfig, StepDrop, StepLoadNext, BuildIndex;
  }

  lemma AfterStaysIn(l: Loop, ok: bool, goal: Goal)
    requires Of(l, goal)
    ensures NextIn(l, After(l.n, ok, goal))
  {
  }

  lemma InstallInLoop(s: State, g: Gid, l: Loop)
    requires s.PcOf(g).Install? && Inside(l, s.PcOf(g))
    ensures GoesOn(s, Advance(g), g, l)
  {
    var goal := s.PcOf(g).goal;
    AfterStaysIn(l, true, goal);
    AfterStaysIn(l, false, goal);
    InstallGoesTo(s, g);
    hide After, NextIn, Of, LastStep, Next;
  }

  lemma InstallGoesTo(s: State, g: Gid)
    requires s.PcOf(g).Install?
    ensures var Install(cfg, x, _, goal) := s.PcOf(g);
      Next(s, Advance(g)).PcOf(g) ==
        if s.core.closed then Shut(x, false, After(cfg.name, false, goal))
        else Teardown(s.core, cfg.name, After(cfg.name, true, goal))
  {
    hide After, Teardown, InstallSession;
  }

  lemma GoInLoop(s: State, g: Gid, k: Cont, l: Loop)
    requires s.PcOf(g) == Go(k) && NextIn(l, k) && AccountCont(s.core.states, s.disturbed, k)
    ensures GoesOn(s, Advance(g), g, l)
  {
    hide MarkConnecting, SetAttempts, GiveUp, Backoff, After;
  }

  /** In this run g comes to one of the two ends. */
  ghost predicate Ends(s: State, events: seq<Event>, g: Gid, l: Loop)
    requires IsRun(s, events)
    decreases events
  {
    events != [] &&
    ((events[0] == Advance(g) && LastStep(l, s.PcOf(g))) || Ends(Next(s, events[0]), events[1..], g, l))
  }

  lemma {:induction false} LoopRun(s: State, events: seq<Event>, g: Gid, l: Loop)
    requires Inv(s) && IsRun(s, events) && Inside(l, s.PcOf(g))
    requires Cancel(g) !in events && Restart !in events
    ensures Inside(l, Run(s, events).PcOf(g)) || Ends(s, events, g, l)
    decreases events
  {
    if events != [] {
      var e := events[0];
      NextKeeps(s, e);
      LoopStep(s, e, g, l);
      hide Inv, Inside, LastStep, Enabled, Next;
      if Inside(l, Next(s, e).PcOf(g)) {
        LoopRun(Next(s, e), events[1..], g, l);
      }
    }
  }

  /** A backoff call counts from the counter it read, with the budget of its argument and
      configuration; unless cancelled it stays in its loop until a dial succeeded or it has
      dialled exactly its budget. */
  lemma BackoffEndsOneOfTwoWays(s: State, events: seq<Event>, g: Gid, n: Name, arg: int, auto: bool)
    requires Reachable(s) && s.PcOf(g) == BackoffRead(n, arg, auto) && n in s.core.states
    requires var budget := RetryBudget(arg, s.core.states[n].config);
      budget.Some? && IsRun(s, [Advance(g)] + events)
    requires Cancel(g) !in events && Restart !in events
    ensures var l := Loop(n, s.core.states[n].attempts, RetryBudget(arg, s.core.states[n].config).value, auto);
      var t := Next(s, Advance(g));
      && IsRun(t, events)
      && (Inside(l, Run(t, events).PcOf(g)) || Ends(t, events, g, l))
  {
    var t := Next(s, Advance(g));
    BackoffStarts(s, g, n, arg, auto);
    ReachableInv(s);
    hide Inv, Next, Enabled;
    NextKeeps(s, Advance(g));
    var all := [Advance(g)] + events;
    assert all[0] == Advance(g) && all[1..] == events;
    LoopRun(t, events, g, Loop(n, s.core.states[n].attempts, RetryBudget(arg, s.core.states[n].config).value, auto));
  }

  lemma BackoffStarts(s: State, g: Gid, n: Name, arg: int, auto: bool)
    requires s.PcOf(g) == BackoffRead(n, arg, auto) && n in s.core.states
    requires RetryBudget(arg, s.core.states[n].config).Some?
    ensures var l := Loop(n, s.core.states[n].attempts, RetryBudget(arg, s.core.states[n].config).value, auto);
      Enabled(s, Advance(g)) && Inside(l, Next(s, Advance(g)).PcOf(g))
  {
    hide RetryBudget, BuildIndex;
  }
}
