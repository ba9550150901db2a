/** The process-wide SLOP execution lock (internal/builtins/runtime.go) and the code that
    takes it: handleRunSlop, executeCustomTool, the syntax check of customize_tools, and
    RunScriptContext, whose command-line callers build their runtime before the lock. */
module SlopLock {
  import opened Options

  type Gid = nat

  /** Script is handleRunSlop or executeCustomTool. */
  datatype Kind = Script | Syntax | Cli

  /** The calling goroutine. Leaving is its unwinding, normal or by panic, with its deferred
      calls still to run. */
  datatype Handler = Outside | Want | Held | Built | Waiting | Leaving | Left

  /** The goroutine that executes the script. Ended has sent its result, not yet released. */
  datatype Worker = NotStarted | Running | Ended | Exited

  datatype Outcome = Value | ScriptError | Panicked

  /** `fired` is the state of the once-only release, `unlocks` counts real unlock calls. */
  datatype Job = Job(
    kind: Kind,
    handler: Handler,
    worker: Worker,
    handedOff: bool,
    result: Option<Outcome>,
    fired: bool,
    unlocks: nat)

  /** `caller` is slop's package-level pipeline caller: the runtime it was last bound to.
      `broken` records an unlock of an unlocked mutex, which is fatal. */
  datatype State = State(locked: bool, broken: bool, caller: Option<Gid>, jobs: map<Gid, Job>)

  datatype Event =
    | Begin(g: Gid, kind: Kind)
    | Acquire(g: Gid)
    | Construct(g: Gid)
    | Panic(g: Gid)
    | Parse(g: Gid)
    | HandOff(g: Gid)
    | Finish(g: Gid, outcome: Outcome)
    | Exit(g: Gid)
    | Receive(g: Gid)
    | TimeOut(g: Gid)
    | Leave(g: Gid)

  predicate Enabled(s: State, e: Event)
  {
    if e.Begin? then e.g !in s.jobs
    else
      e.g in s.jobs &&
      var j := s.jobs[e.g];
      match e
      case Acquire(_) => j.handler.Want? && !s.locked
      case Construct(_) => if j.kind.Cli? then j.handler.Outside? else j.handler.Held?
      case Panic(_) => !j.kind.Cli? && (j.handler.Held? || j.handler.Built?)
      case Parse(_) => j.kind.Syntax? && j.handler.Built?
      case HandOff(_) => (j.kind.Script? && j.handler.Built?) || (j.kind.Cli? && j.handler.Held?)
      case Finish(_, _) => j.worker.Running?
      case Exit(_) => j.worker.Ended?
      case Receive(_) => j.handler.Waiting? && j.result.Some?
      case TimeOut(_) => j.handler.Waiting?
      case Leave(_) => j.handler.Leaving?
      case Begin(_, _) => true
  }

  function Unlock(s: State, g: Gid): State
    requires g in s.jobs
  {
    var j := s.jobs[g];
    s.(locked := false, broken := s.broken || !s.locked, jobs := s.jobs[g := j.(unlocks := j.unlocks + 1)])
  }

  /** sync.OnceFunc(UnlockSlopExec). */
  function UnlockOnce(s: State, g: Gid): State
    requires g in s.jobs
  {
    if s.jobs[g].fired then s
    else Unlock(s.(jobs := s.jobs[g := s.jobs[g].(fired := true)]), g)
  }

  function Go(s: State, g: Gid, handler: Handler): State
    requires g in s.jobs
  {
    s.(jobs := s.jobs[g := s.jobs[g].(handler := handler)])
  }

  function Next(s: State, e: Event): State
    requires Enabled(s, e)
  {
    var g := e.g;
    match e
    case Begin(_, kind) =>
      s.(jobs := s.jobs[g := Job(kind, if kind.Cli? then Outside else Want, NotStarted, false, None, false, 0)])
    case Acquire(_) => Go(s.(locked := true), g, Held)
    case Construct(_) => Go(s.(caller := Some(g)), g, if s.jobs[g].kind.Cli? then Want else Built)
    case Panic(_) => Go(s, g, Leaving)
    case Parse(_) => Go(s, g, Leaving)
    case HandOff(_) =>
      s.(jobs := s.jobs[g := s.jobs[g].(handler := Waiting, worker := Running, handedOff := true)])
    case Finish(_, outcome) => s.(jobs := s.jobs[g := s.jobs[g].(worker := Ended, result := Some(outcome))])
    case Exit(_) => UnlockOnce(s.(jobs := s.jobs[g := s.jobs[g].(worker := Exited)]), g)
    case Receive(_) => Go(s, g, Leaving)
    case TimeOut(_) => Go(s, g, Leaving)
    case Leave(_) =>
      var left := Go(s, g, Left);
      (match s.jobs[g].kind
       case Syntax => Unlock(left, g)
       case Script => if s.jobs[g].handedOff then left else UnlockOnce(left, g)
       case Cli => left)
  }

  const IDLE := State(false, false, None, map[])

  ghost predicate Allowed(s: State, run: seq<Event>)
    decreases run
  {
    run == [] || (Enabled(s, run[0]) && Allowed(Next(s, run[0]), run[1..]))
  }

  ghost function Run(s: State, run: seq<Event>): State
    requires Allowed(s, run)
    decreases run
  {
    if run == [] then s else Run(Next(s, run[0]), run[1..])
  }

  ghost predicate Reachable(s: State)
  {
    exists run: seq<Event> :: Allowed(IDLE, run) && Run(IDLE, run) == s
  }

  // ---------------------------------------------------------------- the invariant

  /** Between this job's lock and its unlock. */
  predicate Owns(j: Job)
  {
    !j.handler.Outside? && !j.handler.Want? && j.unlocks == 0
  }

  predicate JobInv(j: Job)
  {
    && j.unlocks <= 1
    && (j.fired ==> j.unlocks == 1)
    && (j.handedOff <==> !j.worker.NotStarted?)
    && (j.handler.Outside? || j.handler.Want? ==> !j.handedOff && j.unlocks == 0)
    && (j.handler.Held? || j.handler.Built? ==> !j.handedOff && j.unlocks == 0)
    && (j.handler.Waiting? ==> j.handedOff)
    && (j.handler.Leaving? && !j.handedOff ==> j.unlocks == 0)
    && (j.handler.Left? && !j.handedOff ==> j.unlocks == 1)
    && (j.worker.Running? || j.worker.Ended? ==> j.unlocks == 0)
    && (j.worker.Exited? ==> j.unlocks == 1)
    && (j.result.Some? <==> j.worker.Ended? || j.worker.Exited?)
    && (j.kind.Syntax? ==> !j.handedOff)
    && (j.kind.Cli? && j.handler.Leaving? ==> j.handedOff)
    && (j.kind.Cli? ==> !j.handler.Built?)
    && (j.handedOff ==> j.handler.Waiting? || j.handler.Leaving? || j.handler.Left?)
    && (j.handler.Outside? ==> j.kind.Cli?)
  }

  ghost predicate Inv(s: State)
  {
    && !s.broken
    && (forall g <- s.jobs :: JobInv(s.jobs[g]))
    && (forall g <- s.jobs :: Owns(s.jobs[g]) ==> s.locked)
    && (s.locked ==> exists g <- s.jobs :: Owns(s.jobs[g]))
    && (forall g <- s.jobs, h <- s.jobs :: Owns(s.jobs[g]) && Owns(s.jobs[h]) ==> g == h)
  }

  /** What a step does to its own job and to the lock. */
  lemma OwnStep(s: State, e: Event)
    requires Enabled(s, e) && !s.broken
    requires e.g in s.jobs ==> JobInv(s.jobs[e.g]) && (Owns(s.jobs[e.g]) ==> s.locked)
    ensures Next(s, e).jobs == s.jobs[e.g := Next(s, e).jobs[e.g]]
    ensures !Next(s, e).broken && JobInv(Next(s, e).jobs[e.g])
    ensures var owned, owns := e.g in s.jobs && Owns(s.jobs[e.g]), Owns(Next(s, e).jobs[e.g]);
      && Next(s, e).locked == (if owned == owns then s.locked else owns)
      && (owns && !owned ==> !s.locked)
  {
  }

  lemma NextKeepsInv(s: State, e: Event)
    requires Inv(s) && Enabled(s, e)
    ensures Inv(Next(s, e))
  {
    OwnStep(s, e);
    var s', g := Next(s, e), e.g;
    hide Next, Enabled, JobInv, Owns;
    if s'.locked && !Owns(s'.jobs[g]) {
      var h :| h in s.jobs && Owns(s.jobs[h]);
      assert h != g && Owns(s'.jobs[h]);
    }
  }

  lemma {:induction false} RunKeepsInv(s: State, run: seq<Event>)
    requires Inv(s) && Allowed(s, run)
    ensures Inv(Run(s, run))
    decreases run
  {
    if run != [] {
      NextKeepsInv(s, run[0]);
      RunKeepsInv(Next(s, run[0]), run[1..]);
    }
  }

  lemma ReachableInv(s: State)
    requires Reachable(s)
    ensures Inv(s)
  {
    var run :| Allowed(IDLE, run) && Run(IDLE, run) == s;
    RunKeepsInv(IDLE, run);
  }

  // ---------------------------------------------------------------- theorems

  predicate Finished(j: Job)
  {
    j.handler.Left? && (j.worker.NotStarted? || j.worker.Exited?)
  }

  /** On every path the lock is released exactly once, never while it is not held, and free
      when everybody is done. */
  lemma ReleasedExactlyOnce(s: State)
    requires Reachable(s)
    ensures !s.broken
    ensures forall g <- s.jobs :: s.jobs[g].unlocks <= 1
    ensures forall g <- s.jobs :: Finished(s.jobs[g]) ==> s.jobs[g].unlocks == 1
    ensures (forall g <- s.jobs :: Finished(s.jobs[g])) ==> !s.locked
  {
    ReachableInv(s);
    assert forall g <- s.jobs :: JobInv(s.jobs[g]);
  }

  /** The runtime of this job is being built, parsed with or executed. */
  predicate InUse(j: Job)
  {
    j.handler.Held? || j.handler.Built? || j.worker.Running?
  }

  /** A job's release comes after its execution ended, even when its handler is long gone. */
  lemma HeldUntilTheEnd(s: State, g: Gid)
    requires Reachable(s) && g in s.jobs && InUse(s.jobs[g])
    ensures s.locked && s.jobs[g].unlocks == 0
    ensures forall h <- s.jobs :: InUse(s.jobs[h]) ==> h == g
  {
    ReachableInv(s);
    assert forall h <- s.jobs :: JobInv(s.jobs[h]);
  }

  // ---------------------------------------------------------------- the pipeline caller

  /** This job's runtime is bound to the package-global caller: it exists and its execution
      has not ended. */
  predicate Bound(j: Job)
  {
    j.handler.Built? || j.worker.Running?
  }

  /** It has been, and will not be again. */
  predicate Past(j: Job)
  {
    j.worker.Ended? || j.worker.Exited? || (j.worker.NotStarted? && (j.handler.Leaving? || j.handler.Left?))
  }

  /** Some command-line job builds its runtime in these events. */
  ghost predicate CliBuilds(s: State, events: seq<Event>)
  {
    exists e <- events :: e.Construct? && e.g in s.jobs && s.jobs[e.g].kind.Cli?
  }

  /** The events after g built its runtime. */
  function SinceBuild(run: seq<Event>, g: Gid): seq<Event>
  {
    if run == [] then []
    else if run[0] == Construct(g) then run[1..]
    else SinceBuild(run[1..], g)
  }

  lemma {:induction false} KindsKept(s: State, run: seq<Event>, h: Gid)
    requires Allowed(s, run) && h in s.jobs
    ensures h in Run(s, run).jobs && Run(s, run).jobs[h].kind == s.jobs[h].kind
    decreases run
  {
    if run != [] {
      KindsKept(Next(s, run[0]), run[1..], h);
    }
  }

  lemma PastStays(s: State, e: Event, g: Gid)
    requires Enabled(s, e) && g in s.jobs && JobInv(s.jobs[g]) && Past(s.jobs[g])
    ensures g in Next(s, e).jobs && Past(Next(s, e).jobs[g])
  {
  }

  lemma {:induction false} PastForGood(s: State, run: seq<Event>, g: Gid)
    requires Inv(s) && Allowed(s, run) && g in s.jobs && Past(s.jobs[g])
    ensures g in Run(s, run).jobs && !Bound(Run(s, run).jobs[g])
    decreases run
  {
    assert JobInv(s.jobs[g]);
    if run != [] {
      NextKeepsInv(s, run[0]);
      PastStays(s, run[0], g);
      PastForGood(Next(s, run[0]), run[1..], g);
    }
  }

  /** While g is bound it holds the lock, so only a command-line job can rebind the caller. */
  lemma BoundStep(s: State, e: Event, g: Gid)
    requires Inv(s) && Enabled(s, e) && g in s.jobs && !s.jobs[g].kind.Cli? && Bound(s.jobs[g])
    ensures var t := Next(s, e);
      && g in t.jobs && (Bound(t.jobs[g]) || Past(t.jobs[g]))
      && (t.caller == Some(g) <==>
            s.caller == Some(g) && !(e.Construct? && e.g in s.jobs && s.jobs[e.g].kind.Cli?))
  {
    assert JobInv(s.jobs[g]);
    if e.g in s.jobs { assert JobInv(s.jobs[e.g]); }
  }

  lemma {:induction false} BoundRun(s: State, run: seq<Event>, g: Gid)
    requires Inv(s) && Allowed(s, run) && g in s.jobs && !s.jobs[g].kind.Cli? && Bound(s.jobs[g])
    requires g in Run(s, run).jobs && Bound(Run(s, run).jobs[g])
    ensures Run(s, run).caller == Some(g) <==> s.caller == Some(g) && !CliBuilds(Run(s, run), run)
    decreases run
  {
    if run != [] {
      var e, t := run[0], Next(s, run[0]);
      NextKeepsInv(s, e);
      BoundStep(s, e, g);
      if e.g in t.jobs { KindsKept(t, run[1..], e.g); }
      if Past(t.jobs[g]) { PastForGood(t, run[1..], g); }
      KindsKept(t, run[1..], g);
      BoundRun(t, run[1..], g);
      assert CliBuilds(Run(s, run), run) <==>
        CliBuilds(Run(s, run), [e]) || CliBuilds(Run(s, run), run[1..]) by { assert run == [e] + run[1..]; }
    }
  }

  /** Not built yet: it waits for the lock, or has only just got it. */
  predicate Early(s: State, g: Gid)
  {
    g in s.jobs ==>
      && (s.jobs[g].handler.Want? || s.jobs[g].handler.Held? || s.jobs[g].handler.Outside?)
      && s.jobs[g].worker.NotStarted?
  }

  lemma EarlyStep(s: State, e: Event, g: Gid)
    requires Inv(s) && Enabled(s, e) && Early(s, g)
    requires g in Next(s, e).jobs ==> !Next(s, e).jobs[g].kind.Cli?
    ensures var t := Next(s, e);
      if e == Construct(g) then g in t.jobs && Bound(t.jobs[g]) && t.caller == Some(g)
      else Early(t, g) || (g in t.jobs && Past(t.jobs[g]))
  {
    if g in s.jobs { assert JobInv(s.jobs[g]); }
  }

  lemma {:induction false} EarlyRun(s: State, run: seq<Event>, g: Gid)
    requires Inv(s) && Allowed(s, run) && Early(s, g)
    requires var t := Run(s, run); g in t.jobs && !t.jobs[g].kind.Cli? && Bound(t.jobs[g])
    ensures Run(s, run).caller == Some(g) <==> !CliBuilds(Run(s, run), SinceBuild(run, g))
    decreases run
  {
    if run != [] {
      var e, t := run[0], Next(s, run[0]);
      NextKeepsInv(s, e);
      if g in t.jobs { KindsKept(t, run[1..], g); }
      EarlyStep(s, e, g);
      if e == Construct(g) {
        BoundRun(t, run[1..], g);
      } else {
        if g in t.jobs && Past(t.jobs[g]) { PastForGood(t, run[1..], g); }
        EarlyRun(t, run[1..], g);
      }
    }
  }

  /** From the moment a server job's runtime exists until its execution ends, the
      package-global pipeline caller is its own exactly as long as no command-line job, which
      builds outside the lock, has built one in the same process. */
  lemma CallerIsTheRunningScript(run: seq<Event>, g: Gid)
    requires Allowed(IDLE, run)
    requires var s := Run(IDLE, run); g in s.jobs && !s.jobs[g].kind.Cli? && Bound(s.jobs[g])
    ensures Run(IDLE, run).caller == Some(g) <==> !CliBuilds(Run(IDLE, run), SinceBuild(run, g))
  {
    EarlyRun(IDLE, run, g);
  }

  /** A process that runs one job, as each command-line tool does, has the property whatever
      the job's kind. */
  lemma ALoneJobIsTheCaller(run: seq<Event>, g: Gid)
    requires Allowed(IDLE, run) && forall e <- run :: e.g == g
    requires var s := Run(IDLE, run); g in s.jobs && Bound(s.jobs[g])
    ensures Run(IDLE, run).caller == Some(g)
  {
    LoneRun(IDLE, run, g);
  }

  /** Only g is there, and once it has a runtime the caller is bound to it. */
  ghost predicate Lone(s: State, g: Gid)
  {
    && s.jobs.Keys <= {g}
    && (g in s.jobs && s.caller != Some(g) ==>
          && s.jobs[g].worker.NotStarted? && !s.jobs[g].handler.Built?
          && (s.jobs[g].kind.Cli? ==> s.jobs[g].handler.Outside?))
  }

  lemma {:induction false} LoneRun(s: State, run: seq<Event>, g: Gid)
    requires Allowed(s, run) && Lone(s, g) && forall e <- run :: e.g == g
    ensures Lone(Run(s, run), g)
    decreases run
  {
    if run != [] {
      assert run[0] in run && forall e <- run[1..] :: e in run;
      LoneStep(s, run[0], g);
      LoneRun(Next(s, run[0]), run[1..], g);
    }
  }

  lemma LoneStep(s: State, e: Event, g: Gid)
    requires Enabled(s, e) && Lone(s, g) && e.g == g
    ensures Lone(Next(s, e), g)
  {
  }

  // ---------------------------------------------------------------- results

  lemma {:induction false} ResultStays(s: State, run: seq<Event>, g: Gid, o: Outcome)
    requires Inv(s) && Allowed(s, run) && g in s.jobs && s.jobs[g].result == Some(o)
    ensures g in Run(s, run).jobs && Run(s, run).jobs[g].result == Some(o)
    decreases run
  {
    assert JobInv(s.jobs[g]);
    if run != [] {
      NextKeepsInv(s, run[0]);
      ResultStays(Next(s, run[0]), run[1..], g, o);
    }
  }

  lemma {:induction false} ResultComes(s: State, run: seq<Event>, g: Gid)
    requires Inv(s) && Allowed(s, run) && (g in s.jobs ==> s.jobs[g].result.None?)
    requires g in Run(s, run).jobs && Run(s, run).jobs[g].result.Some?
    ensures Finish(g, Run(s, run).jobs[g].result.value) in run
    decreases run
  {
    if run != [] {
      var e, t := run[0], Next(s, run[0]);
      NextKeepsInv(s, e);
      if e.Finish? && e.g == g {
        ResultStays(t, run[1..], g, e.outcome);
      } else {
        ResultComes(t, run[1..], g);
      }
    }
  }

  /** A handler that gets a result gets what its own script ended with. */
  lemma ResultIsTheOutcome(run: seq<Event>, g: Gid)
    requires Allowed(IDLE, run) && Enabled(Run(IDLE, run), Receive(g))
    ensures var j := Run(IDLE, run).jobs[g]; j.result.Some? && Finish(g, j.result.value) in run
  {
    ResultComes(IDLE, run, g);
  }

  /** Nothing is assumed of scripts and callers: a server job may panic before it hands over,
      a script may end in any way, and a handler may give up waiting at any time. */
  lemma AnythingMayFail(s: State, g: Gid)
    requires g in s.jobs
    ensures var j := s.jobs[g];
      && (!j.kind.Cli? && (j.handler.Held? || j.handler.Built?) ==> Enabled(s, Panic(g)))
      && (j.handler.Waiting? ==> Enabled(s, TimeOut(g)))
      && (j.worker.Running? ==> forall o :: Enabled(s, Finish(g, o)))
  {
  }

  // ---------------------------------------------------------------- progress

  /** How many steps a job has left, at most. */
  function StepsLeft(j: Job): nat
  {
    (match j.handler
     case Outside => 9 case Want => 8 case Held => 7 case Built => 6
     case Waiting => 2 case Leaving => 1 case Left => 0) +
    (match j.worker case NotStarted => 0 case Running => 2 case Ended => 1 case Exited => 0)
  }

  /** Every step of a job brings its end nearer, so none goes on for ever. */
  lemma StepsRunOut(s: State, e: Event)
    requires Enabled(s, e) && !e.Begin?
    ensures StepsLeft(Next(s, e).jobs[e.g]) < StepsLeft(s.jobs[e.g])
    ensures forall h <- s.jobs | h != e.g :: Next(s, e).jobs[h] == s.jobs[h]
  {
  }

  /** While a job is not finished, it or the owner of the lock has a step to take. */
  lemma SomeoneCanMove(s: State, g: Gid) returns (e: Event)
    requires Reachable(s) && g in s.jobs && !Finished(s.jobs[g])
    ensures Enabled(s, e) && !e.Begin? && !e.TimeOut? && (e.g == g || Owns(s.jobs[e.g]))
  {
    ReachableInv(s);
    var j := s.jobs[g];
    assert JobInv(j);
    if s.locked && j.handler.Want? {
      e := OwnerCanMove(s);
    } else if j.worker.Running? {
      e := Finish(g, Value);
    } else if j.worker.Ended? {
      e := Exit(g);
    } else {
      e := match j.handler
        case Outside => Construct(g)
        case Want => Acquire(g)
        case Held => if j.kind.Cli? then HandOff(g) else Construct(g)
        case Built => if j.kind.Syntax? then Parse(g) else HandOff(g)
        case Waiting => Receive(g)
        case Leaving => Leave(g)
        case Left => Leave(g);
    }
  }

  /** A held lock is never stuck: its owner can take a step that waits for nobody. */
  lemma OwnerCanMove(s: State) returns (e: Event)
    requires Reachable(s) && s.locked
    ensures Enabled(s, e) && !e.Begin? && !e.Acquire? && !e.TimeOut? && Owns(s.jobs[e.g])
  {
    ReachableInv(s);
    var g :| g in s.jobs && Owns(s.jobs[g]);
    var j := s.jobs[g];
    assert JobInv(j);
    if j.worker.Running? {
      e := Finish(g, Value);
    } else if j.worker.Ended? {
      e := Exit(g);
    } else if j.handler.Held? {
      e := if j.kind.Cli? then HandOff(g) else Construct(g);
    } else if j.handler.Built? {
      e := if j.kind.Syntax? then Parse(g) else HandOff(g);
    } else {
      e := Leave(g);
    }
  }
}
