/** getValidToken (internal/registry/registry.go) run by any number of goroutines in any
    number of processes over one token file (internal/auth/tokenstore.go), against
    authorization servers whose refresh tokens rotate (internal/auth/auth.go). */
module TokenRefresh {
  import opened Options

  type Gid = nat

  /** The zero time is None: no known expiry. */
  datatype Token = Token(server: string, access: string, refresh: string, endpoint: string, expiresAt: Option<int>)

  type TokenFile = map<string, Token>

  /** Five minutes, in seconds. */
  const EXPIRY_BUFFER: int := 300

  predicate Expired(t: Token, now: int)
  {
    t.expiresAt.Some? && now + EXPIRY_BUFFER > t.expiresAt.value
  }

  /** What a token endpoint answers; an empty refresh token means none was given. */
  datatype Answer = Answer(access: string, refresh: string, expiresIn: int)

  function Refreshed(t: Token, a: Answer, now: int): Token
  {
    t.(access := a.access,
       refresh := if a.refresh != "" then a.refresh else t.refresh,
       expiresAt := if a.expiresIn > 0 then Some(now + a.expiresIn) else None)
  }

  datatype Pc =
    | Stale(tok: Token)
    | Locked(tok: Token)
    | Ready(tok: Token)
    | Sent(tok: Token)
    | Loading(spent: string, got: Token)
    | Saving(spent: string, got: Token, copy: TokenFile)
    | Done(result: Option<Token>)

  /** `sent` lists every refresh token value handed to a server. `unreplaced` holds those
      whose exchange has not put another value in the file. `issued` holds every value a
      server ever gave out. */
  datatype State = State(
    file: TokenFile,
    lock: Option<Gid>,
    now: int,
    jobs: map<Gid, Pc>,
    sent: seq<string>,
    unreplaced: set<string>,
    issued: set<string>)

  datatype Event =
    | Tick(seconds: nat)
    | Begin(g: Gid, server: string)
    | LockGranted(g: Gid)
    | LockFailed(g: Gid)
    | Reread(g: Gid, ok: bool)
    | Send(g: Gid)
    | Respond(g: Gid, answer: Option<Answer>)
    | Load(g: Gid, ok: bool)
    | Save(g: Gid, ok: bool)
    | Return(g: Gid)
    | Crash(g: Gid)

  /** A server answers with a value it never gave out before, with the one it was sent, or
      with none. */
  predicate MayAnswer(s: State, tok: Token, a: Answer)
  {
    a.refresh == "" || a.refresh == tok.refresh || a.refresh !in s.issued
  }

  predicate Enabled(s: State, e: Event)
  {
    match e
    case Tick(_) => true
    case Begin(g, _) => g !in s.jobs
    case LockGranted(g) => g in s.jobs && s.jobs[g].Stale? && s.lock.None?
    case LockFailed(g) => g in s.jobs && s.jobs[g].Stale?
    case Reread(g, _) => g in s.jobs && s.jobs[g].Locked?
    case Send(g) => g in s.jobs && s.jobs[g].Ready?
    case Respond(g, answer) =>
      g in s.jobs && s.jobs[g].Sent? && (answer.Some? ==> MayAnswer(s, s.jobs[g].tok, answer.value))
    case Load(g, _) => g in s.jobs && s.jobs[g].Loading?
    case Save(g, _) => g in s.jobs && s.jobs[g].Saving?
    case Return(g) => g in s.jobs && s.jobs[g].Done?
    case Crash(g) => g in s.jobs
  }

  /** The first, unlocked look at the stored token. */
  function Look(file: TokenFile, server: string, now: int): Pc
  {
    if server !in file then Done(None)
    else if !Expired(file[server], now) then Done(Some(file[server]))
    else if file[server].refresh == "" || file[server].endpoint == "" then Done(None)
    else Stale(file[server])
  }

  /** The look under the lock: the newest stored token is used, or refreshed. */
  function LookAgain(file: TokenFile, tok: Token, readable: bool, now: int): Pc
  {
    if !readable || tok.server !in file then Ready(tok)
    else if !Expired(file[tok.server], now) then Done(Some(file[tok.server]))
    else Ready(file[tok.server])
  }

  function Go(s: State, g: Gid, pc: Pc): State
  {
    s.(jobs := s.jobs[g := pc])
  }

  /** The goroutine is gone, and so is the lock if it was its own. */
  function Gone(s: State, g: Gid): State
  {
    s.(jobs := s.jobs - {g}, lock := if s.lock == Some(g) then None else s.lock)
  }

  function Next(s: State, e: Event): State
    requires Enabled(s, e)
  {
    match e
    case Tick(d) => s.(now := s.now + d)
    case Begin(g, server) => Go(s, g, Look(s.file, server, s.now))
    case LockGranted(g) => Go(s.(lock := Some(g)), g, Locked(s.jobs[g].tok))
    case LockFailed(g) => Go(s, g, Ready(s.jobs[g].tok))
    case Reread(g, ok) => Go(s, g, LookAgain(s.file, s.jobs[g].tok, ok, s.now))
    case Send(g) =>
      var tok := s.jobs[g].tok;
      if tok.refresh == "" || tok.endpoint == "" then Go(s, g, Done(None))
      else Go(s.(sent := s.sent + [tok.refresh], unreplaced := s.unreplaced + {tok.refresh}), g, Sent(tok))
    case Respond(g, answer) =>
      var tok := s.jobs[g].tok;
      if answer.None? then Go(s, g, Done(None))
      else
        var got := Refreshed(tok, answer.value, s.now);
        Go(s.(issued := s.issued + {got.refresh}), g, Loading(tok.refresh, got))
    case Load(g, ok) =>
      var spent, got := s.jobs[g].spent, s.jobs[g].got;
      Go(s, g, if ok then Saving(spent, got, s.file) else Done(Some(got)))
    case Save(g, ok) =>
      var spent, got := s.jobs[g].spent, s.jobs[g].got;
      if !ok then Go(s, g, Done(Some(got)))
      else
        var left := if got.refresh != spent then s.unreplaced - {spent} else s.unreplaced;
        Go(s.(file := s.jobs[g].copy[got.server := got], unreplaced := left), g, Done(Some(got)))
    case Return(g) => Gone(s, g)
    case Crash(g) => Gone(s, g)
  }

  ghost predicate Allowed(s: State, run: seq<Event>)
    decreases run
  {
    run == [] || (Enabled(s, run[0]) && Allowed(Next(s, run[0]), run[1..]))
  }

  ghost function Run(s: State, run: seq<Event>): State
    requires Allowed(s, run)
    decreases run
  {
    if run == [] then s else Run(Next(s, run[0]), run[1..])
  }

  /** The file lock can be had, and the file can be read under it. */
  predicate Undisturbed(e: Event)
  {
    !e.LockFailed? && (e.Reread? ==> e.ok)
  }

  /** The file at the start: every token under its own server's name, and no refresh token
      held for two servers. */
  ghost predicate Start(s: State)
  {
    && s.lock.None? && s.jobs == map[] && s.sent == [] && s.unreplaced == {}
    && Filed(s.file) && Distinct(s.file)
    && (forall k <- s.file :: s.file[k].refresh in s.issued)
  }

  ghost predicate Filed(file: TokenFile)
  {
    forall k <- file :: file[k].server == k
  }

  ghost predicate Distinct(file: TokenFile)
  {
    forall j <- file, k <- file | file[j].refresh == file[k].refresh && file[j].refresh != "" :: j == k
  }

  // ---------------------------------------------------------------- the invariant

  predicate InLock(pc: Pc)
  {
    !pc.Stale? && !pc.Done?
  }

  /** The lock holder works on the stored token, and only it does. */
  ghost predicate JobInv(s: State, g: Gid)
    requires g in s.jobs
  {
    var pc := s.jobs[g];
    && (InLock(pc) ==> s.lock == Some(g))
    && (pc.Stale? || pc.Locked? ==> pc.tok.server in s.file)
    && (pc.Ready? || pc.Sent? ==> pc.tok.server in s.file && s.file[pc.tok.server] == pc.tok)
    && (pc.Sent? ==> pc.tok.refresh != "")
    && (pc.Loading? || pc.Saving? ==>
          && pc.got.server in s.file && s.file[pc.got.server].refresh == pc.spent && pc.spent != ""
          && (pc.got.refresh == pc.spent || NewValue(s, pc.got.refresh)))
    && (pc.Saving? ==> pc.copy == s.file)
  }

  /** Given out, but neither stored nor sent yet. */
  ghost predicate NewValue(s: State, v: string)
  {
    v in s.issued && v != "" && v !in s.sent && forall k <- s.file :: s.file[k].refresh != v
  }

  ghost predicate Inv(s: State)
  {
    && Filed(s.file) && Distinct(s.file)
    && (forall k <- s.file :: s.file[k].refresh in s.issued)
    && (forall v <- s.sent :: v in s.issued)
    && (forall v <- s.unreplaced :: v in s.sent)
    && (forall v <- s.sent | v !in s.unreplaced :: forall k <- s.file :: s.file[k].refresh != v)
    && (forall g <- s.jobs :: JobInv(s, g))
    && (s.lock.Some? ==> s.lock.value in s.jobs && !s.jobs[s.lock.value].Stale?)
  }

  lemma StartInv(s: State)
    requires Start(s)
    ensures Inv(s)
  {
  }

  /** A step of g outside the lock leaves the file alone, so the others' facts stand. */
  lemma OtherJobs(s: State, s': State, g: Gid)
    requires Inv(s) && s'.jobs.Keys - {g} == s.jobs.Keys - {g}
    requires forall h <- s'.jobs | h != g :: h in s.jobs && s'.jobs[h] == s.jobs[h]
    requires s'.lock == s.lock || forall h <- s.jobs | h != g :: !InLock(s.jobs[h])
    requires s'.file.Keys == s.file.Keys
    requires (s'.file == s.file && s'.sent == s.sent && s'.issued == s.issued) || s.lock == Some(g)
    ensures forall h <- s'.jobs | h != g :: JobInv(s', h)
  {
    forall h <- s'.jobs | h != g ensures JobInv(s', h) {
      assert JobInv(s, h);
    }
  }

  /** The lock is there, and what is read under it, if anything, is the token to refresh. */
  predicate Guarded(s: State, e: Event)
    requires Enabled(s, e)
  {
    && !e.LockFailed?
    && (e.Reread? && !e.ok ==> var tok := s.jobs[e.g].tok; tok.server in s.file && s.file[tok.server] == tok)
  }

  /** The invariant is kept by every step but a refresh begun without the lock, or with a
      token that is no longer the stored one. */
  lemma NextKeepsInv(s: State, e: Event)
    requires Inv(s) && Enabled(s, e)
    ensures Inv(Next(s, e)) <==> Guarded(s, e)
  {
    match e {
      case Tick(_) => assert forall g <- s.jobs :: JobInv(s, g);
      case Send(g) => SendKeeps(s, g);
      case Respond(g, answer) => RespondKeeps(s, g, answer);
      case Save(g, ok) => SaveKeeps(s, g, ok);
      case Return(g) => EndKeeps(s, e, g);
      case Crash(g) => EndKeeps(s, e, g);
      case LockFailed(g) => UnlockedBreaks(s, e, g);
      case Reread(g, _) => if Guarded(s, e) { LockKeeps(s, e, g); } else { UnlockedBreaks(s, e, g); }
      case Begin(g, _) => LockKeeps(s, e, g);
      case LockGranted(g) => LockKeeps(s, e, g);
      case Load(g, _) => LockKeeps(s, e, g);
    }
    hide Inv, Next, Enabled;
  }

  lemma UnlockedBreaks(s: State, e: Event, g: Gid)
    requires Inv(s) && Enabled(s, e) && !Guarded(s, e) && (e.LockFailed? || e.Reread?) && g == e.g
    ensures !Inv(Next(s, e))
  {
    assert JobInv(s, g);
    assert !JobInv(Next(s, e), g);
  }

  lemma LockKeeps(s: State, e: Event, g: Gid)
    requires Inv(s) && Enabled(s, e) && Guarded(s, e)
    requires (e.Begin? || e.LockGranted? || e.Reread? || e.Load?) && g == e.g
    ensures Inv(Next(s, e))
  {
    if g in s.jobs { assert JobInv(s, g); }
    OtherJobs(s, Next(s, e), g);
    assert JobInv(Next(s, e), g);
  }

  lemma SendKeeps(s: State, g: Gid)
    requires Inv(s) && Enabled(s, Send(g))
    ensures Inv(Next(s, Send(g)))
  {
    assert JobInv(s, g);
    OtherJobs(s, Next(s, Send(g)), g);
    assert JobInv(Next(s, Send(g)), g);
  }

  lemma RespondKeeps(s: State, g: Gid, answer: Option<Answer>)
    requires Inv(s) && Enabled(s, Respond(g, answer))
    ensures Inv(Next(s, Respond(g, answer)))
  {
    assert JobInv(s, g);
    OtherJobs(s, Next(s, Respond(g, answer)), g);
    assert JobInv(Next(s, Respond(g, answer)), g);
  }

  /** The saved token replaces the one it was refreshed from, and no other. */
  lemma SavedFile(s: State, g: Gid)
    requires Inv(s) && Enabled(s, Save(g, true))
    ensures var s' := Next(s, Save(g, true));
      && s'.file == s.file[s.jobs[g].got.server := s.jobs[g].got]
      && Filed(s'.file) && Distinct(s'.file)
      && (forall k <- s'.file :: s'.file[k].refresh in s'.issued)
      && (forall v <- s'.sent | v !in s'.unreplaced :: forall k <- s'.file :: s'.file[k].refresh != v)
  {
    assert JobInv(s, g);
  }

  lemma SaveKeeps(s: State, g: Gid, ok: bool)
    requires Inv(s) && Enabled(s, Save(g, ok))
    ensures Inv(Next(s, Save(g, ok)))
  {
    assert JobInv(s, g);
    var s' := Next(s, Save(g, ok));
    if ok { SavedFile(s, g); }
    OtherJobs(s, s', g);
    assert JobInv(s', g);
    hide JobInv, Filed, Distinct;
  }

  lemma EndKeeps(s: State, e: Event, g: Gid)
    requires Inv(s) && Enabled(s, e) && (e == Return(g) || e == Crash(g))
    ensures Inv(Next(s, e))
  {
    assert JobInv(s, g);
    OtherJobs(s, Next(s, e), g);
  }

  lemma {:induction false} RunKeepsInv(s: State, run: seq<Event>)
    requires Inv(s) && Allowed(s, run) && forall e <- run :: Undisturbed(e)
    ensures Inv(Run(s, run))
    decreases run
  {
    if run != [] {
      assert run[0] in run && forall d <- run[1..] :: d in run;
      NextKeepsInv(s, run[0]);
      hide Inv, Next, Enabled;
      RunKeepsInv(Next(s, run[0]), run[1..]);
    }
  }

  // ---------------------------------------------------------------- what the lock buys

  /** Every refresh that goes out carries the refresh token the file holds at that moment,
      and carries one already spent exactly when that exchange has put no other in the file. */
  lemma StoredTokenIsSent(start: State, run: seq<Event>, g: Gid)
    requires Start(start) && Allowed(start, run) && forall e <- run :: Undisturbed(e)
    requires Enabled(Run(start, run), Send(g))
    ensures var s := Run(start, run);
      var tok := s.jobs[g].tok;
      && s.lock == Some(g)
      && tok.server in s.file && s.file[tok.server] == tok
      && (tok.refresh in s.sent <==> tok.refresh in s.unreplaced)
  {
    StartInv(start);
    RunKeepsInv(start, run);
    var s := Run(start, run);
    assert JobInv(s, g);
  }

  /** A step of a run in which every exchange is carried through: each answer arrives with
      a new refresh token, each read under the lock and each save succeeds, and nobody dies
      between. */
  predicate ExchangeCarried(s: State, e: Event)
    requires Enabled(s, e)
  {
    && (e.Respond? ==> e.answer.Some? && e.answer.value.refresh !in {"", s.jobs[e.g].tok.refresh})
    && (e.Reread? || e.Load? || e.Save? ==> e.ok)
    && !e.Crash?
  }

  /** And the file lock is there to be had. */
  predicate CarriedThrough(s: State, e: Event)
    requires Enabled(s, e)
  {
    ExchangeCarried(s, e) && !e.LockFailed?
  }

  ghost predicate AllCarriedThrough(s: State, run: seq<Event>)
    requires Allowed(s, run)
    decreases run
  {
    run == [] || (CarriedThrough(s, run[0]) && AllCarriedThrough(Next(s, run[0]), run[1..]))
  }

  /** The only spent value still stored is the one the lock holder is exchanging. */
  ghost predicate Underway(s: State)
  {
    && (forall v <- s.unreplaced :: exists g <- s.jobs :: Exchanging(s.jobs[g], v))
    && (forall g <- s.jobs :: s.jobs[g].Loading? || s.jobs[g].Saving? ==> s.jobs[g].got.refresh != s.jobs[g].spent)
  }

  predicate Exchanging(pc: Pc, v: string)
  {
    (pc.Sent? && pc.tok.refresh == v) || ((pc.Loading? || pc.Saving?) && pc.spent == v)
  }

  ghost predicate AllDifferent(sent: seq<string>)
  {
    forall i, j | 0 <= i < j < |sent| :: sent[i] != sent[j]
  }

  lemma StaysUnderway(s: State, e: Event)
    requires Inv(s) && Underway(s) && Enabled(s, e) && CarriedThrough(s, e)
    ensures Underway(Next(s, e))
  {
    var s' := Next(s, e);
    forall v <- s'.unreplaced ensures exists g <- s'.jobs :: Exchanging(s'.jobs[g], v) {
      if v in s.unreplaced {
        var g :| g in s.jobs && Exchanging(s.jobs[g], v);
        GoesOnExchanging(s, e, g, v);
        assert g in s'.jobs;
      } else {
        assert Exchanging(s'.jobs[e.g], v);
      }
    }
  }

  lemma GoesOnExchanging(s: State, e: Event, g: Gid, v: string)
    requires Inv(s) && Enabled(s, e) && CarriedThrough(s, e)
    requires g in s.jobs && Exchanging(s.jobs[g], v) && v in Next(s, e).unreplaced
    requires s.jobs[g].Saving? ==> s.jobs[g].got.refresh != v
    ensures g in Next(s, e).jobs && Exchanging(Next(s, e).jobs[g], v)
  {
  }

  lemma StaysDifferent(s: State, e: Event)
    requires Inv(s) && Underway(s) && AllDifferent(s.sent) && Enabled(s, e) && CarriedThrough(s, e)
    ensures AllDifferent(Next(s, e).sent)
  {
    if e.Send? {
      assert JobInv(s, e.g);
      forall h <- s.jobs ensures !Exchanging(s.jobs[h], s.jobs[e.g].tok.refresh) {
        assert JobInv(s, h);
      }
    }
  }

  lemma {:induction false} CarriedThroughRun(s: State, run: seq<Event>)
    requires Inv(s) && Underway(s) && AllDifferent(s.sent)
    requires Allowed(s, run) && AllCarriedThrough(s, run)
    ensures AllDifferent(Run(s, run).sent)
    decreases run
  {
    if run != [] {
      NextKeepsInv(s, run[0]);
      StaysUnderway(s, run[0]);
      StaysDifferent(s, run[0]);
      CarriedThroughRun(Next(s, run[0]), run[1..]);
    }
  }

  /** A rotating refresh token is spent at most once. */
  lemma NeverSpentTwice(start: State, run: seq<Event>)
    requires Start(start) && Allowed(start, run) && AllCarriedThrough(start, run)
    ensures AllDifferent(Run(start, run).sent)
  {
    StartInv(start);
    CarriedThroughRun(start, run);
  }

  // ---------------------------------------------------------------- other servers

  ghost predicate Began(run: seq<Event>, server: string)
  {
    exists e <- run :: e.Begin? && e.server == server
  }

  /** The server whose token this goroutine works on, or will write. */
  function WorksOn(pc: Pc): Option<string>
  {
    match pc
    case Loading(_, got) => Some(got.server)
    case Saving(_, got, _) => Some(got.server)
    case Done(_) => None
    case _ => Some(pc.tok.server)
  }

  /** Neither the file nor any copy about to replace it is without this server. */
  ghost predicate Holding(s: State, server: string)
  {
    server in s.file && forall g <- s.jobs :: s.jobs[g].Saving? ==> server in s.jobs[g].copy
  }

  /** File and copies agree on this server's token, and nobody works on it. */
  ghost predicate Frozen(s: State, server: string, token: Token)
  {
    && Filed(s.file) && server in s.file && s.file[server] == token
    && (forall g <- s.jobs :: WorksOn(s.jobs[g]) != Some(server))
    && (forall g <- s.jobs :: s.jobs[g].Saving? ==>
          Filed(s.jobs[g].copy) && server in s.jobs[g].copy && s.jobs[g].copy[server] == token)
  }

  lemma {:induction false} HoldingRun(s: State, run: seq<Event>, server: string)
    requires Allowed(s, run) && Holding(s, server)
    ensures Holding(Run(s, run), server)
    decreases run
  {
    if run != [] {
      HoldingRun(Next(s, run[0]), run[1..], server);
    }
  }

  lemma FrozenStep(s: State, e: Event, server: string, token: Token)
    requires Enabled(s, e) && Frozen(s, server, token) && !(e.Begin? && e.server == server)
    ensures Frozen(Next(s, e), server, token)
  {
    if e.Save? { FrozenSave(s, e, server, token); } else { FrozenOtherwise(s, e, server, token); }
    hide Frozen, Next;
  }

  lemma FrozenSave(s: State, e: Event, server: string, token: Token)
    requires Enabled(s, e) && Frozen(s, server, token) && e.Save?
    ensures Frozen(Next(s, e), server, token)
  {
  }

  lemma FrozenOtherwise(s: State, e: Event, server: string, token: Token)
    requires Enabled(s, e) && Frozen(s, server, token) && !(e.Begin? && e.server == server) && !e.Save?
    ensures Frozen(Next(s, e), server, token)
  {
  }

  lemma {:induction false} FrozenRun(s: State, run: seq<Event>, server: string, token: Token)
    requires Allowed(s, run) && Frozen(s, server, token) && !Began(run, server)
    ensures Frozen(Run(s, run), server, token)
    decreases run
  {
    if run != [] {
      assert run[0] in run && forall d <- run[1..] :: d in run;
      FrozenStep(s, run[0], server, token);
      hide Frozen, Next;
      FrozenRun(Next(s, run[0]), run[1..], server, token);
    }
  }

  /** No stored token is dropped, and one whose server nobody asks for stays as it was,
      whatever fails and whoever dies, with the lock or without. */
  lemma OtherServersKept(start: State, run: seq<Event>, server: string)
    requires Start(start) && Allowed(start, run)
    requires server in start.file
    ensures server in Run(start, run).file
    ensures !Began(run, server) ==> Run(start, run).file[server] == start.file[server]
  {
    HoldingRun(start, run, server);
    if !Began(run, server) {
      FrozenRun(start, run, server, start.file[server]);
    }
  }

  /** With the lock, a save changes the refreshed server's token and no other, however many
      refreshes of other servers it overlaps. */
  lemma SaveChangesOneServer(start: State, run: seq<Event>, g: Gid)
    requires Start(start) && Allowed(start, run) && forall e <- run :: Undisturbed(e)
    requires Enabled(Run(start, run), Save(g, true))
    ensures var s := Run(start, run);
      Next(s, Save(g, true)).file == s.file[s.jobs[g].got.server := s.jobs[g].got]
  {
    StartInv(start);
    RunKeepsInv(start, run);
    assert JobInv(Run(start, run), g);
  }

  // ---------------------------------------------------------------- without the lock

  lemma FirstStep(s: State, run: seq<Event>)
    requires run != [] && Enabled(s, run[0]) && Allowed(Next(s, run[0]), run[1..])
    ensures Allowed(s, run) && Run(s, run) == Run(Next(s, run[0]), run[1..])
  {
  }

  /** Two goroutines that look at the same expired token and cannot have the lock. */
  function BothUnlocked(server: string): seq<Event>
  {
    [Begin(0, server), Begin(1, server), LockFailed(0), LockFailed(1), Send(0), Send(1)]
  }

  lemma BothSend(s: State, tok: Token)
    requires s.jobs == map[0 := Stale(tok), 1 := Stale(tok)] && s.sent == []
    requires tok.refresh != "" && tok.endpoint != ""
    ensures var run := [LockFailed(0), LockFailed(1), Send(0), Send(1)];
      Allowed(s, run) && Run(s, run).sent == [tok.refresh, tok.refresh]
  {
    var run := [LockFailed(0), LockFailed(1), Send(0), Send(1)];
    var s1 := Next(s, run[0]);
    var s2 := Next(s1, run[1]);
    var s3 := Next(s2, run[2]);
    FirstStep(s3, run[3..]);
    FirstStep(s2, run[2..]);
    FirstStep(s1, run[1..]);
    FirstStep(s, run);
  }

  /** Where the file lock cannot be had, the code refreshes without it: any expired token
      that can be refreshed is then spent twice by two goroutines. */
  lemma WithoutTheLockItIsSpentTwice(start: State, server: string)
    requires Start(start) && Look(start.file, server, start.now).Stale?
    ensures Allowed(start, BothUnlocked(server))
    ensures Run(start, BothUnlocked(server)).sent == [start.file[server].refresh, start.file[server].refresh]
  {
    var run := BothUnlocked(server);
    var s1 := Next(start, run[0]);
    var s2 := Next(s1, run[1]);
    BothSend(s2, start.file[server]);
    assert run[2..] == [LockFailed(0), LockFailed(1), Send(0), Send(1)];
    hide Allowed, Run;
    FirstStep(s1, run[1..]);
    FirstStep(start, run);
  }

  ghost predicate AllExchangesCarried(s: State, run: seq<Event>)
    requires Allowed(s, run)
    decreases run
  {
    run == [] || (ExchangeCarried(s, run[0]) && AllExchangesCarried(Next(s, run[0]), run[1..]))
  }

  lemma {:induction false} NothingToCarry(s: State, run: seq<Event>)
    requires Allowed(s, run) && forall e <- run :: e.Tick? || e.Begin? || e.LockFailed? || e.Send?
    ensures AllExchangesCarried(s, run)
    decreases run
  {
    if run != [] {
      assert run[0] in run && forall d <- run[1..] :: d in run;
      NothingToCarry(Next(s, run[0]), run[1..]);
    }
  }

  /** The code may refresh this token some day. */
  predicate Refreshable(t: Token)
  {
    t.expiresAt.Some? && t.refresh != "" && t.endpoint != ""
  }

  /** With nothing refreshable stored, every caller is done after its first look. */
  ghost predicate NothingToDo(s: State)
  {
    && (forall k <- s.file :: !Refreshable(s.file[k]))
    && (forall g <- s.jobs :: s.jobs[g].Done?)
    && s.sent == []
  }

  lemma {:induction false} NothingIsSent(s: State, run: seq<Event>)
    requires Allowed(s, run) && NothingToDo(s)
    ensures NothingToDo(Run(s, run))
    decreases run
  {
    if run != [] {
      NothingIsSent(Next(s, run[0]), run[1..]);
    }
  }

  lemma RefreshableIsSpentTwice(start: State, server: string) returns (run: seq<Event>)
    requires Start(start) && server in start.file && Refreshable(start.file[server])
    ensures Allowed(start, run) && AllExchangesCarried(start, run) && !AllDifferent(Run(start, run).sent)
  {
    var expiry := start.file[server].expiresAt.value;
    var late := start.(now := start.now + if expiry > start.now then expiry - start.now else 0);
    WithoutTheLockItIsSpentTwice(late, server);
    var both := BothUnlocked(server);
    run := [Tick(late.now - start.now)] + both;
    assert run[1..] == both && Next(start, run[0]) == late;
    FirstStep(start, run);
    NothingToCarry(start, run);
    var sent := Run(start, run).sent;
    assert sent[0] == sent[1];
  }

  /** Were the lock optional: no refresh token would be spent twice in runs that carry every
      exchange through exactly when nothing stored can ever be refreshed. */
  lemma SpentOnceWithoutTheLock(start: State)
    requires Start(start)
    ensures (forall run | Allowed(start, run) && AllExchangesCarried(start, run) :: AllDifferent(Run(start, run).sent))
       <==> (forall k <- start.file :: !Refreshable(start.file[k]))
  {
    if k :| k in start.file && Refreshable(start.file[k]) {
      var run := RefreshableIsSpentTwice(start, k);
    } else {
      forall run | Allowed(start, run) ensures AllDifferent(Run(start, run).sent) {
        NothingIsSent(start, run);
      }
    }
  }

  // ---------------------------------------------------------------- what callers get

  lemma {:induction false} LastStep(s: State, run: seq<Event>)
    requires run != [] && Allowed(s, run)
    ensures var front, last := run[..|run| - 1], run[|run| - 1];
      && Allowed(s, front) && Enabled(Run(s, front), last)
      && Run(s, run) == Next(Run(s, front), last)
    decreases run
  {
    hide Enabled, Next;
    if |run| > 1 {
      LastStep(Next(s, run[0]), run[1..]);
      assert run[1..][..|run| - 2] == run[..|run| - 1][1..];
    }
  }

  /** At this step g found the token stored and not within 300 seconds of its expiry, or was
      given it in answer to what it sent. */
  ghost predicate ObtainedAt(s: State, e: Event, g: Gid, token: Token)
  {
    || ((e.Begin? || e.Reread?) && e.g == g
        && (exists k <- s.file :: s.file[k] == token)
        && (token.expiresAt.None? || s.now + 300 <= token.expiresAt.value))
    || (e.Respond? && e.g == g && e.answer.Some? && g in s.jobs && s.jobs[g].Sent?
        && Renewed(token, s.jobs[g].tok, e.answer.value, s.now))
  }

  ghost predicate Obtained(start: State, run: seq<Event>, i: nat, g: Gid, token: Token)
  {
    i < |run| && Allowed(start, run[..i]) && ObtainedAt(Run(start, run[..i]), run[i], g, token)
  }

  /** The token this goroutine is about to return. */
  predicate Has(pc: Pc, token: Token)
  {
    pc == Done(Some(token)) || ((pc.Loading? || pc.Saving?) && pc.got == token)
  }

  lemma HasStep(s: State, e: Event, g: Gid, token: Token)
    requires Enabled(s, e) && g in Next(s, e).jobs && Has(Next(s, e).jobs[g], token)
    ensures ObtainedAt(s, e, g, token) || (g in s.jobs && Has(s.jobs[g], token))
  {
  }

  lemma {:induction false} HadFromSomewhere(start: State, run: seq<Event>, g: Gid, token: Token)
    requires start.jobs == map[] && Allowed(start, run)
    requires var s := Run(start, run); g in s.jobs && Has(s.jobs[g], token)
    ensures exists i: nat :: Obtained(start, run, i, g, token)
    decreases |run|
  {
    if run != [] {
      var front := run[..|run| - 1];
      LastStep(start, run);
      HasStep(Run(start, front), run[|run| - 1], g, token);
      hide Enabled, Next, ObtainedAt, Has;
      if ObtainedAt(Run(start, front), run[|run| - 1], g, token) {
        assert Obtained(start, run, |front|, g, token);
      } else {
        HadFromSomewhere(start, front, g, token);
        var i: nat :| Obtained(start, front, i, g, token);
        assert run[..i] == front[..i];
        assert Obtained(start, run, i, g, token);
      }
    }
  }

  /** Every token a caller gets, with the lock or without, whatever fails, was stored and good
      for another five minutes when it looked, or is what the server answered to it. */
  lemma ReturnedTokenIsGood(start: State, run: seq<Event>, g: Gid, token: Token)
    requires Start(start) && Allowed(start, run)
    requires var s := Run(start, run); g in s.jobs && s.jobs[g] == Done(Some(token))
    ensures exists i: nat :: Obtained(start, run, i, g, token)
  {
    HadFromSomewhere(start, run, g, token);
  }

  /** Within 300 seconds of its expiry, or past it. */
  predicate RunsOut(t: Token, now: int)
  {
    t.expiresAt.Some? && now + 300 > t.expiresAt.value
  }

  ghost predicate OnlyRefreshesExpired(s: State)
  {
    forall g <- s.jobs :: s.jobs[g].Stale? || s.jobs[g].Locked? || s.jobs[g].Ready? ==> RunsOut(s.jobs[g].tok, s.now)
  }

  lemma {:induction false} StaysExpired(s: State, run: seq<Event>)
    requires Allowed(s, run) && OnlyRefreshesExpired(s)
    ensures OnlyRefreshesExpired(Run(s, run))
    decreases run
  {
    if run != [] {
      StaysExpired(Next(s, run[0]), run[1..]);
    }
  }

  /** No token is sent for refresh while it is good for another five minutes. */
  lemma GoodTokensAreNotSent(start: State, run: seq<Event>, g: Gid)
    requires Start(start) && Allowed(start, run) && Enabled(Run(start, run), Send(g))
    ensures var s := Run(start, run); RunsOut(s.jobs[g].tok, s.now)
  {
    StaysExpired(start, run);
  }

  lemma {:induction false} LockIsHeld(s: State, run: seq<Event>)
    requires Allowed(s, run) && (s.lock.Some? ==> s.lock.value in s.jobs && !s.jobs[s.lock.value].Stale?)
    ensures var t := Run(s, run); t.lock.Some? ==> t.lock.value in t.jobs && !t.jobs[t.lock.value].Stale?
    decreases run
  {
    if run != [] {
      LockIsHeld(Next(s, run[0]), run[1..]);
    }
  }

  /** Nobody waits for ever: whoever is under way, or the lock's holder, has a step to take. */
  lemma SomeoneCanMove(start: State, run: seq<Event>, g: Gid) returns (e: Event)
    requires Start(start) && Allowed(start, run) && g in Run(start, run).jobs
    ensures Enabled(Run(start, run), e)
    ensures e.LockGranted? || e.Reread? || e.Send? || e.Respond? || e.Load? || e.Save? || e.Return?
  {
    LockIsHeld(start, run);
    var s := Run(start, run);
    var h := if s.jobs[g].Stale? && s.lock.Some? then s.lock.value else g;
    match s.jobs[h]
    case Stale(_) => e := LockGranted(h);
    case Locked(_) => e := Reread(h, true);
    case Ready(_) => e := Send(h);
    case Sent(_) => e := Respond(h, None);
    case Loading(_, _) => e := Load(h, true);
    case Saving(_, _, _) => e := Save(h, true);
    case Done(_) => e := Return(h);
  }

  /** Nothing is assumed of locks, disks and servers: each may fail at every turn, and a caller
      may die anywhere. */
  lemma AnythingMayFail(s: State, g: Gid, a: Answer)
    requires g in s.jobs
    ensures Enabled(s, Crash(g))
    ensures s.jobs[g].Stale? ==> Enabled(s, LockFailed(g))
    ensures s.jobs[g].Locked? ==> Enabled(s, Reread(g, true)) && Enabled(s, Reread(g, false))
    ensures s.jobs[g].Sent? ==> Enabled(s, Respond(g, None))
    ensures s.jobs[g].Sent? && (a.refresh == "" || a.refresh !in s.issued) ==> Enabled(s, Respond(g, Some(a)))
    ensures s.jobs[g].Loading? ==> Enabled(s, Load(g, true)) && Enabled(s, Load(g, false))
    ensures s.jobs[g].Saving? ==> Enabled(s, Save(g, true)) && Enabled(s, Save(g, false))
  {
  }

  // ---------------------------------------------------------------- the store as an object

  /** The token a refresh gives: the answer's access token until it expires, and the answer's
      refresh token, or the old one where it gave none. */
  predicate Renewed(token: Token, was: Token, answer: Answer, now: int)
  {
    && token.access == answer.access
    && token.refresh == (if answer.refresh != "" then answer.refresh else was.refresh)
    && token.expiresAt == (if answer.expiresIn > 0 then Some(now + answer.expiresIn) else None)
    && token.server == was.server && token.endpoint == was.endpoint
  }

  datatype Disk = Missing | Unreadable | Holds(tokens: TokenFile)

  /** internal/auth/tokenstore.go, with getValidToken as one caller runs it. Whether the
      lock, the server and the disk cooperate are parameters. */
  class TokenStore {
    var disk: Disk

    constructor (disk: Disk)
      ensures this.disk == disk
    {
      this.disk := disk;
    }

    method LoadFile() returns (tf: Option<TokenFile>)
      ensures tf.None? <==> disk.Unreadable?
      ensures tf.Some? ==> tf.value == (if disk.Holds? then disk.tokens else map[])
    {
      match disk {
        case Missing => tf := Some(map[]);
        case Unreadable => tf := None;
        case Holds(tokens) => tf := Some(tokens);
      }
    }

    method GetToken(server: string) returns (ok: bool, token: Option<Token>)
      ensures ok <==> !disk.Unreadable?
      ensures token.Some? <==> disk.Holds? && server in disk.tokens
      ensures token.Some? ==> token.value == disk.tokens[server]
    {
      var tf := LoadFile();
      ok := tf.Some?;
      token := if ok && server in tf.value then Some(tf.value[server]) else None;
    }

    method SetToken(token: Token, writable: bool) returns (ok: bool)
      modifies this
      ensures ok <==> !old(disk).Unreadable? && writable
      ensures ok ==> disk == Holds((if old(disk).Holds? then old(disk).tokens else map[])[token.server := token])
      ensures !ok ==> disk == old(disk)
    {
      var tf := LoadFile();
      ok := tf.Some? && writable;
      if ok {
        disk := Holds(tf.value[token.server := token]);
      }
    }

    method DeleteToken(server: string, writable: bool) returns (ok: bool)
      modifies this
      ensures ok <==> !old(disk).Unreadable? && writable
      ensures ok ==> disk == Holds((if old(disk).Holds? then old(disk).tokens else map[]) - {server})
      ensures !ok ==> disk == old(disk)
    {
      var tf := LoadFile();
      ok := tf.Some? && writable;
      if ok {
        disk := Holds(tf.value - {server});
      }
    }

    /** A stored token that has not expired is returned as it is. An expired one is sent
        for refresh once, if it can be; what comes back is returned, and saved under its
        server with every other token kept. */
    method GetValidToken(server: string, now: int, lockable: bool, answer: Option<Answer>, writable: bool)
      returns (r: Option<Token>, spent: Option<string>)
      requires disk.Holds? ==> Filed(disk.tokens)
      modifies this
      ensures !(old(disk).Holds? && server in old(disk).tokens) ==> r.None? && spent.None? && disk == old(disk)
      ensures old(disk).Holds? && server in old(disk).tokens ==>
        var tok := old(disk).tokens[server];
        if tok.expiresAt.None? || now + 300 <= tok.expiresAt.value then
          r == Some(tok) && spent.None? && disk == old(disk)
        else if tok.refresh == "" || tok.endpoint == "" then
          r.None? && spent.None? && disk == old(disk)
        else if answer.None? then
          r.None? && spent == Some(tok.refresh) && disk == old(disk)
        else
          && r.Some? && spent == Some(tok.refresh) && Renewed(r.value, tok, answer.value, now)
          && disk == if writable then Holds(old(disk).tokens[server := r.value]) else old(disk)
    {
      r, spent := None, None;
      var ok, stored := GetToken(server);
      if !ok || stored.None? {
        return;
      }
      var token := stored.value;
      if !Expired(token, now) {
        return Some(token), None;
      }
      if token.refresh == "" || token.endpoint == "" {
        return;
      }
      if lockable {
        var again, newest := GetToken(server);
        if again && newest.Some? {
          if !Expired(newest.value, now) {
            return newest, None;
          }
          token := newest.value;
        }
      }
      spent := Some(token.refresh);
      if answer.None? {
        return;
      }
      r := Some(Refreshed(token, answer.value, now));
      var saved := SetToken(r.value, writable);
    }
  }
}
