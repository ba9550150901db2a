/** internal/overrides/store.go across processes: each has its own copy of a bank and the
    set of keys it touched, any number of goroutines edit and flush, and all share one
    file under an advisory lock. */
module OverrideFlush {
  import opened Options
  import opened OverrideBanks

  type Pid = nat
  type Gid = nat

  /** writeBank, step by step. Editing covers setOverrideMem and RemoveOverride's critical
      sections, any number of them (Import makes many) before the one flush. */
  datatype Pc<V> =
    | Editing(dirty: bool)
    | WantLock
    | Locked
    | Copied(mem: Bank<V>, touched: set<string>)
    | Merging(mem: Bank<V>, touched: set<string>, disk: Disk<V>)
    | Writing(mem: Bank<V>, touched: set<string>, result: Bank<V>)
    | Finished

  datatype Job<V> = Job(pid: Pid, pc: Pc<V>)

  datatype Process<V> = Process(mem: Bank<V>, touched: set<string>)

  /** `unsaved` records the processes whose last flush failed with an error. */
  datatype State<V> = State(
    disk: Disk<V>,
    lock: Option<Gid>,
    procs: map<Pid, Process<V>>,
    jobs: map<Gid, Job<V>>,
    unsaved: set<Pid>)

  datatype Event<V> =
    | Open(p: Pid)
    | Begin(g: Gid, p: Pid)
    | Set(g: Gid, k: string, v: V)
    | Remove(g: Gid, k: string)
    | Step(g: Gid)
    | Fail(g: Gid)

  predicate HasLock(pc: Pc)
  {
    pc.Locked? || pc.Copied? || pc.Merging? || pc.Writing?
  }

  predicate Runs<V>(s: State<V>, g: Gid)
  {
    g in s.jobs && s.jobs[g].pid in s.procs
  }

  /** `owner` says which process may touch which key. */
  ghost predicate Enabled<V>(s: State<V>, owner: string -> Pid, e: Event<V>)
  {
    match e
    case Open(p) => p !in s.procs && !s.disk.Corrupt?
    case Begin(g, p) => g !in s.jobs && p in s.procs
    case Set(g, k, _) => Runs(s, g) && s.jobs[g].pc.Editing? && owner(k) == s.jobs[g].pid
    case Remove(g, k) => Runs(s, g) && s.jobs[g].pc.Editing? && owner(k) == s.jobs[g].pid
    case Step(g) => Runs(s, g) && !s.jobs[g].pc.Finished? && (s.jobs[g].pc.WantLock? ==> s.lock.None?)
    case Fail(g) => Runs(s, g) && (s.jobs[g].pc.WantLock? || HasLock(s.jobs[g].pc))
  }

  function Go<V>(s: State<V>, g: Gid, pc: Pc<V>): State<V>
    requires g in s.jobs
  {
    s.(jobs := s.jobs[g := s.jobs[g].(pc := pc)])
  }

  function Next<V>(s: State<V>, owner: string -> Pid, e: Event<V>): State<V>
    requires Enabled(s, owner, e)
  {
    match e
    case Open(p) => s.(procs := s.procs[p := Process(Content(s.disk), {})])
    case Begin(g, p) => s.(jobs := s.jobs[g := Job(p, Editing(false))])
    case Set(g, k, v) =>
      var p := s.jobs[g].pid;
      var proc := s.procs[p];
      Go(s.(procs := s.procs[p := Process(proc.mem[k := v], proc.touched + {k})]), g, Editing(true))
    case Remove(g, k) =>
      var p := s.jobs[g].pid;
      var proc := s.procs[p];
      if k !in proc.mem then s
      else Go(s.(procs := s.procs[p := Process(proc.mem - {k}, proc.touched + {k})]), g, Editing(true))
    case Step(g) =>
      (match s.jobs[g].pc
       case Editing(dirty) => Go(s, g, if dirty then WantLock else Finished)
       case WantLock => Go(s.(lock := Some(g)), g, Locked)
       case Locked =>
         var proc := s.procs[s.jobs[g].pid];
         Go(s.(unsaved := s.unsaved - {s.jobs[g].pid}), g, Copied(proc.mem, proc.touched))
       case Copied(mem, touched) => Go(s, g, Merging(mem, touched, s.disk))
       case Merging(mem, touched, disk) => Go(s, g, Writing(mem, touched, Merged(mem, touched, disk)))
       case Writing(_, _, result) => Go(s.(disk := Holds(result), lock := None), g, Finished)
       case Finished => s)
    case Fail(g) =>
      var lock := if HasLock(s.jobs[g].pc) then None else s.lock;
      Go(s.(lock := lock, unsaved := s.unsaved + {s.jobs[g].pid}), g, Finished)
  }

  // ---------------------------------------------------------------- the invariant

  /** Process p has a goroutine that has yet to copy its memory for a flush. */
  ghost predicate Owes(s: State, p: Pid)
  {
    exists g :: g in s.jobs && s.jobs[g].pid == p
      && (s.jobs[g].pc == Editing(true) || s.jobs[g].pc.WantLock? || s.jobs[g].pc.Locked?)
  }

  /** The copy this counter carries, if any, is going to the file. */
  predicate Carries<V(==)>(pc: Pc<V>, k: string, v: Option<V>)
  {
    (pc.Copied? || pc.Merging? || pc.Writing?) && k in pc.touched && Lookup(pc.mem, k) == v
  }

  /** A goroutine of p is about to write p's current value of k. */
  ghost predicate OnItsWay<V>(s: State<V>, p: Pid, k: string)
    requires p in s.procs
  {
    exists g :: g in s.jobs && s.jobs[g].pid == p && Carries(s.jobs[g].pc, k, Lookup(s.procs[p].mem, k))
  }

  ghost predicate JobInv<V>(s: State<V>, owner: string -> Pid, orig: Bank<V>, g: Gid)
    requires g in s.jobs
  {
    var p, pc := s.jobs[g].pid, s.jobs[g].pc;
    && p in s.procs
    && (HasLock(pc) <==> s.lock == Some(g))
    && (pc.Copied? || pc.Merging? || pc.Writing? ==>
          && (forall k <- pc.touched :: owner(k) == p && k in s.procs[p].touched)
          // what the copy misses, someone still owes, or failed to save
          && (Owes(s, p) || p in s.unsaved
              || forall k <- s.procs[p].touched :: Carries(pc, k, Lookup(s.procs[p].mem, k))))
    && (pc.Merging? ==> pc.disk == s.disk)
    && (pc.Writing? ==> pc.result == Merged(pc.mem, pc.touched, s.disk))
  }

  ghost predicate KeyInv<V>(s: State<V>, owner: string -> Pid, orig: Bank<V>, k: string)
  {
    var p := owner(k);
    if p in s.procs && k in s.procs[p].touched then
      || Lookup(Content(s.disk), k) == Lookup(s.procs[p].mem, k)
      || Owes(s, p) || OnItsWay(s, p, k) || p in s.unsaved
    else Lookup(Content(s.disk), k) == Lookup(orig, k)
  }

  ghost predicate Inv<V(!new)>(s: State<V>, owner: string -> Pid, orig: Bank<V>)
  {
    && !s.disk.Corrupt?
    && (s.lock.Some? ==> s.lock.value in s.jobs)
    && (forall p <- s.procs :: forall k <- s.procs[p].touched :: owner(k) == p)
    && (forall g <- s.jobs :: JobInv(s, owner, orig, g))
    && (forall k :: KeyInv(s, owner, orig, k))
  }

  // ---------------------------------------------------------------- every event keeps it

  lemma EditKeeps<V(!new)>(s: State<V>, owner: string -> Pid, orig: Bank<V>, e: Event<V>)
    requires Inv(s, owner, orig) && Enabled(s, owner, e) && (e.Set? || e.Remove?)
    ensures Inv(Next(s, owner, e), owner, orig)
  {
    var t := Next(s, owner, e);
    var g, p := e.g, s.jobs[e.g].pid;
    if t != s {
      assert Owes(t, p) by { assert t.jobs[g].pc == Editing(true); }
      forall q | q != p && Owes(s, q) ensures Owes(t, q) { OwesFrame(s, t, g, q); }
      forall h <- t.jobs ensures JobInv(t, owner, orig, h) { assert JobInv(s, owner, orig, h); }
      forall k ensures KeyInv(t, owner, orig, k) {
        assert KeyInv(s, owner, orig, k);
        if owner(k) != p { KeyFrame(s, t, owner, orig, g, k); }
      }
    }
  }

  /** Only goroutine g moved, and only p's memory may have changed. */
  lemma OwesFrame<V>(s: State<V>, t: State<V>, g: Gid, q: Pid)
    requires g in t.jobs && t.jobs == s.jobs[g := t.jobs[g]] && t.jobs[g].pid != q && Owes(s, q)
    requires g in s.jobs ==> s.jobs[g].pid == t.jobs[g].pid
    ensures Owes(t, q)
  {
    var h :| h in s.jobs && s.jobs[h].pid == q
      && (s.jobs[h].pc == Editing(true) || s.jobs[h].pc.WantLock? || s.jobs[h].pc.Locked?);
    assert t.jobs[h] == s.jobs[h];
  }

  lemma KeyFrame<V>(s: State<V>, t: State<V>, owner: string -> Pid, orig: Bank<V>, g: Gid, k: string)
    requires g in s.jobs && g in t.jobs && t.jobs == s.jobs[g := t.jobs[g]] && s.jobs[g].pid == t.jobs[g].pid
    requires owner(k) != t.jobs[g].pid && KeyInv(s, owner, orig, k)
    requires owner(k) in s.procs <==> owner(k) in t.procs
    requires owner(k) in s.procs ==> t.procs[owner(k)] == s.procs[owner(k)]
    requires owner(k) in s.unsaved <==> owner(k) in t.unsaved
    requires Lookup(Content(t.disk), k) == Lookup(Content(s.disk), k)
    ensures KeyInv(t, owner, orig, k)
  {
    var p := owner(k);
    if p in s.procs && k in s.procs[p].touched {
      if Owes(s, p) { OwesFrame(s, t, g, p); }
      if OnItsWay(s, p, k) {
        var h :| h in s.jobs && s.jobs[h].pid == p && Carries(s.jobs[h].pc, k, Lookup(s.procs[p].mem, k));
        assert t.jobs[h] == s.jobs[h];
      }
    }
  }

  lemma OpenKeeps<V(!new)>(s: State<V>, owner: string -> Pid, orig: Bank<V>, e: Event<V>)
    requires Inv(s, owner, orig) && Enabled(s, owner, e) && (e.Open? || e.Begin?)
    ensures Inv(Next(s, owner, e), owner, orig)
  {
    var t := Next(s, owner, e);
    assert forall h <- s.jobs :: t.jobs[h] == s.jobs[h];
    forall q | Owes(s, q) ensures Owes(t, q) {
      var h :| h in s.jobs && s.jobs[h].pid == q
        && (s.jobs[h].pc == Editing(true) || s.jobs[h].pc.WantLock? || s.jobs[h].pc.Locked?);
      assert t.jobs[h] == s.jobs[h];
    }
    forall h <- t.jobs ensures JobInv(t, owner, orig, h) {
      if h in s.jobs { assert JobInv(s, owner, orig, h); }
    }
    forall k ensures KeyInv(t, owner, orig, k) {
      assert KeyInv(s, owner, orig, k);
      if owner(k) in s.procs && OnItsWay(s, owner(k), k) {
        var h :| h in s.jobs && s.jobs[h].pid == owner(k) && Carries(s.jobs[h].pc, k, Lookup(s.procs[owner(k)].mem, k));
        assert t.jobs[h] == s.jobs[h];
      }
    }
  }

  lemma CopyKeeps<V(!new)>(s: State<V>, owner: string -> Pid, orig: Bank<V>, g: Gid)
    requires Inv(s, owner, orig) && Enabled(s, owner, Step(g)) && s.jobs[g].pc.Locked?
    ensures Inv(Next(s, owner, Step(g)), owner, orig)
  {
    var t := Next(s, owner, Step(g));
    var p := s.jobs[g].pid;
    assert JobInv(s, owner, orig, g);
    forall q | q != p && Owes(s, q) ensures Owes(t, q) { OwesFrame(s, t, g, q); }
    forall h <- t.jobs ensures JobInv(t, owner, orig, h) { assert JobInv(s, owner, orig, h); }
    forall k ensures KeyInv(t, owner, orig, k) {
      assert KeyInv(s, owner, orig, k);
      if owner(k) != p {
        KeyFrame(s, t, owner, orig, g, k);
      } else if k in s.procs[p].touched {
        assert Carries(t.jobs[g].pc, k, Lookup(s.procs[p].mem, k));
      }
    }
  }

  /** The other steps before the write carry the copy, and the debts, along. */
  lemma StepKeeps<V(!new)>(s: State<V>, owner: string -> Pid, orig: Bank<V>, g: Gid)
    requires Inv(s, owner, orig) && Enabled(s, owner, Step(g))
    requires !s.jobs[g].pc.Writing? && !s.jobs[g].pc.Locked?
    ensures Inv(Next(s, owner, Step(g)), owner, orig)
  {
    var t := Next(s, owner, Step(g));
    var p := s.jobs[g].pid;
    assert JobInv(s, owner, orig, g);
    forall q | Owes(s, q) ensures Owes(t, q) {
      if q != p { OwesFrame(s, t, g, q); } else { OwesStep(s, t, g); }
    }
    forall h <- t.jobs ensures JobInv(t, owner, orig, h) { assert JobInv(s, owner, orig, h); }
    forall k ensures KeyInv(t, owner, orig, k) {
      assert KeyInv(s, owner, orig, k);
      if owner(k) != p {
        KeyFrame(s, t, owner, orig, g, k);
      } else if p in s.procs && OnItsWay(s, p, k) {
        var v := Lookup(s.procs[p].mem, k);
        var h :| h in s.jobs && s.jobs[h].pid == p && Carries(s.jobs[h].pc, k, v);
        assert t.jobs[h].pid == p && Carries(t.jobs[h].pc, k, v);
      }
    }
  }

  lemma OwesStep<V>(s: State<V>, t: State<V>, g: Gid)
    requires g in s.jobs && g in t.jobs && t.jobs == s.jobs[g := t.jobs[g]] && s.jobs[g].pid == t.jobs[g].pid
    requires Owes(s, s.jobs[g].pid) && !s.jobs[g].pc.Locked?
    requires s.jobs[g].pc == Editing(true) ==> t.jobs[g].pc.WantLock?
    requires s.jobs[g].pc.WantLock? ==> t.jobs[g].pc.Locked?
    ensures Owes(t, s.jobs[g].pid)
  {
    var p := s.jobs[g].pid;
    var h :| h in s.jobs && s.jobs[h].pid == p
      && (s.jobs[h].pc == Editing(true) || s.jobs[h].pc.WantLock? || s.jobs[h].pc.Locked?);
    assert t.jobs[h].pid == p
      && (t.jobs[h].pc == Editing(true) || t.jobs[h].pc.WantLock? || t.jobs[h].pc.Locked?);
  }

  lemma WriteKeeps<V(!new)>(s: State<V>, owner: string -> Pid, orig: Bank<V>, g: Gid)
    requires Inv(s, owner, orig) && Enabled(s, owner, Step(g)) && s.jobs[g].pc.Writing?
    ensures Inv(Next(s, owner, Step(g)), owner, orig)
  {
    var t := Next(s, owner, Step(g));
    var p, pc := s.jobs[g].pid, s.jobs[g].pc;
    assert JobInv(s, owner, orig, g);
    forall q | Owes(s, q) ensures Owes(t, q) {
      var h :| h in s.jobs && s.jobs[h].pid == q
        && (s.jobs[h].pc == Editing(true) || s.jobs[h].pc.WantLock? || s.jobs[h].pc.Locked?);
      assert t.jobs[h] == s.jobs[h];
    }
    forall h <- t.jobs ensures JobInv(t, owner, orig, h) { assert JobInv(s, owner, orig, h); }
    forall k ensures KeyInv(t, owner, orig, k) {
      assert KeyInv(s, owner, orig, k);
      OverlayLookup(Content(s.disk), pc.mem, pc.touched, k);
      if owner(k) != p {
        KeyFrame(s, t, owner, orig, g, k);
      } else if k in s.procs[p].touched && OnItsWay(s, p, k) {
        var h :| h in s.jobs && s.jobs[h].pid == p && Carries(s.jobs[h].pc, k, Lookup(s.procs[p].mem, k));
        assert JobInv(s, owner, orig, h);
        assert h == g;
      }
    }
  }

  lemma FailKeeps<V(!new)>(s: State<V>, owner: string -> Pid, orig: Bank<V>, g: Gid)
    requires Inv(s, owner, orig) && Enabled(s, owner, Fail(g))
    ensures Inv(Next(s, owner, Fail(g)), owner, orig)
  {
    var t := Next(s, owner, Fail(g));
    var p := s.jobs[g].pid;
    assert JobInv(s, owner, orig, g);
    forall q | q != p && Owes(s, q) ensures Owes(t, q) { OwesFrame(s, t, g, q); }
    forall h <- t.jobs ensures JobInv(t, owner, orig, h) { assert JobInv(s, owner, orig, h); }
    forall k ensures KeyInv(t, owner, orig, k) {
      assert KeyInv(s, owner, orig, k);
      if owner(k) != p { KeyFrame(s, t, owner, orig, g, k); }
    }
  }

  // ---------------------------------------------------------------- runs

  ghost predicate IsRun<V>(s: State<V>, owner: string -> Pid, events: seq<Event<V>>)
    decreases events
  {
    events == [] || (Enabled(s, owner, events[0]) && IsRun(Next(s, owner, events[0]), owner, events[1..]))
  }

  ghost function Run<V>(s: State<V>, owner: string -> Pid, events: seq<Event<V>>): State<V>
    requires IsRun(s, owner, events)
    decreases events
  {
    if events == [] then s else Run(Next(s, owner, events[0]), owner, events[1..])
  }

  /** No process yet, and a file that is absent or parses. */
  predicate Fresh<V>(s: State<V>)
  {
    !s.disk.Corrupt? && s.lock.None? && s.procs == map[] && s.jobs == map[] && s.unsaved == {}
  }

  lemma {:induction false} RunKeeps<V(!new)>(s: State<V>, owner: string -> Pid, orig: Bank<V>, events: seq<Event<V>>)
    requires Inv(s, owner, orig) && IsRun(s, owner, events)
    ensures Inv(Run(s, owner, events), owner, orig)
    decreases events
  {
    hide Inv;
    if events != [] {
      var e := events[0];
      match e {
        case Open(_) => OpenKeeps(s, owner, orig, e);
        case Begin(_, _) => OpenKeeps(s, owner, orig, e);
        case Set(_, _, _) => EditKeeps(s, owner, orig, e);
        case Remove(_, _) => EditKeeps(s, owner, orig, e);
        case Fail(g) => FailKeeps(s, owner, orig, g);
        case Step(g) =>
          if s.jobs[g].pc.Writing? { WriteKeeps(s, owner, orig, g); }
          else if s.jobs[g].pc.Locked? { CopyKeeps(s, owner, orig, g); }
          else { StepKeeps(s, owner, orig, g); }
      }
      RunKeeps(Next(s, owner, e), owner, orig, events[1..]);
    }
  }

  /** However edits and flushes of any number of processes interleave, once every
      goroutine is done the file holds, for each key, what its owner last had there (its
      value, or nothing if it deleted it), unless that owner's last flush failed; and a
      key its owner never touched is as it was. */
  lemma FlushLosesNothing<V(!new)>(s: State<V>, owner: string -> Pid, events: seq<Event<V>>, k: string)
    requires Fresh(s) && IsRun(s, owner, events)
    requires forall g <- Run(s, owner, events).jobs :: Run(s, owner, events).jobs[g].pc.Finished?
    ensures var t, p := Run(s, owner, events), owner(k);
      if p in t.procs && k in t.procs[p].touched
      then p in t.unsaved || Lookup(Content(t.disk), k) == Lookup(t.procs[p].mem, k)
      else Lookup(Content(t.disk), k) == Lookup(Content(s.disk), k)
  {
    var orig := Content(s.disk);
    RunKeeps(s, owner, orig, events);
    var t := Run(s, owner, events);
    assert KeyInv(t, owner, orig, k);
  }

  // ---------------------------------------------------------------- from edits to the file

  /** What the events leave of k: its last edit, or the one before them. */
  function LastEdit<V>(events: seq<Event<V>>, k: string, before: Option<Option<V>>): Option<Option<V>>
  {
    if events == [] then before
    else
      var e := events[0];
      LastEdit(events[1..], k,
        if e.Set? && e.k == k then Some(Some(e.v)) else if e.Remove? && e.k == k then Some(None) else before)
  }

  /** The owner's memory follows the edits; what it has not touched is as in the file. */
  ghost predicate Follows<V>(s: State<V>, owner: string -> Pid, orig: Bank<V>, k: string, last: Option<Option<V>>)
  {
    var p := owner(k);
    if p !in s.procs then last.None?
    else
      && Lookup(s.procs[p].mem, k) == (if last.Some? then last.value else Lookup(orig, k))
      && (k !in s.procs[p].touched ==> Lookup(s.procs[p].mem, k) == Lookup(orig, k))
      && (last.None? ==> k !in s.procs[p].touched)
  }

  lemma FollowsStep<V(!new)>(s: State<V>, owner: string -> Pid, orig: Bank<V>, e: Event<V>, k: string,
                             last: Option<Option<V>>)
    requires Inv(s, owner, orig) && Enabled(s, owner, e) && Follows(s, owner, orig, k, last)
    ensures Follows(Next(s, owner, e), owner, orig, k, LastEdit([e], k, last))
  {
    assert KeyInv(s, owner, orig, k);
    assert [e][1..] == [];
    hide JobInv, Owes, OnItsWay, Merged;
  }

  lemma {:induction false} FollowsRun<V(!new)>(s: State<V>, owner: string -> Pid, orig: Bank<V>,
                                               events: seq<Event<V>>, k: string, last: Option<Option<V>>)
    requires Inv(s, owner, orig) && IsRun(s, owner, events) && Follows(s, owner, orig, k, last)
    ensures Follows(Run(s, owner, events), owner, orig, k, LastEdit(events, k, last))
    decreases events
  {
    if events != [] {
      var e := events[0];
      FollowsStep(s, owner, orig, e, k, last);
      assert events[..1] == [e] && [e][1..] == [];
      RunKeeps(s, owner, orig, [e]);
      assert Run(s, owner, [e]) == Run(Next(s, owner, e), owner, []) == Next(s, owner, e);
      hide Inv, Follows, Next, Enabled;
      FollowsRun(Next(s, owner, e), owner, orig, events[1..], k, LastEdit([e], k, last));
    }
  }

  lemma {:induction false} NothingUnsaved<V>(s: State<V>, owner: string -> Pid, events: seq<Event<V>>)
    requires IsRun(s, owner, events) && s.unsaved == {} && forall e <- events :: !e.Fail?
    ensures Run(s, owner, events).unsaved == {}
    decreases events
  {
    if events != [] {
      assert events[0] in events && forall e <- events[1..] :: e in events;
      NothingUnsaved(Next(s, owner, events[0]), owner, events[1..]);
    }
  }

  /** So the file ends with what the last edit of each key made of it, unless its owner's last
      flush failed, and a key nobody edited is as it was. */
  lemma FileFollowsTheEdits<V(!new)>(s: State<V>, owner: string -> Pid, events: seq<Event<V>>, k: string)
    requires Fresh(s) && IsRun(s, owner, events)
    requires forall g <- Run(s, owner, events).jobs :: Run(s, owner, events).jobs[g].pc.Finished?
    ensures var t, last := Run(s, owner, events), LastEdit(events, k, None);
      if last.Some? then owner(k) in t.unsaved || Lookup(Content(t.disk), k) == last.value
      else Lookup(Content(t.disk), k) == Lookup(Content(s.disk), k)
    ensures (forall e <- events :: !e.Fail?) ==> owner(k) !in Run(s, owner, events).unsaved
  {
    if forall e <- events :: !e.Fail? { NothingUnsaved(s, owner, events); }
    FlushLosesNothing(s, owner, events, k);
    FollowsRun(s, owner, Content(s.disk), events, k, None);
  }

  /** Nobody waits for ever: whoever is under way, or the lock's holder, has a step to take. */
  lemma SomeoneCanMove<V(!new)>(s: State<V>, owner: string -> Pid, events: seq<Event<V>>, g: Gid) returns (h: Gid)
    requires Fresh(s) && IsRun(s, owner, events)
    requires var t := Run(s, owner, events); g in t.jobs && !t.jobs[g].pc.Finished?
    ensures Enabled(Run(s, owner, events), owner, Step(h))
  {
    var orig, t := Content(s.disk), Run(s, owner, events);
    RunKeeps(s, owner, orig, events);
    h := if t.jobs[g].pc.WantLock? && t.lock.Some? then t.lock.value else g;
    assert JobInv(t, owner, orig, g) && JobInv(t, owner, orig, h);
  }

  /** Any flush may fail, wherever it stands between wanting the lock and giving it back. */
  lemma AnyFlushMayFail<V>(s: State<V>, owner: string -> Pid, g: Gid)
    requires g in s.jobs && s.jobs[g].pid in s.procs && !s.jobs[g].pc.Editing? && !s.jobs[g].pc.Finished?
    ensures Enabled(s, owner, Fail(g))
    ensures var t := Next(s, owner, Fail(g));
      t.disk == s.disk && t.procs == s.procs && t.jobs[g].pc.Finished? && s.jobs[g].pid in t.unsaved
  {
  }
}
