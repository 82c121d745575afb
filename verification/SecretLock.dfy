/**
Cooperating writers of one secrets file.

Every writer takes the file's lock, reads, prepares, compares and replaces, and
gives the lock back; a writer that adds a key together with a model entry keeps
the lock until that is settled.  A writer may die at any step, which frees its
lock and leaves the file as it is.  A run is any interleaving of such steps.
*/
module SecretLock {
  import opened Wrappers
  import opened Secrets

  type Pid = nat

  /** `Put` overwrites a variable; `Add` creates one and may undo it. */
  datatype Op = Put(name: string, value: string) | Add(name: string, value: string)

  datatype Pc =
    | Idle
    | Entered(ticket: nat)
    | HasRead(ticket: nat, original: Content)
    | HasPrepared(ticket: nat, original: Content, owned: Bytes)
    | InBlock(ticket: nat, original: Content, owned: Bytes)
    | Finished(ticket: nat, kept: bool)
    | Dead

  datatype Proc = Proc(op: Op, pc: Pc)

  /** One successful write, with the position of its writer in lock order. */
  datatype Commit = Commit(ticket: nat, pid: Pid, name: string, value: string)

  datatype State = State(
    file: Content,
    holder: Option<Pid>,
    procs: map<Pid, Proc>,
    acquired: seq<Pid>,
    log: seq<Commit>)

  datatype Event =
    | Start(pid: Pid, op: Op)
    | Acquire(pid: Pid)
    | Read(pid: Pid)
    | Compute(pid: Pid)
    | Swap(pid: Pid)
    | Settle(pid: Pid, saved: bool)
    | Die(pid: Pid)

  predicate Enabled(s: State, e: Event) {
    match e
    case Start(p, _) => p !in s.procs
    case Acquire(p) => p in s.procs && s.procs[p].pc.Idle? && s.holder.None?
    case Read(p) => p in s.procs && s.procs[p].pc.Entered?
    case Compute(p) => p in s.procs && s.procs[p].pc.HasRead?
    case Swap(p) => p in s.procs && s.procs[p].pc.HasPrepared?
    case Settle(p, _) => p in s.procs && s.procs[p].pc.InBlock?
    case Die(p) => p in s.procs && !s.procs[p].pc.Dead? && !s.procs[p].pc.Finished?
  }

  function Move(s: State, p: Pid, pc: Pc): State
    requires p in s.procs
  {
    s.(procs := s.procs[p := s.procs[p].(pc := pc)])
  }

  function Release(s: State, p: Pid): State {
    if s.holder == Some(p) then s.(holder := None) else s
  }

  function Step(s: State, e: Event): State
    requires Enabled(s, e)
  {
    var p := e.pid;
    match e
    case Start(_, op) => s.(procs := s.procs[p := Proc(op, Idle)])
    case Acquire(_) =>
      Move(s, p, Entered(|s.acquired|)).(holder := Some(p), acquired := s.acquired + [p])
    case Read(_) => Move(s, p, HasRead(s.procs[p].pc.ticket, s.file))
    case Compute(_) =>
      var op, pc := s.procs[p].op, s.procs[p].pc;
      var prepared := Prepare(s.file, op.name, op.value, op.Add?);
      if prepared.Err? then Release(Move(s, p, Finished(pc.ticket, false)), p)
      else Move(s, p, HasPrepared(pc.ticket, pc.original, prepared.value))
    case Swap(_) =>
      var op, pc := s.procs[p].op, s.procs[p].pc;
      if s.file != pc.original then Release(Move(s, p, Finished(pc.ticket, false)), p)
      else
        var s1 := s.(file := Some(pc.owned), log := s.log + [Commit(pc.ticket, p, op.name, op.value)]);
        if op.Put? then Release(Move(s1, p, Finished(pc.ticket, true)), p)
        else Move(s1, p, InBlock(pc.ticket, pc.original, pc.owned))
    case Settle(_, saved) =>
      var pc := s.procs[p].pc;
      if saved || s.file != Some(pc.owned) then Release(Move(s, p, Finished(pc.ticket, true)), p)
      else Release(Move(s.(file := pc.original, log := if s.log == [] then [] else s.log[..|s.log| - 1]),
                        p, Finished(pc.ticket, false)), p)
    case Die(_) => Release(Move(s, p, Dead), p)
  }

  /** The variables after the writes of `log`, one after the other. */
  function ApplyLog(vars: map<string, Value>, log: seq<Commit>): map<string, Value> {
    if log == [] then vars
    else ApplyLog(vars, log[..|log| - 1])[log[|log| - 1].name := Text(log[|log| - 1].value)]
  }

  predicate Working(pc: Pc) {
    pc.Entered? || pc.HasRead? || pc.HasPrepared? || pc.InBlock?
  }

  /** The lock's holder is the one working, and it has the newest ticket. */
  predicate LockHeld(s: State) {
    && (forall p :: p in s.procs && Working(s.procs[p].pc) ==> s.holder == Some(p))
    && (s.holder.Some? ==> s.holder.value in s.procs && Working(s.procs[s.holder.value].pc))
  }

  predicate TicketsTrue(s: State) {
    forall p :: p in s.procs && !s.procs[p].pc.Idle? && !s.procs[p].pc.Dead? ==>
      s.procs[p].pc.ticket < |s.acquired| && s.acquired[s.procs[p].pc.ticket] == p
      && (Working(s.procs[p].pc) ==> s.procs[p].pc.ticket == |s.acquired| - 1)
  }

  predicate CommitTrue(s: State, c: Commit) {
    && c.ticket < |s.acquired| && s.acquired[c.ticket] == c.pid
    && c.pid in s.procs && s.procs[c.pid].op.name == c.name && s.procs[c.pid].op.value == c.value
  }

  /** Commits stand in lock order, each what its writer asked for under its own ticket. */
  predicate LogInLockOrder(s: State) {
    && (forall i :: 0 <= i < |s.log| ==> CommitTrue(s, s.log[i]))
    && (forall i, j :: 0 <= i < j < |s.log| ==> s.log[i].ticket < s.log[j].ticket)
  }

  predicate InLog(s: State, ticket: nat) {
    exists i :: 0 <= i < |s.log| && s.log[i].ticket == ticket
  }

  /** What the holder knows: the file has not moved under it. */
  predicate HolderConsistent(s: State, vars: map<string, Value>, p: Pid)
    requires p in s.procs
  {
    var op, pc := s.procs[p].op, s.procs[p].pc;
    match pc
    case Entered(ticket) => !InLog(s, ticket)
    case HasRead(ticket, original) => original == s.file && !InLog(s, ticket)
    case HasPrepared(ticket, original, owned) =>
      original == s.file && !InLog(s, ticket) && Prepare(s.file, op.name, op.value, op.Add?) == Ok(owned)
    case InBlock(ticket, original, owned) =>
      && s.file == Some(owned) && s.log != []
      && s.log[|s.log| - 1] == Commit(ticket, p, op.name, op.value)
      && EnvOf(original) == ApplyLog(vars, s.log[..|s.log| - 1])
    case Finished(ticket, kept) => kept <==> InLog(s, ticket)
    case _ => true
  }

  predicate Inv(s: State, vars: map<string, Value>) {
    && LockHeld(s)
    && TicketsTrue(s)
    && LogInLockOrder(s)
    && EnvOf(s.file) == ApplyLog(vars, s.log)
    && (forall p :: p in s.procs ==> HolderConsistent(s, vars, p))
  }

  lemma InLogAppend(s: State, c: Commit, ticket: nat)
    ensures InLog(s.(log := s.log + [c]), ticket) <==> InLog(s, ticket) || ticket == c.ticket
  {
    var s' := s.(log := s.log + [c]);
    if InLog(s, ticket) {
      var i :| 0 <= i < |s.log| && s.log[i].ticket == ticket;
      assert s'.log[i].ticket == ticket;
    }
    if ticket == c.ticket { assert s'.log[|s.log|].ticket == ticket; }
  }

  lemma InLogDrop(s: State, ticket: nat)
    requires LogInLockOrder(s) && s.log != []
    ensures InLog(s.(log := s.log[..|s.log| - 1]), ticket) <==> InLog(s, ticket) && ticket != s.log[|s.log| - 1].ticket
  {
    var s' := s.(log := s.log[..|s.log| - 1]);
    if InLog(s, ticket) && ticket != s.log[|s.log| - 1].ticket {
      var i :| 0 <= i < |s.log| && s.log[i].ticket == ticket;
      assert s'.log[i].ticket == ticket;
    }
    if InLog(s', ticket) {
      var i :| 0 <= i < |s'.log| && s'.log[i].ticket == ticket;
      assert s.log[i].ticket == ticket;
    }
  }

  /** Only its own step changes what a process that is not working knows. */
  lemma BystanderConsistent(s: State, s': State, vars: map<string, Value>, p: Pid)
    requires p in s.procs && p in s'.procs && s.procs[p] == s'.procs[p] && !Working(s.procs[p].pc)
    requires HolderConsistent(s, vars, p)
    requires s.procs[p].pc.Finished? ==> (InLog(s, s.procs[p].pc.ticket) <==> InLog(s', s.procs[p].pc.ticket))
    ensures HolderConsistent(s', vars, p)
  {
  }

  lemma StartInv(s: State, vars: map<string, Value>, e: Event)
    requires Inv(s, vars) && e.Start? && Enabled(s, e)
    ensures Inv(Step(s, e), vars)
  {
    var s' := Step(s, e);
    assert forall t :: InLog(s', t) <==> InLog(s, t);
    forall p | p in s'.procs ensures HolderConsistent(s', vars, p) {
      if p != e.pid { assert HolderConsistent(s, vars, p); }
    }
  }

  lemma AcquireInv(s: State, vars: map<string, Value>, e: Event)
    requires Inv(s, vars) && e.Acquire? && Enabled(s, e)
    ensures Inv(Step(s, e), vars)
  {
    var s' := Step(s, e);
    assert forall t :: InLog(s', t) <==> InLog(s, t);
    assert forall i :: 0 <= i < |s.acquired| ==> s'.acquired[i] == s.acquired[i];
    forall p | p in s'.procs ensures HolderConsistent(s', vars, p) {
      if p != e.pid { BystanderConsistent(s, s', vars, p); }
    }
  }

  /** A holder that goes on, or lets go, keeps the lock and the tickets right. */
  lemma QuietLocks(s: State, s': State, p: Pid, pc: Pc, release: bool)
    requires LockHeld(s) && TicketsTrue(s) && LogInLockOrder(s) && p in s.procs
    requires s' == if release then Release(Move(s, p, pc), p) else Move(s, p, pc)
    requires Working(pc) <==> Working(s.procs[p].pc) && !release
    requires Working(s.procs[p].pc) || s.procs[p].pc.Idle?
    requires pc != Idle && (!pc.Dead? ==> !s.procs[p].pc.Idle? && pc.ticket == s.procs[p].pc.ticket)
    ensures LockHeld(s') && TicketsTrue(s') && LogInLockOrder(s')
    ensures forall q :: q in s.procs && q != p ==> s'.procs[q] == s.procs[q]
                                                   && (Working(s.procs[p].pc) ==> !Working(s.procs[q].pc))
  {
    assert forall q :: q in s.procs && q != p ==> s'.procs[q] == s.procs[q];
  }

  /** A step by the holder that leaves the file and the log alone. */
  lemma QuietInv(s: State, s': State, vars: map<string, Value>, p: Pid, pc: Pc, release: bool)
    requires Inv(s, vars) && p in s.procs
    requires s' == if release then Release(Move(s, p, pc), p) else Move(s, p, pc)
    requires Working(pc) <==> Working(s.procs[p].pc) && !release
    requires Working(s.procs[p].pc) || s.procs[p].pc.Idle?
    requires pc != Idle && (!pc.Dead? ==> !s.procs[p].pc.Idle? && pc.ticket == s.procs[p].pc.ticket)
    requires HolderConsistent(s', vars, p)
    ensures Inv(s', vars)
  {
    QuietLocks(s, s', p, pc, release);
    assert forall t :: InLog(s', t) <==> InLog(s, t);
    forall q | q in s'.procs && q != p ensures HolderConsistent(s', vars, q) {
      assert HolderConsistent(s, vars, q);
    }
  }

  lemma ReadInv(s: State, vars: map<string, Value>, e: Event)
    requires Inv(s, vars) && e.Read? && Enabled(s, e)
    ensures Inv(Step(s, e), vars)
  {
    var s' := Step(s, e);
    assert HolderConsistent(s, vars, e.pid);
    assert forall t :: InLog(s', t) <==> InLog(s, t);
    QuietInv(s, s', vars, e.pid, s'.procs[e.pid].pc, false);
  }

  lemma ComputeInv(s: State, vars: map<string, Value>, e: Event)
    requires Inv(s, vars) && e.Compute? && Enabled(s, e)
    ensures Inv(Step(s, e), vars)
  {
    var s' := Step(s, e);
    assert HolderConsistent(s, vars, e.pid);
    assert forall t :: InLog(s', t) <==> InLog(s, t);
    QuietInv(s, s', vars, e.pid, s'.procs[e.pid].pc, s'.procs[e.pid].pc.Finished?);
  }

  lemma DieInv(s: State, vars: map<string, Value>, e: Event)
    requires Inv(s, vars) && e.Die? && Enabled(s, e)
    ensures Inv(Step(s, e), vars)
  {
    QuietInv(s, Step(s, e), vars, e.pid, Dead, true);
  }

  /** The state after the holder's write took effect, before it moves on. */
  lemma SwapLog(s: State, vars: map<string, Value>, p: Pid)
    requires Inv(s, vars) && p in s.procs && s.procs[p].pc.HasPrepared?
    ensures var op, pc := s.procs[p].op, s.procs[p].pc;
            var s1 := s.(file := Some(pc.owned), log := s.log + [Commit(pc.ticket, p, op.name, op.value)]);
            && LogInLockOrder(s1) && EnvOf(s1.file) == ApplyLog(vars, s1.log)
            && s1.log[..|s1.log| - 1] == s.log && s.file == pc.original
  {
    var op, pc := s.procs[p].op, s.procs[p].pc;
    var c := Commit(pc.ticket, p, op.name, op.value);
    assert HolderConsistent(s, vars, p);
    PrepareUpdates(s.file, op.name, op.value, op.Add?);
    assert (s.log + [c])[..|s.log|] == s.log;
    forall i | 0 <= i < |s.log| ensures s.log[i].ticket < pc.ticket {
      assert s.log[i].ticket != pc.ticket;
    }
  }

  lemma SwapOthers(s: State, vars: map<string, Value>, e: Event, q: Pid)
    requires Inv(s, vars) && e.Swap? && Enabled(s, e) && s.file == s.procs[e.pid].pc.original
    requires q in s.procs && q != e.pid
    ensures q in Step(s, e).procs && HolderConsistent(Step(s, e), vars, q)
  {
    var op, pc := s.procs[e.pid].op, s.procs[e.pid].pc;
    var c := Commit(pc.ticket, e.pid, op.name, op.value);
    assert HolderConsistent(s, vars, q);
    if s.procs[q].pc.Finished? {
      assert s.procs[q].pc.ticket != pc.ticket;
      InLogAppend(s, c, s.procs[q].pc.ticket);
    }
    BystanderConsistent(s, Step(s, e), vars, q);
  }

  /** The holder's write is in the log, and it knows the content it would put back. */
  lemma SwapSelf(s: State, vars: map<string, Value>, e: Event)
    requires Inv(s, vars) && e.Swap? && Enabled(s, e)
    ensures var s' := Step(s, e);
            && LogInLockOrder(s') && EnvOf(s'.file) == ApplyLog(vars, s'.log)
            && s.file == s.procs[e.pid].pc.original
            && HolderConsistent(s', vars, e.pid)
  {
    var op, pc := s.procs[e.pid].op, s.procs[e.pid].pc;
    var c := Commit(pc.ticket, e.pid, op.name, op.value);
    var s1 := s.(file := Some(pc.owned), log := s.log + [c]);
    SwapLog(s, vars, e.pid);
    SwapMoved(s1, Step(s, e), e.pid);
    SwapHolder(s, vars, e.pid);
  }

  lemma SwapHolder(s: State, vars: map<string, Value>, p: Pid)
    requires p in s.procs && s.procs[p].pc.HasPrepared? && s.file == s.procs[p].pc.original
    requires EnvOf(s.file) == ApplyLog(vars, s.log)
    ensures HolderConsistent(Step(s, Swap(p)), vars, p)
  {
    var s', pc := Step(s, Swap(p)), s.procs[p].pc;
    var c := Commit(pc.ticket, p, s.procs[p].op.name, s.procs[p].op.value);
    assert s'.log == s.log + [c];
    assert s'.log[..|s.log|] == s.log;
    assert s'.log[|s.log|].ticket == pc.ticket;
    assert InLog(s', pc.ticket);
  }

  /** Moving on or letting go afterwards leaves file and log alone. */
  lemma SwapMoved(s1: State, s': State, p: Pid)
    requires p in s1.procs && s1.procs[p].pc.HasPrepared? && LogInLockOrder(s1)
    requires var pc := s1.procs[p].pc;
      s' == if s1.procs[p].op.Put? then Release(Move(s1, p, Finished(pc.ticket, true)), p)
            else Move(s1, p, InBlock(pc.ticket, pc.original, pc.owned))
    ensures LogInLockOrder(s') && s'.file == s1.file && s'.log == s1.log
    ensures forall t :: InLog(s', t) <==> InLog(s1, t)
  {
    forall i | 0 <= i < |s'.log| ensures CommitTrue(s', s'.log[i]) {
      assert CommitTrue(s1, s1.log[i]);
    }
  }

  lemma SwapLocks(s: State, e: Event)
    requires LockHeld(s) && TicketsTrue(s) && e.Swap? && Enabled(s, e)
    ensures LockHeld(Step(s, e)) && TicketsTrue(Step(s, e))
  {
    var s', p := Step(s, e), e.pid;
    assert forall q :: q in s.procs && q != p ==> s'.procs[q] == s.procs[q] && !Working(s.procs[q].pc);
    assert s'.holder == if Working(s'.procs[p].pc) then Some(p) else None;
  }

  lemma SwapInv(s: State, vars: map<string, Value>, e: Event)
    requires Inv(s, vars) && e.Swap? && Enabled(s, e)
    ensures Inv(Step(s, e), vars)
  {
    SwapSelf(s, vars, e);
    SwapLocks(s, e);
    forall q | q in Step(s, e).procs ensures HolderConsistent(Step(s, e), vars, q) {
      if q != e.pid { SwapOthers(s, vars, e, q); }
    }
  }

  lemma SettleKept(s: State, vars: map<string, Value>, p: Pid)
    requires Inv(s, vars) && p in s.procs && s.procs[p].pc.InBlock?
    ensures Inv(Step(s, Settle(p, true)), vars)
  {
    var s' := Step(s, Settle(p, true));
    var ticket := s.procs[p].pc.ticket;
    assert HolderConsistent(s, vars, p);
    assert s.log[|s.log| - 1].ticket == ticket && InLog(s, ticket);
    assert forall t :: InLog(s', t) <==> InLog(s, t);
    QuietInv(s, s', vars, p, Finished(ticket, true), true);
  }

  lemma SettleLocks(s: State, p: Pid)
    requires LockHeld(s) && TicketsTrue(s) && p in s.procs && s.procs[p].pc.InBlock?
    ensures LockHeld(Step(s, Settle(p, false))) && TicketsTrue(Step(s, Settle(p, false)))
  {
    var s' := Step(s, Settle(p, false));
    assert forall q :: q in s.procs && q != p ==> s'.procs[q] == s.procs[q] && !Working(s.procs[q].pc);
  }

  /** The holder takes its own commit, the last one, out of the file and the log again. */
  lemma SettleUndone(s: State, vars: map<string, Value>, p: Pid)
    requires p in s.procs && s.procs[p].pc.InBlock? && HolderConsistent(s, vars, p)
    ensures var s' := Step(s, Settle(p, false)); var pc := s.procs[p].pc;
      && s.log != [] && s.log[|s.log| - 1].ticket == pc.ticket
      && s'.file == pc.original && s'.log == s.log[..|s.log| - 1]
      && EnvOf(s'.file) == ApplyLog(vars, s'.log)
  {
  }

  lemma SettleOrder(s: State, p: Pid)
    requires LogInLockOrder(s) && p in s.procs && s.procs[p].pc.InBlock? && s.file == Some(s.procs[p].pc.owned)
    ensures LogInLockOrder(Step(s, Settle(p, false)))
  {
    var s' := Step(s, Settle(p, false));
    assert |s'.log| <= |s.log| && forall i :: 0 <= i < |s'.log| ==> s'.log[i] == s.log[i];
    forall i | 0 <= i < |s'.log| ensures CommitTrue(s', s'.log[i]) {
      assert CommitTrue(s, s.log[i]);
    }
  }

  lemma SettleInv(s: State, vars: map<string, Value>, e: Event)
    requires Inv(s, vars) && e.Settle? && Enabled(s, e)
    ensures Inv(Step(s, e), vars)
  {
    if e.saved {
      SettleKept(s, vars, e.pid);
    } else {
      var s', ticket := Step(s, e), s.procs[e.pid].pc.ticket;
      assert HolderConsistent(s, vars, e.pid);
      SettleUndone(s, vars, e.pid);
      SettleOrder(s, e.pid);
      SettleLocks(s, e.pid);
      InLogDrop(s, ticket);
      assert forall t :: InLog(s', t) <==> InLog(s.(log := s.log[..|s.log| - 1]), t);
      forall q | q in s'.procs && q != e.pid ensures HolderConsistent(s', vars, q) {
        assert HolderConsistent(s, vars, q);
        if s.procs[q].pc.Finished? {
          InLogDrop(s, s.procs[q].pc.ticket);
          assert s.procs[q].pc.ticket != ticket;
        }
        BystanderConsistent(s, s', vars, q);
      }
    }
  }

  lemma StepInv(s: State, vars: map<string, Value>, e: Event)
    requires Inv(s, vars) && Enabled(s, e)
    ensures Inv(Step(s, e), vars)
  {
    match e
    case Start(_, _) => StartInv(s, vars, e);
    case Acquire(_) => AcquireInv(s, vars, e);
    case Read(_) => ReadInv(s, vars, e);
    case Compute(_) => ComputeInv(s, vars, e);
    case Swap(_) => SwapInv(s, vars, e);
    case Settle(_, _) => SettleInv(s, vars, e);
    case Die(_) => DieInv(s, vars, e);
  }

  // ------------------------------------------------------------ runs

  function Initial(file: Content): State {
    State(file, None, map[], [], [])
  }

  ghost predicate Legal(s: State, es: seq<Event>)
    decreases |es|
  {
    es == [] || (Enabled(s, es[0]) && Legal(Step(s, es[0]), es[1..]))
  }

  ghost function Run(s: State, es: seq<Event>): State
    requires Legal(s, es)
    decreases |es|
  {
    if es == [] then s else Run(Step(s, es[0]), es[1..])
  }

  lemma {:induction false} RunInv(s: State, vars: map<string, Value>, es: seq<Event>)
    requires Legal(s, es) && Inv(s, vars)
    ensures Inv(Run(s, es), vars)
    decreases |es|
  {
    if es != [] {
      StepInv(s, vars, es[0]);
      RunInv(Step(s, es[0]), vars, es[1..]);
    }
  }

  /** Every content this writer may still put in place has these other sections. */
  predicate BringsOthers(pc: Pc, others: map<string, Value>) {
    && (pc.HasRead? || pc.HasPrepared? || pc.InBlock? ==> OthersOf(pc.original) == others)
    && (pc.HasPrepared? || pc.InBlock? ==> OthersOf(Some(pc.owned)) == others)
  }

  predicate KeepsOthers(s: State, others: map<string, Value>) {
    OthersOf(s.file) == others && forall p :: p in s.procs ==> BringsOthers(s.procs[p].pc, others)
  }

  lemma StepKeepsOthers(s: State, e: Event, others: map<string, Value>)
    requires Enabled(s, e) && KeepsOthers(s, others)
    ensures KeepsOthers(Step(s, e), others)
  {
    var s' := Step(s, e);
    if e.Compute? {
      var op := s.procs[e.pid].op;
      PrepareUpdates(s.file, op.name, op.value, op.Add?);
    }
    if e.pid in s.procs { assert BringsOthers(s.procs[e.pid].pc, others); }
    assert BringsOthers(s'.procs[e.pid].pc, others);
    assert forall p :: p in s'.procs && p != e.pid ==> s'.procs[p] == s.procs[p];
  }

  lemma {:induction false} RunKeepsOthers(s: State, es: seq<Event>, others: map<string, Value>)
    requires Legal(s, es) && KeepsOthers(s, others)
    ensures KeepsOthers(Run(s, es), others)
    decreases |es|
  {
    if es != [] {
      StepKeepsOthers(s, es[0], others);
      RunKeepsOthers(Step(s, es[0]), es[1..], others);
    }
  }

  /** For every interleaving, also one in which writers die midway: the variables
      in the file are those of the start with the successful writes applied one
      after the other in lock order, everything else in it is as it was, and a writer
      that finished is among them exactly when it was told its key is kept. */
  lemma WritersLinearize(file: Content, es: seq<Event>)
    requires Legal(Initial(file), es)
    ensures var s := Run(Initial(file), es);
            && EnvOf(s.file) == ApplyLog(EnvOf(file), s.log) && OthersOf(s.file) == OthersOf(file)
            && LogInLockOrder(s)
            && forall p :: p in s.procs && s.procs[p].pc.Finished? ==>
                 (s.procs[p].pc.kept <==> InLog(s, s.procs[p].pc.ticket))
  {
    var s := Run(Initial(file), es);
    RunInv(Initial(file), EnvOf(file), es);
    RunKeepsOthers(Initial(file), es, OthersOf(file));
    forall p | p in s.procs && s.procs[p].pc.Finished?
      ensures s.procs[p].pc.kept <==> InLog(s, s.procs[p].pc.ticket)
    {
      assert HolderConsistent(s, EnvOf(file), p);
    }
  }

  predicate Writes(log: seq<Commit>, k: string) {
    exists i :: 0 <= i < |log| && log[i].name == k
  }

  /** The last successful write of a variable decides it, and a variable that no
      successful write names is as it was. */
  lemma {:induction false} LastWriteDecides(vars: map<string, Value>, log: seq<Commit>, k: string, i: nat)
    ensures !Writes(log, k) ==> (k in ApplyLog(vars, log) <==> k in vars)
    ensures !Writes(log, k) && k in vars ==> ApplyLog(vars, log)[k] == vars[k]
    ensures i < |log| && log[i].name == k && (forall j :: i < j < |log| ==> log[j].name != k) ==>
              k in ApplyLog(vars, log) && ApplyLog(vars, log)[k] == Text(log[i].value)
  {
    if log != [] {
      var n := |log| - 1;
      LastWriteDecides(vars, log[..n], k, i);
      if Writes(log[..n], k) {
        var j :| 0 <= j < n && log[..n][j].name == k;
        assert log[j].name == k;
      }
    }
  }

  /** No cooperating writer is ever told that the file changed under it, and a
      failed model save always takes its key back out. */
  lemma NoFalseConflict(file: Content, es: seq<Event>, p: Pid)
    requires Legal(Initial(file), es) && p in Run(Initial(file), es).procs
    ensures var s := Run(Initial(file), es); var pc := s.procs[p].pc;
            && (pc.HasPrepared? ==> s.file == pc.original)
            && (pc.InBlock? ==> s.file == Some(pc.owned) && Step(s, Settle(p, false)).file == pc.original)
  {
    var s := Run(Initial(file), es);
    RunInv(Initial(file), EnvOf(file), es);
    assert HolderConsistent(s, EnvOf(file), p);
  }
}
