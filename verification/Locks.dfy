/**
 Advisory locks around ownership changes and external dispatches: any number of processes, each
 taking its sorted keys one at a time (lib/kodo/sessions.ex).
 */
module Locks {
  import opened Prelude
  import opened SessionLog
  import SessionRuns

  datatype Key = SessionKey(session: Uuid) | InstanceKey(bootId: Uuid)

  /**
   The order of the keys as text: a session key is a bare hexadecimal UUID, an instance key the
   UUID behind "instance:", which sorts after every hexadecimal digit.
   */
  function Rank(k: Key): (n: nat)
    ensures n < 2 * UUID_SIZE
  {
    match k
    case SessionKey(u) => u
    case InstanceKey(u) => UUID_SIZE + u
  }

  lemma RankIsInjective(a: Key, b: Key)
    ensures Rank(a) == Rank(b) ==> a == b
  {
  }

  predicate Ascending(keys: seq<Key>)
  {
    forall i, j :: 0 <= i < j < |keys| ==> Rank(keys[i]) < Rank(keys[j])
  }

  predicate Distinct(keys: seq<Key>)
  {
    forall i, j :: 0 <= i < j < |keys| ==> keys[i] != keys[j]
  }

  function Insert(k: Key, keys: seq<Key>): (r: seq<Key>)
    requires Ascending(keys) && k !in keys
    ensures Ascending(r) && |r| == |keys| + 1
    ensures forall x :: x in r <==> x == k || x in keys
  {
    if keys == [] || Rank(k) < Rank(keys[0]) then [k] + keys
    else
      assert keys == [keys[0]] + keys[1..];
      var rest := Insert(k, keys[1..]);
      RankIsInjective(k, keys[0]);
      assert forall x :: x in keys[1..] ==> Rank(keys[0]) < Rank(x);
      assert forall j :: 0 <= j < |rest| ==> rest[j] in rest;
      [keys[0]] + rest
  }

  function Sort(keys: seq<Key>): (r: seq<Key>)
    requires Distinct(keys)
    ensures Ascending(r) && |r| == |keys|
    ensures forall x :: x in r <==> x in keys
  {
    if keys == [] then []
    else
      assert keys == [keys[0]] + keys[1..];
      Insert(keys[0], Sort(keys[1..]))
  }

  /** What a process does under its locks. */
  datatype Job = Dispatch(token: Token) | Place(session: Uuid, owner: Owner)

  function LockKeys(job: Job): (keys: seq<Key>)
    ensures Distinct(keys) && SessionKey(SessionOf(job)) in keys
    ensures job.Place? && job.owner.Some? ==> InstanceKey(job.owner.value) in keys
  {
    match job
    case Dispatch(token) => [SessionKey(token.session)]
    case Place(session, None) => [SessionKey(session)]
    case Place(session, Some(bootId)) => [SessionKey(session), InstanceKey(bootId)]
  }

  function SessionOf(job: Job): Uuid
  {
    match job
    case Dispatch(token) => token.session
    case Place(session, _) => session
  }

  datatype Stage = Outside | Acquiring | Inside | Dispatching | Releasing

  /** A caller and its lock holder: `keys[..held]` are held. */
  datatype Proc = Proc(job: Job, keys: seq<Key>, held: nat, stage: Stage)

  datatype State = State(procs: seq<Proc>, locks: map<Key, nat>, sessions: map<Uuid, Session>)

  datatype Step =
    | Start(p: nat, job: Job)
    | Acquire(p: nat)
    | Enter(p: nat)
    | AssertOwner(p: nat, alive: bool)
    | Commit(p: nat, op: Op)
    | Leave(p: nat)
    | Release(p: nat)
    | End(p: nat)
    | Transact(id: Uuid, tx: Op)

  /** A claim or transfer of the session the job has locked, to the instance it has locked. */
  predicate Performs(job: Job, op: Op)
  {
    && job.Place?
    && (op.Claim? || op.Transfer?)
    && (if op.Claim? then op.owner == job.owner else op.newOwner == job.owner)
  }

  predicate Enabled(s: State, step: Step)
  {
    if step.Transact? then step.id in s.sessions && !step.tx.Claim? && !step.tx.Transfer?
    else
      && step.p < |s.procs|
      && var proc := s.procs[step.p];
      match step
      case Start(_, _) => proc.stage == Outside
      case Acquire(_) => proc.stage == Acquiring && proc.held < |proc.keys| && proc.keys[proc.held] !in s.locks
      case Enter(_) => proc.stage == Acquiring && proc.held == |proc.keys|
      case AssertOwner(_, _) => proc.stage == Inside && proc.job.Dispatch?
      case Commit(_, op) => proc.stage == Inside && Performs(proc.job, op)
      case Leave(_) => proc.stage == Inside || proc.stage == Dispatching
      case Release(_) => proc.stage == Releasing && 0 < proc.held <= |proc.keys|
      case End(_) => proc.stage == Releasing && proc.held == 0
  }

  function SetStage(s: State, p: nat, stage: Stage): State
    requires p < |s.procs|
  {
    s.(procs := s.procs[p := s.procs[p].(stage := stage)])
  }

  /** A transaction on one session; a rollback or a missing row changes nothing. */
  function Transacted(sessions: map<Uuid, Session>, id: Uuid, op: Op): map<Uuid, Session>
  {
    if id in sessions && Apply(sessions[id], op).Ok? then sessions[id := Apply(sessions[id], op).value] else sessions
  }

  predicate IsOwner(sessions: map<Uuid, Session>, token: Token)
  {
    token.session in sessions && OwnershipMatches(sessions[token.session], Some(token))
  }

  function Next(s: State, step: Step): State
    requires Enabled(s, step)
  {
    match step
    case Start(p, job) => s.(procs := s.procs[p := Proc(job, Sort(LockKeys(job)), 0, Acquiring)])
    case Acquire(p) =>
      var proc := s.procs[p];
      s.(procs := s.procs[p := proc.(held := proc.held + 1)], locks := s.locks[proc.keys[proc.held] := p])
    case Enter(p) => SetStage(s, p, Inside)
    case AssertOwner(p, alive) =>
      var token := s.procs[p].job.token;
      if IsOwner(s.sessions, token) && OwnerAlive(Some(token), alive) then SetStage(s, p, Dispatching)
      else SetStage(s, p, Releasing)
    case Commit(p, op) =>
      SetStage(s.(sessions := Transacted(s.sessions, s.procs[p].job.session, op)), p, Releasing)
    case Leave(p) => SetStage(s, p, Releasing)
    case Release(p) =>
      var proc := s.procs[p];
      s.(procs := s.procs[p := proc.(held := proc.held - 1)], locks := s.locks - {proc.keys[proc.held - 1]})
    case End(p) => SetStage(s, p, Outside)
    case Transact(id, op) => s.(sessions := Transacted(s.sessions, id, op))
  }

  // ---- What every step keeps ----

  ghost predicate ProcInv(proc: Proc)
  {
    && Ascending(proc.keys)
    && proc.held <= |proc.keys|
    && (proc.stage == Outside ==> proc.held == 0)
    && (proc.stage == Inside || proc.stage == Dispatching ==> proc.held == |proc.keys|)
    && (proc.stage != Outside ==> SessionKey(SessionOf(proc.job)) in proc.keys)
    && (proc.stage != Outside && proc.job.Place? && proc.job.owner.Some? ==>
          InstanceKey(proc.job.owner.value) in proc.keys)
    && (proc.stage == Dispatching ==> proc.job.Dispatch?)
  }

  /** The lock table and the processes agree on who holds what. */
  ghost predicate LocksInv(procs: seq<Proc>, locks: map<Key, nat>)
  {
    && (forall p, i :: 0 <= p < |procs| && 0 <= i < procs[p].held && i < |procs[p].keys| ==>
                         procs[p].keys[i] in locks && locks[procs[p].keys[i]] == p)
    && (forall k :: k in locks ==> locks[k] < |procs| && Holds(procs[locks[k]], k))
  }

  ghost predicate Holds(proc: Proc, k: Key)
  {
    exists i :: 0 <= i < |proc.keys| && i < proc.held && proc.keys[i] == k
  }

  ghost predicate DispatchInv(s: State)
  {
    && (forall id :: id in s.sessions ==> s.sessions[id].id == id)
    && (forall p :: 0 <= p < |s.procs| && s.procs[p].stage == Dispatching && s.procs[p].job.Dispatch? ==>
                      IsOwner(s.sessions, s.procs[p].job.token))
  }

  ghost predicate Inv(s: State)
  {
    && (forall p :: 0 <= p < |s.procs| ==> ProcInv(s.procs[p]))
    && LocksInv(s.procs, s.locks)
    && DispatchInv(s)
  }

  /** A process inside its callback is the one holder of its session's key. */
  lemma InsideHoldsSession(s: State, p: nat)
    requires Inv(s) && p < |s.procs| && (s.procs[p].stage == Inside || s.procs[p].stage == Dispatching)
    ensures var k := SessionKey(SessionOf(s.procs[p].job)); k in s.locks && s.locks[k] == p
  {
    assert ProcInv(s.procs[p]);
  }

  lemma AcquireKeepsLocks(s: State, p: nat)
    requires LocksInv(s.procs, s.locks) && Enabled(s, Acquire(p))
    ensures var s' := Next(s, Acquire(p)); LocksInv(s'.procs, s'.locks)
  {
    var s' := Next(s, Acquire(p));
    var proc := s.procs[p];
    assert s'.procs[p].keys[proc.held] == proc.keys[proc.held];
    forall k | k in s'.locks
      ensures s'.locks[k] < |s'.procs| && Holds(s'.procs[s'.locks[k]], k)
    {
      if k in s.locks {
        assert Holds(s.procs[s.locks[k]], k);
      }
    }
  }

  lemma ReleaseKeepsLocks(s: State, p: nat)
    requires LocksInv(s.procs, s.locks) && Enabled(s, Release(p)) && Ascending(s.procs[p].keys)
    ensures var s' := Next(s, Release(p)); LocksInv(s'.procs, s'.locks)
  {
    var s' := Next(s, Release(p));
    var proc := s.procs[p];
    var freed := proc.keys[proc.held - 1];
    assert s.locks[freed] == p;
    forall k | k in s'.locks
      ensures s'.locks[k] < |s'.procs| && Holds(s'.procs[s'.locks[k]], k)
    {
      assert Holds(s.procs[s.locks[k]], k);
      var i :| 0 <= i < |s.procs[s.locks[k]].keys| && i < s.procs[s.locks[k]].held && s.procs[s.locks[k]].keys[i] == k;
      assert s'.procs[s'.locks[k]].keys[i] == k;
    }
    forall q, i | 0 <= q < |s'.procs| && 0 <= i < s'.procs[q].held && i < |s'.procs[q].keys|
      ensures s'.procs[q].keys[i] in s'.locks && s'.locks[s'.procs[q].keys[i]] == q
    {
      assert s.locks[s.procs[q].keys[i]] == q;
      if q == p {
        assert Rank(proc.keys[i]) < Rank(freed);
      }
    }
  }

  /** Changing a job or a stage without moving `held` leaves the lock table alone. */
  lemma StageKeepsLocks(s: State, p: nat, proc': Proc)
    requires LocksInv(s.procs, s.locks) && p < |s.procs|
    requires proc'.held == s.procs[p].held && (proc'.held == 0 || proc'.keys == s.procs[p].keys)
    ensures LocksInv(s.procs[p := proc'], s.locks)
  {
    var procs' := s.procs[p := proc'];
    forall k | k in s.locks
      ensures s.locks[k] < |procs'| && Holds(procs'[s.locks[k]], k)
    {
      assert Holds(s.procs[s.locks[k]], k);
    }
  }

  /** Only a committing claim or transfer moves ownership, and it holds the session's key. */
  lemma CommitSparesDispatches(s: State, p: nat, op: Op, q: nat)
    requires Inv(s) && Enabled(s, Commit(p, op))
    requires q < |s.procs| && s.procs[q].stage == Dispatching && s.procs[q].job.Dispatch?
    ensures IsOwner(Next(s, Commit(p, op)).sessions, s.procs[q].job.token)
  {
    hide Apply;
    InsideHoldsSession(s, p);
    InsideHoldsSession(s, q);
    assert SessionOf(s.procs[p].job) != SessionOf(s.procs[q].job);
  }

  lemma TransactSparesOwnership(sessions: map<Uuid, Session>, id: Uuid, op: Op, token: Token)
    requires IsOwner(sessions, token) && !op.Claim? && !op.Transfer?
    ensures IsOwner(Transacted(sessions, id, op), token)
  {
    hide Apply;
    if id in sessions { SessionRuns.ApplyExtends(sessions[id], op); }
  }

  lemma StepKeepsDispatch(s: State, step: Step)
    requires Inv(s) && Enabled(s, step)
    ensures DispatchInv(Next(s, step))
  {
    hide Apply, Sort, LockKeys, LocksInv, OwnershipMatches;
    var s' := Next(s, step);
    forall id | id in s'.sessions
      ensures s'.sessions[id].id == id
    {
      if step.Commit? { SessionRuns.ApplyExtends(s.sessions[id], step.op); }
      if step.Transact? { SessionRuns.ApplyExtends(s.sessions[id], step.tx); }
    }
    forall q | 0 <= q < |s'.procs| && s'.procs[q].stage == Dispatching && s'.procs[q].job.Dispatch?
      ensures IsOwner(s'.sessions, s'.procs[q].job.token)
    {
      match step
      case Commit(p, op) => CommitSparesDispatches(s, p, op, q);
      case Transact(id, op) => TransactSparesOwnership(s.sessions, id, op, s.procs[q].job.token);
      case _ =>
    }
  }

  lemma StepKeepsInv(s: State, step: Step)
    requires Inv(s) && Enabled(s, step)
    ensures Inv(Next(s, step))
  {
    StepKeepsDispatch(s, step);
    StepKeepsLocks(s, step);
    StepKeepsProcs(s, step);
    hide Next, Enabled, LocksInv, DispatchInv, ProcInv;
  }

  lemma StepKeepsProcs(s: State, step: Step)
    requires Inv(s) && Enabled(s, step)
    ensures forall p :: 0 <= p < |Next(s, step).procs| ==> ProcInv(Next(s, step).procs[p])
  {
    hide Apply, Sort, LockKeys, LocksInv, DispatchInv, Ascending, Performs;
    var s' := Next(s, step);
    forall p | 0 <= p < |s'.procs|
      ensures ProcInv(s'.procs[p])
    {
      assert ProcInv(s.procs[p]);
    }
  }

  lemma StepKeepsLocks(s: State, step: Step)
    requires Inv(s) && Enabled(s, step)
    ensures var s' := Next(s, step); LocksInv(s'.procs, s'.locks)
  {
    hide Apply, Sort, LockKeys, LocksInv, DispatchInv;
    var s' := Next(s, step);
    match step
    case Start(p, job) => StageKeepsLocks(s, p, s'.procs[p]);
    case Acquire(p) => AcquireKeepsLocks(s, p);
    case Release(p) => ReleaseKeepsLocks(s, p);
    case Transact(_, _) =>
    case _ => StageKeepsLocks(s, step.p, s'.procs[step.p]);
  }

  ghost predicate CanRun(s: State, steps: seq<Step>)
    decreases |steps|
  {
    steps != [] ==> Enabled(s, steps[0]) && CanRun(Next(s, steps[0]), steps[1..])
  }

  function Run(s: State, steps: seq<Step>): State
    requires CanRun(s, steps)
    decreases |steps|
  {
    if steps == [] then s else Run(Next(s, steps[0]), steps[1..])
  }

  lemma {:induction false} RunKeepsInv(s: State, steps: seq<Step>)
    requires Inv(s) && CanRun(s, steps)
    ensures Inv(Run(s, steps))
    decreases |steps|
  {
    hide Inv, Next, Enabled;
    if steps != [] {
      StepKeepsInv(s, steps[0]);
      RunKeepsInv(Next(s, steps[0]), steps[1..]);
    }
  }

  /** Any number of idle processes and any sessions. */
  ghost predicate Initial(s: State)
  {
    && (forall p :: 0 <= p < |s.procs| ==> s.procs[p].stage == Outside && s.procs[p].held == 0 && s.procs[p].keys == [])
    && s.locks == map[]
    && (forall id :: id in s.sessions ==> s.sessions[id].id == id)
  }

  lemma InitialInv(s: State)
    requires Initial(s)
    ensures Inv(s)
  {
  }

  // ---- Main results ----

  /**
   Dispatch exclusion: in every reachable state, while a dispatch callback runs, its token still
   names the session's current owner and epoch.
   */
  lemma DispatchRunsUnderItsEpoch(s: State, steps: seq<Step>, p: nat)
    requires Initial(s) && CanRun(s, steps)
    requires p < |Run(s, steps).procs| && Run(s, steps).procs[p].stage == Dispatching
    ensures var s' := Run(s, steps);
            var job := s'.procs[p].job;
            && job.Dispatch? && job.token.session in s'.sessions
            && OwnershipMatches(s'.sessions[job.token.session], Some(job.token))
  {
    hide Run, CanRun;
    InitialInv(s);
    RunKeepsInv(s, steps);
    assert ProcInv(Run(s, steps).procs[p]);
  }

  /**
   Placement exclusion: in every reachable state at most one process is inside for a session, and at
   most one is inside placing onto an instance - so the load it reads is the load it adds to.
   */
  lemma PlacementsExclude(s: State, steps: seq<Step>, p: nat, q: nat)
    requires Initial(s) && CanRun(s, steps)
    requires var procs := Run(s, steps).procs;
             && p < |procs| && q < |procs| && IsInside(procs[p]) && IsInside(procs[q])
             && (SessionOf(procs[p].job) == SessionOf(procs[q].job)
                 || (procs[p].job.Place? && procs[q].job.Place? && procs[p].job.owner.Some?
                     && procs[p].job.owner == procs[q].job.owner))
    ensures p == q
  {
    hide Run, CanRun;
    InitialInv(s);
    RunKeepsInv(s, steps);
    assert ProcInv(Run(s, steps).procs[p]) && ProcInv(Run(s, steps).procs[q]);
  }

  predicate IsInside(proc: Proc) { proc.stage == Inside || proc.stage == Dispatching }

  /** `p` needs a key that `q` holds. */
  ghost predicate WaitsFor(s: State, p: nat, q: nat)
  {
    && p < |s.procs| && q < |s.procs|
    && s.procs[p].stage == Acquiring
    && s.procs[p].held < |s.procs[p].keys|
    && s.procs[p].keys[s.procs[p].held] in s.locks
    && s.locks[s.procs[p].keys[s.procs[p].held]] == q
  }

  function Wanted(proc: Proc): (n: nat)
    requires proc.held < |proc.keys|
    ensures n < 2 * UUID_SIZE
  {
    Rank(proc.keys[proc.held])
  }

  /** What a blocked holder wants ranks above everything it holds. */
  lemma WaitersAscend(s: State, p: nat, q: nat)
    requires Inv(s) && WaitsFor(s, p, q) && s.procs[q].held < |s.procs[q].keys|
    ensures Wanted(s.procs[p]) < Wanted(s.procs[q])
  {
    assert ProcInv(s.procs[q]);
    assert Holds(s.procs[q], s.procs[p].keys[s.procs[p].held]);
  }

  /** A cycle of waiting processes, each for the next and the last for the first. */
  ghost predicate WaitCycle(s: State, ps: seq<nat>)
  {
    && ps != []
    && (forall i :: 0 <= i < |ps| - 1 ==> WaitsFor(s, ps[i], ps[i + 1]))
    && WaitsFor(s, ps[|ps| - 1], ps[0])
  }

  lemma {:induction false} ChainsAscend(s: State, ps: seq<nat>)
    requires Inv(s) && ps != []
    requires forall i :: 0 <= i < |ps| - 1 ==> WaitsFor(s, ps[i], ps[i + 1])
    requires forall i :: 0 <= i < |ps| ==> ps[i] < |s.procs| && s.procs[ps[i]].held < |s.procs[ps[i]].keys|
    ensures Wanted(s.procs[ps[0]]) <= Wanted(s.procs[ps[|ps| - 1]])
  {
    hide Inv, WaitsFor;
    if |ps| > 1 {
      var shorter := ps[..|ps| - 1];
      ChainsAscend(s, shorter);
      assert WaitsFor(s, ps[|ps| - 2], ps[|ps| - 2 + 1]);
      WaitersAscend(s, ps[|ps| - 2], ps[|ps| - 1]);
    }
  }

  /** No deadlock: no cycle of waiters is reachable. */
  lemma NoWaitCycle(s: State, steps: seq<Step>, ps: seq<nat>)
    requires Initial(s) && CanRun(s, steps)
    ensures !WaitCycle(Run(s, steps), ps)
  {
    InitialInv(s);
    RunKeepsInv(s, steps);
    CycleImpossible(Run(s, steps), ps);
  }

  lemma CycleImpossible(s: State, ps: seq<nat>)
    requires Inv(s)
    ensures !WaitCycle(s, ps)
  {
    hide Inv;
    if WaitCycle(s, ps) {
      forall i | 0 <= i < |ps|
        ensures ps[i] < |s.procs| && s.procs[ps[i]].held < |s.procs[ps[i]].keys|
      {
        if i < |ps| - 1 { assert WaitsFor(s, ps[i], ps[i + 1]); }
      }
      ChainsAscend(s, ps);
      WaitersAscend(s, ps[|ps| - 1], ps[0]);
    }
  }

  /** A step that moves a job forward, rather than starting one or touching a row. */
  predicate Advances(step: Step) { !step.Start? && !step.Transact? }

  /** From any busy process a chain of waiters leads to one that can advance. */
  lemma {:induction false} SomeoneAdvances(s: State, p: nat) returns (step: Step)
    requires Inv(s) && p < |s.procs| && s.procs[p].stage != Outside
    ensures Advances(step) && Enabled(s, step)
    decreases if s.procs[p].held < |s.procs[p].keys| then 2 * UUID_SIZE - Wanted(s.procs[p]) else 0
  {
    hide DispatchInv, Sort, LockKeys;
    var proc := s.procs[p];
    assert ProcInv(proc);
    match proc.stage
    case Acquiring =>
      if proc.held == |proc.keys| {
        step := Enter(p);
      } else if proc.keys[proc.held] !in s.locks {
        step := Acquire(p);
      } else {
        var q := s.locks[proc.keys[proc.held]];
        assert Holds(s.procs[q], proc.keys[proc.held]) && ProcInv(s.procs[q]);
        if s.procs[q].held < |s.procs[q].keys| { WaitersAscend(s, p, q); }
        step := SomeoneAdvances(s, q);
      }
    case Inside => step := Leave(p);
    case Dispatching => step := Leave(p);
    case Releasing => step := if proc.held > 0 then Release(p) else End(p);
  }

  /** Steps a process has left before it is idle again. */
  function Remaining(proc: Proc): nat
  {
    match proc.stage
    case Outside => 0
    case Acquiring => |proc.keys| + 4 + (if proc.held < |proc.keys| then |proc.keys| - proc.held else 0)
    case Inside => proc.held + 3
    case Dispatching => proc.held + 2
    case Releasing => proc.held + 1
  }

  function Work(procs: seq<Proc>): nat
  {
    if procs == [] then 0 else Remaining(procs[0]) + Work(procs[1..])
  }

  lemma {:induction false} WorkUpdated(procs: seq<Proc>, p: nat, proc: Proc)
    requires p < |procs|
    ensures Work(procs[p := proc]) == Work(procs) - Remaining(procs[p]) + Remaining(proc)
  {
    if p == 0 {
      assert procs[p := proc][1..] == procs[1..];
    } else {
      WorkUpdated(procs[1..], p - 1, proc);
      assert procs[p := proc][1..] == procs[1..][p - 1 := proc];
    }
  }

  lemma {:induction false} NoWorkMeansIdle(procs: seq<Proc>, p: nat)
    requires p < |procs| && procs[p].stage != Outside
    ensures Work(procs) > 0
  {
    if p > 0 { NoWorkMeansIdle(procs[1..], p - 1); }
  }

  lemma AdvanceReducesWork(s: State, step: Step)
    requires Inv(s) && Enabled(s, step) && Advances(step)
    ensures Work(Next(s, step).procs) < Work(s.procs)
  {
    hide LocksInv, DispatchInv, Apply, Work;
    assert ProcInv(s.procs[step.p]);
    var s' := Next(s, step);
    WorkUpdated(s.procs, step.p, s'.procs[step.p]);
    assert s'.procs == s.procs[step.p := s'.procs[step.p]];
  }

  /**
   Once no new job starts, every way of scheduling the processes ends: a run of advancing steps has
   at most `Work` of them, and it can be extended until every process is idle.
   */
  lemma {:induction false} EveryJobFinishes(s: State, steps: seq<Step>)
    requires Inv(s) && CanRun(s, steps)
    requires forall i :: 0 <= i < |steps| ==> Advances(steps[i])
    ensures |steps| <= Work(s.procs)
    ensures (forall step :: Advances(step) ==> !Enabled(Run(s, steps), step)) <==>
              (forall p :: 0 <= p < |Run(s, steps).procs| ==> Run(s, steps).procs[p].stage == Outside)
    decreases |steps|
  {
    hide Inv, Next, Enabled, Work;
    if steps == [] {
      StuckMeansIdle(s);
    } else {
      StepKeepsInv(s, steps[0]);
      AdvanceReducesWork(s, steps[0]);
      EveryJobFinishes(Next(s, steps[0]), steps[1..]);
    }
  }

  lemma StuckMeansIdle(s: State)
    requires Inv(s)
    ensures (forall step :: Advances(step) ==> !Enabled(s, step)) <==>
            (forall p :: 0 <= p < |s.procs| ==> s.procs[p].stage == Outside)
  {
    hide Inv;
    if p :| 0 <= p < |s.procs| && s.procs[p].stage != Outside {
      var step := SomeoneAdvances(s, p);
    }
  }
}
