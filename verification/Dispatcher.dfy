/**
 Idempotent dispatch: callers, execution tasks and cache evictions interleaved in any order
 (crates/kodo/src/dispatcher.rs).  Every critical section is one step.
 */
module Dispatcher {
  import opened Prelude
  import opened Utf8
  import opened ResponseCache

  datatype Quotas = Quotas(maxRequests: nat, maxBytes: nat)

  /** An elected execution, from the election to the accounting of its response. */
  datatype Progress = Waiting | Executing | Responded(response: string) | Accounted(response: string)

  datatype Task = Task(id: Uuid, fingerprint: Fingerprint, progress: Progress)

  /** A caller waiting on a slot, with the fingerprint of what it asked for. */
  datatype Waiter = Waiter(id: Uuid, fingerprint: Fingerprint, handle: nat)

  datatype Answer = Answer(id: Uuid, fingerprint: Fingerprint, response: string)

  /**
   `tasks[h]` is the execution that owns slot `h`; `waiters` hold a reference to a slot even after
   its eviction; `started` and `answers` are the history.
   */
  datatype System = System(
    cache: Cache, tasks: seq<Task>, waiters: multiset<Waiter>, started: seq<Uuid>, answers: seq<Answer>)

  const INITIAL := System(EMPTY_CACHE, [], multiset{}, [], [])

  datatype Step =
    | Dispatch(id: Uuid, fingerprint: Fingerprint)
    | Spawn(handle: nat)
    | Respond(handle: nat, response: string)
    | Account(handle: nat)
    | Return(waiter: Waiter)

  predicate HasResponse(p: Progress) { p.Responded? || p.Accounted? }

  predicate Enabled(s: System, step: Step)
  {
    match step
    case Dispatch(_, _) => true
    case Spawn(h) => h < |s.tasks| && s.tasks[h].progress.Waiting?
    case Respond(h, _) => h < |s.tasks| && s.tasks[h].progress.Executing?
    case Account(h) => h < |s.tasks| && s.tasks[h].progress.Responded?
    case Return(w) => w in s.waiters && w.handle < |s.tasks| && HasResponse(s.tasks[w.handle].progress)
  }

  function Advance(s: System, h: nat, p: Progress): seq<Task>
    requires h < |s.tasks|
  {
    s.tasks[h := s.tasks[h].(progress := p)]
  }

  function Apply(s: System, step: Step, q: Quotas): (s': System)
    requires Enabled(s, step)
  {
    match step
    case Dispatch(id, fp) =>
      var handle := |s.tasks|;
      var (cache, decision) := Admitted(s.cache, id, fp, handle, q.maxRequests);
      (match decision
       case Elected(slot) =>
         s.(cache := cache, tasks := s.tasks + [Task(id, fp, Waiting)],
            waiters := s.waiters + multiset{Waiter(id, fp, handle)})
       case Existing(slot) =>
         // the same id with different input is refused; a retry waits on the same slot
         if slot.fingerprint == fp then
           s.(cache := cache, waiters := s.waiters + multiset{Waiter(id, fp, slot.handle)})
         else s.(cache := cache)
       case _ => s.(cache := cache))
    case Spawn(h) => s.(tasks := Advance(s, h, Executing), started := s.started + [s.tasks[h].id])
    case Respond(h, response) => s.(tasks := Advance(s, h, Responded(response)))
    case Account(h) =>
      var response := s.tasks[h].progress.response;
      s.(tasks := Advance(s, h, Accounted(response)),
         cache := Completed(s.cache, s.tasks[h].id, h, ByteLen(response), q.maxBytes))
    case Return(w) =>
      s.(waiters := s.waiters - multiset{w},
         answers := s.answers + [Answer(w.id, w.fingerprint, s.tasks[w.handle].progress.response)])
  }

  predicate CanRun(s: System, steps: seq<Step>, q: Quotas)
    decreases |steps|
  {
    steps == [] || (Enabled(s, steps[0]) && CanRun(Apply(s, steps[0], q), steps[1..], q))
  }

  function Run(s: System, steps: seq<Step>, q: Quotas): (s': System)
    requires CanRun(s, steps, q)
    decreases |steps|
  {
    if steps == [] then s else Run(Apply(s, steps[0], q), steps[1..], q)
  }

  // ---- What every interleaving keeps ----

  /** One execution per id, ever; every execution's id is still known to the cache. */
  ghost predicate TasksInv(c: Cache, tasks: seq<Task>)
  {
    && (forall h, k :: 0 <= h < k < |tasks| ==> tasks[h].id != tasks[k].id)
    && (forall h :: 0 <= h < |tasks| ==> TaskKnown(c, tasks[h], h))
    && (forall id :: id in c.slots ==> c.slots[id].handle < |tasks| && tasks[c.slots[id].handle].id == id)
  }

  /** A task in flight owns its slot; an accounted one is in `order` or has become a tombstone. */
  ghost predicate TaskKnown(c: Cache, t: Task, h: nat)
  {
    if t.id in c.slots then
      && c.slots[t.id] == Slot(h, t.fingerprint)
      && (t.progress.Accounted? <==> InOrder(c, t.id))
    else
      t.progress.Accounted? && t.id in c.expired && c.expired[t.id] == t.fingerprint
  }

  ghost predicate HistoryInv(s: System)
  {
    && (forall i, j :: 0 <= i < j < |s.started| ==> s.started[i] != s.started[j])
    && (forall h :: 0 <= h < |s.tasks| ==> (s.tasks[h].progress.Waiting? <==> s.tasks[h].id !in s.started))
    && (forall w :: w in s.waiters ==>
          && w.handle < |s.tasks| && s.tasks[w.handle].id == w.id
          && s.tasks[w.handle].fingerprint == w.fingerprint)
    && (forall i :: 0 <= i < |s.answers| ==> Produced(s.tasks, s.answers[i]))
    && (forall i :: 0 <= i < |s.started| ==> HasTask(s.tasks, s.started[i]))
  }

  ghost predicate HasTask(tasks: seq<Task>, id: Uuid) { exists h :: 0 <= h < |tasks| && tasks[h].id == id }

  /** Some execution of that id, of what the answered caller asked for, produced exactly this response. */
  ghost predicate Produced(tasks: seq<Task>, a: Answer)
  {
    exists h :: 0 <= h < |tasks| && ProducedBy(tasks[h], a)
  }

  predicate ProducedBy(t: Task, a: Answer)
  {
    t.id == a.id && t.fingerprint == a.fingerprint && HasResponse(t.progress) && t.progress.response == a.response
  }

  ghost predicate Inv(s: System, q: Quotas)
  {
    && Sound(s.cache)
    && |s.cache.slots| <= q.maxRequests && s.cache.responseBytes <= q.maxBytes
    && TasksInv(s.cache, s.tasks)
    && HistoryInv(s)
  }

  lemma EvictionKeepsTasks(c: Cache, c': Cache, tasks: seq<Task>)
    requires TasksInv(c, tasks) && Evicts(c, c')
    ensures TasksInv(c', tasks)
  {
    hide InOrder;
    forall h | 0 <= h < |tasks|
      ensures TaskKnown(c', tasks[h], h)
    {
      assert TaskKnown(c, tasks[h], h);
    }
  }

  /** An elected id is new to every task and to the history. */
  lemma ElectionKeepsInv(s: System, id: Uuid, fp: Fingerprint, q: Quotas)
    requires Inv(s, q)
    requires Admitted(s.cache, id, fp, |s.tasks|, q.maxRequests).1.Elected?
    ensures Inv(Apply(s, Dispatch(id, fp), q), q)
    ensures !HasTask(s.tasks, id)
  {
    hide MakeRoom, Sound, Evicts, TasksInv, HistoryInv;
    var roomy := MakeRoom(s.cache, q.maxRequests);
    MakeRoomSound(s.cache, q.maxRequests);
    EvictionKeepsTasks(s.cache, roomy, s.tasks);
    EvictionKeepsIds(s.cache, roomy, id);
    SlotAdded(roomy, id, Slot(|s.tasks|, fp));
    UnknownIdHasNoTask(s.cache, s.tasks, id);
    NewTaskKeepsTasks(roomy, s.tasks, id, fp);
    NewTaskKeepsHistory(s, Apply(s, Dispatch(id, fp), q), id, fp);
  }

  lemma UnknownIdHasNoTask(c: Cache, tasks: seq<Task>, id: Uuid)
    requires TasksInv(c, tasks) && id !in c.slots && id !in c.expired
    ensures !HasTask(tasks, id)
  {
    forall h | 0 <= h < |tasks|
      ensures tasks[h].id != id
    {
      assert TaskKnown(c, tasks[h], h);
    }
  }

  lemma NewTaskKeepsTasks(c: Cache, tasks: seq<Task>, id: Uuid, fp: Fingerprint)
    requires TasksInv(c, tasks) && Sound(c) && id !in c.slots && id !in c.expired && !HasTask(tasks, id)
    ensures TasksInv(c.(slots := c.slots[id := Slot(|tasks|, fp)]), tasks + [Task(id, fp, Waiting)])
  {
    var c', tasks' := c.(slots := c.slots[id := Slot(|tasks|, fp)]), tasks + [Task(id, fp, Waiting)];
    SlotAdded(c, id, Slot(|tasks|, fp));
    hide InOrder, Sound;
    assert forall h :: 0 <= h < |tasks| ==> tasks'[h] == tasks[h] && tasks[h].id != id;
    forall h | 0 <= h < |tasks'|
      ensures TaskKnown(c', tasks'[h], h)
    {
      if h < |tasks| {
        assert TaskKnown(c, tasks[h], h);
      }
    }
  }

  lemma NewTaskKeepsHistory(s: System, s': System, id: Uuid, fp: Fingerprint)
    requires HistoryInv(s) && !HasTask(s.tasks, id)
    requires s'.tasks == s.tasks + [Task(id, fp, Waiting)] && s'.started == s.started && s'.answers == s.answers
    requires s'.waiters == s.waiters + multiset{Waiter(id, fp, |s.tasks|)}
    ensures HistoryInv(s')
  {
    assert id !in s.started;
    GrowingTasksKeepHistory(s.tasks, s'.tasks, s.answers, s.started);
  }

  lemma EvictionKeepsIds(c: Cache, c': Cache, id: Uuid)
    requires Evicts(c, c') && id !in c.slots && id !in c.expired
    ensures id !in c'.slots && id !in c'.expired
  {
    assert id !in c'.slots.Keys + c'.expired.Keys;
  }

  lemma SlotAdded(c: Cache, id: Uuid, slot: Slot)
    requires Sound(c) && id !in c.slots && id !in c.expired
    ensures Sound(c.(slots := c.slots[id := slot])) && |c.slots[id := slot]| == |c.slots| + 1
    ensures !InOrder(c.(slots := c.slots[id := slot]), id)
    ensures forall x :: InOrder(c.(slots := c.slots[id := slot]), x) <==> InOrder(c, x)
  {
    hide Sum;
    assert c.slots[id := slot].Keys == c.slots.Keys + {id};
  }

  /** Responses, once produced, stay. */
  lemma GrowingTasksKeepHistory(tasks: seq<Task>, tasks': seq<Task>, answers: seq<Answer>, started: seq<Uuid>)
    requires |tasks| <= |tasks'|
    requires forall h :: 0 <= h < |tasks| ==>
               && tasks'[h].id == tasks[h].id && tasks'[h].fingerprint == tasks[h].fingerprint
               && (HasResponse(tasks[h].progress) ==>
                     HasResponse(tasks'[h].progress) && tasks'[h].progress.response == tasks[h].progress.response)
    requires forall i :: 0 <= i < |answers| ==> Produced(tasks, answers[i])
    requires forall i :: 0 <= i < |started| ==> HasTask(tasks, started[i])
    ensures forall i :: 0 <= i < |answers| ==> Produced(tasks', answers[i])
    ensures forall i :: 0 <= i < |started| ==> HasTask(tasks', started[i])
  {
    forall i | 0 <= i < |answers|
      ensures Produced(tasks', answers[i])
    {
      assert Produced(tasks, answers[i]);
      var h :| 0 <= h < |tasks| && ProducedBy(tasks[h], answers[i]);
      assert ProducedBy(tasks'[h], answers[i]);
    }
    forall i | 0 <= i < |started|
      ensures HasTask(tasks', started[i])
    {
      assert HasTask(tasks, started[i]);
      var h :| 0 <= h < |tasks| && tasks[h].id == started[i];
      assert tasks'[h].id == started[i];
    }
  }

  /** A task moving on without being accounted leaves the cache relation alone. */
  lemma ProgressKeepsTasks(s: System, h: nat, p: Progress)
    requires TasksInv(s.cache, s.tasks) && h < |s.tasks|
    requires !s.tasks[h].progress.Accounted? && !p.Accounted?
    ensures TasksInv(s.cache, Advance(s, h, p))
  {
    hide InOrder;
    var tasks' := Advance(s, h, p);
    assert TaskKnown(s.cache, s.tasks[h], h);
    forall k | 0 <= k < |tasks'|
      ensures TaskKnown(s.cache, tasks'[k], k)
    {
      assert TaskKnown(s.cache, s.tasks[k], k);
    }
  }

  /** The pointer test succeeds: the slot of an unaccounted task is never evicted or replaced. */
  lemma PointerTestSucceeds(s: System, h: nat, q: Quotas)
    requires Inv(s, q) && h < |s.tasks| && !s.tasks[h].progress.Accounted?
    ensures s.tasks[h].id in s.cache.slots && s.cache.slots[s.tasks[h].id].handle == h
  {
    assert TaskKnown(s.cache, s.tasks[h], h);
  }

  /** The cache with a response appended but nothing evicted yet. */
  function WithResponse(c: Cache, id: Uuid, len: nat): Cache
  {
    c.(responseBytes := c.responseBytes + len, order := c.order + [(id, len)])
  }

  lemma AccountingKeepsInv(s: System, h: nat, q: Quotas)
    requires Inv(s, q) && Enabled(s, Account(h))
    ensures Inv(Apply(s, Account(h), q), q)
  {
    hide Trim, Evicts, ByteLen, Sound, TasksInv, HistoryInv;
    var t := s.tasks[h];
    var len := ByteLen(t.progress.response);
    var s' := Apply(s, Account(h), q);
    PointerTestSucceeds(s, h, q);
    ResponseKeepsTasks(s.cache, s.tasks, h, len);
    TrimSound(WithResponse(s.cache, t.id, len), q.maxBytes);
    EvictionKeepsTasks(WithResponse(s.cache, t.id, len), s'.cache, s'.tasks);
    AccountedKeepsHistory(s, s', h);
  }

  lemma ResponseKeepsTasks(c: Cache, tasks: seq<Task>, h: nat, len: nat)
    requires TasksInv(c, tasks) && Sound(c) && h < |tasks| && tasks[h].progress.Responded?
    ensures Sound(WithResponse(c, tasks[h].id, len))
    ensures TasksInv(WithResponse(c, tasks[h].id, len),
                     tasks[h := tasks[h].(progress := Accounted(tasks[h].progress.response))])
  {
    hide Sum;
    var full := WithResponse(c, tasks[h].id, len);
    var tasks' := tasks[h := tasks[h].(progress := Accounted(tasks[h].progress.response))];
    assert TaskKnown(c, tasks[h], h);
    assert !InOrder(c, tasks[h].id);
    SumAppend(c.order, (tasks[h].id, len));
    OrderGrows(c, full, tasks[h].id, len);
    forall k | 0 <= k < |tasks'|
      ensures TaskKnown(full, tasks'[k], k)
    {
      assert TaskKnown(c, tasks[k], k);
    }
  }

  lemma AccountedKeepsHistory(s: System, s': System, h: nat)
    requires HistoryInv(s) && h < |s.tasks| && s.tasks[h].progress.Responded?
    requires s' == s.(cache := s'.cache, tasks := Advance(s, h, Accounted(s.tasks[h].progress.response)))
    ensures HistoryInv(s')
  {
    GrowingTasksKeepHistory(s.tasks, s'.tasks, s.answers, s.started);
  }

  lemma OrderGrows(c: Cache, full: Cache, id: Uuid, len: nat)
    requires full == c.(responseBytes := full.responseBytes, order := c.order + [(id, len)])
    ensures forall x :: InOrder(full, x) <==> InOrder(c, x) || x == id
  {
    assert full.order[|c.order|].0 == id;
    forall x | InOrder(c, x)
      ensures InOrder(full, x)
    {
      var i :| 0 <= i < |c.order| && c.order[i].0 == x;
      assert full.order[i].0 == x;
    }
  }

  lemma DispatchKeepsInv(s: System, id: Uuid, fp: Fingerprint, q: Quotas)
    requires Inv(s, q)
    ensures Inv(Apply(s, Dispatch(id, fp), q), q)
  {
    var (cache, decision) := Admitted(s.cache, id, fp, |s.tasks|, q.maxRequests);
    match decision
    case Elected(_) => ElectionKeepsInv(s, id, fp, q);
    case AtCapacity => CapacityRefusal(s, id, fp, q);
    case Existing(slot) =>
    case Expired(_) =>
  }

  lemma StepKeepsInv(s: System, step: Step, q: Quotas)
    requires Inv(s, q) && Enabled(s, step)
    ensures Inv(Apply(s, step, q), q)
  {
    hide Sound, TasksInv;
    var s' := Apply(s, step, q);
    match step
    case Dispatch(id, fp) => DispatchKeepsInv(s, id, fp, q);
    case Account(h) => AccountingKeepsInv(s, h, q);
    case Spawn(h) =>
      ProgressKeepsTasks(s, h, Executing);
      GrowingTasksKeepHistory(s.tasks, s'.tasks, s.answers, s.started);
      assert HasTask(s'.tasks, s'.tasks[h].id);
      DistinctIds(s.cache, s.tasks, h);
    case Respond(h, response) =>
      ProgressKeepsTasks(s, h, Responded(response));
      GrowingTasksKeepHistory(s.tasks, s'.tasks, s.answers, s.started);
    case Return(w) =>
      assert Produced(s.tasks, s'.answers[|s.answers|]);
  }

  lemma DistinctIds(c: Cache, tasks: seq<Task>, h: nat)
    requires TasksInv(c, tasks) && h < |tasks|
    ensures forall k :: 0 <= k < |tasks| && k != h ==> tasks[k].id != tasks[h].id
  {
  }

  lemma {:induction false} RunKeepsInv(s: System, steps: seq<Step>, q: Quotas)
    requires Inv(s, q) && CanRun(s, steps, q)
    ensures Inv(Run(s, steps, q), q)
    decreases |steps|
  {
    hide Inv, Apply, Enabled;
    if steps != [] {
      StepKeepsInv(s, steps[0], q);
      RunKeepsInv(Apply(s, steps[0], q), steps[1..], q);
    }
  }

  lemma InitialInv(q: Quotas)
    ensures Inv(INITIAL, q)
  {
  }

  // ---- Main results ----

  /**
   A new request is refused for capacity exactly when every slot is in flight; the refusal evicts
   nothing.
   */
  lemma CapacityRefusal(s: System, id: Uuid, fp: Fingerprint, q: Quotas)
    requires Inv(s, q)
    ensures var r := Admitted(s.cache, id, fp, |s.tasks|, q.maxRequests);
            && (r.1.AtCapacity? <==>
                  && id !in s.cache.slots && id !in s.cache.expired
                  && |s.cache.slots| == q.maxRequests
                  && (forall x :: x in s.cache.slots ==> !s.tasks[s.cache.slots[x].handle].progress.Accounted?))
            && (r.1.AtCapacity? ==> r.0 == s.cache)
  {
    hide Sum, MakeRoom, Evicts, HistoryInv;
    MakeRoomSound(s.cache, q.maxRequests);
    var c := s.cache;
    forall x | x in c.slots
      ensures InOrder(c, x) <==> s.tasks[c.slots[x].handle].progress.Accounted?
    {
      assert TaskKnown(c, s.tasks[c.slots[x].handle], c.slots[x].handle);
    }
    if c.order != [] {
      assert InOrder(c, c.order[0].0) && c.slots != map[];
    }
  }

  /** At most once: in every interleaving, no request id starts execution twice. */
  lemma AtMostOnce(steps: seq<Step>, q: Quotas, i: nat, j: nat)
    requires CanRun(INITIAL, steps, q)
    requires i < |Run(INITIAL, steps, q).started| && j < |Run(INITIAL, steps, q).started|
    requires Run(INITIAL, steps, q).started[i] == Run(INITIAL, steps, q).started[j]
    ensures i == j
  {
    InitialInv(q);
    RunKeepsInv(INITIAL, steps, q);
  }

  /**
   One answer: all callers that were answered from a slot for an id asked for the same thing and got the
   one response that its execution produced.
   */
  lemma SameAnswer(steps: seq<Step>, q: Quotas, i: nat, j: nat)
    requires CanRun(INITIAL, steps, q)
    requires var s := Run(INITIAL, steps, q);
             i < |s.answers| && j < |s.answers| && s.answers[i].id == s.answers[j].id
    ensures var s := Run(INITIAL, steps, q);
            && s.answers[i] == s.answers[j]
            && s.answers[i].id in s.started && Produced(s.tasks, s.answers[i])
  {
    InitialInv(q);
    RunKeepsInv(INITIAL, steps, q);
    OneResponsePerId(Run(INITIAL, steps, q), q, i, j);
  }

  lemma OneResponsePerId(s: System, q: Quotas, i: nat, j: nat)
    requires Inv(s, q) && i < |s.answers| && j < |s.answers| && s.answers[i].id == s.answers[j].id
    ensures s.answers[i] == s.answers[j] && s.answers[i].id in s.started
    ensures Produced(s.tasks, s.answers[i])
  {
    hide TaskKnown, Sound;
    assert Produced(s.tasks, s.answers[i]) && Produced(s.tasks, s.answers[j]);
  }

  /** Accounting in every reachable state: disjoint ids, exact sums, both quotas, distinct completed ids in order. */
  lemma AccountingIsExact(steps: seq<Step>, q: Quotas)
    requires CanRun(INITIAL, steps, q)
    ensures var c := Run(INITIAL, steps, q).cache;
            && c.slots.Keys !! c.expired.Keys
            && c.responseBytes == Sum(c.order) <= q.maxBytes
            && |c.slots| <= q.maxRequests
            && (forall i, j :: 0 <= i < j < |c.order| ==> c.order[i].0 != c.order[j].0)
            && (forall i :: 0 <= i < |c.order| ==> IsCompleted(Run(INITIAL, steps, q), c.order[i].0))
  {
    InitialInv(q);
    RunKeepsInv(INITIAL, steps, q);
    OrderIsCompleted(Run(INITIAL, steps, q), q);
  }

  /** The id is live, and the execution that owns its slot has been accounted for. */
  ghost predicate IsCompleted(s: System, id: Uuid)
  {
    && id in s.cache.slots && s.cache.slots[id].handle < |s.tasks|
    && s.tasks[s.cache.slots[id].handle].id == id && s.tasks[s.cache.slots[id].handle].progress.Accounted?
  }

  lemma OrderIsCompleted(s: System, q: Quotas)
    requires Inv(s, q)
    ensures forall i :: 0 <= i < |s.cache.order| ==> IsCompleted(s, s.cache.order[i].0)
  {
    hide HistoryInv, Sum;
    forall i | 0 <= i < |s.cache.order|
      ensures IsCompleted(s, s.cache.order[i].0)
    {
      var id := s.cache.order[i].0;
      assert InOrder(s.cache, id);
      assert TaskKnown(s.cache, s.tasks[s.cache.slots[id].handle], s.cache.slots[id].handle);
    }
  }

  /** A response is replayable right after its accounting exactly when it fits the byte quota. */
  lemma RetainedIffItFits(s: System, h: nat, q: Quotas)
    requires Inv(s, q) && Enabled(s, Account(h))
    ensures s.tasks[h].id in Apply(s, Account(h), q).cache.slots <==>
              ByteLen(s.tasks[h].progress.response) <= q.maxBytes
  {
    hide Trim, ByteLen, Sound, TasksInv, HistoryInv;
    var t := s.tasks[h];
    var len := ByteLen(t.progress.response);
    PointerTestSucceeds(s, h, q);
    ResponseKeepsTasks(s.cache, s.tasks, h, len);
    NewestSurvives(WithResponse(s.cache, t.id, len), q.maxBytes);
  }
}
