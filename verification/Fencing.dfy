/**
 End-to-end fencing.  The control plane claims and transfers sessions (lib/kodo/sessions.ex), every
 coordinator that ever held a token may keep sending leases for it (lib/kodo/runner_protocol.ex),
 the network delays, repeats, reorders and loses them, and the runner grants, elects and checks
 (crates/kodo/src/authority.rs, dispatcher.rs, runner.rs).
 */
module Fencing {
  import opened Prelude
  import Authority
  import Dispatcher
  import ResponseCache
  import SessionLog
  import SessionRuns

  type Lease = Authority.Lease
  type Guard = Authority.Guard

  type Input = nat

  /** The runner's quotas and the digest of a session id and a request that identifies what is asked. */
  datatype Setup = Setup(quotas: Dispatcher.Quotas, fingerprint: (Uuid, Input) -> ResponseCache.Fingerprint)

  const AUTHORITY_LEASE_TTL_MS: nat := 15_000

  /** A validity check that passed, and so an effect that was let through. */
  datatype Effect = Effect(handle: nat, session: Uuid, epoch: nat)

  /** A caller between its grant and its election: the two take different locks. */
  datatype Caller = Caller(request: Uuid, input: Input, guard: Guard)

  /**
   `sent` holds every lease ever sent, for the network to deliver at any time and any number of
   times; `granted` the callers that have yet to reach the response cache; `guards[h]` and `inputs[h]`
   are the guard and the input of execution `h`.
   */
  datatype World = World(
    plane: map<Uuid, SessionRuns.History>, sent: set<Lease>, registry: Authority.Registry,
    granted: multiset<Caller>, system: Dispatcher.System, guards: seq<Guard>, inputs: seq<Input>, effects: seq<Effect>)

  const INITIAL := World(map[], {}, map[], multiset{}, Dispatcher.INITIAL, [], [], [])

  datatype Step =
    | Create(id: Uuid)
    | Transact(id: Uuid, op: SessionLog.Op)
    | Send(id: Uuid, token: SessionLog.Token)
    | Renew(lease: Lease, now: Authority.Instant)
    | Grant(request: Uuid, input: Input, lease: Lease, now: Authority.Instant)
    | Elect(caller: Caller)
    | Internal(step: Dispatcher.Step)
    | Check(handle: nat, now: Authority.Instant)

  /** A token some claim or transfer issued, or that of a session nobody has claimed yet. */
  predicate Held(h: SessionRuns.History, t: SessionLog.Token) { t in h.issued || t.epoch == 0 }

  predicate Enabled(w: World, step: Step)
  {
    match step
    case Create(id) => id !in w.plane
    case Transact(id, _) => id in w.plane
    case Send(id, token) => id in w.plane && Held(w.plane[id], token) && token.epoch < U64_SIZE
    case Renew(lease, _) => lease in w.sent
    case Grant(_, _, lease, _) => lease in w.sent
    case Elect(caller) => caller in w.granted
    case Internal(inner) => !inner.Dispatch? && Dispatcher.Enabled(w.system, inner)
    case Check(h, _) => h < |w.system.tasks| && !w.system.tasks[h].progress.Waiting? && h < |w.guards|
  }

  function LeaseOf(id: Uuid, token: SessionLog.Token): Lease
    requires token.epoch < U64_SIZE
  {
    Authority.Lease(id, token.epoch, AUTHORITY_LEASE_TTL_MS)
  }

  /** The guard a successful grant hands out. */
  function GuardFor(registry: Authority.Registry, lease: Lease, now: Authority.Instant): Guard
  {
    Authority.Guard(lease.session, lease.epoch, Authority.NextGeneration(registry, lease, now))
  }

  /** A delivered request takes the registry lock; a refused one is answered with an error. */
  function Granted(w: World, id: Uuid, input: Input, lease: Lease, now: Authority.Instant): World
  {
    if Authority.Refusal(w.registry, lease).Some? then w
    else
      w.(registry := Authority.Granted(w.registry, lease, now),
         granted := w.granted + multiset{Caller(id, input, GuardFor(w.registry, lease, now))})
  }

  /** What the caller asks the cache for: the digest covers its session and its input. */
  function Asking(caller: Caller, env: Setup): Dispatcher.Step
  {
    var session := if caller.guard.Guard? then caller.guard.session else 0;
    Dispatcher.Dispatch(caller.request, env.fingerprint(session, caller.input))
  }

  /** Later the caller takes the cache lock; if it is elected, its execution keeps the caller's guard. */
  function Elected(w: World, caller: Caller, env: Setup): World
  {
    var system := Dispatcher.Apply(w.system, Asking(caller, env), env.quotas);
    var elected := |system.tasks| > |w.system.tasks|;
    w.(granted := w.granted - multiset{caller},
       system := system,
       guards := if elected then w.guards + [caller.guard] else w.guards,
       inputs := if elected then w.inputs + [caller.input] else w.inputs)
  }

  function Next(w: World, step: Step, env: Setup): World
    requires Enabled(w, step)
  {
    match step
    case Create(id) => w.(plane := w.plane[id := SessionRuns.Created(id)])
    case Transact(id, op) => w.(plane := w.plane[id := SessionRuns.Step(w.plane[id], op)])
    case Send(id, token) => w.(sent := w.sent + {LeaseOf(id, token)})
    case Renew(lease, now) => w.(registry := Authority.Granted(w.registry, lease, now))
    case Grant(id, input, lease, now) => Granted(w, id, input, lease, now)
    case Elect(caller) => Elected(w, caller, env)
    case Internal(inner) => w.(system := Dispatcher.Apply(w.system, inner, env.quotas))
    case Check(h, now) =>
      if w.guards[h].Guard? && Authority.ValidAt(w.registry, w.guards[h], now) then
        w.(effects := w.effects + [Effect(h, w.guards[h].session, w.guards[h].epoch)])
      else w
  }

  // ---- What every step keeps ----

  ghost predicate PlaneInv(plane: map<Uuid, SessionRuns.History>)
  {
    forall id :: id in plane ==>
      SessionRuns.OwnershipInv(plane[id]) && SessionRuns.FencedInv(plane[id]) && plane[id].session.id == id
  }

  /** The epoch was issued by the control plane. */
  ghost predicate Issued(plane: map<Uuid, SessionRuns.History>, id: Uuid, epoch: nat)
  {
    id in plane && epoch <= |plane[id].issued|
  }

  ghost predicate RegistryInv(w: World)
  {
    && (forall l :: l in w.sent ==> Issued(w.plane, l.session, l.epoch))
    && (forall id :: id in w.registry ==> w.registry[id].epoch > 0 && Issued(w.plane, id, w.registry[id].epoch))
  }

  /** The runner has granted this epoch or a later one. */
  ghost predicate Reached(registry: Authority.Registry, id: Uuid, epoch: nat)
  {
    epoch > 0 && id in registry && epoch <= registry[id].epoch
  }

  /** Guards of waiting callers and of executions alike; a guard may be superseded by now. */
  ghost predicate GuardsInv(w: World)
  {
    && |w.guards| == |w.system.tasks|
    && (forall c :: c in w.granted ==> c.guard.Guard? && Reached(w.registry, c.guard.session, c.guard.epoch))
    && (forall h :: 0 <= h < |w.guards| ==>
          w.guards[h].Guard? && Reached(w.registry, w.guards[h].session, w.guards[h].epoch))
  }

  /** Every execution's fingerprint is that of its own session and input. */
  ghost predicate InputsInv(w: World, env: Setup)
  {
    && |w.guards| == |w.inputs| == |w.system.tasks|
    && (forall h :: 0 <= h < |w.inputs| ==>
          && w.guards[h].Guard?
          && w.system.tasks[h].fingerprint == env.fingerprint(w.guards[h].session, w.inputs[h]))
  }

  ghost predicate EffectsInv(w: World)
  {
    && (forall i :: 0 <= i < |w.effects| ==>
          var e := w.effects[i];
          && e.handle < |w.guards| && w.guards[e.handle].Guard?
          && w.guards[e.handle].session == e.session && w.guards[e.handle].epoch == e.epoch
          && Reached(w.registry, e.session, e.epoch))
    && (forall i, j :: 0 <= i < j < |w.effects| && w.effects[i].session == w.effects[j].session ==>
          w.effects[i].epoch <= w.effects[j].epoch)
  }

  ghost predicate Inv(w: World, env: Setup)
  {
    && PlaneInv(w.plane) && RegistryInv(w) && GuardsInv(w) && EffectsInv(w)
    && Dispatcher.Inv(w.system, env.quotas) && InputsInv(w, env)
  }

  /** A transaction issues at most one more token and takes none back. */
  lemma TransactKeepsPlane(plane: map<Uuid, SessionRuns.History>, id: Uuid, op: SessionLog.Op)
    requires PlaneInv(plane) && id in plane
    ensures PlaneInv(plane[id := SessionRuns.Step(plane[id], op)])
    ensures plane[id].issued <= SessionRuns.Step(plane[id], op).issued
  {
    hide SessionLog.Apply, SessionRuns.OwnershipInv, SessionRuns.FencedInv;
    SessionRuns.StepKeepsOwnership(plane[id], op);
    SessionRuns.ApplyExtends(plane[id].session, op);
  }

  lemma CreatedInv(id: Uuid)
    ensures SessionRuns.OwnershipInv(SessionRuns.Created(id)) && SessionRuns.FencedInv(SessionRuns.Created(id))
  {
  }

  lemma GrantKeepsRegistry(w: World, lease: Lease, now: Authority.Instant)
    requires RegistryInv(w) && lease in w.sent
    ensures RegistryInv(w.(registry := Authority.Granted(w.registry, lease, now)))
    ensures forall id, e :: Reached(w.registry, id, e) ==> Reached(Authority.Granted(w.registry, lease, now), id, e)
    ensures Authority.Refusal(w.registry, lease).None? ==>
              Reached(Authority.Granted(w.registry, lease, now), lease.session, lease.epoch)
  {
  }

  lemma PlaneStepKeepsInv(w: World, step: Step, env: Setup)
    requires Inv(w, env) && Enabled(w, step) && (step.Create? || step.Transact?)
    ensures Inv(Next(w, step, env), env)
  {
    hide Dispatcher.Inv, SessionRuns.Step, SessionRuns.OwnershipInv, SessionRuns.FencedInv, Reached;
    var w' := Next(w, step, env);
    if step.Create? {
      CreatedInv(step.id);
    } else {
      TransactKeepsPlane(w.plane, step.id, step.op);
    }
    assert RegistryInv(w') by { hide GuardsInv, EffectsInv, PlaneInv; }
  }

  lemma SendKeepsInv(w: World, id: Uuid, token: SessionLog.Token, env: Setup)
    requires Inv(w, env) && Enabled(w, Send(id, token))
    ensures Inv(Next(w, Send(id, token), env), env)
  {
    hide Dispatcher.Inv, SessionRuns.FencedInv, Reached;
    var w' := Next(w, Send(id, token), env);
    assert SessionRuns.OwnershipInv(w.plane[id]);
    assert Issued(w.plane, id, token.epoch);
    assert RegistryInv(w') by { hide GuardsInv, EffectsInv, PlaneInv; }
  }

  lemma RenewKeepsInv(w: World, lease: Lease, now: Authority.Instant, env: Setup)
    requires Inv(w, env) && lease in w.sent
    ensures Inv(Next(w, Renew(lease, now), env), env)
  {
    hide Dispatcher.Inv, PlaneInv, RegistryInv, Authority.Granted, Authority.Refusal, Reached;
    GrantKeepsRegistry(w, lease, now);
  }

  /** The runner's inner steps neither elect nor forget an execution, nor change what it is of. */
  lemma InternalKeepsTasks(s: Dispatcher.System, step: Dispatcher.Step, q: Dispatcher.Quotas)
    requires !step.Dispatch? && Dispatcher.Enabled(s, step)
    ensures var tasks := Dispatcher.Apply(s, step, q).tasks;
            && |tasks| == |s.tasks|
            && forall h :: 0 <= h < |tasks| ==> tasks[h].fingerprint == s.tasks[h].fingerprint
  {
  }

  lemma DispatchElectsAtMostOne(s: Dispatcher.System, step: Dispatcher.Step, q: Dispatcher.Quotas)
    requires step.Dispatch?
    ensures var tasks := Dispatcher.Apply(s, step, q).tasks;
            && |s.tasks| <= |tasks| <= |s.tasks| + 1 && s.tasks <= tasks
            && (|tasks| > |s.tasks| ==> tasks[|s.tasks|].fingerprint == step.fingerprint)
  {
  }

  lemma GrantKeepsInv(w: World, id: Uuid, input: Input, lease: Lease, now: Authority.Instant, env: Setup)
    requires Inv(w, env) && lease in w.sent
    ensures Inv(Granted(w, id, input, lease, now), env)
  {
    hide PlaneInv, RegistryInv, Dispatcher.Inv, Authority.Granted, Authority.Refusal, Authority.NextGeneration, Reached;
    var w' := Granted(w, id, input, lease, now);
    if Authority.Refusal(w.registry, lease).Some? {
      return;
    }
    GrantKeepsRegistry(w, lease, now);
    RegistryInvIsLocal(w.(registry := Authority.Granted(w.registry, lease, now)), w');
    var caller := Caller(id, input, GuardFor(w.registry, lease, now));
    assert forall c :: c in w'.granted ==> c in w.granted || c == caller;
  }

  lemma ElectKeepsInv(w: World, caller: Caller, env: Setup)
    requires Inv(w, env) && caller in w.granted
    ensures Inv(Elected(w, caller, env), env)
  {
    hide PlaneInv, RegistryInv, Dispatcher.Inv, Dispatcher.Apply, Reached;
    var w' := Elected(w, caller, env);
    Dispatcher.StepKeepsInv(w.system, Asking(caller, env), env.quotas);
    DispatchElectsAtMostOne(w.system, Asking(caller, env), env.quotas);
    RegistryInvIsLocal(w, w');
    assert forall c :: c in w'.granted ==> c in w.granted;
  }

  lemma RegistryInvIsLocal(w: World, w': World)
    requires RegistryInv(w) && w'.plane == w.plane && w'.sent == w.sent && w'.registry == w.registry
    ensures RegistryInv(w')
  {
  }

  lemma CheckKeepsEffects(w: World, h: nat, now: Authority.Instant, env: Setup)
    requires EffectsInv(w) && GuardsInv(w) && Enabled(w, Check(h, now))
    ensures EffectsInv(Next(w, Check(h, now), env))
  {
    assert Reached(w.registry, w.guards[h].session, w.guards[h].epoch);
    forall i | 0 <= i < |w.effects|
      ensures w.effects[i].session == w.guards[h].session ==>
              w.effects[i].epoch <= w.registry[w.guards[h].session].epoch
    {
      assert Reached(w.registry, w.effects[i].session, w.effects[i].epoch);
    }
  }

  lemma StepKeepsInv(w: World, step: Step, env: Setup)
    requires Inv(w, env) && Enabled(w, step)
    ensures Inv(Next(w, step, env), env)
  {
    hide PlaneInv, Dispatcher.Inv, Dispatcher.Apply;
    match step
    case Grant(id, input, lease, now) => GrantKeepsInv(w, id, input, lease, now, env);
    case Elect(caller) => ElectKeepsInv(w, caller, env);
    case Internal(inner) =>
      Dispatcher.StepKeepsInv(w.system, inner, env.quotas);
      InternalKeepsTasks(w.system, inner, env.quotas);
    case Check(h, now) => CheckKeepsEffects(w, h, now, env);
    case Renew(lease, now) => RenewKeepsInv(w, lease, now, env);
    case Send(id, token) => SendKeepsInv(w, id, token, env);
    case _ => PlaneStepKeepsInv(w, step, env);
  }

  predicate CanRun(w: World, steps: seq<Step>, env: Setup)
    decreases |steps|
  {
    steps == [] || (Enabled(w, steps[0]) && CanRun(Next(w, steps[0], env), steps[1..], env))
  }

  function Run(w: World, steps: seq<Step>, env: Setup): World
    requires CanRun(w, steps, env)
    decreases |steps|
  {
    if steps == [] then w else Run(Next(w, steps[0], env), steps[1..], env)
  }

  lemma {:induction false} RunKeepsInv(w: World, steps: seq<Step>, env: Setup)
    requires Inv(w, env) && CanRun(w, steps, env)
    ensures Inv(Run(w, steps, env), env)
    decreases |steps|
  {
    hide Inv, Next, Enabled;
    if steps != [] {
      StepKeepsInv(w, steps[0], env);
      RunKeepsInv(Next(w, steps[0], env), steps[1..], env);
    }
  }

  lemma InitialInv(env: Setup)
    ensures Inv(INITIAL, env)
  {
    Dispatcher.InitialInv(env.quotas);
  }

  // ---- Main results ----

  /** The one owner an issued epoch belongs to. */
  function OwnerOf(plane: map<Uuid, SessionRuns.History>, id: Uuid, epoch: nat): SessionLog.Owner
    requires id in plane && 0 < epoch <= |plane[id].issued|
  {
    plane[id].issued[epoch - 1].owner
  }

  /** A guard some execution or some caller on its way to one holds. */
  ghost predicate Outstanding(w: World, g: Guard)
  {
    g in w.guards || exists c :: c in w.granted && c.guard == g
  }

  /**
   End-to-end fencing: however leases and requests are delayed, repeated, reordered or lost, every
   guard carries an issued epoch, and all guards of a session that are valid at one moment belong
   to the one owner that epoch was issued to.
   */
  lemma ValidGuardsShareOneOwner(steps: seq<Step>, env: Setup, g: Guard, h: Guard, now: Authority.Instant)
    requires CanRun(INITIAL, steps, env) && g.Guard? && h.Guard? && g.session == h.session
    requires var w := Run(INITIAL, steps, env);
             && Outstanding(w, g) && Outstanding(w, h)
             && Authority.ValidAt(w.registry, g, now) && Authority.ValidAt(w.registry, h, now)
    ensures var w := Run(INITIAL, steps, env);
            && g == h
            && g.session in w.plane && 0 < g.epoch <= |w.plane[g.session].issued|
            && (forall t :: t in w.plane[g.session].issued && t.epoch == g.epoch ==>
                              t.owner == OwnerOf(w.plane, g.session, g.epoch))
  {
    hide Run, CanRun;
    InitialInv(env);
    RunKeepsInv(INITIAL, steps, env);
    OneOwner(Run(INITIAL, steps, env), env, g, h, now);
  }

  lemma OneOwner(w: World, env: Setup, g: Guard, h: Guard, now: Authority.Instant)
    requires Inv(w, env) && g.Guard? && h.Guard? && g.session == h.session && Outstanding(w, g) && Outstanding(w, h)
    requires Authority.ValidAt(w.registry, g, now) && Authority.ValidAt(w.registry, h, now)
    ensures g == h && g.session in w.plane && 0 < g.epoch <= |w.plane[g.session].issued|
    ensures forall t :: t in w.plane[g.session].issued && t.epoch == g.epoch ==>
                          t.owner == OwnerOf(w.plane, g.session, g.epoch)
  {
    hide EffectsInv, Dispatcher.Inv, SessionRuns.FencedInv;
    var id, e := g.session, g.epoch;
    assert Reached(w.registry, id, e) && Issued(w.plane, id, w.registry[id].epoch);
    assert SessionRuns.OwnershipInv(w.plane[id]);
  }

  lemma {:induction false} RegistryEpochsGrow(w: World, steps: seq<Step>, env: Setup, id: Uuid)
    requires CanRun(w, steps, env) && id in w.registry
    ensures var r := Run(w, steps, env).registry; id in r && w.registry[id].epoch <= r[id].epoch
    decreases |steps|
  {
    hide Dispatcher.Apply, SessionRuns.Step;
    if steps != [] {
      RegistryEpochsGrow(Next(w, steps[0], env), steps[1..], env, id);
    }
  }

  /** Once the runner has granted a later epoch, no execution of an earlier one gets an effect through again. */
  lemma SupersededNeverActs(w: World, steps: seq<Step>, env: Setup, h: nat, now: Authority.Instant)
    requires CanRun(w, steps, env)
    requires var w' := Run(w, steps, env);
             && h < |w'.guards| && w'.guards[h].Guard? && Enabled(w', Check(h, now))
             && w'.guards[h].session in w.registry && w'.guards[h].epoch < w.registry[w'.guards[h].session].epoch
    ensures var w' := Run(w, steps, env); Next(w', Check(h, now), env) == w'
  {
    hide Run, CanRun;
    RegistryEpochsGrow(w, steps, env, Run(w, steps, env).guards[h].session);
  }

  /**
   Effects follow ownership: in the order they happen, a session's effects carry issued epochs that
   never decrease, and all effects of one request come from its single execution under one epoch.
   */
  lemma EffectsFollowOwnership(steps: seq<Step>, env: Setup, i: nat, j: nat)
    requires CanRun(INITIAL, steps, env) && i <= j < |Run(INITIAL, steps, env).effects|
    ensures var w := Run(INITIAL, steps, env);
            var (a, b) := (w.effects[i], w.effects[j]);
            && a.handle < |w.system.tasks| && b.handle < |w.system.tasks|
            && Issued(w.plane, a.session, a.epoch) && a.epoch > 0
            && (a.session == b.session ==> a.epoch <= b.epoch)
            && (w.system.tasks[a.handle].id == w.system.tasks[b.handle].id ==> a == b)
  {
    hide Run, CanRun;
    InitialInv(env);
    RunKeepsInv(INITIAL, steps, env);
    EffectOrder(Run(INITIAL, steps, env), env, i, j);
  }

  lemma EffectOrder(w: World, env: Setup, i: nat, j: nat)
    requires Inv(w, env) && i <= j < |w.effects|
    ensures var (a, b) := (w.effects[i], w.effects[j]);
            && a.handle < |w.system.tasks| && b.handle < |w.system.tasks|
            && Issued(w.plane, a.session, a.epoch) && a.epoch > 0
            && (a.session == b.session ==> a.epoch <= b.epoch)
            && (w.system.tasks[a.handle].id == w.system.tasks[b.handle].id ==> a == b)
  {
    hide PlaneInv, Dispatcher.HistoryInv, ResponseCache.Sound, Dispatcher.TaskKnown;
    var a, b := w.effects[i], w.effects[j];
    assert Reached(w.registry, a.session, a.epoch) && Issued(w.plane, a.session, w.registry[a.session].epoch);
    assert w.guards[a.handle].session == a.session && w.guards[b.handle].session == b.session;
    Dispatcher.DistinctIds(w.system.cache, w.system.tasks, a.handle);
  }

  /** Distinct sessions or inputs have distinct digests. */
  ghost predicate Injective(f: (Uuid, Input) -> ResponseCache.Fingerprint)
  {
    forall s, i, t, j :: f(s, i) == f(t, j) ==> s == t && i == j
  }

  /**
   Nobody is answered for somebody else: with digests that do not collide, a caller that asked for an
   input in a session and was answered got the response of an execution of that very input in that
   session.
   */
  lemma AnswersMatchRequests(steps: seq<Step>, env: Setup, i: nat, session: Uuid, input: Input)
    requires CanRun(INITIAL, steps, env) && Injective(env.fingerprint) && i < |Run(INITIAL, steps, env).system.answers|
    requires Run(INITIAL, steps, env).system.answers[i].fingerprint == env.fingerprint(session, input)
    ensures var w := Run(INITIAL, steps, env);
            && |w.guards| == |w.inputs| == |w.system.tasks|
            && exists h :: 0 <= h < |w.system.tasks| && Dispatcher.ProducedBy(w.system.tasks[h], w.system.answers[i])
                           && w.guards[h].Guard? && w.guards[h].session == session && w.inputs[h] == input
  {
    hide Run, CanRun;
    InitialInv(env);
    RunKeepsInv(INITIAL, steps, env);
    var w := Run(INITIAL, steps, env);
    assert Inv(w, env) && InputsInv(w, env);
    hide PlaneInv, RegistryInv, GuardsInv, EffectsInv, Dispatcher.TasksInv, ResponseCache.Sound;
    assert Dispatcher.Produced(w.system.tasks, w.system.answers[i]);
    var h :| 0 <= h < |w.system.tasks| && Dispatcher.ProducedBy(w.system.tasks[h], w.system.answers[i]);
    assert env.fingerprint(w.guards[h].session, w.inputs[h]) == env.fingerprint(session, input);
  }
}
