/** Runner-enforced leases for session ownership (crates/kodo/src/authority.rs). */
module Authority {
  import opened Prelude

  /** Milliseconds on the runner's monotonic clock. */
  type Instant = nat

  const MAX_AUTHORITY_LEASE_MS: nat := 15_000

  datatype Lease = Lease(session: Uuid, epoch: U64, ttl: U64)

  datatype LeaseState = LeaseState(epoch: U64, generation: U64, expiresAt: Instant)

  datatype Guard = Unmanaged | Guard(session: Uuid, epoch: U64, generation: U64)

  datatype AuthorityError = InvalidEpoch | InvalidTtl | Stale(current: U64) | Lost

  type Registry = map<Uuid, LeaseState>

  function WrappingSucc(n: U64): U64 { (n + 1) % U64_SIZE }

  /** Why a grant is refused, if it is. */
  function Refusal(sessions: Registry, lease: Lease): (e: Option<AuthorityError>)
  {
    if lease.epoch == 0 then Some(InvalidEpoch)
    else if lease.ttl == 0 || lease.ttl > MAX_AUTHORITY_LEASE_MS then Some(InvalidTtl)
    else if lease.session in sessions && lease.epoch < sessions[lease.session].epoch then
      Some(Stale(sessions[lease.session].epoch))
    else None
  }

  /** A renewal in time keeps the generation; anything else starts a new one. */
  predicate Renews(sessions: Registry, lease: Lease, now: Instant)
  {
    && lease.session in sessions
    && sessions[lease.session].epoch == lease.epoch
    && now < sessions[lease.session].expiresAt
  }

  function NextGeneration(sessions: Registry, lease: Lease, now: Instant): U64
  {
    if Renews(sessions, lease, now) then sessions[lease.session].generation
    else if lease.session in sessions then WrappingSucc(sessions[lease.session].generation)
    else 0
  }

  /** The registry after a grant whose clock was read at `now`; refused grants change nothing. */
  function Granted(sessions: Registry, lease: Lease, now: Instant): (sessions': Registry)
  {
    if Refusal(sessions, lease).Some? then sessions
    else sessions[lease.session := LeaseState(lease.epoch, NextGeneration(sessions, lease, now), now + lease.ttl)]
  }

  predicate Matches(sessions: Registry, g: Guard)
    requires g.Guard?
  {
    && g.session in sessions
    && sessions[g.session].epoch == g.epoch
    && sessions[g.session].generation == g.generation
  }

  predicate ValidAt(sessions: Registry, g: Guard, now: Instant)
  {
    g.Unmanaged? || (Matches(sessions, g) && now < sessions[g.session].expiresAt)
  }

  class AuthorityRegistry {
    var sessions: Registry

    constructor ()
      ensures sessions == map[]
    {
      sessions := map[];
    }

    /** A successful grant returns a guard that is valid from the moment of its clock reading. */
    method Grant(lease: Lease, now: Instant) returns (r: Result<Guard, AuthorityError>)
      modifies this
      ensures sessions == Granted(old(sessions), lease, now)
      ensures r.Err? <==> Refusal(old(sessions), lease).Some?
      ensures r.Err? ==> Refusal(old(sessions), lease) == Some(r.error)
      ensures r == Err(InvalidEpoch) <==> lease.epoch == 0
      ensures r == Err(InvalidTtl) <==> lease.epoch > 0 && !(0 < lease.ttl <= 15_000)
      ensures r.Err? && r.error.Stale? <==>
                && lease.epoch > 0 && 0 < lease.ttl <= 15_000
                && lease.session in old(sessions) && lease.epoch < old(sessions)[lease.session].epoch
      ensures r.Ok? <==>
                && lease.epoch > 0 && 0 < lease.ttl <= 15_000
                && (lease.session in old(sessions) ==> old(sessions)[lease.session].epoch <= lease.epoch)
      ensures forall s :: s != lease.session ==>
                (s in sessions <==> s in old(sessions)) && (s in sessions ==> sessions[s] == old(sessions)[s])
      ensures r.Ok? ==> r.value.Guard? && r.value.session == lease.session && r.value.epoch == lease.epoch
      ensures r.Ok? ==> forall t: Instant :: ValidAt(sessions, r.value, t) <==> t < now + lease.ttl
    {
      if lease.epoch == 0 {
        return Err(InvalidEpoch);
      }
      if lease.ttl == 0 || lease.ttl > MAX_AUTHORITY_LEASE_MS {
        return Err(InvalidTtl);
      }
      var generation: U64 := 0;
      if lease.session in sessions {
        var state := sessions[lease.session];
        if lease.epoch < state.epoch {
          return Err(Stale(state.epoch));
        }
        generation := if state.epoch == lease.epoch && state.expiresAt > now then state.generation
                      else WrappingSucc(state.generation);
      }
      sessions := sessions[lease.session := LeaseState(lease.epoch, generation, now + lease.ttl)];
      r := Ok(Guard(lease.session, lease.epoch, generation));
    }

    method EnsureValid(g: Guard, now: Instant) returns (r: Result<(), AuthorityError>)
      ensures r == if ValidAt(sessions, g, now) then Ok(()) else Err(Lost)
    {
      if g.Unmanaged? {
        return Ok(());
      }
      var valid := false;
      if g.session in sessions {
        var state := sessions[g.session];
        valid := state.epoch == g.epoch && state.generation == g.generation && state.expiresAt > now;
      }
      r := if valid then Ok(()) else Err(Lost);
    }
  }

  // ---- Runs of grants ----

  /** A grant call: its clock was read at `read`, and it took the registry lock at `at`. */
  datatype Call = Call(lease: Lease, read: Instant, at: Instant)

  function Run(sessions: Registry, calls: seq<Call>): (sessions': Registry)
  {
    if calls == [] then sessions
    else
      var before := Run(sessions, calls[..|calls| - 1]);
      var last := calls[|calls| - 1];
      Granted(before, last.lease, last.read)
  }

  /** Ownership epochs only grow, whatever the clock readings. */
  lemma {:induction false} EpochsGrow(sessions: Registry, calls: seq<Call>, s: Uuid)
    requires s in sessions
    ensures s in Run(sessions, calls) && sessions[s].epoch <= Run(sessions, calls)[s].epoch
  {
    if calls != [] {
      EpochsGrow(sessions, calls[..|calls| - 1], s);
    }
  }

  /**
   Supersession: once the runner holds a newer epoch for a session, no guard of an older one ever
   passes a validity check again.
   */
  lemma SupersededForever(sessions: Registry, calls: seq<Call>, g: Guard, now: Instant)
    requires g.Guard? && g.session in sessions && g.epoch < sessions[g.session].epoch
    ensures !ValidAt(Run(sessions, calls), g, now)
  {
    EpochsGrow(sessions, calls, g.session);
  }

  // ---- Chains of renewals ----

  /** The grants for `s` that succeeded, oldest first. */
  function Effective(calls: seq<Call>, s: Uuid): (grants: seq<Call>)
  {
    if calls == [] then []
    else
      var before := calls[..|calls| - 1];
      var last := calls[|calls| - 1];
      if last.lease.session == s && Refusal(Run(map[], before), last.lease).None? then
        Effective(before, s) + [last]
      else Effective(before, s)
  }

  function ExpiryOf(c: Call): Instant { c.read + c.lease.ttl }

  /** `b` renews `a`: same epoch, granted before `a` expires. */
  predicate Continues(a: Call, b: Call) { a.lease.epoch == b.lease.epoch && b.read < ExpiryOf(a) }

  /** How many grants among the first `n` did not continue their predecessor. */
  function Breaks(grants: seq<Call>): (n: nat)
  {
    if |grants| <= 1 then 0
    else
      Breaks(grants[..|grants| - 1])
      + (if Continues(grants[|grants| - 2], grants[|grants| - 1]) then 0 else 1)
  }

  /** The registry entry is determined by the effective grants. */
  lemma {:induction false} EntryOfGrants(calls: seq<Call>, s: Uuid)
    ensures var grants, sessions := Effective(calls, s), Run(map[], calls);
            && (s in sessions <==> grants != [])
            && (grants != [] ==>
                  var last := grants[|grants| - 1];
                  sessions[s] == LeaseState(last.lease.epoch, Breaks(grants) % U64_SIZE, ExpiryOf(last)))
            && (forall i :: 0 <= i < |grants| ==>
                  grants[i].lease.session == s && grants[i].lease.ttl <= MAX_AUTHORITY_LEASE_MS)
  {
    if calls != [] {
      var before, last := calls[..|calls| - 1], calls[|calls| - 1];
      EntryOfGrants(before, s);
      var grants := Effective(before, s);
      if last.lease.session == s && Refusal(Run(map[], before), last.lease).None? {
        assert Effective(calls, s)[..|grants|] == grants;
        if grants != [] {
          SuccOfRemainder(Breaks(grants));
        }
      }
    }
  }

  lemma SuccOfRemainder(n: nat)
    ensures (n + 1) % U64_SIZE == (n % U64_SIZE + 1) % U64_SIZE
  {
  }

  /** The guard handed out by the k-th effective grant. */
  function GuardOf(grants: seq<Call>, k: nat): Guard
    requires k < |grants|
  {
    Guard(grants[k].lease.session, grants[k].lease.epoch, Breaks(grants[..k + 1]) % U64_SIZE)
  }

  /** Consecutive grants from the k-th to the last form an unbroken chain. */
  ghost predicate Unbroken(grants: seq<Call>, k: nat)
  {
    forall i :: k <= i < |grants| - 1 ==> Continues(grants[i], grants[i + 1])
  }

  lemma {:induction false} BreaksCountTheGaps(grants: seq<Call>, k: nat)
    requires k < |grants|
    ensures Breaks(grants[..k + 1]) <= Breaks(grants)
    ensures Unbroken(grants, k) <==> Breaks(grants[..k + 1]) == Breaks(grants)
    decreases |grants|
  {
    if k == |grants| - 1 {
      assert grants[..k + 1] == grants;
    } else {
      var shorter := grants[..|grants| - 1];
      BreaksCountTheGaps(shorter, k);
      assert shorter[..k + 1] == grants[..k + 1];
      if Unbroken(shorter, k) && Continues(grants[|grants| - 2], grants[|grants| - 1]) {
        forall i | k <= i < |grants| - 1
          ensures Continues(grants[i], grants[i + 1])
        {
          if i < |shorter| - 1 { assert Continues(shorter[i], shorter[i + 1]); }
        }
      }
      if Unbroken(grants, k) {
        forall i | k <= i < |shorter| - 1
          ensures Continues(shorter[i], shorter[i + 1])
        {
          assert Continues(grants[i], grants[i + 1]);
        }
      }
    }
  }

  /**
   Lease chain: while fewer than 2^64 generations have started, a guard is valid exactly when the
   grants since its own form an unbroken chain of renewals in its epoch and the newest has not
   expired - so it is less than fifteen seconds old.
   */
  lemma LeaseChain(calls: seq<Call>, s: Uuid, k: nat, now: Instant)
    requires k < |Effective(calls, s)|
    requires Breaks(Effective(calls, s)) < U64_SIZE
    ensures var grants := Effective(calls, s);
            var newest := grants[|grants| - 1];
            && (ValidAt(Run(map[], calls), GuardOf(grants, k), now)
                <==> Unbroken(grants, k) && now < ExpiryOf(newest))
            && (now < ExpiryOf(newest) ==> now < newest.read + MAX_AUTHORITY_LEASE_MS)
  {
    hide Run, Effective, Breaks;
    var grants := Effective(calls, s);
    EntryOfGrants(calls, s);
    BreaksCountTheGaps(grants, k);
    if Unbroken(grants, k) {
      SameEpoch(grants, k);
    }
  }

  lemma {:induction false} SameEpoch(grants: seq<Call>, k: nat)
    requires k < |grants| && Unbroken(grants, k)
    ensures grants[|grants| - 1].lease.epoch == grants[k].lease.epoch
    decreases |grants| - k
  {
    if k < |grants| - 1 {
      assert Continues(grants[k], grants[k + 1]);
      SameEpoch(grants, k + 1);
    }
  }

  lemma {:induction false} EffectiveGrows(calls: seq<Call>, more: seq<Call>, s: Uuid)
    ensures Effective(calls, s) <= Effective(calls + more, s)
    ensures forall i :: |Effective(calls, s)| <= i < |Effective(calls + more, s)| ==>
            Effective(calls + more, s)[i] in more
    decreases |more|
  {
    if more == [] {
      assert calls + [] == calls;
    } else {
      var shorter := more[..|more| - 1];
      EffectiveGrows(calls, shorter, s);
      assert (calls + more)[..|calls + more| - 1] == calls + shorter;
    }
  }

  /**
   When every grant after `t` also reads its clock after `t` - grants being one step at their clock
   reading - a guard that is invalid at `t` is never valid again.
   */
  lemma LapsedForever(calls: seq<Call>, more: seq<Call>, s: Uuid, k: nat, t: Instant, now: Instant)
    requires k < |Effective(calls, s)| && t <= now
    requires forall i :: 0 <= i < |more| ==> t <= more[i].read
    requires Breaks(Effective(calls + more, s)) < U64_SIZE
    requires !ValidAt(Run(map[], calls), GuardOf(Effective(calls, s), k), t)
    ensures !ValidAt(Run(map[], calls + more), GuardOf(Effective(calls, s), k), now)
  {
    hide Run, Effective, Breaks, ValidAt;
    var grants, grants' := Effective(calls, s), Effective(calls + more, s);
    EffectiveGrows(calls, more, s);
    assert grants'[..|grants|] == grants && grants'[..k + 1] == grants[..k + 1];
    BreaksCountTheGaps(grants', |grants| - 1);
    assert Unbroken(grants', k) && |grants'| > |grants| ==> Continues(grants'[|grants| - 1], grants'[|grants|]);
    LeaseChain(calls, s, k, t);
    LeaseChain(calls + more, s, k, now);
    if Unbroken(grants', k) {
      assert forall i :: 0 <= i < |grants| ==> grants'[i] == grants[i];
      assert Unbroken(grants, k) by {
        forall i | k <= i < |grants| - 1
          ensures Continues(grants[i], grants[i + 1])
        {
          assert Continues(grants'[i], grants'[i + 1]);
        }
      }
    }
  }

  // ---- The clock is read before the lock is taken ----

  lemma UnbrokenSplits(grants: seq<Call>, longer: seq<Call>, k: nat)
    requires k < |grants| && grants <= longer
    ensures Unbroken(longer, k) <==> Unbroken(grants, k) && Unbroken(longer, |grants| - 1)
  {
    assert forall i :: 0 <= i < |grants| ==> longer[i] == grants[i];
    if Unbroken(longer, k) {
      forall i | k <= i < |grants| - 1
        ensures Continues(grants[i], grants[i + 1])
      {
        assert Continues(longer[i], longer[i + 1]);
      }
    }
    if Unbroken(grants, k) && Unbroken(longer, |grants| - 1) {
      forall i | k <= i < |longer| - 1
        ensures Continues(longer[i], longer[i + 1])
      {
        if i < |grants| - 1 { assert Continues(grants[i], grants[i + 1]); }
      }
    }
  }

  /**
   Over any run, a guard found invalid at `t` is valid again later exactly when its chain had merely
   expired, and the grants since renewed it without a gap up to one that is unexpired now - which
   takes a first grant that read its clock before that expiry and got the lock only after `t`.
   */
  lemma RevivedExactlyWhen(calls: seq<Call>, more: seq<Call>, s: Uuid, k: nat, t: Instant, now: Instant)
    requires k < |Effective(calls, s)| && t <= now
    requires Breaks(Effective(calls + more, s)) < U64_SIZE
    requires !ValidAt(Run(map[], calls), GuardOf(Effective(calls, s), k), t)
    ensures Effective(calls, s) <= Effective(calls + more, s)
    ensures var (grants, grants') := (Effective(calls, s), Effective(calls + more, s));
            ValidAt(Run(map[], calls + more), GuardOf(grants, k), now) <==>
              && Unbroken(grants, k) && ExpiryOf(grants[|grants| - 1]) <= t
              && |grants| < |grants'| && Unbroken(grants', |grants| - 1)
              && now < ExpiryOf(grants'[|grants'| - 1])
    ensures var (grants, grants') := (Effective(calls, s), Effective(calls + more, s));
            ValidAt(Run(map[], calls + more), GuardOf(grants, k), now) ==>
              grants'[|grants|] in more && grants'[|grants|].read < ExpiryOf(grants[|grants| - 1]) <= t
  {
    hide Run, Effective, Breaks, ValidAt;
    var grants, grants' := Effective(calls, s), Effective(calls + more, s);
    EffectiveGrows(calls, more, s);
    assert grants'[..|grants|] == grants && grants'[..k + 1] == grants[..k + 1];
    BreaksCountTheGaps(grants', |grants| - 1);
    LeaseChain(calls, s, k, t);
    LeaseChain(calls + more, s, k, now);
    UnbrokenSplits(grants, grants', k);
    assert |grants'| == |grants| ==> grants' == grants;
    assert Unbroken(grants', |grants| - 1) && |grants'| > |grants| ==>
      Continues(grants'[|grants| - 1], grants'[|grants|]);
  }

  /**
   When a matching guard has lapsed by the time `at` a grant takes the lock, the grant revives it
   exactly when it is for the same session and epoch and its clock was read before the expiry.
   */
  lemma StaleReadingRevives(sessions: Registry, g: Guard, c: Call, now: Instant)
    requires g.Guard? && Matches(sessions, g)
    requires c.read <= c.at <= now < ExpiryOf(c) && sessions[g.session].expiresAt <= c.at
    requires Refusal(sessions, c.lease).None?
    ensures !ValidAt(sessions, g, c.at)
    ensures ValidAt(Granted(sessions, c.lease, c.read), g, now) <==>
              && c.lease.session == g.session
              && c.lease.epoch == g.epoch
              && c.read < sessions[g.session].expiresAt
  {
  }

  /** A concrete interleaving in which a guard found lost at 12 ms is valid again at 13 ms. */
  lemma RevivalHappens()
    ensures var calls := [Call(Lease(7, 1, 12), 0, 0), Call(Lease(7, 1, 15_000), 10, 13)];
            var g := Guard(7, 1, 0);
            && !ValidAt(Run(map[], calls[..1]), g, 12)
            && ValidAt(Run(map[], calls), g, 13)
  {
    var calls := [Call(Lease(7, 1, 12), 0, 0), Call(Lease(7, 1, 15_000), 10, 13)];
    assert calls[..1][..0] == [] && calls[..1][0] == calls[0];
    assert Run(map[], calls[..1]) == map[7 := LeaseState(1, 0, 12)];
  }
}
