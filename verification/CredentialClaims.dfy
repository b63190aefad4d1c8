/**
 What a claim buys while it is held: refreshers and device-authorization workers exclude each other
 until a lease ends, and the provider is polled no faster than it asked (lib/kodo/integrations.ex).
 */
module CredentialClaims {
  import opened Prelude
  import opened Credentials
  import opened CredentialTables
  import opened CredentialRuns

  // ---- Refresh claims ----

  /** The claim a successful `claim_refresh` hands out. */
  function ClaimOf(db: Db, op: Op): RefreshClaim
    requires op.ClaimRefresh? && op.id in db.integrations
  {
    RefreshClaim(op.id, op.gen, op.owner, db.integrations[op.id].claimEpoch + 1)
  }

  ghost predicate HeldUntil(db: Db, c: RefreshClaim, end: Time)
  {
    RefreshMatches(db, c) && db.integrations[c.integration].leaseExpiresAt == Some(end)
  }

  /** The new claim is the only one on the row that matches, for thirty seconds. */
  lemma ClaimRefreshGrants(db: Db, op: Op, other: RefreshClaim)
    requires op.ClaimRefresh? && Apply(db, op).Ok?
    ensures op.id in db.integrations && HeldUntil(Apply(db, op).value, ClaimOf(db, op), op.now + 30_000)
    ensures RefreshMatches(Apply(db, op).value, other) && other.integration == op.id ==> other == ClaimOf(db, op)
  {
    hide HasLiveAttempt;
  }

  /** While a claim matches, its lease cannot change hands or length. */
  lemma LeaseStep(db: Db, op: Op, c: RefreshClaim, end: Time)
    requires HeldUntil(db, c, end) && Apply(db, op).Ok?
    ensures RefreshMatches(Apply(db, op).value, c) ==> HeldUntil(Apply(db, op).value, c, end)
  {
    hide AnyActive, Accounts, NextAttemptGeneration, HasLiveAttempt, DeviceClaimable, DeviceHeld, Superseded, Touched;
  }

  /** A claim from the past either matches with its lease, or is gone for good. */
  ghost predicate HeldOrGone(db: Db, c: RefreshClaim, end: Time) { HeldUntil(db, c, end) || RefreshGone(db, c) }

  lemma {:induction false} HeldOrGoneForever(w: World, ops: seq<Op>, c: RefreshClaim, end: Time)
    requires Inv(w) && FreshRun(w, ops) && HeldOrGone(w.db, c, end)
    ensures HeldOrGone(Run(w, ops).db, c, end)
    decreases |ops|
  {
    hide Apply, Inv, FreshId, Facts, RefreshGone, RefreshMatches;
    if ops != [] {
      StepKeepsInv(w, ops[0]);
      if Apply(w.db, ops[0]).Ok? {
        HeldOrGoneStep(w, ops[0], c, end);
      }
      HeldOrGoneForever(Step(w, ops[0]), ops[1..], c, end);
    }
  }

  lemma HeldOrGoneStep(w: World, op: Op, c: RefreshClaim, end: Time)
    requires Inv(w) && HeldOrGone(w.db, c, end) && Apply(w.db, op).Ok?
    ensures HeldOrGone(Apply(w.db, op).value, c, end)
  {
    hide Apply, Inv;
    InvTables(w);
    ApplyKeeps(w.db, op);
    var db' := Apply(w.db, op).value;
    if RefreshGone(w.db, c) {
      RefreshGoneStep(w.db, db', c);
    } else {
      LeaseStep(w.db, op, c, end);
      hide Tables;
      assert RowStep(w.db.integrations[c.integration], db'.integrations[c.integration]);
    }
  }

  /**
   Exclusive refresh: as long as a claim still matches, whatever else has committed, no other refresh
   of that integration is admitted before thirty seconds have passed.
   */
  lemma RefreshIsExclusive(w: World, op: Op, ops: seq<Op>, rival: Op)
    requires Inv(w) && op.ClaimRefresh? && Apply(w.db, op).Ok? && op.id in w.db.integrations
    requires FreshRun(Step(w, op), ops) && RefreshMatches(Run(Step(w, op), ops).db, ClaimOf(w.db, op))
    requires rival.ClaimRefresh? && rival.id == op.id && rival.now < op.now + 30_000
    ensures Apply(Run(Step(w, op), ops).db, rival).Err?
  {
    var c := ClaimOf(w.db, op);
    ClaimRefreshGrants(w.db, op, c);
    StepKeepsInv(w, op);
    hide Inv, Run, FreshRun, HasLiveAttempt, Facts;
    HeldOrGoneForever(Step(w, op), ops, c, op.now + 30_000);
  }

  /** What never changes about an attempt, as long as it is stored. */
  ghost predicate Remains(w: World, a: Uuid, t: Attempt)
  {
    && a in w.used
    && (a in w.db.attempts ==>
          && w.db.attempts[a].integration == t.integration && w.db.attempts[a].deadline == t.deadline)
  }

  lemma {:induction false} RemainsForever(w: World, ops: seq<Op>, a: Uuid, t: Attempt)
    requires Inv(w) && FreshRun(w, ops) && Remains(w, a, t)
    ensures Remains(Run(w, ops), a, t)
    decreases |ops|
  {
    hide Inv, Step, Remains;
    if ops != [] {
      StepKeepsInv(w, ops[0]);
      RemainsStep(w, ops[0], a, t);
      RemainsForever(Step(w, ops[0]), ops[1..], a, t);
    }
  }

  lemma RemainsStep(w: World, op: Op, a: Uuid, t: Attempt)
    requires Inv(w) && FreshId(w, op) && Remains(w, a, t)
    ensures Remains(Step(w, op), a, t)
  {
    hide Apply, Inv, Facts, Tables, RowsStep;
    if Apply(w.db, op).Ok? {
      InvTables(w);
      ApplyKeeps(w.db, op);
      var db' := Apply(w.db, op).value;
      if a in db'.attempts {
        if a in w.db.attempts {
          assert AttemptStep(w.db.attempts[a], db'.attempts[a]);
        } else {
          NewAttempt(w.db, op, a);
        }
      }
    }
  }

  /** No refresh is admitted while an authorization of the integration is active and before its deadline. */
  lemma LiveAttemptBlocksRefresh(db: Db, a: Uuid, op: Op)
    requires op.ClaimRefresh? && a in db.attempts && db.attempts[a].integration == op.id
    requires db.attempts[a].state == Active && op.now < db.attempts[a].deadline
    ensures Apply(db, op).Err?
  {
    assert HasLiveAttempt(db, op.id, op.now);
  }

  /**
   A device authorization shuts refreshes out: after any run, as long as it has not ended, none is
   admitted for fifteen minutes.
   */
  lemma AuthorizationBlocksRefresh(w: World, op: Op, ops: seq<Op>, rival: Op)
    requires Inv(w) && FreshId(w, op) && op.BeginDevice? && Apply(w.db, op).Ok? && FreshRun(Step(w, op), ops)
    requires var db := Run(Step(w, op), ops).db; op.attempt in db.attempts && db.attempts[op.attempt].state == Active
    requires rival.ClaimRefresh? && rival.id == op.id && rival.now < op.now + 900_000
    ensures Apply(Run(Step(w, op), ops).db, rival).Err?
  {
    var begun := Apply(w.db, op).value.attempts[op.attempt];
    assert begun.integration == op.id && begun.deadline == op.now + 900_000
      && Remains(Step(w, op), op.attempt, begun) by {
      hide Inv, NextAttemptGeneration, SelectionIntent, Facts, Superseded;
    }
    hide Inv, Run, FreshRun, Apply, Step;
    StepKeepsInv(w, op);
    RemainsForever(Step(w, op), ops, op.attempt, begun);
    LiveAttemptBlocksRefresh(Run(Step(w, op), ops).db, op.attempt, rival);
  }

  // ---- Device claims ----

  /**
   A successful device claim takes over exactly one attempt, the integration's only active one, and
   its claim matches; no attempt whose lease is still running changes hands.
   */
  lemma ClaimDeviceGrantsOne(db: Db, op: Op) returns (a: Uuid)
    requires Tables(db) && op.ClaimDevice? && Apply(db, op).Ok?
    ensures a in db.attempts && db.attempts[a].integration == op.id
    ensures db.attempts[a].claimLease.Some? ==> db.attempts[a].claimLease.value <= op.now
    ensures Apply(db, op).value.integrations == db.integrations
    ensures var t := db.attempts[a];
            && Apply(db, op).value.attempts ==
                 db.attempts[a := t.(claimOwner := Some(op.owner), claimEpoch := t.claimEpoch + 1,
                                     claimLease := Some(op.now + 30_000))]
            && DeviceMatches(Apply(db, op).value, DeviceClaim(op.id, a, t.generation, op.owner, t.claimEpoch + 1))
  {
    hide RowOk, OneActiveAccount;
    a :| a in db.attempts && DeviceClaimable(db, op.user, op.id, db.attempts[a], op.now);
    assert AttemptOk(db.attempts[a]);
    assert forall b :: b in db.attempts && b != a ==> !DeviceClaimable(db, op.user, op.id, db.attempts[b], op.now);
  }

  /** Only the holder can renew, poll, store, exchange, fail or complete; all but completing need lease and deadline. */
  lemma OnlyTheHolderActs(db: Db, op: Op)
    requires op.TouchDevice? || op.FailDevice? || op.CompleteDevice?
    requires Apply(db, op).Ok?
    ensures var c := op.device;
            c.attempt in db.attempts && DeviceMatches(db, c.(integration := db.attempts[c.attempt].integration))
    ensures var a := db.attempts[op.device.attempt];
            a.user == op.user && (op.CompleteDevice? ||
              (a.claimLease.Some? && op.now < a.claimLease.value && op.now < a.deadline))
  {
    hide AnyActive;
  }

  /**
   A worker that lost its claim - to a takeover, to the end of the attempt, or to a move of the
   generation - can do nothing with it any more, after any run.
   */
  lemma LostClaimNeverActs(w: World, ops: seq<Op>, c: DeviceClaim, op: Op)
    requires Inv(w) && FreshRun(w, ops) && DeviceGone(w, c)
    requires c.attempt in w.db.attempts ==> w.db.attempts[c.attempt].integration == c.integration
    requires (op.TouchDevice? || op.FailDevice? || op.CompleteDevice?) && op.device == c
    ensures Apply(Run(w, ops).db, op).Err?
  {
    DeviceGoneForever(w, ops, c);
    hide Inv, Run, FreshRun, Apply, DeviceMatches;
    if c.attempt in w.db.attempts {
      RemainsForever(w, ops, c.attempt, w.db.attempts[c.attempt]);
    } else {
      NeverStoredAgain(w, ops, c.attempt);
    }
    if Apply(Run(w, ops).db, op).Ok? {
      OnlyTheHolderActs(Run(w, ops).db, op);
    }
  }

  /** The id of a deleted attempt is not used again. */
  lemma {:induction false} NeverStoredAgain(w: World, ops: seq<Op>, a: Uuid)
    requires FreshRun(w, ops) && a in w.used && a !in w.db.attempts
    ensures a in Run(w, ops).used && a !in Run(w, ops).db.attempts
    decreases |ops|
  {
    hide Apply, Facts;
    if ops != [] {
      if Apply(w.db, ops[0]).Ok? && a in Apply(w.db, ops[0]).value.attempts {
        NewAttempt(w.db, ops[0], a);
      }
      NeverStoredAgain(Step(w, ops[0]), ops[1..], a);
    }
  }

  /** The same for a refresher: a lost claim can neither release the row nor demand reauthorization. */
  lemma LostRefreshNeverActs(w: World, ops: seq<Op>, c: RefreshClaim, op: Op)
    requires Inv(w) && FreshRun(w, ops) && RefreshGone(w.db, c)
    requires (op.ReleaseRefresh? || op.RequireReauthorization?) && op.refresh == c
    ensures Apply(Run(w, ops).db, op) == Err(StaleRefreshClaim)
  {
    RefreshGoneForever(w, ops, c);
  }

  // ---- Polling ----

  /** Every transaction from here on reads a clock that has not gone back before `t`. */
  predicate NotBefore(op: Op, t: Time) { op.TouchDevice? ==> t <= op.now }

  /** Until the attempt is gone, its next poll is not due before `due`, and its interval is fixed. */
  ghost predicate NotDueBefore(w: World, a: Uuid, interval: nat, due: Time)
  {
    && a in w.used
    && (a in w.db.attempts ==> w.db.attempts[a].pollInterval == interval && due <= w.db.attempts[a].nextPollAt)
  }

  lemma PollStep(w: World, op: Op, a: Uuid, interval: nat, t: Time)
    requires NotDueBefore(w, a, interval, t + interval) && FreshId(w, op) && NotBefore(op, t)
    ensures NotDueBefore(Step(w, op), a, interval, t + interval)
  {
    hide AnyActive, Accounts, NextAttemptGeneration, HasLiveAttempt, DeviceClaimable, SelectionIntent, WithCredentials;
  }

  lemma {:induction false} NotDueForLong(w: World, ops: seq<Op>, a: Uuid, interval: nat, t: Time)
    requires NotDueBefore(w, a, interval, t + interval) && FreshRun(w, ops)
    requires forall i :: 0 <= i < |ops| ==> NotBefore(ops[i], t)
    ensures NotDueBefore(Run(w, ops), a, interval, t + interval)
    decreases |ops|
  {
    hide Step, FreshId, NotDueBefore, NotBefore;
    if ops != [] {
      PollStep(w, ops[0], a, interval, t);
      NotDueForLong(Step(w, ops[0]), ops[1..], a, interval, t);
    }
  }

  /**
   Polls respect the provider's interval: between two admitted polls of an attempt, by whichever
   workers and whatever committed in between, at least the polling interval passes.
   */
  lemma PollsRespectInterval(w: World, first: Op, ops: seq<Op>, second: Op)
    requires Inv(w) && first.TouchDevice? && first.touch == AdmitPoll && Apply(w.db, first).Ok?
    requires FreshRun(Step(w, first), ops) && forall i :: 0 <= i < |ops| ==> NotBefore(ops[i], first.now)
    requires second.TouchDevice? && second.touch == AdmitPoll && second.device.attempt == first.device.attempt
    requires Apply(Run(Step(w, first), ops).db, second).Ok? && first.device.attempt in w.db.attempts
    ensures first.now + w.db.attempts[first.device.attempt].pollInterval <= second.now
  {
    var a := first.device.attempt;
    var interval := w.db.attempts[a].pollInterval;
    InvTables(w);
    assert NotDueBefore(Step(w, first), a, interval, first.now + interval);
    hide Inv, Step, Run, FreshRun, Facts;
    NotDueForLong(Step(w, first), ops, a, interval, first.now);
  }
}
