/**
 What every credential transaction keeps: the table constraints, the unique indexes and the order of
 generations and claim epochs (lib/kodo/integrations.ex, priv/repo/structure.sql).
 */
module CredentialTables {
  import opened Prelude
  import opened Credentials

  // ---- Constraints ----

  /** The `provider_integrations_state_valid` constraint. */
  predicate StateValid(r: Integration)
  {
    match r.connection
    case Disconnected =>
      && r.validation == Unverified && r.credentials == None && r.expiresAt == None
      && r.validatedAt == None && r.refreshedAt == None && r.errorCode == None
    case Connected => r.credentials.Some?
    case ReauthorizationRequired => r.validation == Unverified && r.credentials.Some?
  }

  predicate RefreshClaimValid(r: Integration)
  {
    && r.claimOwner.Some? == r.claimGeneration.Some? == r.leaseExpiresAt.Some?
    && (r.claimOwner.Some? ==> r.connection != Disconnected && r.claimEpoch > 0)
    && (r.claimGeneration.Some? ==> r.claimGeneration.value <= r.generation)
  }

  predicate RowOk(r: Integration)
  {
    && (r.active ==> r.connection == Connected)
    && (r.provider == OpenAICodex <==> r.auth == OAuth)
    && RefreshClaimValid(r)
    && StateValid(r)
  }

  /** An active attempt has a payload and a whole claim or none; a finished one holds nothing. */
  predicate AttemptOk(a: Attempt)
  {
    && a.generation > 0 && a.provider == OpenAICodex && a.pollInterval <= MAX_POLL_INTERVAL_MS
    && a.claimOwner.Some? == a.claimLease.Some?
    && (if a.state == Active then a.payload.Some? && a.errorCode.None? else a.payload.None? && a.claimOwner.None?)
  }

  /** The foreign key (integration, user, provider), and no attempt is ahead of its integration. */
  ghost predicate Linked(db: Db, a: Attempt)
  {
    && a.integration in db.integrations
    && Sibling(db.integrations[a.integration], a.user, a.provider)
    && a.expected <= db.integrations[a.integration].generation
  }

  ghost predicate OneActiveAccount(rows: map<Uuid, Integration>)
  {
    forall i, j ::
      (i in rows && j in rows && rows[i].active && rows[j].active
       && Sibling(rows[i], rows[j].user, rows[j].provider)) ==> i == j
  }

  ghost predicate OneActiveAttempt(attempts: map<Uuid, Attempt>)
  {
    forall a, b :: a in attempts && b in attempts && attempts[a].integration == attempts[b].integration && a != b ==>
      attempts[a].generation != attempts[b].generation && !(attempts[a].state == Active && attempts[b].state == Active)
  }

  ghost predicate Tables(db: Db)
  {
    && (forall i :: i in db.integrations ==> RowOk(db.integrations[i]))
    && (forall a :: a in db.attempts ==> AttemptOk(db.attempts[a]) && Linked(db, db.attempts[a]))
    && OneActiveAccount(db.integrations)
    && OneActiveAttempt(db.attempts)
  }

  // ---- How rows may change ----

  /** Identity is fixed, counters never decrease, and within a claim epoch the owner can only go away. */
  ghost predicate RowStep(r: Integration, r': Integration)
  {
    && r'.user == r.user && r'.provider == r.provider && r'.auth == r.auth
    && r.generation <= r'.generation && r.claimEpoch <= r'.claimEpoch
    && (r'.claimEpoch == r.claimEpoch ==> r'.claimOwner == r.claimOwner || r'.claimOwner == None)
  }

  ghost predicate AttemptStep(a: Attempt, a': Attempt)
  {
    && a'.user == a.user && a'.integration == a.integration && a'.provider == a.provider
    && a'.generation == a.generation && a'.expected == a.expected
    && a'.deadline == a.deadline && a'.pollInterval == a.pollInterval
    && (a.state != Active ==> a'.state == a.state)
    && a.claimEpoch <= a'.claimEpoch
    && (a'.claimEpoch == a.claimEpoch ==> a'.claimOwner == a.claimOwner || a'.claimOwner == None)
  }

  ghost predicate RowsStep(rows: map<Uuid, Integration>, rows': map<Uuid, Integration>)
  {
    forall i :: i in rows ==> i in rows' && RowStep(rows[i], rows'[i])
  }

  ghost predicate AttemptsStep(attempts: map<Uuid, Attempt>, attempts': map<Uuid, Attempt>)
  {
    forall a :: a in attempts && a in attempts' ==> AttemptStep(attempts[a], attempts'[a])
  }

  ghost predicate Evolves(db: Db, db': Db)
  {
    RowsStep(db.integrations, db'.integrations) && AttemptsStep(db.attempts, db'.attempts)
  }

  lemma EvolvesTwice(a: Db, b: Db, c: Db)
    requires Evolves(a, b) && Evolves(b, c) && a.attempts.Keys <= b.attempts.Keys
    ensures Evolves(a, c)
  {
    forall i | i in a.integrations
      ensures i in c.integrations && RowStep(a.integrations[i], c.integrations[i])
    {
      assert RowStep(a.integrations[i], b.integrations[i]) && RowStep(b.integrations[i], c.integrations[i]);
    }
    forall i | i in a.attempts && i in c.attempts
      ensures AttemptStep(a.attempts[i], c.attempts[i])
    {
      assert AttemptStep(a.attempts[i], b.attempts[i]) && AttemptStep(b.attempts[i], c.attempts[i]);
    }
  }

  // ---- One table at a time ----

  /** A changed or new row may be selected only if it was, or if no account there is. */
  ghost predicate SelectsFairly(db: Db, id: Uuid, r': Integration)
  {
    r'.active ==> (id in db.integrations && db.integrations[id].active) || !AnyActive(db, r'.user, r'.provider)
  }

  lemma RowUpdate(db: Db, id: Uuid, r': Integration)
    requires Tables(db) && RowOk(r') && SelectsFairly(db, id, r')
    requires id in db.integrations ==> RowStep(db.integrations[id], r')
    ensures var db' := db.(integrations := db.integrations[id := r']); Tables(db') && Evolves(db, db')
  {
    hide RowOk, AttemptOk, OneActiveAttempt;
    var rows := db.integrations[id := r'];
    forall a | a in db.attempts
      ensures Linked(db.(integrations := rows), db.attempts[a])
    {
      assert Linked(db, db.attempts[a]);
    }
    assert OneActiveAccount(rows);
  }

  /** Many rows at once, none of them newly selected. */
  lemma RowsUpdate(db: Db, rows: map<Uuid, Integration>)
    requires Tables(db) && rows.Keys == db.integrations.Keys && RowsStep(db.integrations, rows)
    requires forall i :: i in rows ==> RowOk(rows[i])
    requires OneActiveAccount(rows)
    ensures Tables(db.(integrations := rows)) && Evolves(db, db.(integrations := rows))
  {
    hide RowOk, AttemptOk, OneActiveAttempt, OneActiveAccount;
    forall a | a in db.attempts
      ensures Linked(db.(integrations := rows), db.attempts[a])
    {
      assert Linked(db, db.attempts[a]);
    }
  }

  lemma AttemptsUpdate(db: Db, attempts: map<Uuid, Attempt>)
    requires Tables(db) && attempts.Keys <= db.attempts.Keys && AttemptsStep(db.attempts, attempts)
    requires forall a :: a in attempts ==> AttemptOk(attempts[a])
    ensures Tables(db.(attempts := attempts)) && Evolves(db, db.(attempts := attempts))
  {
    hide RowOk, AttemptOk, OneActiveAccount;
    forall a | a in attempts
      ensures Linked(db.(attempts := attempts), attempts[a])
    {
      assert Linked(db, db.attempts[a]) && AttemptStep(db.attempts[a], attempts[a]);
    }
    forall a, b | a in attempts && b in attempts && attempts[a].integration == attempts[b].integration && a != b
      ensures attempts[a].generation != attempts[b].generation
              && !(attempts[a].state == Active && attempts[b].state == Active)
    {
      assert AttemptStep(db.attempts[a], attempts[a]) && AttemptStep(db.attempts[b], attempts[b]);
    }
    forall i | i in db.integrations
      ensures RowStep(db.integrations[i], db.integrations[i])
    {
    }
  }

  lemma AttemptInsert(db: Db, id: Uuid, a: Attempt)
    requires Tables(db) && id !in db.attempts && AttemptOk(a) && Linked(db, a)
    requires a.generation !in Generations(db, a.integration) && !HasActiveAttempt(db, a.integration)
    ensures Tables(db.(attempts := db.attempts[id := a])) && Evolves(db, db.(attempts := db.attempts[id := a]))
  {
    hide RowOk, AttemptOk, OneActiveAccount;
    var db' := db.(attempts := db.attempts[id := a]);
    forall b | b in db.attempts
      ensures Linked(db', db.attempts[b])
    {
      assert Linked(db, db.attempts[b]);
    }
    forall b | b in db.attempts && db.attempts[b].integration == a.integration
      ensures db.attempts[b].generation != a.generation && db.attempts[b].state != Active
    {
      assert db.attempts[b].generation in Generations(db, a.integration);
    }
  }

  // ---- Every transaction ----

  /** Transactions that change or add one integration row. */
  predicate IsRowOp(op: Op)
  {
    || op.CreateOauth? || op.Connect? || op.InstallCredentials? || op.ClaimRefresh?
    || op.ReleaseRefresh? || op.RequireReauthorization? || op.RecordValidation? || op.InvalidGrant?
  }

  lemma NoAccountNoneActive(db: Db, user: UserId, provider: Provider)
    requires Accounts(db, user, provider) == {}
    ensures !AnyActive(db, user, provider)
  {
    assert forall i :: i in db.integrations && Sibling(db.integrations[i], user, provider) ==>
      i in Accounts(db, user, provider);
  }

  function RowOf(op: Op): Uuid
    requires IsRowOp(op)
  {
    if op.ReleaseRefresh? || op.RequireReauthorization? then op.refresh.integration else op.id
  }

  lemma RowOpKeeps(db: Db, op: Op)
    requires Tables(db) && IsRowOp(op) && Apply(db, op).Ok?
    ensures Tables(Apply(db, op).value) && Evolves(db, Apply(db, op).value)
  {
    hide Apply, Tables, Evolves, RowOk, RowStep, SelectsFairly;
    var db', id := Apply(db, op).value, RowOf(op);
    RowOpRow(db, op);
    RowOpSelectsFairly(db, op);
    RowUpdate(db, id, db'.integrations[id]);
  }

  lemma RowOpRow(db: Db, op: Op)
    requires Tables(db) && IsRowOp(op) && Apply(db, op).Ok?
    ensures var (db', id) := (Apply(db, op).value, RowOf(op));
            && id in db'.integrations && db' == db.(integrations := db.integrations[id := db'.integrations[id]])
            && RowOk(db'.integrations[id])
            && (id in db.integrations ==> RowStep(db.integrations[id], db'.integrations[id]))
  {
    hide OneActiveAccount, OneActiveAttempt, Linked, AttemptOk, AnyActive, Accounts, HasLiveAttempt;
    var id := RowOf(op);
    if id in db.integrations { assert RowOk(db.integrations[id]); }
  }

  lemma RowOpSelectsFairly(db: Db, op: Op)
    requires IsRowOp(op) && Apply(db, op).Ok? && RowOf(op) in Apply(db, op).value.integrations
    ensures SelectsFairly(db, RowOf(op), Apply(db, op).value.integrations[RowOf(op)])
  {
    hide AnyActive, Accounts, HasLiveAttempt;
    if op.Connect? && Accounts(db, op.user, op.provider) == {} { NoAccountNoneActive(db, op.user, op.provider); }
  }

  /** Transactions that change attempts and add none. */
  predicate IsAttemptOp(op: Op)
  {
    op.ClaimDevice? || op.TouchDevice? || op.FailDevice? || op.CancelDevice? || op.ExpireDevices? || op.Cleanup?
  }

  lemma AttemptOpKeeps(db: Db, op: Op)
    requires Tables(db) && IsAttemptOp(op) && Apply(db, op).Ok?
    ensures Tables(Apply(db, op).value) && Evolves(db, Apply(db, op).value)
  {
    hide OneActiveAccount, OneActiveAttempt, Linked, RowOk;
    var db' := Apply(db, op).value;
    forall a | a in db'.attempts
      ensures a in db.attempts && AttemptStep(db.attempts[a], db'.attempts[a]) && AttemptOk(db'.attempts[a])
    {
      assert AttemptOk(db.attempts[a]);
    }
    AttemptsUpdate(db, db'.attempts);
    assert db' == db.(attempts := db'.attempts);
  }

  lemma CompleteKeeps(db: Db, op: Op)
    requires Tables(db) && op.CompleteDevice? && Apply(db, op).Ok?
    ensures Tables(Apply(db, op).value) && Evolves(db, Apply(db, op).value)
  {
    hide OneActiveAccount, OneActiveAttempt, Linked, AnyActive;
    var db', c := Apply(db, op).value, op.device;
    assert RowOk(db.integrations[c.integration]) && AttemptOk(db.attempts[c.attempt]);
    var mid := db.(integrations := db'.integrations);
    RowUpdate(db, c.integration, db'.integrations[c.integration]);
    AttemptsUpdate(mid, db'.attempts);
    EvolvesTwice(db, mid, db');
    assert db' == mid.(attempts := db'.attempts);
  }

  lemma BeginKeeps(db: Db, op: Op)
    requires Tables(db) && op.BeginDevice? && Apply(db, op).Ok?
    ensures Tables(Apply(db, op).value) && Evolves(db, Apply(db, op).value)
  {
    BeginKeepsRow(db, op);
    hide Tables, Evolves, Accounts, HasActiveAttempt, SelectionIntent, Superseded, Generations;
    var db', id := Apply(db, op).value, op.id;
    var mid := db.(integrations := db'.integrations);
    var cleared := mid.(attempts := Superseded(db.attempts, id));
    SupersedeKeeps(mid, id);
    EvolvesTwice(db, mid, cleared);
    assert Generations(mid, id) == Generations(db, id) by { SameGenerations(db, mid, id); }
    var a := db'.attempts[op.attempt];
    AttemptInsert(cleared, op.attempt, a);
    assert db' == cleared.(attempts := cleared.attempts[op.attempt := a]);
    EvolvesTwice(db, cleared, db');
  }

  lemma SameGenerations(db: Db, db': Db, id: Uuid)
    requires db'.attempts == db.attempts
    ensures Generations(db', id) == Generations(db, id)
  {
  }

  lemma BeginKeepsRow(db: Db, op: Op)
    requires Tables(db) && op.BeginDevice? && Apply(db, op).Ok?
    ensures var mid := db.(integrations := Apply(db, op).value.integrations); Tables(mid) && Evolves(db, mid)
  {
    hide OneActiveAccount, OneActiveAttempt, Linked, AttemptOk, AnyActive, NextAttemptGeneration, SelectionIntent;
    var rows := Apply(db, op).value.integrations;
    assert RowOk(db.integrations[op.id]);
    RowUpdate(db, op.id, rows[op.id]);
  }

  lemma SupersedeKeeps(db: Db, id: Uuid)
    requires Tables(db)
    ensures var cleared := db.(attempts := Superseded(db.attempts, id));
            && Tables(cleared) && Evolves(db, cleared)
            && cleared.attempts.Keys == db.attempts.Keys
            && !HasActiveAttempt(cleared, id) && Generations(cleared, id) == Generations(db, id)
  {
    hide OneActiveAccount, OneActiveAttempt, Linked, RowOk;
    var attempts := Superseded(db.attempts, id);
    forall a | a in attempts
      ensures AttemptOk(attempts[a]) && AttemptStep(db.attempts[a], attempts[a])
    {
      assert AttemptOk(db.attempts[a]);
    }
    AttemptsUpdate(db, attempts);
  }

  /** A choice by the user: it withdraws the pending wishes at that provider. */
  predicate IsChoice(op: Op) { op.Disconnect? || op.Activate? }

  lemma ChoiceKeepsRows(db: Db, op: Op)
    requires Tables(db) && IsChoice(op) && Apply(db, op).Ok?
    ensures var rows := Apply(db, op).value.integrations;
            && rows.Keys == db.integrations.Keys && RowsStep(db.integrations, rows)
            && (forall i :: i in rows ==> RowOk(rows[i]))
  {
    hide OneActiveAttempt, Linked, OneActiveAccount, AttemptOk, WithdrawnAttempt, Terminal, RowOk, RowStep, Emptied;
    var rows := Apply(db, op).value.integrations;
    assert rows.Keys == db.integrations.Keys;
    forall i | i in db.integrations
      ensures RowOk(rows[i]) && RowStep(db.integrations[i], rows[i])
    {
      ChosenRow(db.integrations[i]);
    }
  }

  /** What a choice may do to a row. */
  lemma ChosenRow(r: Integration)
    requires RowOk(r)
    ensures RowOk(Emptied(r)) && RowStep(r, Emptied(r)) && RowStep(r, r)
    ensures RowOk(r.(restoreActive := false)) && RowStep(r, r.(restoreActive := false))
    ensures RowOk(r.(restoreActive := false, active := false))
            && RowStep(r, r.(restoreActive := false, active := false))
    ensures r.connection == Connected ==>
              && RowOk(r.(restoreActive := false, active := true))
              && RowStep(r, r.(restoreActive := false, active := true))
  {
  }

  lemma ChoiceKeepsAttempts(db: Db, op: Op)
    requires Tables(db) && IsChoice(op) && Apply(db, op).Ok?
    ensures var attempts := Apply(db, op).value.attempts;
            && attempts.Keys == db.attempts.Keys && AttemptsStep(db.attempts, attempts)
            && (forall a :: a in attempts ==> AttemptOk(attempts[a]))
  {
    hide OneActiveAttempt, Linked, OneActiveAccount, RowOk, Emptied, Sibling, AttemptOk, AttemptStep, Terminal;
    var attempts := Apply(db, op).value.attempts;
    assert attempts.Keys == db.attempts.Keys;
    forall a | a in db.attempts
      ensures AttemptOk(attempts[a]) && AttemptStep(db.attempts[a], attempts[a])
    {
      ChosenAttempt(db.attempts[a]);
    }
  }

  /** What a choice may do to an attempt. */
  lemma ChosenAttempt(a: Attempt)
    requires AttemptOk(a)
    ensures AttemptStep(a, a)
    ensures AttemptOk(a.(activateOnCompletion := false)) && AttemptStep(a, a.(activateOnCompletion := false))
    ensures a.state == Active ==>
              var ended := Terminal(a.(activateOnCompletion := false), Cancelled, Some("integration_disconnected"));
              var kept := Terminal(a, Cancelled, Some("integration_disconnected"));
              AttemptOk(ended) && AttemptStep(a, ended) && AttemptOk(kept) && AttemptStep(a, kept)
  {
  }

  lemma ChoiceKeeps(db: Db, op: Op)
    requires Tables(db) && IsChoice(op) && Apply(db, op).Ok?
    ensures Tables(Apply(db, op).value) && Evolves(db, Apply(db, op).value)
  {
    ChoiceKeepsRows(db, op);
    ChoiceKeepsAttempts(db, op);
    SelectionStaysUnique(db, op);
    hide *;
    var db' := Apply(db, op).value;
    var mid := db.(integrations := db'.integrations);
    RowsUpdate(db, db'.integrations);
    AttemptsUpdate(mid, db'.attempts);
    EvolvesTwice(db, mid, db');
    assert db' == mid.(attempts := db'.attempts);
  }

  lemma SelectionStaysUnique(db: Db, op: Op)
    requires Tables(db) && IsChoice(op) && Apply(db, op).Ok?
    ensures OneActiveAccount(Apply(db, op).value.integrations)
  {
    var rows, rows' := db.integrations, Apply(db, op).value.integrations;
    forall i, j | i in rows' && j in rows' && rows'[i].active && rows'[j].active
                  && Sibling(rows'[i], rows'[j].user, rows'[j].provider)
      ensures i == j
    {
    }
  }

  /**
   Every committed transaction keeps the table constraints, the unique active account and attempt,
   and lets generations and claim epochs only grow.
   */
  lemma ApplyKeeps(db: Db, op: Op)
    requires Tables(db) && Apply(db, op).Ok?
    ensures Tables(Apply(db, op).value) && Evolves(db, Apply(db, op).value)
  {
    hide Apply, Tables, Evolves;
    if IsRowOp(op) { RowOpKeeps(db, op); }
    else if IsAttemptOp(op) { AttemptOpKeeps(db, op); }
    else if op.CompleteDevice? { CompleteKeeps(db, op); }
    else if op.BeginDevice? { BeginKeeps(db, op); }
    else { ChoiceKeeps(db, op); }
  }
}
