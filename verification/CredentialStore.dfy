/**
 The credential transactions as the code performs them: one statement after another on the two
 tables, each reading what the previous ones wrote (lib/kodo/integrations.ex).
 */
module CredentialStore {
  import opened Prelude
  import opened Credentials

  /** The column changes handed to `update_fenced`. */
  datatype Change =
    | Credential(install: Install)
    | Disconnection
    | Verdict(outcome: Validation, code: Option<string>, now: Time)
    | GrantRefused

  predicate Admits(change: Change, connection: Connection)
  {
    match change
    case Credential(install) => Allowed(install.kind, connection)
    case Disconnection => true
    case _ => connection == Connected
  }

  function Changed(row: Integration, gen: nat, change: Change): Integration
  {
    match change
    case Credential(i) =>
      row.(connection := Connected, validation := Unverified, credentials := Some(i.sealed), generation := gen + 1,
           sourceGeneration := if i.kind == RefreshSucceeded then Some(gen) else None, expiresAt := i.expiresAt,
           validatedAt := None, refreshedAt := i.refreshedAt, errorCode := None, claimOwner := None,
           claimGeneration := None, restoreActive := false, leaseExpiresAt := None)
    case Disconnection =>
      row.(connection := Disconnected, active := false, validation := Unverified, credentials := None,
           generation := gen + 1,
           sourceGeneration := None, expiresAt := None, validatedAt := None, refreshedAt := None, errorCode := None,
           claimOwner := None, claimGeneration := None, restoreActive := false, leaseExpiresAt := None)
    case Verdict(outcome, code, now) => row.(validation := outcome, validatedAt := Some(now), errorCode := code)
    case GrantRefused =>
      row.(connection := ReauthorizationRequired, active := false, validation := Unverified, validatedAt := None,
           errorCode := None)
  }

  function OpOf(user: UserId, id: Uuid, gen: nat, change: Change): Op
  {
    match change
    case Credential(install) => InstallCredentials(user, id, gen, install)
    case Disconnection => Disconnect(user, id, gen)
    case Verdict(outcome, code, now) => RecordValidation(user, id, gen, outcome, code, now)
    case GrantRefused => InvalidGrant(user, id, gen)
  }

  lemma SameAccounts(db: Db, id: Uuid, row: Integration, user: UserId, provider: Provider)
    requires id in db.integrations && Sibling(row, db.integrations[id].user, db.integrations[id].provider)
    ensures Accounts(db.(integrations := db.integrations[id := row]), user, provider) == Accounts(db, user, provider)
    ensures row.active == db.integrations[id].active ==>
              AnyActive(db.(integrations := db.integrations[id := row]), user, provider) ==
              AnyActive(db, user, provider)
  {
    var db' := db.(integrations := db.integrations[id := row]);
    assert forall i :: i in db'.integrations <==> i in db.integrations;
    assert forall i :: i in db.integrations ==>
      (Sibling(db'.integrations[i], user, provider) <==> Sibling(db.integrations[i], user, provider));
  }

  function Withdrawn(row: Integration, user: UserId, provider: Provider): Integration
  {
    if Sibling(row, user, provider) then row.(restoreActive := false) else row
  }

  function WithdrawnWish(a: Attempt, user: UserId, provider: Provider): Attempt
  {
    if WithdrawnAttempt(a, user, provider) then a.(activateOnCompletion := false) else a
  }

  function Ended(a: Attempt, user: UserId, id: Uuid): Attempt
  {
    if a.user == user && a.integration == id && a.state == Active then
      Terminal(a, Cancelled, Some("integration_disconnected"))
    else a
  }

  /** Withdrawing, emptying and ending, one statement after another, is what a disconnection means. */
  lemma DisconnectedInSteps(db: Db, db': Db, user: UserId, id: Uuid, gen: nat)
    requires Owns(db, user, id) && db.integrations[id].generation == gen
    requires var provider := db.integrations[id].provider;
             var withdrawn := map i | i in db.integrations :: Withdrawn(db.integrations[i], user, provider);
             db'.integrations == withdrawn[id := Changed(withdrawn[id], gen, Disconnection)]
    requires var provider := db.integrations[id].provider;
             var withdrawn := map a | a in db.attempts :: WithdrawnWish(db.attempts[a], user, provider);
             db'.attempts == map a | a in withdrawn :: Ended(withdrawn[a], user, id)
    ensures AfterDisconnect(db, user, id, gen) == Ok(db')
  {
    var after := AfterDisconnect(db, user, id, gen).value;
    assert after.integrations == db'.integrations;
    assert after.attempts == db'.attempts;
  }

  lemma DisconnectionRefused(rows: map<Uuid, Integration>, attempts: map<Uuid, Attempt>, user: UserId, id: Uuid,
                             gen: nat)
    ensures !(Owns(Db(rows, attempts), user, id) && rows[id].generation == gen) ==>
              AfterDisconnect(Db(rows, attempts), user, id, gen) == Err(StaleGeneration)
  {
  }

  function Deselected(row: Integration, user: UserId, provider: Provider): Integration
  {
    if Sibling(row, user, provider) && row.active then row.(active := false) else row
  }

  /** Withdrawing, deselecting all and selecting one is what an activation means. */
  lemma ActivatedInSteps(db: Db, db': Db, user: UserId, id: Uuid, gen: nat)
    requires Owns(db, user, id) && db.integrations[id].generation == gen && db.integrations[id].connection == Connected
    requires var provider := db.integrations[id].provider;
             var withdrawn := map i | i in db.integrations :: Withdrawn(db.integrations[i], user, provider);
             var deselected := map i | i in withdrawn :: Deselected(withdrawn[i], user, provider);
             db'.integrations ==
               if db.integrations[id].active then withdrawn else deselected[id := deselected[id].(active := true)]
    requires var provider := db.integrations[id].provider;
             db'.attempts == map a | a in db.attempts :: WithdrawnWish(db.attempts[a], user, provider)
    ensures AfterActivate(db, user, id, gen) == Ok(db')
  {
    var after := AfterActivate(db, user, id, gen).value;
    assert after.integrations == db'.integrations;
    assert after.attempts == db'.attempts;
  }

  class Store {
    var integrations: map<Uuid, Integration>
    var attempts: map<Uuid, Attempt>

    function Value(): (db: Db)
      reads this
    {
      Db(integrations, attempts)
    }

    /** The committed outcome is the simple form's; a rolled-back transaction leaves no trace. */
    twostate predicate Commits(new op: Op, new r: Result<(), Error>)
      reads this
    {
      match Apply(old(Value()), op)
      case Ok(db) => r == Ok(()) && Value() == db
      case Err(e) => r == Err(e) && Value() == old(Value())
    }

    constructor ()
      ensures Value() == Db(map[], map[])
    {
      integrations, attempts := map[], map[];
    }

    /** `invalidate_provider_selection_recovery`: two bulk updates. */
    method InvalidateRecovery(user: UserId, provider: Provider)
      modifies this
      ensures integrations == map i | i in old(integrations) :: Withdrawn(old(integrations)[i], user, provider)
      ensures attempts == map a | a in old(attempts) :: WithdrawnWish(old(attempts)[a], user, provider)
    {
      integrations := map i | i in integrations ::
        if Sibling(integrations[i], user, provider) && integrations[i].restoreActive then
          integrations[i].(restoreActive := false)
        else integrations[i];
      attempts := map a | a in attempts ::
        if WithdrawnAttempt(attempts[a], user, provider) && attempts[a].activateOnCompletion then
          attempts[a].(activateOnCompletion := false)
        else attempts[a];
    }

    /** Select the row if nothing at its provider is selected. */
    method SelectIfNoneActive(id: Uuid)
      requires id in integrations
      modifies this
      ensures attempts == old(attempts)
      ensures var row := old(integrations)[id];
              var selected := row.active || !AnyActive(old(Value()), row.user, row.provider);
              integrations == old(integrations)[id := row.(active := selected)]
    {
      var row := integrations[id];
      if !row.active && !AnyActive(Value(), row.user, row.provider) {
        integrations := integrations[id := row.(active := true)];
      }
    }

    /**
     `update_fenced`: withdraw wishes on a disconnection, read the restore flag, update under the
     generation fence, end the attempt, activate an initial account, restore a selection.
     */
    method UpdateFenced(user: UserId, id: Uuid, gen: nat, change: Change) returns (r: Result<(), Error>)
      requires change.Credential? ==>
              Owns(Value(), user, id) && integrations[id].auth == RequiredAuth(change.install.kind)
      requires change.GrantRefused? ==> Owns(Value(), user, id) && integrations[id].auth == OAuth
      modifies this
      ensures Commits(OpOf(user, id, gen, change), r)
    {
      hide AnyActive, Accounts, Terminal, AfterDisconnect, Sibling, WithdrawnAttempt;
      var rowsBefore, attemptsBefore := integrations, attempts;
      if change.Disconnection? && Owns(Value(), user, id) {
        InvalidateRecovery(user, integrations[id].provider);
      }
      var restore := change.Credential? && change.install.restoreActive && integrations[id].restoreActive;
      if !(Owns(Value(), user, id) && integrations[id].generation == gen
           && Admits(change, integrations[id].connection)) {
        DisconnectionRefused(rowsBefore, attemptsBefore, user, id, gen);
        integrations, attempts := rowsBefore, attemptsBefore;
        return Err(StaleGeneration);
      }
      integrations := integrations[id := Changed(integrations[id], gen, change)];
      if change.Disconnection? {
        TerminalizeAttempt(user, id);
        DisconnectedInSteps(old(Value()), Value(), user, id, gen);
      }
      if change.Credential? {
        SameAccounts(old(Value()), id, integrations[id], user, integrations[id].provider);
        assert Value() == old(Value()).(integrations := old(integrations)[id := integrations[id]]);
        RestoreSelection(id, change.install.kind == OauthSucceeded, restore);
      }
      r := Ok(());
    }

    /** `maybe_terminalize_device_authorization`. */
    method TerminalizeAttempt(user: UserId, id: Uuid)
      modifies this`attempts
      ensures attempts == map a | a in old(attempts) :: Ended(old(attempts)[a], user, id)
    {
      attempts := map a | a in attempts :: Ended(attempts[a], user, id);
    }

    /** `maybe_activate_initial_oauth`, then `maybe_restore_refresh_selection`. */
    method RestoreSelection(id: Uuid, oauth: bool, restore: bool)
      requires id in integrations
      modifies this
      ensures attempts == old(attempts)
      ensures var (db, row) := (old(Value()), old(integrations)[id]);
              var initial := oauth && row.generation == 1 && |Accounts(db, row.user, row.provider)| == 1;
              var selected := row.active || ((initial || restore) && !AnyActive(db, row.user, row.provider));
              integrations == old(integrations)[id := row.(active := selected)]
    {
      if oauth && integrations[id].generation == 1
         && |Accounts(Value(), integrations[id].user, integrations[id].provider)| == 1 {
        SelectIfNoneActive(id);
      }
      assert !integrations[id].active ==> integrations == old(integrations);
      if restore {
        SelectIfNoneActive(id);
      }
    }

    /** Checks outside the transaction, then the fenced update. */
    method Install(user: UserId, id: Uuid, gen: nat, install: Install) returns (r: Result<(), Error>)
      modifies this
      ensures Commits(InstallCredentials(user, id, gen, install), r)
    {
      if !Owns(Value(), user, id) {
        return Err(NotFound);
      }
      if integrations[id].generation != gen {
        return Err(StaleGeneration);
      }
      if integrations[id].auth != RequiredAuth(install.kind) {
        return Err(AuthenticationTypeMismatch);
      }
      r := UpdateFenced(user, id, gen, Credential(install));
    }

    /** `activate`: withdraw wishes, deselect every account of the provider, select this one. */
    method ActivateIntegration(user: UserId, id: Uuid, gen: nat) returns (r: Result<(), Error>)
      modifies this
      ensures Commits(Activate(user, id, gen), r)
    {
      hide Withdrawn, WithdrawnWish, Deselected;
      if !Owns(Value(), user, id) {
        return Err(NotFound);
      }
      var integration := integrations[id];
      if integration.generation != gen {
        return Err(StaleGeneration);
      }
      if integration.connection != Connected {
        return Err(NotConnected);
      }
      InvalidateRecovery(user, integration.provider);
      if !integration.active {
        integrations := map i | i in integrations :: Deselected(integrations[i], user, integration.provider);
        integrations := integrations[id := integrations[id].(active := true)];
      }
      ActivatedInSteps(old(Value()), Value(), user, id, gen);
      r := Ok(());
    }

    /** `start_device_authorization_locked`: end the active attempt, move the generation, insert the new attempt. */
    method StartDeviceAuthorization(user: UserId, id: Uuid, gen: nat, attempt: Uuid, payload: Sealed, interval: nat,
                                    now: Time)
      returns (r: Result<(), Error>)
      modifies this
      ensures Commits(BeginDevice(user, id, gen, attempt, payload, interval, now), r)
    {
      hide Accounts, NextAttemptGeneration, Terminal;
      var rowsBefore, attemptsBefore := integrations, attempts;
      if interval > MAX_POLL_INTERVAL_MS {
        return Err(DeviceInvalid);
      }
      if !Owns(Value(), user, id) {
        return Err(NotFound);
      }
      var integration := integrations[id];
      if integration.generation != gen {
        return Err(StaleGeneration);
      }
      if integration.provider != OpenAICodex || integration.auth != OAuth {
        return Err(AuthenticationTypeMismatch);
      }
      var expected := integration.generation + 1;
      var intent := integration.active || |Accounts(Value(), user, integration.provider)| == 1;
      attempts := map a | a in attempts ::
        if attempts[a].integration == id && attempts[a].state == Active then
          Terminal(attempts[a], Cancelled, Some("superseded"))
        else attempts[a];
      integration := integration.(generation := expected, sourceGeneration := None, claimOwner := None,
                                  claimGeneration := None, restoreActive := false, leaseExpiresAt := None);
      integrations := integrations[id := integration];
      assert attempts == Superseded(old(attempts), id);
      SameNext(old(Value()), Value(), id);
      var next := NextAttemptGeneration(Value(), id);
      if attempt in attempts {
        integrations, attempts := rowsBefore, attemptsBefore;
        return Err(Conflict);
      }
      attempts := attempts[attempt := Attempt(user, id, OpenAICodex, Active, next, expected, intent, Some(payload),
                                              now + DEVICE_LIFETIME_MS, interval, now + interval, None, None, 0, None)];
      r := Ok(());
    }

    /** `complete_device_authorization_locked`: install, then select if wished and possible, then end the attempt. */
    method CompleteDeviceAuthorization(user: UserId, c: DeviceClaim, sealed: Sealed, expiry: Time, now: Time)
      returns (r: Result<(), Error>)
      modifies this
      ensures Commits(CompleteDevice(user, c, sealed, expiry, now), r)
    {
      if !Owns(Value(), user, c.integration) {
        return Err(NotFound);
      }
      if expiry <= now {
        return Err(ResponseInvalid);
      }
      if !DeviceMatches(Value(), c) || attempts[c.attempt].user != user {
        return Err(StaleDeviceClaim);
      }
      var row, a := integrations[c.integration], attempts[c.attempt];
      var installed := row.(connection := Connected, validation := Unverified, credentials := Some(sealed),
                            generation := row.generation + 1, sourceGeneration := None, expiresAt := Some(expiry),
                            validatedAt := None, refreshedAt := Some(now), errorCode := None);
      integrations := integrations[c.integration := installed];
      SameAccounts(old(Value()), c.integration, installed, row.user, row.provider);
      if a.activateOnCompletion {
        SelectIfNoneActive(c.integration);
      }
      attempts := attempts[c.attempt := Terminal(a, Completed, None)];
      r := Ok(());
    }
  }

  lemma SameNext(db: Db, db': Db, id: Uuid)
    requires db'.attempts == Superseded(db.attempts, id)
    ensures NextAttemptGeneration(db, id) == NextAttemptGeneration(db', id)
  {
    assert Generations(db, id) == Generations(db', id) by {
      assert forall a :: a in db.attempts ==>
        a in db'.attempts && db'.attempts[a].integration == db.attempts[a].integration
                                              && db'.attempts[a].generation == db.attempts[a].generation;
    }
  }
}
