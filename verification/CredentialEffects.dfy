/**
 What each credential transaction demands and does, column by column, and what an account holds over
 whole runs (lib/kodo/integrations.ex).
 */
module CredentialEffects {
  import opened Prelude
  import opened Credentials
  import opened CredentialTables
  import opened CredentialRuns

  // ---- When a transaction commits ----

  /** The row is the user's, at that generation. */
  predicate RowAt(db: Db, user: UserId, id: Uuid, gen: nat)
  {
    id in db.integrations && db.integrations[id].user == user && db.integrations[id].generation == gen
  }

  predicate ClaimedBy(row: Integration, c: RefreshClaim)
  {
    row.generation == c.generation && row.claimOwner == Some(c.owner) && row.claimEpoch == c.epoch
  }

  /** The attempt is active under exactly this claim, for the generation its integration is at. */
  predicate WorkedBy(db: Db, user: UserId, c: DeviceClaim)
  {
    && c.attempt in db.attempts
    && var a := db.attempts[c.attempt];
    && a.user == user && a.state == Active && a.generation == c.generation
    && a.claimOwner == Some(c.owner) && a.claimEpoch == c.epoch
    && a.integration in db.integrations && a.expected == db.integrations[a.integration].generation
  }

  predicate InTime(a: Attempt, now: Time) { a.claimLease.Some? && now < a.claimLease.value && now < a.deadline }

  ghost predicate Demands(db: Db, op: Op)
  {
    match op
    case CreateOauth(_, id) => id !in db.integrations
    case Connect(_, id, provider, _, _) => id !in db.integrations && provider != OpenAICodex
    case InstallCredentials(user, id, gen, install) =>
      && RowAt(db, user, id, gen)
      && (match install.kind
          case ReplaceKey => db.integrations[id].auth == ApiKey && db.integrations[id].connection == Connected
          case ReconnectKey => db.integrations[id].auth == ApiKey && db.integrations[id].connection == Disconnected
          case OauthSucceeded => db.integrations[id].auth == OAuth
          case RefreshSucceeded => db.integrations[id].auth == OAuth && db.integrations[id].connection != Disconnected)
    case ClaimRefresh(user, id, gen, _, now) =>
      && RowAt(db, user, id, gen)
      && var row := db.integrations[id];
      && row.provider == OpenAICodex && row.auth == OAuth && row.connection == Connected
      && (row.claimOwner == None || (row.leaseExpiresAt.Some? && row.leaseExpiresAt.value <= now))
      && forall a :: a in db.attempts && db.attempts[a].integration == id && db.attempts[a].state == Active ==>
                       db.attempts[a].deadline <= now
    case ReleaseRefresh(user, c) =>
      RowAt(db, user, c.integration, c.generation) && ClaimedBy(db.integrations[c.integration], c)
    case RequireReauthorization(user, c, _) =>
      RowAt(db, user, c.integration, c.generation) && ClaimedBy(db.integrations[c.integration], c)
    case RecordValidation(user, id, gen, _, _, _) =>
      RowAt(db, user, id, gen) && db.integrations[id].connection == Connected
    case InvalidGrant(user, id, gen) =>
      RowAt(db, user, id, gen) && db.integrations[id].connection == Connected && db.integrations[id].auth == OAuth
    case Disconnect(user, id, gen) => RowAt(db, user, id, gen)
    case Activate(user, id, gen) => RowAt(db, user, id, gen) && db.integrations[id].connection == Connected
    case BeginDevice(user, id, gen, attempt, _, interval, _) =>
      && RowAt(db, user, id, gen) && db.integrations[id].provider == OpenAICodex && db.integrations[id].auth == OAuth
      && interval <= 900_000 && attempt !in db.attempts
    case ClaimDevice(user, id, _, now) =>
      exists a :: a in db.attempts && db.attempts[a].user == user && db.attempts[a].integration == id
                  && db.attempts[a].state == Active && now < db.attempts[a].deadline
                  && RowAt(db, user, id, db.attempts[a].expected)
                  && (db.attempts[a].claimOwner == None
                      || (db.attempts[a].claimLease.Some? && db.attempts[a].claimLease.value <= now))
    case TouchDevice(user, c, touch, now) =>
      && WorkedBy(db, user, c) && InTime(db.attempts[c.attempt], now)
      && db.integrations[db.attempts[c.attempt].integration].user == user
      && (touch == AdmitPoll ==> db.attempts[c.attempt].nextPollAt <= now)
    case CompleteDevice(user, c, _, expiry, now) =>
      && WorkedBy(db, user, c) && db.attempts[c.attempt].integration == c.integration
      && db.integrations[c.integration].user == user && now < expiry
    case FailDevice(user, c, _, now) =>
      && WorkedBy(db, user, c) && InTime(db.attempts[c.attempt], now)
      && db.integrations[db.attempts[c.attempt].integration].user == user
      && c.integration in db.integrations && db.integrations[c.integration].user == user
    case CancelDevice(user, attempt, generation) =>
      && attempt in db.attempts
      && var a := db.attempts[attempt];
      && a.user == user && a.state == Active && a.generation == generation
      && a.integration in db.integrations && db.integrations[a.integration].user == user
    case ExpireDevices(_, _, _) => true
    case Cleanup(_) => true
  }

  /** Every transaction commits if and only if its demands on the rows are met. */
  lemma CommitsExactlyWhen(db: Db, op: Op)
    ensures Apply(db, op).Ok? <==> Demands(db, op)
  {
    if IsRowOp(op) { RowOpCommits(db, op); } else { AttemptOpCommits(db, op); }
  }

  lemma RowOpCommits(db: Db, op: Op)
    requires IsRowOp(op)
    ensures Apply(db, op).Ok? <==> Demands(db, op)
  {
    hide AnyActive, Accounts, WithCredentials, Unclaimed;
  }

  lemma AttemptOpCommits(db: Db, op: Op)
    requires !IsRowOp(op)
    ensures Apply(db, op).Ok? <==> Demands(db, op)
  {
    hide AnyActive, Accounts, WithCredentials, Unclaimed, NextAttemptGeneration, Superseded, Terminal, Emptied, Touched;
  }

  // ---- What it does to integrations ----

  /** The columns of a refresh claim and its wish, cleared. */
  predicate NoClaim(r: Integration) { r.claimOwner == None && r.claimGeneration == None && r.leaseExpiresAt == None }

  /** Identity and claim epoch, which hardly anything touches. */
  predicate SameIdentity(r: Integration, r': Integration)
  {
    r'.user == r.user && r'.provider == r.provider && r'.auth == r.auth && r'.claimEpoch == r.claimEpoch
  }

  /**
   A disconnection leaves the account disconnected, deselected, one generation later and with nothing
   stored; other accounts lose at most a wish; the account's active attempt is cancelled.
   */
  lemma DisconnectEffect(db: Db, op: Op)
    requires op.Disconnect? && Apply(db, op).Ok?
    ensures var (db', row) := (Apply(db, op).value, db.integrations[op.id]);
            && db'.integrations.Keys == db.integrations.Keys && db'.attempts.Keys == db.attempts.Keys
            && var r := db'.integrations[op.id];
            && r.connection == Disconnected && !r.active && r.validation == Unverified
            && r.credentials == None && r.expiresAt == None && r.validatedAt == None && r.refreshedAt == None
            && r.errorCode == None && r.sourceGeneration == None
            && r.generation == row.generation + 1 && NoClaim(r) && !r.restoreActive && SameIdentity(row, r)
    ensures var (db', row) := (Apply(db, op).value, db.integrations[op.id]);
            && (forall i :: i in db.integrations && i != op.id ==>
                  var s := db.integrations[i];
                  db'.integrations[i] ==
                    s.(restoreActive := s.restoreActive && !(s.user == op.user && s.provider == row.provider)))
            && (forall a :: a in db.attempts ==>
                  var (t, t') := (db.attempts[a], db'.attempts[a]);
                  if t.state == Active && t.integration == op.id && t.user == op.user then
                    t'.state == Cancelled && t'.payload == None && t'.claimOwner == None && t'.claimLease == None
                  else if t.state == Active && t.user == op.user && t.provider == row.provider then
                    t' == t.(activateOnCompletion := false)
                  else t' == t)
  {
    var db' := Apply(db, op).value;
    assert db'.integrations.Keys == db.integrations.Keys && db'.attempts.Keys == db.attempts.Keys;
  }

  /** A refused grant takes the selection and the validation away, and keeps credentials and generation. */
  lemma ReauthorizationEffect(db: Db, op: Op)
    requires (op.InvalidGrant? || op.RequireReauthorization?) && Apply(db, op).Ok?
    ensures var id := if op.InvalidGrant? then op.id else op.refresh.integration;
            && id in db.integrations
            && var (row, r) := (db.integrations[id], Apply(db, op).value.integrations[id]);
            && r == row.(connection := ReauthorizationRequired, active := false, validation := Unverified,
                         validatedAt := None, errorCode := r.errorCode, claimOwner := r.claimOwner,
                         claimGeneration := r.claimGeneration, leaseExpiresAt := r.leaseExpiresAt)
            && (if op.InvalidGrant? then r.errorCode == None && r.claimOwner == row.claimOwner
                else r.errorCode == Some(op.code) && NoClaim(r))
            && Apply(db, op).value == db.(integrations := db.integrations[id := r])
  {
  }

  /** The account a transaction installs credentials for. */
  function Installs(op: Op): Option<(Uuid, Sealed, Option<Time>)>
  {
    match op
    case Connect(_, id, _, sealed, expiresAt) => Some((id, sealed, expiresAt))
    case InstallCredentials(_, id, _, install) => Some((id, install.sealed, install.expiresAt))
    case CompleteDevice(_, c, sealed, expiry, _) => Some((c.integration, sealed, Some(expiry)))
    case _ => None
  }

  /**
   An install stores exactly the credentials and the expiry it was handed, connects the account,
   resets its validation, moves the generation by one, and touches no other account.
   */
  lemma InstallEffect(db: Db, op: Op)
    requires Installs(op).Some? && Apply(db, op).Ok?
    ensures var ((id, sealed, expiresAt), db') := (Installs(op).value, Apply(db, op).value);
            && id in db'.integrations
            && var r := db'.integrations[id];
            && r.connection == Connected && r.credentials == Some(sealed) && r.expiresAt == expiresAt
            && r.validation == Unverified && r.validatedAt == None && r.errorCode == None
            && r.generation == GenerationOf(db, id) + 1
            && (op.InstallCredentials? ==> NoClaim(r) && !r.restoreActive && r.refreshedAt == op.install.refreshedAt)
            && (op.InstallCredentials? ==>
                  r.sourceGeneration == if op.install.kind == RefreshSucceeded then Some(op.gen) else None)
            && (op.CompleteDevice? ==> r.refreshedAt == Some(op.now) && r.sourceGeneration == None)
            && (id in db.integrations ==> SameIdentity(db.integrations[id], r))
            && db'.integrations == db.integrations[id := r]
  {
    hide AnyActive, Accounts;
  }

  /** A new account belongs to its creator, is empty unless connected, and is selected only if it is the first. */
  lemma CreationEffect(db: Db, op: Op)
    requires (op.CreateOauth? || op.Connect?) && Apply(db, op).Ok?
    ensures var (db', id) := (Apply(db, op).value, op.id);
            && id in db'.integrations && db'.integrations == db.integrations[id := db'.integrations[id]]
            && db'.attempts == db.attempts
            && var r := db'.integrations[id];
            && r.user == op.user && NoClaim(r) && !r.restoreActive && r.claimEpoch == 0
            && (op.CreateOauth? ==>
                  && r.provider == OpenAICodex && r.auth == OAuth && r.connection == Disconnected
                  && r.credentials == None && r.generation == 0 && !r.active)
            && (op.Connect? ==>
                  && r.provider == op.provider && r.auth == ApiKey
                  && (r.active <==>
                        forall i :: i in db.integrations ==> !HeldAt(db.integrations[i], op.user, op.provider)))
  {
    if op.Connect? { NoAccounts(db, op.user, op.provider); }
  }

  /** An account of the user at the provider. */
  predicate HeldAt(r: Integration, user: UserId, provider: Provider) { r.user == user && r.provider == provider }

  lemma NoAccounts(db: Db, user: UserId, provider: Provider)
    ensures Accounts(db, user, provider) == {} <==>
              forall i :: i in db.integrations ==> !HeldAt(db.integrations[i], user, provider)
  {
    assert forall i :: i in Accounts(db, user, provider) <==>
                         i in db.integrations && HeldAt(db.integrations[i], user, provider);
  }

  /** An activation selects that account and no other of its provider, and changes nothing but wishes besides. */
  lemma ActivationEffect(db: Db, op: Op)
    requires Tables(db) && op.Activate? && Apply(db, op).Ok?
    ensures var (db', row) := (Apply(db, op).value, db.integrations[op.id]);
            && db'.integrations.Keys == db.integrations.Keys && db'.attempts.Keys == db.attempts.Keys
            && db'.integrations[op.id].active
            && (forall i :: i in db.integrations ==>
                  var s := db.integrations[i];
                  var sibling := s.user == op.user && s.provider == row.provider;
                  db'.integrations[i] ==
                    s.(active := if sibling then i == op.id else s.active,
                       restoreActive := s.restoreActive && !sibling))
            && (forall a :: a in db.attempts ==>
                  var t := db.attempts[a];
                  db'.attempts[a] ==
                    if t.state == Active && t.user == op.user && t.provider == row.provider then
                      t.(activateOnCompletion := false)
                    else t)
  {
    hide Linked, OneActiveAttempt, AttemptOk, RowOk;
    var db' := Apply(db, op).value;
    assert db'.integrations.Keys == db.integrations.Keys && db'.attempts.Keys == db.attempts.Keys;
  }

  /** Claiming, releasing and validating touch their own columns of one row. */
  lemma RowOnlyEffect(db: Db, op: Op)
    requires (op.ClaimRefresh? || op.ReleaseRefresh? || op.RecordValidation?) && Apply(db, op).Ok?
    ensures var id := RowOf(op);
            && id in db.integrations
            && var row := db.integrations[id];
            Apply(db, op).value == db.(integrations := db.integrations[id :=
              if op.ClaimRefresh? then
                row.(claimOwner := Some(op.owner), claimGeneration := Some(op.gen), claimEpoch := row.claimEpoch + 1,
                     leaseExpiresAt := Some(op.now + 30_000), restoreActive := row.active)
              else if op.ReleaseRefresh? then
                row.(claimOwner := None, claimGeneration := None, leaseExpiresAt := None, restoreActive := false)
              else row.(validation := op.outcome, validatedAt := Some(op.now), errorCode := op.errorCode)])
  {
    hide HasLiveAttempt;
  }

  // ---- What it does to attempts ----

  /**
   A beginning ends the integration's active attempt, moves the generation, withdraws the refresh claim,
   and stores an unclaimed attempt for that generation with fifteen minutes to live and the wish
   recorded.
   */
  lemma BeginEffect(db: Db, op: Op)
    requires op.BeginDevice? && Apply(db, op).Ok?
    ensures var (db', row) := (Apply(db, op).value, db.integrations[op.id]);
            && db'.integrations == db.integrations[op.id := row.(generation := op.gen + 1, sourceGeneration := None,
                 claimOwner := None, claimGeneration := None, leaseExpiresAt := None, restoreActive := false)]
            && db'.attempts.Keys == db.attempts.Keys + {op.attempt}
            && (forall a :: a in db.attempts ==>
                  var (t, t') := (db.attempts[a], db'.attempts[a]);
                  if t.state == Active && t.integration == op.id then
                    t' == t.(state := Cancelled, payload := None, claimOwner := None, claimLease := None,
                             errorCode := Some("superseded"))
                  else t' == t)
            && var t := db'.attempts[op.attempt];
            && t.user == op.user && t.integration == op.id && t.state == Active && t.expected == op.gen + 1
            && t.payload == Some(op.payload) && t.deadline == op.now + 900_000
            && t.pollInterval == op.interval && t.nextPollAt == op.now + op.interval
            && t.claimOwner == None && t.claimLease == None && t.claimEpoch == 0 && t.errorCode == None
            && (t.activateOnCompletion <==> row.active || |Accounts(db, row.user, row.provider)| == 1)
            && (forall a :: a in db.attempts && db.attempts[a].integration == op.id ==>
                              db.attempts[a].generation < t.generation)
  {
    hide Accounts;
    var db' := Apply(db, op).value;
    assert db'.attempts.Keys == db.attempts.Keys + {op.attempt};
    forall a | a in db.attempts && db.attempts[a].integration == op.id
      ensures db.attempts[a].generation < db'.attempts[op.attempt].generation
    {
      assert db.attempts[a].generation in Generations(db, op.id);
    }
  }

  /** How a transaction ends attempts: the final state and the recorded reason. */
  lemma EndingEffect(db: Db, op: Op, a: Uuid)
    requires op.CompleteDevice? || op.FailDevice? || op.CancelDevice? || op.ExpireDevices?
    requires Apply(db, op).Ok? && a in db.attempts
    ensures var (db', t) := (Apply(db, op).value, db.attempts[a]);
            && db'.attempts.Keys == db.attempts.Keys
            && (!op.CompleteDevice? ==> db'.integrations == db.integrations)
            && var ends := match op
                           case CompleteDevice(_, c, _, _, _) => c.attempt == a
                           case FailDevice(_, c, _, _) => c.attempt == a
                           case CancelDevice(_, attempt, _) => attempt == a
                           case ExpireDevices(user, id, now) =>
                             t.state == Active && t.user == user && t.integration == id && t.deadline <= now;
            var state := if op.CompleteDevice? then Completed else if op.FailDevice? then Failed
                         else if op.CancelDevice? then Cancelled else Expired;
            var reason := if op.FailDevice? then Some(op.code)
                          else if op.ExpireDevices? then Some("deadline_exceeded") else None;
            var ended := t.(state := state, payload := None, claimOwner := None, claimLease := None,
                            errorCode := reason);
            db'.attempts[a] == if ends then ended else t
  {
    hide AnyActive, WithCredentials;
    var db' := Apply(db, op).value;
    assert db'.attempts.Keys == db.attempts.Keys;
  }

  /** What a holder may change about its attempt: the lease, the next poll, or the payload. */
  lemma TouchEffect(db: Db, op: Op)
    requires op.TouchDevice? && Apply(db, op).Ok?
    ensures op.device.attempt in db.attempts
    ensures var t := db.attempts[op.device.attempt];
            Apply(db, op).value == db.(attempts := db.attempts[op.device.attempt :=
              match op.touch
              case Renew => t.(claimLease := Some(op.now + 30_000))
              case AdmitPoll => t.(claimLease := Some(op.now + 30_000), nextPollAt := op.now + t.pollInterval)
              case SchedulePoll => t.(nextPollAt := op.now + t.pollInterval)
              case StoreExchange(payload) => t.(payload := Some(payload))
              case AdmitExchange => t.(claimLease := Some(op.now + 30_000))])
  {
  }

  /** Cleanup deletes finished attempts only. */
  lemma CleanupEffect(db: Db, ids: set<Uuid>)
    ensures var db' := Apply(db, Cleanup(ids)).value;
            && db'.integrations == db.integrations
            && (forall a :: a in db'.attempts <==> a in db.attempts && (a !in ids || db.attempts[a].state == Active))
            && (forall a :: a in db'.attempts ==> db'.attempts[a] == db.attempts[a])
  {
  }

  // ---- What an account holds, over runs ----

  function CredentialsOf(db: Db, i: Uuid): Option<Sealed>
  {
    if i in db.integrations then db.integrations[i].credentials else None
  }

  /** The credentials most recently stored for the account, unless a disconnection removed them since. */
  function LastStored(facts: seq<Fact>, i: Uuid): Option<Sealed>
  {
    if facts == [] then None
    else
      var last := facts[|facts| - 1];
      if last.Stored? && last.integration == i then last.credentials else LastStored(facts[..|facts| - 1], i)
  }

  lemma {:induction false} LastStoredSplits(facts: seq<Fact>, added: seq<Fact>, i: Uuid)
    requires forall k :: 0 <= k < |added| ==> !(added[k].Stored? && added[k].integration == i)
    ensures LastStored(facts + added, i) == LastStored(facts, i)
    decreases |added|
  {
    if added == [] {
      assert facts + added == facts;
    } else {
      var all := facts + added;
      assert all[..|all| - 1] == facts + added[..|added| - 1];
      LastStoredSplits(facts, added[..|added| - 1], i);
    }
  }

  lemma StoredStep(db: Db, op: Op, i: Uuid)
    requires Apply(db, op).Ok?
    ensures var (facts, now) := (Facts(db, op), CredentialsOf(Apply(db, op).value, i));
            if facts != [] && facts[|facts| - 1].Stored? && facts[|facts| - 1].integration == i then
              now == facts[|facts| - 1].credentials
            else
              && now == CredentialsOf(db, i)
              && forall k :: 0 <= k < |facts| ==> !(facts[k].Stored? && facts[k].integration == i)
  {
    if IsRowOp(op) { RowOpStores(db, op, i); } else { AttemptOpStores(db, op, i); }
  }

  lemma RowOpStores(db: Db, op: Op, i: Uuid)
    requires Apply(db, op).Ok? && IsRowOp(op)
    ensures var (facts, now) := (Facts(db, op), CredentialsOf(Apply(db, op).value, i));
            if facts != [] && facts[|facts| - 1].Stored? && facts[|facts| - 1].integration == i then
              now == facts[|facts| - 1].credentials
            else
              && now == CredentialsOf(db, i)
              && forall k :: 0 <= k < |facts| ==> !(facts[k].Stored? && facts[k].integration == i)
  {
    hide AnyActive, Accounts, HasLiveAttempt;
  }

  lemma AttemptOpStores(db: Db, op: Op, i: Uuid)
    requires Apply(db, op).Ok? && !IsRowOp(op)
    ensures var (facts, now) := (Facts(db, op), CredentialsOf(Apply(db, op).value, i));
            if facts != [] && facts[|facts| - 1].Stored? && facts[|facts| - 1].integration == i then
              now == facts[|facts| - 1].credentials
            else
              && now == CredentialsOf(db, i)
              && forall k :: 0 <= k < |facts| ==> !(facts[k].Stored? && facts[k].integration == i)
  {
    hide AnyActive, Accounts, NextAttemptGeneration, DeviceClaimable, DeviceHeld, Superseded, Touched, Terminal,
         SelectionIntent;
  }

  ghost predicate StoredInv(w: World)
  {
    forall i: Uuid :: CredentialsOf(w.db, i) == LastStored(w.facts, i)
  }

  lemma StepKeepsStored(w: World, op: Op)
    requires StoredInv(w)
    ensures StoredInv(Step(w, op))
  {
    hide Apply, Facts, CredentialsOf, LastStored;
    if Apply(w.db, op).Ok? {
      var added := Facts(w.db, op);
      forall i: Uuid
        ensures CredentialsOf(Step(w, op).db, i) == LastStored(w.facts + added, i)
      {
        StoredStep(w.db, op, i);
        if added != [] && added[|added| - 1].Stored? && added[|added| - 1].integration == i {
          LastStoredLast(w.facts + added, i);
        } else {
          LastStoredSplits(w.facts, added, i);
        }
      }
    }
  }

  lemma LastStoredLast(facts: seq<Fact>, i: Uuid)
    requires facts != [] && facts[|facts| - 1].Stored? && facts[|facts| - 1].integration == i
    ensures LastStored(facts, i) == facts[|facts| - 1].credentials
  {
  }

  lemma {:induction false} RunKeepsStored(w: World, ops: seq<Op>)
    requires StoredInv(w)
    ensures StoredInv(Run(w, ops))
    ensures w.facts <= Run(w, ops).facts
    decreases |ops|
  {
    hide StoredInv, Apply, Facts;
    if ops != [] {
      StepKeepsStored(w, ops[0]);
      RunKeepsStored(Step(w, ops[0]), ops[1..]);
    }
  }

  /**
   In every run an account holds exactly the credentials of the latest install or completed
   authorization on record, and none if a disconnection came after it; it is disconnected if and only
   if it holds none.
   */
  lemma HoldsTheLastStored(ops: seq<Op>, i: Uuid)
    requires FreshRun(EMPTY, ops) && i in Run(EMPTY, ops).db.integrations
    ensures var (w, row) := (Run(EMPTY, ops), Run(EMPTY, ops).db.integrations[i]);
            && row.credentials == LastStored(w.facts, i)
            && (row.connection == Disconnected <==> LastStored(w.facts, i) == None)
  {
    EmptyInv();
    assert StoredInv(EMPTY);
    hide Run, FreshRun, LastStored;
    RunKeepsInv(EMPTY, ops);
    RunKeepsStored(EMPTY, ops);
    var w := Run(EMPTY, ops);
    assert StoredInv(w);
    assert CredentialsOf(w.db, i) == LastStored(w.facts, i);
    assert Inv(w);
    hide GenerationInv, RefreshWishInv, DeviceWishInv, BegunInv, UsedInv;
    assert RowOk(w.db.integrations[i]);
  }

  /** Between the two histories no credentials are stored for the account. */
  ghost predicate NothingStored(before: seq<Fact>, after: seq<Fact>, i: Uuid)
  {
    forall k :: |before| <= k < |after| ==> !(after[k].Stored? && after[k].integration == i)
  }

  /**
   After a disconnection, over any run, the account stays disconnected, deselected and empty until
   credentials stored for it are on record.
   */
  lemma DisconnectedUntilInstalled(w: World, op: Op, ops: seq<Op>)
    requires Inv(w) && StoredInv(w) && op.Disconnect? && Apply(w.db, op).Ok? && FreshRun(Step(w, op), ops)
    requires NothingStored(Step(w, op).facts, Run(Step(w, op), ops).facts, op.id)
    ensures var db := Run(Step(w, op), ops).db;
            && op.id in db.integrations && db.integrations[op.id].credentials == None
            && db.integrations[op.id].connection == Disconnected && !db.integrations[op.id].active
  {
    hide Run, FreshRun, LastStored, Apply, Facts, Inv, StoredInv, Step, RowOk, NothingStored;
    var w' := Step(w, op);
    EmptyAtOnce(w, op);
    StepKeepsInv(w, op);
    RunKeepsInv(w', ops);
    CountersNeverDecrease(w', ops);
    StepKeepsStored(w, op);
    RunKeepsStored(w', ops);
    var later := Run(w', ops);
    NothingStoredSince(w', later, op.id);
    InvTables(later);
    EmptyMeansDisconnected(later.db, op.id);
  }

  lemma EmptyAtOnce(w: World, op: Op)
    requires op.Disconnect? && Apply(w.db, op).Ok?
    ensures op.id in Step(w, op).db.integrations && CredentialsOf(Step(w, op).db, op.id) == None
  {
    DisconnectEffect(w.db, op);
  }

  lemma EmptyMeansDisconnected(db: Db, i: Uuid)
    requires Tables(db) && i in db.integrations && db.integrations[i].credentials == None
    ensures db.integrations[i].connection == Disconnected && !db.integrations[i].active
  {
    hide OneActiveAccount, OneActiveAttempt, Linked;
    assert RowOk(db.integrations[i]);
  }

  lemma NothingStoredSince(w: World, later: World, i: Uuid)
    requires StoredInv(w) && StoredInv(later) && w.facts <= later.facts
    requires NothingStored(w.facts, later.facts, i)
    ensures CredentialsOf(later.db, i) == CredentialsOf(w.db, i)
  {
    hide LastStored, CredentialsOf;
    var more := later.facts[|w.facts|..];
    assert forall k :: 0 <= k < |more| ==> more[k] == later.facts[|w.facts| + k];
    assert later.facts == w.facts + more;
    LastStoredSplits(w.facts, more, i);
  }
}
