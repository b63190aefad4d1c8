/**
 Provider integrations, device-authorization attempts and refresh claims (lib/kodo/integrations.ex).
 Every transaction is one step on two tables; a refused one changes nothing.
 */
module Credentials {
  import opened Prelude

  /** Milliseconds of the database clock. */
  type Time = nat

  /** An encrypted payload with its key and format versions, which are always set and cleared together. */
  type Sealed = nat

  type UserId = nat

  const REFRESH_CLAIM_LEASE_MS: nat := 30_000
  const DEVICE_CLAIM_LEASE_MS: nat := 30_000
  const DEVICE_LIFETIME_MS: nat := 15 * 60 * 1000
  const MAX_POLL_INTERVAL_MS: nat := 900_000

  datatype Provider = OpenAI | OpenAICodex | Anthropic | OpenRouter

  datatype AuthType = ApiKey | OAuth

  datatype Connection = Disconnected | Connected | ReauthorizationRequired

  datatype Validation = Unverified | Valid | Invalid | Unavailable

  datatype Integration = Integration(
    user: UserId, provider: Provider, auth: AuthType, active: bool,
    connection: Connection, validation: Validation, credentials: Option<Sealed>, generation: nat,
    expiresAt: Option<Time>, validatedAt: Option<Time>, refreshedAt: Option<Time>, errorCode: Option<string>,
    claimOwner: Option<Uuid>, claimEpoch: nat, claimGeneration: Option<nat>, leaseExpiresAt: Option<Time>,
    sourceGeneration: Option<nat>, restoreActive: bool)

  datatype AttemptState = Active | Completed | Cancelled | Expired | Failed

  datatype Attempt = Attempt(
    user: UserId, integration: Uuid, provider: Provider, state: AttemptState, generation: nat, expected: nat,
    activateOnCompletion: bool, payload: Option<Sealed>, deadline: Time, pollInterval: nat, nextPollAt: Time,
    claimOwner: Option<Uuid>, claimLease: Option<Time>, claimEpoch: nat, errorCode: Option<string>)

  datatype Db = Db(integrations: map<Uuid, Integration>, attempts: map<Uuid, Attempt>)

  datatype Error =
    | NotFound | Conflict | StaleGeneration | AuthenticationTypeMismatch | NotConnected
    | ReauthorizationInProgress | RefreshInProgress | StaleRefreshClaim
    | DeviceInvalid | NotClaimable | StaleDeviceClaim | PollNotDue | ResponseInvalid | StaleDevice

  /** The snapshot a refresher holds. */
  datatype RefreshClaim = RefreshClaim(integration: Uuid, generation: nat, owner: Uuid, epoch: nat)

  /** The snapshot a device-authorization worker holds. */
  datatype DeviceClaim = DeviceClaim(integration: Uuid, attempt: Uuid, generation: nat, owner: Uuid, epoch: nat)

  datatype InstallKind = ReplaceKey | ReconnectKey | OauthSucceeded | RefreshSucceeded

  datatype Install = Install(kind: InstallKind, sealed: Sealed, expiresAt: Option<Time>, refreshedAt: Option<Time>,
                             restoreActive: bool)

  datatype Touch = Renew | AdmitPoll | SchedulePoll | StoreExchange(payload: Sealed) | AdmitExchange

  datatype Op =
    | CreateOauth(user: UserId, id: Uuid)
    | Connect(user: UserId, id: Uuid, provider: Provider, sealed: Sealed, expiresAt: Option<Time>)
    | InstallCredentials(user: UserId, id: Uuid, gen: nat, install: Install)
    | ClaimRefresh(user: UserId, id: Uuid, gen: nat, owner: Uuid, now: Time)
    | ReleaseRefresh(user: UserId, refresh: RefreshClaim)
    | RequireReauthorization(user: UserId, refresh: RefreshClaim, code: string)
    | RecordValidation(user: UserId, id: Uuid, gen: nat, outcome: Validation, errorCode: Option<string>, now: Time)
    | InvalidGrant(user: UserId, id: Uuid, gen: nat)
    | Disconnect(user: UserId, id: Uuid, gen: nat)
    | Activate(user: UserId, id: Uuid, gen: nat)
    | BeginDevice(user: UserId, id: Uuid, gen: nat, attempt: Uuid, payload: Sealed, interval: nat, now: Time)
    | ClaimDevice(user: UserId, id: Uuid, owner: Uuid, now: Time)
    | TouchDevice(user: UserId, device: DeviceClaim, touch: Touch, now: Time)
    | CompleteDevice(user: UserId, device: DeviceClaim, sealed: Sealed, expiry: Time, now: Time)
    | FailDevice(user: UserId, device: DeviceClaim, code: string, now: Time)
    | CancelDevice(user: UserId, attempt: Uuid, generation: nat)
    | ExpireDevices(user: UserId, id: Uuid, now: Time)
    | Cleanup(ids: set<Uuid>)

  type Outcome = Result<Db, Error>

  // ---- Queries ----

  predicate Owns(db: Db, user: UserId, id: Uuid) { id in db.integrations && db.integrations[id].user == user }

  predicate Sibling(row: Integration, user: UserId, provider: Provider) { row.user == user && row.provider == provider }

  function Accounts(db: Db, user: UserId, provider: Provider): set<Uuid>
  {
    set i | i in db.integrations && Sibling(db.integrations[i], user, provider)
  }

  predicate AnyActive(db: Db, user: UserId, provider: Provider)
  {
    exists i :: i in db.integrations && Sibling(db.integrations[i], user, provider) && db.integrations[i].active
  }

  predicate HasActiveAttempt(db: Db, id: Uuid)
  {
    exists a :: a in db.attempts && db.attempts[a].integration == id && db.attempts[a].state == Active
  }

  predicate HasLiveAttempt(db: Db, id: Uuid, now: Time)
  {
    exists a :: a in db.attempts && db.attempts[a].integration == id && db.attempts[a].state == Active
                && now < db.attempts[a].deadline
  }

  /** `exact_refresh_claim_query`. */
  predicate RefreshMatches(db: Db, c: RefreshClaim)
  {
    && c.integration in db.integrations
    && var row := db.integrations[c.integration];
    row.generation == c.generation && row.claimOwner == Some(c.owner) && row.claimEpoch == c.epoch
  }

  /** The fence of a completing attempt: neither its deadline nor its lease is consulted. */
  predicate DeviceMatches(db: Db, c: DeviceClaim)
  {
    && c.attempt in db.attempts && c.integration in db.integrations
    && var a := db.attempts[c.attempt];
    && a.integration == c.integration && a.generation == c.generation && a.state == Active
    && a.claimOwner == Some(c.owner) && a.claimEpoch == c.epoch
    && a.expected == db.integrations[c.integration].generation
  }

  /** `claimed_device_authorization_query`: the fence, with lease and deadline in the future. */
  predicate DeviceHeld(db: Db, user: UserId, c: DeviceClaim, now: Time)
  {
    && c.attempt in db.attempts
    && var a := db.attempts[c.attempt];
    && DeviceMatches(db, c.(integration := a.integration))
    && a.user == user && db.integrations[a.integration].user == user
    && a.claimLease.Some? && now < a.claimLease.value && now < a.deadline
  }

  predicate DeviceClaimable(db: Db, user: UserId, id: Uuid, a: Attempt, now: Time)
  {
    && a.user == user && a.integration == id && a.state == Active && now < a.deadline
    && id in db.integrations && db.integrations[id].user == user && db.integrations[id].generation == a.expected
    && (a.claimOwner.None? || (a.claimLease.Some? && a.claimLease.value <= now))
  }

  function Generations(db: Db, id: Uuid): set<nat>
  {
    set a | a in db.attempts && db.attempts[a].integration == id :: db.attempts[a].generation
  }

  lemma {:induction false} MaxOf(s: set<nat>) returns (m: nat)
    requires s != {}
    ensures m in s && forall x :: x in s ==> x <= m
  {
    m :| m in s;
    var rest := s - {m};
    if rest != {} {
      var other := MaxOf(rest);
      assert forall x :: x in s ==> x == m || x in rest;
      m := if other < m then m else other;
    } else {
      assert s == {m};
    }
  }

  lemma MaxExists(s: set<nat>)
    requires s != {}
    ensures exists m :: m in s && forall x :: x in s ==> x <= m
  {
    var m := MaxOf(s);
  }

  /** One past the largest attempt generation still stored. */
  function NextAttemptGeneration(db: Db, id: Uuid): (n: nat)
    ensures n > 0 && forall g :: g in Generations(db, id) ==> g < n
    ensures if Generations(db, id) == {} then n == 1 else n - 1 in Generations(db, id)
  {
    var s := Generations(db, id);
    if s == {} then 1
    else
      MaxExists(s);
      var m :| m in s && forall x :: x in s ==> x <= m;
      m + 1
  }

  // ---- Row changes ----

  /** `terminal_attempt_changes`. */
  function Terminal(a: Attempt, state: AttemptState, code: Option<string>): Attempt
  {
    a.(state := state, payload := None, claimOwner := None, claimLease := None, errorCode := code)
  }

  function Unclaimed(row: Integration): Integration
  {
    row.(claimOwner := None, claimGeneration := None, leaseExpiresAt := None)
  }

  /** A connected account's first or new credentials, one generation later. */
  function WithCredentials(row: Integration, sealed: Sealed, expiresAt: Option<Time>, refreshedAt: Option<Time>,
                           source: Option<nat>): Integration
  {
    row.(connection := Connected, validation := Unverified, credentials := Some(sealed),
         generation := row.generation + 1, sourceGeneration := source, expiresAt := expiresAt, validatedAt := None,
         refreshedAt := refreshedAt, errorCode := None)
  }

  function Emptied(row: Integration): Integration
  {
    Unclaimed(row).(connection := Disconnected, active := false, validation := Unverified, credentials := None,
                    generation := row.generation + 1, sourceGeneration := None, expiresAt := None, validatedAt := None,
                    refreshedAt := None, errorCode := None, restoreActive := false)
  }

  function Fresh(user: UserId, provider: Provider, auth: AuthType): Integration
  {
    Integration(user, provider, auth, false, Disconnected, Unverified, None, 0, None, None, None, None, None, 0, None,
                None, None, false)
  }

  // ---- Transactions on integrations ----

  function AfterCreateOauth(db: Db, user: UserId, id: Uuid): Outcome
  {
    if id in db.integrations then Err(Conflict)
    else Ok(db.(integrations := db.integrations[id := Fresh(user, OpenAICodex, OAuth)]))
  }

  function AfterConnect(db: Db, user: UserId, id: Uuid, provider: Provider, sealed: Sealed,
                        expiresAt: Option<Time>): Outcome
  {
    if provider == OpenAICodex then Err(AuthenticationTypeMismatch)
    else if id in db.integrations then Err(Conflict)
    else
      var row := WithCredentials(Fresh(user, provider, ApiKey), sealed, expiresAt, None, None);
      Ok(db.(integrations := db.integrations[id := row.(active := Accounts(db, user, provider) == {})]))
  }

  function RequiredAuth(kind: InstallKind): AuthType
  {
    if kind == ReplaceKey || kind == ReconnectKey then ApiKey else OAuth
  }

  predicate Allowed(kind: InstallKind, connection: Connection)
  {
    match kind
    case ReplaceKey => connection == Connected
    case ReconnectKey => connection == Disconnected
    case OauthSucceeded => true
    case RefreshSucceeded => connection == Connected || connection == ReauthorizationRequired
  }

  /** Why an install or a finished authorization may select an account: nothing else is selected. */
  predicate MaySelect(db: Db, row: Integration, intent: bool)
  {
    intent && !AnyActive(db, row.user, row.provider)
  }

  /** The first OAuth credentials of a user's only account at a provider. */
  predicate IsInitialOauth(db: Db, row: Integration, install: Install)
  {
    install.kind == OauthSucceeded && row.generation == 0 && |Accounts(db, row.user, row.provider)| == 1
  }

  function AfterInstall(db: Db, user: UserId, id: Uuid, gen: nat, install: Install): Outcome
  {
    if !Owns(db, user, id) then Err(NotFound)
    else
      var row := db.integrations[id];
      if row.generation != gen then Err(StaleGeneration)
      else if row.auth != RequiredAuth(install.kind) then Err(AuthenticationTypeMismatch)
      else if !Allowed(install.kind, row.connection) then Err(StaleGeneration)
      else
        var source := if install.kind == RefreshSucceeded then Some(gen) else None;
        var replaced := WithCredentials(row, install.sealed, install.expiresAt, install.refreshedAt, source);
        var installed := Unclaimed(replaced);
        var selected := row.active
                        || MaySelect(db, row, IsInitialOauth(db, row, install))
                        || MaySelect(db, row, install.restoreActive && row.restoreActive);
        Ok(db.(integrations := db.integrations[id := installed.(restoreActive := false, active := selected)]))
  }

  predicate Refreshable(db: Db, user: UserId, id: Uuid, gen: nat, now: Time)
  {
    && Owns(db, user, id)
    && var row := db.integrations[id];
    && row.provider == OpenAICodex && row.auth == OAuth && row.connection == Connected && row.generation == gen
    && (row.claimOwner.None? || (row.leaseExpiresAt.Some? && row.leaseExpiresAt.value <= now))
    && !HasLiveAttempt(db, id, now)
  }

  function RefreshConflict(db: Db, user: UserId, id: Uuid, gen: nat): Error
  {
    if !Owns(db, user, id) then NotFound
    else if db.integrations[id].generation != gen then StaleGeneration
    else if HasActiveAttempt(db, id) then ReauthorizationInProgress
    else if db.integrations[id].claimOwner.Some? then RefreshInProgress
    else StaleGeneration
  }

  function AfterClaimRefresh(db: Db, user: UserId, id: Uuid, gen: nat, owner: Uuid, now: Time): Outcome
  {
    if !Refreshable(db, user, id, gen, now) then Err(RefreshConflict(db, user, id, gen))
    else
      var row := db.integrations[id];
      Ok(db.(integrations := db.integrations[id := row.(claimOwner := Some(owner), claimGeneration := Some(gen),
                                                        restoreActive := row.active, claimEpoch := row.claimEpoch + 1,
                                                        leaseExpiresAt := Some(now + REFRESH_CLAIM_LEASE_MS))]))
  }

  predicate HoldsRefresh(db: Db, user: UserId, c: RefreshClaim)
  {
    RefreshMatches(db, c) && db.integrations[c.integration].user == user
  }

  /** `release_refresh_claim` and `fail_refresh`. */
  function AfterRelease(db: Db, user: UserId, c: RefreshClaim): Outcome
  {
    if !HoldsRefresh(db, user, c) then Err(StaleRefreshClaim)
    else
      var row := Unclaimed(db.integrations[c.integration]).(restoreActive := false);
      Ok(db.(integrations := db.integrations[c.integration := row]))
  }

  /** The account loses its selection but keeps the wish to have it back. */
  function AfterRequireReauthorization(db: Db, user: UserId, c: RefreshClaim, code: string): Outcome
  {
    if !HoldsRefresh(db, user, c) then Err(StaleRefreshClaim)
    else
      var row := Unclaimed(db.integrations[c.integration])
                 .(connection := ReauthorizationRequired, active := false, validation := Unverified,
                   validatedAt := None, errorCode := Some(code));
      Ok(db.(integrations := db.integrations[c.integration := row]))
  }

  /** The fence of `update_fenced` on a connected account. */
  predicate ConnectedAt(db: Db, user: UserId, id: Uuid, gen: nat)
  {
    Owns(db, user, id) && db.integrations[id].generation == gen && db.integrations[id].connection == Connected
  }

  function AfterValidation(db: Db, user: UserId, id: Uuid, gen: nat, outcome: Validation, code: Option<string>,
                           now: Time): Outcome
  {
    if !ConnectedAt(db, user, id, gen) then Err(StaleGeneration)
    else
      var row := db.integrations[id].(validation := outcome, validatedAt := Some(now), errorCode := code);
      Ok(db.(integrations := db.integrations[id := row]))
  }

  function AfterInvalidGrant(db: Db, user: UserId, id: Uuid, gen: nat): Outcome
  {
    if !Owns(db, user, id) then Err(NotFound)
    else if db.integrations[id].auth != OAuth then Err(AuthenticationTypeMismatch)
    else if !ConnectedAt(db, user, id, gen) then Err(StaleGeneration)
    else
      var row := db.integrations[id].(connection := ReauthorizationRequired, active := false, validation := Unverified,
                                      validatedAt := None, errorCode := None);
      Ok(db.(integrations := db.integrations[id := row]))
  }

  /** A user's choice at a provider withdraws every pending wish to reselect an account there. */
  predicate WithdrawnAttempt(a: Attempt, user: UserId, provider: Provider)
  {
    a.user == user && a.provider == provider && a.state == Active
  }

  function AfterDisconnect(db: Db, user: UserId, id: Uuid, gen: nat): Outcome
  {
    if !Owns(db, user, id) || db.integrations[id].generation != gen then Err(StaleGeneration)
    else
      var provider := db.integrations[id].provider;
      Ok(Db(map i | i in db.integrations ::
              if i == id then Emptied(db.integrations[i])
              else if Sibling(db.integrations[i], user, provider) then db.integrations[i].(restoreActive := false)
              else db.integrations[i],
            map a | a in db.attempts ::
              var t := db.attempts[a];
              var withdrawn := if WithdrawnAttempt(t, user, provider) then t.(activateOnCompletion := false) else t;
              if withdrawn.user == user && withdrawn.integration == id && withdrawn.state == Active then
                Terminal(withdrawn, Cancelled, Some("integration_disconnected"))
              else withdrawn))
  }

  function AfterActivate(db: Db, user: UserId, id: Uuid, gen: nat): Outcome
  {
    if !Owns(db, user, id) then Err(NotFound)
    else if db.integrations[id].generation != gen then Err(StaleGeneration)
    else if db.integrations[id].connection != Connected then Err(NotConnected)
    else
      var provider := db.integrations[id].provider;
      Ok(Db(map i | i in db.integrations ::
              if !Sibling(db.integrations[i], user, provider) then db.integrations[i]
              else if db.integrations[id].active then db.integrations[i].(restoreActive := false)
              else db.integrations[i].(restoreActive := false, active := i == id),
            map a | a in db.attempts ::
              if WithdrawnAttempt(db.attempts[a], user, provider) then db.attempts[a].(activateOnCompletion := false)
              else db.attempts[a]))
  }

  // ---- Transactions on attempts ----

  /** The wish recorded when an authorization begins: it was selected, or there is no other account. */
  predicate SelectionIntent(db: Db, row: Integration)
  {
    row.active || |Accounts(db, row.user, row.provider)| == 1
  }

  function Begun(db: Db, user: UserId, id: Uuid, payload: Sealed, interval: nat, now: Time): Attempt
    requires id in db.integrations
  {
    Attempt(user, id, OpenAICodex, Active, NextAttemptGeneration(db, id), db.integrations[id].generation + 1,
            SelectionIntent(db, db.integrations[id]), Some(payload), now + DEVICE_LIFETIME_MS, interval, now + interval,
            None, None, 0, None)
  }

  /** A new authorization ends the integration's active one. */
  function Superseded(attempts: map<Uuid, Attempt>, id: Uuid): map<Uuid, Attempt>
  {
    map a | a in attempts ::
      if attempts[a].integration == id && attempts[a].state == Active then
        Terminal(attempts[a], Cancelled, Some("superseded"))
      else attempts[a]
  }

  function AfterBegin(db: Db, user: UserId, id: Uuid, gen: nat, attempt: Uuid, payload: Sealed, interval: nat,
                      now: Time): Outcome
  {
    if interval > MAX_POLL_INTERVAL_MS then Err(DeviceInvalid)
    else if !Owns(db, user, id) then Err(NotFound)
    else if db.integrations[id].generation != gen then Err(StaleGeneration)
    else if db.integrations[id].provider != OpenAICodex || db.integrations[id].auth != OAuth then
      Err(AuthenticationTypeMismatch)
    else if attempt in db.attempts then Err(Conflict)
    else
      var row := Unclaimed(db.integrations[id]).(generation := gen + 1, sourceGeneration := None,
                                                 restoreActive := false);
      var begun := Begun(db, user, id, payload, interval, now);
      Ok(Db(db.integrations[id := row], Superseded(db.attempts, id)[attempt := begun]))
  }

  function AfterClaimDevice(db: Db, user: UserId, id: Uuid, owner: Uuid, now: Time): Outcome
  {
    if !exists a :: a in db.attempts && DeviceClaimable(db, user, id, db.attempts[a], now) then Err(NotClaimable)
    else
      Ok(db.(attempts :=
               map a | a in db.attempts ::
                 if DeviceClaimable(db, user, id, db.attempts[a], now) then
                   db.attempts[a].(claimOwner := Some(owner), claimLease := Some(now + DEVICE_CLAIM_LEASE_MS),
                                   claimEpoch := db.attempts[a].claimEpoch + 1)
                 else db.attempts[a]))
  }

  function Touched(a: Attempt, touch: Touch, now: Time): Attempt
  {
    match touch
    case Renew => a.(claimLease := Some(now + DEVICE_CLAIM_LEASE_MS))
    case AdmitPoll => a.(nextPollAt := now + a.pollInterval, claimLease := Some(now + DEVICE_CLAIM_LEASE_MS))
    case SchedulePoll => a.(nextPollAt := now + a.pollInterval)
    case StoreExchange(payload) => a.(payload := Some(payload))
    case AdmitExchange => a.(claimLease := Some(now + DEVICE_CLAIM_LEASE_MS))
  }

  function AfterTouch(db: Db, user: UserId, c: DeviceClaim, touch: Touch, now: Time): Outcome
  {
    if !DeviceHeld(db, user, c, now) then Err(StaleDeviceClaim)
    else if touch == AdmitPoll && now < db.attempts[c.attempt].nextPollAt then Err(PollNotDue)
    else Ok(db.(attempts := db.attempts[c.attempt := Touched(db.attempts[c.attempt], touch, now)]))
  }

  function AfterComplete(db: Db, user: UserId, c: DeviceClaim, sealed: Sealed, expiry: Time, now: Time): Outcome
  {
    if !Owns(db, user, c.integration) then Err(NotFound)
    else if expiry <= now then Err(ResponseInvalid)
    else if !DeviceMatches(db, c) || db.attempts[c.attempt].user != user then Err(StaleDeviceClaim)
    else
      var row, a := db.integrations[c.integration], db.attempts[c.attempt];
      var selected := row.active || MaySelect(db, row, a.activateOnCompletion);
      var installed := WithCredentials(row, sealed, Some(expiry), Some(now), None);
      Ok(Db(db.integrations[c.integration := installed.(active := selected)],
            db.attempts[c.attempt := Terminal(a, Completed, None)]))
  }

  function AfterFail(db: Db, user: UserId, c: DeviceClaim, code: string, now: Time): Outcome
  {
    if !Owns(db, user, c.integration) then Err(NotFound)
    else if !DeviceHeld(db, user, c, now) then Err(StaleDeviceClaim)
    else Ok(db.(attempts := db.attempts[c.attempt := Terminal(db.attempts[c.attempt], Failed, Some(code))]))
  }

  function AfterCancel(db: Db, user: UserId, attempt: Uuid, generation: nat): Outcome
  {
    if attempt !in db.attempts || db.attempts[attempt].user != user then Err(StaleDevice)
    else if !Owns(db, user, db.attempts[attempt].integration) then Err(NotFound)
    else if db.attempts[attempt].state != Active || db.attempts[attempt].generation != generation then Err(StaleDevice)
    else Ok(db.(attempts := db.attempts[attempt := Terminal(db.attempts[attempt], Cancelled, None)]))
  }

  function AfterExpire(db: Db, user: UserId, id: Uuid, now: Time): Outcome
  {
    Ok(db.(attempts :=
             map a | a in db.attempts ::
               if db.attempts[a].user == user && db.attempts[a].integration == id && db.attempts[a].state == Active
                  && db.attempts[a].deadline <= now then
                 Terminal(db.attempts[a], Expired, Some("deadline_exceeded"))
               else db.attempts[a]))
  }

  /** Old finished attempts are deleted; which ones are old is the clock's choice. */
  function AfterCleanup(db: Db, ids: set<Uuid>): Outcome
  {
    Ok(db.(attempts := map a | a in db.attempts && (a !in ids || db.attempts[a].state == Active) :: db.attempts[a]))
  }

  function Apply(db: Db, op: Op): Outcome
  {
    match op
    case CreateOauth(user, id) => AfterCreateOauth(db, user, id)
    case Connect(user, id, provider, sealed, expiresAt) => AfterConnect(db, user, id, provider, sealed, expiresAt)
    case InstallCredentials(user, id, gen, install) => AfterInstall(db, user, id, gen, install)
    case ClaimRefresh(user, id, gen, owner, now) => AfterClaimRefresh(db, user, id, gen, owner, now)
    case ReleaseRefresh(user, c) => AfterRelease(db, user, c)
    case RequireReauthorization(user, c, code) => AfterRequireReauthorization(db, user, c, code)
    case RecordValidation(user, id, gen, outcome, code, now) => AfterValidation(db, user, id, gen, outcome, code, now)
    case InvalidGrant(user, id, gen) => AfterInvalidGrant(db, user, id, gen)
    case Disconnect(user, id, gen) => AfterDisconnect(db, user, id, gen)
    case Activate(user, id, gen) => AfterActivate(db, user, id, gen)
    case BeginDevice(user, id, gen, attempt, payload, interval, now) =>
      AfterBegin(db, user, id, gen, attempt, payload, interval, now)
    case ClaimDevice(user, id, owner, now) => AfterClaimDevice(db, user, id, owner, now)
    case TouchDevice(user, c, touch, now) => AfterTouch(db, user, c, touch, now)
    case CompleteDevice(user, c, sealed, expiry, now) => AfterComplete(db, user, c, sealed, expiry, now)
    case FailDevice(user, c, code, now) => AfterFail(db, user, c, code, now)
    case CancelDevice(user, attempt, generation) => AfterCancel(db, user, attempt, generation)
    case ExpireDevices(user, id, now) => AfterExpire(db, user, id, now)
    case Cleanup(ids) => AfterCleanup(db, ids)
  }
}
