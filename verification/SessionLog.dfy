/**
 A session's durable row and its ordered event log (lib/kodo/sessions.ex).  `Session` is the simple
 form: a row and a sequence of events.  `SessionStore` is the form the code works with: a row with a
 sequence cursor, an event table keyed by sequence number, and transactions that append through an
 in-memory copy of the row.
 */
module SessionLog {
  import opened Prelude

  datatype Status = Idle | Running | AwaitingApproval | Completed | Failed | Cancelled

  type Owner = Option<Uuid>

  /** A coordinator's fencing token. */
  datatype Token = Token(session: Uuid, owner: Owner, epoch: nat)

  datatype Kind =
    | SessionCreated(status: Status)
    | StatusChanged(status: Status)
    | SessionCancelled
    | TurnRouteSnapshot
    | UserMessage(content: string, requestId: Option<string>)
    | ApprovalRequested(approval: Option<string>)
    | ApprovalResolved(resolved: string, decision: string)
    | ExecutionRouteChanged
    | OtherEvent(name: string)

  datatype Session = Session(id: Uuid, owner: Owner, epoch: nat, status: Status, log: seq<Kind>)

  datatype TxError =
    | StaleOwnership | TurnInProgress | PreflightFailed | SessionNotActive | SessionNotRunning
    | ApprovalAlreadyResolved | ApprovalNotPending | SessionOwned | CapabilityMissing
    | InstanceNotFound | InstanceAtCapacity | InvalidEvent

  /** What the cluster registry answers, chosen by the environment. */
  datatype Cluster = Cluster(capable: bool, sameNode: bool, ownerAlive: bool, instanceKnown: bool, instanceFull: bool)

  /** How a coordinator ends a turn: `complete_session`, `fail_session`, `pause_for_provider`. */
  datatype Ending = Complete | Fail | PauseForProvider

  function FinalStatus(e: Ending): Status
  {
    match e
    case Complete => Completed
    case Fail => Failed
    case PauseForProvider => Idle
  }

  function TerminalEvents(e: Ending): seq<Kind>
  {
    match e
    case Complete => []
    case Fail => [OtherEvent("session_failed")]
    case PauseForProvider => [OtherEvent("provider_action_required")]
  }

  /**
   Every transaction on a session.  `alive` is the liveness of the token's owner at each lock, and
   `refused` the index of the first event the changeset refuses (at or past the end: none).
   */
  datatype Op =
    | Claim(owner: Owner, cluster: Cluster)
    | Transfer(token: Option<Token>, alive: bool, newOwner: Owner, cluster: Cluster)
    | AppendEvents(token: Option<Token>, alive: bool, kinds: seq<Kind>, refused: nat)
    | BeginTurn(token: Option<Token>, alive: bool, content: string, requestId: Option<string>, preflight: bool)
    | Finalize(token: Option<Token>, alive: bool, ending: Ending)
    | SetStatus(token: Option<Token>, alive: bool, status: Status)
    | CancelSession(token: Option<Token>, alive: bool)
    | RequestApproval(token: Option<Token>, alive: bool, aliveAgain: bool, approval: Option<string>)
    | ResolveApproval(token: Option<Token>, alive: bool, aliveAgain: bool, id: string, decision: string)
    | ChangeRoute(admitted: bool)

  // ---- The checks ----

  predicate OwnershipMatches(s: Session, token: Option<Token>)
  {
    match token
    case None => s.epoch == 0
    case Some(t) => t.session == s.id && t.owner == s.owner && t.epoch == s.epoch
  }

  predicate OwnerAlive(token: Option<Token>, alive: bool)
  {
    token.None? || token.value.owner.None? || alive
  }

  /** `lock_session!`: the fence every transaction passes first. */
  predicate Admits(s: Session, token: Option<Token>, alive: bool)
  {
    OwnershipMatches(s, token) && OwnerAlive(token, alive)
  }

  predicate IsActive(status: Status) { status == Running || status == AwaitingApproval }

  predicate TurnRecorded(log: seq<Kind>, requestId: Option<string>)
  {
    requestId.Some? && exists i :: 0 <= i < |log| && log[i].UserMessage? && log[i].requestId == requestId
  }

  /** The most recent approval request. */
  function CurrentApproval(log: seq<Kind>): (a: Option<string>)
  {
    if log == [] then None
    else
      var last := log[|log| - 1];
      if last.ApprovalRequested? then last.approval else CurrentApproval(log[..|log| - 1])
  }

  /** The recorded decision on an approval. */
  function Decision(log: seq<Kind>, id: string): (d: Option<string>)
  {
    if log == [] then None
    else if log[0].ApprovalResolved? && log[0].resolved == id then Some(log[0].decision)
    else Decision(log[1..], id)
  }

  predicate Claimable(s: Session, owner: Owner, c: Cluster)
  {
    match owner
    case None => s.owner == None
    case Some(b) => s.owner == None || s.owner == Some(b) || c.sameNode || !c.ownerAlive
  }

  function CapacityError(s: Session, owner: Owner, c: Cluster): Option<TxError>
  {
    if s.owner == owner || owner.None? then None
    else if !c.instanceKnown then Some(InstanceNotFound)
    else if c.instanceFull then Some(InstanceAtCapacity)
    else None
  }

  // ---- The simple form of every transaction ----

  function Appended(s: Session, kinds: seq<Kind>): Session { s.(log := s.log + kinds) }

  function Apply(s: Session, op: Op): (r: Result<Session, TxError>)
  {
    match op
    case Claim(owner, c) =>
      if owner.Some? && !c.capable then Err(CapabilityMissing)
      else if !Claimable(s, owner, c) then Err(SessionOwned)
      else if CapacityError(s, owner, c).Some? then Err(CapacityError(s, owner, c).value)
      else Ok(s.(owner := owner, epoch := s.epoch + 1))
    case Transfer(token, alive, newOwner, c) =>
      if !Admits(s, token, alive) then Err(StaleOwnership)
      else if newOwner.Some? && !c.capable then Err(CapabilityMissing)
      else if CapacityError(s, newOwner, c).Some? then Err(CapacityError(s, newOwner, c).value)
      else Ok(s.(owner := newOwner, epoch := s.epoch + 1))
    case AppendEvents(token, alive, kinds, refused) =>
      if !Admits(s, token, alive) then Err(StaleOwnership)
      else if refused < |kinds| then Err(InvalidEvent)
      else Ok(Appended(s, kinds))
    case BeginTurn(token, alive, content, requestId, preflight) =>
      if !Admits(s, token, alive) then Err(StaleOwnership)
      else if TurnRecorded(s.log, requestId) then Ok(s)
      else if IsActive(s.status) then Err(TurnInProgress)
      else if !preflight then Err(PreflightFailed)
      else Ok(Appended(s, [TurnRouteSnapshot, UserMessage(content, requestId), StatusChanged(Running)])
              .(status := Running))
    case Finalize(token, alive, ending) =>
      if !Admits(s, token, alive) then Err(StaleOwnership)
      else if !IsActive(s.status) then Err(SessionNotActive)
      else Ok(Appended(s, TerminalEvents(ending) + [StatusChanged(FinalStatus(ending))])
              .(status := FinalStatus(ending)))
    case SetStatus(token, alive, status) =>
      if !Admits(s, token, alive) then Err(StaleOwnership)
      else Ok(Appended(s, [StatusChanged(status)]).(status := status))
    case CancelSession(token, alive) =>
      if !Admits(s, token, alive) then Err(StaleOwnership)
      else Ok(Appended(s, [SessionCancelled]).(status := Cancelled))
    case RequestApproval(token, alive, aliveAgain, approval) =>
      if !Admits(s, token, alive) then Err(StaleOwnership)
      else if s.status != Running then Err(SessionNotRunning)
      else if !OwnerAlive(token, aliveAgain) then Err(StaleOwnership)
      else Ok(Appended(s, [ApprovalRequested(approval), StatusChanged(AwaitingApproval)])
              .(status := AwaitingApproval))
    case ResolveApproval(token, alive, aliveAgain, id, decision) =>
      if !Admits(s, token, alive) then Err(StaleOwnership)
      else if Decision(s.log, id) == Some(decision) then Ok(s)
      else if Decision(s.log, id).Some? then Err(ApprovalAlreadyResolved)
      else if s.status != AwaitingApproval || CurrentApproval(s.log) != Some(id) then Err(ApprovalNotPending)
      else if !OwnerAlive(token, aliveAgain) then Err(StaleOwnership)
      else Ok(Appended(s, [ApprovalResolved(id, decision), StatusChanged(Running)]).(status := Running))
    case ChangeRoute(admitted) =>
      if !admitted then Err(PreflightFailed) else Ok(Appended(s, [ExecutionRouteChanged]))
  }

  // ---- Rows, cursors and transactions ----

  datatype Row = Row(id: Uuid, owner: Owner, epoch: nat, status: Status, nextSequence: nat)

  datatype Event = Event(sequence: nat, kind: Kind)

  class SessionStore {
    var row: Row
    var events: map<nat, Event>

    /** The log is gap-free: exactly the sequences below the cursor are present. */
    ghost predicate Valid()
      reads this
    {
      && row.nextSequence >= 1
      && (forall i :: i in events <==> 1 <= i < row.nextSequence)
      && (forall i :: i in events ==> events[i].sequence == i)
    }

    function Log(): (log: seq<Kind>)
      requires Valid()
      reads this
    {
      seq(row.nextSequence - 1,
          i requires 0 <= i < row.nextSequence - 1 reads this requires Valid() => events[i + 1].kind)
    }

    function Value(): (s: Session)
      requires Valid()
      reads this
    {
      Session(row.id, row.owner, row.epoch, row.status, Log())
    }

    /** The committed outcome is the simple form's, and a rolled-back transaction leaves no trace. */
    twostate predicate Commits(new op: Op, new r: Result<(), TxError>)
      requires old(Valid()) && Valid()
      reads this
    {
      match Apply(old(Value()), op)
      case Ok(s) => r == Ok(()) && Value() == s
      case Err(e) => r == Err(e) && row == old(row) && events == old(events)
    }

    constructor (id: Uuid)
      ensures Valid() && Value() == Session(id, None, 0, Idle, [SessionCreated(Idle)])
    {
      row, events := Row(id, None, 0, Idle, 1), map[];
      new;
      var ok := AppendLocked(row, SessionCreated(Idle));
    }

    /**
     Insert an event at the in-memory cursor of `session` and increment the row's own cursor.  The
     unique index refuses a sequence that is already taken.
     */
    method AppendLocked(session: Row, kind: Kind) returns (ok: bool)
      requires Valid()
      modifies this
      ensures session.nextSequence == old(row.nextSequence) ==>
                && ok && Valid()
                && row == old(row).(nextSequence := old(row.nextSequence) + 1)
                && Log() == old(Log()) + [kind]
      ensures !ok <==> session.nextSequence in old(events)
      ensures !ok ==> row == old(row) && events == old(events)
    {
      if session.nextSequence in events {
        return false;
      }
      events := events[session.nextSequence := Event(session.nextSequence, kind)];
      row := row.(nextSequence := row.nextSequence + 1);
      ok := true;
    }

    method ClaimOwnership(owner: Owner, c: Cluster) returns (r: Result<(), TxError>)
      requires Valid()
      modifies this
      ensures Valid() && Commits(Claim(owner, c), r)
    {
      var session := Value();
      if owner.Some? && !c.capable {
        return Err(CapabilityMissing);
      }
      if !Claimable(session, owner, c) {
        return Err(SessionOwned);
      }
      var full := CapacityError(session, owner, c);
      if full.Some? {
        return Err(full.value);
      }
      row := row.(owner := owner, epoch := row.epoch + 1);
      r := Ok(());
    }

    method TransferOwnership(token: Option<Token>, alive: bool, newOwner: Owner, c: Cluster)
      returns (r: Result<(), TxError>)
      requires Valid()
      modifies this
      ensures Valid() && Commits(Transfer(token, alive, newOwner, c), r)
    {
      var session := Value();
      if !Admits(session, token, alive) {
        return Err(StaleOwnership);
      }
      if newOwner.Some? && !c.capable {
        return Err(CapabilityMissing);
      }
      var full := CapacityError(session, newOwner, c);
      if full.Some? {
        return Err(full.value);
      }
      row := row.(owner := newOwner, epoch := row.epoch + 1);
      r := Ok(());
    }

    /**
     An ordered group of events under one lock, each at the incremented in-memory cursor; a refused
     event rolls the whole group back.
     */
    method AppendGroup(token: Option<Token>, alive: bool, kinds: seq<Kind>, refused: nat)
      returns (r: Result<(), TxError>)
      requires Valid()
      modifies this
      ensures Valid() && Commits(AppendEvents(token, alive, kinds, refused), r)
    {
      var rowBefore, eventsBefore := row, events;
      if !Admits(Value(), token, alive) {
        return Err(StaleOwnership);
      }
      var session := row;
      var i := 0;
      assert kinds[..0] == [];
      while i < |kinds|
        invariant 0 <= i <= |kinds| && i <= refused && Valid()
        invariant session.nextSequence == row.nextSequence
        invariant row == old(row).(nextSequence := row.nextSequence)
        invariant Log() == old(Log()) + kinds[..i]
      {
        if i == refused {
          row, events := rowBefore, eventsBefore;
          return Err(InvalidEvent);
        }
        var ok := AppendLocked(session, kinds[i]);
        assert kinds[..i + 1] == kinds[..i] + [kinds[i]];
        session := session.(nextSequence := session.nextSequence + 1);
        i := i + 1;
      }
      assert kinds[..i] == kinds;
      r := Ok(());
    }

    /** Three adjacent events and the status, or nothing: the turn is idempotent per request id. */
    method BeginTurnLocked(token: Option<Token>, alive: bool, content: string, requestId: Option<string>,
                           preflight: bool)
      returns (r: Result<(), TxError>)
      requires Valid()
      modifies this
      ensures Valid() && Commits(BeginTurn(token, alive, content, requestId, preflight), r)
    {
      hide SessionStore.Log, TurnRecorded, Decision, CurrentApproval, Admits;
      if !Admits(Value(), token, alive) {
        return Err(StaleOwnership);
      }
      if TurnRecorded(Log(), requestId) {
        return Ok(());
      }
      var session := row;
      if IsActive(session.status) {
        return Err(TurnInProgress);
      }
      if !preflight {
        return Err(PreflightFailed);
      }
      var ok := AppendLocked(session, TurnRouteSnapshot);
      session := session.(nextSequence := session.nextSequence + 1);
      ok := AppendLocked(session, UserMessage(content, requestId));
      session := session.(nextSequence := session.nextSequence + 1);
      UpdateStatus(Running);
      session := session.(status := Running);
      ok := AppendLocked(session, StatusChanged(Running));
      assert Log() == old(Log()) + [TurnRouteSnapshot, UserMessage(content, requestId), StatusChanged(Running)];
      r := Ok(());
    }

    /** A changeset update writes the status column only. */
    method UpdateStatus(status: Status)
      requires Valid()
      modifies `row
      ensures Valid() && row == old(row).(status := status) && Log() == old(Log())
    {
      row := row.(status := status);
    }

    method FinalizeLocked(token: Option<Token>, alive: bool, ending: Ending) returns (r: Result<(), TxError>)
      requires Valid()
      modifies this
      ensures Valid() && Commits(Finalize(token, alive, ending), r)
    {
      hide SessionStore.Log, TurnRecorded, Decision, CurrentApproval, Admits;
      if !Admits(Value(), token, alive) {
        return Err(StaleOwnership);
      }
      var session := row;
      if !IsActive(session.status) {
        return Err(SessionNotActive);
      }
      var terminal := TerminalEvents(ending);
      if terminal != [] {
        var ok := AppendLocked(session, terminal[0]);
        session := session.(nextSequence := session.nextSequence + 1);
      }
      UpdateStatus(FinalStatus(ending));
      session := session.(status := FinalStatus(ending));
      var ok := AppendLocked(session, StatusChanged(FinalStatus(ending)));
      assert Log() == old(Log()) + (terminal + [StatusChanged(FinalStatus(ending))]);
      r := Ok(());
    }

    method SetStatusLocked(token: Option<Token>, alive: bool, status: Status) returns (r: Result<(), TxError>)
      requires Valid()
      modifies this
      ensures Valid() && Commits(SetStatus(token, alive, status), r)
    {
      hide SessionStore.Log, TurnRecorded, Decision, CurrentApproval, Admits;
      if !Admits(Value(), token, alive) {
        return Err(StaleOwnership);
      }
      UpdateStatus(status);
      var ok := AppendLocked(row, StatusChanged(status));
      r := Ok(());
    }

    method CancelLocked(token: Option<Token>, alive: bool) returns (r: Result<(), TxError>)
      requires Valid()
      modifies this
      ensures Valid() && Commits(CancelSession(token, alive), r)
    {
      hide SessionStore.Log, TurnRecorded, Decision, CurrentApproval, Admits;
      if !Admits(Value(), token, alive) {
        return Err(StaleOwnership);
      }
      UpdateStatus(Cancelled);
      var ok := AppendLocked(row, SessionCancelled);
      r := Ok(());
    }

    /** Append, lock and re-read the row, then change the status; a failed second lock rolls back. */
    method RequestApprovalLocked(token: Option<Token>, alive: bool, aliveAgain: bool, approval: Option<string>)
      returns (r: Result<(), TxError>)
      requires Valid()
      modifies this
      ensures Valid() && Commits(RequestApproval(token, alive, aliveAgain, approval), r)
    {
      hide SessionStore.Log, TurnRecorded, Decision, CurrentApproval;
      var rowBefore, eventsBefore := row, events;
      if !Admits(Value(), token, alive) {
        return Err(StaleOwnership);
      }
      if row.status != Running {
        return Err(SessionNotRunning);
      }
      var ok := AppendLocked(row, ApprovalRequested(approval));
      if !Admits(Value(), token, aliveAgain) {
        row, events := rowBefore, eventsBefore;
        return Err(StaleOwnership);
      }
      UpdateStatus(AwaitingApproval);
      ok := AppendLocked(row, StatusChanged(AwaitingApproval));
      assert Log() == old(Log()) + [ApprovalRequested(approval), StatusChanged(AwaitingApproval)];
      r := Ok(());
    }

    method ResolveApprovalLocked(token: Option<Token>, alive: bool, aliveAgain: bool, id: string, decision: string)
      returns (r: Result<(), TxError>)
      requires Valid()
      modifies this
      ensures Valid() && Commits(ResolveApproval(token, alive, aliveAgain, id, decision), r)
    {
      hide SessionStore.Log, TurnRecorded, Decision, CurrentApproval;
      var rowBefore, eventsBefore := row, events;
      if !Admits(Value(), token, alive) {
        return Err(StaleOwnership);
      }
      var existing := Decision(Log(), id);
      if existing == Some(decision) {
        return Ok(());
      }
      if existing.Some? {
        return Err(ApprovalAlreadyResolved);
      }
      if row.status != AwaitingApproval || CurrentApproval(Log()) != Some(id) {
        return Err(ApprovalNotPending);
      }
      var ok := AppendLocked(row, ApprovalResolved(id, decision));
      if !Admits(Value(), token, aliveAgain) {
        row, events := rowBefore, eventsBefore;
        return Err(StaleOwnership);
      }
      UpdateStatus(Running);
      ok := AppendLocked(row, StatusChanged(Running));
      assert Log() == old(Log()) + [ApprovalResolved(id, decision), StatusChanged(Running)];
      r := Ok(());
    }

    /** A route change is locked by user and session only: it carries no ownership token. */
    method ChangeRouteLocked(admitted: bool) returns (r: Result<(), TxError>)
      requires Valid()
      modifies this
      ensures Valid() && Commits(ChangeRoute(admitted), r)
    {
      hide SessionStore.Log;
      if !admitted {
        return Err(PreflightFailed);
      }
      var ok := AppendLocked(row, ExecutionRouteChanged);
      r := Ok(());
    }
  }
}
