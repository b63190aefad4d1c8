/**
 What each session transaction demands and does, in terms of the row and the log alone
 (lib/kodo/sessions.ex), and what that means for an owner over whole runs.
 */
module SessionEffects {
  import opened Prelude
  import opened SessionLog
  import opened SessionRuns

  // ---- Ownership ----

  /** A live owner other than the claimant, on another node; for a claim by nobody, any owner. */
  predicate OwnedElsewhere(s: Session, owner: Owner, c: Cluster)
  {
    s.owner.Some? && (owner.None? || (s.owner != owner && !c.sameNode && c.ownerAlive))
  }

  /** A move to an instance that is not registered or has no room. */
  predicate NoRoom(s: Session, owner: Owner, c: Cluster)
  {
    owner.Some? && s.owner != owner && (!c.instanceKnown || c.instanceFull)
  }

  /**
   A claim commits if and only if the claimant is nobody or capable, no live owner elsewhere holds the
   session, and the instance has room; it moves the owner and the epoch and nothing else.
   */
  lemma ClaimOutcome(s: Session, owner: Owner, c: Cluster)
    ensures var r := Apply(s, Claim(owner, c));
            && (r.Ok? <==> (owner.None? || c.capable) && !OwnedElsewhere(s, owner, c) && !NoRoom(s, owner, c))
            && (r.Ok? ==> r.value == Session(s.id, owner, s.epoch + 1, s.status, s.log))
            && (r == Err(CapabilityMissing) <==> owner.Some? && !c.capable)
            && (r == Err(SessionOwned) <==> (owner.None? || c.capable) && OwnedElsewhere(s, owner, c))
            && (r == Err(InstanceNotFound) <==>
                  c.capable && !OwnedElsewhere(s, owner, c) && NoRoom(s, owner, c) && !c.instanceKnown)
            && (r == Err(InstanceAtCapacity) <==>
                  c.capable && !OwnedElsewhere(s, owner, c) && NoRoom(s, owner, c) && c.instanceKnown)
  {
  }

  /** The token is the session's own current one (or none before the first claim), and its owner is alive. */
  predicate IsCurrent(s: Session, token: Option<Token>, alive: bool)
  {
    || (token == None && s.epoch == 0)
    || (token == Some(Token(s.id, s.owner, s.epoch)) && (s.owner == None || alive))
  }

  lemma TransferOutcome(s: Session, token: Option<Token>, alive: bool, owner: Owner, c: Cluster)
    ensures var r := Apply(s, Transfer(token, alive, owner, c));
            && (r.Ok? <==> IsCurrent(s, token, alive) && (owner.None? || c.capable) && !NoRoom(s, owner, c))
            && (r.Ok? ==> r.value == Session(s.id, owner, s.epoch + 1, s.status, s.log))
            && (r == Err(StaleOwnership) <==> !IsCurrent(s, token, alive))
            && (r == Err(CapabilityMissing) <==> IsCurrent(s, token, alive) && owner.Some? && !c.capable)
  {
  }

  /** An owner is displaced only by its own transfer, from its own node, or when it is not alive. */
  lemma DisplacedOnlyWhen(s: Session, op: Op)
    requires Apply(s, op).Ok? && s.owner.Some? && Apply(s, op).value.owner != s.owner
    ensures
      || (op.Transfer? && IsCurrent(s, op.token, op.alive))
      || (op.Claim? && op.owner.Some? && (op.cluster.sameNode || !op.cluster.ownerAlive))
  {
    ApplyExtends(s, op);
    hide CurrentApproval, Decision, TurnRecorded;
  }

  /** The transaction leaves a live owner elsewhere alone: a rival's claim, or a transfer without its token. */
  predicate SparesOwner(s: Session, op: Op)
  {
    && (op.Claim? ==> op.owner.None? || (op.owner != s.owner && !op.cluster.sameNode && op.cluster.ownerAlive))
    && (op.Transfer? ==> op.token != Some(Token(s.id, s.owner, s.epoch)) && (op.token.Some? || s.epoch > 0))
  }

  /**
   A session with a live owner keeps it, and the epoch, over every run in which neither that owner
   claims again nor its own token transfers the session away - whatever claims and transfers others try.
   */
  lemma {:induction false} LiveOwnerIsKept(h: History, ops: seq<Op>)
    requires h.session.owner.Some? && forall i :: 0 <= i < |ops| ==> SparesOwner(h.session, ops[i])
    ensures Run(h, ops).session.owner == h.session.owner && Run(h, ops).session.epoch == h.session.epoch
    decreases |ops|
  {
    hide CurrentApproval, Decision, TurnRecorded;
    if ops != [] {
      ApplyExtends(h.session, ops[0]);
      var h' := Step(h, ops[0]);
      assert h'.session.owner == h.session.owner && h'.session.epoch == h.session.epoch by {
        if ops[0].Claim? { ClaimOutcome(h.session, ops[0].owner, ops[0].cluster); }
        if ops[0].Transfer? {
          TransferOutcome(h.session, ops[0].token, ops[0].alive, ops[0].newOwner, ops[0].cluster);
        }
      }
      hide Apply;
      LiveOwnerIsKept(h', ops[1..]);
    }
  }

  // ---- The log ----

  /** Every fenced transaction with a token that is not current fails, and as stale. */
  lemma FenceIsFirst(s: Session, op: Op)
    requires AuthorOf(op).Fenced? && !IsCurrent(s, op.token, op.alive)
    ensures Apply(s, op) == Err(StaleOwnership)
  {
    hide CurrentApproval, Decision, TurnRecorded;
  }

  lemma AppendOutcome(s: Session, op: Op)
    requires op.AppendEvents? && IsCurrent(s, op.token, op.alive)
    ensures Apply(s, op) ==
              if op.refused < |op.kinds| then Err(InvalidEvent)
              else Ok(Session(s.id, s.owner, s.epoch, s.status, s.log + op.kinds))
  {
  }

  /** The request id is that of some user message in the log. */
  ghost predicate IsRecorded(log: seq<Kind>, requestId: Option<string>)
  {
    requestId.Some? && exists content :: UserMessage(content, requestId) in log
  }

  /**
   A turn begins if and only if its request is new, no turn runs or awaits an approval, and the preflight
   passes; a recorded request changes nothing.
   */
  lemma TurnOutcome(s: Session, op: Op)
    requires op.BeginTurn? && IsCurrent(s, op.token, op.alive)
    ensures var r := Apply(s, op);
            if IsRecorded(s.log, op.requestId) then r == Ok(s)
            else if s.status == Running || s.status == AwaitingApproval then r == Err(TurnInProgress)
            else if !op.preflight then r == Err(PreflightFailed)
            else
              var events := [TurnRouteSnapshot, UserMessage(op.content, op.requestId), StatusChanged(Running)];
              r == Ok(Session(s.id, s.owner, s.epoch, Running, s.log + events))
  {
    if TurnRecorded(s.log, op.requestId) {
      var i :| 0 <= i < |s.log| && s.log[i].UserMessage? && s.log[i].requestId == op.requestId;
      assert s.log[i] == UserMessage(s.log[i].content, op.requestId);
    }
    if IsRecorded(s.log, op.requestId) {
      var content :| UserMessage(content, op.requestId) in s.log;
      var i :| 0 <= i < |s.log| && s.log[i] == UserMessage(content, op.requestId);
    }
  }

  /** Ending a turn: completed, failed with its own event, or paused back to idle with its own event. */
  lemma EndingOutcome(s: Session, op: Op)
    requires op.Finalize? && IsCurrent(s, op.token, op.alive)
    ensures var r := Apply(s, op);
            && (r.Ok? <==> s.status == Running || s.status == AwaitingApproval)
            && (r.Err? ==> r.error == SessionNotActive)
            && (r.Ok? && op.ending == Complete ==>
                  r.value == Session(s.id, s.owner, s.epoch, Completed, s.log + [StatusChanged(Completed)]))
            && (r.Ok? && op.ending == Fail ==>
                  r.value == Session(s.id, s.owner, s.epoch, Failed,
                                     s.log + [OtherEvent("session_failed"), StatusChanged(Failed)]))
            && (r.Ok? && op.ending == PauseForProvider ==>
                  r.value == Session(s.id, s.owner, s.epoch, Idle,
                                     s.log + [OtherEvent("provider_action_required"), StatusChanged(Idle)]))
  {
    assert [] + [StatusChanged(Completed)] == [StatusChanged(Completed)];
  }

  lemma StatusOutcome(s: Session, op: Op)
    requires (op.SetStatus? || op.CancelSession?) && IsCurrent(s, op.token, op.alive)
    ensures Apply(s, op) ==
              if op.SetStatus? then Ok(Session(s.id, s.owner, s.epoch, op.status, s.log + [StatusChanged(op.status)]))
              else Ok(Session(s.id, s.owner, s.epoch, Cancelled, s.log + [SessionCancelled]))
  {
  }

  // ---- Approvals ----

  /** The last request in the log asks for this approval. */
  ghost predicate IsLatestRequest(log: seq<Kind>, approval: Option<string>)
  {
    exists i :: 0 <= i < |log| && log[i] == ApprovalRequested(approval)
                && forall j :: i < j < |log| ==> !log[j].ApprovalRequested?
  }

  lemma {:induction false} CurrentIsLatest(log: seq<Kind>, id: string)
    ensures CurrentApproval(log) == Some(id) <==> IsLatestRequest(log, Some(id))
  {
    if log != [] {
      var shorter, last := log[..|log| - 1], log[|log| - 1];
      CurrentIsLatest(shorter, id);
      if last.ApprovalRequested? {
        if last.approval == Some(id) { assert log[|log| - 1] == ApprovalRequested(Some(id)); }
      } else {
        LatestIgnoresOthers(shorter, last, Some(id));
        assert log == shorter + [last];
      }
    }
  }

  lemma LatestIgnoresOthers(log: seq<Kind>, other: Kind, approval: Option<string>)
    requires !other.ApprovalRequested?
    ensures IsLatestRequest(log + [other], approval) <==> IsLatestRequest(log, approval)
  {
    var longer := log + [other];
    if IsLatestRequest(log, approval) {
      var i :| 0 <= i < |log| && log[i] == ApprovalRequested(approval)
               && forall j :: i < j < |log| ==> !log[j].ApprovalRequested?;
      assert longer[i] == ApprovalRequested(approval);
    }
    if IsLatestRequest(longer, approval) {
      var i :| 0 <= i < |longer| && longer[i] == ApprovalRequested(approval)
               && forall j :: i < j < |longer| ==> !longer[j].ApprovalRequested?;
      assert log[i] == ApprovalRequested(approval);
      assert forall j :: i < j < |log| ==> log[j] == longer[j];
    }
  }

  /** The first recorded decision on an approval. */
  ghost predicate IsDecided(log: seq<Kind>, id: string, decision: string)
  {
    exists i :: 0 <= i < |log| && log[i] == ApprovalResolved(id, decision)
                && forall j :: 0 <= j < i ==> !(log[j].ApprovalResolved? && log[j].resolved == id)
  }

  lemma {:induction false} DecisionIsRecorded(log: seq<Kind>, id: string, decision: string)
    ensures Decision(log, id) == Some(decision) <==> IsDecided(log, id, decision)
  {
    if log != [] {
      var rest := log[1..];
      DecisionIsRecorded(rest, id, decision);
      if log[0].ApprovalResolved? && log[0].resolved == id {
        if log[0].decision == decision { assert log[0] == ApprovalResolved(id, decision); }
      } else {
        if IsDecided(rest, id, decision) {
          var i :| 0 <= i < |rest| && rest[i] == ApprovalResolved(id, decision)
                   && forall j :: 0 <= j < i ==> !(rest[j].ApprovalResolved? && rest[j].resolved == id);
          assert log[i + 1] == ApprovalResolved(id, decision);
          assert forall j :: 1 <= j < i + 1 ==> log[j] == rest[j - 1];
        }
        if IsDecided(log, id, decision) {
          var i :| 0 <= i < |log| && log[i] == ApprovalResolved(id, decision)
                   && forall j :: 0 <= j < i ==> !(log[j].ApprovalResolved? && log[j].resolved == id);
          assert rest[i - 1] == ApprovalResolved(id, decision);
          assert forall j :: 0 <= j < i - 1 ==> rest[j] == log[j + 1];
        }
      }
    }
  }

  lemma RequestOutcome(s: Session, op: Op)
    requires op.RequestApproval? && IsCurrent(s, op.token, op.alive)
    ensures var r := Apply(s, op);
            if s.status != Running then r == Err(SessionNotRunning)
            else if !IsCurrent(s, op.token, op.aliveAgain) then r == Err(StaleOwnership)
            else r == Ok(Session(s.id, s.owner, s.epoch, AwaitingApproval,
                                 s.log + [ApprovalRequested(op.approval), StatusChanged(AwaitingApproval)]))
  {
  }

  /**
   A decision is recorded if and only if the approval is undecided, the latest requested, and awaited;
   repeating it changes nothing, and contradicting it is refused.
   */
  lemma DecisionOutcome(s: Session, op: Op)
    requires op.ResolveApproval? && IsCurrent(s, op.token, op.alive)
    ensures var r := Apply(s, op);
            if IsDecided(s.log, op.id, op.decision) then r == Ok(s)
            else if exists d :: IsDecided(s.log, op.id, d) then r == Err(ApprovalAlreadyResolved)
            else if s.status != AwaitingApproval || !IsLatestRequest(s.log, Some(op.id)) then
              r == Err(ApprovalNotPending)
            else if !IsCurrent(s, op.token, op.aliveAgain) then r == Err(StaleOwnership)
            else r == Ok(Session(s.id, s.owner, s.epoch, Running,
                                 s.log + [ApprovalResolved(op.id, op.decision), StatusChanged(Running)]))
  {
    hide CurrentApproval, Decision, IsLatestRequest, IsDecided;
    CurrentIsLatest(s.log, op.id);
    DecisionIsRecorded(s.log, op.id, op.decision);
    forall d
      ensures Decision(s.log, op.id) == Some(d) <==> IsDecided(s.log, op.id, d)
    {
      DecisionIsRecorded(s.log, op.id, d);
    }
    if Decision(s.log, op.id).Some? {
      assert IsDecided(s.log, op.id, Decision(s.log, op.id).value);
    }
  }

  lemma RouteOutcome(s: Session, admitted: bool)
    ensures Apply(s, ChangeRoute(admitted)) ==
              if admitted then Ok(Session(s.id, s.owner, s.epoch, s.status, s.log + [ExecutionRouteChanged]))
              else Err(PreflightFailed)
  {
  }
}
