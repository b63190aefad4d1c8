/**
 Whole runs of transactions on one session: who wrote what, and what the log says about ownership,
 turns, status and approvals (lib/kodo/sessions.ex).
 */
module SessionRuns {
  import opened Prelude
  import opened SessionLog

  /** Who wrote an event: creation and route changes carry no token. */
  datatype Author = Unfenced | Fenced(token: Option<Token>)

  /** A session with ghost history: the author of every event and every token ever handed out. */
  datatype History = History(session: Session, authors: seq<Author>, issued: seq<Token>)

  function Created(id: Uuid): History
  {
    History(Session(id, None, 0, Idle, [SessionCreated(Idle)]), [Unfenced], [])
  }

  function AuthorOf(op: Op): Author
  {
    if op.Claim? || op.ChangeRoute? then Unfenced else Fenced(op.token)
  }

  function EpochOf(token: Option<Token>): nat { if token.None? then 0 else token.value.epoch }

  /** A rolled-back transaction leaves everything as it was. */
  function Step(h: History, op: Op): History
  {
    match Apply(h.session, op)
    case Err(_) => h
    case Ok(s) =>
      History(s,
              h.authors + seq(Max(|s.log| - |h.session.log|, 0), _ => AuthorOf(op)),
              if op.Claim? || op.Transfer? then h.issued + [Token(s.id, s.owner, s.epoch)] else h.issued)
  }

  function Run(h: History, ops: seq<Op>): History
    decreases |ops|
  {
    if ops == [] then h else Run(Step(h, ops[0]), ops[1..])
  }

  /** One transaction of the store, by name. */
  method Execute(store: SessionStore, op: Op) returns (r: Result<(), TxError>)
    requires store.Valid()
    modifies store
    ensures store.Valid() && store.Commits(op, r)
  {
    match op
    case Claim(owner, c) => r := store.ClaimOwnership(owner, c);
    case Transfer(token, alive, owner, c) => r := store.TransferOwnership(token, alive, owner, c);
    case AppendEvents(token, alive, kinds, refused) => r := store.AppendGroup(token, alive, kinds, refused);
    case BeginTurn(token, alive, content, id, preflight) =>
      r := store.BeginTurnLocked(token, alive, content, id, preflight);
    case Finalize(token, alive, ending) => r := store.FinalizeLocked(token, alive, ending);
    case SetStatus(token, alive, status) => r := store.SetStatusLocked(token, alive, status);
    case CancelSession(token, alive) => r := store.CancelLocked(token, alive);
    case RequestApproval(token, alive, again, id) => r := store.RequestApprovalLocked(token, alive, again, id);
    case ResolveApproval(token, alive, again, id, d) => r := store.ResolveApprovalLocked(token, alive, again, id, d);
    case ChangeRoute(admitted) => r := store.ChangeRouteLocked(admitted);
  }

  /**
   After any mix of committed and rolled-back transactions the table holds exactly the sequences 1
   to next - 1 (`Valid`), and row and log are those of the run.
   */
  method ExecuteAll(store: SessionStore, id: Uuid, ops: seq<Op>)
    requires store.Valid() && store.Value() == Created(id).session
    modifies store
    ensures store.Valid() && store.Value() == Run(Created(id), ops).session
  {
    hide Apply;
    ghost var h := Created(id);
    var i := 0;
    assert ops[0..] == ops;
    while i < |ops|
      invariant 0 <= i <= |ops|
      invariant store.Valid() && store.Value() == h.session
      invariant Run(h, ops[i..]) == Run(Created(id), ops)
    {
      var r := Execute(store, ops[i]);
      h := Step(h, ops[i]);
      i := i + 1;
    }
  }

  // ---- Ownership ----

  /** Epochs 1 to the current one were issued once each; the current owner holds the last. */
  ghost predicate OwnershipInv(h: History)
  {
    && |h.issued| == h.session.epoch
    && (forall i :: 0 <= i < |h.issued| ==> h.issued[i].epoch == i + 1 && h.issued[i].session == h.session.id)
    && h.session.owner == (if h.issued == [] then None else h.issued[|h.issued| - 1].owner)
  }

  /** An event's author held an issued token, or the unclaimed session's at epoch zero. */
  ghost predicate Authorised(h: History, a: Author)
  {
    a.Fenced? && EpochOf(a.token) > 0 ==>
      EpochOf(a.token) <= |h.issued| && a.token.value == h.issued[EpochOf(a.token) - 1]
  }

  ghost predicate InOrder(a: Author, b: Author)
  {
    a.Fenced? && b.Fenced? ==> EpochOf(a.token) <= EpochOf(b.token)
  }

  ghost predicate FencedInv(h: History)
  {
    && |h.authors| == |h.session.log|
    && (forall i :: 0 <= i < |h.authors| ==> Authorised(h, h.authors[i]))
    && (forall i, j :: 0 <= i < j < |h.authors| ==> InOrder(h.authors[i], h.authors[j]))
  }

  /** Every transaction keeps the identity and extends the log; only a claim or a transfer moves the epoch. */
  lemma ApplyExtends(s: Session, op: Op)
    ensures Apply(s, op).Ok? ==>
              var s' := Apply(s, op).value;
              && s'.id == s.id
              && s.log <= s'.log
              && (if op.Claim? || op.Transfer? then s'.epoch == s.epoch + 1 && s'.log == s.log
                  else s'.epoch == s.epoch && s'.owner == s.owner)
              && (AuthorOf(op).Fenced? ==> OwnershipMatches(s, op.token))
  {
    hide CurrentApproval, Decision, TurnRecorded;
  }

  lemma StepKeepsOwnership(h: History, op: Op)
    requires OwnershipInv(h) && FencedInv(h)
    ensures OwnershipInv(Step(h, op)) && FencedInv(Step(h, op))
  {
    hide Apply;
    ApplyExtends(h.session, op);
    var h' := Step(h, op);
    if Apply(h.session, op).Ok? && !op.Claim? && !op.Transfer? {
      assert h'.issued == h.issued;
      assert Authorised(h, AuthorOf(op));
      forall i, j | 0 <= i < j < |h'.authors|
        ensures InOrder(h'.authors[i], h'.authors[j])
      {
        if i < |h.authors| <= j {
          assert Authorised(h, h.authors[i]);
        }
      }
    } else {
      assert h'.authors == h.authors;
      forall i | 0 <= i < |h'.authors|
        ensures Authorised(h', h'.authors[i])
      {
        assert Authorised(h, h.authors[i]);
      }
    }
  }

  lemma {:induction false} RunKeepsOwnership(h: History, ops: seq<Op>)
    requires OwnershipInv(h) && FencedInv(h)
    ensures OwnershipInv(Run(h, ops)) && FencedInv(Run(h, ops))
    decreases |ops|
  {
    hide Step, OwnershipInv, FencedInv;
    if ops != [] {
      StepKeepsOwnership(h, ops[0]);
      RunKeepsOwnership(Step(h, ops[0]), ops[1..]);
    }
  }

  lemma {:induction false} RunExtends(h: History, ops: seq<Op>)
    ensures h.session.log <= Run(h, ops).session.log
    ensures Run(h, ops).session.id == h.session.id
    ensures h.session.epoch <= Run(h, ops).session.epoch
    ensures h.session.epoch == Run(h, ops).session.epoch ==> h.session.owner == Run(h, ops).session.owner
    decreases |ops|
  {
    hide Apply;
    if ops != [] {
      ApplyExtends(h.session, ops[0]);
      RunExtends(Step(h, ops[0]), ops[1..]);
    }
  }

  /**
   Each epoch is issued by exactly one claim or transfer, to one owner, and every epoch up to the
   current one was issued.
   */
  lemma EachEpochIssuedOnce(id: Uuid, ops: seq<Op>, e: nat)
    ensures var h := Run(Created(id), ops);
            && (1 <= e <= h.session.epoch <==> exists i :: 0 <= i < |h.issued| && h.issued[i].epoch == e)
            && (forall i, j :: 0 <= i < |h.issued| && 0 <= j < |h.issued| && h.issued[i].epoch == h.issued[j].epoch ==>
                  i == j)
  {
    RunKeepsOwnership(Created(id), ops);
    var h := Run(Created(id), ops);
    if 1 <= e <= h.session.epoch {
      assert h.issued[e - 1].epoch == e;
    }
  }

  /**
   Fenced history: reading the log in order, the epochs of the tokens that wrote it never decrease,
   and each of those tokens was issued.
   */
  lemma WriterEpochsNeverDecrease(id: Uuid, ops: seq<Op>, i: nat, j: nat)
    requires i <= j < |Run(Created(id), ops).session.log|
    ensures var h := Run(Created(id), ops);
            && |h.authors| == |h.session.log|
            && InOrder(h.authors[i], h.authors[j])
            && (h.authors[i].Fenced? && EpochOf(h.authors[i].token) > 0 ==> h.authors[i].token.value in h.issued)
  {
    RunKeepsOwnership(Created(id), ops);
    var h := Run(Created(id), ops);
    assert Authorised(h, h.authors[i]);
  }

  /** A token that no longer matches - taken over or transferred away - never succeeds again. */
  lemma SupersededTokenNeverSucceeds(h: History, ops: seq<Op>, op: Op)
    requires AuthorOf(op).Fenced?
    requires EpochOf(op.token) <= h.session.epoch && !OwnershipMatches(h.session, op.token)
    ensures Apply(Run(h, ops).session, op) == Err(StaleOwnership)
  {
    hide CurrentApproval, Decision, TurnRecorded, Run;
    RunExtends(h, ops);
    assert !OwnershipMatches(Run(h, ops).session, op.token);
  }

  // ---- Status ----

  function StatusAfter(status: Status, k: Kind): Status
  {
    match k
    case SessionCreated(st) => st
    case StatusChanged(st) => st
    case SessionCancelled => Cancelled
    case _ => status
  }

  function FoldFrom(status: Status, kinds: seq<Kind>): Status
  {
    if kinds == [] then status else StatusAfter(FoldFrom(status, kinds[..|kinds| - 1]), kinds[|kinds| - 1])
  }

  /** The status the events alone imply. */
  function FoldStatus(log: seq<Kind>): Status { FoldFrom(Idle, log) }

  /** An event type that carries no lifecycle meaning of its own. */
  predicate Plain(k: Kind) { k.TurnRouteSnapshot? || k.ExecutionRouteChanged? || k.OtherEvent? }

  /** Raw appends are used for plain events only. */
  predicate Disciplined(op: Op)
  {
    op.AppendEvents? ==> forall i :: 0 <= i < |op.kinds| ==> Plain(op.kinds[i])
  }

  lemma {:induction false} FoldSplits(status: Status, a: seq<Kind>, b: seq<Kind>)
    ensures FoldFrom(status, a + b) == FoldFrom(FoldFrom(status, a), b)
    decreases |b|
  {
    if b == [] {
      assert a + b == a;
    } else {
      FoldSplits(status, a, b[..|b| - 1]);
      assert (a + b)[..|a + b| - 1] == a + b[..|b| - 1];
    }
  }

  lemma {:induction false} PlainKeepsStatus(status: Status, kinds: seq<Kind>)
    requires forall i :: 0 <= i < |kinds| ==> Plain(kinds[i])
    ensures FoldFrom(status, kinds) == status
  {
    if kinds != [] {
      PlainKeepsStatus(status, kinds[..|kinds| - 1]);
    }
  }

  /**
   A committed transaction keeps the row's status equal to the fold of the log - exactly, for a raw
   append, when the appended events fold to the status the row already has.
   */
  lemma StatusFollowsLog(s: Session, op: Op)
    requires s.status == FoldStatus(s.log) && Apply(s, op).Ok?
    ensures var s' := Apply(s, op).value;
            s'.status == FoldStatus(s'.log) <==> (op.AppendEvents? ==> FoldFrom(s.status, op.kinds) == s.status)
  {
    hide Apply, FoldFrom;
    var s' := Apply(s, op).value;
    ApplyExtends(s, op);
    var added := s'.log[|s.log|..];
    assert s'.log == s.log + added;
    FoldSplits(Idle, s.log, added);
    FoldNothing(s.status);
    if op.AppendEvents? {
      assert added == op.kinds && s'.status == s.status by { RawAppend(s, op); }
    } else {
      StatusEventIsLast(s, op);
      if added != [] { FoldLast(s.status, added); }
    }
  }

  lemma RawAppend(s: Session, op: Op)
    requires op.AppendEvents? && Apply(s, op).Ok?
    ensures Apply(s, op).value.log[|s.log|..] == op.kinds && Apply(s, op).value.status == s.status
  {
  }

  /** Apart from raw appends and route changes, the last event a transaction adds carries its status. */
  lemma StatusEventIsLast(s: Session, op: Op)
    requires !op.AppendEvents? && Apply(s, op).Ok? && s.log <= Apply(s, op).value.log
    ensures var (s', added) := (Apply(s, op).value, Apply(s, op).value.log[|s.log|..]);
            if added == [] || op.ChangeRoute? then
              s'.status == s.status && (added == [] || added == [ExecutionRouteChanged])
            else
              || added[|added| - 1] == StatusChanged(s'.status)
              || (added[|added| - 1] == SessionCancelled && s'.status == Cancelled)
  {
    hide CurrentApproval, Decision, TurnRecorded, Admits, Claimable, CapacityError;
  }

  lemma FoldNothing(status: Status)
    ensures FoldFrom(status, []) == status
  {
  }

  lemma FoldLast(status: Status, kinds: seq<Kind>)
    requires kinds != []
    ensures FoldFrom(status, kinds) == StatusAfter(FoldFrom(status, kinds[..|kinds| - 1]), kinds[|kinds| - 1])
    ensures |kinds| == 1 ==> FoldFrom(status, kinds) == StatusAfter(status, kinds[0])
  {
    if |kinds| == 1 { assert kinds[..0] == []; }
  }

  /** A raw status event is accepted and leaves the row behind the log. */
  lemma RawStatusEventsDiverge()
    ensures var h := Created(1);
            var h' := Step(h, AppendEvents(None, true, [StatusChanged(Running)], 1));
            h'.session.status != FoldStatus(h'.session.log)
  {
    var h := Created(1);
    var op := AppendEvents(None, true, [StatusChanged(Running)], 1);
    assert [StatusChanged(Running)][..0] == [] && h.session.log[..0] == [];
    StatusFollowsLog(h.session, op);
  }

  // ---- Turns ----

  ghost predicate OneMessagePerRequest(log: seq<Kind>)
  {
    forall i, j :: 0 <= i < j < |log| && log[i].UserMessage? && log[j].UserMessage? && log[i].requestId.Some? ==>
                     log[i].requestId != log[j].requestId
  }

  lemma MessagesStayUnique(s: Session, op: Op)
    requires OneMessagePerRequest(s.log) && Disciplined(op) && Apply(s, op).Ok?
    ensures OneMessagePerRequest(Apply(s, op).value.log)
  {
    hide CurrentApproval, Decision, Admits, Claimable, CapacityError;
    var s' := Apply(s, op).value;
    if op.BeginTurn? && s'.log != s.log {
      var n := |s.log|;
      assert s'.log[n + 1] == UserMessage(op.content, op.requestId);
      assert forall i :: n <= i < |s'.log| && s'.log[i].UserMessage? ==> i == n + 1;
      assert op.requestId.Some? ==> forall i :: 0 <= i < n && s.log[i].UserMessage? ==>
        s.log[i].requestId != op.requestId;
    } else {
      assert forall i :: |s.log| <= i < |s'.log| ==> !s'.log[i].UserMessage?;
    }
  }

  // ---- Approvals ----

  /** A decision is recorded for the latest request only, while awaited, and not a second time. */
  ghost predicate Sanctioned(log: seq<Kind>, i: nat)
    requires i < |log|
  {
    log[i].ApprovalResolved? ==>
      && CurrentApproval(log[..i]) == Some(log[i].resolved)
      && FoldStatus(log[..i]) == AwaitingApproval
      && Decision(log[..i], log[i].resolved) == None
  }

  ghost predicate AllSanctioned(log: seq<Kind>)
  {
    forall i: nat :: i < |log| ==> Sanctioned(log, i)
  }

  lemma DecisionsStaySanctioned(s: Session, op: Op)
    requires AllSanctioned(s.log) && s.status == FoldStatus(s.log) && Disciplined(op) && Apply(s, op).Ok?
    ensures AllSanctioned(Apply(s, op).value.log)
  {
    hide CurrentApproval, Decision, Admits, Claimable, CapacityError, TurnRecorded, FoldFrom;
    var s' := Apply(s, op).value;
    ApplyExtends(s, op);
    forall i: nat | i < |s'.log|
      ensures Sanctioned(s'.log, i)
    {
      if i < |s.log| {
        assert Sanctioned(s.log, i) && s'.log[..i] == s.log[..i];
      } else if s'.log[i].ApprovalResolved? {
        assert op.ResolveApproval? && i == |s.log|;
        assert s'.log[..i] == s.log;
      }
    }
  }

  ghost predicate LogInv(s: Session)
  {
    s.status == FoldStatus(s.log) && OneMessagePerRequest(s.log) && AllSanctioned(s.log)
  }

  lemma StepKeepsLog(h: History, op: Op)
    requires LogInv(h.session) && Disciplined(op)
    ensures LogInv(Step(h, op).session)
  {
    hide Apply, FoldFrom, OneMessagePerRequest, AllSanctioned;
    if Apply(h.session, op).Ok? {
      if op.AppendEvents? { PlainKeepsStatus(h.session.status, op.kinds); }
      StatusFollowsLog(h.session, op);
      MessagesStayUnique(h.session, op);
      DecisionsStaySanctioned(h.session, op);
    }
  }

  ghost predicate AllDisciplined(ops: seq<Op>) { forall i :: 0 <= i < |ops| ==> Disciplined(ops[i]) }

  lemma {:induction false} RunKeepsLog(h: History, ops: seq<Op>)
    requires LogInv(h.session) && AllDisciplined(ops)
    ensures LogInv(Run(h, ops).session)
    decreases |ops|
  {
    hide Step, LogInv, Disciplined;
    if ops != [] {
      StepKeepsLog(h, ops[0]);
      RunKeepsLog(Step(h, ops[0]), ops[1..]);
    }
  }

  lemma CreatedLog(id: Uuid)
    ensures LogInv(Created(id).session)
  {
    assert [SessionCreated(Idle)][..0] == [];
  }

  /** The row's status is always the fold of the creation, status-change and cancellation events. */
  lemma StatusIsTheFold(id: Uuid, ops: seq<Op>)
    requires AllDisciplined(ops)
    ensures var s := Run(Created(id), ops).session; s.status == FoldStatus(s.log)
  {
    CreatedLog(id);
    RunKeepsLog(Created(id), ops);
  }

  /**
   A turn is begun at most once per client request id: one user message at most, three adjacent
   events when it is recorded, and a retry at any later time adds nothing.
   */
  lemma TurnsAreIdempotent(id: Uuid, before: seq<Op>, op: Op, after: seq<Op>, retry: Op)
    requires AllDisciplined(before) && AllDisciplined(after)
    requires op.BeginTurn? && retry.BeginTurn? && op.requestId.Some? && retry.requestId == op.requestId
    ensures var h := Run(Created(id), before);
            var h' := Step(h, op);
            var later := Run(h', after).session;
            && OneMessagePerRequest(later.log)
            && (h'.session.log == h.session.log
                || h'.session.log == h.session.log +
                     [TurnRouteSnapshot, UserMessage(op.content, op.requestId), StatusChanged(Running)])
            && (Apply(h.session, op).Ok? ==>
                  && TurnRecorded(later.log, op.requestId)
                  && Apply(later, retry) in {Ok(later), Err(StaleOwnership)})
  {
    var h := Run(Created(id), before);
    var h' := Step(h, op);
    CreatedLog(id);
    RunKeepsLog(Created(id), before);
    StepKeepsLog(h, op);
    RunKeepsLog(h', after);
    RunExtends(h', after);
    if Apply(h.session, op).Ok? {
      RecordedAfterBegin(h.session, op);
      RecordedForever(h'.session.log, Run(h', after).session.log, op.requestId);
    }
  }

  lemma RecordedAfterBegin(s: Session, op: Op)
    requires op.BeginTurn? && op.requestId.Some? && Apply(s, op).Ok?
    ensures TurnRecorded(Apply(s, op).value.log, op.requestId)
  {
    if !TurnRecorded(s.log, op.requestId) {
      assert Apply(s, op).value.log[|s.log| + 1] == UserMessage(op.content, op.requestId);
    }
  }

  lemma RecordedForever(log: seq<Kind>, longer: seq<Kind>, requestId: Option<string>)
    requires log <= longer && TurnRecorded(log, requestId)
    ensures TurnRecorded(longer, requestId)
  {
    var i :| 0 <= i < |log| && log[i].UserMessage? && log[i].requestId == requestId;
    assert longer[i] == log[i];
  }

  lemma {:induction false} DecisionSplits(a: seq<Kind>, b: seq<Kind>, id: string)
    ensures Decision(a + b, id) == if Decision(a, id).Some? then Decision(a, id) else Decision(b, id)
  {
    if a == [] {
      assert a + b == b;
    } else {
      DecisionSplits(a[1..], b, id);
      assert (a + b)[1..] == a[1..] + b;
    }
  }

  lemma {:induction false} DecisionAt(log: seq<Kind>, i: nat)
    requires i < |log| && log[i].ApprovalResolved?
    ensures Decision(log, log[i].resolved).Some?
  {
    if i > 0 {
      DecisionAt(log[1..], i - 1);
    }
  }

  /**
   Each approval is decided at most once, its decision never changes, and it was recorded for the
   latest request while the session awaited it.
   */
  lemma DecidedOnceAndForAll(id: Uuid, before: seq<Op>, after: seq<Op>, i: nat, j: nat)
    requires AllDisciplined(before) && AllDisciplined(after)
    requires var log := Run(Created(id), before).session.log;
             i <= j < |log| && log[i].ApprovalResolved? && log[j].ApprovalResolved?
    ensures var log := Run(Created(id), before).session.log;
            var later := Run(Run(Created(id), before), after).session.log;
            && (log[i].resolved == log[j].resolved ==> i == j)
            && Decision(later, log[i].resolved) == Decision(log, log[i].resolved) == Some(log[i].decision)
            && CurrentApproval(log[..i]) == Some(log[i].resolved)
            && FoldStatus(log[..i]) == AwaitingApproval
  {
    hide Run, Decision, CurrentApproval, FoldFrom, AllDisciplined;
    var h := Run(Created(id), before);
    var log := h.session.log;
    CreatedLog(id);
    RunKeepsLog(Created(id), before);
    assert Sanctioned(log, i) && Sanctioned(log, j);
    if i < j { DecisionAt(log[..j], i); }
    DecisionOfFirst(log, i);
    RunExtends(h, after);
    var later := Run(h, after).session.log;
    assert later == log + later[|log|..];
    DecisionSplits(log, later[|log|..], log[i].resolved);
  }

  lemma DecisionOfFirst(log: seq<Kind>, i: nat)
    requires i < |log| && log[i].ApprovalResolved? && Decision(log[..i], log[i].resolved) == None
    ensures Decision(log, log[i].resolved) == Some(log[i].decision)
  {
    assert log == log[..i] + log[i..] && log[i..][0] == log[i];
    DecisionSplits(log[..i], log[i..], log[i].resolved);
  }

  // ---- Abandoned approvals ----

  ghost predicate Requested(log: seq<Kind>, id: string) { ApprovalRequested(Some(id)) in log }

  ghost predicate Awaited(s: Session, id: string)
  {
    s.status == AwaitingApproval && CurrentApproval(s.log) == Some(id)
  }

  /** Requested, undecided, and not what the session is waiting for. */
  ghost predicate Abandoned(s: Session, id: string)
  {
    Requested(s.log, id) && Decision(s.log, id) == None && !Awaited(s, id)
  }

  lemma {:induction false} CurrentSplits(a: seq<Kind>, b: seq<Kind>)
    requires forall i :: 0 <= i < |b| ==> !b[i].ApprovalRequested?
    ensures CurrentApproval(a + b) == CurrentApproval(a)
    decreases |b|
  {
    if b == [] {
      assert a + b == a;
    } else {
      assert (a + b)[..|a + b| - 1] == a + b[..|b| - 1];
      CurrentSplits(a, b[..|b| - 1]);
    }
  }

  lemma CurrentAfterRequest(a: seq<Kind>, approval: Option<string>, status: Status)
    ensures CurrentApproval(a + [ApprovalRequested(approval), StatusChanged(status)]) == approval
  {
    var b := a + [ApprovalRequested(approval)];
    assert b[..|b| - 1] == a;
    assert a + [ApprovalRequested(approval), StatusChanged(status)] == b + [StatusChanged(status)];
    CurrentSplits(b, [StatusChanged(status)]);
  }

  lemma {:induction false} NothingDecided(kinds: seq<Kind>, id: string)
    requires forall i :: 0 <= i < |kinds| && kinds[i].ApprovalResolved? ==> kinds[i].resolved != id
    ensures Decision(kinds, id) == None
  {
    if kinds != [] {
      NothingDecided(kinds[1..], id);
    }
  }

  /** A transaction that revives an abandoned approval. */
  predicate Revives(s: Session, op: Op, id: string)
  {
    || (op.SetStatus? && op.status == AwaitingApproval && CurrentApproval(s.log) == Some(id))
    || (op.RequestApproval? && op.approval == Some(id))
  }

  /** An abandoned approval stays abandoned except by requesting it again or setting the status directly. */
  lemma RevivedExactlyBy(s: Session, op: Op, id: string)
    requires Abandoned(s, id) && Disciplined(op) && Apply(s, op).Ok?
    ensures !Abandoned(Apply(s, op).value, id) <==> Revives(s, op, id)
  {
    hide CurrentApproval, Decision, TurnRecorded, Admits, Claimable, CapacityError, Disciplined;
    var s' := Apply(s, op).value;
    UndecidedAfter(s, op, id);
    CurrentAfter(s, op);
    assert s.log <= s'.log by { ApplyExtends(s, op); }
  }

  /** Without a decision on it among the new events, an approval stays undecided. */
  lemma UndecidedAfter(s: Session, op: Op, id: string)
    requires Abandoned(s, id) && Disciplined(op) && Apply(s, op).Ok?
    ensures Decision(Apply(s, op).value.log, id) == None
  {
    hide CurrentApproval, Decision, TurnRecorded, Admits, Claimable, CapacityError;
    var s' := Apply(s, op).value;
    ApplyExtends(s, op);
    var added := s'.log[|s.log|..];
    assert s'.log == s.log + added;
    DecisionSplits(s.log, added, id);
    NothingDecided(added, id);
  }

  /** Only a request changes what the latest request is. */
  lemma CurrentAfter(s: Session, op: Op)
    requires Disciplined(op) && Apply(s, op).Ok?
    ensures CurrentApproval(Apply(s, op).value.log) ==
              if op.RequestApproval? then op.approval else CurrentApproval(s.log)
  {
    hide CurrentApproval, Decision, TurnRecorded, Admits, Claimable, CapacityError;
    var s' := Apply(s, op).value;
    ApplyExtends(s, op);
    if op.RequestApproval? {
      CurrentAfterRequest(s.log, op.approval, AwaitingApproval);
    } else {
      var added := s'.log[|s.log|..];
      assert s'.log == s.log + added;
      CurrentSplits(s.log, added);
    }
  }

  /** Fresh request ids, plain raw appends, and no direct jump to awaiting approval. */
  ghost predicate Regular(s: Session, op: Op)
  {
    && Disciplined(op)
    && !(op.SetStatus? && op.status == AwaitingApproval)
    && (op.RequestApproval? && op.approval.Some? ==> !Requested(s.log, op.approval.value))
  }

  ghost predicate RegularRun(h: History, ops: seq<Op>)
    decreases |ops|
  {
    ops != [] ==> Regular(h.session, ops[0]) && RegularRun(Step(h, ops[0]), ops[1..])
  }

  lemma {:induction false} AbandonedForever(h: History, ops: seq<Op>, id: string)
    requires Abandoned(h.session, id) && RegularRun(h, ops)
    ensures Abandoned(Run(h, ops).session, id)
    decreases |ops|
  {
    hide Abandoned, Apply, Disciplined;
    if ops != [] {
      assert Requested(h.session.log, id) by { RequestedWhenAbandoned(h.session, id); }
      if Apply(h.session, ops[0]).Ok? {
        RevivedExactlyBy(h.session, ops[0], id);
      }
      AbandonedForever(Step(h, ops[0]), ops[1..], id);
    }
  }

  lemma RequestedWhenAbandoned(s: Session, id: string)
    requires Abandoned(s, id)
    ensures Requested(s.log, id)
  {
  }

  lemma {:induction false} CurrentIsRequested(log: seq<Kind>)
    ensures CurrentApproval(log).Some? ==> Requested(log, CurrentApproval(log).value)
  {
    if log != [] {
      CurrentIsRequested(log[..|log| - 1]);
    }
  }

  /**
   An approval that was still awaited when the session was cancelled or finalized is never decided
   afterwards: every later attempt fails and records nothing.
   */
  lemma CancelledApprovalIsNeverDecided(h: History, op: Op, after: seq<Op>, attempt: Op)
    requires op.CancelSession? || op.Finalize?
    requires attempt.ResolveApproval? && Awaited(h.session, attempt.id) && Decision(h.session.log, attempt.id) == None
    requires Apply(h.session, op).Ok? && RegularRun(Step(h, op), after)
    ensures var later := Run(Step(h, op), after).session;
            && Decision(later.log, attempt.id) == None
            && Apply(later, attempt) in {Err(ApprovalNotPending), Err(StaleOwnership)}
  {
    hide CurrentApproval, Decision, RegularRun, Run;
    var s, s', id := h.session, Step(h, op).session, attempt.id;
    CurrentIsRequested(s.log);
    ApplyExtends(s, op);
    var added := s'.log[|s.log|..];
    assert s'.log == s.log + added;
    DecisionSplits(s.log, added, id);
    NothingDecided(added, id);
    assert Abandoned(s', id);
    AbandonedForever(Step(h, op), after, id);
  }

  /** One turn of an unclaimed session whose approval is requested and then cancelled. */
  const CANCELLED_TURN: seq<Op> := [
    BeginTurn(None, true, "go", None, true), RequestApproval(None, true, true, Some("a")), CancelSession(None, true)]

  /** ... and the direct status change after which a decision is accepted. */
  const REVIVAL: seq<Op> := [
    SetStatus(None, true, AwaitingApproval), ResolveApproval(None, true, true, "a", "approve")]

  const TURN_LOG: seq<Kind> := [
    SessionCreated(Idle), TurnRouteSnapshot, UserMessage("go", None), StatusChanged(Running)]

  const REQUEST_LOG: seq<Kind> := TURN_LOG + [ApprovalRequested(Some("a")), StatusChanged(AwaitingApproval)]

  /** What those runs do, step by step. */
  lemma RevivalSteps()
    ensures var cancelled := Run(Created(1), CANCELLED_TURN).session;
            && cancelled.status == Cancelled && cancelled.epoch == 0
            && cancelled.log == REQUEST_LOG + [SessionCancelled]
    ensures RegularRun(Created(1), CANCELLED_TURN)
  {
    hide Apply, Decision, CurrentApproval;
    var turn := TurnStep();
    var asked := RequestStep();
    var cancelled := CancelStep();
    assert CANCELLED_TURN[1..][1..][1..] == [];
    assert Run(Created(1), CANCELLED_TURN) == cancelled;
    assert RegularRun(cancelled, []) && RegularRun(asked, CANCELLED_TURN[1..][1..]);
    assert RegularRun(turn, CANCELLED_TURN[1..]);
  }

  lemma TurnStep() returns (h: History)
    ensures h == Step(Created(1), CANCELLED_TURN[0]) && h.session == Session(1, None, 0, Running, TURN_LOG)
  {
    h := Step(Created(1), CANCELLED_TURN[0]);
  }

  lemma RequestStep() returns (h: History)
    ensures h == Step(Step(Created(1), CANCELLED_TURN[0]), CANCELLED_TURN[1])
    ensures h.session == Session(1, None, 0, AwaitingApproval, REQUEST_LOG)
  {
    var turn := TurnStep();
    h := Step(turn, CANCELLED_TURN[1]);
  }

  lemma CancelStep() returns (h: History)
    ensures h == Step(Step(Step(Created(1), CANCELLED_TURN[0]), CANCELLED_TURN[1]), CANCELLED_TURN[2])
    ensures h.session == Session(1, None, 0, Cancelled, REQUEST_LOG + [SessionCancelled])
  {
    var asked := RequestStep();
    h := Step(asked, CANCELLED_TURN[2]);
  }

  lemma RevivalLog()
    ensures CurrentApproval(REQUEST_LOG + [SessionCancelled]) == Some("a")
    ensures CurrentApproval(REQUEST_LOG + [SessionCancelled, StatusChanged(AwaitingApproval)]) == Some("a")
    ensures Decision(REQUEST_LOG + [SessionCancelled], "a") == None
    ensures Decision(REQUEST_LOG + [SessionCancelled, StatusChanged(AwaitingApproval)], "a") == None
  {
    hide CurrentApproval, Decision;
    CurrentAfterRequest(TURN_LOG, Some("a"), AwaitingApproval);
    CurrentSplits(REQUEST_LOG, [SessionCancelled]);
    CurrentSplits(REQUEST_LOG, [SessionCancelled, StatusChanged(AwaitingApproval)]);
    NothingDecided(REQUEST_LOG + [SessionCancelled], "a");
    NothingDecided(REQUEST_LOG + [SessionCancelled, StatusChanged(AwaitingApproval)], "a");
  }

  /**
   Setting the status directly lets a cancelled approval be decided after all: a regular run of a
   created session abandons it, and the direct change is the only irregular transaction that follows.
   */
  lemma DirectStatusRevivesApproval()
    ensures RegularRun(Created(1), CANCELLED_TURN)
    ensures var cancelled := Run(Created(1), CANCELLED_TURN);
            Abandoned(cancelled.session, "a") && Decision(Run(cancelled, REVIVAL).session.log, "a") == Some("approve")
  {
    RevivalSteps();
    RevivalLog();
    var cancelled := Run(Created(1), CANCELLED_TURN);
    hide Run, CurrentApproval, Decision, RegularRun;
    assert Requested(cancelled.session.log, "a") by { assert REQUEST_LOG[4] == ApprovalRequested(Some("a")); }
    RunRevival(cancelled);
  }

  lemma RunRevival(h: History)
    requires h.session.epoch == 0 && h.session.log == REQUEST_LOG + [SessionCancelled]
    ensures Decision(Run(h, REVIVAL).session.log, "a") == Some("approve")
  {
    hide CurrentApproval, Decision;
    RevivalLog();
    var back := Step(h, REVIVAL[0]);
    var waiting := REQUEST_LOG + [SessionCancelled, StatusChanged(AwaitingApproval)];
    assert back.session.log == waiting && back.session.epoch == 0;
    var decided := Step(back, REVIVAL[1]);
    var added := [ApprovalResolved("a", "approve"), StatusChanged(Running)];
    assert decided.session.log == waiting + added;
    assert REVIVAL[1..][1..] == [];
    assert Run(h, REVIVAL) == decided;
    DecisionSplits(waiting, added, "a");
    NothingDecided(added[..0], "a");
    DecisionOfFirst(added, 0);
  }
}
