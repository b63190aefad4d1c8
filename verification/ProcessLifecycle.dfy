/**
 One supervised command: two reader tasks, the supervisor, and a polling client, interleaved in any
 order (crates/kodo/src/process.rs).
 */
module ProcessLifecycle {
  import opened Prelude
  import opened Utf8
  import opened Utf8Stream
  import opened OutputBuffer

  datatype Status = Running | Exited(code: Option<int>) | TimedOut | Stopped

  datatype Outcome = ChildExited(code: Option<int>) | WaitFailed | StopRequested | AuthorityLost | DeadlinePassed

  function StatusOf(outcome: Outcome): (s: Status)
    ensures s != Running
  {
    match outcome
    case ChildExited(code) => Exited(code)
    case WaitFailed => Exited(None)
    case DeadlinePassed => TimedOut
    case _ => Stopped
  }

  /** A reader task: alive or ended, and its decoder's pending bytes. */
  datatype Reader = Reader(alive: bool, pending: seq<Byte>)

  /** The supervisor's position; `cut` is the disjunction of the finished joins. */
  datatype Phase =
    | Watching
    | JoiningStdout(final: Status)
    | JoiningStderr(final: Status, cut: bool)
    | Publishing(final: Status, cut: bool)
    | Finished

  datatype Process = Process(output: Output, status: Status, stdout: Reader, stderr: Reader, phase: Phase)

  /** What happened so far, for stating properties: no operation reads it. */
  datatype History = History(
    log: seq<Chunk>, inputs: seq<Piece>, bytesOut: seq<Byte>, bytesErr: seq<Byte>,
    endedOut: bool, endedErr: bool, timedOut: bool, decisions: seq<Outcome>, client: Client, sawTerminal: bool)

  datatype World = World(p: Process, h: History)

  datatype Step =
    | Read(stream: Stream, bytes: seq<Byte>)
    | EndOfStream(stream: Stream)
    | Decide(outcome: Outcome)
    | JoinStdout(timedOut: bool)
    | JoinStderr(timedOut: bool)
    | Publish
    | ClientPolls

  function ReaderOf(p: Process, s: Stream): Reader { if s == Stdout then p.stdout else p.stderr }

  function WithReader(p: Process, s: Stream, r: Reader): Process
  {
    if s == Stdout then p.(stdout := r) else p.(stderr := r)
  }

  function BytesOf(h: History, s: Stream): seq<Byte> { if s == Stdout then h.bytesOut else h.bytesErr }

  function EndedOf(h: History, s: Stream): bool { if s == Stdout then h.endedOut else h.endedErr }

  const START := World(
    Process(EMPTY, Running, Reader(true, []), Reader(true, []), Watching),
    History([], [], [], [], false, false, false, [], NEW_CLIENT, false))

  predicate Enabled(w: World, step: Step)
  {
    match step
    case Read(s, bytes) => ReaderOf(w.p, s).alive && bytes != []
    case EndOfStream(s) => ReaderOf(w.p, s).alive
    case Decide(_) => w.p.phase.Watching?
    case JoinStdout(timedOut) => w.p.phase.JoiningStdout? && (timedOut || !w.p.stdout.alive)
    case JoinStderr(timedOut) => w.p.phase.JoiningStderr? && (timedOut || !w.p.stderr.alive)
    case Publish => w.p.phase.Publishing?
    case ClientPolls => w.h.client.cursor < U64_SIZE && w.p.output.nextSequence >= 1
  }

  /** A reader task decodes one block and appends it under the state lock. */
  function Deliver(w: World, q: Quota, s: Stream, content: string, r: Reader, bytes: seq<Byte>, end: bool): World
  {
    var p := w.p.(output := Append(w.p.output, q, s, content));
    var h := w.h.(
      log := w.h.log + Added(w.p.output.nextSequence, q, s, content),
      inputs := w.h.inputs + [Piece(s, content)]);
    World(
      WithReader(p, s, r),
      if s == Stdout then h.(bytesOut := h.bytesOut + bytes, endedOut := end)
      else h.(bytesErr := h.bytesErr + bytes, endedErr := end))
  }

  function Apply(w: World, step: Step, q: Quota): (w': World)
    requires Enabled(w, step)
  {
    var p := w.p;
    match step
    case Read(s, bytes) =>
      var input := ReaderOf(p, s).pending + bytes;
      Deliver(w, q, s, Settled(input), Reader(true, Unsettled(input)), bytes, false)
    case EndOfStream(s) =>
      Deliver(w, q, s, Lossy(ReaderOf(p, s).pending), Reader(false, []), [], true)
    case Decide(outcome) =>
      World(p.(phase := JoiningStdout(StatusOf(outcome))), w.h.(decisions := w.h.decisions + [outcome]))
    case JoinStdout(timedOut) => // a reader that timed out is aborted, and counts as cut even if it has just ended
      w.(p := p.(phase := JoiningStderr(p.phase.final, timedOut), stdout := p.stdout.(alive := false)),
         h := w.h.(timedOut := timedOut))
    case JoinStderr(timedOut) =>
      w.(p := p.(phase := Publishing(p.phase.final, p.phase.cut || timedOut),
                 stderr := p.stderr.(alive := false)),
         h := w.h.(timedOut := w.h.timedOut || timedOut))
    case Publish =>
      w.(p := p.(
           output := p.output.(terminalTruncated := p.output.terminalTruncated || p.phase.cut),
           status := p.phase.final, phase := Finished))
    case ClientPolls =>
      w.(h := w.h.(client := ClientPoll(w.h.client, p.output), sawTerminal := p.status != Running))
  }

  predicate CanRun(w: World, steps: seq<Step>, q: Quota)
    decreases |steps|
  {
    steps == [] || (Enabled(w, steps[0]) && CanRun(Apply(w, steps[0], q), steps[1..], q))
  }

  function Run(w: World, steps: seq<Step>, q: Quota): (w': World)
    requires CanRun(w, steps, q)
    decreases |steps|
  {
    if steps == [] then w else Run(Apply(w, steps[0], q), steps[1..], q)
  }

  // ---- What every interleaving keeps ----

  /** The decoded text so far is that of the bytes read so far. */
  ghost predicate ReaderInv(w: World, s: Stream)
  {
    var text, bytes := PieceText(w.h.inputs, s), BytesOf(w.h, s);
    var r := ReaderOf(w.p, s);
    && (r.alive ==> !EndedOf(w.h, s) && text == Settled(bytes) && r.pending == Unsettled(bytes))
    && (EndedOf(w.h, s) ==> !r.alive && text == Lossy(bytes))
  }

  /** Joins happen in order, and a reader cut short is on record. */
  ghost predicate PhaseInv(w: World)
  {
    var p, h := w.p, w.h;
    var outDone, errDone := p.stdout.alive || h.endedOut, p.stderr.alive || h.endedErr;
    && (p.status == Running <==> p.phase != Finished)
    && match p.phase
       case Watching => outDone && errDone
       case JoiningStdout(final) => final != Running && outDone && errDone
       case JoiningStderr(final, cut) =>
         final != Running && !p.stdout.alive && (h.endedOut || cut) && errDone
       case Publishing(final, cut) =>
         final != Running && !p.stdout.alive && !p.stderr.alive && ((h.endedOut && h.endedErr) || cut)
       case Finished =>
         && !p.stdout.alive && !p.stderr.alive
         && ((h.endedOut && h.endedErr) || p.output.terminalTruncated)
  }

  ghost predicate ClientInv(w: World)
  {
    && Follows(w.h.client, w.h.log)
    && (w.h.sawTerminal ==> w.p.status != Running)
    && (w.h.sawTerminal && !w.h.client.flagged ==>
          w.h.client.received == w.h.log && !w.p.output.terminalTruncated)
  }

  ghost predicate Inv(w: World, q: Quota)
  {
    && Tracks(w.p.output, w.h.log, q)
    && Carries(w.p.output, w.h.log, w.h.inputs)
    && ReaderInv(w, Stdout) && ReaderInv(w, Stderr)
    && PhaseInv(w)
    && ClientInv(w)
  }

  lemma StartInv(q: Quota)
    ensures Inv(START, q)
  {
    hide Settled, Unsettled, Lossy, Tracks, Carries, Follows, AnyClipped;
    LossyOfUnsettled([]);
    EmptyTracks(q);
  }

  lemma DeliverKeepsInv(w: World, q: Quota, s: Stream, content: string, r: Reader, bytes: seq<Byte>, end: bool)
    requires Inv(w, q) && ReaderOf(w.p, s).alive
    requires r.alive == !end
    requires !end ==> PieceText(w.h.inputs, s) + content == Settled(BytesOf(w.h, s) + bytes)
                      && r.pending == Unsettled(BytesOf(w.h, s) + bytes)
    requires end ==> PieceText(w.h.inputs, s) + content == Lossy(BytesOf(w.h, s) + bytes)
    ensures Inv(Deliver(w, q, s, content, r, bytes, end), q)
  {
    hide Append, Added, Settled, Unsettled, Lossy, Tracks, Carries, Follows, PieceText, ReaderInv, AnyClipped;
    AppendTracks(w.p.output, w.h.log, q, s, content);
    AppendCarries(w.p.output, w.h.log, w.h.inputs, q, s, content);
    GrowingLogKeepsFollowers(w.h.client, w.h.log, Added(w.p.output.nextSequence, q, s, content));
    DeliverKeepsReader(w, q, s, content, r, bytes, end, Stdout);
    DeliverKeepsReader(w, q, s, content, r, bytes, end, Stderr);
    AppendKeepsFlag(w.p.output, q, s, content);
  }

  lemma AppendKeepsFlag(o: Output, q: Quota, s: Stream, content: string)
    ensures o.terminalTruncated ==> Append(o, q, s, content).terminalTruncated
  {
    hide Clip, Retain, ContentBytes;
  }

  lemma DeliverKeepsReader(w: World, q: Quota, s: Stream, content: string, r: Reader, bytes: seq<Byte>, end: bool,
                           st: Stream)
    requires ReaderInv(w, st) && r.alive == !end
    requires !end ==> PieceText(w.h.inputs, s) + content == Settled(BytesOf(w.h, s) + bytes)
                      && r.pending == Unsettled(BytesOf(w.h, s) + bytes)
    requires end ==> PieceText(w.h.inputs, s) + content == Lossy(BytesOf(w.h, s) + bytes)
    ensures ReaderInv(Deliver(w, q, s, content, r, bytes, end), st)
  {
    hide Append, Added, Settled, Unsettled, Lossy, PieceText;
    PieceTextGrows(w.h.inputs, Piece(s, content), st);
  }

  lemma PieceTextGrows(pieces: seq<Piece>, last: Piece, st: Stream)
    ensures PieceText(pieces + [last], st) == PieceText(pieces, st) + (if last.stream == st then last.text else "")
  {
    assert (pieces + [last])[..|pieces|] == pieces;
  }

  lemma StepKeepsInv(w: World, step: Step, q: Quota)
    requires Inv(w, q) && Enabled(w, step)
    ensures Inv(Apply(w, step, q), q)
  {
    hide Append, Added, Settled, Unsettled, Lossy, Tracks, Carries, Follows, Poll, ClientPoll, PieceText;
    match step
    case Read(s, bytes) =>
      DecodingResumes(BytesOf(w.h, s), bytes);
      var input := ReaderOf(w.p, s).pending + bytes;
      DeliverKeepsInv(w, q, s, Settled(input), Reader(true, Unsettled(input)), bytes, false);
    case EndOfStream(s) =>
      LossyResumes(BytesOf(w.h, s), []);
      assert ReaderOf(w.p, s).pending + [] == ReaderOf(w.p, s).pending;
      DeliverKeepsInv(w, q, s, Lossy(ReaderOf(w.p, s).pending), Reader(false, []), [], true);
    case Publish => PublishKeepsOutput(w.p.output, w.h.log, w.h.inputs, q, w.p.phase.cut);
    case ClientPolls => ClientPollFollows(w.h.client, w.p.output, w.h.log, q);
    case _ =>
  }

  lemma PublishKeepsOutput(o: Output, log: seq<Chunk>, inputs: seq<Piece>, q: Quota, cut: bool)
    requires Tracks(o, log, q) && Carries(o, log, inputs)
    ensures Tracks(o.(terminalTruncated := o.terminalTruncated || cut), log, q)
    ensures Carries(o.(terminalTruncated := o.terminalTruncated || cut), log, inputs)
  {
  }

  lemma {:induction false} RunKeepsInv(w: World, steps: seq<Step>, q: Quota)
    requires Inv(w, q) && CanRun(w, steps, q)
    ensures Inv(Run(w, steps, q), q)
    decreases |steps|
  {
    if steps != [] {
      StepKeepsInv(w, steps[0], q);
      RunKeepsInv(Apply(w, steps[0], q), steps[1..], q);
    }
  }

  // ---- Main results ----

  /** The status leaves Running only by publication, and only after both readers have ended. */
  lemma TerminalOnlyAfterReaders(w: World, step: Step, q: Quota)
    requires Inv(w, q) && Enabled(w, step)
    requires w.p.status == Running && Apply(w, step, q).p.status != Running
    ensures step == Publish && !w.p.stdout.alive && !w.p.stderr.alive
  {
  }

  /** After a terminal status nothing that a poll can see changes again. */
  lemma {:induction false} FrozenAfterTerminal(w: World, steps: seq<Step>, q: Quota, after: U64)
    requires Inv(w, q) && w.p.status != Running && CanRun(w, steps, q)
    ensures Run(w, steps, q).p.status == w.p.status
    ensures Poll(Run(w, steps, q).p.output, after) == Poll(w.p.output, after)
    decreases |steps|
  {
    if steps != [] {
      StepKeepsInv(w, steps[0], q);
      assert Apply(w, steps[0], q).p == w.p;
      FrozenAfterTerminal(Apply(w, steps[0], q), steps[1..], q, after);
    }
  }

  /**
   From start to finish: a client that resumes from its cursor, was never told of truncation and saw
   the terminal status holds exactly the lossy decoding of everything that was read from each stream,
   and both readers ended by themselves - at the end of the stream or at a failed read, which the
   source treats alike.
   */
  lemma ReplayIsComplete(steps: seq<Step>, q: Quota, s: Stream)
    requires CanRun(START, steps, q)
    ensures var w := Run(START, steps, q);
            w.h.sawTerminal && !w.h.client.flagged ==>
              EndedOf(w.h, s) && ChunkText(w.h.client.received, s) == Lossy(BytesOf(w.h, s))
  {
    StartInv(q);
    RunKeepsInv(START, steps, q);
    var w := Run(START, steps, q);
    assert Inv(w, q);
  }

  /**
   In every interleaving of appends, evictions and polls, a client that resumes from its cursor and
   was never told of truncation has received every chunk up to its cursor exactly once, in order and
   unclipped; the retained chunks are the newest ones, within both quotas.
   */
  lemma PollingIsExactInEveryRun(steps: seq<Step>, q: Quota)
    requires CanRun(START, steps, q)
    ensures var w := Run(START, steps, q);
            var o, log, client := w.p.output, w.h.log, w.h.client;
            && |o.chunks| <= |log| && o.chunks == log[|log| - |o.chunks|..] && o.nextSequence == |log| + 1
            && (forall i :: 0 <= i < |log| ==> log[i].sequence == i + 1)
            && ContentBytes(o.chunks) <= q.maxBytes && |o.chunks| <= Max(1, q.maxChunks)
            && client.cursor <= |log|
            && (!client.flagged ==> client.received == log[..client.cursor] && !AnyClipped(client.received))
  {
    StartInv(q);
    RunKeepsInv(START, steps, q);
    hide Run, CanRun, AnyClipped, ContentBytes;
    assert Inv(Run(START, steps, q), q);
  }

  // ---- What the terminal status says ----

  /** How a supervised command ended, and the status that reports it. */
  predicate Reports(status: Status, outcome: Outcome)
  {
    match status
    case Running => false
    case Exited(Some(code)) => outcome == ChildExited(Some(code))
    case Exited(None) => outcome == ChildExited(None) || outcome == WaitFailed
    case TimedOut => outcome == DeadlinePassed
    case Stopped => outcome == StopRequested || outcome == AuthorityLost
  }

  /** The supervisor decides once; the status it carries and publishes reports that decision. */
  ghost predicate DecisionInv(w: World)
  {
    && (w.p.phase.Watching? <==> w.h.decisions == [])
    && (!w.p.phase.Watching? ==>
          && |w.h.decisions| == 1
          && Reports(if w.p.phase.Finished? then w.p.status else w.p.phase.final, w.h.decisions[0]))
  }

  lemma StepKeepsDecision(w: World, step: Step, q: Quota)
    requires DecisionInv(w) && Enabled(w, step)
    ensures DecisionInv(Apply(w, step, q))
  {
    hide Append, Added, Settled, Unsettled, Lossy, Poll, ClientPoll;
  }

  lemma {:induction false} RunKeepsDecision(w: World, steps: seq<Step>, q: Quota)
    requires DecisionInv(w) && CanRun(w, steps, q)
    ensures DecisionInv(Run(w, steps, q))
    decreases |steps|
  {
    hide DecisionInv, Apply, Enabled;
    if steps != [] {
      StepKeepsDecision(w, steps[0], q);
      RunKeepsDecision(Apply(w, steps[0], q), steps[1..], q);
    }
  }

  /**
   In every run at most one outcome is decided, and the status of a finished process reports it: an
   exit with exactly the child's code (none if it had none or the wait failed), a timeout if and only if
   the deadline passed, a stop if and only if one was requested or the authority was lost.
   */
  lemma StatusReportsOutcome(steps: seq<Step>, q: Quota, code: Option<int>)
    requires CanRun(START, steps, q)
    ensures var (p, decisions) := (Run(START, steps, q).p, Run(START, steps, q).h.decisions);
            && |decisions| <= 1
            && (p.status != Running ==>
                  && |decisions| == 1
                  && (p.status == Exited(code) <==>
                        decisions[0] == ChildExited(code) || (decisions[0] == WaitFailed && code == None))
                  && (p.status == TimedOut <==> decisions[0] == DeadlinePassed)
                  && (p.status == Stopped <==> decisions[0] == StopRequested || decisions[0] == AuthorityLost))
  {
    StartInv(q);
    assert DecisionInv(START);
    hide Run, CanRun;
    RunKeepsInv(START, steps, q);
    RunKeepsDecision(START, steps, q);
    assert PhaseInv(Run(START, steps, q));
  }

  // ---- When the truncation flag is up ----

  /** The join outcomes recorded so far are those of the history. */
  ghost predicate FlagInv(w: World, q: Quota)
  {
    && (match w.p.phase
        case JoiningStderr(_, cut) => cut == w.h.timedOut
        case Publishing(_, cut) => cut == w.h.timedOut
        case Finished => true
        case _ => !w.h.timedOut)
    && (w.p.output.terminalTruncated <==> AnyDropped(w.h.inputs, q) || (w.p.phase.Finished? && w.h.timedOut))
    && (w.p.phase.Finished? ==> !w.p.stdout.alive && !w.p.stderr.alive)
  }

  lemma StepKeepsFlag(w: World, step: Step, q: Quota)
    requires Inv(w, q) && FlagInv(w, q) && Enabled(w, step)
    ensures FlagInv(Apply(w, step, q), q)
  {
    hide Append, Added, Settled, Unsettled, Lossy, Tracks, Carries, Follows, Poll, ClientPoll, PieceText, AnyDropped,
         Dropped;
    match step
    case Read(s, bytes) =>
      var content := Settled(ReaderOf(w.p, s).pending + bytes);
      AppendFlags(w.p.output, q, s, content);
      AnyDroppedAppend(w.h.inputs, Piece(s, content), q);
    case EndOfStream(s) =>
      var content := Lossy(ReaderOf(w.p, s).pending);
      AppendFlags(w.p.output, q, s, content);
      AnyDroppedAppend(w.h.inputs, Piece(s, content), q);
    case _ =>
  }

  lemma {:induction false} RunKeepsFlag(w: World, steps: seq<Step>, q: Quota)
    requires Inv(w, q) && FlagInv(w, q) && CanRun(w, steps, q)
    ensures FlagInv(Run(w, steps, q), q)
    decreases |steps|
  {
    hide Inv, FlagInv, Apply, Enabled;
    if steps != [] {
      StepKeepsInv(w, steps[0], q);
      StepKeepsFlag(w, steps[0], q);
      RunKeepsFlag(Apply(w, steps[0], q), steps[1..], q);
    }
  }

  /**
   In every run, a poll says truncated exactly when some text was dropped because not one character of
   it fits the quota, a finished process had a reader whose join timed out, chunks after the cursor are
   evicted, or a chunk it would show was clipped.
   */
  lemma TruncatedExactlyWhen(steps: seq<Step>, q: Quota, after: U64)
    requires CanRun(START, steps, q)
    ensures var w := Run(START, steps, q);
            && |w.p.output.chunks| <= |w.h.log|
            && (Poll(w.p.output, after).truncated <==>
                  || AnyDropped(w.h.inputs, q)
                  || (w.p.phase.Finished? && w.h.timedOut)
                  || SaturatingSucc(after) <= |w.h.log| - |w.p.output.chunks|
                  || AnyClipped(w.h.log[FirstShown(w.p.output, w.h.log, after)..]))
  {
    StartInv(q);
    assert FlagInv(START, q);
    hide Run, CanRun, Poll, AnyDropped, AnyClipped;
    RunKeepsInv(START, steps, q);
    RunKeepsFlag(START, steps, q);
    var w := Run(START, steps, q);
    assert Inv(w, q) && Tracks(w.p.output, w.h.log, q);
    TruncatedMeans(w.p.output, w.h.log, q, after);
  }

  /** Something that was or could have been read does not reach a client polling from `after`. */
  ghost predicate Loss(w: World, q: Quota, after: U64)
    requires |w.p.output.chunks| <= |w.h.log|
  {
    || AnyDropped(w.h.inputs, q)
    || (w.p.phase.Finished? && !(w.h.endedOut && w.h.endedErr))
    || SaturatingSucc(after) <= |w.h.log| - |w.p.output.chunks|
    || AnyClipped(w.h.log[FirstShown(w.p.output, w.h.log, after)..])
  }

  /** Both readers of a finished process ended, one of them only after its join had timed out. */
  predicate EndedLate(w: World) { w.p.phase.Finished? && w.h.timedOut && w.h.endedOut && w.h.endedErr }

  /**
   In every run a loss is always reported, and what is reported is a loss - except, exactly, when
   nothing was lost but a reader ended after its join had timed out.
   */
  lemma ReportedExactlyWhenLost(steps: seq<Step>, q: Quota, after: U64)
    requires CanRun(START, steps, q)
    ensures var w := Run(START, steps, q);
            && |w.p.output.chunks| <= |w.h.log|
            && (Loss(w, q, after) ==> Poll(w.p.output, after).truncated)
            && ((Poll(w.p.output, after).truncated <==> Loss(w, q, after)) <==> Loss(w, q, after) || !EndedLate(w))
  {
    TruncatedExactlyWhen(steps, q, after);
    StartInv(q);
    assert FlagInv(START, q);
    hide Run, CanRun, Poll, AnyDropped, AnyClipped;
    RunKeepsInv(START, steps, q);
    RunKeepsFlag(START, steps, q);
    var w := Run(START, steps, q);
    assert PhaseInv(w) && FlagInv(w, q);
    assert Poll(w.p.output, after).truncated <== w.p.output.terminalTruncated by {
      TruncatedMeans(w.p.output, w.h.log, q, after);
    }
  }

  /** A silent command whose first reader ended just after its join had timed out. */
  const FALSE_ALARM: seq<Step> := [
    EndOfStream(Stdout), EndOfStream(Stderr), Decide(ChildExited(Some(0))),
    JoinStdout(true), JoinStderr(false), Publish, ClientPolls]

  /** A timed-out join is reported even when nothing was lost: there was nothing to lose. */
  lemma TimedOutJoinIsReportedWithoutLoss(q: Quota)
    ensures CanRun(START, FALSE_ALARM, q)
    ensures var w := Run(START, FALSE_ALARM, q);
            && w.h.client.flagged
            && w.h.endedOut && w.h.endedErr && w.h.bytesOut == [] && w.h.bytesErr == [] && w.h.log == []
  {
    var out := Apply(START, FALSE_ALARM[0], q);
    var err := Apply(out, FALSE_ALARM[1], q);
    assert Lossy([]) == "";
    assert err.p.output == EMPTY && err.h.log == [];
    var decided := Apply(err, FALSE_ALARM[2], q);
    var joined := Apply(Apply(decided, FALSE_ALARM[3], q), FALSE_ALARM[4], q);
    var published := Apply(joined, FALSE_ALARM[5], q);
    assert published.p.output.terminalTruncated;
    var polled := Apply(published, FALSE_ALARM[6], q);
  }
}
