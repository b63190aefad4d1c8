/**
 Why every encoded response within the runner's quotas can be sent and kept for replay, and the one
 tool whose response is not held to them (crates/kodo/src/protocol.rs, dispatcher.rs, runner.rs).
 */
module ToolResults {
  import opened Prelude
  import opened Utf8
  import opened OutputBuffer
  import opened ProcessLifecycle
  import opened Json
  import opened Limits
  import Dispatcher

  // ---- Quotas on results, and the size of their encoding ----

  /** What the runner guarantees about a result before it is serialized. */
  ghost predicate WithinQuota(r: ToolResult, l: ExecutionLimits)
  {
    match r
    case Files(paths, _) => |paths| <= l.maxResults && SumBytes(paths) <= l.maxOutputBytes
    case FilesChanged(paths) => |paths| <= l.maxResults && SumBytes(paths) <= l.maxOutputBytes
    case Matches(matches, _) => |matches| <= l.maxResults && MatchBytes(matches) <= l.maxOutputBytes
    case File(content, _, _, _) => ByteLen(content) <= l.maxOutputBytes
    case GitOutput(content, _) => ByteLen(content) <= l.maxOutputBytes
    case CommandStarted(_) => true
    case CommandPoll(_, status, output, _, _, _) =>
      && |output| <= l.maxProcessOutputChunks && ContentBytes(output) <= l.maxOutputBytes
      && (forall i :: 0 <= i < |output| ==> output[i].sequence < U64_SIZE)
      && (status.Exited? && status.code.Some? ==> -0x8000_0000 <= status.code.value < 0x8000_0000)
  }

  lemma StatusBytes(s: Status)
    requires s.Exited? && s.code.Some? ==> -0x8000_0000 <= s.code.value < 0x8000_0000
    ensures ByteLen(StatusJson(s)) <= 172
  {
    hide ByteLen, Decimal;
    if s.Exited? {
      var code := if s.code.None? then "null" else Integer(s.code.value);
      if s.code.Some? {
        U64Digits(if s.code.value < 0 then -s.code.value else s.code.value);
      }
      Cat3("{\"exited\":{\"code\":", code, "}}");
    }
  }

  lemma FilesBytes(paths: seq<string>, t: bool)
    ensures ByteLen(FilesJson(paths, t)) <= 6 * SumBytes(paths) + 12 * |paths| + 2000
  {
    hide ByteLen, List, PathItems, Truncation;
    PathItemsBytes(paths);
    ListBytes(PathItems(paths));
    TruncationBytes(t);
    Cat3("{\"result\":\"files\",\"paths\":", List(PathItems(paths)), Truncation(t));
  }

  lemma FilesChangedBytes(paths: seq<string>)
    ensures ByteLen(ChangedJson(paths)) <= 6 * SumBytes(paths) + 12 * |paths| + 2000
  {
    hide ByteLen, List, PathItems;
    PathItemsBytes(paths);
    ListBytes(PathItems(paths));
    Cat3("{\"result\":\"files_changed\",\"paths\":", List(PathItems(paths)), "}");
  }

  lemma MatchListBytes(matches: seq<SearchMatch>, t: bool)
    ensures ByteLen(MatchesJson(matches, t)) <= 6 * MatchBytes(matches) + 504 * |matches| + 2000
  {
    hide ByteLen, List, MatchItems, Truncation;
    MatchItemsBytes(matches);
    ListBytes(MatchItems(matches));
    TruncationBytes(t);
    Cat3("{\"result\":\"matches\",\"matches\":", List(MatchItems(matches)), Truncation(t));
  }

  lemma FileBytes(content: string, offset: U64, next: Option<U64>, t: bool)
    ensures ByteLen(FileJson(content, offset, next, t)) <= 6 * ByteLen(content) + 2000
  {
    hide ByteLen, Quote, OffsetsJson, Truncation;
    QuoteBytes(content);
    TruncationBytes(t);
    OffsetsBytes(offset, next);
    ByteLenConcat(OffsetsJson(offset, next), Truncation(t));
    Cat3("{\"result\":\"file\",\"content\":", Quote(content), OffsetsJson(offset, next) + Truncation(t));
  }

  lemma OffsetsBytes(offset: U64, next: Option<U64>)
    ensures ByteLen(OffsetsJson(offset, next)) <= 300
  {
    hide ByteLen, Decimal;
    U64Digits(offset);
    if next.Some? { U64Digits(next.value); }
    var nextText := if next.None? then "null" else Decimal(next.value);
    ByteLenConcat(",\"next_offset\":", nextText);
    Cat3(",\"offset\":", Decimal(offset), ",\"next_offset\":" + nextText);
  }

  lemma OutputBytes(content: string, t: bool)
    ensures ByteLen(OutputJson(content, t)) <= 6 * ByteLen(content) + 2000
  {
    hide ByteLen, Quote, Truncation;
    QuoteBytes(content);
    TruncationBytes(t);
    Cat3("{\"result\":\"output\",\"content\":", Quote(content), Truncation(t));
  }

  lemma StartedBytes(process: Uuid)
    ensures ByteLen(StartedJson(process)) <= 2000
  {
    hide ByteLen, Quote;
    UuidBytes(process);
    Cat3("{\"result\":\"command_started\",\"process_id\":", Quote(UuidText(process)), "}");
  }

  lemma PollBytes(r: ToolResult)
    requires r.CommandPoll?
    requires forall i :: 0 <= i < |r.output| ==> r.output[i].sequence < U64_SIZE
    requires r.status.Exited? && r.status.code.Some? ==> -0x8000_0000 <= r.status.code.value < 0x8000_0000
    ensures ByteLen(ResultJson(r)) <= 6 * ContentBytes(r.output) + 504 * |r.output| + 2000
  {
    hide ByteLen, PollHead, PollCursor, ChunksJson;
    PollHeadBytes(r.process, r.status);
    PollCursorBytes(r.earliest, r.next, r.truncated);
    ChunksBytes(r.output);
    Cat3(PollHead(r.process, r.status), ChunksJson(r.output), PollCursor(r.earliest, r.next, r.truncated));
  }

  lemma ChunksBytes(output: seq<Chunk>)
    requires forall i :: 0 <= i < |output| ==> output[i].sequence < U64_SIZE
    ensures ByteLen(ChunksJson(output)) <= 6 * ContentBytes(output) + 504 * |output| + 100
  {
    hide ByteLen, List, ChunkItems;
    ChunkItemsBytes(output);
    ListBytes(ChunkItems(output));
    ByteLenConcat(",\"output\":", List(ChunkItems(output)));
  }

  lemma PollHeadBytes(process: Uuid, status: Status)
    requires status.Exited? && status.code.Some? ==> -0x8000_0000 <= status.code.value < 0x8000_0000
    ensures ByteLen(PollHead(process, status)) <= 1400
  {
    hide ByteLen, Quote, StatusJson;
    UuidBytes(process);
    StatusBytes(status);
    Cat3("{\"result\":\"command_poll\",\"process_id\":", Quote(UuidText(process)), ",\"status\":");
    ByteLenConcat("{\"result\":\"command_poll\",\"process_id\":" + Quote(UuidText(process)) + ",\"status\":",
                  StatusJson(status));
  }

  lemma PollCursorBytes(earliest: U64, next: U64, t: bool)
    ensures ByteLen(PollCursor(earliest, next, t)) <= 500
  {
    hide ByteLen, Decimal, Truncation;
    TruncationBytes(t);
    U64Digits(earliest);
    U64Digits(next);
    ByteLenConcat(",\"earliest_sequence\":", Decimal(earliest));
    ByteLenConcat(",\"next_sequence\":", Decimal(next));
    Cat3(",\"earliest_sequence\":" + Decimal(earliest), ",\"next_sequence\":" + Decimal(next), Truncation(t));
  }

  lemma ResultBytes(r: ToolResult, l: ExecutionLimits)
    requires ControlPlaneAccepts(l) && WithinQuota(r, l)
    ensures ByteLen(ResultJson(r)) <= ResponseBudget(l) - 1200
  {
    hide ByteLen, SumBytes, MatchBytes, ContentBytes, PollHead, PollCursor, ChunksJson;
    hide FilesJson, MatchesJson, FileJson, OutputJson, ChangedJson, StartedJson;
    QuotaFields(l);
    match r
    case Files(paths, t) => FilesBytes(paths, t);
    case FilesChanged(paths) => FilesChangedBytes(paths);
    case Matches(matches, t) => MatchListBytes(matches, t);
    case File(content, offset, next, t) => FileBytes(content, offset, next, t);
    case GitOutput(content, t) => OutputBytes(content, t);
    case CommandStarted(process) => StartedBytes(process);
    case CommandPoll(_, _, _, _, _, _) => PollBytes(r);
  }

  /** Under accepted limits, every result within quota encodes to at most the announced maximum. */
  lemma SuccessFits(id: Uuid, r: ToolResult, l: ExecutionLimits)
    requires ControlPlaneAccepts(l) && WithinQuota(r, l)
    ensures ByteLen(Encoded(Success(id, r))) <= ResponseBudget(l)
  {
    hide ByteLen, ResultJson, SuccessHead, WithinQuota;
    ResultBytes(r, l);
    HeadBytes(id);
    Cat3(SuccessHead(id), ResultJson(r), "}");
  }

  lemma HeadBytes(id: Uuid)
    ensures ByteLen(SuccessHead(id)) <= 1180 && ByteLen(FailureHead(Some(id))) <= 1180
  {
    hide ByteLen, Quote;
    UuidBytes(id);
    SuccessHeadBytes(id);
    Cat3("{\"status\":\"error\",\"protocol_version\":5,\"request_id\":", Quote(UuidText(id)), ",\"error\":");
  }

  /** Execution errors are clipped to the output quota before they are encoded. */
  lemma ErrorFits(id: Uuid, error: string, l: ExecutionLimits)
    requires ControlPlaneAccepts(l)
    ensures l.maxOutputBytes >= 0
    ensures ByteLen(Encoded(Failure(Some(id), Clip(error, l.maxOutputBytes)))) <= ResponseBudget(l)
  {
    hide ByteLen, Quote, Clip, FailureHead;
    QuotaFields(l);
    var kept := Clip(error, l.maxOutputBytes);
    QuoteBytes(kept);
    HeadBytes(id);
    Cat3(FailureHead(Some(id)), Quote(kept), "}");
  }

  /** Any result the runner can produce for an execution. */
  ghost predicate Produces(l: ExecutionLimits, id: Uuid, response: string)
  {
    || (exists r :: WithinQuota(r, l) && response == Encoded(Success(id, r)))
    || (exists e: string :: 0 <= l.maxOutputBytes && response == Encoded(Failure(Some(id), Clip(e, l.maxOutputBytes))))
  }

  /**
   Replay retention: under limits the runner accepts, the response of every execution fits the
   transport and is still cached for replay after its own eviction loop.
   */
  lemma EveryResponseIsReplayable(s: Dispatcher.System, h: nat, l: ExecutionLimits, size: nat)
    requires size >= U32_SIZE && RunnerAccepts(l, size)
    requires 0 <= l.maxCachedRequests && 0 <= l.maxCachedResponseBytes
    requires var q := Dispatcher.Quotas(l.maxCachedRequests, l.maxCachedResponseBytes);
             Dispatcher.Inv(s, q) && Dispatcher.Enabled(s, Dispatcher.Account(h))
    ensures var q := Dispatcher.Quotas(l.maxCachedRequests, l.maxCachedResponseBytes);
            Produces(l, s.tasks[h].id, s.tasks[h].progress.response) ==>
              && ByteLen(s.tasks[h].progress.response) <= MAX_CONNECTED_PAYLOAD_BYTES
              && s.tasks[h].id in Dispatcher.Apply(s, Dispatcher.Account(h), q).cache.slots
  {
    hide ByteLen, Encoded, Dispatcher.Inv, Clip, WithinQuota;
    var id, response := s.tasks[h].id, s.tasks[h].progress.response;
    if Produces(l, id, response) {
      ProducedFits(l, id, response, size);
      Dispatcher.RetainedIffItFits(s, h, Dispatcher.Quotas(l.maxCachedRequests, l.maxCachedResponseBytes));
    }
  }

  lemma ProducedFits(l: ExecutionLimits, id: Uuid, response: string, size: nat)
    requires size >= U32_SIZE && RunnerAccepts(l, size) && Produces(l, id, response)
    ensures ByteLen(response) <= ResponseBudget(l)
    ensures ByteLen(response) <= MAX_CONNECTED_PAYLOAD_BYTES && ByteLen(response) <= l.maxCachedResponseBytes
  {
    hide ByteLen, Encoded, Clip, WithinQuota;
    LanguagesAgree(l, size);
    if r :| WithinQuota(r, l) && response == Encoded(Success(id, r)) {
      SuccessFits(id, r, l);
    } else {
      var e: string :| response == Encoded(Failure(Some(id), Clip(e, l.maxOutputBytes)));
      ErrorFits(id, e, l);
    }
  }

  /** Every response written in a run is one the runner can produce for that execution. */
  ghost predicate ProducingRun(s: Dispatcher.System, steps: seq<Dispatcher.Step>, q: Dispatcher.Quotas,
                               l: ExecutionLimits)
    requires Dispatcher.CanRun(s, steps, q)
    decreases |steps|
  {
    steps != [] ==>
      && (steps[0].Respond? ==> Produces(l, s.tasks[steps[0].handle].id, steps[0].response))
      && ProducingRun(Dispatcher.Apply(s, steps[0], q), steps[1..], q, l)
  }

  ghost predicate ResponsesInv(s: Dispatcher.System, l: ExecutionLimits)
  {
    forall h :: 0 <= h < |s.tasks| && Dispatcher.HasResponse(s.tasks[h].progress) ==>
                  Produces(l, s.tasks[h].id, s.tasks[h].progress.response)
  }

  lemma StepKeepsResponses(s: Dispatcher.System, step: Dispatcher.Step, q: Dispatcher.Quotas, l: ExecutionLimits)
    requires ResponsesInv(s, l) && Dispatcher.Enabled(s, step)
    requires step.Respond? ==> Produces(l, s.tasks[step.handle].id, step.response)
    ensures ResponsesInv(Dispatcher.Apply(s, step, q), l)
  {
    hide Produces;
  }

  lemma {:induction false} RunKeepsResponses(s: Dispatcher.System, steps: seq<Dispatcher.Step>, q: Dispatcher.Quotas,
                                             l: ExecutionLimits)
    requires ResponsesInv(s, l) && Dispatcher.CanRun(s, steps, q) && ProducingRun(s, steps, q, l)
    ensures ResponsesInv(Dispatcher.Run(s, steps, q), l)
    decreases |steps|
  {
    hide ResponsesInv, Dispatcher.Apply, Dispatcher.Enabled, Produces;
    if steps != [] {
      StepKeepsResponses(s, steps[0], q, l);
      RunKeepsResponses(Dispatcher.Apply(s, steps[0], q), steps[1..], q, l);
    }
  }

  /**
   Over every run in which executions respond as the tools do, every response fits the transport, and
   at the moment it is accounted for it is still cached after its own eviction loop.
   */
  lemma EveryAccountedResponseSurvives(steps: seq<Dispatcher.Step>, h: nat, l: ExecutionLimits, size: nat)
    requires size >= U32_SIZE && RunnerAccepts(l, size)
    requires 0 <= l.maxCachedRequests && 0 <= l.maxCachedResponseBytes
    requires var q := Dispatcher.Quotas(l.maxCachedRequests, l.maxCachedResponseBytes);
             && Dispatcher.CanRun(Dispatcher.INITIAL, steps, q) && ProducingRun(Dispatcher.INITIAL, steps, q, l)
             && Dispatcher.Enabled(Dispatcher.Run(Dispatcher.INITIAL, steps, q), Dispatcher.Account(h))
    ensures var q := Dispatcher.Quotas(l.maxCachedRequests, l.maxCachedResponseBytes);
            var s := Dispatcher.Run(Dispatcher.INITIAL, steps, q);
            && ByteLen(s.tasks[h].progress.response) <= MAX_CONNECTED_PAYLOAD_BYTES
            && s.tasks[h].id in Dispatcher.Apply(s, Dispatcher.Account(h), q).cache.slots
  {
    hide ByteLen, Produces, Dispatcher.Run, Dispatcher.CanRun, ProducingRun, Dispatcher.Inv;
    var q := Dispatcher.Quotas(l.maxCachedRequests, l.maxCachedResponseBytes);
    Dispatcher.InitialInv(q);
    Dispatcher.RunKeepsInv(Dispatcher.INITIAL, steps, q);
    RunKeepsResponses(Dispatcher.INITIAL, steps, q, l);
    EveryResponseIsReplayable(Dispatcher.Run(Dispatcher.INITIAL, steps, q), h, l, size);
  }

  // ---- replace_text is the exception ----

  datatype ReplaceError = EmptyOldText | InputTooLarge | Unresolved | NotUnique

  /**
   `replace_text`: the request is held to the patch quota; the answer names the resolved path.
   `resolved` is what resolving an existing, confined file gives, and `unique` whether the old text
   occurred exactly once.
   */
  function ReplaceText(path: string, oldText: string, newText: string, resolved: Option<string>, unique: bool,
                       l: ExecutionLimits): Result<ToolResult, ReplaceError>
  {
    if oldText == "" then Err(EmptyOldText)
    else if ByteLen(path) + ByteLen(oldText) + ByteLen(newText) > l.maxPatchInputBytes then Err(InputTooLarge)
    else if resolved.None? then Err(Unresolved)
    else if !unique then Err(NotUnique)
    else Ok(FilesChanged([resolved.value]))
  }

  /** Everything around the escaped path: envelope, identifier, tags and brackets. */
  const REPLACEMENT_FRAME_BYTES: nat := 144

  lemma ChangedPathBytes(id: Uuid, path: string)
    ensures ByteLen(Encoded(Success(id, FilesChanged([path])))) == REPLACEMENT_FRAME_BYTES + ByteLen(Escape(path))
  {
    hide ByteLen, SuccessHead, ChangedJson;
    Cat3(SuccessHead(id), ChangedJson([path]), "}");
    ChangedBytes(path);
    SuccessHeadBytes(id);
    SignBytes();
  }

  lemma SuccessHeadBytes(id: Uuid)
    ensures ByteLen(SuccessHead(id)) == 104
  {
    hide ByteLen, Quote;
    UuidBytes(id);
    TagBytes();
    Cat3(SUCCESS_TAG + VERSION_TAG, Quote(UuidText(id)), RESPONSE_TAG);
    ByteLenConcat(SUCCESS_TAG, VERSION_TAG);
  }

  lemma TagBytes()
    ensures ByteLen(SUCCESS_TAG) == 20 && ByteLen(VERSION_TAG) == 34
    ensures ByteLen(RESPONSE_TAG) == 12 && ByteLen(CHANGED_TAG) == 34
  {
    hide ByteLen;
    AsciiBytes(SUCCESS_TAG);
    AsciiBytes(VERSION_TAG);
    AsciiBytes(RESPONSE_TAG);
    AsciiBytes(CHANGED_TAG);
  }

  lemma SignBytes()
    ensures ByteLen("[") == 1 && ByteLen("]") == 1 && ByteLen("}") == 1 && ByteLen("\"") == 1 && ByteLen("/") == 1
  {
    AsciiBytes("[");
    AsciiBytes("]");
    AsciiBytes("}");
    AsciiBytes("\"");
    AsciiBytes("/");
  }

  lemma ChangedBytes(path: string)
    ensures ByteLen(ChangedJson([path])) == 39 + ByteLen(Escape(path))
  {
    hide ByteLen, Quote, Escape;
    assert [path][1..] == [];
    assert PathItems([path]) == [Quote(path)];
    QuoteBytes(path);
    Cat3("[", Quote(path), "]");
    Cat3(CHANGED_TAG, List(PathItems([path])), "}");
    TagBytes();
    SignBytes();
  }

  /**
   The response to a replacement fits exactly when the escaped resolved path is at most the announced
   maximum less a constant.
   */
  lemma ReplacementFitsIff(id: Uuid, path: string, l: ExecutionLimits)
    ensures ByteLen(Encoded(Success(id, FilesChanged([path])))) <= ResponseBudget(l) <==>
              ByteLen(Escape(path)) <= ResponseBudget(l) - REPLACEMENT_FRAME_BYTES
  {
    ChangedPathBytes(id, path);
  }

  /** It is kept for replay exactly when it fits what the cache may hold. */
  lemma ReplacementRetainedIff(s: Dispatcher.System, h: nat, path: string, q: Dispatcher.Quotas)
    requires Dispatcher.Inv(s, q) && Dispatcher.Enabled(s, Dispatcher.Account(h))
    requires s.tasks[h].progress.response == Encoded(Success(s.tasks[h].id, FilesChanged([path])))
    ensures s.tasks[h].id in Dispatcher.Apply(s, Dispatcher.Account(h), q).cache.slots <==>
              ByteLen(Escape(path)) <= q.maxBytes - REPLACEMENT_FRAME_BYTES
  {
    hide ByteLen, Encoded, Escape, Dispatcher.Inv;
    ChangedPathBytes(s.tasks[h].id, path);
    Dispatcher.RetainedIffItFits(s, h, q);
  }

  /** The longest file name and the longest path, with its terminator, that a Linux file system resolves. */
  const NAME_MAX: nat := 255
  const PATH_MAX: nat := 4096

  /**
   Whatever a file system resolves, every replacement fits once the announced maximum - and with it the
   cache - leaves room for the longest path fully escaped.
   */
  lemma RoomyLimitsFitEveryReplacement(id: Uuid, path: string, l: ExecutionLimits)
    requires ByteLen(path) < PATH_MAX
    requires REPLACEMENT_FRAME_BYTES + JSON_ESCAPE_EXPANSION * (PATH_MAX - 1) <= ResponseBudget(l)
    ensures ByteLen(Encoded(Success(id, FilesChanged([path])))) <= ResponseBudget(l)
    ensures ControlPlaneAccepts(l) ==>
              && ByteLen(Encoded(Success(id, FilesChanged([path])))) <= MAX_CONNECTED_PAYLOAD_BYTES
              && ByteLen(Encoded(Success(id, FilesChanged([path])))) <= l.maxCachedResponseBytes
  {
    hide ByteLen, Encoded, Escape;
    ChangedPathBytes(id, path);
    EscapeExpandsSixfold(path);
  }

  function Nested(component: string, depth: nat): (path: string)
    requires depth > 0
  {
    if depth == 1 then component else component + "/" + Nested(component, depth - 1)
  }

  /** A file that can exist: five nested names of two hundred control characters each. */
  const LONG_NAME: string := seq(200, _ => '\U{0001}')

  const LONG_PATH: string := Nested(LONG_NAME, 5)

  lemma {:induction false} EscapeConcat(a: string, b: string)
    ensures Escape(a + b) == Escape(a) + Escape(b)
  {
    hide EscapeChar;
    if a == "" {
      assert a + b == b;
    } else {
      EscapeConcat(a[1..], b);
      assert (a + b)[0] == a[0] && (a + b)[1..] == a[1..] + b;
      assert EscapeChar(a[0]) + (Escape(a[1..]) + Escape(b)) == EscapeChar(a[0]) + Escape(a[1..]) + Escape(b);
    }
  }

  /** A control character is one byte that escapes to six. */
  lemma {:induction false} ControlBytes(s: string)
    requires forall i :: 0 <= i < |s| ==> s[i] == '\U{0001}'
    ensures ByteLen(s) == |s| && ByteLen(Escape(s)) == 6 * |s|
  {
    if s != "" {
      ControlBytes(s[1..]);
      AsciiBytes(EscapeChar(s[0]));
      ByteLenConcat(EscapeChar(s[0]), Escape(s[1..]));
    }
  }

  lemma {:induction false} NestedBytes(component: string, depth: nat)
    requires depth > 0 && |component| == 200 && forall i :: 0 <= i < |component| ==> component[i] == '\U{0001}'
    ensures ByteLen(Nested(component, depth)) == 201 * depth - 1
    ensures ByteLen(Escape(Nested(component, depth))) == 1201 * depth - 1
  {
    hide ByteLen, Escape;
    ControlBytes(component);
    if depth > 1 {
      var rest := Nested(component, depth - 1);
      NestedBytes(component, depth - 1);
      EscapeConcat(component + "/", rest);
      EscapeConcat(component, "/");
      PlainIsNotEscaped("/");
      assert Escape(component + "/" + rest) == Escape(component) + "/" + Escape(rest);
      ByteLenConcat(component + "/", rest);
      ByteLenConcat(component, "/");
      ByteLenConcat(Escape(component) + "/", Escape(rest));
      ByteLenConcat(Escape(component), "/");
    }
  }

  /**
   The resolved path is not held to the output quota, so a replacement that the runner accepts, of a
   file that can exist, may have a response over the announced maximum.
   */
  lemma ReplacementCanOverflow()
    ensures ByteLen(LONG_NAME) <= NAME_MAX && ByteLen(LONG_PATH) < PATH_MAX
    ensures var l := ExecutionLimits(1, 1, 1, 524_288, 1, 1, 1, 1, 1, 5126);
            && ControlPlaneAccepts(l)
            && ReplaceText(LONG_PATH, "a", "b", Some(LONG_PATH), true, l) == Ok(FilesChanged([LONG_PATH]))
            && ByteLen(Encoded(Success(0, FilesChanged([LONG_PATH])))) > ResponseBudget(l)
  {
    hide ByteLen, Escape, Encoded, Nested;
    ControlBytes(LONG_NAME);
    NestedBytes(LONG_NAME, 5);
    AsciiBytes("a");
    AsciiBytes("b");
    ChangedPathBytes(0, LONG_PATH);
  }
}
