/** Bounded, replayable command output (crates/kodo/src/process.rs). */
module OutputBuffer {
  import opened Prelude
  import opened Utf8

  datatype Stream = Stdout | Stderr

  datatype Chunk = Chunk(sequence: nat, stream: Stream, content: string, truncated: bool)

  datatype Quota = Quota(maxBytes: nat, maxChunks: nat)

  datatype Output = Output(chunks: seq<Chunk>, bytes: nat, nextSequence: nat, terminalTruncated: bool)

  const EMPTY := Output([], 0, 1, false)

  function ContentBytes(chunks: seq<Chunk>): (n: nat)
  {
    if chunks == [] then 0 else ByteLen(chunks[0].content) + ContentBytes(chunks[1..])
  }

  lemma {:induction false} ContentBytesAppend(chunks: seq<Chunk>, last: Chunk)
    ensures ContentBytes(chunks + [last]) == ContentBytes(chunks) + ByteLen(last.content)
  {
    if chunks == [] {
      assert ([] + [last])[1..] == [];
    } else {
      ContentBytesAppend(chunks[1..], last);
      assert (chunks + [last])[1..] == chunks[1..] + [last];
    }
  }

  // ---- Appending ----

  predicate Fits(chunks: seq<Chunk>, room: nat, maxChunks: nat)
  {
    ContentBytes(chunks) <= room && |chunks| < maxChunks
  }

  /** The longest suffix that leaves room for one more chunk (nothing, when none does). */
  function Retain(chunks: seq<Chunk>, room: nat, maxChunks: nat): (kept: seq<Chunk>)
  {
    if chunks == [] || Fits(chunks, room, maxChunks) then chunks else Retain(chunks[1..], room, maxChunks)
  }

  lemma {:induction false} RetainIsSuffix(chunks: seq<Chunk>, room: nat, maxChunks: nat)
    ensures var kept := Retain(chunks, room, maxChunks);
            && |kept| <= |chunks| && kept == chunks[|chunks| - |kept|..]
            && ContentBytes(kept) <= room && (kept == [] || |kept| < maxChunks)
  {
    if chunks != [] && !Fits(chunks, room, maxChunks) {
      RetainIsSuffix(chunks[1..], room, maxChunks);
    }
  }

  /** One turn of the eviction loop. */
  lemma RetainStep(chunks: seq<Chunk>, room: nat, maxChunks: nat)
    ensures Fits(chunks, room, maxChunks) <==> ContentBytes(chunks) <= room && |chunks| < maxChunks
    ensures chunks == [] || Fits(chunks, room, maxChunks) ==> Retain(chunks, room, maxChunks) == chunks
    ensures chunks != [] ==> ContentBytes(chunks) == ByteLen(chunks[0].content) + ContentBytes(chunks[1..])
    ensures chunks != [] && !Fits(chunks, room, maxChunks) ==>
              Retain(chunks, room, maxChunks) == Retain(chunks[1..], room, maxChunks)
  {
  }

  /** Nothing is evicted that could have stayed. */
  lemma {:induction false} RetainIsLongest(chunks: seq<Chunk>, room: nat, maxChunks: nat, k: nat)
    requires k <= |chunks| && Fits(chunks[k..], room, maxChunks)
    ensures |Retain(chunks, room, maxChunks)| >= |chunks| - k
  {
    if k == 0 {
      assert chunks[0..] == chunks;
    } else if !Fits(chunks, room, maxChunks) {
      assert chunks[1..][k - 1..] == chunks[k..];
      RetainIsLongest(chunks[1..], room, maxChunks, k - 1);
    }
  }

  /** The chunk an append adds to the history, if it adds one. */
  function Added(next: nat, q: Quota, stream: Stream, content: string): (new_: seq<Chunk>)
  {
    var kept := Clip(content, q.maxBytes);
    if kept == "" then [] else [Chunk(next, stream, kept, kept != content)]
  }

  function Append(o: Output, q: Quota, stream: Stream, content: string): (o': Output)
  {
    var kept := Clip(content, q.maxBytes);
    if kept == "" then
      o.(terminalTruncated := o.terminalTruncated || content != "")
    else
      var retained := Retain(o.chunks, q.maxBytes - ByteLen(kept), q.maxChunks);
      Output(retained + Added(o.nextSequence, q, stream, content), ContentBytes(retained) + ByteLen(kept),
             o.nextSequence + 1, o.terminalTruncated)
  }

  /**
   What an append adds: nothing if not one character fits, else one chunk with the next sequence, the
   stream, and the longest prefix that fits - marked truncated exactly when that is not all.
   */
  lemma AddedChunk(next: nat, q: Quota, stream: Stream, content: string)
    ensures var added := Added(next, q, stream, content);
            if content == "" || CharLen(content[0]) > q.maxBytes then added == []
            else
              && |added| == 1 && added[0].sequence == next && added[0].stream == stream
              && var kept := added[0].content;
              && kept <= content && ByteLen(kept) <= q.maxBytes
              && (added[0].truncated <==> kept != content)
              && (kept != content ==> ByteLen(kept) + CharLen(content[|kept|]) > q.maxBytes)
  {
    hide ByteLen;
  }

  lemma AppendByParts(o: Output, q: Quota, stream: Stream, content: string)
    ensures var kept := Clip(content, q.maxBytes);
            && (kept == "" ==>
                  && Append(o, q, stream, content) == o.(terminalTruncated := o.terminalTruncated || content != "")
                  && Added(o.nextSequence, q, stream, content) == [])
            && (kept != "" ==>
                  var retained := Retain(o.chunks, q.maxBytes - ByteLen(kept), q.maxChunks);
                  var chunk := Chunk(o.nextSequence, stream, kept, kept != content);
                  && Added(o.nextSequence, q, stream, content) == [chunk]
                  && Append(o, q, stream, content)
                     == Output(retained + [chunk], ContentBytes(retained) + ByteLen(kept), o.nextSequence + 1,
                               o.terminalTruncated))
  {
    hide Clip, ContentBytes, Retain;
  }

  /** The retention queue as the runner keeps it, mutated in place. */
  class Buffer {
    var chunks: seq<Chunk>
    var bytes: nat
    var nextSequence: nat
    var terminalTruncated: bool

    ghost predicate Valid()
      reads this
    {
      bytes == ContentBytes(chunks)
    }

    ghost function Value(): Output
      reads this
    {
      Output(chunks, bytes, nextSequence, terminalTruncated)
    }

    constructor ()
      ensures Valid() && Value() == EMPTY
    {
      chunks, bytes, nextSequence, terminalTruncated := [], 0, 1, false;
    }

    method AppendOutput(stream: Stream, content: string, q: Quota)
      requires Valid()
      modifies this
      ensures Valid()
      ensures Value() == Append(old(Value()), q, stream, content)
    {
      hide Clip, ByteLen, ContentBytes, Retain, Fits, Append, Added;
      AppendByParts(Value(), q, stream, content);
      var kept, truncated := TruncateUtf8(content, q.maxBytes);
      if kept == "" {
        terminalTruncated := terminalTruncated || truncated;
        return;
      }
      ghost var room := q.maxBytes - ByteLen(kept);
      while bytes + ByteLen(kept) > q.maxBytes || |chunks| >= q.maxChunks
        invariant Valid()
        invariant Retain(chunks, room, q.maxChunks) == Retain(old(chunks), room, q.maxChunks)
        invariant nextSequence == old(nextSequence) && terminalTruncated == old(terminalTruncated)
        decreases |chunks|
      {
        RetainStep(chunks, room, q.maxChunks);
        if chunks == [] {
          break;
        }
        bytes := bytes - ByteLen(chunks[0].content);
        chunks := chunks[1..];
      }
      RetainStep(chunks, room, q.maxChunks);
      bytes := bytes + ByteLen(kept);
      ContentBytesAppend(chunks, Chunk(nextSequence, stream, kept, truncated));
      chunks := chunks + [Chunk(nextSequence, stream, kept, truncated)];
      nextSequence := nextSequence + 1;
    }
  }

  // ---- The retained queue against the complete history ----

  /** `o` is what is left of the full history `log` of chunks. */
  ghost predicate Tracks(o: Output, log: seq<Chunk>, q: Quota)
  {
    && o.nextSequence == |log| + 1
    && (forall i :: 0 <= i < |log| ==> log[i].sequence == i + 1 && log[i].content != "")
    && IsSuffix(o.chunks, log)
    && o.bytes == ContentBytes(o.chunks) <= q.maxBytes
    && |o.chunks| <= Max(1, q.maxChunks)
  }

  /** Appends keep the retained sequences contiguous up to the next one, and both quotas. */
  lemma AppendTracks(o: Output, log: seq<Chunk>, q: Quota, stream: Stream, content: string)
    requires Tracks(o, log, q)
    ensures Tracks(Append(o, q, stream, content), log + Added(o.nextSequence, q, stream, content), q)
  {
    hide Clip, ByteLen, ContentBytes, Retain, Append, Added, Fits, Tracks;
    AppendByParts(o, q, stream, content);
    var kept := Clip(content, q.maxBytes);
    if kept == "" {
      assert log + [] == log;
      FlagKeepsTracks(o, log, q, o.terminalTruncated || content != "");
    } else {
      var room := q.maxBytes - ByteLen(kept);
      RetainIsSuffix(o.chunks, room, q.maxChunks);
      var chunk := Chunk(o.nextSequence, stream, kept, kept != content);
      ChunkKeepsTracks(o, log, q, Retain(o.chunks, room, q.maxChunks), chunk);
    }
  }

  lemma FlagKeepsTracks(o: Output, log: seq<Chunk>, q: Quota, flag: bool)
    requires Tracks(o, log, q)
    ensures Tracks(o.(terminalTruncated := flag), log, q)
  {
  }

  lemma ChunkKeepsTracks(o: Output, log: seq<Chunk>, q: Quota, retained: seq<Chunk>, chunk: Chunk)
    requires Tracks(o, log, q) && chunk.sequence == o.nextSequence && chunk.content != ""
    requires IsSuffix(retained, o.chunks)
    requires ContentBytes(retained) + ByteLen(chunk.content) <= q.maxBytes && |retained| + 1 <= Max(1, q.maxChunks)
    ensures Tracks(Output(retained + [chunk], ContentBytes(retained) + ByteLen(chunk.content), o.nextSequence + 1,
                          o.terminalTruncated), log + [chunk], q)
  {
    hide ByteLen, ContentBytes, IsSuffix;
    ContentBytesAppend(retained, chunk);
    SuffixGrows(log, o.chunks, retained, chunk);
  }

  lemma SuffixGrows<T>(log: seq<T>, chunks: seq<T>, kept: seq<T>, last: T)
    requires IsSuffix(chunks, log) && IsSuffix(kept, chunks)
    ensures IsSuffix(kept + [last], log + [last])
  {
    forall i | 0 <= i < |kept|
      ensures kept[i] == log[|log| - |kept| + i]
    {
      assert kept[i] == chunks[|chunks| - |kept| + i];
    }
  }

  // ---- Polling ----

  datatype PollResult = PollResult(output: seq<Chunk>, earliest: nat, next: nat, truncated: bool)

  function After(chunks: seq<Chunk>, after: nat): (r: seq<Chunk>)
  {
    if chunks == [] then []
    else if chunks[0].sequence > after then [chunks[0]] + After(chunks[1..], after)
    else After(chunks[1..], after)
  }

  function SaturatingSucc(n: U64): U64 { if n + 1 < U64_SIZE then n + 1 else n }

  predicate AnyClipped(chunks: seq<Chunk>) { exists i :: 0 <= i < |chunks| && chunks[i].truncated }

  function Poll(o: Output, after: U64): (r: PollResult)
  {
    var earliest := if o.chunks == [] then o.nextSequence else o.chunks[0].sequence;
    var output := After(o.chunks, after);
    PollResult(output, earliest, o.nextSequence,
               o.terminalTruncated || SaturatingSucc(after) < earliest || AnyClipped(output))
  }

  lemma {:induction false} AfterIsSuffix(chunks: seq<Chunk>, first: nat, after: nat)
    requires forall i :: 0 <= i < |chunks| ==> chunks[i].sequence == first + i
    ensures var skipped := Max(after + 1 - first, 0);
            After(chunks, after) == chunks[if skipped <= |chunks| then skipped else |chunks|..]
  {
    if chunks != [] {
      AfterIsSuffix(chunks[1..], first + 1, after);
    }
  }

  /** A poll that does not report truncation returns exactly the history after its cursor, unclipped. */
  lemma PollIsExactOrSaysSo(o: Output, log: seq<Chunk>, q: Quota, after: U64)
    requires Tracks(o, log, q) && after <= |log|
    ensures Poll(o, after).next == |log| + 1
    ensures !Poll(o, after).truncated ==>
              && Poll(o, after).output == log[after..]
              && !AnyClipped(log[after..])
              && !o.terminalTruncated
  {
    hide Tracks, AnyClipped, After;
    PollShows(o, log, q, after);
    assert !Poll(o, after).truncated ==> FirstShown(o, log, after) == after;
  }

  /** The first chunk of the history that a poll from `after` can still return. */
  function FirstShown(o: Output, log: seq<Chunk>, after: nat): (n: nat)
    requires |o.chunks| <= |log|
    ensures n <= |log|
  {
    var evicted := |log| - |o.chunks|;
    if |log| < after then |log| else if after < evicted then evicted else after
  }

  /**
   Why a poll says truncated: the flag of the buffer is up, chunks after the cursor are evicted, or a
   chunk it would show was clipped.  When the flag goes up is a matter of the whole run.
   */
  lemma TruncatedMeans(o: Output, log: seq<Chunk>, q: Quota, after: U64)
    requires Tracks(o, log, q)
    ensures Poll(o, after).output == log[FirstShown(o, log, after)..]
    ensures Poll(o, after).truncated <==>
              || o.terminalTruncated
              || SaturatingSucc(after) <= |log| - |o.chunks|
              || AnyClipped(log[FirstShown(o, log, after)..])
  {
    hide AnyClipped, ContentBytes, After, FirstShown, Tracks;
    PollShows(o, log, q, after);
  }

  lemma PollShows(o: Output, log: seq<Chunk>, q: Quota, after: U64)
    requires Tracks(o, log, q)
    ensures |o.chunks| <= |log| && o.nextSequence == |log| + 1
    ensures After(o.chunks, after) == log[FirstShown(o, log, after)..]
    ensures (if o.chunks == [] then o.nextSequence else o.chunks[0].sequence) == |log| - |o.chunks| + 1
  {
    hide Tracks, After;
    RetainedSequences(o, log, q);
    var evicted := |log| - |o.chunks|;
    var skipped := Max(after - evicted, 0);
    var k := if skipped <= |o.chunks| then skipped else |o.chunks|;
    AfterIsSuffix(o.chunks, evicted + 1, after);
    SuffixOfSuffix(log, evicted, k);
  }

  lemma RetainedSequences(o: Output, log: seq<Chunk>, q: Quota)
    requires Tracks(o, log, q)
    ensures |o.chunks| <= |log| && o.nextSequence == |log| + 1 && o.chunks == log[|log| - |o.chunks|..]
    ensures forall i :: 0 <= i < |o.chunks| ==> o.chunks[i].sequence == |log| - |o.chunks| + 1 + i
  {
    hide ContentBytes;
  }

  lemma SuffixOfSuffix<T>(s: seq<T>, i: nat, k: nat)
    requires i + k <= |s|
    ensures s[i..][k..] == s[i + k..]
  {
  }

  // ---- A client that resumes from `next_sequence - 1` ----

  datatype Client = Client(received: seq<Chunk>, cursor: nat, flagged: bool)

  const NEW_CLIENT := Client([], 0, false)

  function ClientPoll(c: Client, o: Output): (c': Client)
    requires c.cursor < U64_SIZE && o.nextSequence >= 1
  {
    var r := Poll(o, c.cursor);
    Client(c.received + r.output, r.next - 1, c.flagged || r.truncated)
  }

  /** Until a poll reports truncation, the client holds a prefix of the history, unclipped. */
  ghost predicate Follows(c: Client, log: seq<Chunk>)
  {
    && c.cursor <= |log|
    && (!c.flagged ==> c.received == log[..c.cursor] && !AnyClipped(c.received))
  }

  lemma ClientPollFollows(c: Client, o: Output, log: seq<Chunk>, q: Quota)
    requires Tracks(o, log, q) && Follows(c, log) && c.cursor < U64_SIZE
    ensures Follows(ClientPoll(c, o), log)
    ensures ClientPoll(c, o).cursor == |log|
    ensures !ClientPoll(c, o).flagged ==> ClientPoll(c, o).received == log && !o.terminalTruncated
  {
    PollIsExactOrSaysSo(o, log, q, c.cursor);
    if !ClientPoll(c, o).flagged {
      assert log[..c.cursor] + log[c.cursor..] == log == log[..|log|];
    }
  }

  lemma GrowingLogKeepsFollowers(c: Client, log: seq<Chunk>, more: seq<Chunk>)
    requires Follows(c, log)
    ensures Follows(c, log + more)
  {
    assert (log + more)[..c.cursor] == log[..c.cursor];
  }

  // ---- The text behind the chunks ----

  datatype Piece = Piece(stream: Stream, text: string)

  /** Everything chunks say about one stream, in order. */
  function ChunkText(chunks: seq<Chunk>, stream: Stream): (text: string)
  {
    if chunks == [] then ""
    else
      var last := chunks[|chunks| - 1];
      ChunkText(chunks[..|chunks| - 1], stream) + (if last.stream == stream then last.content else "")
  }

  function PieceText(pieces: seq<Piece>, stream: Stream): (text: string)
  {
    if pieces == [] then ""
    else
      var last := pieces[|pieces| - 1];
      PieceText(pieces[..|pieces| - 1], stream) + (if last.stream == stream then last.text else "")
  }

  /** The history carries everything that was appended, unless it was clipped or dropped. */
  ghost predicate Carries(o: Output, log: seq<Chunk>, inputs: seq<Piece>)
  {
    !o.terminalTruncated && !AnyClipped(log) ==>
      forall stream :: ChunkText(log, stream) == PieceText(inputs, stream)
  }

  lemma AppendCarries(o: Output, log: seq<Chunk>, inputs: seq<Piece>, q: Quota, stream: Stream, content: string)
    requires Carries(o, log, inputs)
    ensures Carries(Append(o, q, stream, content), log + Added(o.nextSequence, q, stream, content),
                    inputs + [Piece(stream, content)])
  {
    var o' := Append(o, q, stream, content);
    var added := Added(o.nextSequence, q, stream, content);
    var log' := log + added;
    var inputs' := inputs + [Piece(stream, content)];
    if !o'.terminalTruncated && !AnyClipped(log') {
      assert forall i :: 0 <= i < |log| ==> log'[i] == log[i];
      assert inputs'[..|inputs|] == inputs;
      forall st
        ensures ChunkText(log', st) == PieceText(inputs', st)
      {
        if added == [] {
          assert log' == log;
        } else {
          assert log'[..|log|] == log;
          assert !log'[|log|].truncated;
        }
      }
    }
  }

  /** A piece of which not even the first character fits the quota. */
  predicate Dropped(piece: Piece, q: Quota) { piece.text != "" && Clip(piece.text, q.maxBytes) == "" }

  ghost predicate AnyDropped(pieces: seq<Piece>, q: Quota)
  {
    exists i :: 0 <= i < |pieces| && Dropped(pieces[i], q)
  }

  /** An append puts the flag up exactly when it drops its piece. */
  lemma AppendFlags(o: Output, q: Quota, stream: Stream, content: string)
    ensures Append(o, q, stream, content).terminalTruncated <==>
              o.terminalTruncated || Dropped(Piece(stream, content), q)
  {
    hide Clip, Retain, ContentBytes;
  }

  lemma AnyDroppedAppend(pieces: seq<Piece>, last: Piece, q: Quota)
    ensures AnyDropped(pieces + [last], q) <==> AnyDropped(pieces, q) || Dropped(last, q)
  {
    hide Dropped;
    assert (pieces + [last])[|pieces|] == last;
    if AnyDropped(pieces, q) {
      var i :| 0 <= i < |pieces| && Dropped(pieces[i], q);
      assert Dropped((pieces + [last])[i], q);
    }
  }

  lemma EmptyTracks(q: Quota)
    ensures Tracks(EMPTY, [], q) && Carries(EMPTY, [], []) && Follows(NEW_CLIENT, [])
  {
  }
}
