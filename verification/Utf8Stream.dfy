/** Streaming UTF-8 decoding across arbitrary read boundaries (crates/kodo/src/process.rs). */
module Utf8Stream {
  import opened Prelude
  import opened Utf8

  /** A stream decoder keeps at most three bytes between reads. */
  class StreamDecoder {
    var pending: seq<Byte>

    constructor ()
      ensures pending == []
    {
      pending := [];
    }

    /** One read: everything settled comes out, the rest waits; the end of the stream flushes it. */
    method Decode(bytes: seq<Byte>, endOfStream: bool) returns (decoded: string)
      modifies this
      ensures !endOfStream ==> decoded == Settled(old(pending) + bytes)
      ensures !endOfStream ==> pending == Unsettled(old(pending) + bytes) && |pending| <= 3
      ensures endOfStream ==> decoded == Lossy(old(pending) + bytes) && pending == []
    {
      hide *;
      ghost var input := pending + bytes;
      pending := pending + bytes;
      decoded := "";
      while true
        invariant decoded + Settled(pending) == Settled(input)
        invariant Unsettled(pending) == Unsettled(input)
        decreases |pending|
      {
        FromUtf8Settles(pending);
        match FromUtf8(pending) {
          case Valid(text) =>
            decoded := decoded + text;
            pending := [];
            break;
          case Failed(text, valid, None) =>
            decoded := decoded + text;
            pending := pending[valid..];
            break;
          case Failed(text, valid, Some(invalid)) =>
            var rest := pending[valid + invalid..];
            assert decoded + (text + [REPLACEMENT] + Settled(rest)) == decoded + text + [REPLACEMENT] + Settled(rest);
            decoded := decoded + text + [REPLACEMENT];
            pending := rest;
        }
      }
      LossySplits(input);
      LossyOfUnsettled(input);
      if endOfStream && pending != [] {
        decoded := decoded + Lossy(pending);
        pending := [];
      }
    }
  }

  lemma LossyOfUnsettled(b: seq<Byte>)
    ensures Lossy(Unsettled(b)) == Flush(Unsettled(b))
    ensures Unsettled(b) == [] ==> Flush(Unsettled(b)) == ""
    ensures Settled([]) == "" && Unsettled([]) == []
  {
  }

  /** The texts a reader task hands on, one per read and one for the end of the stream. */
  function Outputs(pending: seq<Byte>, blocks: seq<seq<Byte>>): (texts: seq<string>)
    decreases |blocks|
  {
    if blocks == [] then [Lossy(pending)]
    else
      var input := pending + blocks[0];
      [Settled(input)] + Outputs(Unsettled(input), blocks[1..])
  }

  /** Stopping after `b` and finishing later is finishing `b + more` at once. */
  lemma LossyResumes(b: seq<Byte>, more: seq<Byte>)
    ensures Settled(b) + Lossy(Unsettled(b) + more) == Lossy(b + more)
  {
    hide *;
    LossySplits(b + more);
    LossySplits(Unsettled(b) + more);
    DecodingResumes(b, more);
  }

  /** However the stream is cut into reads, the text is the lossy decoding of the whole. */
  lemma {:induction false} ChunkingIsIrrelevant(pending: seq<Byte>, blocks: seq<seq<Byte>>)
    ensures Flatten(Outputs(pending, blocks)) == Lossy(pending + Flatten(blocks))
    decreases |blocks|
  {
    hide *;
    OutputsStep(pending, blocks);
    if blocks == [] {
      assert pending + [] == pending;
    } else {
      var input, rest := pending + blocks[0], blocks[1..];
      ChunkingIsIrrelevant(Unsettled(input), rest);
      LossyResumes(input, Flatten(rest));
      assert pending + Flatten(blocks) == input + Flatten(rest);
    }
  }

  lemma OutputsStep(pending: seq<Byte>, blocks: seq<seq<Byte>>)
    ensures blocks == [] ==> Flatten(Outputs(pending, blocks)) == Lossy(pending) && Flatten(blocks) == []
    ensures blocks != [] ==>
              var input := pending + blocks[0];
              && Flatten(Outputs(pending, blocks)) == Settled(input) + Flatten(Outputs(Unsettled(input), blocks[1..]))
              && Flatten(blocks) == blocks[0] + Flatten(blocks[1..])
  {
    hide Settled, Unsettled, Lossy;
    if blocks == [] {
      assert Flatten([Lossy(pending)]) == Lossy(pending) + Flatten([]);
    } else {
      var input := pending + blocks[0];
      assert Outputs(pending, blocks)[1..] == Outputs(Unsettled(input), blocks[1..]);
    }
  }

  /** Well-formed output arrives verbatim, wherever the pipe happened to cut it. */
  lemma TextArrivesVerbatim(text: string, blocks: seq<seq<Byte>>)
    requires Flatten(blocks) == EncodeAll(text)
    ensures Flatten(Outputs([], blocks)) == text
  {
    ChunkingIsIrrelevant([], blocks);
    assert [] + EncodeAll(text) == EncodeAll(text);
    LossyKeepsText(text);
  }

  /** The decoding side of a reader task, driven over a complete stream. */
  method DecodeReads(blocks: seq<seq<Byte>>) returns (texts: seq<string>)
    ensures texts == Outputs([], blocks)
    ensures Flatten(texts) == Lossy(Flatten(blocks))
  {
    var decoder := new StreamDecoder();
    texts := [];
    var i := 0;
    while i < |blocks|
      invariant 0 <= i <= |blocks|
      invariant texts + Outputs(decoder.pending, blocks[i..]) == Outputs([], blocks)
    {
      ghost var before := decoder.pending;
      var text := decoder.Decode(blocks[i], false);
      assert blocks[i..][1..] == blocks[i + 1..];
      assert Outputs(before, blocks[i..]) == [text] + Outputs(decoder.pending, blocks[i + 1..]);
      texts := texts + [text];
      i := i + 1;
    }
    assert decoder.pending + [] == decoder.pending;
    var last := decoder.Decode([], true);
    texts := texts + [last];
    ChunkingIsIrrelevant([], blocks);
    assert [] + Flatten(blocks) == Flatten(blocks);
  }
}
