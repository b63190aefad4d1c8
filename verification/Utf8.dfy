/**
 UTF-8 as section 3 of RFC 3629 defines it (Encode), the validator that the runner relies on
 (ScanAt, FromUtf8) and the lossy reference decoder (Lossy).

 A Dafny `char` is exactly a Unicode scalar value, so a Rust `String` is a Dafny `string` whose
 length in bytes is ByteLen.
 */
module Utf8 {
  import opened Prelude

  type Byte = b: int | 0 <= b < 256

  const REPLACEMENT: char := '\U{FFFD}'

  /** Section 3 of RFC 3629: the bits of the scalar value distributed over one to four octets. */
  function Encode(c: char): (bytes: seq<Byte>)
    ensures 1 <= |bytes| <= 4
  {
    var v := c as int;
    if v < 0x80 then [v]
    else if v < 0x800 then [0xC0 + v / 64, 0x80 + v % 64]
    else if v < 0x1_0000 then [0xE0 + v / 4096, 0x80 + v / 64 % 64, 0x80 + v % 64]
    else [0xF0 + v / 262144, 0x80 + v / 4096 % 64, 0x80 + v / 64 % 64, 0x80 + v % 64]
  }

  function EncodeAll(text: string): (bytes: seq<Byte>)
  {
    if text == "" then [] else Encode(text[0]) + EncodeAll(text[1..])
  }

  /** The verdict on the first sequence of a byte string. */
  datatype Scan = End | Scalar(c: char, width: nat) | Malformed(width: nat) | Incomplete

  predicate IsTail(b: Byte) { 0x80 <= b <= 0xBF }

  predicate IsLead(b: Byte) { 0xC2 <= b <= 0xF4 }

  /** How many octets the lead octet announces. */
  function Width(lead: Byte): nat { if lead < 0xE0 then 2 else if lead < 0xF0 then 3 else 4 }

  /** The second octet's range depends on the lead octet (section 4 of RFC 3629). */
  predicate SecondFits(lead: Byte, second: Byte)
  {
    && IsTail(second)
    && (lead == 0xE0 ==> 0xA0 <= second)
    && (lead == 0xED ==> second <= 0x9F)
    && (lead == 0xF0 ==> 0x90 <= second)
    && (lead == 0xF4 ==> second <= 0x8F)
  }

  /** The six payload bits of octet `i` when `offset` is its marker. */
  function Bits(b: seq<Byte>, i: nat, offset: int): int
    requires i < |b|
  {
    b[i] as int - offset
  }

  function Value2(b: seq<Byte>): int
    requires |b| >= 2
  {
    Bits(b, 0, 0xC0) * 64 + Bits(b, 1, 0x80)
  }

  function Value3(b: seq<Byte>): int
    requires |b| >= 3
  {
    Bits(b, 0, 0xE0) * 4096 + Bits(b, 1, 0x80) * 64 + Bits(b, 2, 0x80)
  }

  function Value4(b: seq<Byte>): int
    requires |b| >= 4
  {
    Bits(b, 0, 0xF0) * 262144 + Bits(b, 1, 0x80) * 4096 + Bits(b, 2, 0x80) * 64 + Bits(b, 3, 0x80)
  }

  /** One step of the validator: what starts at the head of `b`. */
  function ScanAt(b: seq<Byte>): (s: Scan)
    ensures s.End? <==> b == []
    ensures s.Scalar? ==> 1 <= s.width <= 4 && s.width <= |b|
    ensures s.Malformed? ==> 1 <= s.width <= 3 && s.width <= |b|
    ensures s.Incomplete? ==> 1 <= |b| <= 3
  {
    if b == [] then End
    else if b[0] < 0x80 then Scalar(b[0] as char, 1)
    else if !IsLead(b[0]) then Malformed(1)
    else if |b| < 2 then Incomplete
    else if !SecondFits(b[0], b[1]) then Malformed(1)
    else if Width(b[0]) == 2 then Scalar(Value2(b) as char, 2)
    else if |b| < 3 then Incomplete
    else if !IsTail(b[2]) then Malformed(2)
    else if Width(b[0]) == 3 then Scalar(Value3(b) as char, 3)
    else if |b| < 4 then Incomplete
    else if !IsTail(b[3]) then Malformed(3)
    else Scalar(Value4(b) as char, 4)
  }

  /** The validator recognises exactly the encodings of RFC 3629, and recovers the scalar. */
  lemma ScanFindsEncodings(b: seq<Byte>, c: char)
    ensures Encode(c) <= b <==> ScanAt(b) == Scalar(c, |Encode(c)|)
  {
    if Encode(c) <= b {
      ScanOfEncoding(b, c);
    }
    if ScanAt(b).Scalar? && ScanAt(b).c == c {
      EncodingOfScan(b);
    }
  }

  lemma ScanOfEncoding(b: seq<Byte>, c: char)
    requires Encode(c) <= b
    ensures ScanAt(b) == Scalar(c, |Encode(c)|)
  {
    var e := Encode(c);
    assert forall i :: 0 <= i < |e| ==> b[i] == e[i];
    BitsOfScalar(c as int);
  }

  /** Splitting a scalar value into groups of six bits loses nothing. */
  lemma BitsOfScalar(v: nat)
    ensures v == v / 64 * 64 + v % 64
    ensures v / 64 == v / 4096 * 64 + v / 64 % 64
    ensures v / 4096 == v / 262144 * 64 + v / 4096 % 64
  {
  }

  lemma EncodingOfScan(b: seq<Byte>)
    requires ScanAt(b).Scalar?
    ensures Encode(ScanAt(b).c) == b[..ScanAt(b).width]
  {
    var v := ScanAt(b).c as int;
    match ScanAt(b).width
    case 1 =>
    case 2 => ScalarOfBits(0, 0, Bits(b, 0, 0xC0), Bits(b, 1, 0x80));
    case 3 =>
      ScalarOfBits(0, Bits(b, 0, 0xE0), Bits(b, 1, 0x80), Bits(b, 2, 0x80));
      assert 0x800 <= v < 0x1_0000;
    case 4 =>
      ScalarOfBits(Bits(b, 0, 0xF0), Bits(b, 1, 0x80), Bits(b, 2, 0x80), Bits(b, 3, 0x80));
      assert 0x1_0000 <= v;
  }

  lemma ScalarOfBits(w: nat, x: nat, y: nat, z: nat)
    requires x < 64 && y < 64 && z < 64
    ensures var v := w * 262144 + x * 4096 + y * 64 + z;
            && v % 64 == z
            && v / 64 == w * 4096 + x * 64 + y && v / 64 % 64 == y
            && v / 4096 == w * 64 + x && v / 4096 % 64 == x
            && v / 262144 == w
  {
  }

  /** `p` can still grow into the encoding of some scalar. */
  ghost predicate StartsScalar(p: seq<Byte>) { exists c: char :: p <= Encode(c) }

  lemma PaddedPrefixStarts(p: seq<Byte>)
    requires 1 <= |p| <= 3 && IsLead(p[0]) && |p| < Width(p[0])
    requires |p| >= 2 ==> SecondFits(p[0], p[1])
    requires |p| == 3 ==> IsTail(p[2])
    ensures exists c: char :: p < Encode(c)
  {
    var second: Byte := if p[0] == 0xE0 then 0xA0 else if p[0] == 0xF0 then 0x90 else 0x80;
    var padded := (if |p| == 1 then p + [second] else p) + [0x80, 0x80];
    assert ScanAt(padded).Scalar? && ScanAt(padded).width == Width(p[0]);
    EncodingOfScan(padded);
    assert p < Encode(ScanAt(padded).c);
  }

  /**
   What the validator gives up on is one maximal subpart: a single octet or the start of a
   well-formed sequence, and no longer prefix of the input can start one.  What it keeps for later is
   a proper prefix of some well-formed sequence.
   */
  lemma RejectsMaximalSubpart(b: seq<Byte>)
    ensures ScanAt(b).Malformed? ==>
              var n := ScanAt(b).width;
              && (n == 1 || StartsScalar(b[..n]))
              && (n < |b| ==> !StartsScalar(b[..n + 1]))
              && !StartsScalar(b)
    ensures ScanAt(b).Incomplete? ==> exists c: char :: b < Encode(c)
  {
    match ScanAt(b)
    case Malformed(n) =>
      if n > 1 {
        PaddedPrefixStarts(b[..n]);
      }
      forall c: char | (n < |b| && b[..n + 1] <= Encode(c)) || b <= Encode(c)
        ensures false
      {
        ScanOfEncoding(Encode(c), c);
      }
    case Incomplete => PaddedPrefixStarts(b);
    case _ =>
  }

  /** The next decoded scalar and how many bytes it uses up, unless more input must decide. */
  function Next(b: seq<Byte>): (r: Option<(char, nat)>)
    ensures r.Some? ==> 1 <= r.value.1 <= 4 && r.value.1 <= |b|
    ensures r.None? ==> b == [] || ScanAt(b).Incomplete?
  {
    match ScanAt(b)
    case Scalar(c, n) => Some((c, n))
    case Malformed(n) => Some((REPLACEMENT, n))
    case _ => None
  }

  /** A settled verdict does not change when more bytes arrive. */
  lemma NextExtends(b: seq<Byte>, more: seq<Byte>)
    requires Next(b).Some?
    ensures Next(b + more) == Next(b)
  {
  }

  function Flush(pending: seq<Byte>): string { if pending == [] then "" else [REPLACEMENT] }

  /** Lossy decoding of a whole byte string: one replacement per maximal invalid subpart. */
  function Lossy(b: seq<Byte>): (text: string)
    decreases |b|
  {
    match Next(b)
    case None => Flush(b)
    case Some((c, n)) => [c] + Lossy(b[n..])
  }

  /** The part of the lossy text that no further input can change ... */
  function Settled(b: seq<Byte>): (text: string)
    decreases |b|
  {
    match Next(b)
    case None => ""
    case Some((c, n)) => [c] + Settled(b[n..])
  }

  /** ... and the bytes that must wait for it. */
  function Unsettled(b: seq<Byte>): (rest: seq<Byte>)
    ensures |rest| <= 3 && |rest| <= |b|
    ensures rest != [] ==> ScanAt(rest).Incomplete?
    decreases |b|
  {
    match Next(b)
    case None => b
    case Some((_, n)) => Unsettled(b[n..])
  }

  lemma {:induction false} LossySplits(b: seq<Byte>)
    ensures Lossy(b) == Settled(b) + Flush(Unsettled(b))
    decreases |b|
  {
    match Next(b)
    case None =>
    case Some((_, n)) => LossySplits(b[n..]);
  }

  /** Decoding may stop anywhere and resume with what was left over. */
  lemma {:induction false} DecodingResumes(b: seq<Byte>, more: seq<Byte>)
    ensures Settled(b + more) == Settled(b) + Settled(Unsettled(b) + more)
    ensures Unsettled(b + more) == Unsettled(Unsettled(b) + more)
    decreases |b|
  {
    hide *;
    match Next(b)
    case None => NothingSettled(b);
    case Some((c, n)) =>
      NextExtends(b, more);
      DecodingResumes(b[n..], more);
      assert (b + more)[n..] == b[n..] + more;
      SettledStep(b, c, n);
      SettledStep(b + more, c, n);
      assert [c] + (Settled(b[n..]) + Settled(Unsettled(b) + more)) == Settled(b) + Settled(Unsettled(b) + more);
  }

  lemma NothingSettled(b: seq<Byte>)
    requires Next(b).None?
    ensures Settled(b) == "" && Unsettled(b) == b
  {
  }

  lemma SettledStep(b: seq<Byte>, c: char, n: nat)
    requires Next(b) == Some((c, n))
    ensures Settled(b) == [c] + Settled(b[n..])
    ensures Unsettled(b) == Unsettled(b[n..])
  {
  }

  /** Well-formed text survives lossy decoding unchanged. */
  lemma {:induction false} LossyKeepsText(text: string)
    ensures Lossy(EncodeAll(text)) == text
  {
    if text != "" {
      var head := Encode(text[0]);
      ScanOfEncoding(EncodeAll(text), text[0]);
      assert EncodeAll(text)[|head|..] == EncodeAll(text[1..]);
      LossyKeepsText(text[1..]);
    }
  }

  /** `std::str::from_utf8`: all of it, or how much is valid and what stopped it. */
  datatype Check =
    | Valid(text: string)
    | Failed(text: string, validUpTo: nat, errorLen: Option<nat>)

  function FromUtf8(b: seq<Byte>): (r: Check)
    ensures r.Failed? ==> r.validUpTo <= |b|
    ensures r.Failed? && r.errorLen.Some? ==> 1 <= r.errorLen.value <= |b| - r.validUpTo
    decreases |b|
  {
    match ScanAt(b)
    case End => Valid("")
    case Malformed(n) => Failed("", 0, Some(n))
    case Incomplete => Failed("", 0, None)
    case Scalar(c, n) =>
      match FromUtf8(b[n..])
      case Valid(text) => Valid([c] + text)
      case Failed(text, upTo, len) => Failed([c] + text, n + upTo, len)
  }

  /** What one call of the validator tells about the settled text. */
  lemma {:induction false} FromUtf8Settles(b: seq<Byte>)
    ensures match FromUtf8(b)
            case Valid(text) => Settled(b) == text && Unsettled(b) == []
            case Failed(text, upTo, None) => Settled(b) == text && Unsettled(b) == b[upTo..]
            case Failed(text, upTo, Some(n)) =>
              && Settled(b) == text + [REPLACEMENT] + Settled(b[upTo + n..])
              && Unsettled(b) == Unsettled(b[upTo + n..])
    decreases |b|
  {
    hide *;
    FromUtf8Step(b);
    match ScanAt(b)
    case Scalar(c, n) =>
      FromUtf8Settles(b[n..]);
      SettledStep(b, c, n);
      match FromUtf8(b[n..]) {
        case Valid(_) =>
        case Failed(text, upTo, None) => assert b[n..][upTo..] == b[n + upTo..];
        case Failed(text, upTo, Some(m)) =>
          var rest := b[n + upTo + m..];
          assert b[n..][upTo + m..] == rest;
          assert [c] + (text + [REPLACEMENT] + Settled(rest)) == [c] + text + [REPLACEMENT] + Settled(rest);
      }
    case Malformed(n) => SettledStep(b, REPLACEMENT, n);
    case _ => NothingSettled(b);
  }

  lemma FromUtf8Step(b: seq<Byte>)
    ensures ScanAt(b).End? ==> Next(b) == None && FromUtf8(b) == Valid("")
    ensures ScanAt(b).Incomplete? ==> Next(b) == None && FromUtf8(b) == Failed("", 0, None)
    ensures ScanAt(b).Malformed? ==>
              var n := ScanAt(b).width;
              Next(b) == Some((REPLACEMENT, n)) && FromUtf8(b) == Failed("", 0, Some(n))
    ensures ScanAt(b).Scalar? ==>
              var c, n := ScanAt(b).c, ScanAt(b).width;
              var rest := FromUtf8(b[n..]);
              && Next(b) == Some((c, n))
              && FromUtf8(b) == if rest.Valid? then Valid([c] + rest.text)
                                else Failed([c] + rest.text, n + rest.validUpTo, rest.errorLen)
  {
  }

  // ---- Byte lengths and clipping ----

  function CharLen(c: char): (n: nat)
    ensures 1 <= n <= 4
  {
    var v := c as int;
    if v < 0x80 then 1 else if v < 0x800 then 2 else if v < 0x1_0000 then 3 else 4
  }

  /** `String::len`: the length in bytes. */
  function ByteLen(text: string): (n: nat)
    ensures |text| <= n <= 4 * |text|
  {
    if text == "" then 0 else CharLen(text[0]) + ByteLen(text[1..])
  }

  lemma {:induction false} ByteLenIsEncodedLength(text: string)
    ensures ByteLen(text) == |EncodeAll(text)|
  {
    if text != "" {
      ByteLenIsEncodedLength(text[1..]);
    }
  }

  lemma {:induction false} AsciiBytes(text: string)
    requires forall i :: 0 <= i < |text| ==> text[i] as int < 0x80
    ensures ByteLen(text) == |text|
  {
    if text != "" {
      AsciiBytes(text[1..]);
    }
  }

  lemma {:induction false} ByteLenConcat(a: string, b: string)
    ensures ByteLen(a + b) == ByteLen(a) + ByteLen(b)
  {
    if a == "" {
      assert a + b == b;
    } else {
      assert (a + b)[1..] == a[1..] + b;
      ByteLenConcat(a[1..], b);
    }
  }

  /** The longest prefix of `text` that fits in `limit` bytes. */
  function Clip(text: string, limit: nat): (r: string)
    ensures r <= text && ByteLen(r) <= limit
    ensures r == text || ByteLen(r) + CharLen(text[|r|]) > limit
    ensures r == text <==> ByteLen(text) <= limit
  {
    if text == "" || CharLen(text[0]) > limit then ""
    else [text[0]] + Clip(text[1..], limit - CharLen(text[0]))
  }

  /** `str::is_char_boundary`. */
  predicate IsCharBoundary(text: string, at: nat)
  {
    at == 0 || (text != "" && at >= CharLen(text[0]) && IsCharBoundary(text[1..], at - CharLen(text[0])))
  }

  /** `String::truncate` at a char boundary. */
  function TruncateAt(text: string, at: nat): (r: string)
    requires IsCharBoundary(text, at)
  {
    if at == 0 then "" else [text[0]] + TruncateAt(text[1..], at - CharLen(text[0]))
  }

  /** The last boundary at or below `limit` is where Clip cuts. */
  lemma {:induction false} ClipIsLastBoundary(text: string, limit: nat, at: nat)
    requires at <= limit && IsCharBoundary(text, at)
    requires forall k: nat :: at < k <= limit ==> !IsCharBoundary(text, k)
    ensures TruncateAt(text, at) == Clip(text, limit)
  {
    hide ByteLen;
    if text != "" && CharLen(text[0]) <= limit {
      var n := CharLen(text[0]);
      assert IsCharBoundary(text[1..], 0);
      assert IsCharBoundary(text, n);
      forall k: nat | at - n < k <= limit - n
        ensures !IsCharBoundary(text[1..], k)
      {
        assert !IsCharBoundary(text, k + n);
      }
      ClipIsLastBoundary(text[1..], limit - n, at - n);
    }
  }

  /** The clipping loop of the runner: step back from the limit to a boundary. */
  method TruncateUtf8(content: string, maxBytes: nat) returns (kept: string, truncated: bool)
    ensures kept == Clip(content, maxBytes)
    ensures truncated <==> maxBytes < ByteLen(content)
  {
    if ByteLen(content) <= maxBytes {
      return content, false;
    }
    var boundary: nat := maxBytes;
    while boundary > 0 && !IsCharBoundary(content, boundary)
      invariant boundary <= maxBytes
      invariant forall k: nat :: boundary < k <= maxBytes ==> !IsCharBoundary(content, k)
    {
      boundary := boundary - 1;
    }
    ClipIsLastBoundary(content, maxBytes, boundary);
    kept, truncated := TruncateAt(content, boundary), true;
  }
}
