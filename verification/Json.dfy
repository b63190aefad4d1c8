/**
 The responses a runner sends, their JSON encoding as section 7 of RFC 8259 and the tagged wire
 format prescribe it, and how long it can get (crates/kodo/src/protocol.rs).
 */
module Json {
  import opened Prelude
  import opened Utf8
  import opened OutputBuffer
  import opened ProcessLifecycle

  datatype SearchMatch = SearchMatch(path: string, line: U64, content: string)

  datatype ToolResult =
    | Files(paths: seq<string>, truncated: bool)
    | Matches(matches: seq<SearchMatch>, truncated: bool)
    | File(content: string, offset: U64, nextOffset: Option<U64>, truncated: bool)
    | GitOutput(content: string, truncated: bool)
    | FilesChanged(paths: seq<string>)
    | CommandStarted(process: Uuid)
    | CommandPoll(process: Uuid, status: Status, output: seq<Chunk>, earliest: U64, next: U64, truncated: bool)

  datatype Response = Success(id: Uuid, result: ToolResult) | Failure(requestId: Option<Uuid>, error: string)

  // ---- Text ----

  function HexDigit(n: nat): char
    requires n < 16
  {
    "0123456789abcdef"[n]
  }

  /** Quotation mark, reverse solidus and control characters must be escaped. */
  function EscapeChar(c: char): (r: string)
  {
    var v := c as int;
    if c == '\"' then "\\\""
    else if c == '\\' then "\\\\"
    else if v == 8 then "\\b"
    else if v == 9 then "\\t"
    else if v == 10 then "\\n"
    else if v == 12 then "\\f"
    else if v == 13 then "\\r"
    else if v < 32 then ['\\', 'u', '0', '0', HexDigit(v / 16), HexDigit(v % 16)]
    else [c]
  }

  lemma EscapeCharBytes(c: char)
    ensures ByteLen(EscapeChar(c)) <= 6 * CharLen(c)
  {
    if EscapeChar(c) != [c] {
      AsciiBytes(EscapeChar(c));
    }
  }

  function Escape(s: string): (r: string) { if s == "" then "" else EscapeChar(s[0]) + Escape(s[1..]) }

  function Quote(s: string): string { "\"" + Escape(s) + "\"" }

  lemma {:induction false} EscapeExpandsSixfold(s: string)
    ensures ByteLen(Escape(s)) <= 6 * ByteLen(s)
  {
    if s != "" {
      ByteLenConcat(EscapeChar(s[0]), Escape(s[1..]));
      EscapeCharBytes(s[0]);
      EscapeExpandsSixfold(s[1..]);
    }
  }

  // ---- Numbers, identifiers, lists ----

  function Decimal(n: nat): (r: string)
  {
    if n < 10 then ["0123456789"[n]] else Decimal(n / 10) + ["0123456789"[n % 10]]
  }

  function Pow10(k: nat): nat { if k == 0 then 1 else 10 * Pow10(k - 1) }

  lemma {:induction false} DecimalLength(n: nat, k: nat)
    requires k >= 1 && n < Pow10(k)
    ensures |Decimal(n)| <= k
  {
    if n >= 10 {
      DecimalLength(n / 10, k - 1);
    }
  }

  lemma U64Digits(n: U64)
    ensures |Decimal(n)| <= 20
  {
    assert Pow10(4) == 10_000;
    assert Pow10(8) == 10_000 * Pow10(4);
    assert Pow10(12) == 10_000 * Pow10(8);
    assert Pow10(16) == 10_000 * Pow10(12);
    assert Pow10(20) == 10_000 * Pow10(16);
    DecimalLength(n, 20);
  }

  function Integer(n: int): string { if n < 0 then "-" + Decimal(-n) else Decimal(n) }

  function Hex(n: nat, width: nat): (r: string)
    ensures |r| == width
  {
    if width == 0 then "" else Hex(n / 16, width - 1) + [HexDigit(n % 16)]
  }

  /** The hyphenated form of an identifier: 8-4-4-4-12 digits. */
  function UuidText(u: Uuid): (r: string)
    ensures |r| == 36
  {
    var h := Hex(u, 32);
    h[..8] + "-" + h[8..12] + "-" + h[12..16] + "-" + h[16..20] + "-" + h[20..]
  }

  function Bool(b: bool): string { if b then "true" else "false" }

  function Join(items: seq<string>): string
  {
    if items == [] then "" else if |items| == 1 then items[0] else items[0] + "," + Join(items[1..])
  }

  function List(items: seq<string>): string { "[" + Join(items) + "]" }

  function SumBytes(items: seq<string>): (n: nat)
  {
    if items == [] then 0 else ByteLen(items[0]) + SumBytes(items[1..])
  }

  lemma {:induction false} JoinBytes(items: seq<string>)
    ensures ByteLen(Join(items)) <= SumBytes(items) + 4 * |items|
  {
    if |items| > 1 {
      JoinBytes(items[1..]);
      ByteLenConcat(items[0] + ",", Join(items[1..]));
      ByteLenConcat(items[0], ",");
    }
  }

  // ---- The tagged wire format ----

  function StatusJson(s: Status): string
  {
    match s
    case Running => "\"running\""
    case TimedOut => "\"timed_out\""
    case Stopped => "\"stopped\""
    case Exited(code) => "{\"exited\":{\"code\":" + (if code.None? then "null" else Integer(code.value)) + "}}"
  }

  function PathItems(paths: seq<string>): seq<string>
  {
    if paths == [] then [] else [Quote(paths[0])] + PathItems(paths[1..])
  }

  function MatchItem(m: SearchMatch): string
  {
    "{\"path\":" + Quote(m.path) + ",\"line\":" + Decimal(m.line) + (",\"content\":" + Quote(m.content) + "}")
  }

  function MatchItems(matches: seq<SearchMatch>): seq<string>
  {
    if matches == [] then [] else [MatchItem(matches[0])] + MatchItems(matches[1..])
  }

  function ChunkItem(c: Chunk): string
  {
    "{\"sequence\":" + Decimal(c.sequence)
    + (if c.stream == Stdout then ",\"stream\":\"stdout\",\"content\":" else ",\"stream\":\"stderr\",\"content\":")
    + Quote(c.content)
    + (",\"truncated\":" + Bool(c.truncated) + "}")
  }

  function ChunkItems(chunks: seq<Chunk>): seq<string>
  {
    if chunks == [] then [] else [ChunkItem(chunks[0])] + ChunkItems(chunks[1..])
  }

  function Truncation(b: bool): string { ",\"truncated\":" + Bool(b) + "}" }

  function PollHead(process: Uuid, status: Status): string
  {
    "{\"result\":\"command_poll\",\"process_id\":" + Quote(UuidText(process)) + ",\"status\":" + StatusJson(status)
  }

  function PollCursor(earliest: U64, next: U64, truncated: bool): string
  {
    ",\"earliest_sequence\":" + Decimal(earliest) + (",\"next_sequence\":" + Decimal(next)) + Truncation(truncated)
  }

  function FilesJson(paths: seq<string>, t: bool): string
  {
    "{\"result\":\"files\",\"paths\":" + List(PathItems(paths)) + Truncation(t)
  }

  function MatchesJson(matches: seq<SearchMatch>, t: bool): string
  {
    "{\"result\":\"matches\",\"matches\":" + List(MatchItems(matches)) + Truncation(t)
  }

  function OffsetsJson(offset: U64, next: Option<U64>): string
  {
    ",\"offset\":" + Decimal(offset) + (",\"next_offset\":" + (if next.None? then "null" else Decimal(next.value)))
  }

  function FileJson(content: string, offset: U64, next: Option<U64>, t: bool): string
  {
    "{\"result\":\"file\",\"content\":" + Quote(content) + (OffsetsJson(offset, next) + Truncation(t))
  }

  function OutputJson(content: string, t: bool): string
  {
    "{\"result\":\"output\",\"content\":" + Quote(content) + Truncation(t)
  }

  function ChangedJson(paths: seq<string>): string
  {
    CHANGED_TAG + List(PathItems(paths)) + "}"
  }

  function StartedJson(process: Uuid): string
  {
    "{\"result\":\"command_started\",\"process_id\":" + Quote(UuidText(process)) + "}"
  }

  function ChunksJson(output: seq<Chunk>): string { ",\"output\":" + List(ChunkItems(output)) }

  function ResultJson(r: ToolResult): string
  {
    match r
    case Files(paths, t) => FilesJson(paths, t)
    case Matches(matches, t) => MatchesJson(matches, t)
    case File(content, offset, next, t) => FileJson(content, offset, next, t)
    case GitOutput(content, t) => OutputJson(content, t)
    case FilesChanged(paths) => ChangedJson(paths)
    case CommandStarted(process) => StartedJson(process)
    case CommandPoll(process, status, output, earliest, next, t) =>
      PollHead(process, status) + ChunksJson(output) + PollCursor(earliest, next, t)
  }

  const SUCCESS_TAG: string := "{\"status\":\"success\","
  const VERSION_TAG: string := "\"protocol_version\":5,\"request_id\":"
  const RESPONSE_TAG: string := ",\"response\":"
  const CHANGED_TAG: string := "{\"result\":\"files_changed\",\"paths\":"

  function SuccessHead(id: Uuid): string
  {
    SUCCESS_TAG + VERSION_TAG + Quote(UuidText(id)) + RESPONSE_TAG
  }

  function FailureHead(id: Option<Uuid>): string
  {
    "{\"status\":\"error\",\"protocol_version\":5,\"request_id\":"
    + (if id.None? then "null" else Quote(UuidText(id.value))) + ",\"error\":"
  }

  function Encoded(r: Response): string
  {
    match r
    case Success(id, result) => SuccessHead(id) + ResultJson(result) + "}"
    case Failure(id, error) => FailureHead(id) + Quote(error) + "}"
  }

  // ---- How long an encoding can get ----

  lemma Cat3(a: string, b: string, c: string)
    ensures ByteLen(a + b + c) == ByteLen(a) + ByteLen(b) + ByteLen(c)
  {
    ByteLenConcat(a + b, c);
    ByteLenConcat(a, b);
  }

  lemma QuoteBytes(s: string)
    ensures ByteLen(Quote(s)) == ByteLen("\"") + ByteLen(Escape(s)) + ByteLen("\"")
    ensures ByteLen(Quote(s)) <= 6 * ByteLen(s) + 8
  {
    Cat3("\"", Escape(s), "\"");
    EscapeExpandsSixfold(s);
  }

  /** Printable ASCII that needs no escape. */
  predicate IsPlain(c: char) { ' ' <= c <= '~' && c != '\"' && c != '\\' }

  ghost predicate AllPlain(s: string) { forall i :: 0 <= i < |s| ==> IsPlain(s[i]) }

  lemma {:induction false} PlainIsNotEscaped(s: string)
    requires AllPlain(s)
    ensures Escape(s) == s && ByteLen(s) == |s|
  {
    if s != "" {
      PlainIsNotEscaped(s[1..]);
    }
  }

  lemma {:induction false} HexIsPlain(n: nat, width: nat)
    ensures AllPlain(Hex(n, width))
  {
    if width > 0 {
      HexIsPlain(n / 16, width - 1);
    }
  }

  /** An identifier always takes 36 bytes, and 38 with its quotation marks. */
  lemma UuidBytes(u: Uuid)
    ensures ByteLen(Quote(UuidText(u))) == 38
  {
    HexIsPlain(u, 32);
    assert AllPlain(UuidText(u)) by { hide Hex; }
    PlainIsNotEscaped(UuidText(u));
    QuoteBytes(UuidText(u));
    AsciiBytes("\"");
  }

  function MatchBytes(matches: seq<SearchMatch>): (n: nat)
  {
    if matches == [] then 0
    else ByteLen(matches[0].path) + ByteLen(matches[0].content) + MatchBytes(matches[1..])
  }

  lemma {:induction false} PathItemsBytes(paths: seq<string>)
    ensures |PathItems(paths)| == |paths|
    ensures SumBytes(PathItems(paths)) <= 6 * SumBytes(paths) + 8 * |paths|
  {
    if paths != [] {
      QuoteBytes(paths[0]);
      PathItemsBytes(paths[1..]);
      assert PathItems(paths)[1..] == PathItems(paths[1..]);
    }
  }

  lemma MatchItemBytes(m: SearchMatch)
    ensures ByteLen(MatchItem(m)) <= 6 * (ByteLen(m.path) + ByteLen(m.content)) + 500
  {
    hide Quote, Decimal, ByteLen;
    U64Digits(m.line);
    QuoteBytes(m.path);
    QuoteBytes(m.content);
    Cat3("{\"path\":", Quote(m.path), ",\"line\":");
    Cat3("{\"path\":" + Quote(m.path) + ",\"line\":", Decimal(m.line), ",\"content\":" + Quote(m.content) + "}");
    Cat3(",\"content\":", Quote(m.content), "}");
  }

  lemma {:induction false} MatchItemsBytes(matches: seq<SearchMatch>)
    ensures |MatchItems(matches)| == |matches|
    ensures SumBytes(MatchItems(matches)) <= 6 * MatchBytes(matches) + 500 * |matches|
  {
    hide MatchItem;
    if matches != [] {
      MatchItemBytes(matches[0]);
      MatchItemsBytes(matches[1..]);
      assert MatchItems(matches)[1..] == MatchItems(matches[1..]);
    }
  }

  lemma TruncationBytes(b: bool)
    ensures ByteLen(Truncation(b)) <= 84
  {
    hide ByteLen;
    Cat3(",\"truncated\":", Bool(b), "}");
  }

  lemma ChunkItemBytes(c: Chunk)
    requires c.sequence < U64_SIZE
    ensures ByteLen(ChunkItem(c)) <= 6 * ByteLen(c.content) + 500
  {
    hide Quote, Decimal, ByteLen;
    U64Digits(c.sequence);
    QuoteBytes(c.content);
    TruncationBytes(c.truncated);
    var stream := if c.stream == Stdout then ",\"stream\":\"stdout\",\"content\":"
                  else ",\"stream\":\"stderr\",\"content\":";
    Cat3("{\"sequence\":", Decimal(c.sequence), stream);
    Cat3("{\"sequence\":" + Decimal(c.sequence) + stream, Quote(c.content), Truncation(c.truncated));
  }

  lemma {:induction false} ChunkItemsBytes(chunks: seq<Chunk>)
    requires forall i :: 0 <= i < |chunks| ==> chunks[i].sequence < U64_SIZE
    ensures |ChunkItems(chunks)| == |chunks|
    ensures SumBytes(ChunkItems(chunks)) <= 6 * ContentBytes(chunks) + 500 * |chunks|
  {
    hide ChunkItem;
    if chunks != [] {
      ChunkItemBytes(chunks[0]);
      ChunkItemsBytes(chunks[1..]);
      assert ChunkItems(chunks)[1..] == ChunkItems(chunks[1..]);
    }
  }

  lemma ListBytes(items: seq<string>)
    ensures ByteLen(List(items)) <= SumBytes(items) + 4 * |items| + 8
  {
    hide ByteLen;
    Cat3("[", Join(items), "]");
    JoinBytes(items);
  }

  // ---- Reading back ----

  function HexValue(c: char): nat
  {
    if '0' <= c <= '9' then c as int - '0' as int else if 'a' <= c <= 'f' then c as int - 'a' as int + 10 else 0
  }

  lemma HexDigitReads(n: nat)
    requires n < 16
    ensures HexValue(HexDigit(n)) == n
  {
    if n < 4 {
      assert n == 0 || n == 1 || n == 2 || n == 3;
    } else if n < 8 {
      assert n == 4 || n == 5 || n == 6 || n == 7;
    } else if n < 12 {
      assert n == 8 || n == 9 || n == 10 || n == 11;
    } else {
      assert n == 12 || n == 13 || n == 14 || n == 15;
    }
  }

  /** The character a two-character escape stands for. */
  function ShortEscape(c: char): char
  {
    match c
    case 'b' => '\U{0008}'
    case 't' => '\t'
    case 'n' => '\n'
    case 'f' => '\U{000C}'
    case 'r' => '\r'
    case _ => c
  }

  /** What a reader makes of an escaped text (escapes beyond U+00FF are not written by the runner). */
  function Unescape(s: string): string
  {
    if s == "" then ""
    else if s[0] != '\\' || |s| < 2 then [s[0]] + Unescape(s[1..])
    else if s[1] != 'u' || |s| < 6 then [ShortEscape(s[1])] + Unescape(s[2..])
    else [(16 * HexValue(s[4]) + HexValue(s[5])) as char] + Unescape(s[6..])
  }

  lemma UnescapeFirst(c: char, rest: string)
    ensures Unescape(EscapeChar(c) + rest) == [c] + Unescape(rest)
  {
    var e := EscapeChar(c);
    var s := e + rest;
    assert s[|e|..] == rest && forall i :: 0 <= i < |e| ==> s[i] == e[i];
    if |e| == 6 {
      HexDigitReads(c as int / 16);
      HexDigitReads(c as int % 16);
    }
  }

  /** Escaping loses nothing: every text is read back as it was. */
  lemma {:induction false} UnescapeEscape(s: string)
    ensures Unescape(Escape(s)) == s
  {
    hide EscapeChar, Unescape;
    if s == "" {
      UnescapeNothing();
    } else {
      UnescapeEscape(s[1..]);
      UnescapeFirst(s[0], Escape(s[1..]));
    }
  }

  lemma UnescapeNothing()
    ensures Unescape("") == ""
  {
  }

  predicate IsDigit(c: char) { '0' <= c <= '9' }

  function ParseDecimal(s: string): nat
  {
    if s == "" then 0 else 10 * ParseDecimal(s[..|s| - 1]) + HexValue(s[|s| - 1])
  }

  lemma {:induction false} DecimalReads(n: nat)
    ensures ParseDecimal(Decimal(n)) == n && Decimal(n) != ""
    ensures forall i :: 0 <= i < |Decimal(n)| ==> IsDigit(Decimal(n)[i])
  {
    DigitReads(n % 10);
    if n < 10 {
      assert Decimal(n)[..0] == "";
    } else {
      DecimalReads(n / 10);
      var d := Decimal(n);
      assert d[..|d| - 1] == Decimal(n / 10);
    }
  }

  lemma DigitReads(n: nat)
    requires n < 10
    ensures HexValue("0123456789"[n]) == n && IsDigit("0123456789"[n])
  {
    if n < 5 {
      assert n == 0 || n == 1 || n == 2 || n == 3 || n == 4;
    } else {
      assert n == 5 || n == 6 || n == 7 || n == 8 || n == 9;
    }
  }

  /** A number ends where its digits end, so it is read back whatever follows. */
  lemma DecimalCancels(m: nat, n: nat, a: string, b: string)
    requires a != "" && b != "" && !IsDigit(a[0]) && !IsDigit(b[0]) && Decimal(m) + a == Decimal(n) + b
    ensures m == n && a == b
  {
    hide Decimal, ParseDecimal;
    DecimalReads(m);
    DecimalReads(n);
    var x, y, s := Decimal(m), Decimal(n), Decimal(m) + a;
    assert forall i :: 0 <= i < |x| ==> s[i] == x[i] && IsDigit(s[i]);
    assert forall i :: 0 <= i < |y| ==> s[i] == y[i] && IsDigit(s[i]);
    assert s[|x|] == a[0] && s[|y|] == b[0] && |x| == |y|;
    assert s[..|x|] == x && s[..|y|] == y && s[|x|..] == a && s[|y|..] == b;
  }

  lemma PrefixCancels(p: string, a: string, b: string)
    requires p + a == p + b
    ensures a == b
  {
    assert (p + a)[|p|..] == a && (p + b)[|p|..] == b;
  }

  /** The truncation flag can be read back from what ends a response. */
  lemma FlagReads(t: bool, u: bool)
    requires Truncation(t) == Truncation(u)
    ensures t == u
  {
    var tag := ",\"truncated\":";
    assert Truncation(true)[|tag|] == 't' && Truncation(false)[|tag|] == 'f';
  }

  /** So can a poll's cursors: two polls with the same ending have the same cursors and flag. */
  lemma CursorsRead(e: U64, n: U64, t: bool, e': U64, n': U64, t': bool)
    requires PollCursor(e, n, t) == PollCursor(e', n', t')
    ensures e == e' && n == n' && t == t'
  {
    hide Decimal, Truncation;
    var first, second := ",\"earliest_sequence\":", ",\"next_sequence\":";
    var a, b := second + Decimal(n) + Truncation(t), second + Decimal(n') + Truncation(t');
    assert PollCursor(e, n, t) == first + (Decimal(e) + a);
    assert PollCursor(e', n', t') == first + (Decimal(e') + b);
    PrefixCancels(first, Decimal(e) + a, Decimal(e') + b);
    assert a[0] == ',' && b[0] == ',';
    DecimalCancels(e, e', a, b);
    assert a == second + (Decimal(n) + Truncation(t)) && b == second + (Decimal(n') + Truncation(t'));
    PrefixCancels(second, Decimal(n) + Truncation(t), Decimal(n') + Truncation(t'));
    TruncationStarts(t);
    TruncationStarts(t');
    DecimalCancels(n, n', Truncation(t), Truncation(t'));
    FlagReads(t, t');
  }

  lemma TruncationStarts(t: bool)
    ensures Truncation(t) != "" && Truncation(t)[0] == ','
  {
  }
}
