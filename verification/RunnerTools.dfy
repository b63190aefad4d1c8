/**
 The tool loops of the runner (crates/kodo/src/runner.rs).  Git, the file system and child processes
 are inputs: their lines, file contents and byte streams.
 */
module RunnerTools {
  import opened Prelude
  import opened Utf8
  import opened OutputBuffer
  import opened ProcessLifecycle
  import opened Json
  import opened Limits
  import opened ToolResults

  // ---- list_files ----

  /** Greedy selection: keep every path that still fits the remaining bytes. */
  function Fitting(paths: seq<string>, room: nat): (kept: seq<string>)
    ensures |kept| <= |paths|
    ensures kept == paths <==> SumBytes(paths) <= room
    ensures SumBytes(kept) <= room
  {
    if paths == [] then []
    else if ByteLen(paths[0]) <= room then [paths[0]] + Fitting(paths[1..], room - ByteLen(paths[0]))
    else Fitting(paths[1..], room)
  }

  lemma {:induction false} SumBytesAppend(paths: seq<string>, last: string)
    ensures SumBytes(paths + [last]) == SumBytes(paths) + ByteLen(last)
  {
    if paths == [] {
      assert ([] + [last])[1..] == [];
    } else {
      SumBytesAppend(paths[1..], last);
      assert (paths + [last])[1..] == paths[1..] + [last];
    }
  }

  /**
   `sorted` are the sorted lines of the git listing.  The listing is cut to the result and byte
   quotas, and it is complete exactly when it does not say truncated.
   */
  method ListFiles(sorted: seq<string>, outputTruncated: bool, maxResults: nat, maxBytes: nat)
    returns (paths: seq<string>, truncated: bool)
    ensures |paths| <= maxResults && SumBytes(paths) <= maxBytes
    ensures paths == Fitting(if |sorted| <= maxResults then sorted else sorted[..maxResults], maxBytes)
    ensures truncated <==> outputTruncated || paths != sorted
  {
    hide ByteLen, SumBytes, Fitting;
    EmptyFitting(maxBytes);
    truncated := outputTruncated || |sorted| > maxResults;
    var kept := if |sorted| <= maxResults then sorted else sorted[..maxResults];
    paths := [];
    var bytes := 0;
    var i := 0;
    while i < |kept|
      invariant 0 <= i <= |kept|
      invariant |paths| <= i && bytes == SumBytes(paths) <= maxBytes
      invariant paths + Fitting(kept[i..], maxBytes - bytes) == Fitting(kept, maxBytes)
      invariant truncated <==> outputTruncated || |sorted| > maxResults || |paths| < i
    {
      assert kept[i..][1..] == kept[i + 1..];
      FittingStep(kept[i..], maxBytes - bytes);
      if bytes + ByteLen(kept[i]) > maxBytes {
        truncated := true;
      } else {
        SumBytesAppend(paths, kept[i]);
        bytes := bytes + ByteLen(kept[i]);
        paths := paths + [kept[i]];
      }
      i := i + 1;
    }
    EmptyFitting(maxBytes - bytes);
    FittingShorter(kept, maxBytes);
  }

  lemma EmptyFitting(room: nat)
    ensures Fitting([], room) == [] && SumBytes([]) == 0
  {
  }

  lemma FittingStep(paths: seq<string>, room: nat)
    requires paths != []
    ensures Fitting(paths, room)
         == if ByteLen(paths[0]) <= room then [paths[0]] + Fitting(paths[1..], room - ByteLen(paths[0]))
            else Fitting(paths[1..], room)
  {
  }

  lemma {:induction false} FittingShorter(paths: seq<string>, room: nat)
    ensures |Fitting(paths, room)| == |paths| <==> Fitting(paths, room) == paths
  {
    if paths != [] && ByteLen(paths[0]) <= room {
      FittingShorter(paths[1..], room - ByteLen(paths[0]));
    }
  }

  /** Path by path: the next one is kept if and only if it fits what the kept ones leave. */
  lemma {:induction false} FittingByPath(paths: seq<string>, next: string, room: nat)
    ensures Fitting(paths + [next], room) ==
              Fitting(paths, room) + if SumBytes(Fitting(paths, room)) + ByteLen(next) <= room then [next] else []
  {
    hide ByteLen;
    if paths == [] {
      assert paths + [next] == [next] && [next][1..] == [];
    } else {
      assert (paths + [next])[1..] == paths[1..] + [next];
      var left := if ByteLen(paths[0]) <= room then room - ByteLen(paths[0]) else room;
      FittingByPath(paths[1..], next, left);
      assert ByteLen(paths[0]) <= room ==> ([paths[0]] + Fitting(paths[1..], left))[1..] == Fitting(paths[1..], left);
    }
  }

  // ---- search_code ----

  /** A readable file of the listing, as its lines. */
  datatype SourceFile = SourceFile(path: string, lines: seq<string>)

  predicate Countable(files: seq<SourceFile>)
  {
    forall i :: 0 <= i < |files| ==> |files[i].lines| < U64_SIZE
  }

  /** One searched path: its listing and whether that listing was truncated. */
  datatype Listing = Listing(files: seq<SourceFile>, truncated: bool)

  predicate Contains(line: string, query: string)
  {
    exists i :: 0 <= i <= |line| && query <= line[i..]
  }

  /** All matches of a file from line `from` on, with one-based line numbers. */
  function FileMatches(f: SourceFile, query: string, from: nat): (ms: seq<SearchMatch>)
    requires |f.lines| < U64_SIZE
    decreases |f.lines| - from
  {
    if from >= |f.lines| then []
    else if Contains(f.lines[from], query) then
      [SearchMatch(f.path, from + 1, f.lines[from])] + FileMatches(f, query, from + 1)
    else FileMatches(f, query, from + 1)
  }

  function AllMatches(files: seq<SourceFile>, query: string): (ms: seq<SearchMatch>)
    requires Countable(files)
  {
    if files == [] then [] else FileMatches(files[0], query, 0) + AllMatches(files[1..], query)
  }

  lemma ContainsMeans(line: string, query: string)
    ensures Contains(line, query) <==> exists before, after :: line == before + query + after
  {
    if Contains(line, query) {
      var i :| 0 <= i <= |line| && query <= line[i..];
      assert line == line[..i] + query + line[i..][|query|..];
    }
    if before, after :| line == before + query + after {
      assert query <= line[|before|..];
    }
  }

  /** The match that line `i` of a file would be. */
  function MatchAt(f: SourceFile, i: nat): SearchMatch
    requires i < |f.lines| < U64_SIZE
  {
    SearchMatch(f.path, i + 1, f.lines[i])
  }

  /** A file's matches are its matching lines, each once, whole, and in increasing line order. */
  lemma FileMatchesExact(f: SourceFile, query: string)
    requires |f.lines| < U64_SIZE
    ensures var ms := FileMatches(f, query, 0);
            && (forall i: nat :: i < |f.lines| ==> (MatchAt(f, i) in ms <==> Contains(f.lines[i], query)))
            && (forall m :: m in ms ==> 0 < m.line <= |f.lines| && m == MatchAt(f, m.line - 1))
            && Ascends(ms)
  {
    hide FileMatches, Contains, Ascends;
    MatchesAreLines(f, query, 0);
    MatchesAscend(f, query, 0);
    forall i: nat | i < |f.lines|
      ensures MatchAt(f, i) in FileMatches(f, query, 0) <==> Contains(f.lines[i], query)
    {
      LineIsListed(f, query, 0, i);
    }
  }

  lemma {:induction false} MatchesAreLines(f: SourceFile, query: string, from: nat)
    requires |f.lines| < U64_SIZE
    ensures forall m :: m in FileMatches(f, query, from) ==> from < m.line <= |f.lines| && m == MatchAt(f, m.line - 1)
    decreases |f.lines| - from
  {
    hide Contains;
    if from < |f.lines| { MatchesAreLines(f, query, from + 1); }
  }

  ghost predicate Ascends(ms: seq<SearchMatch>) { forall j, k :: 0 <= j < k < |ms| ==> ms[j].line < ms[k].line }

  lemma AscendsFrom(first: SearchMatch, rest: seq<SearchMatch>)
    requires Ascends(rest) && forall m :: m in rest ==> first.line < m.line
    ensures Ascends([first] + rest)
  {
    var ms := [first] + rest;
    forall j, k | 0 <= j < k < |ms|
      ensures ms[j].line < ms[k].line
    {
      assert ms[k] == rest[k - 1] && ms[k] in rest;
    }
  }

  lemma {:induction false} MatchesAscend(f: SourceFile, query: string, from: nat)
    requires |f.lines| < U64_SIZE
    ensures Ascends(FileMatches(f, query, from))
    decreases |f.lines| - from
  {
    hide Contains, Ascends;
    if from < |f.lines| {
      MatchesAscend(f, query, from + 1);
      MatchesAreLines(f, query, from + 1);
      AscendsFrom(MatchAt(f, from), FileMatches(f, query, from + 1));
    } else {
      NothingAscends();
    }
  }

  lemma NothingAscends()
    ensures Ascends([])
  {
  }

  lemma {:induction false} LineIsListed(f: SourceFile, query: string, from: nat, i: nat)
    requires from <= i < |f.lines| < U64_SIZE
    ensures MatchAt(f, i) in FileMatches(f, query, from) <==> Contains(f.lines[i], query)
    decreases |f.lines| - from
  {
    hide Contains;
    MatchesAreLines(f, query, from + 1);
    if from < i { LineIsListed(f, query, from + 1, i); }
  }

  lemma MatchesOfOneFile(f: SourceFile, query: string)
    requires |f.lines| < U64_SIZE
    ensures AllMatches([f], query) == FileMatches(f, query, 0)
  {
    assert [f][1..] == [];
  }

  /** The result is the first matches in full: it has as many as allowed, or the next path leaves no byte. */
  predicate CutBefore(all: seq<SearchMatch>, matches: seq<SearchMatch>, maxResults: nat, maxBytes: nat)
  {
    var n := |matches|;
    && n < |all| && matches == all[..n]
    && (n == maxResults || MatchBytes(matches) + ByteLen(all[n].path) >= maxBytes)
  }

  /** The last match of the result is cut to the longest prefix of its line that fits. */
  predicate CutWithin(all: seq<SearchMatch>, matches: seq<SearchMatch>, maxResults: nat, maxBytes: nat)
  {
    var n := |matches| - 1;
    && 0 <= n < |all| && n < maxResults && matches[..n] == all[..n]
    && var used := MatchBytes(all[..n]) + ByteLen(all[n].path);
    && used < maxBytes < used + ByteLen(all[n].content)
    && matches[n] == all[n].(content := Clip(all[n].content, maxBytes - used))
  }

  /** How a quota ends a search. */
  predicate CutShort(all: seq<SearchMatch>, matches: seq<SearchMatch>, maxResults: nat, maxBytes: nat)
  {
    CutBefore(all, matches, maxResults, maxBytes) || CutWithin(all, matches, maxResults, maxBytes)
  }

  lemma CutShortOfMore(all: seq<SearchMatch>, more: seq<SearchMatch>, matches: seq<SearchMatch>, maxResults: nat,
                       maxBytes: nat)
    requires CutShort(all, matches, maxResults, maxBytes)
    ensures CutShort(all + more, matches, maxResults, maxBytes)
    ensures !(all <= matches)
  {
    hide MatchBytes, ByteLen;
    if CutBefore(all, matches, maxResults, maxBytes) {
      hide CutWithin;
      assert (all + more)[..|matches|] == all[..|matches|];
    } else {
      hide CutBefore;
      var n := |matches| - 1;
      assert (all + more)[..n] == all[..n] && (all + more)[n] == all[n];
      assert matches[n] != all[n];
    }
  }

  lemma {:induction false} AllMatchesConcat(a: seq<SourceFile>, b: seq<SourceFile>, query: string)
    requires Countable(a) && Countable(b)
    ensures Countable(a + b) && AllMatches(a + b, query) == AllMatches(a, query) + AllMatches(b, query)
  {
    hide FileMatches;
    if a == [] {
      assert [] + b == b;
    } else {
      AllMatchesConcat(a[1..], b, query);
      assert (a + b)[1..] == a[1..] + b;
    }
  }

  lemma {:induction false} MatchBytesAppend(ms: seq<SearchMatch>, m: SearchMatch)
    ensures MatchBytes(ms + [m]) == MatchBytes(ms) + ByteLen(m.path) + ByteLen(m.content)
  {
    if ms == [] {
      assert ([] + [m])[1..] == [];
    } else {
      MatchBytesAppend(ms[1..], m);
      assert (ms + [m])[1..] == ms[1..] + [m];
    }
  }

  /** Scan one file: either every match of it is added in full, or a quota ends the search. */
  method SearchFile(f: SourceFile, query: string, sofar: seq<SearchMatch>, maxResults: nat, maxBytes: nat)
    returns (matches: seq<SearchMatch>, stop: bool)
    requires |f.lines| < U64_SIZE
    requires |sofar| <= maxResults && MatchBytes(sofar) <= maxBytes
    ensures |matches| <= maxResults && MatchBytes(matches) <= maxBytes
    ensures !stop ==> matches == sofar + FileMatches(f, query, 0)
    ensures stop ==> CutShort(sofar + FileMatches(f, query, 0), matches, maxResults, maxBytes)
  {
    hide ByteLen, Clip, Contains, MatchBytes, CutShort;
    matches, stop := sofar, false;
    ghost var all := sofar + FileMatches(f, query, 0);
    var index := 0;
    while index < |f.lines| && !stop
      invariant 0 <= index <= |f.lines|
      invariant |matches| <= maxResults && MatchBytes(matches) <= maxBytes
      invariant !stop ==> matches + FileMatches(f, query, index) == all
      invariant stop ==> CutShort(all, matches, maxResults, maxBytes)
      decreases |f.lines| - index, !stop
    {
      var line := f.lines[index];
      if Contains(line, query) {
        ghost var rest := FileMatches(f, query, index + 1);
        assert all == matches + [MatchAt(f, index)] + rest;
        var used := MatchBytes(matches);
        if |matches| == maxResults || used + ByteLen(f.path) >= maxBytes {
          StoppedBefore(matches, MatchAt(f, index), rest, maxResults, maxBytes);
          stop := true;
        } else {
          var content, clipped := TruncateUtf8(line, maxBytes - used - ByteLen(f.path));
          var m := SearchMatch(f.path, index + 1, content);
          MatchBytesAppend(matches, m);
          if clipped {
            StoppedWithin(matches, MatchAt(f, index), rest, maxResults, maxBytes);
            stop := true;
          }
          matches := matches + [m];
        }
      }
      if !stop {
        index := index + 1;
      }
    }
  }

  lemma StoppedBefore(matches: seq<SearchMatch>, next: SearchMatch, rest: seq<SearchMatch>, maxResults: nat,
                      maxBytes: nat)
    requires |matches| == maxResults || MatchBytes(matches) + ByteLen(next.path) >= maxBytes
    ensures CutShort(matches + [next] + rest, matches, maxResults, maxBytes)
  {
    hide MatchBytes, ByteLen, CutWithin;
    var all := matches + [next] + rest;
    assert all[..|matches|] == matches && all[|matches|] == next;
  }

  lemma StoppedWithin(matches: seq<SearchMatch>, next: SearchMatch, rest: seq<SearchMatch>, maxResults: nat,
                      maxBytes: nat)
    requires |matches| < maxResults && MatchBytes(matches) + ByteLen(next.path) < maxBytes
    requires maxBytes < MatchBytes(matches) + ByteLen(next.path) + ByteLen(next.content)
    ensures var room := maxBytes - MatchBytes(matches) - ByteLen(next.path);
            var cut := next.(content := Clip(next.content, room));
            CutShort(matches + [next] + rest, matches + [cut], maxResults, maxBytes)
  {
    hide MatchBytes, ByteLen, Clip, CutBefore;
    var all := matches + [next] + rest;
    var last := next.(content := Clip(next.content, maxBytes - MatchBytes(matches) - ByteLen(next.path)));
    SplitAtLast(matches, next, rest, last);
    assert CutWithin(all, matches + [last], maxResults, maxBytes);
  }

  lemma SplitAtLast<T>(s: seq<T>, a: T, rest: seq<T>, b: T)
    ensures (s + [a] + rest)[..|s|] == s && (s + [a] + rest)[|s|] == a
    ensures (s + [b])[..|s|] == s && (s + [b])[|s|] == b && |s + [b]| - 1 == |s| < |s + [a] + rest|
  {
  }

  /** Scan files in order until one stops the search. */
  method SearchFiles(files: seq<SourceFile>, query: string, sofar: seq<SearchMatch>, maxResults: nat, maxBytes: nat)
    returns (matches: seq<SearchMatch>, stop: bool)
    requires Countable(files) && |sofar| <= maxResults && MatchBytes(sofar) <= maxBytes
    ensures |matches| <= maxResults && MatchBytes(matches) <= maxBytes
    ensures !stop ==> matches == sofar + AllMatches(files, query)
    ensures stop ==> CutShort(sofar + AllMatches(files, query), matches, maxResults, maxBytes)
  {
    hide FileMatches, MatchBytes, CutShort;
    matches, stop := sofar, false;
    var i := 0;
    while i < |files|
      invariant 0 <= i <= |files|
      invariant |matches| <= maxResults && MatchBytes(matches) <= maxBytes
      invariant matches + AllMatches(files[i..], query) == sofar + AllMatches(files, query)
    {
      ghost var before := matches;
      ghost var mine, others := FileMatches(files[i], query, 0), AllMatches(files[i + 1..], query);
      assert files[i..][1..] == files[i + 1..];
      assert before + (mine + others) == (before + mine) + others;
      matches, stop := SearchFile(files[i], query, matches, maxResults, maxBytes);
      if stop {
        CutShortOfMore(before + mine, others, matches, maxResults, maxBytes);
        return;
      }
      i := i + 1;
    }
  }

  function ListedFiles(listings: seq<Listing>): seq<SourceFile>
  {
    if listings == [] then [] else listings[0].files + ListedFiles(listings[1..])
  }

  lemma {:induction false} ListedAppend(listings: seq<Listing>, last: Listing)
    ensures ListedFiles(listings + [last]) == ListedFiles(listings) + last.files
  {
    if listings == [] {
      assert ([] + [last])[1..] == [];
    } else {
      ListedAppend(listings[1..], last);
      assert (listings + [last])[1..] == listings[1..] + [last];
    }
  }

  lemma {:induction false} ListedSplits(listings: seq<Listing>, k: nat)
    requires k <= |listings|
    ensures ListedFiles(listings) == ListedFiles(listings[..k]) + ListedFiles(listings[k..])
  {
    if k == 0 {
      assert listings[0..] == listings && listings[..0] == [];
    } else {
      var rest := listings[1..];
      ListedSplits(rest, k - 1);
      assert listings[..k][1..] == rest[..k - 1] && rest[k - 1..] == listings[k..];
      assert ListedFiles(listings[..k]) == listings[0].files + ListedFiles(rest[..k - 1]);
    }
  }

  /** A search is complete exactly when it does not say truncated; otherwise a quota ended it. */
  method SearchCode(listings: seq<Listing>, query: string, maxResults: nat, maxBytes: nat)
    returns (matches: seq<SearchMatch>, truncated: bool)
    requires Countable(ListedFiles(listings))
    ensures |matches| <= maxResults && MatchBytes(matches) <= maxBytes
    ensures truncated <==>
              || (exists i :: 0 <= i < |listings| && listings[i].truncated)
              || matches != AllMatches(ListedFiles(listings), query)
    ensures
      || matches == AllMatches(ListedFiles(listings), query)
      || CutShort(AllMatches(ListedFiles(listings), query), matches, maxResults, maxBytes)
  {
    hide MatchBytes, AllMatches, CutShort;
    EmptySearch(query);
    matches, truncated := [], false;
    var i := 0;
    assert listings[..0] == [];
    while i < |listings|
      invariant 0 <= i <= |listings|
      invariant |matches| <= maxResults && MatchBytes(matches) <= maxBytes
      invariant Countable(ListedFiles(listings[..i])) && matches == AllMatches(ListedFiles(listings[..i]), query)
      invariant truncated <==> exists k :: 0 <= k < i && listings[k].truncated
    {
      ghost var done := ListedFiles(listings[..i]);
      ghost var more := ListedFiles(listings[i + 1..]);
      assert listings[..i + 1] == listings[..i] + [listings[i]];
      ListedAppend(listings[..i], listings[i]);
      ListedSplits(listings, i + 1);
      CountableParts(done, listings[i].files, more);
      truncated := truncated || listings[i].truncated;
      ghost var before := matches;
      var stop;
      matches, stop := SearchFiles(listings[i].files, query, matches, maxResults, maxBytes);
      AllMatchesConcat(done, listings[i].files, query);
      if stop {
        AllMatchesConcat(done + listings[i].files, more, query);
        ghost var searched, unsearched := AllMatches(done + listings[i].files, query), AllMatches(more, query);
        CutShortOfMore(searched, unsearched, matches, maxResults, maxBytes);
        CutShortOfMore(AllMatches(ListedFiles(listings), query), [], matches, maxResults, maxBytes);
        truncated := true;
        return;
      }
      i := i + 1;
    }
    assert listings[..i] == listings;
  }

  lemma EmptySearch(query: string)
    ensures MatchBytes([]) == 0 && AllMatches([], query) == []
  {
  }

  lemma CountableParts(a: seq<SourceFile>, b: seq<SourceFile>, c: seq<SourceFile>)
    requires Countable(a + b + c)
    ensures Countable(a) && Countable(b) && Countable(c)
  {
    assert forall i :: 0 <= i < |a| ==> (a + b + c)[i] == a[i];
    assert forall i :: 0 <= i < |b| ==> (a + b + c)[|a| + i] == b[i];
    assert forall i :: 0 <= i < |c| ==> (a + b + c)[|a| + |b| + i] == c[i];
  }

  // ---- read_file ----

  function JoinLines(lines: seq<string>): string
  {
    if lines == [] then "" else if |lines| == 1 then lines[0] else lines[0] + "\n" + JoinLines(lines[1..])
  }

  /** The text cut at every newline. */
  function SplitLines(text: string): (lines: seq<string>)
    ensures lines != []
  {
    if text == "" then [""]
    else if text[0] == '\n' then [""] + SplitLines(text[1..])
    else
      var rest := SplitLines(text[1..]);
      [[text[0]] + rest[0]] + rest[1..]
  }

  lemma {:induction false} SplitFirstLine(line: string, rest: string)
    requires '\n' !in line
    ensures SplitLines(line + "\n" + rest) == [line] + SplitLines(rest)
    ensures SplitLines(line) == [line]
  {
    if line == "" {
      assert line + "\n" + rest == "\n" + rest;
    } else {
      SplitFirstLine(line[1..], rest);
      assert (line + "\n" + rest)[1..] == line[1..] + "\n" + rest;
      assert [line[0]] + line[1..] == line;
    }
  }

  /** The lines of a page can be read back from its text. */
  lemma {:induction false} JoinedLinesSplit(lines: seq<string>)
    requires lines != [] && forall i :: 0 <= i < |lines| ==> '\n' !in lines[i]
    ensures SplitLines(JoinLines(lines)) == lines
  {
    if |lines| == 1 {
      SplitFirstLine(lines[0], "");
    } else {
      JoinedLinesSplit(lines[1..]);
      SplitFirstLine(lines[0], JoinLines(lines[1..]));
    }
  }

  function Min(a: nat, b: nat): nat { if a < b then a else b }

  function SaturatingAdd(a: U64, b: U64): U64 { if a + b < U64_SIZE then a + b else U64_SIZE - 1 }

  datatype ReadError = ZeroLimit | TooLarge

  /** The lines a page shows. */
  function Page(lines: seq<string>, offset: nat, limit: nat): seq<string>
  {
    var start := Min(offset, |lines|);
    lines[start..Min(start + limit, |lines|)]
  }

  /**
   A page within the output quota, or a refusal of an empty or an oversized one; it says truncated,
   and where to go on, exactly when lines remain beyond it.
   */
  function ReadPage(lines: seq<string>, offset: U64, limit: U64, maxBytes: nat): (r: Result<ToolResult, ReadError>)
    ensures r.Ok? <==> limit > 0 && ByteLen(JoinLines(Page(lines, offset, limit))) <= maxBytes
    ensures r.Ok? ==> r.value.File? && ByteLen(r.value.content) <= maxBytes
    ensures r.Ok? && |lines| < U64_SIZE ==>
              && (r.value.truncated <==> offset + limit < |lines|)
              && r.value.nextOffset == (if offset + limit < |lines| then Some(offset + limit) else None)
  {
    var selected := JoinLines(Page(lines, offset, limit));
    if limit == 0 then Err(ZeroLimit)
    else if ByteLen(selected) > maxBytes then Err(TooLarge)
    else
      var next := SaturatingAdd(offset, limit);
      var nextOffset := if next < |lines| then Some(next) else None;
      Ok(File(selected, offset, nextOffset, nextOffset.Some?))
  }

  /** The pages a reader sees that follows `next_offset` with its own page sizes. */
  function Pages(lines: seq<string>, offset: U64, limits: seq<U64>): (r: seq<seq<string>>)
    decreases |limits|
  {
    if limits == [] then []
    else
      var next := SaturatingAdd(offset, limits[0]);
      [Page(lines, offset, limits[0])] + (if next < |lines| then Pages(lines, next, limits[1..]) else [])
  }

  /** Whether following the pages reached the end. */
  predicate Exhausted(lines: seq<string>, offset: U64, limits: seq<U64>)
    decreases |limits|
  {
    && limits != []
    && var next := SaturatingAdd(offset, limits[0]);
       next >= |lines| || Exhausted(lines, next, limits[1..])
  }

  /** Paging to the end shows every line from the first offset on, once and in order. */
  lemma {:induction false} PagesCoverTheFile(lines: seq<string>, offset: U64, limits: seq<U64>)
    requires |lines| < U64_SIZE && offset <= |lines|
    requires Exhausted(lines, offset, limits)
    ensures Flatten(Pages(lines, offset, limits)) == lines[offset..]
    decreases |limits|
  {
    var next := SaturatingAdd(offset, limits[0]);
    var page := Page(lines, offset, limits[0]);
    if next < |lines| {
      PagesCoverTheFile(lines, next, limits[1..]);
      FlattenFirst(page, Pages(lines, next, limits[1..]));
      assert page + lines[next..] == lines[offset..];
    } else {
      FlattenFirst(page, []);
      assert [page] + [] == [page];
    }
  }

  lemma FlattenFirst<T>(first: seq<T>, rest: seq<seq<T>>)
    ensures Flatten([first] + rest) == first + Flatten(rest)
    ensures Flatten<T>([]) == []
  {
    assert ([first] + rest)[1..] == rest;
  }

  /** The contents a reader gets that follows `next_offset`, until the end or an error. */
  function FollowPages(lines: seq<string>, offset: U64, limits: seq<U64>, maxBytes: nat)
    : (r: Result<seq<string>, ReadError>)
    decreases |limits|
  {
    if limits == [] then Ok([])
    else
      match ReadPage(lines, offset, limits[0], maxBytes)
      case Err(e) => Err(e)
      case Ok(page) =>
        if page.nextOffset.None? then Ok([page.content])
        else
          match FollowPages(lines, page.nextOffset.value, limits[1..], maxBytes)
          case Err(e) => Err(e)
          case Ok(rest) => Ok([page.content] + rest)
  }

  /** What the reader gets are the pages, so to the end it has seen every line once and in order. */
  lemma {:induction false} FollowedPagesCoverTheFile(lines: seq<string>, offset: U64, limits: seq<U64>, maxBytes: nat)
    requires |lines| < U64_SIZE && offset <= |lines|
    requires Exhausted(lines, offset, limits) && FollowPages(lines, offset, limits, maxBytes).Ok?
    ensures var (contents, pages) := (FollowPages(lines, offset, limits, maxBytes).value, Pages(lines, offset, limits));
            && |contents| == |pages|
            && (forall i :: 0 <= i < |pages| ==> contents[i] == JoinLines(pages[i]))
            && Flatten(pages) == lines[offset..]
    decreases |limits|
  {
    hide ByteLen, JoinLines;
    PagesCoverTheFile(lines, offset, limits);
    var next := SaturatingAdd(offset, limits[0]);
    if next < |lines| {
      FollowedPagesCoverTheFile(lines, next, limits[1..], maxBytes);
    }
  }

  // ---- git output ----

  /** Drain a pipe but keep only the first `limit` bytes. */
  method ReadBounded(blocks: seq<seq<Byte>>, limit: nat) returns (output: seq<Byte>, truncated: bool)
    ensures output == if |Flatten(blocks)| <= limit then Flatten(blocks) else Flatten(blocks)[..limit]
    ensures truncated <==> |Flatten(blocks)| > limit
  {
    output, truncated := [], false;
    var i := 0;
    ghost var seen: seq<Byte> := [];
    assert blocks[..0] == [];
    while i < |blocks|
      invariant 0 <= i <= |blocks|
      invariant seen == Flatten(blocks[..i])
      invariant output == if |seen| <= limit then seen else seen[..limit]
      invariant truncated <==> |seen| > limit
    {
      var block := blocks[i];
      var remaining := if limit <= |output| then 0 else limit - |output|;
      output := output + block[..Min(|block|, remaining)];
      truncated := truncated || |block| > remaining;
      assert blocks[..i + 1] == blocks[..i] + [block];
      FlattenAppend(blocks[..i], block);
      seen := seen + block;
      i := i + 1;
    }
    assert blocks[..i] == blocks;
  }

  method LossyBounded(bytes: seq<Byte>, limit: nat) returns (text: string, truncated: bool)
    ensures text == Clip(Lossy(bytes), limit)
    ensures truncated <==> text != Lossy(bytes)
  {
    text, truncated := TruncateUtf8(Lossy(bytes), limit);
  }

  /** A finished Git command: whether its exit status is one the caller accepts, and what its pipe delivered. */
  datatype GitRun = GitRun(exitOk: bool, blocks: seq<seq<Byte>>)

  function StdoutText(run: GitRun): string { Lossy(Flatten(run.blocks)) }

  /** An untracked file: whether its path resolves inside the workspace, and the diff against nothing. */
  datatype Untracked = Untracked(resolves: bool, diff: GitRun)

  function DiffText(files: seq<Untracked>): (text: string)
  {
    if files == [] then ""
    else DiffText(files[..|files| - 1]) + StdoutText(files[|files| - 1].diff)
  }

  /** What a limit leaves of a command's output: its first bytes, decoded, in whole characters. */
  function BoundedText(run: GitRun, limit: nat): string
  {
    var bytes := Flatten(run.blocks);
    Clip(Lossy(if |bytes| <= limit then bytes else bytes[..limit]), limit)
  }

  /**
   The output of a successful command, cut to the limit as bytes and then as text: complete exactly
   when it does not say truncated.
   */
  method SuccessfulStdout(run: GitRun, limit: nat) returns (r: Result<(string, bool), string>)
    ensures r.Ok? <==> run.exitOk
    ensures r.Ok? ==> r.value.0 == BoundedText(run, limit) && ByteLen(r.value.0) <= limit
    ensures r.Ok? ==> (r.value.1 <==> r.value.0 != StdoutText(run))
    ensures r.Ok? && r.value.1 ==> ByteLen(StdoutText(run)) > limit
  {
    hide ByteLen, Clip, Lossy, Flatten;
    var raw, cut := ReadBounded(run.blocks, limit);
    if !run.exitOk {
      return Err("git failed");
    }
    var text, clipped := LossyBounded(raw, limit);
    if cut || clipped {
      Overfull("", run.blocks, raw, limit);
      assert "" + StdoutText(run) == StdoutText(run);
      assert ByteLen("") == 0 by { AsciiBytes(""); }
    }
    r := Ok((text, cut || clipped));
  }

  lemma {:induction false} DiffTextGrows(files: seq<Untracked>, k: nat, head: string)
    requires k <= |files|
    ensures ByteLen(head + DiffText(files[..k])) <= ByteLen(head + DiffText(files))
    decreases |files|
  {
    hide ByteLen, StdoutText;
    if k == |files| {
      assert files[..k] == files;
    } else {
      var shorter, last := files[..|files| - 1], StdoutText(files[|files| - 1].diff);
      DiffTextGrows(shorter, k, head);
      assert shorter[..k] == files[..k];
      ByteLenConcat(head + DiffText(shorter), last);
      assert head + DiffText(files) == head + DiffText(shorter) + last;
    }
  }

  /** A diff that was cut or clipped would not have fitted. */
  lemma Overfull(content: string, blocks: seq<seq<Byte>>, raw: seq<Byte>, room: nat)
    requires |Flatten(blocks)| > room || (raw == Flatten(blocks) && Clip(Lossy(raw), room) != Lossy(raw))
    ensures ByteLen(content + Lossy(Flatten(blocks))) > ByteLen(content) + room
  {
    LossyNotShorter(Flatten(blocks));
    ByteLenConcat(content, Lossy(Flatten(blocks)));
  }

  /** Lossy decoding never shortens: a replaced subpart has at most the three bytes of its replacement. */
  lemma {:induction false} LossyNotShorter(b: seq<Byte>)
    ensures |b| <= ByteLen(Lossy(b))
    decreases |b|
  {
    match Next(b)
    case None =>
    case Some((c, n)) =>
      LossyNotShorter(b[n..]);
      if ScanAt(b).Scalar? { EncodingOfScan(b); }
  }

  lemma EmptyDiffText()
    ensures DiffText([]) == ""
  {
  }

  lemma DiffTextStep(files: seq<Untracked>, i: nat, head: string)
    requires i < |files|
    ensures head + DiffText(files[..i + 1]) == head + DiffText(files[..i]) + StdoutText(files[i].diff)
  {
    hide StdoutText;
    assert files[..i + 1][..i] == files[..i];
  }

  /** One more diff: all of it, or as much as fits when it does not. */
  method AppendDiff(content: string, d: GitRun, maxBytes: nat) returns (longer: string, cut: bool)
    requires ByteLen(content) < maxBytes
    ensures longer == content + BoundedText(d, maxBytes - ByteLen(content)) && ByteLen(longer) <= maxBytes
    ensures cut <==> BoundedText(d, maxBytes - ByteLen(content)) != StdoutText(d)
    ensures cut ==> ByteLen(content + StdoutText(d)) > maxBytes
  {
    hide ByteLen, Clip, Lossy, Flatten;
    var room := maxBytes - ByteLen(content);
    var raw, short := ReadBounded(d.blocks, room);
    var text, clipped := LossyBounded(raw, room);
    ByteLenConcat(content, text);
    cut := short || clipped;
    if cut {
      Overfull(content, d.blocks, raw, room);
    }
    longer := content + text;
  }

  /** Diffs appended one after another, each within the room left, until one does not fit whole. */
  function Filled(content: string, files: seq<Untracked>, maxBytes: nat): string
    decreases |files|
  {
    if files == [] || ByteLen(content) >= maxBytes then content
    else
      var piece := BoundedText(files[0].diff, maxBytes - ByteLen(content));
      if piece == StdoutText(files[0].diff) then Filled(content + piece, files[1..], maxBytes) else content + piece
  }

  lemma FilledStep(content: string, files: seq<Untracked>, i: nat, maxBytes: nat)
    requires i < |files| && ByteLen(content) < maxBytes
    ensures var piece := BoundedText(files[i].diff, maxBytes - ByteLen(content));
            Filled(content, files[i..], maxBytes) ==
              if piece == StdoutText(files[i].diff) then Filled(content + piece, files[i + 1..], maxBytes)
              else content + piece
  {
    hide BoundedText, StdoutText, ByteLen;
    assert files[i..][1..] == files[i + 1..];
  }

  lemma FilledAlready(content: string, files: seq<Untracked>, maxBytes: nat)
    requires files == [] || ByteLen(content) >= maxBytes
    ensures Filled(content, files, maxBytes) == content
  {
  }

  /**
   The tracked diff followed by one diff per untracked file.  The text never exceeds the quota, and
   begins with the tracked diff if that fits; unless it says truncated it is the complete text of all
   of them; it says so only when the complete text fills the quota.  Errors are a failing command, an
   untracked list over its internal limit (`listCut`) and an untracked path that does not resolve.
   */
  method GitDiff(tracked: GitRun, listOk: bool, listCut: bool, untracked: seq<Untracked>, maxBytes: nat)
    returns (r: Result<ToolResult, string>)
    ensures r.Ok? ==> r.value.GitOutput? && ByteLen(r.value.content) <= maxBytes
    ensures r.Ok? ==> r.value.content == Filled(BoundedText(tracked, maxBytes), untracked, maxBytes)
    ensures r.Ok? && !r.value.truncated ==> r.value.content == StdoutText(tracked) + DiffText(untracked)
    ensures r.Ok? && r.value.truncated ==> maxBytes <= ByteLen(StdoutText(tracked) + DiffText(untracked))
    ensures r.Ok? && ByteLen(StdoutText(tracked)) <= maxBytes ==> StdoutText(tracked) <= r.value.content
    ensures r.Ok? ==> tracked.exitOk && listOk && !listCut
    ensures
      (&& tracked.exitOk && listOk && !listCut
       && forall k :: 0 <= k < |untracked| ==> untracked[k].resolves && untracked[k].diff.exitOk) ==> r.Ok?
  {
    hide ByteLen, StdoutText, DiffText, BoundedText, Filled;
    var first := SuccessfulStdout(tracked, maxBytes);
    if first.Err? {
      return Err(first.error);
    }
    if !listOk {
      return Err("git failed");
    }
    if listCut {
      return Err("untracked file list exceeds internal byte limit");
    }
    var content, truncated := first.value.0, first.value.1;
    ghost var whole, filled := StdoutText(tracked), Filled(content, untracked, maxBytes);
    var i := 0;
    assert untracked[0..] == untracked;
    assert untracked[..0] == [];
    EmptyDiffText();
    DiffTextGrows(untracked, 0, whole);
    assert whole + DiffText([]) == whole;
    while i < |untracked|
      invariant 0 <= i <= |untracked|
      invariant ByteLen(content) <= maxBytes
      invariant Filled(content, untracked[i..], maxBytes) == filled
      invariant ByteLen(whole) <= maxBytes ==> whole <= content
      invariant !truncated ==> content == whole + DiffText(untracked[..i])
      invariant truncated ==> maxBytes <= ByteLen(whole + DiffText(untracked))
    {
      if ByteLen(content) >= maxBytes {
        DiffTextGrows(untracked, i, whole);
        FilledAlready(content, untracked[i..], maxBytes);
        truncated := true;
        break;
      }
      if !untracked[i].resolves {
        return Err("path does not resolve");
      }
      if !untracked[i].diff.exitOk {
        return Err("git failed");
      }
      DiffTextStep(untracked, i, whole);
      FilledStep(content, untracked, i, maxBytes);
      var longer, cut := AppendDiff(content, untracked[i].diff, maxBytes);
      if cut {
        DiffTextGrows(untracked, i + 1, whole);
        content, truncated := longer, true;
        break;
      }
      content, i := longer, i + 1;
    }
    assert untracked[..|untracked|] == untracked;
    if i == |untracked| { FilledAlready(content, untracked[i..], maxBytes); }
    r := Ok(GitOutput(content, truncated));
  }

  // ---- patch_paths ----

  datatype PatchError = NoFiles | TooManyFiles | PathsTooLong

  /** `paths` are the sorted, deduplicated paths the patch touches. */
  function CheckPatchPaths(paths: seq<string>, l: ExecutionLimits): (r: Result<ToolResult, PatchError>)
    ensures r.Ok? <==> paths != [] && WithinQuota(FilesChanged(paths), l)
    ensures r.Ok? ==> r.value == FilesChanged(paths)
    ensures r == Err(NoFiles) <==> paths == []
  {
    if paths == [] then Err(NoFiles)
    else if |paths| > l.maxResults then Err(TooManyFiles)
    else if SumBytes(paths) > l.maxOutputBytes then Err(PathsTooLong)
    else Ok(FilesChanged(paths))
  }

  /** A poll of a process whose buffer obeys the same limits is within quota. */
  lemma PollWithinQuota(o: Output, log: seq<Chunk>, l: ExecutionLimits, after: U64, process: Uuid, status: Status)
    requires ControlPlaneAccepts(l) && l.maxOutputBytes >= 0 && l.maxProcessOutputChunks >= 0
    requires Tracks(o, log, Quota(l.maxOutputBytes, l.maxProcessOutputChunks)) && o.nextSequence < U64_SIZE
    requires status.Exited? && status.code.Some? ==> -0x8000_0000 <= status.code.value < 0x8000_0000
    ensures var p := Poll(o, after);
            && p.earliest < U64_SIZE && p.next < U64_SIZE
            && WithinQuota(CommandPoll(process, status, p.output, p.earliest, p.next, p.truncated), l)
  {
    hide ContentBytes, After, Poll, Tracks, AnyClipped;
    QuotaFields(l);
    PollIsBounded(o, log, Quota(l.maxOutputBytes, l.maxProcessOutputChunks), after);
  }

  lemma PollIsBounded(o: Output, log: seq<Chunk>, q: Quota, after: U64)
    requires Tracks(o, log, q)
    ensures var p := Poll(o, after);
            && p.next == o.nextSequence && p.earliest <= o.nextSequence
            && |p.output| <= Max(1, q.maxChunks) && ContentBytes(p.output) <= q.maxBytes
            && forall i :: 0 <= i < |p.output| ==> p.output[i].sequence < o.nextSequence
  {
    hide ContentBytes, After, AnyClipped;
    var first := |log| - |o.chunks| + 1;
    assert forall i :: 0 <= i < |o.chunks| ==> o.chunks[i] == log[first - 1 + i];
    AfterIsSuffix(o.chunks, first, after);
    SuffixBytes(o.chunks, |o.chunks| - |After(o.chunks, after)|);
  }

  lemma {:induction false} SuffixBytes(chunks: seq<Chunk>, k: nat)
    requires k <= |chunks|
    ensures ContentBytes(chunks[k..]) <= ContentBytes(chunks)
  {
    if k > 0 {
      SuffixBytes(chunks[1..], k - 1);
      assert chunks[1..][k - 1..] == chunks[k..];
    } else {
      assert chunks[0..] == chunks;
    }
  }

  // ---- One request, from its inputs to its response ----

  /** What the environment hands to each tool; replacements are treated in ToolResults. */
  datatype ToolInput =
    | ListRequest(sorted: seq<string>, cut: bool)
    | SearchRequest(listings: seq<Listing>, query: string)
    | ReadRequest(lines: seq<string>, offset: U64, limit: U64)
    | StatusRequest(run: GitRun)
    | DiffRequest(tracked: GitRun, listOk: bool, listCut: bool, untracked: seq<Untracked>)
    | PatchRequest(paths: seq<string>)
    | StartRequest(process: Uuid)
    | PollRequest(process: Uuid, status: Status, output: Output, after: U64)

  /** Line counts and cursors fit their machine words, and a polled buffer obeys the limits. */
  ghost predicate Possible(input: ToolInput, l: ExecutionLimits)
  {
    match input
    case SearchRequest(listings, _) => Countable(ListedFiles(listings))
    case PollRequest(_, status, output, _) =>
      && l.maxOutputBytes >= 0 && l.maxProcessOutputChunks >= 0 && output.nextSequence < U64_SIZE
      && (exists log :: Tracks(output, log, Quota(l.maxOutputBytes, l.maxProcessOutputChunks)))
      && (status.Exited? && status.code.Some? ==> -0x8000_0000 <= status.code.value < 0x8000_0000)
    case _ => true
  }

  /** What each tool answers to what the environment gave it. */
  ghost predicate Answers(input: ToolInput, l: ExecutionLimits, r: Result<ToolResult, string>)
    requires l.maxResults >= 0 && l.maxOutputBytes >= 0 && Possible(input, l)
  {
    match input
    case ListRequest(sorted, cut) =>
      && r.Ok? && r.value.Files?
      && r.value.paths == Fitting(if |sorted| <= l.maxResults then sorted else sorted[..l.maxResults], l.maxOutputBytes)
      && (r.value.truncated <==> cut || r.value.paths != sorted)
    case SearchRequest(listings, query) =>
      && r.Ok? && r.value.Matches?
      && var all := AllMatches(ListedFiles(listings), query);
      && (r.value.matches == all || CutShort(all, r.value.matches, l.maxResults, l.maxOutputBytes))
      && (r.value.truncated <==>
            (exists i :: 0 <= i < |listings| && listings[i].truncated) || r.value.matches != all)
    case ReadRequest(lines, offset, limit) =>
      var page := ReadPage(lines, offset, limit, l.maxOutputBytes);
      r.Ok? == page.Ok? && (r.Ok? ==> r.value == page.value)
    case StatusRequest(run) =>
      && r.Ok? == run.exitOk
      && (r.Ok? ==>
            && r.value.GitOutput? && r.value.content == BoundedText(run, l.maxOutputBytes)
            && (r.value.truncated <==> r.value.content != StdoutText(run)))
    case DiffRequest(tracked, listOk, listCut, untracked) =>
      r.Ok? ==>
        && r.value.GitOutput?
        && r.value.content == Filled(BoundedText(tracked, l.maxOutputBytes), untracked, l.maxOutputBytes)
        && (!r.value.truncated ==> r.value.content == StdoutText(tracked) + DiffText(untracked))
    case PatchRequest(paths) =>
      && (r.Ok? <==> paths != [] && WithinQuota(FilesChanged(paths), l))
      && (r.Ok? ==> r.value == FilesChanged(paths))
    case StartRequest(process) => r == Ok(CommandStarted(process))
    case PollRequest(process, status, output, after) =>
      var p := Poll(output, after);
      && p.earliest < U64_SIZE && p.next < U64_SIZE
      && r == Ok(CommandPoll(process, status, p.output, p.earliest, p.next, p.truncated))
  }

  /**
   Whatever the environment supplies, each tool gives its own answer, and a result is within the quotas
   that the encoding relies on.
   */
  method Execute(input: ToolInput, l: ExecutionLimits) returns (r: Result<ToolResult, string>)
    requires ControlPlaneAccepts(l) && Possible(input, l)
    ensures l.maxResults >= 0 && l.maxOutputBytes >= 0 && Answers(input, l, r)
    ensures r.Ok? ==> WithinQuota(r.value, l)
  {
    hide ByteLen, ContentBytes, Tracks, Poll, SumBytes, MatchBytes, Fitting, AllMatches, ListedFiles, ReadPage,
         CutShort, BoundedText, StdoutText, DiffText, Filled;
    QuotaFields(l);
    var maxResults: nat, maxBytes: nat := l.maxResults, l.maxOutputBytes;
    match input
    case ListRequest(sorted, cut) =>
      var paths, truncated := ListFiles(sorted, cut, maxResults, maxBytes);
      r := Ok(Files(paths, truncated));
    case SearchRequest(listings, query) =>
      var matches, truncated := SearchCode(listings, query, maxResults, maxBytes);
      r := Ok(Matches(matches, truncated));
    case ReadRequest(lines, offset, limit) =>
      var page := ReadPage(lines, offset, limit, maxBytes);
      r := if page.Ok? then Ok(page.value) else Err("page refused");
    case StatusRequest(run) =>
      var stdout := SuccessfulStdout(run, maxBytes);
      r := if stdout.Ok? then Ok(GitOutput(stdout.value.0, stdout.value.1)) else Err(stdout.error);
    case DiffRequest(tracked, listOk, listCut, untracked) =>
      r := GitDiff(tracked, listOk, listCut, untracked, maxBytes);
    case PatchRequest(paths) =>
      var changed := CheckPatchPaths(paths, l);
      r := if changed.Ok? then Ok(changed.value) else Err("patch refused");
    case StartRequest(process) => r := Ok(CommandStarted(process));
    case PollRequest(process, status, output, after) =>
      ghost var log :| Tracks(output, log, Quota(l.maxOutputBytes, l.maxProcessOutputChunks));
      PollWithinQuota(output, log, l, after, process, status);
      var p := Poll(output, after);
      r := Ok(CommandPoll(process, status, p.output, p.earliest, p.next, p.truncated));
  }

  /** The envelope of a tool's answer; an error is clipped to the output quota. */
  function Reply(id: Uuid, r: Result<ToolResult, string>, maxBytes: nat): string
  {
    match r
    case Ok(result) => Encoded(Success(id, result))
    case Err(error) => Encoded(Failure(Some(id), Clip(error, maxBytes)))
  }

  /**
   The response of an execution: the tool's result, or its error or that of a failed check or
   environment (`failure`) clipped to the output quota.  It is one the replay theorem speaks of, so it
   is at most the announced maximum.
   */
  method Respond(id: Uuid, input: ToolInput, failure: Option<string>, l: ExecutionLimits, size: nat)
    returns (response: string)
    requires size >= U32_SIZE && RunnerAccepts(l, size) && Possible(input, l)
    ensures Produces(l, id, response)
    ensures ByteLen(response) <= ResponseBudget(l)
    ensures l.maxResults >= 0 && l.maxOutputBytes >= 0
    ensures failure.Some? ==> response == Encoded(Failure(Some(id), Clip(failure.value, l.maxOutputBytes)))
    ensures failure.None? ==> exists r :: Answers(input, l, r) && response == Reply(id, r, l.maxOutputBytes)
  {
    hide ByteLen, Encoded, Clip, WithinQuota, Possible, Answers;
    LanguagesAgree(l, size);
    QuotaFields(l);
    var r: Result<ToolResult, string>;
    if failure.Some? {
      r := Err(failure.value);
    } else {
      r := Execute(input, l);
    }
    match r {
      case Ok(result) =>
        response := Encoded(Success(id, result));
      case Err(error) =>
        var kept, _ := TruncateUtf8(error, l.maxOutputBytes);
        response := Encoded(Failure(Some(id), kept));
    }
    assert response == Reply(id, r, l.maxOutputBytes);
    ProducedFits(l, id, response, size);
  }
}
