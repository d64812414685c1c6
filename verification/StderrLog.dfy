/**
 The stderr reader of the app-server transport: a byte stream that arrives in chunks is
 cut into lines, and each line is logged once, shortened to a limit.
 */
module StderrLog {

  type Byte = n: int | 0 <= n < 256

  const NEWLINE: Byte := 10
  const STDERR_LOG_LIMIT: nat := 8192

  type Bytes = seq<Byte>

  datatype Record = Record(text: Bytes, truncated: bool)

  // ---------------------------------------------------------------------
  // What the log of a stream is
  // ---------------------------------------------------------------------

  /** The bytes after the last newline. */
  function OpenLine(s: Bytes): Bytes {
    if |s| == 0 || s[|s| - 1] == NEWLINE then [] else OpenLine(s[..|s| - 1]) + [s[|s| - 1]]
  }

  /** The lines that a newline has ended. */
  function EndedLines(s: Bytes): seq<Bytes> {
    if |s| == 0 then []
    else
      var before := s[..|s| - 1];
      if s[|s| - 1] == NEWLINE then EndedLines(before) + [OpenLine(before)] else EndedLines(before)
  }

  function Lines(s: Bytes): seq<Bytes> {
    EndedLines(s) + [OpenLine(s)]
  }

  function Join(lines: seq<Bytes>): Bytes
    requires |lines| > 0
  {
    if |lines| == 1 then lines[0] else Join(lines[..|lines| - 1]) + [NEWLINE] + lines[|lines| - 1]
  }

  /** The lines put back together give the stream, and no line contains a newline. */
  lemma {:induction false} LinesAreTheStream(s: Bytes)
    ensures Join(Lines(s)) == s
    ensures forall i :: 0 <= i < |Lines(s)| ==> NEWLINE !in Lines(s)[i]
  {
    if |s| > 0 {
      var before, last := s[..|s| - 1], s[|s| - 1];
      LinesAreTheStream(before);
      assert s == before + [last];
      var lines := Lines(s);
      if last == NEWLINE {
        assert lines[..|lines| - 1] == Lines(before);
      } else {
        var all := Lines(before);
        assert all[..|all| - 1] == EndedLines(before) && lines[..|lines| - 1] == EndedLines(before);
      }
    }
  }

  /** What one line leaves in the log: nothing when empty, and never more than the limit. */
  function Logged(line: Bytes): seq<Record> {
    if line == [] then []
    else if |line| > STDERR_LOG_LIMIT then [Record(line[..STDERR_LOG_LIMIT], true)]
    else [Record(line, false)]
  }

  function LogOfLines(lines: seq<Bytes>): seq<Record> {
    if |lines| == 0 then [] else LogOfLines(lines[..|lines| - 1]) + Logged(lines[|lines| - 1])
  }

  function LogOf(s: Bytes): seq<Record> {
    LogOfLines(Lines(s))
  }

  function NonEmpty(lines: seq<Bytes>): seq<Bytes> {
    if |lines| == 0 then []
    else
      NonEmpty(lines[..|lines| - 1]) + if |lines[|lines| - 1]| > 0 then [lines[|lines| - 1]] else []
  }

  lemma {:induction false} LinesAreLogged(lines: seq<Bytes>)
    ensures |LogOfLines(lines)| == |NonEmpty(lines)|
    ensures forall k :: 0 <= k < |LogOfLines(lines)| ==>
              var line, record := NonEmpty(lines)[k], LogOfLines(lines)[k];
              && record.text <= line && |record.text| == (if |line| < 8192 then |line| else 8192)
              && (record.truncated <==> |line| > 8192)
  {
    if |lines| > 0 {
      LinesAreLogged(lines[..|lines| - 1]);
    }
  }

  /**
   There is one record for each line that is not empty, in order: its first 8192 bytes, marked as
   truncated exactly when the line has more.
   */
  lemma EachLineIsLoggedOnce(s: Bytes)
    ensures |LogOf(s)| == |NonEmpty(Lines(s))|
    ensures forall k :: 0 <= k < |LogOf(s)| ==>
              var line, record := NonEmpty(Lines(s))[k], LogOf(s)[k];
              && record.text <= line && |record.text| == (if |line| < 8192 then |line| else 8192)
              && (record.truncated <==> |line| > 8192)
  {
    LinesAreLogged(Lines(s));
  }

  /** The bytes that arrive: all chunks up to the first empty one, which means the end. */
  function Stream(chunks: seq<Bytes>): Bytes {
    if |chunks| == 0 || chunks[0] == [] then [] else chunks[0] + Stream(chunks[1..])
  }

  // ---------------------------------------------------------------------
  // Feeding one stretch of bytes
  // ---------------------------------------------------------------------

  lemma FeedByte(s: Bytes, b: Byte)
    requires b != NEWLINE
    ensures OpenLine(s + [b]) == OpenLine(s) + [b] && EndedLines(s + [b]) == EndedLines(s)
  {
    assert (s + [b])[..|s + [b]| - 1] == s;
  }

  lemma {:induction false} FeedPlain(s: Bytes, part: Bytes)
    requires NEWLINE !in part
    ensures OpenLine(s + part) == OpenLine(s) + part && EndedLines(s + part) == EndedLines(s)
  {
    hide OpenLine, EndedLines;
    if |part| == 0 {
      assert s + part == s;
    } else {
      var front, last := part[..|part| - 1], part[|part| - 1];
      FeedPlain(s, front);
      assert part == front + [last] && last in part;
      FeedByte(s + front, last);
      assert s + part == s + front + [last];
    }
  }

  lemma FeedNewline(s: Bytes)
    ensures OpenLine(s + [NEWLINE]) == [] && EndedLines(s + [NEWLINE]) == EndedLines(s) + [OpenLine(s)]
  {
    assert (s + [NEWLINE])[..|s + [NEWLINE]| - 1] == s;
  }

  /** The log so far: a line over the limit is logged before its newline comes. */
  function LoggedSoFar(s: Bytes): seq<Record> {
    LogOfLines(EndedLines(s)) + if |OpenLine(s)| > STDERR_LOG_LIMIT then Logged(OpenLine(s)) else []
  }

  function Append(log: seq<Record>, raw: Bytes, truncated: bool): seq<Record> {
    if raw == [] then log else log + [Record(raw, truncated)]
  }

  /** How the reader's variables stand after the bytes `s`. */
  ghost predicate Reads(s: Bytes, pending: Bytes, discarding: bool, log: seq<Record>) {
    && (discarding <==> |OpenLine(s)| > STDERR_LOG_LIMIT)
    && pending == (if discarding then [] else OpenLine(s))
    && log == LoggedSoFar(s)
  }

  lemma LogOneLine(lines: seq<Bytes>, line: Bytes)
    ensures LogOfLines(lines + [line]) == LogOfLines(lines) + Logged(line)
  {
    assert (lines + [line])[..|lines + [line]| - 1] == lines;
  }

  /** Bytes without a newline that still fit are kept. */
  lemma ReadsPart(s: Bytes, part: Bytes, pending: Bytes, log: seq<Record>)
    requires Reads(s, pending, false, log) && NEWLINE !in part && |pending| + |part| <= STDERR_LOG_LIMIT
    ensures Reads(s + part, pending + part, false, log)
  {
    FeedPlain(s, part);
  }

  /** Bytes without a newline that no longer fit end the log entry. */
  lemma ReadsOverflow(s: Bytes, part: Bytes, pending: Bytes, log: seq<Record>)
    requires Reads(s, pending, false, log) && NEWLINE !in part && |pending| + |part| > STDERR_LOG_LIMIT
    ensures Reads(s + part, [], true, Append(log, pending + part[..STDERR_LOG_LIMIT - |pending|], true))
  {
    FeedPlain(s, part);
    assert (pending + part)[..STDERR_LOG_LIMIT] == pending + part[..STDERR_LOG_LIMIT - |pending|];
  }

  lemma ReadsDiscarded(s: Bytes, part: Bytes, log: seq<Record>)
    requires Reads(s, [], true, log) && NEWLINE !in part
    ensures Reads(s + part, [], true, log)
  {
    FeedPlain(s, part);
    var line := OpenLine(s);
    assert (line + part)[..STDERR_LOG_LIMIT] == line[..STDERR_LOG_LIMIT];
  }

  lemma ReadsNewline(s: Bytes, pending: Bytes, discarding: bool, log: seq<Record>)
    requires Reads(s, pending, discarding, log)
    ensures Reads(s + [NEWLINE], [], false, if discarding then log else Append(log, pending, false))
  {
    FeedNewline(s);
    LogOneLine(EndedLines(s), OpenLine(s));
  }

  lemma ReadsEnd(s: Bytes, pending: Bytes, discarding: bool, log: seq<Record>)
    requires Reads(s, pending, discarding, log)
    ensures LogOf(s) == if discarding then log else Append(log, pending, false)
  {
    LogOneLine(EndedLines(s), OpenLine(s));
  }

  // ---------------------------------------------------------------------
  // The reader
  // ---------------------------------------------------------------------

  /** `find` of a newline from an offset; the length stands for "none". */
  function FindNewline(chunk: Bytes, offset: nat): (end: nat)
    requires offset <= |chunk|
    ensures offset <= end <= |chunk| && NEWLINE !in chunk[offset..end]
    ensures end < |chunk| ==> chunk[end] == NEWLINE
    decreases |chunk| - offset
  {
    if offset == |chunk| || chunk[offset] == NEWLINE then offset else
      var end := FindNewline(chunk, offset + 1);
      assert chunk[offset..end] == [chunk[offset]] + chunk[offset + 1..end];
      end
  }

  /** `_log_stderr`: an empty line is not logged. */
  method LogStderr(log: seq<Record>, raw: Bytes, truncated: bool) returns (logged: seq<Record>)
    ensures logged == Append(log, raw, truncated)
  {
    if raw == [] { return log; }
    logged := log + [Record(raw, truncated)];
  }

  lemma DiscardingKeepsNothing(s: Bytes, pending: Bytes, log: seq<Record>)
    requires Reads(s, pending, true, log)
    ensures pending == []
  {
  }

  lemma KeptFits(s: Bytes, pending: Bytes, log: seq<Record>)
    requires Reads(s, pending, false, log)
    ensures |pending| <= STDERR_LOG_LIMIT
  {
  }

  /** The bytes read when the reader stands at an offset of a chunk. */
  function At(seen: Bytes, chunk: Bytes, offset: nat): Bytes
    requires offset <= |chunk|
  {
    seen + chunk[..offset]
  }

  lemma AtEnds(seen: Bytes, chunk: Bytes)
    ensures At(seen, chunk, 0) == seen && At(seen, chunk, |chunk|) == seen + chunk
  {
  }

  /** From an offset to the next newline or the end of the chunk. */
  lemma AtSegment(seen: Bytes, chunk: Bytes, offset: nat, end: nat)
    requires offset <= end <= |chunk|
    ensures At(seen, chunk, offset) + chunk[offset..end] == At(seen, chunk, end)
    ensures end < |chunk| && chunk[end] == NEWLINE ==> At(seen, chunk, end) + [NEWLINE] == At(seen, chunk, end + 1)
  {
  }

  /** One chunk of `_read_stderr`. */
  method ReadChunk(chunk: Bytes, ghost seen: Bytes, pending: Bytes, discarding: bool, log: seq<Record>)
    returns (kept: Bytes, skipping: bool, logged: seq<Record>)
    requires Reads(seen, pending, discarding, log)
    ensures Reads(seen + chunk, kept, skipping, logged)
  {
    hide Reads, At, Append;
    kept, skipping, logged := pending, discarding, log;
    var offset := 0;
    AtEnds(seen, chunk);
    while offset < |chunk|
      invariant 0 <= offset <= |chunk|
      invariant Reads(At(seen, chunk, offset), kept, skipping, logged)
    {
      ghost var done := At(seen, chunk, offset);
      var end := FindNewline(chunk, offset);
      var segment := chunk[offset..end];
      AtSegment(seen, chunk, offset, end);
      if skipping {
        DiscardingKeepsNothing(done, kept, logged);
        ReadsDiscarded(done, segment, logged);
        if end == |chunk| { break; }
        ReadsNewline(done + segment, [], true, logged);
        offset := end + 1;
        skipping := false;
        continue;
      }
      KeptFits(done, kept, logged);
      var capacity := STDERR_LOG_LIMIT - |kept|;
      if |segment| > capacity {
        ReadsOverflow(done, segment, kept, logged);
        kept := kept + segment[..capacity];
        logged := LogStderr(logged, kept, true);
        kept := [];
        if end == |chunk| {
          skipping := true;
          break;
        }
        ReadsNewline(done + segment, [], true, logged);
        offset := end + 1;
        continue;
      }
      ReadsPart(done, segment, kept, logged);
      kept := kept + segment;
      if end == |chunk| { break; }
      ReadsNewline(done + segment, kept, false, logged);
      logged := LogStderr(logged, kept, false);
      kept := [];
      offset := end + 1;
    }
  }

  lemma ReadsNothing()
    ensures Reads([], [], false, [])
  {
  }

  lemma StreamStep(chunks: seq<Bytes>, k: nat)
    requires k <= |chunks|
    ensures k == |chunks| || chunks[k] == [] ==> Stream(chunks[k..]) == []
    ensures k < |chunks| && chunks[k] != [] ==> Stream(chunks[k..]) == chunks[k] + Stream(chunks[k + 1..])
  {
    if k < |chunks| { assert chunks[k..][1..] == chunks[k + 1..]; }
  }

  /** The log depends only on the bytes, however the reads cut them into chunks. */
  method ReadStderr(chunks: seq<Bytes>) returns (log: seq<Record>)
    ensures log == LogOf(Stream(chunks))
  {
    hide *;
    var pending: Bytes := [];
    var discarding := false;
    log := [];
    var k := 0;
    ghost var seen: Bytes := [];
    ReadsNothing();
    assert chunks[0..] == chunks;
    while k < |chunks| && chunks[k] != []
      invariant 0 <= k <= |chunks|
      invariant Reads(seen, pending, discarding, log)
      invariant Stream(chunks) == seen + Stream(chunks[k..])
    {
      StreamStep(chunks, k);
      pending, discarding, log := ReadChunk(chunks[k], seen, pending, discarding, log);
      seen := seen + chunks[k];
      k := k + 1;
    }
    StreamStep(chunks, k);
    assert seen + [] == seen;
    ReadsEnd(seen, pending, discarding, log);
    if discarding { DiscardingKeepsNothing(seen, pending, log); }
    if pending != [] {
      log := LogStderr(log, pending, false);
    } else {
      NothingAppended(log);
    }
  }

  lemma NothingAppended(log: seq<Record>)
    ensures Append(log, [], false) == log
  {
  }
}
