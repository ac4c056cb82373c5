/** Workload log capture: two output streams are split into entries that go through one
    write chain into one file. Chunks of the streams, completed writes and stream ends
    interleave freely. */
module WorkloadLog {
  import opened Sequences
  import opened Lines

  datatype Stream = Stdout | Stderr

  /** What was removed behind a message. It is not written to the file; it is kept here to
      state that nothing else was removed. */
  datatype Ending = Newline | CrNewline | Cut

  datatype Entry = Entry(stream: Stream, message: string, ending: Ending)

  /** `MAX_UNTERMINATED_BYTES`. */
  const MaxUnterminated: nat := 1024 * 1024

  // ---- specification ----

  function EndingText(e: Ending): string {
    match e
    case Newline => ['\n']
    case CrNewline => ['\r', '\n']
    case Cut => []
  }

  /** The part of its stream that an entry stands for. */
  function Covers(e: Entry): string {
    e.message + EndingText(e.ending)
  }

  function Text(entries: seq<Entry>): string {
    if entries == [] then [] else Text(entries[..|entries| - 1]) + Covers(entries[|entries| - 1])
  }

  function LineEntry(s: Stream, line: string): Entry {
    if line != [] && line[|line| - 1] == '\r' then Entry(s, line[..|line| - 1], CrNewline)
    else Entry(s, line, Newline)
  }

  function LineEntries(s: Stream, lines: seq<string>): seq<Entry> {
    if lines == [] then [] else LineEntries(s, lines[..|lines| - 1]) + [LineEntry(s, lines[|lines| - 1])]
  }

  /** A drain: the entries it has produced and the text it still buffers. */
  datatype DrainState = DrainState(entries: seq<Entry>, buffer: string)

  /** One chunk: an entry per completed line; a rest that reached the limit is cut off. */
  function Feed(s: Stream, limit: nat, d: DrainState, chunk: string): DrainState {
    var all := d.buffer + chunk;
    var entries := d.entries + LineEntries(s, Complete(all));
    if |Rest(all)| >= limit then DrainState(entries + [Entry(s, Rest(all), Cut)], [])
    else DrainState(entries, Rest(all))
  }

  function FeedAll(s: Stream, limit: nat, chunks: seq<string>): DrainState {
    if chunks == [] then DrainState([], [])
    else Feed(s, limit, FeedAll(s, limit, chunks[..|chunks| - 1]), chunks[|chunks| - 1])
  }

  /** The end of a stream: a non-empty rest becomes the last entry. */
  function Flush(s: Stream, d: DrainState): seq<Entry> {
    if d.buffer != [] then d.entries + [Entry(s, d.buffer, Cut)] else d.entries
  }

  /** The entries of one stream in a merged log. */
  function Of(s: Stream, log: seq<Entry>): seq<Entry> {
    if log == [] then []
    else Of(s, log[..|log| - 1]) + if log[|log| - 1].stream == s then [log[|log| - 1]] else []
  }

  // ---- lemmas about entries ----

  lemma TextAppend(entries: seq<Entry>, e: Entry)
    ensures Text(entries + [e]) == Text(entries) + Covers(e)
  {
    assert (entries + [e])[..|entries|] == entries;
  }

  lemma {:induction false} TextConcat(a: seq<Entry>, b: seq<Entry>)
    ensures Text(a + b) == Text(a) + Text(b)
  {
    if b == [] {
      NothingAdded(a);
      NothingAdded(Text(a));
    } else {
      var n := |b| - 1;
      TextConcat(a, b[..n]);
      LastOut(b);
      Assoc(a, b[..n], [b[n]]);
      TextAppend(a + b[..n], b[n]);
      Assoc(Text(a), Text(b[..n]), Covers(b[n]));
    }
  }

  lemma OfAppend(s: Stream, log: seq<Entry>, e: Entry)
    ensures Of(s, log + [e]) == Of(s, log) + if e.stream == s then [e] else []
  {
    assert (log + [e])[..|log|] == log;
  }

  lemma {:induction false} OfConcat(s: Stream, a: seq<Entry>, b: seq<Entry>)
    ensures Of(s, a + b) == Of(s, a) + Of(s, b)
  {
    if b == [] {
      NothingAdded(a);
      NothingAdded(Of(s, a));
    } else {
      var n := |b| - 1;
      OfConcat(s, a, b[..n]);
      LastOut(b);
      Assoc(a, b[..n], [b[n]]);
      OfAppend(s, a + b[..n], b[n]);
      Assoc(Of(s, a), Of(s, b[..n]), if b[n].stream == s then [b[n]] else []);
    }
  }

  /** A drain's entries all belong to its stream. */
  lemma {:induction false} OfOwn(s: Stream, t: Stream, log: seq<Entry>)
    requires forall i :: 0 <= i < |log| ==> log[i].stream == s
    ensures Of(t, log) == if t == s then log else []
  {
    if log != [] {
      OfOwn(s, t, log[..|log| - 1]);
      LastOut(log);
    }
  }

  lemma {:induction false} LineEntriesOwn(s: Stream, lines: seq<string>)
    ensures |LineEntries(s, lines)| == |lines|
    ensures forall i :: 0 <= i < |lines| ==> LineEntries(s, lines)[i] == LineEntry(s, lines[i])
  {
    if lines != [] {
      var n := |lines| - 1;
      LineEntriesOwn(s, lines[..n]);
      assert LineEntries(s, lines) == LineEntries(s, lines[..n]) + [LineEntry(s, lines[n])];
      forall i | 0 <= i < |lines| ensures LineEntries(s, lines)[i] == LineEntry(s, lines[i]) {
        assert i < n ==> LineEntries(s, lines[..n])[i] == LineEntry(s, lines[i]);
      }
    }
  }

  lemma LineEntriesAppend(s: Stream, lines: seq<string>, line: string)
    ensures LineEntries(s, lines + [line]) == LineEntries(s, lines) + [LineEntry(s, line)]
  {
    assert (lines + [line])[..|lines|] == lines;
  }

  lemma LineEntryCovers(s: Stream, line: string)
    ensures Covers(LineEntry(s, line)) == line + ['\n']
  {
    if line != [] && line[|line| - 1] == '\r' {
      LastOut(line);
      Assoc(line[..|line| - 1], ['\r'], ['\n']);
      assert ['\r'] + ['\n'] == ['\r', '\n'];
    }
  }

  lemma {:induction false} LineEntriesText(s: Stream, lines: seq<string>)
    ensures Text(LineEntries(s, lines)) == Join(lines)
  {
    if lines != [] {
      var n := |lines| - 1;
      LineEntriesText(s, lines[..n]);
      TextAppend(LineEntries(s, lines[..n]), LineEntry(s, lines[n]));
      LineEntryCovers(s, lines[n]);
    }
  }

  // ---- one stream ----

  /** Between chunks the buffer is newline-free and below the limit, and together with the
      entries it is exactly the text received so far. */
  lemma {:induction false} DrainConserves(s: Stream, limit: nat, chunks: seq<string>)
    requires limit > 0
    ensures var d := FeedAll(s, limit, chunks);
            Text(d.entries) + d.buffer == Concat(chunks) && OneLine(d.buffer) && |d.buffer| < limit
  {
    if chunks != [] {
      var n := |chunks| - 1;
      DrainConserves(s, limit, chunks[..n]);
      FeedConserves(s, limit, FeedAll(s, limit, chunks[..n]), chunks[n]);
    }
  }

  lemma FeedConserves(s: Stream, limit: nat, d: DrainState, chunk: string)
    requires limit > 0
    ensures var e := Feed(s, limit, d, chunk);
            Text(e.entries) + e.buffer == Text(d.entries) + d.buffer + chunk
            && OneLine(e.buffer) && |e.buffer| < limit
  {
    var all := d.buffer + chunk;
    var lines, rest := Complete(all), Rest(all);
    var entries := d.entries + LineEntries(s, lines);
    RestIsOneLine(all);
    calc {
      Text(entries) + rest;
      { TextConcat(d.entries, LineEntries(s, lines)); LineEntriesText(s, lines); }
      Text(d.entries) + Join(lines) + rest;
      { Assoc(Text(d.entries), Join(lines), rest); SplitRestores(all); }
      Text(d.entries) + all;
      { Assoc(Text(d.entries), d.buffer, chunk); }
      Text(d.entries) + d.buffer + chunk;
    }
    if |rest| >= limit {
      TextAppend(entries, Entry(s, rest, Cut));
      NothingAdded(rest);
      NothingAdded(Text(entries) + rest);
    }
  }

  /** All entries of a stream, with what was removed behind them, are that stream. */
  lemma StreamConserved(s: Stream, limit: nat, chunks: seq<string>)
    requires limit > 0
    ensures Text(Flush(s, FeedAll(s, limit, chunks))) == Concat(chunks)
  {
    var d := FeedAll(s, limit, chunks);
    DrainConserves(s, limit, chunks);
    if d.buffer != [] {
      TextAppend(d.entries, Entry(s, d.buffer, Cut));
      NothingAdded(d.buffer);
    } else {
      NothingAdded(Text(d.entries));
    }
  }

  /** A message is one line, and no carriage return is left before its newline. */
  predicate Clean(e: Entry) {
    && OneLine(e.message)
    && (e.ending.Newline? ==> e.message == [] || e.message[|e.message| - 1] != '\r')
  }

  ghost predicate AllClean(entries: seq<Entry>) {
    forall i :: 0 <= i < |entries| ==> Clean(entries[i])
  }

  lemma LinesAreClean(s: Stream, text: string)
    ensures AllClean(LineEntries(s, Complete(text)))
  {
    var lines := Complete(text);
    LinesAreOneLine(text);
    LineEntriesOwn(s, lines);
    forall i | 0 <= i < |lines| ensures Clean(LineEntries(s, lines)[i]) {
      assert lines[i] in lines;
    }
  }

  lemma FeedStaysClean(s: Stream, limit: nat, d: DrainState, chunk: string)
    requires AllClean(d.entries)
    ensures AllClean(Feed(s, limit, d, chunk).entries) && OneLine(Feed(s, limit, d, chunk).buffer)
  {
    LinesAreClean(s, d.buffer + chunk);
    RestIsOneLine(d.buffer + chunk);
  }

  lemma {:induction false} DrainIsClean(s: Stream, limit: nat, chunks: seq<string>)
    ensures AllClean(FeedAll(s, limit, chunks).entries) && OneLine(FeedAll(s, limit, chunks).buffer)
  {
    if chunks != [] {
      DrainIsClean(s, limit, chunks[..|chunks| - 1]);
      FeedStaysClean(s, limit, FeedAll(s, limit, chunks[..|chunks| - 1]), chunks[|chunks| - 1]);
    }
  }

  /** The messages of a stream, however it is cut into chunks, hold no newline, and none ends in
      the carriage return of its line. */
  lemma MessagesAreClean(s: Stream, limit: nat, chunks: seq<string>)
    ensures AllClean(Flush(s, FeedAll(s, limit, chunks)))
  {
    DrainIsClean(s, limit, chunks);
  }

  /** The entries of a stream none of whose lines is cut. */
  function Whole(s: Stream, text: string): seq<Entry> {
    LineEntries(s, Complete(text)) + if Rest(text) != [] then [Entry(s, Rest(text), Cut)] else []
  }

  /** No chunk but one that completes the stream ends inside a line that is already as long as
      the limit. */
  ghost predicate NoLongRun(limit: nat, chunks: seq<string>) {
    forall k :: 0 <= k <= |chunks| ==> !BreaksLongRun(limit, chunks, k)
  }

  /** The first `k` chunks end inside such a line, and more text follows. */
  predicate BreaksLongRun(limit: nat, chunks: seq<string>, k: nat)
    requires k <= |chunks|
  {
    |Concat(chunks[..k])| < |Concat(chunks)| && |Rest(Concat(chunks[..k]))| >= limit
  }

  /** A drain that has not cut a line apart. */
  function Settled(s: Stream, limit: nat, text: string): DrainState {
    var lines := LineEntries(s, Complete(text));
    if |Rest(text)| >= limit then DrainState(lines + [Entry(s, Rest(text), Cut)], [])
    else DrainState(lines, Rest(text))
  }

  lemma FlushSettled(s: Stream, limit: nat, text: string)
    requires limit > 0
    ensures Flush(s, Settled(s, limit, text)) == Whole(s, text)
  {
    NothingAdded(LineEntries(s, Complete(text)));
  }

  /** An empty chunk changes nothing. */
  lemma FeedNothing(s: Stream, limit: nat, d: DrainState)
    requires OneLine(d.buffer) && |d.buffer| < limit
    ensures Feed(s, limit, d, []) == d
  {
    NothingAdded(d.buffer);
    SplitNone(d.buffer);
    NothingAdded(d.entries);
  }

  lemma FeedSettled(s: Stream, limit: nat, text: string, chunk: string)
    requires |Rest(text)| < limit
    ensures Feed(s, limit, Settled(s, limit, text), chunk) == Settled(s, limit, text + chunk)
  {
    SplitAppend(text, chunk);
    LineEntriesConcat(s, Complete(text), Complete(Rest(text) + chunk));
  }

  lemma NoLongRunBefore(limit: nat, chunks: seq<string>)
    requires NoLongRun(limit, chunks) && chunks != []
    ensures NoLongRun(limit, chunks[..|chunks| - 1])
  {
    var n := |chunks| - 1;
    forall k | 0 <= k <= n ensures !BreaksLongRun(limit, chunks[..n], k) {
      assert chunks[..n][..k] == chunks[..k];
      assert !BreaksLongRun(limit, chunks, k);
    }
  }

  lemma {:induction false} UncutDrain(s: Stream, limit: nat, chunks: seq<string>)
    requires limit > 0 && NoLongRun(limit, chunks)
    ensures FeedAll(s, limit, chunks) == Settled(s, limit, Concat(chunks))
  {
    if chunks != [] {
      var n := |chunks| - 1;
      var before, chunk := chunks[..n], chunks[n];
      NoLongRunBefore(limit, chunks);
      UncutDrain(s, limit, before);
      if chunk == [] {
        NothingAdded(Concat(before));
        DrainConserves(s, limit, before);
        FeedNothing(s, limit, FeedAll(s, limit, before));
      } else {
        assert !BreaksLongRun(limit, chunks, n);
        FeedSettled(s, limit, Concat(before), chunk);
      }
    }
  }

  lemma {:induction false} LineEntriesConcat(s: Stream, a: seq<string>, b: seq<string>)
    ensures LineEntries(s, a + b) == LineEntries(s, a) + LineEntries(s, b)
  {
    if b == [] {
      NothingAdded(a);
      NothingAdded(LineEntries(s, a));
    } else {
      var n := |b| - 1;
      LineEntriesConcat(s, a, b[..n]);
      LastOut(b);
      Assoc(a, b[..n], [b[n]]);
      LineEntriesAppend(s, a + b[..n], b[n]);
      Assoc(LineEntries(s, a), LineEntries(s, b[..n]), [LineEntry(s, b[n])]);
    }
  }

  // ---- cuts ----

  lemma {:induction false} NewlineCount(x: string, y: string)
    ensures |Complete(x + y)| == |Complete(x)| + |Complete(y)|
  {
    if y == [] {
      NothingAdded(x);
    } else {
      var z, c := y[..|y| - 1], y[|y| - 1];
      NewlineCount(x, z);
      LastOut(y);
      Assoc(x, z, [c]);
      SplitGrows(x + z, c);
    }
  }

  /** The rest of a text is empty exactly behind a newline. */
  lemma RestIsEmpty(x: string, chunk: string)
    requires chunk != []
    ensures Rest(x + chunk) == [] <==> chunk[|chunk| - 1] == '\n'
  {
    assert (x + chunk)[|x + chunk| - 1] == chunk[|chunk| - 1];
  }

  /** How many entries a drain has beyond the complete lines: the cuts so far. */
  function Cuts(s: Stream, limit: nat, chunks: seq<string>): int {
    |FeedAll(s, limit, chunks).entries| - |Complete(Concat(chunks))|
  }

  lemma FeedCount(s: Stream, limit: nat, d: DrainState, chunk: string)
    requires OneLine(d.buffer)
    ensures |Feed(s, limit, d, chunk).entries| ==
              |d.entries| + |Complete(chunk)| + if |Rest(d.buffer + chunk)| >= limit then 1 else 0
  {
    NewlineCount(d.buffer, chunk);
    SplitNone(d.buffer);
    LineEntriesOwn(s, Complete(d.buffer + chunk));
  }

  /** One more chunk adds a cut or none; and while there was none, the buffer is the rest. */
  lemma {:induction false} CutsGrow(s: Stream, limit: nat, chunks: seq<string>)
    requires limit > 0
    ensures Cuts(s, limit, chunks) >= 0
    ensures chunks != [] ==> Cuts(s, limit, chunks) >= Cuts(s, limit, chunks[..|chunks| - 1])
    ensures Cuts(s, limit, chunks) == 0 ==> FeedAll(s, limit, chunks).buffer == Rest(Concat(chunks))
  {
    if chunks != [] {
      var before, chunk := chunks[..|chunks| - 1], chunks[|chunks| - 1];
      CutsGrow(s, limit, before);
      DrainConserves(s, limit, before);
      FeedCount(s, limit, FeedAll(s, limit, before), chunk);
      NewlineCount(Concat(before), chunk);
      SplitAppend(Concat(before), chunk);
    }
  }

  lemma {:induction false} CutsStay(s: Stream, limit: nat, chunks: seq<string>, k: nat)
    requires limit > 0 && k <= |chunks|
    ensures Cuts(s, limit, chunks[..k]) <= Cuts(s, limit, chunks)
  {
    if k == |chunks| {
      assert chunks[..k] == chunks;
    } else {
      var before := chunks[..|chunks| - 1];
      assert before[..k] == chunks[..k];
      CutsStay(s, limit, before, k);
      CutsGrow(s, limit, chunks);
    }
  }

  /** Inside a line as long as the limit there has been a cut. */
  lemma LongRunIsCut(s: Stream, limit: nat, chunks: seq<string>)
    requires limit > 0 && |Rest(Concat(chunks))| >= limit
    ensures Cuts(s, limit, chunks) >= 1
  {
    CutsGrow(s, limit, chunks);
    DrainConserves(s, limit, chunks);
  }

  lemma WholeCount(s: Stream, text: string)
    ensures |Whole(s, text)| == |Complete(text)| + if Rest(text) == [] then 0 else 1
  {
    LineEntriesOwn(s, Complete(text));
  }

  /** What the last chunk that is not empty leaves behind: the entries of the whole lines, and
      the cuts before it on top. */
  lemma FlushCount(s: Stream, limit: nat, before: seq<string>, chunk: string)
    requires limit > 0 && chunk != []
    ensures var d := FeedAll(s, limit, before);
            |Flush(s, Feed(s, limit, d, chunk))| == |Whole(s, Concat(before) + chunk)| + Cuts(s, limit, before)
  {
    var d, text := FeedAll(s, limit, before), Concat(before) + chunk;
    DrainConserves(s, limit, before);
    FeedCount(s, limit, d, chunk);
    NewlineCount(Concat(before), chunk);
    WholeCount(s, text);
    RestIsEmpty(d.buffer, chunk);
    RestIsEmpty(Concat(before), chunk);
  }

  /** A long run that is broken leaves more entries than the stream has lines. */
  lemma {:induction false} BrokenRunShows(s: Stream, limit: nat, chunks: seq<string>, k: nat)
    requires limit > 0 && k <= |chunks| && BreaksLongRun(limit, chunks, k)
    ensures |Flush(s, FeedAll(s, limit, chunks))| > |Whole(s, Concat(chunks))|
  {
    assert chunks[..|chunks|] == chunks;
    var n := |chunks| - 1;
    var before, chunk := chunks[..n], chunks[n];
    assert before[..k] == chunks[..k];
    if chunk == [] {
      NothingAdded(Concat(before));
      BrokenRunShows(s, limit, before, k);
      DrainConserves(s, limit, before);
      FeedNothing(s, limit, FeedAll(s, limit, before));
    } else {
      LongRunIsCut(s, limit, chunks[..k]);
      CutsStay(s, limit, before, k);
      FlushCount(s, limit, before, chunk);
    }
  }

  /** A way of cutting a stream into chunks leaves no trace in the entries if and only if no
      chunk but one that completes the stream ends inside a run that has reached the limit. */
  lemma CutsAreInvisibleExactly(s: Stream, limit: nat, chunks: seq<string>)
    requires limit > 0
    ensures Flush(s, FeedAll(s, limit, chunks)) == Whole(s, Concat(chunks)) <==> NoLongRun(limit, chunks)
  {
    if NoLongRun(limit, chunks) {
      UncutDrain(s, limit, chunks);
      FlushSettled(s, limit, Concat(chunks));
    } else {
      var k :| 0 <= k <= |chunks| && BreaksLongRun(limit, chunks, k);
      BrokenRunShows(s, limit, chunks, k);
    }
  }

  /** Chunk independence of two given ways of cutting a stream. */
  lemma SameStreamSameEntries(s: Stream, limit: nat, a: seq<string>, b: seq<string>)
    requires limit > 0 && Concat(a) == Concat(b) && NoLongRun(limit, a) && NoLongRun(limit, b)
    ensures Flush(s, FeedAll(s, limit, a)) == Flush(s, FeedAll(s, limit, b))
  {
    CutsAreInvisibleExactly(s, limit, a);
    CutsAreInvisibleExactly(s, limit, b);
  }

  /** Every terminated line is shorter than the limit, and the rest no longer. */
  ghost predicate LinesFit(limit: nat, text: string) {
    (forall line <- Complete(text) :: |line| < limit) && |Rest(text)| <= limit
  }

  /** That is to say that no run reaches the limit before the text ends. */
  ghost predicate RunsFit(limit: nat, text: string) {
    forall k :: 0 <= k < |text| ==> |Rest(text[..k])| < limit
  }

  lemma {:induction false} FittingLines(limit: nat, text: string)
    requires limit > 0
    ensures RunsFit(limit, text) <==> LinesFit(limit, text)
  {
    if text != [] {
      var n := |text| - 1;
      var front := text[..n];
      FittingLines(limit, front);
      RunsFitGrows(limit, text);
      LastOut(text);
      SplitGrows(front, text[n]);
      assert text[n] == '\n' ==> forall line :: line in Complete(text) <==> line in Complete(front) || line == Rest(front);
    }
  }

  lemma RunsFitGrows(limit: nat, text: string)
    requires text != []
    ensures var n := |text| - 1;
            RunsFit(limit, text) <==> RunsFit(limit, text[..n]) && |Rest(text[..n])| < limit
  {
    var n := |text| - 1;
    forall k | 0 <= k < n ensures text[..n][..k] == text[..k] {
    }
    if RunsFit(limit, text[..n]) && |Rest(text[..n])| < limit {
      forall k | 0 <= k < |text| ensures |Rest(text[..k])| < limit {
        assert k < n ==> |Rest(text[..n][..k])| < limit;
      }
    }
    if RunsFit(limit, text) {
      forall k | 0 <= k < n ensures |Rest(text[..n][..k])| < limit {
        assert |Rest(text[..k])| < limit;
      }
    }
  }

  lemma {:induction false} ConcatPrefix(chunks: seq<string>, k: nat)
    requires k <= |chunks|
    ensures Concat(chunks[..k]) <= Concat(chunks)
  {
    if k == |chunks| {
      assert chunks[..k] == chunks;
    } else {
      assert chunks[..|chunks| - 1][..k] == chunks[..k];
      ConcatPrefix(chunks[..|chunks| - 1], k);
    }
  }

  lemma FittingTextIsNotBroken(limit: nat, chunks: seq<string>)
    requires RunsFit(limit, Concat(chunks))
    ensures NoLongRun(limit, chunks)
  {
    forall k | 0 <= k <= |chunks| ensures !BreaksLongRun(limit, chunks, k) {
      ConcatPrefix(chunks, k);
      assert Concat(chunks[..k]) == Concat(chunks)[..|Concat(chunks[..k])|];
    }
  }

  /** All ways of cutting a text into chunks give the same entries if and only if every line
      of the text is shorter than the limit and its unterminated rest no longer. */
  lemma ChunksDoNotMatterExactly(s: Stream, limit: nat, text: string)
    requires limit > 0
    ensures (forall a: seq<string>, b: seq<string> :: Concat(a) == text && Concat(b) == text ==>
               Flush(s, FeedAll(s, limit, a)) == Flush(s, FeedAll(s, limit, b)))
            <==> LinesFit(limit, text)
  {
    FittingLines(limit, text);
    if RunsFit(limit, text) {
      forall a: seq<string>, b: seq<string> | Concat(a) == text && Concat(b) == text
        ensures Flush(s, FeedAll(s, limit, a)) == Flush(s, FeedAll(s, limit, b))
      {
        FittingTextChunks(s, limit, a, b);
      }
    } else {
      var a, b := BreakLongRun(s, limit, text);
    }
  }

  lemma FittingTextChunks(s: Stream, limit: nat, a: seq<string>, b: seq<string>)
    requires limit > 0 && RunsFit(limit, Concat(a)) && Concat(a) == Concat(b)
    ensures Flush(s, FeedAll(s, limit, a)) == Flush(s, FeedAll(s, limit, b))
  {
    FittingTextIsNotBroken(limit, a);
    FittingTextIsNotBroken(limit, b);
    SameStreamSameEntries(s, limit, a, b);
  }

  /** The text in one chunk, and the text broken inside a long run. */
  lemma BreakLongRun(s: Stream, limit: nat, text: string) returns (a: seq<string>, b: seq<string>)
    requires limit > 0 && !RunsFit(limit, text)
    ensures Concat(a) == text && Concat(b) == text
    ensures Flush(s, FeedAll(s, limit, a)) != Flush(s, FeedAll(s, limit, b))
  {
    var k :| 0 <= k < |text| && |Rest(text[..k])| >= limit;
    a, b := [text], [text[..k], text[k..]];
    OneChunk(limit, text);
    TwoChunks(text[..k], text[k..]);
    assert text[..k] + text[k..] == text;
    CutsAreInvisibleExactly(s, limit, a);
    BrokenRunShows(s, limit, b, 1);
  }

  lemma OneChunk(limit: nat, text: string)
    requires limit > 0
    ensures Concat([text]) == text && NoLongRun(limit, [text])
  {
    var one := [text];
    assert one[..0] == [] && one[..1] == one;
    NothingAdded(text);
  }

  lemma TwoChunks(x: string, y: string)
    ensures Concat([x, y]) == x + y && Concat([x, y][..1]) == x
  {
    assert [x, y][..1] == [x] && [x][..0] == [];
    NothingAdded(x);
    assert Concat([x][..0]) == [];
    assert Concat([x]) == x;
  }

  /** For instance, a run that reaches the limit, sent in one chunk with its newline, is one
      entry; with the newline in a chunk of its own it is two. */
  lemma LongRunDependsOnChunks(s: Stream, limit: nat, run: string)
    requires limit > 0 && |run| >= limit && OneLine(run)
    ensures Flush(s, FeedAll(s, limit, [run + ['\n']])) == [LineEntry(s, run)]
    ensures Flush(s, FeedAll(s, limit, [run, ['\n']])) == [Entry(s, run, Cut), Entry(s, [], Newline)]
  {
    FeedOne(s, limit, run + ['\n']);
    FeedTwo(s, limit, run, ['\n']);
    FeedLine(s, limit, [], run);
    FeedRun(s, limit, [], run);
    FeedLine(s, limit, [Entry(s, run, Cut)], []);
    NothingAdded(['\n']);
  }

  /** A whole line in one chunk. */
  lemma FeedLine(s: Stream, limit: nat, entries: seq<Entry>, line: string)
    requires limit > 0 && OneLine(line)
    ensures Feed(s, limit, DrainState(entries, []), line + ['\n']) ==
              DrainState(entries + [LineEntry(s, line)], [])
  {
    NothingAdded(line + ['\n']);
    SplitNone(line);
    SplitGrows(line, '\n');
    NothingAdded([line]);
    OneLineEntry(s, line);
  }

  lemma OneLineEntry(s: Stream, line: string)
    ensures LineEntries(s, [line]) == [LineEntry(s, line)]
  {
    assert [line][..0] == [];
  }

  /** A run without a newline that reaches the limit. */
  lemma FeedRun(s: Stream, limit: nat, entries: seq<Entry>, run: string)
    requires OneLine(run) && |run| >= limit
    ensures Feed(s, limit, DrainState(entries, []), run) == DrainState(entries + [Entry(s, run, Cut)], [])
  {
    NothingAdded(run);
    SplitNone(run);
    NothingAdded(entries);
  }

  lemma FeedOne(s: Stream, limit: nat, x: string)
    ensures FeedAll(s, limit, [x]) == Feed(s, limit, DrainState([], []), x)
  {
    assert [x][..0] == [];
  }

  lemma FeedTwo(s: Stream, limit: nat, x: string, y: string)
    ensures FeedAll(s, limit, [x, y]) == Feed(s, limit, Feed(s, limit, DrainState([], []), x), y)
  {
    assert [x, y][..1] == [x];
    FeedOne(s, limit, x);
  }

  // ---- the capture ----

  /** What can happen next: a stream delivers a chunk or ends, a write completes or fails,
      or the file is closed. */
  datatype Event =
    | Chunk(stream: Stream, text: string)
    | End(stream: Stream)
    | WriteDone
    | WriteFails
    | Close

  /** The chunks a stream delivers before it ends. */
  function ChunksOf(s: Stream, events: seq<Event>): seq<string> {
    if events == [] then []
    else
      var before, e := events[..|events| - 1], events[|events| - 1];
      if e.Chunk? && e.stream == s && !Ended(s, before) then ChunksOf(s, before) + [e.text]
      else ChunksOf(s, before)
  }

  predicate Ended(s: Stream, events: seq<Event>) {
    End(s) in events
  }

  /** The entries of one stream after the given events. */
  function Expected(s: Stream, limit: nat, events: seq<Event>): seq<Entry> {
    var d := FeedAll(s, limit, ChunksOf(s, events));
    if Ended(s, events) then Flush(s, d) else d.entries
  }

  /** How one stream stands after `events`: its entries in the merged chain, whether it has
      ended, and the text its drain still buffers. */
  ghost predicate Tracks(s: Stream, limit: nat, events: seq<Event>, chain: seq<Entry>, buffer: string, ended: bool) {
    && Of(s, chain) == Expected(s, limit, events)
    && ended == Ended(s, events)
    && (!ended ==> buffer == FeedAll(s, limit, ChunksOf(s, events)).buffer)
  }

  /** Each stream's entries are in the log, complete and in order. */
  ghost predicate Interleaves(log: seq<Entry>, limit: nat, events: seq<Event>) {
    && Of(Stdout, log) == Flush(Stdout, FeedAll(Stdout, limit, ChunksOf(Stdout, events)))
    && Of(Stderr, log) == Flush(Stderr, FeedAll(Stderr, limit, ChunksOf(Stderr, events)))
  }

  /** Everything `captureWorkloadLogs` holds after `events`. */
  ghost predicate Standing(limit: nat, events: seq<Event>, v: View) {
    && Tracks(Stdout, limit, events, v.chain, v.outBuffer, v.outEnded)
    && Tracks(Stderr, limit, events, v.chain, v.errBuffer, v.errEnded)
    && v.written <= v.chain
    && (v.closed ==> v.outEnded && v.errEnded && (v.broken || v.written == v.chain))
    && WritesMean(events, v)
  }

  /** What the events say of the file: one entry for every write that completed, closed by a
      close, cut off by a failed write. */
  ghost predicate WritesMean(events: seq<Event>, v: View) {
    && |v.written| == multiset(events)[WriteDone]
    && (v.broken <==> WriteFails in events)
    && (v.closed <==> Close in events)
  }

  datatype View = View(
    chain: seq<Entry>,
    outBuffer: string, outEnded: bool,
    errBuffer: string, errEnded: bool,
    written: seq<Entry>, broken: bool, closed: bool)
  {
    function Buffer(s: Stream): string {
      if s.Stdout? then outBuffer else errBuffer
    }

    predicate HasEnded(s: Stream) {
      if s.Stdout? then outEnded else errEnded
    }

    function AfterChunk(s: Stream, buffer: string, more: seq<Entry>): View {
      if s.Stdout? then this.(chain := chain + more, outBuffer := buffer)
      else this.(chain := chain + more, errBuffer := buffer)
    }

    function AfterEnd(s: Stream): View {
      var all := if Buffer(s) != [] then chain + [Entry(s, Buffer(s), Cut)] else chain;
      if s.Stdout? then this.(chain := all, outEnded := true) else this.(chain := all, errEnded := true)
    }
  }

  function Fresh(): View {
    View([], [], false, [], false, [], false, false)
  }

  /** A stream delivers until it ends, the chain is written until a write fails, and the file
      is closed once, behind both drains and the chain. */
  predicate CanHappen(v: View, e: Event) {
    match e
    case Chunk(s, _) => !v.HasEnded(s)
    case End(s) => !v.HasEnded(s)
    case WriteDone => !v.broken && |v.written| < |v.chain|
    case WriteFails => !v.broken && |v.written| < |v.chain|
    case Close => v.outEnded && v.errEnded && (v.broken || |v.written| == |v.chain|) && !v.closed
  }

  function Next(limit: nat, v: View, e: Event): View
    requires CanHappen(v, e)
  {
    match e
    case Chunk(s, text) =>
      var d := Feed(s, limit, DrainState([], v.Buffer(s)), text);
      v.AfterChunk(s, d.buffer, d.entries)
    case End(s) => v.AfterEnd(s)
    case WriteDone => v.(written := v.chain[..|v.written| + 1])
    case WriteFails => v.(broken := true)
    case Close => v.(closed := true)
  }

  /** The capture after `events`; an event that cannot happen when its turn comes is passed
      over. */
  function Reached(limit: nat, events: seq<Event>): View {
    if events == [] then Fresh()
    else
      var v, e := Reached(limit, events[..|events| - 1]), events[|events| - 1];
      if CanHappen(v, e) then Next(limit, v, e) else v
  }

  /** The events that are not passed over. */
  function Happening(limit: nat, events: seq<Event>): seq<Event> {
    if events == [] then []
    else
      var before, e := events[..|events| - 1], events[|events| - 1];
      if CanHappen(Reached(limit, before), e) then Happening(limit, before) + [e] else Happening(limit, before)
  }

  /** Every event can happen when its turn comes. */
  ghost predicate AllHappen(limit: nat, events: seq<Event>) {
    forall k :: 0 <= k < |events| ==> CanHappen(Reached(limit, events[..k]), events[k])
  }

  /** Inside the loop: the lines `done` are split off, `buffer` is what is left. */
  ghost predicate SplitOff(all: string, buffer: string, done: seq<string>) {
    Rest(buffer) == Rest(all) && done + Complete(buffer) == Complete(all)
  }

  lemma SplitOneOff(all: string, buffer: string, done: seq<string>, line: string, more: string)
    requires SplitOff(all, buffer, done)
    requires Complete(buffer) == [line] + Complete(more) && Rest(buffer) == Rest(more)
    ensures SplitOff(all, more, done + [line])
  {
    Assoc(done, [line], Complete(more));
  }

  lemma AllSplitOff(all: string, buffer: string, done: seq<string>)
    requires SplitOff(all, buffer, done) && NewlineAt(buffer) == |buffer|
    ensures buffer == Rest(all) && done == Complete(all)
  {
    NoNewlineLeft(buffer);
    NothingAdded(done);
  }

  lemma EntriesGrow(s: Stream, base: seq<Entry>, done: seq<string>, line: string)
    ensures base + LineEntries(s, done + [line]) == base + LineEntries(s, done) + [LineEntry(s, line)]
  {
    LineEntriesAppend(s, done, line);
    Assoc(base, LineEntries(s, done), [LineEntry(s, line)]);
  }

  class Capture {
    const limit: nat
    var outBuffer: string
    var errBuffer: string
    var outEnded: bool
    var errEnded: bool
    var chain: seq<Entry>       // everything put on the write chain, in order
    var written: seq<Entry>     // what was appended to the file
    var broken: bool            // an append failed; the rest of the chain is skipped
    var closed: bool

    function Now(): View
      reads this
    {
      View(chain, outBuffer, outEnded, errBuffer, errEnded, written, broken, closed)
    }

    /** The capture after `events`. */
    ghost predicate After(events: seq<Event>)
      reads this
    {
      Standing(limit, events, Now())
    }

    constructor (limit: nat)
      ensures this.limit == limit && After([]) && Now() == Fresh()
    {
      this.limit := limit;
      outBuffer, errBuffer, outEnded, errEnded := [], [], false, false;
      chain, written, broken, closed := [], [], false, false;
    }

    method Enqueue(s: Stream, line: string, ending: Ending)
      modifies this`chain
      ensures chain == old(chain) + [Entry(s, line, ending)]
    {
      chain := chain + [Entry(s, line, ending)];
    }

    /** The inner loops of `drainStream`, on the buffer of one stream. */
    method DrainChunk(s: Stream, buffered: string, chunk: string) returns (buffer: string)
      modifies this`chain
      ensures chain == old(chain) + Feed(s, limit, DrainState([], buffered), chunk).entries
      ensures buffer == Feed(s, limit, DrainState([], buffered), chunk).buffer
    {
      buffer := buffered + chunk;
      ghost var all, base := buffer, chain;
      ghost var done: seq<string> := [];
      var newline := NewlineAt(buffer);
      NothingAdded(chain);
      NothingAdded(Complete(buffer));
      NothingAdded(LineEntries(s, Complete(all)));
      while newline < |buffer|
        invariant newline == NewlineAt(buffer)
        invariant SplitOff(all, buffer, done) && chain == base + LineEntries(s, done)
        decreases |buffer|
      {
        var line := buffer[..newline];
        CutFirst(buffer);
        SplitOneOff(all, buffer, done, line, buffer[newline + 1..]);
        EntriesGrow(s, base, done, line);
        done := done + [line];
        if |line| > 0 && line[|line| - 1] == '\r' {
          Enqueue(s, line[..|line| - 1], CrNewline);
        } else {
          Enqueue(s, line, Newline);
        }
        buffer := buffer[newline + 1..];
        newline := NewlineAt(buffer);
      }
      AllSplitOff(all, buffer, done);
      if |buffer| >= limit {
        Assoc(base, LineEntries(s, Complete(all)), [Entry(s, buffer, Cut)]);
        Enqueue(s, buffer, Cut);
        buffer := [];
      }
    }

    /** A chunk arrives on a stream that has not ended. */
    method OnChunk(s: Stream, chunk: string, ghost events: seq<Event>)
      requires After(events) && CanHappen(Now(), Chunk(s, chunk))
      modifies this`chain, this`outBuffer, this`errBuffer
      ensures After(events + [Chunk(s, chunk)]) && Now() == Next(limit, old(Now()), Chunk(s, chunk))
    {
      ghost var was := Now();
      var buffer := DrainChunk(s, if s.Stdout? then outBuffer else errBuffer, chunk);
      if s.Stdout? {
        outBuffer := buffer;
      } else {
        errBuffer := buffer;
      }
      assert Now() == Next(limit, was, Chunk(s, chunk));
      StepStands(limit, events, was, Chunk(s, chunk));
    }

    /** The end of a stream. */
    method OnEnd(s: Stream, ghost events: seq<Event>)
      requires After(events) && CanHappen(Now(), End(s))
      modifies this`chain, this`outEnded, this`errEnded
      ensures After(events + [End(s)]) && Now() == Next(limit, old(Now()), End(s))
    {
      ghost var was := Now();
      var buffer := if s.Stdout? then outBuffer else errBuffer;
      if |buffer| > 0 {
        Enqueue(s, buffer, Cut);
      }
      if s.Stdout? {
        outEnded := true;
      } else {
        errEnded := true;
      }
      assert Now() == Next(limit, was, End(s));
      StepStands(limit, events, was, End(s));
    }

    /** The next append of the write chain succeeds or fails. */
    method OnWrite(ok: bool, ghost events: seq<Event>)
      requires After(events) && CanHappen(Now(), if ok then WriteDone else WriteFails)
      modifies this`written, this`broken
      ensures After(events + [if ok then WriteDone else WriteFails])
      ensures Now() == Next(limit, old(Now()), if ok then WriteDone else WriteFails)
    {
      StepStands(limit, events, Now(), if ok then WriteDone else WriteFails);
      if ok {
        PrefixByOne(written, chain);
        written := written + [chain[|written|]];
      } else {
        broken := true;
      }
    }

    /** Both drains and then the write chain were awaited. */
    method OnClose(ghost events: seq<Event>)
      requires After(events) && CanHappen(Now(), Close)
      modifies this`closed
      ensures After(events + [Close]) && Now() == Next(limit, old(Now()), Close)
    {
      StepStands(limit, events, Now(), Close);
      closed := true;
    }
  }

  // ---- one event ----

  lemma ChunksGrow(s: Stream, events: seq<Event>, e: Event)
    ensures ChunksOf(s, events + [e]) ==
              if e.Chunk? && e.stream == s && !Ended(s, events) then ChunksOf(s, events) + [e.text]
              else ChunksOf(s, events)
    ensures Ended(s, events + [e]) <==> Ended(s, events) || e == End(s)
  {
    assert (events + [e])[..|events|] == events;
  }

  lemma PrefixGrows<T>(w: seq<T>, a: seq<T>, more: seq<T>)
    requires w <= a
    ensures w <= a + more
  {
  }

  lemma PrefixByOne<T>(w: seq<T>, a: seq<T>)
    requires w <= a && |w| < |a|
    ensures w + [a[|w|]] == a[..|w| + 1] <= a
  {
  }

  /** Events that concern no stream leave the expected entries alone. */
  lemma QuietStep(limit: nat, t: Stream, events: seq<Event>, e: Event, chain: seq<Entry>, buffer: string, ended: bool)
    requires !e.Chunk? && !e.End? && Tracks(t, limit, events, chain, buffer, ended)
    ensures Tracks(t, limit, events + [e], chain, buffer, ended)
  {
    ChunksGrow(t, events, e);
  }

  /** A drain adds to the entries it has, whatever they are. */
  lemma FeedFrom(s: Stream, limit: nat, d: DrainState, chunk: string)
    ensures Feed(s, limit, d, chunk) ==
              DrainState(d.entries + Feed(s, limit, DrainState([], d.buffer), chunk).entries,
                         Feed(s, limit, DrainState([], d.buffer), chunk).buffer)
  {
    var all := d.buffer + chunk;
    NothingAdded(LineEntries(s, Complete(all)));
    Assoc(d.entries, LineEntries(s, Complete(all)), [Entry(s, Rest(all), Cut)]);
  }

  lemma FeedOwn(s: Stream, limit: nat, buffer: string, chunk: string)
    ensures forall i :: 0 <= i < |Feed(s, limit, DrainState([], buffer), chunk).entries| ==>
              Feed(s, limit, DrainState([], buffer), chunk).entries[i].stream == s
  {
    LineEntriesOwn(s, Complete(buffer + chunk));
  }

  lemma FeedAllAppend(s: Stream, limit: nat, chunks: seq<string>, chunk: string)
    ensures FeedAll(s, limit, chunks + [chunk]) == Feed(s, limit, FeedAll(s, limit, chunks), chunk)
  {
    assert (chunks + [chunk])[..|chunks|] == chunks;
  }

  /** How a chunk of stream `s` moves the standing of stream `t`. */
  lemma ChunkStep(limit: nat, t: Stream, s: Stream, chunk: string, events: seq<Event>,
                  chain: seq<Entry>, buffer: string, ended: bool, buffered: string)
    requires Tracks(t, limit, events, chain, buffer, ended)
    requires t == s ==> buffered == buffer && !ended
    ensures var d := Feed(s, limit, DrainState([], buffered), chunk);
            Tracks(t, limit, events + [Chunk(s, chunk)], chain + d.entries,
                   if t == s then d.buffer else buffer, ended)
  {
    var more := Feed(s, limit, DrainState([], buffered), chunk).entries;
    ChunksGrow(t, events, Chunk(s, chunk));
    OfConcat(t, chain, more);
    FeedOwn(s, limit, buffered, chunk);
    OfOwn(s, t, more);
    if t == s {
      FeedAllAppend(s, limit, ChunksOf(s, events), chunk);
      FeedFrom(s, limit, FeedAll(s, limit, ChunksOf(s, events)), chunk);
    } else {
      NothingAdded(Of(t, chain));
    }
  }

  lemma EndStep(limit: nat, t: Stream, s: Stream, events: seq<Event>,
                chain: seq<Entry>, buffer: string, ended: bool, flushed: string)
    requires Tracks(t, limit, events, chain, buffer, ended)
    requires t == s ==> flushed == buffer && !ended
    ensures Tracks(t, limit, events + [End(s)],
                   if flushed != [] then chain + [Entry(s, flushed, Cut)] else chain, buffer, ended || t == s)
  {
    ChunksGrow(t, events, End(s));
    OfAppend(t, chain, Entry(s, flushed, Cut));
    NothingAdded(Of(t, chain));
  }

  lemma ChunkKeeps(limit: nat, s: Stream, chunk: string, events: seq<Event>, v: View)
    requires Standing(limit, events, v) && !v.HasEnded(s)
    ensures var d := Feed(s, limit, DrainState([], v.Buffer(s)), chunk);
            Standing(limit, events + [Chunk(s, chunk)], v.AfterChunk(s, d.buffer, d.entries))
  {
    ChunkStep(limit, Stdout, s, chunk, events, v.chain, v.outBuffer, v.outEnded, v.Buffer(s));
    ChunkStep(limit, Stderr, s, chunk, events, v.chain, v.errBuffer, v.errEnded, v.Buffer(s));
    PrefixGrows(v.written, v.chain, Feed(s, limit, DrainState([], v.Buffer(s)), chunk).entries);
    StreamsWriteNothing(events, Chunk(s, chunk), v);
  }

  lemma EndKeeps(limit: nat, s: Stream, events: seq<Event>, v: View)
    requires Standing(limit, events, v) && !v.HasEnded(s)
    ensures Standing(limit, events + [End(s)], v.AfterEnd(s))
  {
    EndStep(limit, Stdout, s, events, v.chain, v.outBuffer, v.outEnded, v.Buffer(s));
    EndStep(limit, Stderr, s, events, v.chain, v.errBuffer, v.errEnded, v.Buffer(s));
    PrefixGrows(v.written, v.chain, [Entry(s, v.Buffer(s), Cut)]);
    StreamsWriteNothing(events, End(s), v);
  }

  lemma StreamsWriteNothing(events: seq<Event>, e: Event, v: View)
    requires WritesMean(events, v) && (e.Chunk? || e.End?)
    ensures WritesMean(events + [e], v)
  {
  }

  lemma WriteKeeps(limit: nat, events: seq<Event>, v: View, e: Event)
    requires Standing(limit, events, v) && CanHappen(v, e) && !e.Chunk? && !e.End?
    ensures Standing(limit, events + [e], Next(limit, v, e))
  {
    QuietStep(limit, Stdout, events, e, v.chain, v.outBuffer, v.outEnded);
    QuietStep(limit, Stderr, events, e, v.chain, v.errBuffer, v.errEnded);
    WritesGrow(limit, events, v, e);
  }

  lemma WritesGrow(limit: nat, events: seq<Event>, v: View, e: Event)
    requires WritesMean(events, v) && CanHappen(v, e) && !e.Chunk? && !e.End?
    ensures WritesMean(events + [e], Next(limit, v, e))
  {
  }

  lemma StepStands(limit: nat, events: seq<Event>, v: View, e: Event)
    requires Standing(limit, events, v) && CanHappen(v, e)
    ensures Standing(limit, events + [e], Next(limit, v, e))
  {
    match e
    case Chunk(s, text) => ChunkKeeps(limit, s, text, events, v);
    case End(s) => EndKeeps(limit, s, events, v);
    case _ => WriteKeeps(limit, events, v, e);
  }

  lemma ReachedGrows(limit: nat, events: seq<Event>, e: Event)
    ensures var v := Reached(limit, events);
            && Reached(limit, events + [e]) == (if CanHappen(v, e) then Next(limit, v, e) else v)
            && Happening(limit, events + [e]) == Happening(limit, events) + if CanHappen(v, e) then [e] else []
  {
    assert (events + [e])[..|events|] == events;
    NothingAdded(Happening(limit, events));
  }

  lemma ReachedOn(limit: nat, events: seq<Event>, i: nat)
    requires i < |events|
    ensures var v, e := Reached(limit, events[..i]), events[i];
            && Reached(limit, events[..i + 1]) == (if CanHappen(v, e) then Next(limit, v, e) else v)
            && Happening(limit, events[..i + 1]) ==
                 if CanHappen(v, e) then Happening(limit, events[..i]) + [e] else Happening(limit, events[..i])
  {
    assert events[..i + 1][..i] == events[..i];
  }

  /** If every event can happen, none is passed over. */
  lemma {:induction false} NonePassedOver(limit: nat, events: seq<Event>)
    requires AllHappen(limit, events)
    ensures Happening(limit, events) == events
  {
    if events != [] {
      var before := events[..|events| - 1];
      forall k | 0 <= k < |before| ensures CanHappen(Reached(limit, before[..k]), before[k]) {
        assert before[..k] == events[..k];
      }
      NonePassedOver(limit, before);
      LastOut(events);
    }
  }

  /** What happened alone leads to the same capture, and nothing of it is passed over. */
  lemma {:induction false} HappeningAgain(limit: nat, events: seq<Event>)
    ensures Reached(limit, Happening(limit, events)) == Reached(limit, events)
    ensures Happening(limit, Happening(limit, events)) == Happening(limit, events)
  {
    if events != [] {
      var before, e := events[..|events| - 1], events[|events| - 1];
      HappeningAgain(limit, before);
      ReachedGrows(limit, Happening(limit, before), e);
    }
  }

  /** What can happen, told by what has happened: a stream delivers and ends until it has ended,
      the chain is written until a write failed or all is written, and the close comes once,
      behind both ends and the chain. */
  lemma CanHappenExactly(limit: nat, events: seq<Event>, v: View, s: Stream, text: string)
    requires Standing(limit, events, v)
    ensures CanHappen(v, Chunk(s, text)) <==> End(s) !in events
    ensures CanHappen(v, End(s)) <==> End(s) !in events
    ensures CanHappen(v, WriteDone) <==> WriteFails !in events && multiset(events)[WriteDone] < |v.chain|
    ensures CanHappen(v, WriteFails) <==> WriteFails !in events && multiset(events)[WriteDone] < |v.chain|
    ensures CanHappen(v, Close) <==>
              && End(Stdout) in events && End(Stderr) in events && Close !in events
              && (WriteFails in events || multiset(events)[WriteDone] == |v.chain|)
  {
  }

  /** Let one event happen to the capture, unless it cannot. */
  method Step(c: Capture, e: Event, ghost events: seq<Event>) returns (happens: bool)
    requires c.After(events)
    modifies c
    ensures happens <==> CanHappen(old(c.Now()), e)
    ensures c.Now() == if happens then Next(c.limit, old(c.Now()), e) else old(c.Now())
    ensures c.After(if happens then events + [e] else events)
  {
    happens := CanHappen(c.Now(), e);
    if happens {
      match e {
        case Chunk(s, text) => c.OnChunk(s, text, events);
        case End(s) => c.OnEnd(s, events);
        case WriteDone => c.OnWrite(true, events);
        case WriteFails => c.OnWrite(false, events);
        case Close => c.OnClose(events);
      }
    }
  }

  /** What a capture's standing says of the file. */
  lemma LogMeans(limit: nat, events: seq<Event>, v: View)
    requires Standing(limit, events, v) && v.closed
    ensures !v.broken ==> Interleaves(v.written, limit, events)
    ensures exists all: seq<Entry> :: Interleaves(all, limit, events) && v.written <= all
  {
    assert Interleaves(v.chain, limit, events);
  }

  method RunCapture(limit: nat, events: seq<Event>) returns (last: View, happened: seq<Event>)
    ensures last == Reached(limit, events) && happened == Happening(limit, events)
    ensures Standing(limit, happened, last)
  {
    var c := new Capture(limit);
    happened := [];
    var i := 0;
    while i < |events|
      invariant 0 <= i <= |events|
      invariant fresh(c) && c.limit == limit && c.After(happened)
      invariant c.Now() == Reached(limit, events[..i]) && happened == Happening(limit, events[..i])
    {
      ReachedOn(limit, events, i);
      var happens := Step(c, events[i], happened);
      if happens {
        happened := happened + [events[i]];
      }
      i := i + 1;
    }
    assert events[..i] == events;
    last := c.Now();
  }

  /** Run a capture through a sequence of events. `happened` are those that can happen when
      their turn comes, all of them if each can. The log has an entry for every write that
      completed. Once the file is closed without a failed write, it holds every entry of both
      streams: an interleaving in which each stream's entries are complete and in order. A
      failed write leaves a prefix of that. */
  method Replay(events: seq<Event>)
    returns (log: seq<Entry>, ok: bool, closed: bool, happened: seq<Event>)
    ensures happened == Happening(MaxUnterminated, events)
    ensures AllHappen(MaxUnterminated, events) ==> happened == events
    ensures closed <==> Close in happened
    ensures ok <==> WriteFails !in happened
    ensures |log| == multiset(happened)[WriteDone]
    ensures closed && ok ==> Interleaves(log, MaxUnterminated, happened)
    ensures closed ==> exists all: seq<Entry> :: Interleaves(all, MaxUnterminated, happened) && log <= all
  {
    var last: View;
    last, happened := RunCapture(MaxUnterminated, events);
    if AllHappen(MaxUnterminated, events) {
      NonePassedOver(MaxUnterminated, events);
    }
    if last.closed {
      LogMeans(MaxUnterminated, happened, last);
    }
    log, ok, closed := last.written, !last.broken, last.closed;
  }
}
