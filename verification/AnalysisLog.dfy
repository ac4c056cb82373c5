/** The analysis log drain: lines that report progress go to the progress tracker, all
    others to the log file, whatever the chunks the stream arrives in. */
module AnalysisLog {
  import opened Sequences
  import opened Wrappers
  import opened Lines

  datatype Progress = Progress(message: string, percent: nat)

  /** The progress-line pattern and its two captures. */
  type Parser = string -> Option<Progress>

  /** A trailing carriage return is not part of the line that is matched. */
  function StripCr(line: string): string {
    if line != [] && line[|line| - 1] == '\r' then line[..|line| - 1] else line
  }

  function ParseLine(parse: Parser, raw: string): Option<Progress> {
    parse(StripCr(raw))
  }

  /** A trailing carriage return makes no difference to what a line is. */
  lemma CrMakesNoDifference(parse: Parser, line: string)
    requires line == [] || line[|line| - 1] != '\r'
    ensures ParseLine(parse, line + ['\r']) == ParseLine(parse, line) == parse(line)
  {
    assert (line + ['\r'])[..|line|] == line;
  }

  // ---- the specification: whole lines of the whole stream ----

  /** The text of the lines that are not progress reports, with their terminators. */
  function Kept(parse: Parser, lines: seq<string>): string {
    if lines == [] then []
    else (if ParseLine(parse, lines[0]).None? then lines[0] + ['\n'] else []) + Kept(parse, lines[1..])
  }

  function Report(parse: Parser, line: string): seq<Progress> {
    match ParseLine(parse, line)
    case Some(p) => [p]
    case None => []
  }

  function Reports(parse: Parser, lines: seq<string>): seq<Progress> {
    if lines == [] then [] else Report(parse, lines[0]) + Reports(parse, lines[1..])
  }

  /** Drop every element equal to the one before it; `last` precedes them all. */
  function Dedup(last: Option<Progress>, ps: seq<Progress>): seq<Progress>
    decreases |ps|
  {
    if ps == [] then []
    else if Some(ps[0]) == last then Dedup(last, ps[1..])
    else [ps[0]] + Dedup(Some(ps[0]), ps[1..])
  }

  function LastOf(last: Option<Progress>, ps: seq<Progress>): Option<Progress> {
    if ps == [] then last else Some(ps[|ps| - 1])
  }

  /** What the file receives from a whole stream: an unterminated last line counts. */
  function FileText(parse: Parser, text: string): string {
    Kept(parse, Complete(text))
    + if Rest(text) != [] && ParseLine(parse, Rest(text)).None? then Rest(text) else []
  }

  /** All progress reports of a whole stream in order. */
  function StreamReports(parse: Parser, text: string): seq<Progress> {
    Reports(parse, Complete(text)) + if Rest(text) != [] then Report(parse, Rest(text)) else []
  }

  // ---- the drain ----

  /** What the drain has put out, and the report it remembers. */
  datatype Output = Output(file: string, updates: seq<Progress>, last: Option<Progress>)

  const NoOutput: Output := Output([], [], None)

  /** One line, followed by `suffix` in the stream. */
  function Absorb(parse: Parser, out: Output, raw: string, suffix: string): Output {
    match ParseLine(parse, raw)
    case None => out.(file := out.file + (raw + suffix))
    case Some(p) =>
      if out.last == Some(p) then out else out.(last := Some(p), updates := out.updates + [p])
  }

  function AbsorbAll(parse: Parser, out: Output, lines: seq<string>): Output {
    if lines == [] then out
    else Absorb(parse, AbsorbAll(parse, out, lines[..|lines| - 1]), lines[|lines| - 1], ['\n'])
  }

  class Drain {
    const parse: Parser
    var buffer: string
    var last: Option<Progress>
    var file: string
    var updates: seq<Progress>

    ghost function View(): Output
      reads this
    {
      Output(file, updates, last)
    }

    constructor (parse: Parser)
      ensures this.parse == parse
      ensures buffer == [] && View() == NoOutput
    {
      this.parse := parse;
      buffer, last, file, updates := [], None, [], [];
    }

    method ProcessLine(raw: string, suffix: string)
      modifies this`last, this`file, this`updates
      ensures View() == Absorb(parse, old(View()), raw, suffix)
    {
      var progress := parse(StripCr(raw));
      if progress.None? {
        file := file + (raw + suffix);
        return;
      }
      if last == progress {
        return;
      }
      last := progress;
      updates := updates + [progress.value];
    }

    /** One chunk: every line it completes is processed, the rest stays buffered. */
    method Feed(chunk: string)
      modifies this`buffer, this`last, this`file, this`updates
      ensures buffer == Rest(old(buffer) + chunk)
      ensures View() == AbsorbAll(parse, old(View()), Complete(old(buffer) + chunk))
    {
      buffer := buffer + chunk;
      ghost var all := buffer;
      ghost var done: seq<string> := [];
      var newline := NewlineAt(buffer);
      while newline < |buffer|
        invariant newline == NewlineAt(buffer)
        invariant Rest(buffer) == Rest(all) && done + Complete(buffer) == Complete(all)
        invariant View() == AbsorbAll(parse, old(View()), done)
        decreases |buffer|
      {
        var line := buffer[..newline];
        CutFirst(buffer);
        AbsorbAllAppend(parse, old(View()), done, line);
        MoveFirst(done, line, Complete(buffer[newline + 1..]));
        done := done + [line];
        ProcessLine(line, ['\n']);
        buffer := buffer[newline + 1..];
        newline := NewlineAt(buffer);
      }
      NoNewlineLeft(buffer);
      assert done == Complete(all);
    }

    /** The end of the stream: an unterminated last line is processed as it is. */
    method Finish()
      modifies this`last, this`file, this`updates
      ensures View() == if buffer != [] then Absorb(parse, old(View()), buffer, []) else old(View())
    {
      if |buffer| > 0 {
        ProcessLine(buffer, []);
      }
    }
  }

  lemma MoveFirst(done: seq<string>, line: string, more: seq<string>)
    ensures done + ([line] + more) == (done + [line]) + more
  {
  }

  lemma AbsorbAllAppend(parse: Parser, out: Output, lines: seq<string>, last: string)
    ensures AbsorbAll(parse, out, lines + [last]) == Absorb(parse, AbsorbAll(parse, out, lines), last, ['\n'])
  {
    assert (lines + [last])[..|lines|] == lines;
  }

  lemma {:induction false} AbsorbAllConcat(parse: Parser, out: Output, a: seq<string>, b: seq<string>)
    ensures AbsorbAll(parse, out, a + b) == AbsorbAll(parse, AbsorbAll(parse, out, a), b)
    decreases |b|
  {
    if b == [] {
      assert a + b == a;
    } else {
      var n := |b| - 1;
      assert a + b == (a + b[..n]) + [b[n]];
      AbsorbAllAppend(parse, out, a + b[..n], b[n]);
      AbsorbAllConcat(parse, out, a, b[..n]);
    }
  }

  /** What the specification says of all lines. */
  function Absorbed(parse: Parser, lines: seq<string>): Output {
    var reports := Reports(parse, lines);
    Output(Kept(parse, lines), Dedup(None, reports), LastOf(None, reports))
  }

  lemma AbsorbOneMore(parse: Parser, before: seq<string>, line: string)
    ensures Absorb(parse, Absorbed(parse, before), line, ['\n']) == Absorbed(parse, before + [line])
  {
    KeptAppend(parse, before, line);
    ReportsAppend(parse, before, line);
    DedupAppend(None, Reports(parse, before), Report(parse, line));
    DedupOne(LastOf(None, Reports(parse, before)), Report(parse, line));
  }

  /** Line by line, the drain puts out what the specification says. */
  lemma {:induction false} AbsorbAllMeaning(parse: Parser, lines: seq<string>)
    ensures AbsorbAll(parse, NoOutput, lines) == Absorbed(parse, lines)
  {
    if lines != [] {
      var before, line := lines[..|lines| - 1], lines[|lines| - 1];
      AbsorbAllMeaning(parse, before);
      AbsorbOneMore(parse, before, line);
      assert lines == before + [line];
    }
  }

  lemma {:induction false} KeptAppend(parse: Parser, lines: seq<string>, last: string)
    ensures Kept(parse, lines + [last]) ==
              Kept(parse, lines) + if ParseLine(parse, last).None? then last + ['\n'] else []
  {
    if lines != [] {
      KeptAppend(parse, lines[1..], last);
      assert (lines + [last])[1..] == lines[1..] + [last];
    }
  }

  lemma {:induction false} ReportsAppend(parse: Parser, lines: seq<string>, last: string)
    ensures Reports(parse, lines + [last]) == Reports(parse, lines) + Report(parse, last)
  {
    if lines != [] {
      ReportsAppend(parse, lines[1..], last);
      assert (lines + [last])[1..] == lines[1..] + [last];
    }
  }

  lemma {:induction false} DedupAppend(last: Option<Progress>, a: seq<Progress>, b: seq<Progress>)
    ensures Dedup(last, a + b) == Dedup(last, a) + Dedup(LastOf(last, a), b)
    ensures LastOf(last, a + b) == LastOf(LastOf(last, a), b)
    decreases |a|
  {
    if a == [] {
      assert a + b == b;
    } else {
      DedupAppend(Some(a[0]), a[1..], b);
      DedupCons(last, a[0], a[1..] + b);
      DedupCons(last, a[0], a[1..]);
      assert a == [a[0]] + a[1..] && a + b == [a[0]] + (a[1..] + b);
    }
  }

  lemma DedupCons(last: Option<Progress>, p: Progress, ps: seq<Progress>)
    ensures Dedup(last, [p] + ps) == (if Some(p) == last then [] else [p]) + Dedup(Some(p), ps)
    ensures LastOf(last, [p] + ps) == LastOf(Some(p), ps)
  {
    assert ([p] + ps)[1..] == ps;
  }

  /** Chunk independence: however the stream is cut, the file receives exactly the lines
      that are not progress reports, terminators included, and the tracker the progress
      reports in order without immediate repeats. */
  method DrainStream(parse: Parser, chunks: seq<string>) returns (file: string, updates: seq<Progress>)
    ensures file == FileText(parse, Concat(chunks))
    ensures updates == Dedup(None, StreamReports(parse, Concat(chunks)))
  {
    var drain := new Drain(parse);
    var i := 0;
    while i < |chunks|
      invariant 0 <= i <= |chunks|
      invariant drain.parse == parse
      invariant drain.buffer == Rest(Concat(chunks[..i]))
      invariant drain.View() == AbsorbAll(parse, NoOutput, Complete(Concat(chunks[..i])))
    {
      ghost var seen := Concat(chunks[..i]);
      assert chunks[..i + 1] == chunks[..i] + [chunks[i]];
      ConcatAppend(chunks[..i], chunks[i]);
      SplitAppend(seen, chunks[i]);
      AbsorbAllConcat(parse, NoOutput, Complete(seen), Complete(drain.buffer + chunks[i]));
      drain.Feed(chunks[i]);
      i := i + 1;
    }
    assert chunks[..i] == chunks;
    drain.Finish();
    file, updates := drain.file, drain.updates;
    StreamMeaning(parse, Concat(chunks));
  }

  lemma StreamMeaning(parse: Parser, text: string)
    ensures var out := AbsorbAll(parse, NoOutput, Complete(text));
            var end := if Rest(text) != [] then Absorb(parse, out, Rest(text), []) else out;
            end.file == FileText(parse, text) && end.updates == Dedup(None, StreamReports(parse, text))
  {
    var reports, line := Reports(parse, Complete(text)), Rest(text);
    AbsorbAllMeaning(parse, Complete(text));
    if line == [] {
      assert reports + [] == reports;
    } else {
      assert line + [] == line;
      DedupAppend(None, reports, Report(parse, line));
      DedupOne(LastOf(None, reports), Report(parse, line));
    }
  }

  lemma DedupOne(last: Option<Progress>, ps: seq<Progress>)
    requires |ps| <= 1
    ensures Dedup(last, ps) == if ps == [] || Some(ps[0]) == last then [] else ps
  {
    if |ps| == 1 {
      assert ps[1..] == [];
    }
  }

  // ---- what the specification means ----

  ghost predicate NoRepeats(last: Option<Progress>, ps: seq<Progress>) {
    && (ps != [] ==> Some(ps[0]) != last)
    && forall i, j :: 0 <= i && j == i + 1 && j < |ps| ==> ps[i] != ps[j]
  }

  /** No update repeats its predecessor, and the last report is always the last update. */
  lemma {:induction false} DedupDropsRepeats(last: Option<Progress>, ps: seq<Progress>)
    ensures NoRepeats(last, Dedup(last, ps))
    ensures LastOf(last, Dedup(last, ps)) == LastOf(last, ps)
    decreases |ps|
  {
    if ps != [] {
      var next := Some(ps[0]);
      DedupDropsRepeats(next, ps[1..]);
      assert LastOf(next, ps[1..]) == LastOf(last, ps);
    }
  }

  /** Nothing else is dropped. */
  lemma {:induction false} DedupKeepsChanges(last: Option<Progress>, ps: seq<Progress>)
    requires NoRepeats(last, ps)
    ensures Dedup(last, ps) == ps
    decreases |ps|
  {
    if ps != [] {
      assert NoRepeats(Some(ps[0]), ps[1..]) by {
        assert ps[1..] != [] ==> ps[0] != ps[1];
      }
      DedupKeepsChanges(Some(ps[0]), ps[1..]);
    }
  }

  /** A stream without progress reports is copied byte for byte. */
  lemma PlainStreamCopied(parse: Parser, text: string)
    requires forall line: string :: ParseLine(parse, line).None?
    ensures FileText(parse, text) == text && StreamReports(parse, text) == []
  {
    SplitRestores(text);
    KeptAll(parse, Complete(text));
  }

  lemma {:induction false} KeptAll(parse: Parser, lines: seq<string>)
    requires forall line: string :: ParseLine(parse, line).None?
    ensures Kept(parse, lines) == Join(lines) && Reports(parse, lines) == []
  {
    if lines != [] {
      var n := |lines| - 1;
      KeptAll(parse, lines[..n]);
      LastOut(lines);
      KeptAppend(parse, lines[..n], lines[n]);
      ReportsAppend(parse, lines[..n], lines[n]);
      JoinAppend(lines[..n], lines[n]);
    }
  }
}
