/** Splitting a text into newline-terminated lines and an unterminated rest, and how the
    split behaves when the text arrives in pieces. */
module Lines {
  import opened Sequences

  /** The terminated lines, without their newlines. */
  function Complete(s: string): seq<string> {
    if s == [] then []
    else
      var before := s[..|s| - 1];
      if s[|s| - 1] == '\n' then Complete(before) + [Rest(before)] else Complete(before)
  }

  /** What follows the last newline. */
  function Rest(s: string): string {
    if s == [] || s[|s| - 1] == '\n' then [] else Rest(s[..|s| - 1]) + [s[|s| - 1]]
  }

  /** The index of the first newline, or the length of the text. */
  function NewlineAt(s: string): (k: nat)
    ensures k <= |s| && (k < |s| ==> s[k] == '\n')
    ensures forall i :: 0 <= i < k ==> s[i] != '\n'
  {
    if s == [] || s[0] == '\n' then 0 else 1 + NewlineAt(s[1..])
  }

  function Join(lines: seq<string>): string {
    if lines == [] then [] else Join(lines[..|lines| - 1]) + (lines[|lines| - 1] + ['\n'])
  }

  predicate OneLine(s: string) {
    forall i :: 0 <= i < |s| ==> s[i] != '\n'
  }

  /** The split of a text grown by one character. */
  lemma SplitGrows(s: string, c: char)
    ensures Complete(s + [c]) == if c == '\n' then Complete(s) + [Rest(s)] else Complete(s)
    ensures Rest(s + [c]) == if c == '\n' then [] else Rest(s) + [c]
  {
    assert (s + [c])[..|s|] == s;
  }

  lemma {:induction false} SplitNone(s: string)
    requires OneLine(s)
    ensures Complete(s) == [] && Rest(s) == s
  {
    if s != [] {
      SplitNone(s[..|s| - 1]);
    }
  }

  lemma {:induction false} RestIsOneLine(s: string)
    ensures OneLine(Rest(s))
  {
    if s != [] {
      RestIsOneLine(s[..|s| - 1]);
    }
  }

  /** The lines of a longer text: those already complete, then those of the rest. */
  lemma {:induction false} SplitAppend(x: string, y: string)
    ensures Complete(x + y) == Complete(x) + Complete(Rest(x) + y)
    ensures Rest(x + y) == Rest(Rest(x) + y)
  {
    if y == [] {
      NothingAdded(x);
      NothingAdded(Rest(x));
      RestIsOneLine(x);
      SplitNone(Rest(x));
      NothingAdded(Complete(x));
    } else {
      var z, c := y[..|y| - 1], y[|y| - 1];
      SplitAppend(x, z);
      LastOut(y);
      Assoc(x, z, [c]);
      Assoc(Rest(x), z, [c]);
      SplitGrows(x + z, c);
      SplitGrows(Rest(x) + z, c);
      Assoc(Complete(x), Complete(Rest(x) + z), [Rest(x + z)]);
    }
  }

  /** Splitting off a known first line. */
  lemma SplitFirst(line: string, more: string)
    requires OneLine(line)
    ensures Complete(line + ['\n'] + more) == [line] + Complete(more)
    ensures Rest(line + ['\n'] + more) == Rest(more)
  {
    SplitNone(line);
    SplitGrows(line, '\n');
    SplitAppend(line + ['\n'], more);
    NothingAdded(more);
    NothingAdded([line]);
  }

  lemma CutAt<T>(s: seq<T>, k: nat)
    requires k < |s|
    ensures s == s[..k] + [s[k]] + s[k + 1..]
  {
  }

  /** Cutting at the first newline splits off the first line. */
  lemma CutFirst(s: string)
    requires NewlineAt(s) < |s|
    ensures Complete(s) == [s[..NewlineAt(s)]] + Complete(s[NewlineAt(s) + 1..])
    ensures Rest(s) == Rest(s[NewlineAt(s) + 1..])
  {
    CutAt(s, NewlineAt(s));
    SplitFirst(s[..NewlineAt(s)], s[NewlineAt(s) + 1..]);
  }

  lemma NoNewlineLeft(s: string)
    requires NewlineAt(s) == |s|
    ensures Complete(s) == [] && Rest(s) == s
  {
    SplitNone(s);
  }

  lemma JoinAppend(lines: seq<string>, last: string)
    ensures Join(lines + [last]) == Join(lines) + (last + ['\n'])
  {
    assert (lines + [last])[..|lines|] == lines;
  }

  /** Nothing is lost: the lines and the rest give the text back. */
  lemma {:induction false} SplitRestores(s: string)
    ensures Join(Complete(s)) + Rest(s) == s
  {
    if s != [] {
      var before, c := s[..|s| - 1], s[|s| - 1];
      SplitRestores(before);
      LastOut(s);
      if c == '\n' {
        JoinAppend(Complete(before), Rest(before));
        Assoc(Join(Complete(before)), Rest(before), ['\n']);
        NothingAdded(s);
      } else {
        Assoc(Join(Complete(before)), Rest(before), [c]);
      }
    }
  }

  lemma {:induction false} LinesAreOneLine(s: string)
    ensures forall line :: line in Complete(s) ==> OneLine(line)
  {
    if s != [] {
      LinesAreOneLine(s[..|s| - 1]);
      RestIsOneLine(s[..|s| - 1]);
    }
  }

  /** ... and that, with no newline inside a line, determines the split. */
  lemma {:induction false} SplitUnique(lines: seq<string>, rest: string)
    requires OneLine(rest) && forall line :: line in lines ==> OneLine(line)
    ensures Complete(Join(lines) + rest) == lines && Rest(Join(lines) + rest) == rest
  {
    if lines == [] {
      NothingAdded(rest);
      SplitNone(rest);
    } else {
      var n := |lines| - 1;
      SplitUnique(lines[..n], lines[n]);
      Assoc(Join(lines[..n]), lines[n], ['\n']);
      SplitGrows(Join(lines[..n]) + lines[n], '\n');
      LastOut(lines);
      SplitAppend(Join(lines), rest);
      NothingAdded(rest);
      NothingAdded(lines);
      SplitNone(rest);
    }
  }

  /** The split is the only way to write a text as newline-free lines, each with its newline,
      and a newline-free rest. */
  lemma SplitExactly(s: string, lines: seq<string>, rest: string)
    ensures Join(lines) + rest == s && OneLine(rest) && (forall line :: line in lines ==> OneLine(line))
            <==> lines == Complete(s) && rest == Rest(s)
  {
    SplitRestores(s);
    LinesAreOneLine(s);
    RestIsOneLine(s);
    if Join(lines) + rest == s && OneLine(rest) && (forall line :: line in lines ==> OneLine(line)) {
      SplitUnique(lines, rest);
    }
  }

  lemma ConcatAppend(parts: seq<string>, last: string)
    ensures Concat(parts + [last]) == Concat(parts) + last
  {
    assert (parts + [last])[..|parts|] == parts;
  }
}
