/** The collection-finished detector: a streaming search for one marker that keeps only
    the suffix in which a split marker could begin. */
module FinishedDetector {
  import opened Sequences
  import opened Lines

  const Marker: string := "Ending capture..."

  predicate OccursAt(text: string, marker: string, i: nat) {
    i + |marker| <= |text| && text[i..i + |marker|] == marker
  }

  /** `text.includes(marker)`. */
  predicate Includes(text: string, marker: string) {
    exists i: nat :: i <= |text| && OccursAt(text, marker, i)
  }

  /** `text.slice(-n)` for a positive `n`. */
  function Suffix(text: string, n: nat): string {
    if |text| <= n then text else text[|text| - n..]
  }

  lemma OccurrenceShifts(a: string, b: string, marker: string, i: nat)
    ensures OccursAt(b, marker, i) <==> OccursAt(a + b, marker, |a| + i)
  {
    if i + |marker| <= |b| {
      assert (a + b)[|a| + i..|a| + i + |marker|] == b[i..i + |marker|];
    }
  }

  lemma OccurrenceInPrefix(a: string, b: string, marker: string, i: nat)
    requires i + |marker| <= |a|
    ensures OccursAt(a, marker, i) <==> OccursAt(a + b, marker, i)
  {
    assert (a + b)[i..i + |marker|] == a[i..i + |marker|];
  }

  /** If the text seen so far has no marker, the suffix one shorter than the marker decides
      whether the grown text has one. */
  lemma SuffixDecides(seen: string, chunk: string, marker: string)
    requires marker != [] && !Includes(seen, marker)
    ensures Includes(Suffix(seen, |marker| - 1) + chunk, marker) <==> Includes(seen + chunk, marker)
  {
    var kept := Suffix(seen, |marker| - 1);
    var dropped := seen[..|seen| - |kept|];
    assert seen == dropped + kept;
    assert seen + chunk == dropped + (kept + chunk);
    if Includes(kept + chunk, marker) {
      var i: nat :| i <= |kept + chunk| && OccursAt(kept + chunk, marker, i);
      OccurrenceShifts(dropped, kept + chunk, marker, i);
    }
    if Includes(seen + chunk, marker) {
      var i: nat :| i <= |seen + chunk| && OccursAt(seen + chunk, marker, i);
      if i < |dropped| {
        OccurrenceInPrefix(seen, chunk, marker, i);
        assert false;
      }
      OccurrenceShifts(dropped, kept + chunk, marker, i - |dropped|);
    }
  }

  lemma IncludesGrows(seen: string, chunk: string, marker: string)
    requires Includes(seen, marker)
    ensures Includes(seen + chunk, marker)
  {
    var i: nat :| i <= |seen| && OccursAt(seen, marker, i);
    OccurrenceInPrefix(seen, chunk, marker, i);
    assert i <= |seen + chunk|;
  }

  lemma SuffixOfSuffix(seen: string, chunk: string, n: nat)
    ensures Suffix(Suffix(seen, n) + chunk, n) == Suffix(seen + chunk, n)
  {
  }

  /** The closure made by `createCollectionFinishedDetector`. */
  class Detector {
    var pending: string
    var notified: bool
    var notifications: nat      // calls of engine.notifyCollectionFinished

    /** The detector's state after the text `seen`. */
    ghost predicate After(seen: string)
      reads this
    {
      && (notified <==> Includes(seen, Marker))
      && notifications == (if notified then 1 else 0)
      && (!notified ==> pending == Suffix(seen, |Marker| - 1))
    }

    constructor ()
      ensures After([])
    {
      pending, notified, notifications := [], false, 0;
    }

    method OnChunk(chunk: string, ghost seen: string) returns (found: bool)
      requires After(seen)
      modifies this
      ensures After(seen + chunk)
      ensures found <==> Includes(seen + chunk, Marker) && !Includes(seen, Marker)
      ensures !notified ==> |pending| < |Marker|
    {
      if notified {
        IncludesGrows(seen, chunk, Marker);
        return false;
      }
      SuffixDecides(seen, chunk, Marker);
      SuffixOfSuffix(seen, chunk, |Marker| - 1);
      pending := pending + chunk;
      if !Includes(pending, Marker) {
        pending := Suffix(pending, |Marker| - 1);
        return false;
      }
      notified := true;
      notifications := notifications + 1;
      return true;
    }
  }

  /** The engine is notified exactly once, at the first chunk after which the whole stream
      contains the marker, wherever chunk boundaries cut it, and otherwise never. */
  method Detect(chunks: seq<string>) returns (found: seq<bool>, notifications: nat)
    ensures |found| == |chunks|
    ensures forall i :: 0 <= i < |chunks| ==>
              (found[i] <==> Includes(Concat(chunks[..i + 1]), Marker) && !Includes(Concat(chunks[..i]), Marker))
    ensures notifications == if Includes(Concat(chunks), Marker) then 1 else 0
  {
    var detector := new Detector();
    found := [];
    var i := 0;
    while i < |chunks|
      invariant 0 <= i <= |chunks| && |found| == i
      invariant detector.After(Concat(chunks[..i]))
      invariant forall j :: 0 <= j < i ==>
                  (found[j] <==> Includes(Concat(chunks[..j + 1]), Marker) && !Includes(Concat(chunks[..j]), Marker))
    {
      assert chunks[..i + 1] == chunks[..i] + [chunks[i]];
      ConcatAppend(chunks[..i], chunks[i]);
      var hit := detector.OnChunk(chunks[i], Concat(chunks[..i]));
      found := found + [hit];
      i := i + 1;
    }
    assert chunks[..i] == chunks;
    notifications := detector.notifications;
  }
}
