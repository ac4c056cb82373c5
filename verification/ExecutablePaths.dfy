/** The image list built from `executable_paths.xml`: one image per file name, the first
    referenced path winning. The matches of the path pattern are the input. */
module ExecutablePaths {
  import opened Wrappers
  import opened XmlEntities

  /** A match of the pattern: the path attribute, still escaped, and the build id. */
  datatype Match = Match(path: string, buildId: Option<string>)

  datatype Image = Image(name: string, source: string, destination: string)

  /** `path.split('/').pop()`. */
  function BaseName(path: string): string {
    if path == [] || path[|path| - 1] == '/' then []
    else BaseName(path[..|path| - 1]) + [path[|path| - 1]]
  }

  /** The file name is what follows the last slash, or all of a path without one. */
  lemma {:induction false} NameFollowsLastSlash(path: string)
    ensures var name := BaseName(path);
            && |name| <= |path| && path[|path| - |name|..] == name && '/' !in name
            && (|name| < |path| ==> path[|path| - |name| - 1] == '/')
  {
    if path != [] && path[|path| - 1] != '/' {
      var before := path[..|path| - 1];
      NameFollowsLastSlash(before);
      assert path == before + [path[|path| - 1]];
    }
  }

  predicate IsAbsolute(m: Match) {
    m.path != [] && m.path[0] == '/'
  }

  function NameOf(m: Match): string {
    BaseName(Decode(m.path))
  }

  function ImageOf(dir: string, m: Match): Image {
    Image(NameOf(m), Decode(m.path), dir + "/images/" + NameOf(m))
  }

  /** The image of a path that stands escaped in the file. */
  lemma ImageOfEscaped(dir: string, path: string, buildId: Option<string>)
    ensures ImageOf(dir, Match(Escape(path), buildId)) == Image(BaseName(path), path, dir + "/images/" + BaseName(path))
  {
    DecodeInvertsEscape(path);
  }

  /** An absolute path whose file name no earlier absolute path has. */
  ghost predicate IsFirst(ms: seq<Match>, k: nat)
    requires k < |ms|
  {
    IsAbsolute(ms[k]) && forall j :: 0 <= j < k && IsAbsolute(ms[j]) ==> NameOf(ms[j]) != NameOf(ms[k])
  }

  /** The images of the first paths with their names, in order. */
  ghost function Images(dir: string, ms: seq<Match>): seq<Image> {
    if ms == [] then []
    else
      var n := |ms| - 1;
      Images(dir, ms[..n]) + if IsFirst(ms, n) then [ImageOf(dir, ms[n])] else []
  }

  /** A path whose name is taken is skipped with a warning if it differs from the stored image
      in its build id. Stored images carry none, so that is every path that has one. */
  ghost predicate Warned(ms: seq<Match>, k: nat)
    requires k < |ms|
  {
    IsAbsolute(ms[k]) && !IsFirst(ms, k) && ms[k].buildId.Some?
  }

  /** The positions of the flags that are set. */
  function Where(flags: seq<bool>): seq<nat> {
    if flags == [] then []
    else
      var n := |flags| - 1;
      Where(flags[..n]) + if flags[n] then [n] else []
  }

  ghost function WarnFlags(ms: seq<Match>): (flags: seq<bool>)
    ensures |flags| == |ms| && forall k :: 0 <= k < |ms| ==> flags[k] == Warned(ms, k)
  {
    seq(|ms|, k requires 0 <= k < |ms| => Warned(ms, k))
  }

  /** The positions of the matches that are warned about. */
  ghost function Warnings(ms: seq<Match>): seq<nat> {
    Where(WarnFlags(ms))
  }

  ghost predicate Lists(images: seq<Image>, name: string) {
    exists i :: 0 <= i < |images| && images[i].name == name
  }

  lemma {:induction false} ListsSeenNames(dir: string, ms: seq<Match>, name: string)
    ensures Lists(Images(dir, ms), name) <==>
              exists j :: 0 <= j < |ms| && IsAbsolute(ms[j]) && NameOf(ms[j]) == name
  {
    if ms != [] {
      var n := |ms| - 1;
      ListsSeenNames(dir, ms[..n], name);
      var before, all := Images(dir, ms[..n]), Images(dir, ms);
      if Lists(before, name) {
        var i :| 0 <= i < |before| && before[i].name == name;
        assert all[i].name == name;
      } else if IsFirst(ms, n) && NameOf(ms[n]) == name {
        assert all[|before|].name == name;
      }
    }
  }

  /** What one more match adds, in terms of the list so far. */
  lemma OneMoreMatch(dir: string, ms: seq<Match>, k: nat)
    requires k < |ms|
    ensures var listed := Lists(Images(dir, ms[..k]), NameOf(ms[k]));
            && Images(dir, ms[..k + 1]) ==
                 Images(dir, ms[..k]) + (if IsAbsolute(ms[k]) && !listed then [ImageOf(dir, ms[k])] else [])
            && (Warned(ms, k) <==> IsAbsolute(ms[k]) && listed && ms[k].buildId.Some?)
  {
    var now := ms[..k + 1];
    assert now[..k] == ms[..k] && now[k] == ms[k];
    ListsSeenNames(dir, ms[..k], NameOf(ms[k]));
    assert IsFirst(now, k) <==> IsFirst(ms, k);
    assert IsFirst(now, k) <==> IsAbsolute(ms[k]) && !Lists(Images(dir, ms[..k]), NameOf(ms[k]));
  }

  /** The images listed and the warnings drawn after `k` matches. */
  ghost predicate Parsed(dir: string, ms: seq<Match>, k: nat, images: seq<Image>, warnings: seq<nat>)
    requires k <= |ms|
  {
    images == Images(dir, ms[..k]) && warnings == Where(WarnFlags(ms)[..k])
  }

  lemma ParsedNone(dir: string, ms: seq<Match>)
    ensures Parsed(dir, ms, 0, [], [])
  {
  }

  lemma ParsedOn(dir: string, ms: seq<Match>, k: nat, images: seq<Image>, warnings: seq<nat>, found: bool)
    requires k < |ms| && Parsed(dir, ms, k, images, warnings) && (found <==> Lists(images, NameOf(ms[k])))
    ensures Parsed(dir, ms, k + 1,
                   if IsAbsolute(ms[k]) && !found then images + [ImageOf(dir, ms[k])] else images,
                   if IsAbsolute(ms[k]) && found && ms[k].buildId.Some? then warnings + [k] else warnings)
  {
    var flags := WarnFlags(ms);
    OneMoreMatch(dir, ms, k);
    assert flags[..k + 1][..k] == flags[..k];
    assert warnings + [] == warnings && images + [] == images;
  }

  lemma ParsedAll(dir: string, ms: seq<Match>, images: seq<Image>, warnings: seq<nat>)
    requires Parsed(dir, ms, |ms|, images, warnings)
    ensures images == Images(dir, ms) && warnings == Warnings(ms)
  {
    assert ms[..|ms|] == ms && WarnFlags(ms)[..|ms|] == WarnFlags(ms);
  }

  method ParseExecutablePaths(dir: string, ms: seq<Match>) returns (images: seq<Image>, warnings: seq<nat>)
    ensures images == Images(dir, ms)
    ensures warnings == Warnings(ms)
  {
    images, warnings := [], [];
    ParsedNone(dir, ms);
    var k := 0;
    while k < |ms|
      invariant 0 <= k <= |ms|
      invariant Parsed(dir, ms, k, images, warnings)
    {
      if IsAbsolute(ms[k]) {
        var image := ImageOf(dir, ms[k]);
        var found := HasName(images, image.name);
        ParsedOn(dir, ms, k, images, warnings, found);
        if found {
          if ms[k].buildId.Some? {
            warnings := warnings + [k];
          }
        } else {
          images := images + [image];
        }
      } else {
        ParsedOn(dir, ms, k, images, warnings, Lists(images, NameOf(ms[k])));
      }
      k := k + 1;
    }
    ParsedAll(dir, ms, images, warnings);
  }

  method HasName(images: seq<Image>, name: string) returns (found: bool)
    ensures found <==> Lists(images, name)
  {
    var i := 0;
    while i < |images|
      invariant 0 <= i <= |images|
      invariant forall j :: 0 <= j < i ==> images[j].name != name
    {
      if images[i].name == name {
        return true;
      }
      i := i + 1;
    }
    return false;
  }

  lemma {:induction false} DistinctNames(dir: string, ms: seq<Match>)
    ensures forall i, j :: 0 <= i < j < |Images(dir, ms)| ==> Images(dir, ms)[i].name != Images(dir, ms)[j].name
    ensures forall i :: 0 <= i < |Images(dir, ms)| ==>
              Images(dir, ms)[i].destination == dir + "/images/" + Images(dir, ms)[i].name
  {
    if ms != [] {
      var n := |ms| - 1;
      DistinctNames(dir, ms[..n]);
      ListsSeenNames(dir, ms[..n], NameOf(ms[n]));
    }
  }

  /** No two images are written to the same destination. */
  lemma DistinctDestinations(dir: string, ms: seq<Match>, i: nat, j: nat)
    requires i < j < |Images(dir, ms)|
    ensures Images(dir, ms)[i].destination != Images(dir, ms)[j].destination
  {
    DistinctNames(dir, ms);
    var a, b := Images(dir, ms)[i], Images(dir, ms)[j];
    var prefix := dir + "/images/";
    assert (prefix + a.name)[|prefix|..] == a.name && (prefix + b.name)[|prefix|..] == b.name;
  }

  /** Every absolute path finds its file name in the list, with the source path of the first
      absolute path of that name. */
  lemma FirstPathWins(dir: string, ms: seq<Match>, k: nat)
    requires k < |ms| && IsAbsolute(ms[k])
    ensures exists i, j: nat :: 0 <= i < |Images(dir, ms)| && j <= k && IsFirst(ms, j)
              && NameOf(ms[j]) == NameOf(ms[k]) && Images(dir, ms)[i] == ImageOf(dir, ms[j])
  {
    var j := FirstWithName(ms, k);
    var i := ImageIndex(dir, ms, j);
  }

  lemma {:induction false} FirstWithName(ms: seq<Match>, k: nat) returns (j: nat)
    requires k < |ms| && IsAbsolute(ms[k])
    ensures j <= k && IsFirst(ms, j) && NameOf(ms[j]) == NameOf(ms[k])
    decreases k
  {
    if IsFirst(ms, k) {
      j := k;
    } else {
      var earlier: nat :| earlier < k && IsAbsolute(ms[earlier]) && NameOf(ms[earlier]) == NameOf(ms[k]);
      j := FirstWithName(ms, earlier);
    }
  }

  lemma {:induction false} ImageIndex(dir: string, ms: seq<Match>, j: nat) returns (i: nat)
    requires j < |ms| && IsFirst(ms, j)
    ensures i < |Images(dir, ms)| && Images(dir, ms)[i] == ImageOf(dir, ms[j])
  {
    var n := |ms| - 1;
    if j == n {
      i := |Images(dir, ms[..n])|;
    } else {
      i := ImageIndex(dir, ms[..n], j);
    }
  }

  // ---- when the warning is right ----

  /** The first path with a name. */
  ghost predicate IsFirstOf(ms: seq<Match>, j: nat, k: nat)
    requires j < |ms| && k < |ms|
  {
    IsFirst(ms, j) && NameOf(ms[j]) == NameOf(ms[k])
  }

  /** What deserves a warning: the build id differs from that of the path that won. */
  ghost predicate Clashes(ms: seq<Match>, k: nat)
    requires k < |ms|
  {
    IsAbsolute(ms[k]) && exists j: nat :: j < k && IsFirstOf(ms, j, k) && ms[j].buildId != ms[k].buildId
  }

  ghost function ClashFlags(ms: seq<Match>): (flags: seq<bool>)
    ensures |flags| == |ms| && forall k :: 0 <= k < |ms| ==> flags[k] == Clashes(ms, k)
  {
    seq(|ms|, k requires 0 <= k < |ms| => Clashes(ms, k))
  }

  /** The positions of the matches that deserve a warning. */
  ghost function ClashList(ms: seq<Match>): seq<nat> {
    Where(ClashFlags(ms))
  }

  /** Build ids for which the warning comes out right: none on either path, or one on the later
      path that differs from the first path's. */
  predicate IdsFit(first: Option<string>, later: Option<string>) {
    later.Some? <==> later != first
  }

  /** A later path of a name is warned about exactly when its build id differs from the first
      path's, if and only if it has a build id just when it differs. It does not fit in two
      cases: both ids agree, or only the first path has one. */
  lemma WarningIsRight(ms: seq<Match>, j: nat, k: nat)
    requires j < k < |ms| && IsAbsolute(ms[k]) && IsFirstOf(ms, j, k)
    ensures (Warned(ms, k) <==> Clashes(ms, k)) <==> IdsFit(ms[j].buildId, ms[k].buildId)
    ensures !IdsFit(ms[j].buildId, ms[k].buildId) <==>
              ms[j].buildId.Some? && (ms[k].buildId == ms[j].buildId || ms[k].buildId.None?)
  {
    assert !IsFirst(ms, k);
    forall i: nat | i < k && IsFirstOf(ms, i, k) ensures i == j {
      assert IsAbsolute(ms[i]) && IsAbsolute(ms[j]) && NameOf(ms[i]) == NameOf(ms[j]);
    }
  }

  /** Anything else is neither warned about nor in conflict. */
  lemma NothingToWarn(ms: seq<Match>, k: nat)
    requires k < |ms| && (!IsAbsolute(ms[k]) || IsFirst(ms, k))
    ensures !Warned(ms, k) && !Clashes(ms, k)
  {
  }

  /** The ids of every later path fit those of the first path with its name. */
  ghost predicate AllIdsFit(ms: seq<Match>) {
    forall j: nat, k: nat :: j < k < |ms| && IsAbsolute(ms[k]) && IsFirstOf(ms, j, k) ==>
      IdsFit(ms[j].buildId, ms[k].buildId)
  }

  lemma {:induction false} WhereSet(flags: seq<bool>, k: nat)
    ensures k in Where(flags) <==> k < |flags| && flags[k]
  {
    if flags != [] {
      WhereSet(flags[..|flags| - 1], k);
    }
  }

  /** The same positions are the same flags. */
  lemma SamePositions(a: seq<bool>, b: seq<bool>)
    requires |a| == |b|
    ensures Where(a) == Where(b) <==> a == b
  {
    if Where(a) == Where(b) {
      forall k: nat | k < |a| ensures a[k] == b[k] {
        WhereSet(a, k);
        WhereSet(b, k);
      }
    }
  }

  ghost predicate RightAt(ms: seq<Match>, k: nat)
    requires k < |ms|
  {
    Warned(ms, k) <==> Clashes(ms, k)
  }

  /** The warnings are exactly the clashes if and only if every later path's id fits. */
  lemma WarningsAreRightExactly(ms: seq<Match>)
    ensures Warnings(ms) == ClashList(ms) <==> AllIdsFit(ms)
  {
    SamePositions(WarnFlags(ms), ClashFlags(ms));
    if WarnFlags(ms) == ClashFlags(ms) {
      RightIdsFit(ms);
    }
    if AllIdsFit(ms) {
      FittingFlags(ms);
    }
  }

  lemma RightIdsFit(ms: seq<Match>)
    requires WarnFlags(ms) == ClashFlags(ms)
    ensures AllIdsFit(ms)
  {
    forall j: nat, k: nat | j < k < |ms| && IsAbsolute(ms[k]) && IsFirstOf(ms, j, k)
      ensures IdsFit(ms[j].buildId, ms[k].buildId)
    {
      assert WarnFlags(ms)[k] == ClashFlags(ms)[k];
      WarningIsRight(ms, j, k);
    }
  }

  lemma FittingFlags(ms: seq<Match>)
    requires AllIdsFit(ms)
    ensures WarnFlags(ms) == ClashFlags(ms)
  {
    forall k: nat | k < |ms| ensures WarnFlags(ms)[k] == ClashFlags(ms)[k] {
      FittingIdsAreRight(ms, k);
    }
  }

  lemma FittingIdsAreRight(ms: seq<Match>, k: nat)
    requires AllIdsFit(ms) && k < |ms|
    ensures RightAt(ms, k)
  {
    if !IsAbsolute(ms[k]) || IsFirst(ms, k) {
      NothingToWarn(ms, k);
    } else {
      var j := FirstWithName(ms, k);
      assert IsFirstOf(ms, j, k);
      WarningIsRight(ms, j, k);
    }
  }

  /** The same path twice with one build id draws a warning that nothing deserves. */
  lemma AgreeingIdsAreWarnedAbout(path: string, id: string)
    requires IsAbsolute(Match(path, Some(id)))
    ensures var ms := [Match(path, Some(id)), Match(path, Some(id))];
            Warnings(ms) == [1] && ClashList(ms) == []
  {
    PairDecides(Match(path, Some(id)), Match(path, Some(id)));
  }

  /** The same path with a build id and then without draws none, though they differ. */
  lemma MissingIdIsPassedOver(path: string, id: string)
    requires IsAbsolute(Match(path, Some(id)))
    ensures var ms := [Match(path, Some(id)), Match(path, None)];
            Warnings(ms) == [] && ClashList(ms) == [1]
  {
    PairDecides(Match(path, Some(id)), Match(path, None));
  }

  lemma PairDecides(a: Match, b: Match)
    requires IsAbsolute(a) && a.path == b.path
    ensures Warnings([a, b]) == if b.buildId.Some? then [1] else []
    ensures ClashList([a, b]) == if a.buildId != b.buildId then [1] else []
  {
    var ms := [a, b];
    NothingToWarn(ms, 0);
    assert IsFirstOf(ms, 0, 1);
    WarningIsRight(ms, 0, 1);
    OneFlag(WarnFlags(ms));
    OneFlag(ClashFlags(ms));
  }

  lemma OneFlag(flags: seq<bool>)
    requires |flags| == 2 && !flags[0]
    ensures Where(flags) == if flags[1] then [1] else []
  {
    assert flags[..1][..0] == [];
    assert Where(flags[..1]) == [];
  }
}
