/** Which files an image shows and which images are accepted, said of the members of its layers
    directly: by the components of their names, without folding and without carried budgets. */
module ImageFiles {
  import opened Common
  import opened PosixPaths
  import opened ImageLayers

  // ---------------------------------------------------------------- names

  /** A name is cleaned by stripping it, turning backslashes into slashes and dropping every "./" it
      starts with. */
  lemma {:induction false} CleanedExactly(name: string) returns (text: string, dots: nat)
    ensures |text| == |Strip(name)|
    ensures forall i :: 0 <= i < |text| ==> text[i] == if Strip(name)[i] == '\\' then '/' else Strip(name)[i]
    ensures 2 * dots <= |text| && Cleaned(name) == text[2 * dots..] && !("./" <= Cleaned(name))
    ensures forall i :: 0 <= i < 2 * dots ==> text[i] == if i % 2 == 0 then '.' else '/'
  {
    text := Slashes(Strip(name));
    dots := DotsDropped(text);
  }

  lemma {:induction false} DotsDropped(text: string) returns (dots: nat)
    ensures 2 * dots <= |text| && DropDots(text) == text[2 * dots..] && !("./" <= DropDots(text))
    ensures forall i :: 0 <= i < 2 * dots ==> text[i] == if i % 2 == 0 then '.' else '/'
  {
    dots := 0;
    if "./" <= text {
      dots := DotsDropped(text[2..]);
      assert text[2..][2 * dots..] == text[2 * (dots + 1)..];
      assert forall i :: 2 <= i < |text| ==> text[i] == text[2..][i - 2];
      assert text[0] == '.' && text[1] == '/';
      dots := dots + 1;
    }
  }

  function PartsOf(e: Entry): seq<string> { Parts(Cleaned(e.name)) }

  /** A member whose last component starts with the marker prefix. */
  predicate IsMarker(parts: seq<string>) { parts != [] && ".wh." <= parts[|parts| - 1] }

  /** What a marker in directory `dir` hides: everything below the directory if it is opaque, else the
      name behind its prefix with all that is below it; the name "." stands for the directory. */
  predicate Covers(marker: seq<string>, parts: seq<string>)
    requires marker != []
  {
    var dir, last := marker[..|marker| - 1], marker[|marker| - 1];
    if last == ".wh..wh..opq" then dir < parts
    else if last == ".wh.." then dir != [] && dir <= parts
    else ".wh." <= last && dir + [last[4..]] <= parts
  }

  lemma {:induction false} SafeParts(e: Entry)
    requires Safe(e)
    ensures PartsOf(e) != [] && AllComponents(PartsOf(e)) && ".." !in PartsOf(e)
    ensures Path(e) == Posix(PartsOf(e)) && Parts(Path(e)) == PartsOf(e)
  {
    SafePathExactly(e.name);
    hide Cleaned;
    assert Normal(Path(e));
  }

  lemma {:induction false} NormalParts(path: string)
    requires Normal(path)
    ensures Parts(path) != [] && AllComponents(Parts(path)) && path == Posix(Parts(path)) && Split(path, '/') == Parts(path)
  {
    SplitOfJoin(Parts(path), '/');
  }

  lemma {:induction false} MarkersAre(e: Entry)
    requires Safe(e)
    ensures Marker(Name(Path(e))) <==> IsMarker(PartsOf(e))
  {
    SafeParts(e);
    var parts := PartsOf(e);
    assert parts == parts[..|parts| - 1] + [parts[|parts| - 1]];
    hide Safe, Path, Posix, Parts;
    NameAndParent(parts[..|parts| - 1], parts[|parts| - 1]);
  }

  lemma {:induction false} SamePath(e: Entry, path: string)
    requires Safe(e) && Normal(path)
    ensures Path(e) == path <==> PartsOf(e) == Parts(path)
  {
    SafeParts(e);
    NormalParts(path);
    hide Safe, Path, Posix, Parts;
  }

  /** The dot, the empty name and a name that ends in a slash. */
  predicate NoTarget(target: string) { target == "." || target == "" || target[|target| - 1] == '/' }

  lemma {:induction false} NotAllComponents(fields: seq<string>, i: nat)
    requires i < |fields| && !Component(fields[i])
    ensures !AllComponents(fields)
  {
  }

  lemma {:induction false} NoTargetFields(target: string)
    requires NoTarget(target)
    ensures !AllComponents(Split(target, '/'))
  {
    if target == "." {
      SplitPlain(".", '/');
      NotAllComponents(Split(target, '/'), 0);
    } else if target == "" {
      NotAllComponents(Split(target, '/'), 0);
    } else {
      var before := target[..|target| - 1];
      assert target == before + "/" + "";
      SplitConcat(before, "", '/');
      SplitPlain("", '/');
      NotAllComponents(Split(target, '/'), |Split(before, '/')|);
    }
  }

  lemma {:induction false} NoTargetBelow(target: string, rest: string)
    requires NoTarget(target)
    ensures !AllComponents(Split(target + "/" + rest, '/'))
  {
    NoTargetFields(target);
    SplitConcat(target, rest, '/');
    hide Split;
    var fields := Split(target, '/');
    var i :| 0 <= i < |fields| && !Component(fields[i]);
    NotAllComponents(fields + Split(rest, '/'), i);
  }

  lemma {:induction false} PrefixComponents(x: seq<string>, parts: seq<string>)
    requires AllComponents(parts) && x <= parts
    ensures AllComponents(x)
  {
    assert forall i :: 0 <= i < |x| ==> x[i] == parts[i];
  }

  /** None of these is a path in normal form or has one below it. */
  lemma {:induction false} NothingBelow(path: string, target: string)
    requires Normal(path) && NoTarget(target)
    ensures path != target && !Below(target, path)
  {
    hide Normal, Parts, Split, AllComponents, NoTarget;
    if Below(target, path) {
      var rest := BelowSplits(target, path);
      NoTargetBelow(target, rest);
    }
    NoTargetFields(target);
    NormalParts(path);
  }

  lemma {:induction false} BelowSplits(target: string, path: string) returns (rest: string)
    requires Below(target, path)
    ensures path == target + "/" + rest
  {
    rest := path[|target| + 1..];
  }

  /** A marker hides a path exactly when its components cover those of the path. */
  lemma {:induction false} MarkerCovers(e: Entry, path: string)
    requires Safe(e) && IsMarker(PartsOf(e)) && Normal(path)
    ensures Marker(Name(Path(e)))
    ensures HiddenBy(WhiteoutOf(Path(e)), path) <==> Covers(PartsOf(e), Parts(path))
  {
    MarkersAre(e);
    SafeParts(e);
    NormalParts(path);
    var dir, last := PartsOf(e)[..|PartsOf(e)| - 1], PartsOf(e)[|PartsOf(e)| - 1];
    assert PartsOf(e) == dir + [last];
    hide Safe, Path, Normal, Split;
    MarkerInDirectory(dir, last, path, Parts(path));
  }

  lemma {:induction false} MarkerInDirectory(dir: seq<string>, last: string, path: string, parts: seq<string>)
    requires AllComponents(dir) && Component(last) && ".wh." <= last
    requires Normal(path) && parts == Parts(path) && parts != [] && AllComponents(parts) && path == Posix(parts)
    ensures Marker(Name(Posix(dir + [last])))
    ensures HiddenBy(WhiteoutOf(Posix(dir + [last])), path) <==> Covers(dir + [last], parts)
  {
    NameAndParent(dir, last);
    assert last == ".wh." + last[4..];
    assert (dir + [last])[..|dir|] == dir;
    if last == OPAQUE {
      OpaqueHidesBelow(dir, parts);
    } else if last == ".wh.." {
      DotHides(dir, path, parts);
    } else if last == ".wh." {
      EmptyHides(dir, path, parts);
    } else {
      assert Component(last[4..]) by { assert forall i :: 0 <= i < |last[4..]| ==> last[4..][i] == last[i + 4]; }
      WhiteoutHidesSubtree(dir, last[4..], parts);
    }
  }

  lemma {:induction false} DotHides(dir: seq<string>, path: string, parts: seq<string>)
    requires AllComponents(dir) && Normal(path) && parts != [] && AllComponents(parts) && path == Posix(parts)
    ensures Marker(Name(Posix(dir + [".wh.."])))
    ensures HiddenBy(WhiteoutOf(Posix(dir + [".wh.."])), path) <==> dir != [] && dir <= parts
  {
    NameAndParent(dir, ".wh..");
    assert ".wh.."[4..] == ".";
    if dir == [] {
      NothingBelow(path, ".");
    } else {
      BelowMeansPrefix(dir, parts);
      PartsOfPosix(dir);
      PartsOfPosix(parts);
      hide Posix, Parts, Below, Normal;
      assert WhiteoutOf(Posix(dir + [".wh.."])) == Remove(Posix(dir));
      if dir <= parts && dir != parts { assert dir < parts; }
    }
  }

  lemma {:induction false} EmptyHides(dir: seq<string>, path: string, parts: seq<string>)
    requires AllComponents(dir) && Normal(path) && parts != [] && AllComponents(parts) && path == Posix(parts)
    ensures Marker(Name(Posix(dir + [".wh."])))
    ensures !HiddenBy(WhiteoutOf(Posix(dir + [".wh."])), path) && !Covers(dir + [".wh."], parts)
  {
    NameAndParent(dir, ".wh.");
    assert ".wh."[4..] == "" && (dir + [".wh."])[..|dir|] == dir;
    var target := if Posix(dir) == "." then "" else Posix(dir) + "/" + "";
    assert WhiteoutOf(Posix(dir + [".wh."])) == Remove(target);
    NothingBelow(path, target);
    hide AllComponents, WhiteoutOf, HiddenBy;
    if dir + [""] <= parts { PrefixComponents(dir + [""], parts); }
    NotAllComponents(dir + [""], |dir|);
  }

  // ---------------------------------------------------------------- one layer

  /** Some marker of the layer covers the path. */
  ghost predicate CoveredBy(entries: seq<Entry>, parts: seq<string>) {
    exists i :: 0 <= i < |entries| && IsMarker(PartsOf(entries[i])) && Covers(PartsOf(entries[i]), parts)
  }

  lemma {:induction false} HidesExactly(entries: seq<Entry>, path: string)
    requires AllSafe(entries) && Normal(path)
    ensures Hides(Whiteouts(entries), path) <==> CoveredBy(entries, Parts(path))
  {
    hide Safe, Path, Normal, Parts, HiddenBy, WhiteoutOf, PartsOf, Covers;
    if entries != [] {
      var before, e := entries[..|entries| - 1], entries[|entries| - 1];
      assert Safe(e);
      HidesExactly(before, path);
      MarkersAre(e);
      if IsMarker(PartsOf(e)) { MarkerCovers(e, path); }
      HidesMore(Whiteouts(before), if Marker(Name(Path(e))) then [WhiteoutOf(Path(e))] else [], path);
      CoveredMore(before, e, Parts(path));
      assert entries == before + [e];
    }
  }

  lemma {:induction false} HidesMore(whiteouts: seq<Whiteout>, more: seq<Whiteout>, path: string)
    requires |more| <= 1
    ensures Hides(whiteouts + more, path) <==> Hides(whiteouts, path) || (more != [] && HiddenBy(more[0], path))
  {
    hide HiddenBy;
    if i :| 0 <= i < |whiteouts| && HiddenBy(whiteouts[i], path) { assert HiddenBy((whiteouts + more)[i], path); }
    if more != [] && HiddenBy(more[0], path) { assert HiddenBy((whiteouts + more)[|whiteouts|], path); }
  }

  lemma {:induction false} CoveredMore(entries: seq<Entry>, e: Entry, parts: seq<string>)
    ensures CoveredBy(entries + [e], parts) <==> CoveredBy(entries, parts) || (IsMarker(PartsOf(e)) && Covers(PartsOf(e), parts))
  {
    hide PartsOf, Covers;
    if i :| 0 <= i < |entries| && IsMarker(PartsOf(entries[i])) && Covers(PartsOf(entries[i]), parts) {
      assert (entries + [e])[i] == entries[i];
    }
    assert (entries + [e])[|entries|] == e;
  }

  /** The last member of the layer with these components. */
  ghost predicate LastAt(entries: seq<Entry>, n: int, parts: seq<string>) {
    && 0 <= n < |entries| && PartsOf(entries[n]) == parts
    && forall m :: n < m < |entries| ==> PartsOf(entries[m]) != parts
  }

  ghost predicate Has(entries: seq<Entry>, parts: seq<string>) {
    !IsMarker(parts) && exists n :: 0 <= n < |entries| && PartsOf(entries[n]) == parts
  }

  /** A regular member of a supported name and an admissible size that can be extracted. */
  predicate Brings(limits: Limits, supported: string -> bool, e: Entry, path: string) {
    e.kind == Regular && supported(path) && 0 <= e.size <= limits.maxFileBytes && e.data.Some?
  }

  lemma {:induction false} FileExactly(limits: Limits, supported: string -> bool, digest: string, e: Entry)
    requires Safe(e) && !Marker(Name(Path(e)))
    ensures FileOf(limits, supported, digest, e) ==
            if Brings(limits, supported, e, Path(e)) then Some(ImageFile(e.data.value, digest)) else None
  {
    hide Safe, Path, Name;
  }

  /** What the layer says of the path is what its last member with the path brings. */
  ghost predicate WordIs(limits: Limits, supported: string -> bool, digest: string, entries: seq<Entry>, path: string, word: Word) {
    && (word.Says? <==> Has(entries, Parts(path)))
    && forall n :: LastAt(entries, n, Parts(path)) && word.Says? ==>
         word.file == if Brings(limits, supported, entries[n], path) then Some(ImageFile(entries[n].data.value, digest)) else None
  }

  lemma {:induction false} WordOfLast(limits: Limits, supported: string -> bool, digest: string, before: seq<Entry>, e: Entry, path: string)
    requires PartsOf(e) == Parts(path) && !IsMarker(Parts(path))
    ensures var file := if Brings(limits, supported, e, path) then Some(ImageFile(e.data.value, digest)) else None;
            WordIs(limits, supported, digest, before + [e], path, Says(file))
  {
    hide PartsOf, IsMarker, Parts, Brings;
    assert (before + [e])[|before|] == e;
  }

  lemma {:induction false} WordOfBefore(limits: Limits, supported: string -> bool, digest: string, before: seq<Entry>, e: Entry, path: string, word: Word)
    requires WordIs(limits, supported, digest, before, path, word) && (PartsOf(e) != Parts(path) || IsMarker(Parts(path)))
    ensures WordIs(limits, supported, digest, before + [e], path, word)
  {
    hide PartsOf, IsMarker, Parts, Brings;
    var entries := before + [e];
    assert forall n :: 0 <= n < |before| ==> before[n] == entries[n];
    assert entries[|before|] == e;
    forall n | LastAt(entries, n, Parts(path)) && word.Says? ensures LastAt(before, n, Parts(path)) { }
    hide LastAt;
  }

  lemma {:induction false} MemberExactly(limits: Limits, supported: string -> bool, digest: string, entries: seq<Entry>, path: string)
    requires AllSafe(entries) && Normal(path)
    ensures WordIs(limits, supported, digest, entries, path, Member(limits, supported, digest, entries, path))
  {
    hide Safe, Path, Normal, Parts, PartsOf, FileOf, Brings, Name, IsMarker;
    if entries != [] {
      var before, e := entries[..|entries| - 1], entries[|entries| - 1];
      assert Safe(e) && AllSafe(before) && entries == before + [e];
      hide WordIs, AllSafe;
      MemberExactly(limits, supported, digest, before, path);
      MarkersAre(e);
      SamePath(e, path);
      if PartsOf(e) == Parts(path) && !IsMarker(Parts(path)) {
        FileExactly(limits, supported, digest, e);
        WordOfLast(limits, supported, digest, before, e, path);
      } else {
        WordOfBefore(limits, supported, digest, before, e, path, Member(limits, supported, digest, before, path));
      }
    }
  }

  // ---------------------------------------------------------------- a whole image

  /** The `n`th member of layer `l` is what the image shows at a path: it is the last one of its layer
      with that path and brings a file, and no layer above has the path or covers it by a marker. */
  ghost predicate Shows(limits: Limits, supported: string -> bool, layers: seq<Layer>, l: int, n: int, path: string) {
    && 0 <= l < |layers| && LastAt(layers[l].entries, n, Parts(path)) && !IsMarker(Parts(path))
    && Brings(limits, supported, layers[l].entries[n], path)
    && NothingAbove(layers, l, Parts(path))
  }

  ghost predicate NothingAbove(layers: seq<Layer>, l: int, parts: seq<string>)
    requires 0 <= l
  {
    forall m :: l < m < |layers| ==> !Concerns(layers[m].entries, parts)
  }

  /** The layer has the path or covers it. */
  ghost predicate Concerns(entries: seq<Entry>, parts: seq<string>) { Has(entries, parts) || CoveredBy(entries, parts) }

  lemma {:induction false} LastExists(entries: seq<Entry>, parts: seq<string>) returns (n: int)
    requires Has(entries, parts)
    ensures LastAt(entries, n, parts)
  {
    hide PartsOf;
    var before := entries[..|entries| - 1];
    n := |before|;
    if PartsOf(entries[n]) != parts {
      var i :| 0 <= i < |entries| && PartsOf(entries[i]) == parts;
      assert before[i] == entries[i];
      n := LastExists(before, parts);
      assert forall m :: 0 <= m < |before| ==> before[m] == entries[m];
    }
  }

  lemma {:induction false} NothingAboveTop(layers: seq<Layer>, l: int, parts: seq<string>)
    requires layers != [] && 0 <= l < |layers| - 1
    ensures NothingAbove(layers, l, parts) <==>
            NothingAbove(layers[..|layers| - 1], l, parts) && !Concerns(layers[|layers| - 1].entries, parts)
  {
    hide Concerns;
    var below := layers[..|layers| - 1];
    if NothingAbove(layers, l, parts) {
      forall m | l < m < |below| ensures !Concerns(below[m].entries, parts) { assert below[m] == layers[m]; }
    }
    if NothingAbove(below, l, parts) && !Concerns(layers[|layers| - 1].entries, parts) {
      forall m | l < m < |layers| ensures !Concerns(layers[m].entries, parts) {
        if m < |below| { assert below[m] == layers[m]; }
      }
    }
  }

  lemma {:induction false} ShowsBelow(limits: Limits, supported: string -> bool, layers: seq<Layer>, l: int, n: int, path: string)
    requires layers != [] && 0 <= l < |layers| - 1
    ensures Shows(limits, supported, layers, l, n, path) <==>
            Shows(limits, supported, layers[..|layers| - 1], l, n, path) && !Concerns(layers[|layers| - 1].entries, Parts(path))
  {
    hide LastAt, Brings, Concerns, IsMarker, Parts, NothingAbove;
    NothingAboveTop(layers, l, Parts(path));
    assert layers[..|layers| - 1][l] == layers[l];
  }

  /** The file, if there is one, is that of the member shown. */
  ghost predicate IsShown(limits: Limits, supported: string -> bool, layers: seq<Layer>, path: string, file: Option<ImageFile>) {
    && (file.Some? <==> exists l, n :: Shows(limits, supported, layers, l, n, path))
    && forall l, n :: Shows(limits, supported, layers, l, n, path) ==>
         file == Some(ImageFile(layers[l].entries[n].data.value, layers[l].digest))
  }

  lemma {:induction false} WordAt(limits: Limits, supported: string -> bool, digest: string, entries: seq<Entry>, path: string, word: Word, n: int)
    requires WordIs(limits, supported, digest, entries, path, word) && Has(entries, Parts(path)) && LastAt(entries, n, Parts(path))
    ensures word == Says(if Brings(limits, supported, entries[n], path) then Some(ImageFile(entries[n].data.value, digest)) else None)
  {
    hide Has, Brings, Parts, PartsOf;
  }

  lemma {:induction false} ShownByTop(limits: Limits, supported: string -> bool, layers: seq<Layer>, path: string, word: Word)
    requires layers != [] && Has(layers[|layers| - 1].entries, Parts(path))
    requires var top := layers[|layers| - 1]; WordIs(limits, supported, top.digest, top.entries, path, word)
    ensures word.Says? && IsShown(limits, supported, layers, path, word.file)
  {
    hide Parts, Has, IsMarker, LastAt, Shows, WordIs, IsShown;
    var top := layers[|layers| - 1];
    var i := LastExists(top.entries, Parts(path));
    WordAt(limits, supported, top.digest, top.entries, path, word, i);
    TopShows(limits, supported, layers, i, path);
    LastInRange(top.entries, i, Parts(path));
    forall l, n | Shows(limits, supported, layers, l, n, path) ensures l == |layers| - 1 && n == i {
      OnlyTopShows(limits, supported, layers, l, n, path);
      OneIsLast(top.entries, i, n, Parts(path));
    }
    OneIsShown(limits, supported, layers, |layers| - 1, i, path, Brings(limits, supported, top.entries[i], path));
  }

  lemma {:induction false} OneIsShown(limits: Limits, supported: string -> bool, layers: seq<Layer>, top: int, i: int, path: string, shown: bool)
    requires 0 <= top < |layers| && 0 <= i < |layers[top].entries|
    requires forall l, n :: Shows(limits, supported, layers, l, n, path) ==> l == top && n == i
    requires Shows(limits, supported, layers, top, i, path) <==> shown
    requires shown ==> layers[top].entries[i].data.Some?
    ensures IsShown(limits, supported, layers, path,
                    if shown then Some(ImageFile(layers[top].entries[i].data.value, layers[top].digest)) else None)
  {
    hide Shows;
  }

  lemma {:induction false} LastInRange(entries: seq<Entry>, n: int, parts: seq<string>)
    requires LastAt(entries, n, parts)
    ensures 0 <= n < |entries|
  {
  }

  lemma {:induction false} OnlyTopShows(limits: Limits, supported: string -> bool, layers: seq<Layer>, l: int, n: int, path: string)
    requires layers != [] && Has(layers[|layers| - 1].entries, Parts(path)) && Shows(limits, supported, layers, l, n, path)
    ensures l == |layers| - 1 && LastAt(layers[|layers| - 1].entries, n, Parts(path))
  {
    hide Parts, Brings, Has, IsMarker, LastAt, CoveredBy;
  }

  lemma {:induction false} OneIsLast(entries: seq<Entry>, i: int, n: int, parts: seq<string>)
    requires LastAt(entries, i, parts) && LastAt(entries, n, parts)
    ensures i == n
  {
    hide PartsOf;
  }

  lemma {:induction false} ShowsUnderSilentTop(limits: Limits, supported: string -> bool, layers: seq<Layer>, l: int, n: int, path: string)
    requires layers != [] && !Has(layers[|layers| - 1].entries, Parts(path))
    ensures Shows(limits, supported, layers, l, n, path) <==>
            && Shows(limits, supported, layers[..|layers| - 1], l, n, path)
            && !CoveredBy(layers[|layers| - 1].entries, Parts(path))
    ensures Shows(limits, supported, layers, l, n, path) ==> 0 <= l < |layers| - 1 && layers[..|layers| - 1][l] == layers[l]
  {
    hide Parts, Brings, IsMarker, NothingAbove, Has, CoveredBy, LastAt;
    if 0 <= l < |layers| - 1 {
      ShowsBelow(limits, supported, layers, l, n, path);
      hide Shows;
    } else if l == |layers| - 1 {
      TopIsSilent(limits, supported, layers, n, path);
    }
  }

  lemma {:induction false} ShownBelow(limits: Limits, supported: string -> bool, layers: seq<Layer>, path: string, file: Option<ImageFile>)
    requires layers != [] && !Has(layers[|layers| - 1].entries, Parts(path))
    requires !CoveredBy(layers[|layers| - 1].entries, Parts(path)) ==>
               IsShown(limits, supported, layers[..|layers| - 1], path, file)
    ensures IsShown(limits, supported, layers, path, if CoveredBy(layers[|layers| - 1].entries, Parts(path)) then None else file)
  {
    hide Parts, CoveredBy, Has, Shows;
    var below, covered := layers[..|layers| - 1], CoveredBy(layers[|layers| - 1].entries, Parts(path));
    forall l, n
      ensures Shows(limits, supported, layers, l, n, path) <==> Shows(limits, supported, below, l, n, path) && !covered
      ensures Shows(limits, supported, layers, l, n, path) ==> 0 <= l < |below| && below[l] == layers[l]
    {
      ShowsUnderSilentTop(limits, supported, layers, l, n, path);
    }
  }

  lemma {:induction false} TopIsSilent(limits: Limits, supported: string -> bool, layers: seq<Layer>, n: int, path: string)
    requires layers != [] && !Has(layers[|layers| - 1].entries, Parts(path))
    ensures !Shows(limits, supported, layers, |layers| - 1, n, path)
  {
    hide PartsOf, Parts, Brings, IsMarker, CoveredBy;
  }

  lemma {:induction false} LookupExactly(limits: Limits, supported: string -> bool, layers: seq<Layer>, path: string)
    requires AllLayersSafe(layers) && Normal(path)
    ensures IsShown(limits, supported, layers, path, Lookup(limits, supported, layers, path))
  {
    if layers != [] {
      var below, top := layers[..|layers| - 1], layers[|layers| - 1];
      hide Normal, Parts, Member, Whiteouts, Hides, AllSafe, IsShown, WordIs, CoveredBy;
      LookupExactly(limits, supported, below, path);
      MemberExactly(limits, supported, top.digest, top.entries, path);
      HidesExactly(top.entries, path);
      var word := Member(limits, supported, top.digest, top.entries, path);
      SaysIfHas(limits, supported, top.digest, top.entries, path, word);
      hide Has;
      if Has(top.entries, Parts(path)) {
        ShownByTop(limits, supported, layers, path, word);
      } else {
        ShownBelow(limits, supported, layers, path, Lookup(limits, supported, below, path));
      }
    }
  }

  lemma {:induction false} SaysIfHas(limits: Limits, supported: string -> bool, digest: string, entries: seq<Entry>, path: string, word: Word)
    requires WordIs(limits, supported, digest, entries, path, word)
    ensures word.Says? <==> Has(entries, Parts(path))
  {
  }

  /** An image shows exactly the files its members bring where nothing above has the path or covers
      it: at every path in normal form, and at no other. */
  lemma {:induction false} ImageExactly(limits: Limits, supported: string -> bool, layers: seq<Layer>, path: string)
    requires AllLayersSafe(layers)
    ensures var files := Fold(limits, supported, layers);
            && (path in files <==> Normal(path) && exists l, n :: Shows(limits, supported, layers, l, n, path))
            && forall l, n :: Normal(path) && Shows(limits, supported, layers, l, n, path) ==>
                 path in files && files[path] == ImageFile(layers[l].entries[n].data.value, layers[l].digest)
  {
    FoldIsLookup(limits, supported, layers, path);
    if path in Fold(limits, supported, layers) { FoldIsNormal(limits, supported, layers, path); }
    hide Fold, Lookup, Normal, Shows, AllLayersSafe;
    if Normal(path) { LookupExactly(limits, supported, layers, path); }
  }

  lemma {:induction false} FoldIsNormal(limits: Limits, supported: string -> bool, layers: seq<Layer>, path: string)
    requires AllLayersSafe(layers) && path in Fold(limits, supported, layers)
    ensures Normal(path)
  {
    if layers != [] {
      var below, top := layers[..|layers| - 1], layers[|layers| - 1];
      var lower := Unhidden(Fold(limits, supported, below), Whiteouts(top.entries));
      hide Normal, Member, Whiteouts, Hides, AllSafe, WithEntries;
      WithEntriesAt(limits, supported, top.digest, lower, top.entries, path);
      if Member(limits, supported, top.digest, top.entries, path).Says? {
        MemberIsNormal(limits, supported, top.digest, top.entries, path);
      } else {
        FoldIsNormal(limits, supported, below, path);
      }
    }
  }

  lemma {:induction false} MemberIsNormal(limits: Limits, supported: string -> bool, digest: string, entries: seq<Entry>, path: string)
    requires AllSafe(entries) && Member(limits, supported, digest, entries, path).Says?
    ensures Normal(path)
  {
    hide Normal, Name, FileOf;
    if Path(entries[|entries| - 1]) != path || Marker(Name(path)) {
      MemberIsNormal(limits, supported, digest, entries[..|entries| - 1], path);
    }
  }

  lemma {:induction false} TopShows(limits: Limits, supported: string -> bool, layers: seq<Layer>, n: int, path: string)
    requires layers != [] && Has(layers[|layers| - 1].entries, Parts(path)) && LastAt(layers[|layers| - 1].entries, n, Parts(path))
    ensures Shows(limits, supported, layers, |layers| - 1, n, path) <==> Brings(limits, supported, layers[|layers| - 1].entries[n], path)
  {
  }

  // ---------------------------------------------------------------- which images are accepted

  function Sum<T>(xs: seq<T>, count: T -> int): int {
    if xs == [] then 0 else Sum(xs[..|xs| - 1], count) + count(xs[|xs| - 1])
  }

  function DeclaredSize(e: Entry): int { if e.size > 0 then e.size else 0 }

  /** A regular member of a supported name and an admissible size counts with its size. */
  predicate Counts(limits: Limits, supported: string -> bool, e: Entry) {
    e.kind == Regular && !IsMarker(PartsOf(e)) && supported(Posix(PartsOf(e))) && 0 <= e.size <= limits.maxFileBytes
  }

  function ChargeOf(limits: Limits, supported: string -> bool): Entry -> int {
    (e: Entry) => if Counts(limits, supported, e) then e.size else 0
  }

  function ChargeOfLayer(limits: Limits, supported: string -> bool): Layer -> int {
    (layer: Layer) => Sum(layer.entries, ChargeOf(limits, supported))
  }

  function MembersOf(layer: Layer): int { |layer.entries| }

  /** A name that leads to a place in the image and is not a marker of nothing. */
  predicate GoodMember(e: Entry) {
    && PartsOf(e) != [] && !Absolute(Cleaned(e.name)) && ".." !in PartsOf(e) && '\0' !in Cleaned(e.name)
    && PartsOf(e)[|PartsOf(e)| - 1] != ".wh."
  }

  predicate GoodLayer(limits: Limits, supported: string -> bool, layer: Layer) {
    && (forall e :: e in layer.entries ==> GoodMember(e))
    && Sum(layer.entries, DeclaredSize) <= limits.maxLayerBytes
    && (forall e :: e in layer.entries && Counts(limits, supported, e) && e.data.Some? ==> |e.data.value| <= limits.maxFileBytes)
  }

  lemma {:induction false} GoodExactly(e: Entry)
    ensures Safe(e) <==> PartsOf(e) != [] && !Absolute(Cleaned(e.name)) && ".." !in PartsOf(e) && '\0' !in Cleaned(e.name)
    ensures Safe(e) && !BadMarker(Path(e)) <==> GoodMember(e)
  {
    SafePathExactly(e.name);
    hide SafePath, Cleaned, Absolute;
    if Safe(e) {
      SafeParts(e);
      var parts := PartsOf(e);
      assert parts == parts[..|parts| - 1] + [parts[|parts| - 1]];
      hide Safe, Path, Posix, Parts;
      NameAndParent(parts[..|parts| - 1], parts[|parts| - 1]);
    }
  }

  lemma {:induction false} CountsExactly(limits: Limits, supported: string -> bool, e: Entry)
    requires Safe(e)
    ensures Chargeable(limits, supported, e) <==> Counts(limits, supported, e)
  {
    MarkersAre(e);
    SafeParts(e);
    hide Safe, Path, Name, PartsOf;
  }

  lemma {:induction false} LayerBytesAre(entries: seq<Entry>)
    ensures LayerBytes(entries) == Sum(entries, DeclaredSize)
  {
    if entries != [] { LayerBytesAre(entries[..|entries| - 1]); }
  }

  lemma {:induction false} ChargeIs(limits: Limits, supported: string -> bool, entries: seq<Entry>)
    requires AllSafe(entries)
    ensures Charge(limits, supported, entries) == Sum(entries, ChargeOf(limits, supported))
  {
    hide Safe, Chargeable, Counts;
    if entries != [] {
      ChargeIs(limits, supported, entries[..|entries| - 1]);
      assert Safe(entries[|entries| - 1]);
      CountsExactly(limits, supported, entries[|entries| - 1]);
    }
  }

  lemma {:induction false} EntriesAre(layers: seq<Layer>)
    ensures AllEntries(layers) == Sum(layers, MembersOf)
  {
    if layers != [] { EntriesAre(layers[..|layers| - 1]); }
  }

  lemma {:induction false} ChargesAre(limits: Limits, supported: string -> bool, layers: seq<Layer>)
    requires AllLayersSafe(layers)
    ensures AllCharges(limits, supported, layers) == Sum(layers, ChargeOfLayer(limits, supported))
  {
    hide AllSafe;
    if layers != [] {
      ChargesAre(limits, supported, layers[..|layers| - 1]);
      ChargeIs(limits, supported, layers[|layers| - 1].entries);
    }
  }

  lemma {:induction false} GoodLayerExactly(limits: Limits, supported: string -> bool, layer: Layer)
    ensures GoodLayer(limits, supported, layer) <==>
            Valid(layer.entries) && LayerBytes(layer.entries) <= limits.maxLayerBytes
            && AllSafe(layer.entries) && WithinDeclared(limits, supported, layer.entries)
  {
    hide Safe, BadMarker, Chargeable, Counts, GoodMember, LayerBytes;
    LayerBytesAre(layer.entries);
    forall e ensures Safe(e) && !BadMarker(Path(e)) <==> GoodMember(e) { GoodExactly(e); }
    forall e | Safe(e) ensures Chargeable(limits, supported, e) <==> Counts(limits, supported, e) { CountsExactly(limits, supported, e); }
    if Valid(layer.entries) && WithinDeclared(limits, supported, layer.entries) {
      forall e | e in layer.entries
        ensures GoodMember(e)
        ensures Counts(limits, supported, e) && e.data.Some? ==> |e.data.value| <= limits.maxFileBytes
      {
        var i :| 0 <= i < |layer.entries| && layer.entries[i] == e;
        assert Safe(e) && !BadMarker(Path(e));
      }
    }
    if GoodLayer(limits, supported, layer) {
      forall i | 0 <= i < |layer.entries| ensures Safe(layer.entries[i]) && !BadMarker(Path(layer.entries[i])) {
        assert GoodMember(layer.entries[i]);
      }
    }
  }

  lemma {:induction false} LayerAccepted(limits: Limits, supported: string -> bool, layer: Layer, entries: nat, charged: nat)
    requires AllSafe(layer.entries)
    ensures Accepted(limits, supported, layer, entries, charged) <==>
            && GoodLayer(limits, supported, layer) && entries + |layer.entries| <= limits.maxEntries
            && charged + Charge(limits, supported, layer.entries) <= limits.maxScanBytes
  {
    GoodLayerExactly(limits, supported, layer);
    hide GoodLayer, AllSafe, Valid, WithinDeclared, Charge, LayerBytes;
  }

  predicate AllGood(limits: Limits, supported: string -> bool, layers: seq<Layer>) {
    forall l :: 0 <= l < |layers| ==> GoodLayer(limits, supported, layers[l])
  }

  lemma {:induction false} AllGoodTop(limits: Limits, supported: string -> bool, layers: seq<Layer>)
    requires layers != []
    ensures AllGood(limits, supported, layers) <==>
            AllGood(limits, supported, layers[..|layers| - 1]) && GoodLayer(limits, supported, layers[|layers| - 1])
  {
    hide GoodLayer;
    var below := layers[..|layers| - 1];
    assert forall l :: 0 <= l < |below| ==> below[l] == layers[l];
  }

  lemma {:induction false} BudgetsExactly(limits: Limits, supported: string -> bool, layers: seq<Layer>)
    requires AllLayersSafe(layers)
    ensures WithinBudgets(limits, supported, layers) <==>
            && AllGood(limits, supported, layers)
            && AllEntries(layers) <= limits.maxEntries && AllCharges(limits, supported, layers) <= limits.maxScanBytes
  {
    hide AllSafe, Accepted, GoodLayer, Charge;
    if layers != [] {
      var below, top := layers[..|layers| - 1], layers[|layers| - 1];
      BudgetsExactly(limits, supported, below);
      AllGoodTop(limits, supported, layers);
      hide AllGood;
      LayerAccepted(limits, supported, top, AllEntries(below), AllCharges(limits, supported, below));
    }
  }

  /** An image is accepted exactly when every layer by itself has good names, declares at most its
      limit and extracts to no more than the file limit, and the members and the charged sizes of
      all layers together are within theirs. */
  lemma {:induction false} AcceptedExactly(limits: Limits, supported: string -> bool, layers: seq<Layer>)
    ensures AcceptedLayers(limits, supported, layers) <==>
            && AllGood(limits, supported, layers)
            && Sum(layers, MembersOf) <= limits.maxEntries
            && Sum(layers, ChargeOfLayer(limits, supported)) <= limits.maxScanBytes
  {
    hide GoodLayer, AllSafe, WithinBudgets;
    EntriesAre(layers);
    if AllGood(limits, supported, layers) {
      forall l | 0 <= l < |layers| ensures AllSafe(layers[l].entries) { GoodLayerExactly(limits, supported, layers[l]); }
    }
    if AllLayersSafe(layers) {
      ChargesAre(limits, supported, layers);
      BudgetsExactly(limits, supported, layers);
    }
  }
}
