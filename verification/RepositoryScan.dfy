/** Full and incremental scans of a checked-out repository. Incremental keeps the active
    observations outside the changed paths and rescans the changed ones. */
module RepositoryScan {
  import opened Common
  import opened PosixPaths
  import opened RepositoryDiff

  /** An observation, with the path it was made at. */
  datatype Observation = Observation(locator: Option<string>, detail: nat)

  /** A regular file of a checkout. Its text is missing when it cannot be read. */
  datatype File = File(size: nat, text: Option<string>)

  /** The regular files of a checkout, symbolic links excluded. */
  type Tree = map<string, File>

  /** The source scanner as a function of path and text, the paths it supports, and the limits. */
  datatype Config = Config(
    detect: (string, string) -> set<Observation>, supported: string -> bool,
    maxFiles: nat, maxFileBytes: nat, maxScanBytes: nat)

  /** Every observation carries the path it was made at. */
  ghost predicate Located(config: Config) {
    forall path, text, o :: o in config.detect(path, text) ==> o.locator == Some(path)
  }

  /** What one path contributes to a scan. */
  function FoundAt(config: Config, tree: Tree, path: string): set<Observation> {
    if config.supported(path) && path in tree && tree[path].size <= config.maxFileBytes && tree[path].text.Some?
    then config.detect(path, tree[path].text.value)
    else {}
  }

  function FoundIn(config: Config, tree: Tree, paths: set<string>): (r: set<Observation>)
    ensures forall o :: o in r <==> exists p :: p in paths && o in FoundAt(config, tree, p)
  {
    set p, o | p in paths && o in FoundAt(config, tree, p) :: o
  }

  /** A scan of the whole tree. */
  function FullScan(config: Config, tree: Tree): set<Observation> { FoundIn(config, tree, tree.Keys) }

  /** The active observations no changed path touches. */
  function Retained(active: set<Observation>, touched: set<string>): set<Observation> {
    set o | o in active && (o.locator.None? || o.locator.value !in touched)
  }

  function IncrementalScan(config: Config, active: set<Observation>, tree: Tree, delta: Delta): set<Observation> {
    Retained(active, delta.touched) + FoundIn(config, tree, delta.current)
  }

  // ---------------------------------------------------------------- incremental equals full

  predicate SameFile(previous: Tree, tree: Tree, path: string) {
    (path in previous <==> path in tree) && (path in previous ==> previous[path] == tree[path])
  }

  /** The diff touches every path at which the two trees differ. */
  ghost predicate Covers(delta: Delta, previous: Tree, tree: Tree) {
    && delta.current <= delta.touched
    && forall path :: path !in delta.touched ==> SameFile(previous, tree, path)
  }

  lemma {:induction false} LocatedAt(config: Config, tree: Tree, path: string, o: Observation)
    requires Located(config) && o in FoundAt(config, tree, path)
    ensures o.locator == Some(path) && path in tree
  {
  }

  /** The active set may stem from another scan than the one the diff starts from. When it is the
      full scan of the tree `scanned` and the diff covers the changes from `previous`, the
      incremental scan is the full scan exactly if the two trees scan to the same outside the
      touched paths, and every path the diff touches without calling it current scans to nothing
      in the new tree. */
  lemma {:induction false} IncrementalOnAnotherScan(config: Config, scanned: Tree, previous: Tree, tree: Tree, delta: Delta)
    requires Located(config) && Covers(delta, previous, tree)
    ensures IncrementalScan(config, FullScan(config, scanned), tree, delta) == FullScan(config, tree) <==>
            && (forall p :: p !in delta.touched ==> FoundAt(config, scanned, p) == FoundAt(config, previous, p))
            && (forall p :: p in delta.touched - delta.current ==> FoundAt(config, tree, p) == {})
  {
    var scan, full := IncrementalScan(config, FullScan(config, scanned), tree, delta), FullScan(config, tree);
    forall o ensures o in scan <==> InScan(config, scanned, tree, delta, o) { ScanContains(config, scanned, tree, delta, o); }
    forall o ensures o in full <==> InFull(config, tree, o) { FullContains(config, tree, o); }
    forall p | p !in delta.touched ensures FoundAt(config, previous, p) == FoundAt(config, tree, p) {
      assert SameFile(previous, tree, p);
    }
    hide IncrementalScan, FullScan, SameFile;
    if scan == full {
      forall p, o | p !in delta.touched ensures o in FoundAt(config, scanned, p) <==> o in FoundAt(config, tree, p) {
        ScanAndFullAt(config, scanned, tree, delta, p, o);
      }
      forall p, o | p in delta.touched - delta.current ensures o !in FoundAt(config, tree, p) {
        ScanAndFullAt(config, scanned, tree, delta, p, o);
      }
    }
  }

  predicate InScan(config: Config, scanned: Tree, tree: Tree, delta: Delta, o: Observation) {
    o.locator.Some? &&
    var p := o.locator.value;
    if p in delta.current then o in FoundAt(config, tree, p) || (p !in delta.touched && o in FoundAt(config, scanned, p))
    else p !in delta.touched && o in FoundAt(config, scanned, p)
  }

  predicate InFull(config: Config, tree: Tree, o: Observation) {
    o.locator.Some? && o in FoundAt(config, tree, o.locator.value)
  }

  lemma {:induction false} FullContains(config: Config, tree: Tree, o: Observation)
    requires Located(config)
    ensures o in FullScan(config, tree) <==> InFull(config, tree, o)
  {
    if o in FullScan(config, tree) {
      var p :| p in tree.Keys && o in FoundAt(config, tree, p);
      LocatedAt(config, tree, p, o);
    }
    if InFull(config, tree, o) { LocatedAt(config, tree, o.locator.value, o); }
  }

  lemma {:induction false} ScanContains(config: Config, scanned: Tree, tree: Tree, delta: Delta, o: Observation)
    requires Located(config)
    ensures o in IncrementalScan(config, FullScan(config, scanned), tree, delta) <==> InScan(config, scanned, tree, delta, o)
  {
    FullContains(config, scanned, o);
    if o in FoundIn(config, tree, delta.current) {
      var p :| p in delta.current && o in FoundAt(config, tree, p);
      LocatedAt(config, tree, p, o);
    }
    hide FullScan, FoundAt;
  }

  lemma {:induction false} ScanAndFullAt(config: Config, scanned: Tree, tree: Tree, delta: Delta, p: string, o: Observation)
    requires Located(config) && delta.current <= delta.touched
    requires InScan(config, scanned, tree, delta, o) <==> InFull(config, tree, o)
    ensures p !in delta.touched ==> (o in FoundAt(config, scanned, p) <==> o in FoundAt(config, tree, p))
    ensures p in delta.touched - delta.current ==> o !in FoundAt(config, tree, p)
  {
    if o in FoundAt(config, scanned, p) { LocatedAt(config, scanned, p, o); }
    if o in FoundAt(config, tree, p) { LocatedAt(config, tree, p, o); }
    hide FoundAt;
  }

  /** When the active set is the full scan of the previous tree and the diff covers the changes,
      the incremental scan is the full scan exactly if every path the diff touches without
      calling it current scans to nothing in the new tree. */
  lemma {:induction false} IncrementalIsFull(config: Config, previous: Tree, tree: Tree, delta: Delta)
    requires Located(config) && Covers(delta, previous, tree)
    ensures IncrementalScan(config, FullScan(config, previous), tree, delta) == FullScan(config, tree)
            <==> forall p :: p in delta.touched - delta.current ==> FoundAt(config, tree, p) == {}
  {
    IncrementalOnAnotherScan(config, previous, previous, tree, delta);
  }

  // ---------------------------------------------------------------- diffs

  /** The diff of two trees, entry by entry: deleted paths and rename sources are gone from the
      new tree, and every change is listed. A copy leaves its source where it is. */
  ghost predicate IsDiff(entries: seq<Entry>, previous: Tree, tree: Tree) {
    && AllWellFormed(entries) && AllSafePaths(entries)
    && (forall path :: path !in DeltaOf(entries).touched ==> SameFile(previous, tree, path))
    && (forall i :: 0 <= i < |entries| ==> Vacates(entries[i], tree))
  }

  predicate Vacates(e: Entry, tree: Tree)
    requires SafePaths(e)
  {
    match e
    case One(status, path) => "D" <= status ==> SafeRelative(path).value !in tree
    case Two(status, source, _) =>
      "R" <= status ==> SafeRelative(source).value !in tree
  }

  predicate IsCopy(e: Entry) { e.Two? && "C" <= e.status }

  predicate NoCopies(entries: seq<Entry>) { forall i :: 0 <= i < |entries| ==> !IsCopy(entries[i]) }

  lemma {:induction false} VacatedPaths(entries: seq<Entry>, tree: Tree, p: string)
    requires AllWellFormed(entries) && AllSafePaths(entries) && NoCopies(entries)
    requires forall i :: 0 <= i < |entries| ==> Vacates(entries[i], tree)
    requires p in DeltaOf(entries).touched && p !in DeltaOf(entries).current
    ensures p !in tree
  {
    hide SafeRelative;
    var first, rest := entries[0], entries[1..];
    assert Vacates(first, tree) && !IsCopy(first) && WellFormed(first);
    if p !in Touch(first) {
      VacatedPaths(rest, tree, p);
    }
  }

  /** Without copies an incremental scan of a diff finds exactly what a full scan finds. */
  lemma {:induction false} NoCopiesMeansFull(config: Config, previous: Tree, tree: Tree, entries: seq<Entry>)
    requires Located(config) && IsDiff(entries, previous, tree) && NoCopies(entries)
    ensures IncrementalScan(config, FullScan(config, previous), tree, DeltaOf(entries)) == FullScan(config, tree)
  {
    var delta := DeltaOf(entries);
    CurrentIsTouched(entries);
    forall p | p in delta.touched - delta.current ensures FoundAt(config, tree, p) == {} {
      VacatedPaths(entries, tree, p);
    }
    IncrementalIsFull(config, previous, tree, delta);
  }

  /** The diff of two trees as git prints it, in terms of its own paths: every path at which the
      trees differ is named, and deleted paths and rename sources are gone. */
  ghost predicate IsGitDiff(entries: seq<Entry>, previous: Tree, tree: Tree) {
    && AllWellFormed(entries) && AllNormalPaths(entries)
    && (forall p :: !NamedBy(entries, p) ==> SameFile(previous, tree, p))
    && (forall i :: 0 <= i < |entries| ==>
          match entries[i]
          case One(status, path) => "D" <= status ==> path !in tree
          case Two(status, source, _) => "R" <= status ==> source !in tree)
  }

  lemma {:induction false} GitDiffIsDiff(entries: seq<Entry>, previous: Tree, tree: Tree)
    requires IsGitDiff(entries, previous, tree)
    ensures IsDiff(entries, previous, tree)
  {
    NormalDelta(entries, "");
    forall p | p !in DeltaOf(entries).touched ensures SameFile(previous, tree, p) { NormalDelta(entries, p); }
    forall i | 0 <= i < |entries| ensures Vacates(entries[i], tree) {
      assert NormalPaths(entries[i]) && WellFormed(entries[i]);
      match entries[i] {
        case One(_, path) => SafeRelativeExactly(path);
        case Two(_, source, target) => SafeRelativeExactly(source);
      }
    }
  }

  /** From the text git prints, for paths in normal form and without copies, the incremental scan
      finds what a full scan finds: every supported, readable file within the size limit, scanned. */
  lemma {:induction false} GitTextMeansFull(config: Config, previous: Tree, tree: Tree, entries: seq<Entry>)
    requires Located(config) && IsGitDiff(entries, previous, tree)
    requires forall i :: 0 <= i < |entries| ==> !(entries[i].Two? && "C" <= entries[i].status)
    requires forall i :: 0 <= i < |Printed(entries)| ==> '\0' !in Printed(entries)[i]
    ensures var delta := Parsed(FieldsOf(Terminated(Printed(entries))));
            && delta.Ok?
            && forall o :: o in IncrementalScan(config, FullScan(config, previous), tree, delta.value) <==>
                 exists p :: p in tree && config.supported(p) && tree[p].size <= config.maxFileBytes && tree[p].text.Some?
                             && o in config.detect(p, tree[p].text.value)
  {
    GitDiffIsDiff(entries, previous, tree);
    assert NoCopies(entries);
    FullScanExactly(config, tree);
    hide *;
    DiffTextMeansFull(config, previous, tree, entries);
  }

  /** A full scan finds exactly what the files within the limits are scanned to. */
  lemma {:induction false} FullScanExactly(config: Config, tree: Tree)
    ensures forall o :: o in FullScan(config, tree) <==>
              exists p :: p in tree && config.supported(p) && tree[p].size <= config.maxFileBytes && tree[p].text.Some?
                          && o in config.detect(p, tree[p].text.value)
  {
  }

  /** From the diff's output text to the full scan's observations. */
  lemma {:induction false} DiffTextMeansFull(config: Config, previous: Tree, tree: Tree, entries: seq<Entry>)
    requires Located(config) && IsDiff(entries, previous, tree) && NoCopies(entries)
    requires forall i :: 0 <= i < |Printed(entries)| ==> '\0' !in Printed(entries)[i]
    ensures var delta := Parsed(FieldsOf(Terminated(Printed(entries))));
            delta.Ok? && IncrementalScan(config, FullScan(config, previous), tree, delta.value) == FullScan(config, tree)
  {
    OutputRoundTrip(entries);
    NoCopiesMeansFull(config, previous, tree, entries);
  }

  /** With a copy it does not: the source of the copy is dropped although it is still there. */
  lemma {:induction false} CopyLosesSource(config: Config, source: string, target: string, text: string)
    requires Located(config) && Normal(source) && Normal(target) && source != target
    requires config.supported(source) && config.detect(source, text) != {} && |text| <= config.maxFileBytes
    ensures var previous := map[source := File(|text|, Some(text))];
            var tree := previous[target := previous[source]];
            var entries := [Two("C100", source, target)];
            && IsDiff(entries, previous, tree)
            && IncrementalScan(config, FullScan(config, previous), tree, DeltaOf(entries)) != FullScan(config, tree)
  {
    SafeRelativeExactly(source);
    SafeRelativeExactly(target);
    hide SafeRelative, Normal;
    var previous := map[source := File(|text|, Some(text))];
    var tree := previous[target := previous[source]];
    var entries := [Two("C100", source, target)];
    assert entries[1..] == [];
    assert DeltaOf(entries) == Delta({source, target}, {target}) by {
      assert DeltaOf(entries[1..]) == Delta({}, {});
    }
    assert IsDiff(entries, previous, tree) by {
      assert SafePaths(entries[0]);
      assert forall path :: path !in {source, target} ==> SameFile(previous, tree, path);
    }
    assert source in DeltaOf(entries).touched - DeltaOf(entries).current;
    assert FoundAt(config, tree, source) != {};
    hide IsDiff;
    IncrementalIsFull(config, previous, tree, DeltaOf(entries));
  }

  /** A later revision: its tree, and its diff against the revision before it. */
  datatype Revision = Revision(tree: Tree, entries: seq<Entry>)

  function Latest(first: Tree, revisions: seq<Revision>): Tree {
    if revisions == [] then first else revisions[|revisions| - 1].tree
  }

  ghost predicate IsHistory(first: Tree, revisions: seq<Revision>) {
    revisions == [] ||
    var before, last := revisions[..|revisions| - 1], revisions[|revisions| - 1];
    IsHistory(first, before) && IsDiff(last.entries, Latest(first, before), last.tree) && NoCopies(last.entries)
  }

  /** Every revision is scanned incrementally on the active set the one before it left. */
  ghost function ScanHistory(config: Config, first: Tree, revisions: seq<Revision>): set<Observation>
    requires IsHistory(first, revisions)
  {
    if revisions == [] then FullScan(config, first) else
    var before, last := revisions[..|revisions| - 1], revisions[|revisions| - 1];
    IncrementalScan(config, ScanHistory(config, first, before), last.tree, DeltaOf(last.entries))
  }

  /** However many incremental scans follow a full one, the last still equals a full scan. */
  lemma {:induction false} HistoryIsFull(config: Config, first: Tree, revisions: seq<Revision>)
    requires Located(config) && IsHistory(first, revisions)
    ensures ScanHistory(config, first, revisions) == FullScan(config, Latest(first, revisions))
  {
    if revisions != [] {
      var before, last := revisions[..|revisions| - 1], revisions[|revisions| - 1];
      HistoryIsFull(config, first, before);
      NoCopiesMeansFull(config, Latest(first, before), last.tree, last.entries);
    }
  }

  // ---------------------------------------------------------------- scanning within limits

  /** The bytes a scan of some paths reads. */
  ghost function Sizes(config: Config, tree: Tree, paths: set<string>): map<string, nat> {
    map p | p in paths && config.supported(p) && p in tree && tree[p].size <= config.maxFileBytes :: tree[p].size
  }

  ghost function Bytes(config: Config, tree: Tree, paths: set<string>): nat { SumOf(Sizes(config, tree, paths)) }

  lemma {:induction false} BytesOfOneMore(config: Config, tree: Tree, paths: set<string>, p: string)
    requires p !in paths
    ensures Bytes(config, tree, paths + {p}) == Bytes(config, tree, paths)
            + if config.supported(p) && p in tree && tree[p].size <= config.maxFileBytes then tree[p].size else 0
  {
    if config.supported(p) && p in tree && tree[p].size <= config.maxFileBytes {
      assert Sizes(config, tree, paths + {p}) == Sizes(config, tree, paths)[p := tree[p].size];
      SumUpdate(Sizes(config, tree, paths), p, tree[p].size);
    } else {
      assert Sizes(config, tree, paths + {p}) == Sizes(config, tree, paths);
    }
  }

  lemma {:induction false} BytesGrow(config: Config, tree: Tree, some: set<string>, all: set<string>)
    requires some <= all
    ensures Bytes(config, tree, some) <= Bytes(config, tree, all)
    decreases all - some
  {
    if p :| p in all && p !in some {
      BytesOfOneMore(config, tree, some, p);
      BytesGrow(config, tree, some + {p}, all);
    } else {
      assert some == all;
    }
  }

  lemma {:induction false} FoundInOneMore(config: Config, tree: Tree, paths: set<string>, p: string)
    ensures FoundIn(config, tree, paths + {p}) == FoundIn(config, tree, paths) + FoundAt(config, tree, p)
  {
    hide FoundAt;
    forall o ensures o in FoundIn(config, tree, paths + {p}) <==> o in FoundIn(config, tree, paths) + FoundAt(config, tree, p) {
      if o in FoundAt(config, tree, p) { assert p in paths + {p}; }
      if q :| q in paths && o in FoundAt(config, tree, q) { assert q in paths + {p}; }
    }
  }

  /** The files among the paths that a scan reads. */
  function ReadFiles(config: Config, tree: Tree, paths: set<string>): set<string> {
    set p | p in paths && config.supported(p) && p in tree && tree[p].size <= config.maxFileBytes && tree[p].text.Some?
  }

  lemma {:induction false} ReadOneMore(config: Config, tree: Tree, paths: set<string>, p: string)
    requires p !in paths
    ensures |ReadFiles(config, tree, paths + {p})| == |ReadFiles(config, tree, paths)|
            + if config.supported(p) && p in tree && tree[p].size <= config.maxFileBytes && tree[p].text.Some? then 1 else 0
  {
    var before := ReadFiles(config, tree, paths);
    if config.supported(p) && p in tree && tree[p].size <= config.maxFileBytes && tree[p].text.Some? {
      assert ReadFiles(config, tree, paths + {p}) == before + {p};
    } else {
      assert ReadFiles(config, tree, paths + {p}) == before;
    }
  }

  /** Scans the given paths, within the file and byte limits. */
  method ScanPaths(config: Config, tree: Tree, paths: set<string>) returns (r: Result<(set<Observation>, nat)>)
    ensures r.Ok? <==> |paths| <= config.maxFiles && Bytes(config, tree, paths) <= config.maxScanBytes
    ensures r.Ok? ==> r.value == (FoundIn(config, tree, paths), |ReadFiles(config, tree, paths)|)
    ensures r.Err? ==> r.error == RuntimeError
  {
    if |paths| > config.maxFiles { return Err(RuntimeError); }
    var observations: set<Observation> := {};
    var scannedFiles, scannedBytes: nat := 0, 0;
    var left := paths;
    assert Sizes(config, tree, {}) == map[] && Bytes(config, tree, {}) == 0;
    assert FoundIn(config, tree, {}) == {} && ReadFiles(config, tree, {}) == {} && paths - paths == {} && paths - {} == paths;
    hide *;
    while left != {}
      invariant left <= paths
      invariant observations == FoundIn(config, tree, paths - left)
      invariant scannedBytes == Bytes(config, tree, paths - left) <= config.maxScanBytes
      invariant scannedFiles == |ReadFiles(config, tree, paths - left)|
      decreases |left|
    {
      var relative :| relative in left;
      PathOneMore(config, tree, paths, left, relative);
      left := left - {relative};
      if !config.supported(relative) { continue; }
      if relative !in tree { continue; }
      var file := tree[relative];
      if file.size > config.maxFileBytes { continue; }
      scannedBytes := scannedBytes + file.size;
      if scannedBytes > config.maxScanBytes { return Err(RuntimeError); }
      if file.text.None? { continue; }
      observations := observations + config.detect(relative, file.text.value);
      scannedFiles := scannedFiles + 1;
    }
    r := Ok((observations, scannedFiles));
  }

  /** One round of the loop over the paths. */
  lemma {:induction false} PathOneMore(config: Config, tree: Tree, paths: set<string>, left: set<string>, p: string)
    requires left <= paths && p in left
    ensures var done, more := paths - left, paths - (left - {p});
            && Bytes(config, tree, more) <= Bytes(config, tree, paths)
            && |ReadFiles(config, tree, more)| == |ReadFiles(config, tree, done)|
               + (if config.supported(p) && p in tree && tree[p].size <= config.maxFileBytes && tree[p].text.Some? then 1 else 0)
            && (config.supported(p) && p in tree && tree[p].size <= config.maxFileBytes ==>
                  && Bytes(config, tree, more) == Bytes(config, tree, done) + tree[p].size
                  && (tree[p].text.Some? ==>
                        FoundIn(config, tree, more) == FoundIn(config, tree, done) + config.detect(p, tree[p].text.value))
                  && (tree[p].text.None? ==> FoundIn(config, tree, more) == FoundIn(config, tree, done)))
            && (!(config.supported(p) && p in tree && tree[p].size <= config.maxFileBytes) ==>
                  && Bytes(config, tree, more) == Bytes(config, tree, done)
                  && FoundIn(config, tree, more) == FoundIn(config, tree, done))
  {
    var done := paths - left;
    assert paths - (left - {p}) == done + {p};
    BytesOfOneMore(config, tree, done, p);
    BytesGrow(config, tree, done + {p}, paths);
    ReadOneMore(config, tree, done, p);
    FoundInOneMore(config, tree, done, p);
    hide Bytes, FoundIn, ReadFiles;
  }

  /** The supported files among the names of a walk. */
  function SupportedFiles(config: Config, tree: Tree, walk: seq<string>): set<string> {
    set i | 0 <= i < |walk| && walk[i] in tree && config.supported(walk[i]) :: walk[i]
  }

  /** A walk visits every file of the tree once, and whatever else there is. */
  ghost predicate Walks(walk: seq<string>, tree: Tree) {
    && (forall p :: p in tree ==> p in walk)
    && (forall i, k :: 0 <= i < k < |walk| ==> walk[i] != walk[k])
  }

  /** Scans the whole checkout. A further name after the file limit is reached refuses it. */
  method ScanCheckout(config: Config, tree: Tree, walk: seq<string>) returns (r: Result<(set<Observation>, nat)>)
    requires Walks(walk, tree)
    ensures r.Ok? <==> && (walk != [] ==> |SupportedFiles(config, tree, walk[..|walk| - 1])| < config.maxFiles)
                       && Bytes(config, tree, tree.Keys) <= config.maxScanBytes
    ensures r.Ok? ==> r.value == (FullScan(config, tree), |ReadFiles(config, tree, tree.Keys)|)
    ensures r.Err? ==> r.error == RuntimeError
  {
    var paths: set<string> := {};
    for i := 0 to |walk|
      invariant paths == SupportedFiles(config, tree, walk[..i])
      invariant i > 0 ==> |SupportedFiles(config, tree, walk[..i - 1])| < config.maxFiles
    {
      WalkOneMore(config, tree, walk, i);
      hide SupportedFiles;
      if |paths| >= config.maxFiles { return Err(RuntimeError); }
      if walk[i] !in tree { continue; }
      if config.supported(walk[i]) { paths := paths + {walk[i]}; }
    }
    if walk != [] { WalkOneMore(config, tree, walk, |walk| - 1); }
    WalkedAll(config, tree, walk, paths);
    r := ScanPaths(config, tree, paths);
  }

  lemma {:induction false} WalkOneMore(config: Config, tree: Tree, walk: seq<string>, i: nat)
    requires i < |walk|
    ensures var before := SupportedFiles(config, tree, walk[..i]);
            && SupportedFiles(config, tree, walk[..i + 1])
               == before + (if walk[i] in tree && config.supported(walk[i]) then {walk[i]} else {})
            && |SupportedFiles(config, tree, walk[..i + 1])| <= |before| + 1
            && |before| <= |SupportedFiles(config, tree, walk[..|walk| - 1])|
  {
    var before, after := SupportedFiles(config, tree, walk[..i]), SupportedFiles(config, tree, walk[..i + 1]);
    var added := if walk[i] in tree && config.supported(walk[i]) then {walk[i]} else {};
    forall p ensures p in after <==> p in before + added {
      if p in before { var k :| 0 <= k < i && walk[..i][k] == p; assert walk[..i + 1][k] == p; }
      if p in added { assert walk[..i + 1][i] == p; }
    }
    WalkGrows(config, tree, walk, i);
    hide SupportedFiles;
    assert after == before + added;
  }

  lemma {:induction false} WalkGrows(config: Config, tree: Tree, walk: seq<string>, i: nat)
    requires i < |walk|
    ensures |SupportedFiles(config, tree, walk[..i])| <= |SupportedFiles(config, tree, walk[..|walk| - 1])|
  {
    var before, all := SupportedFiles(config, tree, walk[..i]), SupportedFiles(config, tree, walk[..|walk| - 1]);
    forall p | p in before ensures p in all {
      var k :| 0 <= k < i && walk[..i][k] == p;
      assert walk[..|walk| - 1][k] == p;
    }
    assert all == before + (all - before);
  }

  lemma {:induction false} WalkedAll(config: Config, tree: Tree, walk: seq<string>, paths: set<string>)
    requires Walks(walk, tree) && paths == SupportedFiles(config, tree, walk[..|walk|])
    ensures FoundIn(config, tree, paths) == FullScan(config, tree)
    ensures Bytes(config, tree, paths) == Bytes(config, tree, tree.Keys)
    ensures ReadFiles(config, tree, paths) == ReadFiles(config, tree, tree.Keys)
  {
    assert walk[..|walk|] == walk;
    forall p | p in tree && config.supported(p) ensures p in paths {
      var i :| 0 <= i < |walk| && walk[i] == p;
    }
    assert Sizes(config, tree, paths) == Sizes(config, tree, tree.Keys);
    forall o ensures o in FoundIn(config, tree, paths) <==> o in FullScan(config, tree) {
      if o in FullScan(config, tree) {
        var p :| p in tree.Keys && o in FoundAt(config, tree, p);
        assert p in paths;
      }
    }
  }

  /** One scan of a checkout: incremental when the previous commit is known and an ancestor, with
      the diff output against it, and full otherwise. */
  method Scan(config: Config, active: set<Observation>, tree: Tree, walk: seq<string>, diff: Option<string>)
      returns (r: Result<set<Observation>>)
    requires Walks(walk, tree)
    ensures diff.Some? ==>
              var delta := Parsed(FieldsOf(diff.value));
              && (r.Ok? <==> && delta.Ok? && |delta.value.current| <= config.maxFiles
                             && Bytes(config, tree, delta.value.current) <= config.maxScanBytes)
              && (r.Ok? ==> r.value == IncrementalScan(config, active, tree, delta.value))
    ensures diff.None? ==>
              && (r.Ok? <==> && (walk != [] ==> |SupportedFiles(config, tree, walk[..|walk| - 1])| < config.maxFiles)
                             && Bytes(config, tree, tree.Keys) <= config.maxScanBytes)
              && (r.Ok? ==> r.value == FullScan(config, tree))
    ensures r.Err? ==> r.error == RuntimeError
  {
    if diff.Some? {
      var delta := ChangedPaths(diff.value);
      if delta.Err? { return Err(RuntimeError); }
      var retained := Retained(active, delta.value.touched);
      var rescanned := ScanPaths(config, tree, delta.value.current);
      if rescanned.Err? { return Err(RuntimeError); }
      r := Ok(retained + rescanned.value.0);
    } else {
      var scanned := ScanCheckout(config, tree, walk);
      if scanned.Err? { return Err(RuntimeError); }
      r := Ok(scanned.value.0);
    }
  }
}
