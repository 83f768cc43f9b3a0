/** Incremental repository scans on the observation ledger. The diff starts at the commit of the
    last successful run, the retained observations come from the active states; these follow the
    scan recorded last, whether or not its job went on to succeed. */
module RepositoryLedger {
  import opened Common
  import opened Ledger
  import opened LedgerInvariant
  import opened LedgerRuns
  import opened LedgerViews
  import opened LedgerSweeps
  import D = RepositoryDiff
  import S = RepositoryScan
  import Q = ScanQueue

  /** The fingerprint of an observation. */
  type Identity = S.Observation -> Fingerprint

  ghost predicate Injective(identity: Identity) {
    forall o, p :: identity(o) == identity(p) ==> o == p
  }

  function IdsOf(identity: Identity, found: set<S.Observation>): (r: set<Fingerprint>)
    ensures forall o :: o in found ==> identity(o) in r
  {
    set o | o in found :: identity(o)
  }

  lemma {:induction false} SameIds(identity: Identity, x: set<S.Observation>, y: set<S.Observation>)
    requires Injective(identity) && IdsOf(identity, x) == IdsOf(identity, y)
    ensures x == y
  {
    forall o ensures o in x <==> o in y {
      if o in x { assert identity(o) in IdsOf(identity, y); }
      if o in y { assert identity(o) in IdsOf(identity, x); }
    }
  }

  /** The job's snapshot is the scan of a tree. */
  ghost predicate Scanned(b: Book, j: JobId, identity: Identity, config: S.Config, tree: S.Tree) {
    j in b.snapshots && b.snapshots[j].fingerprints == IdsOf(identity, S.FullScan(config, tree))
  }

  /** What a collection reads off the active states of the asset. */
  ghost predicate ReadsOff(b: Book, ws: WorkspaceId, asset: AssetId, identity: Identity, active: set<S.Observation>) {
    IdsOf(identity, active) == ActiveSet(b, ws, asset)
  }

  /** The active observations are those of the scan recorded last. */
  lemma {:induction false} ActiveIsLatestScan(b: Book, ws: WorkspaceId, asset: AssetId, latest: JobId, identity: Identity,
                                              config: S.Config, tree: S.Tree, active: set<S.Observation>)
    requires Good(b) && IsLatest(b, latest) && InScope(b.snapshots[latest], ws, asset)
    requires Injective(identity) && Scanned(b, latest, identity, config, tree) && ReadsOff(b, ws, asset, identity, active)
    ensures active == S.FullScan(config, tree)
  {
    assert Agrees(b, latest);
    hide Good, IsLatest, Injective, IdsOf, ActiveSet;
    SameIds(identity, active, S.FullScan(config, tree));
  }

  /** An incremental collection records what a full one would record exactly if the trees of the
      last successful run and of the scan recorded last look the same outside the touched paths,
      and no touched path that is not current holds anything. The first condition holds whenever
      the two are one job. */
  lemma {:induction false} CollectionIsFull(b: Book, ws: WorkspaceId, asset: AssetId, base: JobId, latest: JobId, identity: Identity,
                                            config: S.Config, trees: map<JobId, S.Tree>, active: set<S.Observation>, tree: S.Tree,
                                            delta: D.Delta)
    requires Good(b) && LastSuccessfulRun(b, ws, asset, base) && IsLatest(b, latest) && InScope(b.snapshots[latest], ws, asset)
    requires Injective(identity) && S.Located(config) && base in trees && latest in trees
    requires Scanned(b, latest, identity, config, trees[latest]) && ReadsOff(b, ws, asset, identity, active)
    requires S.Covers(delta, trees[base], tree)
    ensures S.IncrementalScan(config, active, tree, delta) == S.FullScan(config, tree) <==>
            && (forall p :: p !in delta.touched ==> S.FoundAt(config, trees[latest], p) == S.FoundAt(config, trees[base], p))
            && (forall p :: p in delta.touched - delta.current ==> S.FoundAt(config, tree, p) == {})
    ensures base == latest ==>
              (S.IncrementalScan(config, active, tree, delta) == S.FullScan(config, tree)
               <==> forall p :: p in delta.touched - delta.current ==> S.FoundAt(config, tree, p) == {})
  {
    ActiveIsLatestScan(b, ws, asset, latest, identity, config, trees[latest], active);
    S.IncrementalOnAnotherScan(config, trees[latest], trees[base], tree, delta);
  }

  lemma {:induction false} ScanOfOneFile(config: S.Config, path: string, text: string)
    requires config.supported(path) && |text| <= config.maxFileBytes
    ensures S.FullScan(config, map[path := S.File(|text|, Some(text))]) == config.detect(path, text)
    ensures S.FullScan(config, map[]) == {}
  {
    var tree: S.Tree := map[path := S.File(|text|, Some(text))];
    assert S.FoundAt(config, tree, path) == config.detect(path, text);
    forall o ensures o in S.FullScan(config, tree) <==> o in config.detect(path, text) {
      assert path in tree.Keys;
    }
  }

  lemma {:induction false} KeepsWhatIsGone(config: S.Config, o: S.Observation)
    ensures o in S.IncrementalScan(config, {o}, map[], D.Delta({}, {}))
  {
    assert o in S.Retained({o}, {});
  }

  /** From the empty ledger: a collection of an empty tree succeeds; a file appears, the next
      collection records what it holds but ends failed; the file is gone again. The diff against
      the base is empty, so the third collection retains what no file holds any more. */
  lemma {:induction false} FailedScanMisleads(config: S.Config, identity: Identity, path: string, text: string, o: S.Observation, f: Finding,
                                              ws: WorkspaceId, asset: AssetId, first: JobId, second: JobId)
    requires S.Located(config) && config.supported(path) && |text| <= config.maxFileBytes && config.detect(path, text) == {o}
    requires identity(o) == Fp(f) && first != second
    ensures var ops := Collection(ws, asset, first, 10, [], Q.Succeeded) + Collection(ws, asset, second, 20, [f], Q.Failed);
            var b := After(EMPTY, ops);
            && Possible(EMPTY, EMPTY, ops)
            && LastSuccessfulRun(b, ws, asset, first) && Scanned(b, first, identity, config, map[])
            && IsLatest(b, second) && Scanned(b, second, identity, config, map[path := S.File(|text|, Some(text))])
            && ReadsOff(b, ws, asset, identity, {o})
    ensures S.Covers(D.Delta({}, {}), map[], map[])
    ensures S.IncrementalScan(config, {o}, map[], D.Delta({}, {})) != S.FullScan(config, map[])
  {
    hide LastSuccessfulRun, IsLatest, Collection, Possible, After, ActiveSet, Selected, Do;
    ScanOfOneFile(config, path, text);
    KeepsWhatIsGone(config, o);
    hide S.FullScan, S.IncrementalScan;
    var b := FailedScanLeaves(ws, asset, first, second, f);
    assert IdsOf(identity, {o}) == {Fp(f)};
    assert IdsOf(identity, {}) == {};
  }

  lemma {:induction false} FailedScanLeaves(ws: WorkspaceId, asset: AssetId, first: JobId, second: JobId, f: Finding) returns (b: Book)
    requires first != second
    ensures var ops := Collection(ws, asset, first, 10, [], Q.Succeeded) + Collection(ws, asset, second, 20, [f], Q.Failed);
            Possible(EMPTY, EMPTY, ops) && After(EMPTY, ops) == b
    ensures LastSuccessfulRun(b, ws, asset, first) && IsLatest(b, second) && ActiveSet(b, ws, asset) == {Fp(f)}
    ensures first in b.snapshots && b.snapshots[first].fingerprints == {}
    ensures second in b.snapshots && b.snapshots[second].fingerprints == {Fp(f)}
  {
    hide Reached, Collection, ActiveSet, Selected, QuietElsewhere, Possible, After, UnsweptAfter, Do, LastSuccessfulRun, IsLatest;
    var b1 := FirstCollectionLeaves(ws, asset, first);
    b := CollectionLeaves(Collection(ws, asset, first, 10, [], Q.Succeeded), b1, ws, asset, second, 20, [f], Q.Failed);
    OneSelected(f);
    ReachedMeans(Collection(ws, asset, first, 10, [], Q.Succeeded) + Collection(ws, asset, second, 20, [f], Q.Failed), b);
    TwoCollections(b, ws, asset, first, second);
  }

  lemma {:induction false} TwoCollections(b: Book, ws: WorkspaceId, asset: AssetId, first: JobId, second: JobId)
    requires first != second && b.snapshots.Keys == {first, second}
    requires b.jobs == map[first := JobRow(ws, asset, Q.Succeeded, Some(12)), second := JobRow(ws, asset, Q.Failed, Some(22))]
    requires b.repositoryRuns == map[first := RepositoryRun(ws, asset, 10), second := RepositoryRun(ws, asset, 20)]
    requires b.snapshots[first].completedAt < b.snapshots[second].completedAt
    ensures LastSuccessfulRun(b, ws, asset, first) && IsLatest(b, second)
  {
    assert SucceededRun(b, ws, asset, first);
    forall k | SucceededRun(b, ws, asset, k) ensures k == first {
      assert k in b.repositoryRuns;
    }
  }
}
