/** What an image's layers mean: the files that are visible when the layers lie on top of each
    other, and how that relates to folding them bottom-up. */
module ImageLayers {
  import opened Common
  import opened PosixPaths

  datatype EntryKind = Regular | Directory | Special

  /** A tar member. `data` is what extracting it returns, if it can be extracted. */
  datatype Entry = Entry(name: string, kind: EntryKind, size: int, data: Option<string>)

  datatype Layer = Layer(digest: string, entries: seq<Entry>)

  datatype ImageFile = ImageFile(content: string, layerDigest: string)

  type Files = map<string, ImageFile>

  datatype Limits = Limits(maxLayers: nat, maxEntries: nat, maxLayerBytes: nat, maxFileBytes: nat, maxScanBytes: nat)

  datatype Whiteout = Opaque(dir: string) | Remove(target: string)

  // ---------------------------------------------------------------- names of tar members

  function Slashes(s: string): string {
    seq(|s|, i requires 0 <= i < |s| => if s[i] == '\\' then '/' else s[i])
  }

  function DropDots(s: string): string {
    if "./" <= s then DropDots(s[2..]) else s
  }

  /** A member name without white space around it, with slashes only and no leading "./". */
  function Cleaned(name: string): string { DropDots(Slashes(Strip(name))) }

  /** Names that lead nowhere or out of the image. */
  predicate Refusable(text: string) {
    Parts(text) == [] || Absolute(text) || ".." in Parts(text) || '\0' in text
  }

  /** The normal form of a member name, or a refusal. */
  function SafePath(name: string): (r: Result<string>)
    ensures r.Ok? ==> Normal(r.value)
  {
    var text := Cleaned(name);
    var parts := Parts(text);
    if text == "" || Absolute(text) || ".." in parts || '\0' in text || parts == [] then Err(RuntimeError)
    else
      PartsOfPosix(parts);
      Ok(Posix(parts))
  }

  /** A name is refused exactly if it leads nowhere or out of the image; otherwise its normal form
      has the components of the cleaned name. */
  lemma {:induction false} SafePathExactly(name: string)
    ensures SafePath(name).Ok? <==> !Refusable(Cleaned(name))
    ensures SafePath(name).Ok? ==> Parts(SafePath(name).value) == Parts(Cleaned(name))
    ensures SafePath(name).Err? ==> SafePath(name).error == RuntimeError
  {
    hide Cleaned, Absolute;
    assert Parts("") == [];
    if SafePath(name).Ok? { PartsOfPosix(Parts(Cleaned(name))); }
  }

  predicate Marker(basename: string) { ".wh." <= basename }

  const OPAQUE := ".wh..wh..opq"

  predicate Safe(e: Entry) { SafePath(e.name).Ok? }

  function Path(e: Entry): string
    requires Safe(e)
  {
    SafePath(e.name).value
  }

  /** A marker with nothing behind its prefix. */
  predicate BadMarker(path: string) { Name(path) == ".wh." }

  /** What a marker hides. The name "." names the parent itself. */
  function WhiteoutOf(path: string): Whiteout
    requires Marker(Name(path))
  {
    if Name(path) == OPAQUE then Opaque(Parent(path))
    else
      var name := Name(path)[4..];
      Remove(if name == "." then Parent(path) else if Parent(path) == "." then name else Parent(path) + "/" + name)
  }

  predicate HiddenBy(w: Whiteout, path: string) {
    match w
    case Opaque(dir) => dir == "." || Below(dir, path)
    case Remove(target) => path == target || Below(target, path)
  }

  predicate AllSafe(entries: seq<Entry>) {
    forall i :: 0 <= i < |entries| ==> Safe(entries[i])
  }

  predicate Valid(entries: seq<Entry>) {
    forall i :: 0 <= i < |entries| ==> Safe(entries[i]) && !BadMarker(Path(entries[i]))
  }

  // ---------------------------------------------------------------- folding a layer

  predicate Chargeable(limits: Limits, supported: string -> bool, e: Entry)
    requires Safe(e)
  {
    !Marker(Name(Path(e))) && e.kind.Regular? && supported(Path(e)) && 0 <= e.size <= limits.maxFileBytes
  }

  /** What becomes of a member's path: the file it holds, or nothing. */
  function FileOf(limits: Limits, supported: string -> bool, digest: string, e: Entry): Option<ImageFile>
    requires Safe(e)
  {
    if Chargeable(limits, supported, e) && e.data.Some? then Some(ImageFile(e.data.value, digest)) else None
  }

  function Whiteouts(entries: seq<Entry>): seq<Whiteout>
    requires AllSafe(entries)
  {
    if entries == [] then [] else
    var path := Path(entries[|entries| - 1]);
    Whiteouts(entries[..|entries| - 1]) + if Marker(Name(path)) then [WhiteoutOf(path)] else []
  }

  predicate Hides(whiteouts: seq<Whiteout>, path: string) {
    exists i :: 0 <= i < |whiteouts| && HiddenBy(whiteouts[i], path)
  }

  function Unhidden(files: Files, whiteouts: seq<Whiteout>): Files {
    map p | p in files && !Hides(whiteouts, p) :: files[p]
  }

  function Put(files: Files, path: string, file: Option<ImageFile>): Files {
    if file.Some? then (files - {path})[path := file.value] else files - {path}
  }

  /** The members of a layer that are not markers, taken in order. */
  function WithEntries(limits: Limits, supported: string -> bool, digest: string, files: Files, entries: seq<Entry>): Files
    requires AllSafe(entries)
  {
    if entries == [] then files else
    var e := entries[|entries| - 1];
    var before := WithEntries(limits, supported, digest, files, entries[..|entries| - 1]);
    if Marker(Name(Path(e))) then before else Put(before, Path(e), FileOf(limits, supported, digest, e))
  }

  function Apply(limits: Limits, supported: string -> bool, files: Files, layer: Layer): Files
    requires AllSafe(layer.entries)
  {
    WithEntries(limits, supported, layer.digest, Unhidden(files, Whiteouts(layer.entries)), layer.entries)
  }

  predicate AllLayersSafe(layers: seq<Layer>) {
    forall i :: 0 <= i < |layers| ==> AllSafe(layers[i].entries)
  }

  /** The layers folded bottom-up. */
  function Fold(limits: Limits, supported: string -> bool, layers: seq<Layer>): Files
    requires AllLayersSafe(layers)
  {
    if layers == [] then map[]
    else Apply(limits, supported, Fold(limits, supported, layers[..|layers| - 1]), layers[|layers| - 1])
  }

  // ---------------------------------------------------------------- looking a path up from the top

  /** What a layer says about a path by its members: nothing, or that it is gone, or a file. The
      last member with that path decides. */
  datatype Word = Silent | Says(file: Option<ImageFile>)

  function Member(limits: Limits, supported: string -> bool, digest: string, entries: seq<Entry>, path: string): Word
    requires AllSafe(entries)
  {
    if entries == [] then Silent else
    var e := entries[|entries| - 1];
    if Path(e) == path && !Marker(Name(path)) then Says(FileOf(limits, supported, digest, e))
    else Member(limits, supported, digest, entries[..|entries| - 1], path)
  }

  /** The file visible at a path: the topmost layer that has the path or hides it decides, and a
      layer's whiteouts count only when the layer itself does not have the path. */
  function Lookup(limits: Limits, supported: string -> bool, layers: seq<Layer>, path: string): Option<ImageFile>
    requires AllLayersSafe(layers)
  {
    if layers == [] then None else
    var top := layers[|layers| - 1];
    match Member(limits, supported, top.digest, top.entries, path)
    case Says(file) => file
    case Silent =>
      if Hides(Whiteouts(top.entries), path) then None
      else Lookup(limits, supported, layers[..|layers| - 1], path)
  }

  function At(files: Files, path: string): Option<ImageFile> {
    if path in files then Some(files[path]) else None
  }

  lemma {:induction false} WithEntriesAt(limits: Limits, supported: string -> bool, digest: string, files: Files, entries: seq<Entry>, path: string)
    requires AllSafe(entries)
    ensures At(WithEntries(limits, supported, digest, files, entries), path) ==
            match Member(limits, supported, digest, entries, path) case Says(file) => file case Silent => At(files, path)
  {
    hide SafePath, Name, FileOf, Marker;
    if entries != [] {
      WithEntriesAt(limits, supported, digest, files, entries[..|entries| - 1], path);
    }
  }

  /** The bottom-up fold shows at every path what the search from the top finds there. */
  lemma {:induction false} FoldIsLookup(limits: Limits, supported: string -> bool, layers: seq<Layer>, path: string)
    requires AllLayersSafe(layers)
    ensures At(Fold(limits, supported, layers), path) == Lookup(limits, supported, layers, path)
  {
    if layers != [] {
      var below, top := layers[..|layers| - 1], layers[|layers| - 1];
      FoldIsLookup(limits, supported, below, path);
      WithEntriesAt(limits, supported, top.digest, Unhidden(Fold(limits, supported, below), Whiteouts(top.entries)), top.entries, path);
    }
  }

  /** Whiteouts do not touch the files of their own layer. */
  lemma {:induction false} OwnFilesStay(limits: Limits, supported: string -> bool, layers: seq<Layer>, path: string)
    requires AllLayersSafe(layers) && layers != []
    requires var top := layers[|layers| - 1]; Member(limits, supported, top.digest, top.entries, path).Says?
    ensures var top := layers[|layers| - 1];
            At(Fold(limits, supported, layers), path) == Member(limits, supported, top.digest, top.entries, path).file
  {
    FoldIsLookup(limits, supported, layers, path);
  }

  // ---------------------------------------------------------------- the layer semantics of OCI images

  /** A layer puts something other than a directory where a directory of `path` would be. */
  predicate Blocks(entries: seq<Entry>, path: string)
    requires AllSafe(entries)
  {
    exists i :: 0 <= i < |entries| && !entries[i].kind.Directory? && !Marker(Name(Path(entries[i]))) && Below(Path(entries[i]), path)
  }

  /** The same search, where replacing a directory by something else removes what was below it. */
  function OciLookup(limits: Limits, supported: string -> bool, layers: seq<Layer>, path: string): Option<ImageFile>
    requires AllLayersSafe(layers)
  {
    if layers == [] then None else
    var top := layers[|layers| - 1];
    match Member(limits, supported, top.digest, top.entries, path)
    case Says(file) => file
    case Silent =>
      if Hides(Whiteouts(top.entries), path) || Blocks(top.entries, path) then None
      else OciLookup(limits, supported, layers[..|layers| - 1], path)
  }

  /** A file of the layers below shows through a layer that puts a non-directory above it,
      because the layer neither has the file's path nor hides it with a whiteout. */
  predicate ShowsThrough(limits: Limits, supported: string -> bool, files: Files, layer: Layer, path: string)
    requires AllSafe(layer.entries)
  {
    && path in files && Blocks(layer.entries, path)
    && Member(limits, supported, layer.digest, layer.entries, path).Silent?
    && !Hides(Whiteouts(layer.entries), path)
  }

  /** One layer the OCI way. */
  function ApplyOci(limits: Limits, supported: string -> bool, files: Files, layer: Layer): Files
    requires AllSafe(layer.entries)
  {
    var lower := map p | p in files && !Blocks(layer.entries, p) :: files[p];
    WithEntries(limits, supported, layer.digest, Unhidden(lower, Whiteouts(layer.entries)), layer.entries)
  }

  /** A layer is applied the OCI way exactly when no lower file shows through it. */
  lemma {:induction false} LayerIsOciUnlessShownThrough(limits: Limits, supported: string -> bool, files: Files, layer: Layer)
    requires AllSafe(layer.entries)
    ensures Apply(limits, supported, files, layer) == ApplyOci(limits, supported, files, layer)
            <==> forall p :: p in files ==> !ShowsThrough(limits, supported, files, layer, p)
  {
    var lower := map p | p in files && !Blocks(layer.entries, p) :: files[p];
    var hidden := Whiteouts(layer.entries);
    var code, oci := Apply(limits, supported, files, layer), ApplyOci(limits, supported, files, layer);
    forall p
      ensures At(code, p) == At(oci, p) <==> !ShowsThrough(limits, supported, files, layer, p)
    {
      WithEntriesAt(limits, supported, layer.digest, Unhidden(files, hidden), layer.entries, p);
      WithEntriesAt(limits, supported, layer.digest, Unhidden(lower, hidden), layer.entries, p);
    }
    SameFiles(code, oci);
    if code == oci {
      forall p | p in files ensures !ShowsThrough(limits, supported, files, layer, p) { assert At(code, p) == At(oci, p); }
    }
  }

  lemma {:induction false} SameFiles(m: Files, n: Files)
    ensures m == n <==> forall p :: At(m, p) == At(n, p)
  {
    if forall p :: At(m, p) == At(n, p) {
      forall p | p in m ensures p in n && m[p] == n[p] { assert At(m, p) == At(n, p); }
      forall p | p in n ensures p in m { assert At(m, p) == At(n, p); }
    }
  }

  /** In a whole image the two searches differ at a path exactly when the topmost layer with a
      say in OCI terms blocks it and a file of the layers below it shows through. */
  predicate Leaks(limits: Limits, supported: string -> bool, layers: seq<Layer>, path: string)
    requires AllLayersSafe(layers)
  {
    layers != [] &&
    var below, top := layers[..|layers| - 1], layers[|layers| - 1];
    if Member(limits, supported, top.digest, top.entries, path).Says? || Hides(Whiteouts(top.entries), path) then false
    else if Blocks(top.entries, path) then ShowsThrough(limits, supported, Fold(limits, supported, below), top, path)
    else Leaks(limits, supported, below, path)
  }

  lemma {:induction false} LookupIsOciUnlessLeaks(limits: Limits, supported: string -> bool, layers: seq<Layer>, path: string)
    requires AllLayersSafe(layers)
    ensures Lookup(limits, supported, layers, path) == OciLookup(limits, supported, layers, path)
            <==> !Leaks(limits, supported, layers, path)
  {
    if layers != [] {
      var below, top := layers[..|layers| - 1], layers[|layers| - 1];
      hide Whiteouts, Member, Blocks, Hides, Fold;
      LookupIsOciUnlessLeaks(limits, supported, below, path);
      FoldIsLookup(limits, supported, below, path);
    }
  }

  // ---------------------------------------------------------------- what markers hide

  predicate AllComponents(parts: seq<string>) { forall i :: 0 <= i < |parts| ==> Component(parts[i]) }

  lemma {:induction false} NameAndParent(dir: seq<string>, last: string)
    requires AllComponents(dir) && Component(last)
    ensures Name(Posix(dir + [last])) == last && Parent(Posix(dir + [last])) == Posix(dir)
  {
    SplitOfJoin(dir + [last], '/');
    assert (dir + [last])[..|dir|] == dir;
  }

  lemma {:induction false} PosixIsPath(parts: seq<string>)
    requires parts != [] && AllComponents(parts)
    ensures Posix(parts) != "."
  {
    PartsOfPosix(parts);
    SplitPlain(".", '/');
  }

  /** An opaque marker hides exactly what lies below its directory. */
  lemma {:induction false} OpaqueHidesBelow(dir: seq<string>, parts: seq<string>)
    requires AllComponents(dir) && AllComponents(parts) && parts != []
    ensures Marker(Name(Posix(dir + [OPAQUE])))
    ensures HiddenBy(WhiteoutOf(Posix(dir + [OPAQUE])), Posix(parts)) <==> dir < parts
  {
    NameAndParent(dir, OPAQUE);
    if dir != [] {
      BelowMeansPrefix(dir, parts);
      PosixIsPath(dir);
    }
  }

  /** A whiteout of a name hides exactly that path and what lies below it. */
  lemma {:induction false} WhiteoutHidesSubtree(dir: seq<string>, name: string, parts: seq<string>)
    requires AllComponents(dir) && Component(name) && AllComponents(parts) && parts != []
    requires ".wh." + name != OPAQUE
    ensures Marker(Name(Posix(dir + [".wh." + name])))
    ensures HiddenBy(WhiteoutOf(Posix(dir + [".wh." + name])), Posix(parts)) <==> dir + [name] <= parts
  {
    var target := dir + [name];
    NameAndParent(dir, ".wh." + name);
    assert (".wh." + name)[4..] == name;
    PartsOfPosix(target);
    PartsOfPosix(parts);
    BelowMeansPrefix(target, parts);
    if dir != [] {
      PosixIsPath(dir);
      JoinConcat(dir, [name], '/');
    }
    assert WhiteoutOf(Posix(dir + [".wh." + name])) == Remove(Posix(target));
    hide Posix, Parts, Below;
    if target <= parts && target != parts { assert target < parts; }
  }

  // ---------------------------------------------------------------- limits and budgets

  /** The bytes a layer declares. */
  function LayerBytes(entries: seq<Entry>): nat {
    if entries == [] then 0 else
    var size := entries[|entries| - 1].size;
    LayerBytes(entries[..|entries| - 1]) + if size > 0 then size else 0
  }

  /** The declared sizes of the files a layer contributes to the scan. */
  function Charge(limits: Limits, supported: string -> bool, entries: seq<Entry>): nat
    requires AllSafe(entries)
  {
    if entries == [] then 0 else
    var e := entries[|entries| - 1];
    Charge(limits, supported, entries[..|entries| - 1]) + if Chargeable(limits, supported, e) then e.size else 0
  }

  /** No extracted file is longer than the limit its declared size met. */
  predicate WithinDeclared(limits: Limits, supported: string -> bool, entries: seq<Entry>)
    requires AllSafe(entries)
  {
    forall i :: 0 <= i < |entries| && Chargeable(limits, supported, entries[i]) && entries[i].data.Some? ==>
      |entries[i].data.value| <= limits.maxFileBytes
  }

  /** A layer is accepted on top of what was read and charged before it. */
  predicate Accepted(limits: Limits, supported: string -> bool, layer: Layer, entriesBefore: nat, chargedBefore: nat) {
    && Readable(limits, layer.entries, entriesBefore)
    && Extractable(limits, supported, layer.entries, chargedBefore)
  }

  /** The first pass over a layer goes through. */
  predicate Readable(limits: Limits, entries: seq<Entry>, entriesBefore: nat) {
    && Valid(entries)
    && entriesBefore + |entries| <= limits.maxEntries
    && LayerBytes(entries) <= limits.maxLayerBytes
  }

  /** The second pass over a layer goes through. */
  predicate Extractable(limits: Limits, supported: string -> bool, entries: seq<Entry>, chargedBefore: nat) {
    && AllSafe(entries) && WithinDeclared(limits, supported, entries)
    && chargedBefore + Charge(limits, supported, entries) <= limits.maxScanBytes
  }

  function AllEntries(layers: seq<Layer>): nat {
    if layers == [] then 0 else AllEntries(layers[..|layers| - 1]) + |layers[|layers| - 1].entries|
  }

  function AllCharges(limits: Limits, supported: string -> bool, layers: seq<Layer>): nat
    requires AllLayersSafe(layers)
  {
    if layers == [] then 0
    else AllCharges(limits, supported, layers[..|layers| - 1]) + Charge(limits, supported, layers[|layers| - 1].entries)
  }

  /** Every layer is accepted on top of the ones below, with the budgets carried upwards. */
  predicate WithinBudgets(limits: Limits, supported: string -> bool, layers: seq<Layer>)
    requires AllLayersSafe(layers)
  {
    layers == [] ||
    var below, top := layers[..|layers| - 1], layers[|layers| - 1];
    && WithinBudgets(limits, supported, below)
    && Accepted(limits, supported, top, AllEntries(below), AllCharges(limits, supported, below))
  }

  predicate AcceptedLayers(limits: Limits, supported: string -> bool, layers: seq<Layer>) {
    AllLayersSafe(layers) && WithinBudgets(limits, supported, layers)
  }

  lemma {:induction false} BudgetsOfPrefix(limits: Limits, supported: string -> bool, layers: seq<Layer>, n: nat)
    requires AllLayersSafe(layers) && WithinBudgets(limits, supported, layers) && n <= |layers|
    ensures WithinBudgets(limits, supported, layers[..n])
  {
    hide Accepted, AllEntries, AllCharges, AllSafe;
    if n < |layers| {
      BudgetsOfPrefix(limits, supported, layers[..|layers| - 1], n);
      assert layers[..|layers| - 1][..n] == layers[..n];
    } else {
      assert layers[..n] == layers;
    }
  }

  lemma {:induction false} AcceptedMeans(limits: Limits, supported: string -> bool, layer: Layer, entriesBefore: nat, chargedBefore: nat)
    requires Accepted(limits, supported, layer, entriesBefore, chargedBefore)
    ensures AllSafe(layer.entries)
    ensures WithinDeclared(limits, supported, layer.entries)
    ensures entriesBefore + |layer.entries| <= limits.maxEntries
    ensures chargedBefore + Charge(limits, supported, layer.entries) <= limits.maxScanBytes
  {
  }

  lemma {:induction false} BudgetsMean(limits: Limits, supported: string -> bool, layers: seq<Layer>)
    requires AllLayersSafe(layers) && WithinBudgets(limits, supported, layers)
    ensures AllCharges(limits, supported, layers) <= limits.maxScanBytes && AllEntries(layers) <= limits.maxEntries
  {
    if layers != [] {
      var below, top := layers[..|layers| - 1], layers[|layers| - 1];
      AcceptedMeans(limits, supported, top, AllEntries(below), AllCharges(limits, supported, below));
      hide Accepted, WithinDeclared, Charge, AllSafe;
    }
  }

  lemma {:induction false} BudgetsDeclare(limits: Limits, supported: string -> bool, layers: seq<Layer>, i: nat)
    requires AllLayersSafe(layers) && WithinBudgets(limits, supported, layers) && i < |layers|
    ensures WithinDeclared(limits, supported, layers[i].entries)
  {
    hide Safe, Charge, LayerBytes;
    var below, top := layers[..|layers| - 1], layers[|layers| - 1];
    if i < |below| {
      hide Accepted, WithinDeclared, AllSafe;
      BudgetsDeclare(limits, supported, below, i);
    } else {
      AcceptedMeans(limits, supported, top, AllEntries(below), AllCharges(limits, supported, below));
    }
  }

  ghost function Sizes(files: Files): map<string, nat> {
    map p | p in files :: |files[p].content|
  }

  /** The bytes held by a file map. */
  ghost function TotalBytes(files: Files): nat { SumOf(Sizes(files)) }

  /** Extracting a member never returns more than its declared size. */
  predicate Honest(entries: seq<Entry>) {
    forall i :: 0 <= i < |entries| && entries[i].data.Some? && entries[i].size >= 0 ==> |entries[i].data.value| <= entries[i].size
  }

  lemma {:induction false} PutBytes(files: Files, path: string, file: Option<ImageFile>)
    ensures TotalBytes(Put(files, path, file)) <= TotalBytes(files) + if file.Some? then |file.value.content| else 0
  {
    var without := files - {path};
    SumShrinks(Sizes(without), Sizes(files));
    if file.Some? {
      assert Sizes(without[path := file.value]) == Sizes(without)[path := |file.value.content|];
      SumUpdate(Sizes(without), path, |file.value.content|);
    }
  }

  lemma {:induction false} EntriesBytes(limits: Limits, supported: string -> bool, digest: string, files: Files, entries: seq<Entry>)
    requires AllSafe(entries) && Honest(entries)
    ensures TotalBytes(WithEntries(limits, supported, digest, files, entries))
            <= TotalBytes(files) + Charge(limits, supported, entries)
  {
    hide SafePath, Name, TotalBytes, Put;
    if entries != [] {
      var before, e := entries[..|entries| - 1], entries[|entries| - 1];
      EntriesBytes(limits, supported, digest, files, before);
      PutBytes(WithEntries(limits, supported, digest, files, before), Path(e), FileOf(limits, supported, digest, e));
    }
  }

  /** After every layer the surviving files hold no more bytes than were charged for them. */
  lemma {:induction false} BytesWithinCharges(limits: Limits, supported: string -> bool, layers: seq<Layer>)
    requires AllLayersSafe(layers) && forall i :: 0 <= i < |layers| ==> Honest(layers[i].entries)
    ensures TotalBytes(Fold(limits, supported, layers)) <= AllCharges(limits, supported, layers)
  {
    if layers != [] {
      var below, top := layers[..|layers| - 1], layers[|layers| - 1];
      var files := Fold(limits, supported, below);
      BytesWithinCharges(limits, supported, below);
      SumShrinks(Sizes(Unhidden(files, Whiteouts(top.entries))), Sizes(files));
      EntriesBytes(limits, supported, top.digest, Unhidden(files, Whiteouts(top.entries)), top.entries);
    }
  }

  lemma {:induction false} MemberWithinLimit(limits: Limits, supported: string -> bool, digest: string, entries: seq<Entry>, path: string)
    requires AllSafe(entries) && WithinDeclared(limits, supported, entries)
    ensures var word := Member(limits, supported, digest, entries, path);
            word.Says? && word.file.Some? ==> |word.file.value.content| <= limits.maxFileBytes
  {
    hide SafePath, Name;
    if entries != [] { MemberWithinLimit(limits, supported, digest, entries[..|entries| - 1], path); }
  }

  lemma {:induction false} LookupWithinLimit(limits: Limits, supported: string -> bool, layers: seq<Layer>, path: string)
    requires AllLayersSafe(layers) && forall i :: 0 <= i < |layers| ==> WithinDeclared(limits, supported, layers[i].entries)
    ensures var file := Lookup(limits, supported, layers, path);
            file.Some? ==> |file.value.content| <= limits.maxFileBytes
  {
    if layers != [] {
      var below, top := layers[..|layers| - 1], layers[|layers| - 1];
      hide Member, Whiteouts, Hides, WithinDeclared;
      LookupWithinLimit(limits, supported, below, path);
      MemberWithinLimit(limits, supported, top.digest, top.entries, path);
    }
  }

  /** The byte budget: in an accepted image, after every layer, the surviving files hold at most
      the bytes charged so far, which are at most the scan limit, and none is over the file limit. */
  lemma {:induction false} BudgetHolds(limits: Limits, supported: string -> bool, layers: seq<Layer>, n: nat)
    requires AcceptedLayers(limits, supported, layers) && n <= |layers|
    requires forall i :: 0 <= i < |layers| ==> Honest(layers[i].entries)
    ensures AllLayersSafe(layers[..n])
    ensures TotalBytes(Fold(limits, supported, layers[..n])) <= AllCharges(limits, supported, layers[..n]) <= limits.maxScanBytes
    ensures forall p :: p in Fold(limits, supported, layers[..n]) ==>
              |Fold(limits, supported, layers[..n])[p].content| <= limits.maxFileBytes
  {
    var upto := layers[..n];
    BudgetsOfPrefix(limits, supported, layers, n);
    BudgetsMean(limits, supported, upto);
    forall i | 0 <= i < n ensures WithinDeclared(limits, supported, upto[i].entries) { BudgetsDeclare(limits, supported, upto, i); }
    BytesWithinCharges(limits, supported, upto);
    hide Fold, TotalBytes, LayerBytes;
    forall p | p in Fold(limits, supported, upto)
      ensures |Fold(limits, supported, upto)[p].content| <= limits.maxFileBytes
    {
      FoldIsLookup(limits, supported, upto, p);
      LookupWithinLimit(limits, supported, upto, p);
    }
  }

  // ---------------------------------------------------------------- a file that shows through

  /** The OCI form fails: a layer that replaces directory "a" by a file leaves "a/b" visible. */
  lemma {:induction false} ReplacedDirectoryShowsThrough(limits: Limits, supported: string -> bool)
    requires limits.maxFileBytes >= 1 && supported("a/b")
    ensures var layers := [Layer("low", [Entry("a/b", Regular, 1, Some("k"))]), Layer("top", [Entry("a", Regular, 1, None)])];
            && AllLayersSafe(layers)
            && Lookup(limits, supported, layers, "a/b") == Some(ImageFile("k", "low"))
            && OciLookup(limits, supported, layers, "a/b") == None
  {
    var low, top := [Entry("a/b", Regular, 1, Some("k"))], [Entry("a", Regular, 1, None)];
    var below, layers := [Layer("low", low)], [Layer("low", low), Layer("top", top)];
    PlainNames();
    hide SafePath, Name, Below;
    assert layers[..1] == below && below[..0] == [];
    OneEntry(limits, supported, "low", low[0], "a/b");
    OneEntry(limits, supported, "top", top[0], "a/b");
    assert Blocks(top, "a/b") by { assert Below(Path(top[0]), "a/b") by { AIsAbove(); } }
    assert FileOf(limits, supported, "low", low[0]) == Some(ImageFile("k", "low"));
    assert below[|below| - 1] == Layer("low", low) && layers[|layers| - 1] == Layer("top", top);
    SaysDecides(limits, supported, below, "a/b");
    SilenceDefers(limits, supported, layers, "a/b");
    hide Whiteouts, Member, Hides, Blocks, FileOf, Safe, Lookup, OciLookup;
  }

  lemma {:induction false} SaysDecides(limits: Limits, supported: string -> bool, layers: seq<Layer>, path: string)
    requires layers != [] && AllLayersSafe(layers)
    requires var top := layers[|layers| - 1]; Member(limits, supported, top.digest, top.entries, path).Says?
    ensures var top := layers[|layers| - 1];
            Lookup(limits, supported, layers, path) == Member(limits, supported, top.digest, top.entries, path).file
  {
  }

  lemma {:induction false} SilenceDefers(limits: Limits, supported: string -> bool, layers: seq<Layer>, path: string)
    requires layers != [] && AllLayersSafe(layers)
    requires var top := layers[|layers| - 1];
             Member(limits, supported, top.digest, top.entries, path).Silent? && !Hides(Whiteouts(top.entries), path)
    ensures Lookup(limits, supported, layers, path) == Lookup(limits, supported, layers[..|layers| - 1], path)
    ensures Blocks(layers[|layers| - 1].entries, path) ==> OciLookup(limits, supported, layers, path) == None
  {
  }

  lemma {:induction false} AIsAbove()
    ensures Below("a", "a/b")
  {
  }

  lemma {:induction false} OneEntry(limits: Limits, supported: string -> bool, digest: string, e: Entry, path: string)
    requires Safe(e) && !Marker(Name(Path(e))) && !Marker(Name(path))
    ensures AllSafe([e]) && !Hides(Whiteouts([e]), path)
    ensures Member(limits, supported, digest, [e], path) ==
            if Path(e) == path then Says(FileOf(limits, supported, digest, e)) else Silent
  {
    assert [e][..0] == [];
  }

  lemma {:induction false} PlainNames()
    ensures SafePath("a") == Ok("a") && SafePath("a/b") == Ok("a/b")
    ensures Name("a") == "a" && Name("a/b") == "b"
  {
    assert Slashes("a") == "a" && Slashes("a/b") == "a/b";
    SplitPlain("a", '/');
    SplitPlain("b", '/');
    SplitConcat("a", "b", '/');
    assert "a" + ['/'] + "b" == "a/b";
    assert Components(["b"]) == ["b"];
    assert ["a", "b"][1..] == ["b"];
  }
}
