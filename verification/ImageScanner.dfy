/** The scanner that applies an image's layers to one file map, bottom-up, within its limits. */
module ImageScanner {
  import opened Common
  import opened PosixPaths
  import opened ImageLayers

  /** The dictionary of visible files the layers are applied to. */
  class FileMap {
    var files: Files

    constructor ()
      ensures files == map[]
    {
      files := map[];
    }
  }

  class ContainerImageScanner {
    const limits: Limits
    const supported: string -> bool

    constructor (limits: Limits, supported: string -> bool)
      ensures this.limits == limits && this.supported == supported
    {
      this.limits := limits;
      this.supported := supported;
    }

    /** One member of the first pass: it counts against both limits, its name is checked, and it
        adds its marker if it is one. */
    method ReadMember(e: Entry, entryBudget: nat, bytes: nat) returns (r: Result<(nat, nat, seq<Whiteout>)>)
      ensures r.Ok? <==> entryBudget + 1 <= limits.maxEntries && bytes + Declared(e) <= limits.maxLayerBytes && GoodName(e)
      ensures r.Ok? ==> r.value == (entryBudget + 1, bytes + Declared(e), MarkerOf(e))
      ensures r.Err? ==> r.error == RuntimeError
    {
      hide Name, WhiteoutOf;
      var budget, total := entryBudget + 1, bytes + if e.size > 0 then e.size else 0;
      if budget > limits.maxEntries { return Err(RuntimeError); }
      if total > limits.maxLayerBytes { return Err(RuntimeError); }
      var path := SafePath(e.name);
      if path.Err? { return Err(RuntimeError); }
      var basename := Name(path.value);
      if !Marker(basename) { return Ok((budget, total, [])); }
      if basename == ".wh." { return Err(RuntimeError); }
      r := Ok((budget, total, [WhiteoutOf(path.value)]));
    }

    /** First pass: counts the members, checks their names and collects the markers. */
    method ReadMarkers(entries: seq<Entry>, entryBudget: nat) returns (r: Result<(nat, seq<Whiteout>)>)
      requires entryBudget <= limits.maxEntries
      ensures r.Ok? <==> Readable(limits, entries, entryBudget)
      ensures r.Ok? ==> r.value == (entryBudget + |entries|, Whiteouts(entries))
      ensures r.Err? ==> r.error == RuntimeError
    {
      hide SafePath, Name, WhiteoutOf, GoodName, Declared, MarkerOf, LayerBytes, Whiteouts, Valid, AllSafe;
      var budget, bytes := entryBudget, 0;
      var whiteouts: seq<Whiteout> := [];
      NothingRead(limits, entryBudget);
      assert entries[..0] == [] && entries[..|entries|] == entries;
      for i := 0 to |entries|
        invariant ReadSoFar(limits, entries[..i], entryBudget, budget, bytes, whiteouts)
      {
        NextMember(limits, entries, entryBudget, i, budget, bytes, whiteouts);
        var more := ReadMember(entries[i], budget, bytes);
        hide ReadSoFar, Readable;
        if more.Err? { return Err(RuntimeError); }
        budget, bytes, whiteouts := more.value.0, more.value.1, whiteouts + more.value.2;
      }
      r := Ok((budget, whiteouts));
    }

    method RemovePath(visible: FileMap, target: string)
      modifies visible
      ensures visible.files == Unhidden(old(visible.files), [Remove(target)])
    {
      RemoveWhere(visible, Remove(target));
    }

    /** Removes what one marker hides from the dictionary, name by name. */
    method RemoveWhere(visible: FileMap, whiteout: Whiteout)
      modifies visible
      ensures visible.files == Unhidden(old(visible.files), [whiteout])
    {
      hide HiddenBy;
      var names := visible.files.Keys;
      while names != {}
        invariant forall p :: p in visible.files <==> p in old(visible.files) && (p in names || !HiddenBy(whiteout, p))
        invariant forall p :: p in visible.files ==> visible.files[p] == old(visible.files)[p]
        decreases |names|
      {
        var existing :| existing in names;
        names := names - {existing};
        if HiddenBy(whiteout, existing) {
          visible.files := visible.files - {existing};
        }
      }
      forall p ensures Hides([whiteout], p) <==> HiddenBy(whiteout, p) { assert [whiteout][0] == whiteout; }
    }

    method HideLower(visible: FileMap, whiteouts: seq<Whiteout>)
      modifies visible
      ensures visible.files == Unhidden(old(visible.files), whiteouts)
    {
      assert visible.files == Unhidden(visible.files, whiteouts[..0]);
      for i := 0 to |whiteouts|
        invariant visible.files == Unhidden(old(visible.files), whiteouts[..i])
      {
        UnhiddenOneMore(old(visible.files), whiteouts, i);
        match whiteouts[i]
        case Opaque(_) => RemoveWhere(visible, whiteouts[i]);
        case Remove(target) => RemovePath(visible, target);
      }
      assert whiteouts[..|whiteouts|] == whiteouts;
    }

    /** Second pass: the members that are not markers, in order, charged to the scan budget. */
    method AddMembers(visible: FileMap, layer: Layer, scanByteBudget: nat) returns (r: Result<nat>)
      requires AllSafe(layer.entries) && scanByteBudget <= limits.maxScanBytes
      modifies visible
      ensures r.Ok? <==> Extractable(limits, supported, layer.entries, scanByteBudget)
      ensures r.Ok? ==> r.value == scanByteBudget + Charge(limits, supported, layer.entries)
      ensures r.Ok? ==> visible.files == WithEntries(limits, supported, layer.digest, old(visible.files), layer.entries)
      ensures r.Err? ==> r.error == RuntimeError
    {
      var entries, budget := layer.entries, scanByteBudget;
      assert entries[..0] == [] && entries[..|entries|] == entries;
      for i := 0 to |entries|
        invariant Extractable(limits, supported, entries[..i], scanByteBudget)
        invariant budget == scanByteBudget + Charge(limits, supported, entries[..i])
        invariant visible.files == WithEntries(limits, supported, layer.digest, old(visible.files), entries[..i])
      {
        var e := entries[i];
        ChargeOneMore(limits, supported, entries, i);
        WithEntriesOneMore(limits, supported, entries, layer.digest, old(visible.files), i);
        ExtractableOneMore(limits, supported, entries, scanByteBudget, i);
        hide SafePath, Name, Charge, WithEntries, WithinDeclared, Extractable, AllSafe;
        var path := SafePath(e.name).value;
        if Marker(Name(path)) { continue; }
        visible.files := visible.files - {path};
        if !e.kind.Regular? || !supported(path) || e.size < 0 || e.size > limits.maxFileBytes { continue; }
        budget := budget + e.size;
        if budget > limits.maxScanBytes { return Err(RuntimeError); }
        if e.data.None? { continue; }
        var content := if |e.data.value| > limits.maxFileBytes + 1 then e.data.value[..limits.maxFileBytes + 1] else e.data.value;
        if |content| > limits.maxFileBytes { return Err(RuntimeError); }
        visible.files := visible.files[path := ImageFile(content, layer.digest)];
      }
      r := Ok(budget);
    }

    /** Applies one layer to the dictionary. Its whiteouts act before any of its own files is
        added. An accepted layer leaves the dictionary as the layer semantics says. */
    method ApplyLayer(layer: Layer, visible: FileMap, entryBudget: nat, scanByteBudget: nat) returns (r: Result<(nat, nat)>)
      requires entryBudget <= limits.maxEntries && scanByteBudget <= limits.maxScanBytes
      modifies visible
      ensures r.Ok? <==> Accepted(limits, supported, layer, entryBudget, scanByteBudget)
      ensures r.Ok? ==> visible.files == Apply(limits, supported, old(visible.files), layer)
      ensures r.Ok? ==> r.value == (entryBudget + |layer.entries|, scanByteBudget + Charge(limits, supported, layer.entries))
      ensures r.Err? ==> r.error == RuntimeError
    {
      hide Safe, Unhidden, WithEntries, Whiteouts, Charge, WithinDeclared, LayerBytes;
      var read := ReadMarkers(layer.entries, entryBudget);
      if read.Err? { return Err(RuntimeError); }
      HideLower(visible, read.value.1);
      var charged := AddMembers(visible, layer, scanByteBudget);
      if charged.Err? { return Err(RuntimeError); }
      r := Ok((read.value.0, charged.value));
    }

    /** The visible files of an image, or a refusal when a limit or a name check fails. */
    method ScanLayers(layers: seq<Layer>) returns (r: Result<Files>)
      ensures r.Ok? <==> 0 < |layers| <= limits.maxLayers && AcceptedLayers(limits, supported, layers)
      ensures r.Ok? ==> r.value == Fold(limits, supported, layers)
      ensures r.Err? ==> r.error == RuntimeError
    {
      if layers == [] { return Err(RuntimeError); }
      if |layers| > limits.maxLayers { return Err(RuntimeError); }
      var visible := new FileMap();
      var entryBudget, scanByteBudget := 0, 0;
      assert layers[..0] == [] && layers[..|layers|] == layers;
      hide Accepted, AllSafe;
      for i := 0 to |layers|
        invariant fresh(visible)
        invariant AcceptedLayers(limits, supported, layers[..i])
        invariant visible.files == Fold(limits, supported, layers[..i])
        invariant entryBudget == AllEntries(layers[..i]) <= limits.maxEntries
        invariant scanByteBudget == AllCharges(limits, supported, layers[..i]) <= limits.maxScanBytes
      {
        AcceptedOneMore(limits, supported, layers, i);
        hide AllEntries, AllCharges, Fold, WithinBudgets, AllLayersSafe;
        var applied := ApplyLayer(layers[i], visible, entryBudget, scanByteBudget);
        if applied.Err? { return Err(RuntimeError); }
        AcceptedMeans(limits, supported, layers[i], entryBudget, scanByteBudget);
        FoldOneMore(limits, supported, layers, i);
        entryBudget, scanByteBudget := applied.value.0, applied.value.1;
      }
      r := Ok(visible.files);
    }
  }

  lemma {:induction false} LayerBytesGrow(entries: seq<Entry>, i: nat)
    requires i <= |entries|
    ensures LayerBytes(entries[..i]) <= LayerBytes(entries)
  {
    if i < |entries| {
      LayerBytesGrow(entries[..|entries| - 1], i);
      assert entries[..|entries| - 1][..i] == entries[..i];
    } else {
      assert entries[..i] == entries;
    }
  }

  lemma {:induction false} ChargeGrows(limits: Limits, supported: string -> bool, entries: seq<Entry>, i: nat)
    requires i <= |entries| && AllSafe(entries)
    ensures Charge(limits, supported, entries[..i]) <= Charge(limits, supported, entries)
  {
    if i < |entries| {
      ChargeGrows(limits, supported, entries[..|entries| - 1], i);
      assert entries[..|entries| - 1][..i] == entries[..i];
    } else {
      assert entries[..i] == entries;
    }
  }

  predicate GoodName(e: Entry) { Safe(e) && !BadMarker(Path(e)) }

  /** The bytes a member declares; a negative size counts as none. */
  function Declared(e: Entry): nat { if e.size > 0 then e.size else 0 }

  function MarkerOf(e: Entry): seq<Whiteout>
    requires Safe(e)
  {
    if Marker(Name(Path(e))) then [WhiteoutOf(Path(e))] else []
  }

  lemma {:induction false} BytesOneMore(entries: seq<Entry>, i: nat)
    requires i < |entries|
    ensures LayerBytes(entries[..i + 1]) == LayerBytes(entries[..i]) + Declared(entries[i])
  {
    assert entries[..i + 1][..i] == entries[..i];
  }

  lemma {:induction false} ValidOneMore(entries: seq<Entry>, i: nat)
    requires i < |entries|
    ensures Valid(entries[..i + 1]) <==> Valid(entries[..i]) && GoodName(entries[i])
    ensures Valid(entries) ==> Valid(entries[..i + 1])
  {
    hide SafePath, Name;
    assert entries[..i + 1][i] == entries[i];
    assert forall n :: 0 <= n < i ==> entries[..i][n] == entries[..i + 1][n];
  }

  /** Where the first pass stands after some members. */
  predicate ReadSoFar(limits: Limits, entries: seq<Entry>, before: nat, budget: nat, bytes: nat, whiteouts: seq<Whiteout>) {
    && Readable(limits, entries, before) && AllSafe(entries)
    && budget == before + |entries| && bytes == LayerBytes(entries) && whiteouts == Whiteouts(entries)
  }

  lemma {:induction false} NothingRead(limits: Limits, before: nat)
    requires before <= limits.maxEntries
    ensures ReadSoFar(limits, [], before, before, 0, [])
  {
  }

  /** One round of the first pass. */
  lemma {:induction false} NextMember(limits: Limits, entries: seq<Entry>, before: nat, i: nat, budget: nat, bytes: nat, whiteouts: seq<Whiteout>)
    requires i < |entries| && ReadSoFar(limits, entries[..i], before, budget, bytes, whiteouts)
    ensures if budget + 1 <= limits.maxEntries && bytes + Declared(entries[i]) <= limits.maxLayerBytes && GoodName(entries[i])
            then ReadSoFar(limits, entries[..i + 1], before, budget + 1, bytes + Declared(entries[i]), whiteouts + MarkerOf(entries[i]))
            else !Readable(limits, entries, before)
  {
    ReadableOneMore(limits, entries, before, i);
    hide GoodName, Declared, MarkerOf, LayerBytes, Readable, Whiteouts, AllSafe;
    if Readable(limits, entries[..i + 1], before) { WhiteoutsOneMore(limits, entries, before, i); }
  }

  lemma {:induction false} ReadableOneMore(limits: Limits, entries: seq<Entry>, before: nat, i: nat)
    requires i < |entries| && Readable(limits, entries[..i], before)
    ensures var bytes := LayerBytes(entries[..i]) + Declared(entries[i]);
            && LayerBytes(entries[..i + 1]) == bytes
            && (Readable(limits, entries[..i + 1], before) <==>
                  before + i + 1 <= limits.maxEntries && bytes <= limits.maxLayerBytes && GoodName(entries[i]))
            && (Readable(limits, entries, before) ==> Readable(limits, entries[..i + 1], before))
  {
    BytesOneMore(entries, i);
    ValidOneMore(entries, i);
    LayerBytesGrow(entries, i + 1);
    hide Valid, GoodName, LayerBytes, Declared;
  }

  lemma {:induction false} WhiteoutsOneMore(limits: Limits, entries: seq<Entry>, before: nat, i: nat)
    requires i < |entries| && Readable(limits, entries[..i + 1], before)
    ensures AllSafe(entries[..i]) && AllSafe(entries[..i + 1]) && GoodName(entries[i])
    ensures Whiteouts(entries[..i + 1]) == Whiteouts(entries[..i]) + MarkerOf(entries[i])
  {
    hide SafePath, Name, WhiteoutOf, LayerBytes;
    assert entries[..i + 1][..i] == entries[..i];
    assert entries[..i + 1][i] == entries[i];
  }

  lemma {:induction false} ChargeOneMore(limits: Limits, supported: string -> bool, entries: seq<Entry>, i: nat)
    requires i < |entries| && AllSafe(entries)
    ensures Charge(limits, supported, entries[..i + 1])
            == Charge(limits, supported, entries[..i]) + if Chargeable(limits, supported, entries[i]) then entries[i].size else 0
  {
    hide Chargeable;
    assert entries[..i + 1][..i] == entries[..i];
  }

  lemma {:induction false} WithEntriesOneMore(limits: Limits, supported: string -> bool, entries: seq<Entry>, digest: string, files: Files, i: nat)
    requires i < |entries| && AllSafe(entries)
    ensures var before, e := WithEntries(limits, supported, digest, files, entries[..i]), entries[i];
            WithEntries(limits, supported, digest, files, entries[..i + 1])
            == if Marker(Name(Path(e))) then before else Put(before, Path(e), FileOf(limits, supported, digest, e))
  {
    hide SafePath, Name, FileOf, Put;
    assert entries[..i + 1][..i] == entries[..i];
  }

  lemma {:induction false} DeclaredOneMore(limits: Limits, supported: string -> bool, entries: seq<Entry>, i: nat)
    requires i < |entries| && AllSafe(entries)
    ensures var e := entries[i];
            WithinDeclared(limits, supported, entries[..i + 1]) <==>
            && WithinDeclared(limits, supported, entries[..i])
            && (Chargeable(limits, supported, e) && e.data.Some? ==> |e.data.value| <= limits.maxFileBytes)
  {
    hide Chargeable, Safe;
    assert forall n :: 0 <= n < i ==> entries[..i][n] == entries[..i + 1][n];
    assert entries[..i + 1][i] == entries[i];
  }

  lemma {:induction false} DeclaredPrefix(limits: Limits, supported: string -> bool, entries: seq<Entry>, i: nat)
    requires i <= |entries| && AllSafe(entries) && WithinDeclared(limits, supported, entries)
    ensures WithinDeclared(limits, supported, entries[..i])
  {
    hide Chargeable, Safe;
  }

  /** One round of the second pass. */
  lemma {:induction false} ExtractableOneMore(limits: Limits, supported: string -> bool, entries: seq<Entry>, before: nat, i: nat)
    requires i < |entries| && AllSafe(entries) && Extractable(limits, supported, entries[..i], before)
    ensures var e := entries[i];
            && (Extractable(limits, supported, entries[..i + 1], before) <==>
                  && before + Charge(limits, supported, entries[..i + 1]) <= limits.maxScanBytes
                  && (Chargeable(limits, supported, e) && e.data.Some? ==> |e.data.value| <= limits.maxFileBytes))
            && (Extractable(limits, supported, entries, before) ==> Extractable(limits, supported, entries[..i + 1], before))
  {
    hide Chargeable, Charge, Safe;
    ChargeGrows(limits, supported, entries, i + 1);
    DeclaredOneMore(limits, supported, entries, i);
    if WithinDeclared(limits, supported, entries) { DeclaredPrefix(limits, supported, entries, i + 1); }
    hide WithinDeclared;
  }

  lemma {:induction false} UnhiddenOneMore(files: Files, whiteouts: seq<Whiteout>, i: nat)
    requires i < |whiteouts|
    ensures Unhidden(Unhidden(files, whiteouts[..i]), [whiteouts[i]]) == Unhidden(files, whiteouts[..i + 1])
  {
    hide HiddenBy;
    forall p ensures Hides(whiteouts[..i + 1], p) <==> Hides(whiteouts[..i], p) || Hides([whiteouts[i]], p) {
      if Hides(whiteouts[..i], p) {
        var k :| 0 <= k < i && HiddenBy(whiteouts[..i][k], p);
        assert HiddenBy(whiteouts[..i + 1][k], p);
      }
      if Hides([whiteouts[i]], p) { assert HiddenBy(whiteouts[..i + 1][i], p); }
      if Hides(whiteouts[..i + 1], p) {
        var k :| 0 <= k < i + 1 && HiddenBy(whiteouts[..i + 1][k], p);
        if k < i { assert HiddenBy(whiteouts[..i][k], p); } else { assert HiddenBy([whiteouts[i]][0], p); }
      }
    }
    hide Hides;
  }

  lemma {:induction false} SafeOneMore(layers: seq<Layer>, i: nat)
    requires i < |layers|
    ensures AllLayersSafe(layers[..i + 1]) <==> AllLayersSafe(layers[..i]) && AllSafe(layers[i].entries)
    ensures AllLayersSafe(layers) ==> AllLayersSafe(layers[..i + 1])
  {
    hide AllSafe;
    assert forall n :: 0 <= n < i ==> layers[..i][n] == layers[..i + 1][n];
    assert layers[..i + 1][i] == layers[i];
  }

  /** One layer more. */
  lemma {:induction false} AcceptedOneMore(limits: Limits, supported: string -> bool, layers: seq<Layer>, i: nat)
    requires i < |layers| && AcceptedLayers(limits, supported, layers[..i])
    ensures AcceptedLayers(limits, supported, layers[..i + 1]) <==>
            Accepted(limits, supported, layers[i], AllEntries(layers[..i]), AllCharges(limits, supported, layers[..i]))
    ensures AcceptedLayers(limits, supported, layers) ==> AcceptedLayers(limits, supported, layers[..i + 1])
  {
    var before, charged := AllEntries(layers[..i]), AllCharges(limits, supported, layers[..i]);
    assert layers[..i + 1][..i] == layers[..i];
    SafeOneMore(layers, i);
    if Accepted(limits, supported, layers[i], before, charged) {
      AcceptedMeans(limits, supported, layers[i], before, charged);
    }
    if AcceptedLayers(limits, supported, layers) { BudgetsOfPrefix(limits, supported, layers, i + 1); }
    hide Accepted, AllCharges, AllEntries, AllSafe, AllLayersSafe;
  }

  lemma {:induction false} FoldOneMore(limits: Limits, supported: string -> bool, layers: seq<Layer>, i: nat)
    requires i < |layers| && AllLayersSafe(layers[..i]) && AllSafe(layers[i].entries)
    ensures AllLayersSafe(layers[..i + 1])
    ensures AllEntries(layers[..i + 1]) == AllEntries(layers[..i]) + |layers[i].entries|
    ensures AllCharges(limits, supported, layers[..i + 1])
            == AllCharges(limits, supported, layers[..i]) + Charge(limits, supported, layers[i].entries)
    ensures Fold(limits, supported, layers[..i + 1]) == Apply(limits, supported, Fold(limits, supported, layers[..i]), layers[i])
  {
    assert layers[..i + 1][..i] == layers[..i];
    hide Apply, Charge, AllSafe;
  }
}
