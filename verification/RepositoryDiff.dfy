/** The parser of `git diff --name-status -z` output. */
module RepositoryDiff {
  import opened Common
  import opened PosixPaths

  datatype Delta = Delta(touched: set<string>, current: set<string>)

  /** One entry of a diff: a status with one path, or a rename or copy with two. */
  datatype Entry = One(status: string, path: string) | Two(status: string, source: string, target: string)

  /** Status letters that come with two paths. */
  predicate Paired(status: string) { status != "" && (status[0] == 'R' || status[0] == 'C') }

  predicate WellFormed(e: Entry) {
    match e
    case One(status, _) => status != "" && !Paired(status)
    case Two(status, _, _) => Paired(status)
  }

  /** A repository path in normal form, or a refusal of absolute, climbing and empty paths. */
  function SafeRelative(value: string): (r: Result<string>)
    ensures r.Ok? ==> Normal(r.value)
  {
    var parts := Parts(value);
    if Absolute(value) || ".." in parts || parts == [] then Err(RuntimeError)
    else
      PartsOfPosix(parts);
      Ok(Posix(parts))
  }

  /** A path is refused exactly if it leads nowhere or out of the repository; otherwise its normal
      form has its components. */
  lemma {:induction false} SafeRelativeExactly(value: string)
    ensures SafeRelative(value).Ok? <==> Parts(value) != [] && ".." !in Parts(value) && !Absolute(value)
    ensures SafeRelative(value).Ok? ==> Parts(SafeRelative(value).value) == Parts(value)
    ensures SafeRelative(value).Err? ==> SafeRelative(value).error == RuntimeError
    ensures Normal(value) ==> SafeRelative(value) == Ok(value)
  {
    if SafeRelative(value).Ok? { PartsOfPosix(Parts(value)); }
    if Normal(value) { NormalIsRelative(value); }
  }

  predicate SafePaths(e: Entry) {
    match e
    case One(_, path) => SafeRelative(path).Ok?
    case Two(_, source, target) => SafeRelative(source).Ok? && SafeRelative(target).Ok?
  }

  function Touch(e: Entry): set<string>
    requires SafePaths(e)
  {
    match e
    case One(_, path) => {SafeRelative(path).value}
    case Two(_, source, target) => {SafeRelative(source).value, SafeRelative(target).value}
  }

  /** The path an entry leaves in the new tree: none for a deletion, the target of a pair. */
  function Keep(e: Entry): set<string>
    requires SafePaths(e)
  {
    match e
    case One(status, path) => if "D" <= status then {} else {SafeRelative(path).value}
    case Two(_, _, target) => {SafeRelative(target).value}
  }

  predicate AllSafePaths(entries: seq<Entry>) { forall i :: 0 <= i < |entries| ==> SafePaths(entries[i]) }

  predicate AllWellFormed(entries: seq<Entry>) { forall i :: 0 <= i < |entries| ==> WellFormed(entries[i]) }

  function DeltaOf(entries: seq<Entry>): Delta
    requires AllSafePaths(entries)
  {
    if entries == [] then Delta({}, {}) else
    var rest := DeltaOf(entries[1..]);
    Delta(Touch(entries[0]) + rest.touched, Keep(entries[0]) + rest.current)
  }

  // ---------------------------------------------------------------- parsing fields

  function Fields(e: Entry): seq<string> {
    match e
    case One(status, path) => [status, path]
    case Two(status, source, target) => [status, source, target]
  }

  function Printed(entries: seq<Entry>): seq<string> {
    if entries == [] then [] else Fields(entries[0]) + Printed(entries[1..])
  }

  /** The entries of a field list; empty fields where a status is expected are skipped. Nothing
      if the list ends inside an entry. */
  function Entries(fields: seq<string>): Option<seq<Entry>>
    decreases |fields|
  {
    if fields == [] then Some([])
    else if fields[0] == "" then Entries(fields[1..])
    else if Paired(fields[0]) then
      if |fields| < 3 then None
      else
        var rest := Entries(fields[3..]);
        if rest.None? then None else Some([Two(fields[0], fields[1], fields[2])] + rest.value)
    else if |fields| < 2 then None
    else
      var rest := Entries(fields[2..]);
      if rest.None? then None else Some([One(fields[0], fields[1])] + rest.value)
  }

  function Parsed(fields: seq<string>): Result<Delta> {
    var entries := Entries(fields);
    if entries.Some? && AllSafePaths(entries.value) then Ok(DeltaOf(entries.value)) else Err(RuntimeError)
  }

  /** Printing entries and reading the fields gives the entries back. */
  lemma {:induction false} EntriesOfPrinted(entries: seq<Entry>)
    requires AllWellFormed(entries)
    ensures Entries(Printed(entries)) == Some(entries)
  {
    if entries != [] {
      var fields := Printed(entries);
      EntriesOfPrinted(entries[1..]);
      assert fields[|Fields(entries[0])|..] == Printed(entries[1..]);
      assert entries == [entries[0]] + entries[1..];
    }
  }

  /** What is accepted is a list of complete, well-formed entries with nothing but empty fields
      around them. */
  lemma {:induction false} EntriesArePrinted(fields: seq<string>)
    requires Entries(fields).Some?
    ensures AllWellFormed(Entries(fields).value)
    ensures Spread(fields, Entries(fields).value)
    decreases |fields|
  {
    if fields != [] {
      if fields[0] == "" {
        EntriesArePrinted(fields[1..]);
      } else if Paired(fields[0]) {
        EntriesArePrinted(fields[3..]);
        assert Entries(fields).value[1..] == Entries(fields[3..]).value;
      } else {
        EntriesArePrinted(fields[2..]);
        assert Entries(fields).value[1..] == Entries(fields[2..]).value;
      }
    }
  }

  /** `fields` is the print of `entries` with empty fields in front of some entries or at the end. */
  predicate Spread(fields: seq<string>, entries: seq<Entry>)
    decreases |fields|
  {
    if fields == [] then entries == []
    else if fields[0] == "" then Spread(fields[1..], entries)
    else entries != [] && Fields(entries[0]) <= fields && Spread(fields[|Fields(entries[0])|..], entries[1..])
  }

  lemma {:induction false} SpreadIsRead(fields: seq<string>, entries: seq<Entry>)
    requires AllWellFormed(entries) && Spread(fields, entries)
    ensures Entries(fields) == Some(entries)
    decreases |fields|
  {
    if fields != [] {
      if fields[0] == "" {
        SpreadIsRead(fields[1..], entries);
      } else {
        SpreadIsRead(fields[|Fields(entries[0])|..], entries[1..]);
        assert entries == [entries[0]] + entries[1..];
      }
    }
  }

  /** The parser accepts exactly the prints of well-formed entries with safe paths, empty fields
      aside, and yields the union of their touched and of their current paths. */
  lemma {:induction false} ParserAcceptsPrints(fields: seq<string>, delta: Delta)
    ensures Parsed(fields) == Ok(delta) <==>
            exists entries :: AllWellFormed(entries) && Spread(fields, entries) && AllSafePaths(entries) && delta == DeltaOf(entries)
  {
    if Parsed(fields) == Ok(delta) {
      EntriesArePrinted(fields);
      assert AllWellFormed(Entries(fields).value) && Spread(fields, Entries(fields).value);
    }
    if entries :| AllWellFormed(entries) && Spread(fields, entries) && AllSafePaths(entries) && delta == DeltaOf(entries) {
      SpreadIsRead(fields, entries);
    }
  }

  /** A print cut inside its last entry is refused. */
  lemma {:induction false} TruncatedIsRefused(entries: seq<Entry>, last: Entry, n: nat)
    requires AllWellFormed(entries) && WellFormed(last) && 0 < n < |Fields(last)|
    ensures Parsed(Printed(entries) + Fields(last)[..n]) == Err(RuntimeError)
  {
    TruncatedHasNoEntries(entries, last, n);
  }

  lemma {:induction false} TruncatedHasNoEntries(entries: seq<Entry>, last: Entry, n: nat)
    requires AllWellFormed(entries) && WellFormed(last) && 0 < n < |Fields(last)|
    ensures Entries(Printed(entries) + Fields(last)[..n]) == None
  {
    var fields := Printed(entries) + Fields(last)[..n];
    if entries == [] {
      assert fields == Fields(last)[..n];
    } else {
      TruncatedHasNoEntries(entries[1..], last, n);
      assert fields[|Fields(entries[0])|..] == Printed(entries[1..]) + Fields(last)[..n];
    }
  }

  // ---------------------------------------------------------------- the output text

  /** Every field followed by a NUL. */
  function Terminated(fields: seq<string>): string { Join(fields + [""], '\0') }

  /** The fields of an output; the empty one after the last NUL does not count. */
  function FieldsOf(output: string): seq<string> {
    var fields := Split(output, '\0');
    if fields[|fields| - 1] == "" then fields[..|fields| - 1] else fields
  }

  lemma {:induction false} FieldsOfTerminated(fields: seq<string>)
    requires forall i :: 0 <= i < |fields| ==> '\0' !in fields[i]
    ensures FieldsOf(Terminated(fields)) == fields
  {
    SplitOfJoin(fields + [""], '\0');
  }

  /** From entries to output text and back: the union of touched and of current paths. */
  lemma {:induction false} OutputRoundTrip(entries: seq<Entry>)
    requires AllWellFormed(entries) && AllSafePaths(entries)
    requires forall i :: 0 <= i < |Printed(entries)| ==> '\0' !in Printed(entries)[i]
    ensures Parsed(FieldsOf(Terminated(Printed(entries)))) == Ok(DeltaOf(entries))
  {
    FieldsOfTerminated(Printed(entries));
    EntriesOfPrinted(entries);
  }

  // ---------------------------------------------------------------- entries as git prints them

  predicate NormalPaths(e: Entry) {
    match e
    case One(_, path) => Normal(path)
    case Two(_, source, target) => Normal(source) && Normal(target)
  }

  predicate AllNormalPaths(entries: seq<Entry>) { forall i :: 0 <= i < |entries| ==> NormalPaths(entries[i]) }

  /** An entry names a path. */
  predicate Names(e: Entry, p: string) {
    match e
    case One(_, path) => p == path
    case Two(_, source, target) => p == source || p == target
  }

  /** An entry says that a path is there to be scanned: any but a deleted one, or the second of a
      rename or copy. */
  predicate Presents(e: Entry, p: string) {
    match e
    case One(status, path) => p == path && !("D" <= status)
    case Two(_, _, target) => p == target
  }

  predicate NamedBy(entries: seq<Entry>, p: string) { exists i :: 0 <= i < |entries| && Names(entries[i], p) }

  predicate PresentedBy(entries: seq<Entry>, p: string)
    requires AllWellFormed(entries)
  {
    exists i :: 0 <= i < |entries| && Presents(entries[i], p)
  }

  lemma {:induction false} NormalEntry(e: Entry, p: string)
    requires WellFormed(e) && NormalPaths(e)
    ensures SafePaths(e) && (p in Touch(e) <==> Names(e, p)) && (p in Keep(e) <==> Presents(e, p))
  {
    match e {
      case One(_, path) => SafeRelativeExactly(path);
      case Two(_, source, target) => SafeRelativeExactly(source); SafeRelativeExactly(target);
    }
    hide SafeRelative;
  }

  /** For paths in normal form the delta consists of the entries' own paths. */
  lemma {:induction false} NormalDelta(entries: seq<Entry>, p: string)
    requires AllWellFormed(entries) && AllNormalPaths(entries)
    ensures AllSafePaths(entries)
    ensures p in DeltaOf(entries).touched <==> NamedBy(entries, p)
    ensures p in DeltaOf(entries).current <==> PresentedBy(entries, p)
  {
    forall i | 0 <= i < |entries| ensures SafePaths(entries[i]) { NormalEntry(entries[i], p); }
    if entries != [] {
      var rest := entries[1..];
      NormalEntry(entries[0], p);
      NormalDelta(rest, p);
      hide SafePaths, Touch, Keep, Names, Presents, NormalPaths, WellFormed;
      NamedOneMore(entries, p);
    }
  }

  lemma {:induction false} NamedOneMore(entries: seq<Entry>, p: string)
    requires entries != [] && AllWellFormed(entries)
    ensures AllWellFormed(entries[1..])
    ensures NamedBy(entries, p) <==> Names(entries[0], p) || NamedBy(entries[1..], p)
    ensures PresentedBy(entries, p) <==> Presents(entries[0], p) || PresentedBy(entries[1..], p)
  {
    var rest := entries[1..];
    assert forall i :: 0 < i < |entries| ==> rest[i - 1] == entries[i];
    assert forall i :: 0 <= i < |rest| ==> rest[i] == entries[i + 1];
    hide Names, Presents;
  }

  /** From entries with paths in normal form to output text and back: what is touched is what the
      entries name, and what is current is what they present. */
  lemma {:induction false} OutputNamesPaths(entries: seq<Entry>)
    requires AllWellFormed(entries) && AllNormalPaths(entries)
    requires forall i :: 0 <= i < |Printed(entries)| ==> '\0' !in Printed(entries)[i]
    ensures var delta := Parsed(FieldsOf(Terminated(Printed(entries))));
            && delta.Ok?
            && (forall p :: p in delta.value.touched <==> NamedBy(entries, p))
            && (forall p :: p in delta.value.current <==> PresentedBy(entries, p))
  {
    hide *;
    NormalDelta(entries, "");
    OutputRoundTrip(entries);
    forall p
      ensures p in DeltaOf(entries).touched <==> NamedBy(entries, p)
      ensures p in DeltaOf(entries).current <==> PresentedBy(entries, p)
    {
      NormalDelta(entries, p);
    }
  }

  /** The output holds these fields, the last one terminated or, unless it is empty, not. */
  predicate Holds(output: string, fields: seq<string>) {
    output == Terminated(fields) || (fields != [] && fields[|fields| - 1] != "" && output == Join(fields, '\0'))
  }

  predicate NulFree(fields: seq<string>) { forall i :: 0 <= i < |fields| ==> '\0' !in fields[i] }

  lemma {:induction false} FieldsAreHeld(output: string, fields: seq<string>)
    ensures FieldsOf(output) == fields <==> NulFree(fields) && Holds(output, fields)
  {
    JoinOfSplit(output, '\0');
    var all := Split(output, '\0');
    if all[|all| - 1] == "" { assert all == FieldsOf(output) + [""]; }
    if NulFree(fields) && output == Terminated(fields) {
      FieldsOfTerminated(fields);
    } else if NulFree(fields) && Holds(output, fields) {
      SplitOfJoin(fields, '\0');
    }
  }

  /** The outputs a diff is accepted from are exactly those that hold the fields of well-formed
      entries with safe paths, empty fields aside; every other output is refused. */
  lemma {:induction false} AcceptedOutputs(output: string, delta: Delta)
    ensures Parsed(FieldsOf(output)) == Ok(delta) <==>
            exists fields, entries :: NulFree(fields) && Holds(output, fields) && AllWellFormed(entries)
              && Spread(fields, entries) && AllSafePaths(entries) && delta == DeltaOf(entries)
  {
    hide *;
    var fields := FieldsOf(output);
    FieldsAreHeld(output, fields);
    ParserAcceptsPrints(fields, delta);
    forall other | NulFree(other) && Holds(output, other) ensures other == fields { FieldsAreHeld(output, other); }
  }

  lemma {:induction false} CurrentIsTouched(entries: seq<Entry>)
    requires AllSafePaths(entries)
    ensures DeltaOf(entries).current <= DeltaOf(entries).touched
  {
    if entries != [] { CurrentIsTouched(entries[1..]); }
  }

  // ---------------------------------------------------------------- the loop

  /** What is left to parse, added to what has been collected. */
  function Plus(touched: set<string>, current: set<string>, rest: Result<Delta>): Result<Delta> {
    if rest.Err? then rest else Ok(Delta(touched + rest.value.touched, current + rest.value.current))
  }

  lemma {:induction false} ParsedStep(fields: seq<string>)
    requires fields != []
    ensures Parsed(fields) ==
            if fields[0] == "" then Parsed(fields[1..])
            else if Paired(fields[0]) then
              if |fields| < 3 || SafeRelative(fields[1]).Err? || SafeRelative(fields[2]).Err? then Err(RuntimeError)
              else
                var source, target := SafeRelative(fields[1]).value, SafeRelative(fields[2]).value;
                Plus({source, target}, {target}, Parsed(fields[3..]))
            else if |fields| < 2 || SafeRelative(fields[1]).Err? then Err(RuntimeError)
            else
              var path := SafeRelative(fields[1]).value;
              Plus({path}, if "D" <= fields[0] then {} else {path}, Parsed(fields[2..]))
  {
    hide SafeRelative;
    if fields[0] != "" {
      var n := if Paired(fields[0]) then 3 else 2;
      if n <= |fields| && Entries(fields).Some? {
        var entries, rest := Entries(fields).value, Entries(fields[n..]).value;
        assert entries[1..] == rest;
        assert AllSafePaths(entries) <==> SafePaths(entries[0]) && AllSafePaths(rest) by {
          assert forall i :: 0 <= i < |rest| ==> rest[i] == entries[i + 1];
          assert forall i :: 0 < i < |entries| ==> entries[i] == rest[i - 1];
        }
      }
    }
  }

  lemma {:induction false} NothingCollected(fields: seq<string>)
    ensures Parsed(fields) == Plus({}, {}, Parsed(fields[0..]))
    ensures forall touched, current :: Plus(touched, current, Parsed([])) == Ok(Delta(touched, current))
  {
    assert fields[0..] == fields;
    var all := Parsed(fields);
    if all.Ok? { assert {} + all.value.touched == all.value.touched && {} + all.value.current == all.value.current; }
    forall touched: set<string>, current: set<string>
      ensures Plus(touched, current, Parsed([])) == Ok(Delta(touched, current))
    {
      assert Parsed([]) == Ok(Delta({}, {}));
      assert touched + {} == touched && current + {} == current;
    }
  }

  lemma {:induction false} PlusPlus(t: set<string>, c: set<string>, t': set<string>, c': set<string>, rest: Result<Delta>)
    ensures Plus(t, c, Plus(t', c', rest)) == Plus(t + t', c + c', rest)
  {
    if rest.Ok? {
      assert t + (t' + rest.value.touched) == t + t' + rest.value.touched;
      assert c + (c' + rest.value.current) == c + c' + rest.value.current;
    }
  }

  /** One round of the loop, from field `index` on. */
  lemma {:induction false} ParsedAt(fields: seq<string>, index: nat, touched: set<string>, current: set<string>)
    requires index < |fields|
    ensures var left := |fields| - index;
            Plus(touched, current, Parsed(fields[index..])) ==
            if fields[index] == "" then Plus(touched, current, Parsed(fields[index + 1..]))
            else if Paired(fields[index]) then
              if left < 3 || SafeRelative(fields[index + 1]).Err? || SafeRelative(fields[index + 2]).Err? then Err(RuntimeError)
              else
                var source, target := SafeRelative(fields[index + 1]).value, SafeRelative(fields[index + 2]).value;
                Plus(touched + {source, target}, current + {target}, Parsed(fields[index + 3..]))
            else if left < 2 || SafeRelative(fields[index + 1]).Err? then Err(RuntimeError)
            else
              var path := SafeRelative(fields[index + 1]).value;
              Plus(touched + {path}, if fields[index][0] == 'D' then current else current + {path}, Parsed(fields[index + 2..]))
  {
    ParsedStep(fields[index..]);
    hide Parsed, SafeRelative;
    forall t, c, rest ensures Plus(touched, current, Plus(t, c, rest)) == Plus(touched + t, current + c, rest) {
      PlusPlus(touched, current, t, c, rest);
    }
    assert current + {} == current;
    assert fields[index..][1..] == fields[index + 1..];
    if |fields| - index >= 2 { assert fields[index..][2..] == fields[index + 2..]; }
    if |fields| - index >= 3 { assert fields[index..][3..] == fields[index + 3..]; }
  }

  /** The changed paths of a diff output: those touched, and those of them to scan again. */
  method ChangedPaths(output: string) returns (r: Result<Delta>)
    ensures r == Parsed(FieldsOf(output))
  {
    var fields := Split(output, '\0');
    if fields[|fields| - 1] == "" { fields := fields[..|fields| - 1]; }
    var touched: set<string>, current: set<string> := {}, {};
    var index := 0;
    NothingCollected(fields);
    while index < |fields|
      invariant 0 <= index <= |fields|
      invariant Parsed(fields) == Plus(touched, current, Parsed(fields[index..]))
    {
      ParsedAt(fields, index, touched, current);
      hide Parsed, SafeRelative, Plus;
      var status := fields[index];
      index := index + 1;
      if status == "" { continue; }
      if status[0] == 'R' || status[0] == 'C' {
        if index + 1 >= |fields| { return Err(RuntimeError); }
        var source := SafeRelative(fields[index]);
        if source.Err? { return Err(RuntimeError); }
        var target := SafeRelative(fields[index + 1]);
        if target.Err? { return Err(RuntimeError); }
        index := index + 2;
        touched := touched + {source.value, target.value};
        current := current + {target.value};
      } else {
        if index >= |fields| { return Err(RuntimeError); }
        var path := SafeRelative(fields[index]);
        if path.Err? { return Err(RuntimeError); }
        index := index + 1;
        touched := touched + {path.value};
        if status[0] != 'D' { current := current + {path.value}; }
      }
    }
    assert fields[index..] == [];
    r := Ok(Delta(touched, current));
  }
}
