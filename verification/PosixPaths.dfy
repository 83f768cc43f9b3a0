/** Text fields and POSIX path names: splitting, joining, normal forms, and what "below a
    directory" means for names and for their components. */
module PosixPaths {
  import opened Common

  // ---------------------------------------------------------------- fields

  /** The fields between separators; always at least one. */
  function Split(s: string, sep: char): (r: seq<string>)
    ensures r != []
    ensures forall i :: 0 <= i < |r| ==> sep !in r[i]
  {
    if s == "" then [""]
    else if s[0] == sep then [""] + Split(s[1..], sep)
    else var rest := Split(s[1..], sep); [[s[0]] + rest[0]] + rest[1..]
  }

  function Join(fields: seq<string>, sep: char): string
    requires fields != []
  {
    if |fields| == 1 then fields[0] else fields[0] + [sep] + Join(fields[1..], sep)
  }

  lemma {:induction false} JoinOfSplit(s: string, sep: char)
    ensures Join(Split(s, sep), sep) == s
  {
    if s != "" {
      JoinOfSplit(s[1..], sep);
      var rest := Split(s[1..], sep);
      if s[0] == sep {
        assert ([""] + rest)[1..] == rest;
      } else if |rest| > 1 {
        assert ([[s[0]] + rest[0]] + rest[1..])[1..] == rest[1..];
      }
    }
  }

  lemma {:induction false} SplitPlain(s: string, sep: char)
    requires sep !in s
    ensures Split(s, sep) == [s]
  {
    if s != "" {
      assert s[0] != sep && sep !in s[1..];
      SplitPlain(s[1..], sep);
      assert [s[0]] + s[1..] == s;
    }
  }

  /** One more character in front starts a new field or lengthens the first one. */
  lemma {:induction false} SplitMore(c: char, s: string, sep: char)
    ensures Split([c] + s, sep) == if c == sep then [""] + Split(s, sep) else [[c] + Split(s, sep)[0]] + Split(s, sep)[1..]
  {
    assert ([c] + s)[1..] == s;
  }

  lemma {:induction false} FirstStaysFirst(first: seq<string>, rest: seq<string>, c: char)
    requires first != []
    ensures [""] + (first + rest) == ([""] + first) + rest
    ensures [[c] + (first + rest)[0]] + (first + rest)[1..] == ([[c] + first[0]] + first[1..]) + rest
  {
    assert (first + rest)[1..] == first[1..] + rest;
  }

  lemma {:induction false} TextFrom(a: string, sep: char, b: string)
    requires a != ""
    ensures a == [a[0]] + a[1..] && a + [sep] + b == [a[0]] + (a[1..] + [sep] + b)
  {
  }

  lemma {:induction false} SplitConcat(a: string, b: string, sep: char)
    ensures Split(a + [sep] + b, sep) == Split(a, sep) + Split(b, sep)
  {
    if a == "" {
      SplitMore(sep, b, sep);
      assert a + [sep] + b == [sep] + b;
    } else {
      hide *;
      SplitConcat(a[1..], b, sep);
      TextFrom(a, sep, b);
      SplitMore(a[0], a[1..], sep);
      SplitMore(a[0], a[1..] + [sep] + b, sep);
      FirstStaysFirst(Split(a[1..], sep), Split(b, sep), a[0]);
    }
  }

  /** Joining fields that hold no separator and splitting again gives the fields back. */
  lemma {:induction false} SplitOfJoin(fields: seq<string>, sep: char)
    requires fields != [] && forall i :: 0 <= i < |fields| ==> sep !in fields[i]
    ensures Split(Join(fields, sep), sep) == fields
  {
    SplitPlain(fields[0], sep);
    if |fields| > 1 {
      SplitOfJoin(fields[1..], sep);
      SplitConcat(fields[0], Join(fields[1..], sep), sep);
    }
  }

  lemma {:induction false} JoinConcat(x: seq<string>, y: seq<string>, sep: char)
    requires x != [] && y != []
    ensures Join(x + y, sep) == Join(x, sep) + [sep] + Join(y, sep)
  {
    if |x| == 1 {
      assert (x + y)[1..] == y;
    } else {
      JoinConcat(x[1..], y, sep);
      assert (x + y)[1..] == x[1..] + y;
    }
  }

  // ---------------------------------------------------------------- path names

  predicate Component(part: string) { part != "" && part != "." && '/' !in part }

  /** The components of a path name: empty ones and single dots do not count. */
  function Components(fields: seq<string>): (r: seq<string>)
    ensures (forall i :: 0 <= i < |fields| ==> '/' !in fields[i]) ==> forall i :: 0 <= i < |r| ==> Component(r[i])
    ensures forall part :: part in r ==> part in fields
  {
    if fields == [] then []
    else if fields[0] == "" || fields[0] == "." then Components(fields[1..])
    else [fields[0]] + Components(fields[1..])
  }

  function Parts(name: string): (r: seq<string>)
    ensures forall i :: 0 <= i < |r| ==> Component(r[i])
  {
    Components(Split(name, '/'))
  }

  function Posix(parts: seq<string>): string {
    if parts == [] then "." else Join(parts, '/')
  }

  predicate Absolute(name: string) { name != "" && name[0] == '/' }

  /** A name in normal form that stays below its root. */
  predicate Normal(name: string) {
    Parts(name) != [] && ".." !in Parts(name) && name == Posix(Parts(name))
  }

  lemma {:induction false} ComponentsStay(parts: seq<string>)
    requires forall i :: 0 <= i < |parts| ==> Component(parts[i])
    ensures Components(parts) == parts
  {
    if parts != [] { ComponentsStay(parts[1..]); }
  }

  /** Path names in normal form and non-empty component lists are the same thing. */
  lemma {:induction false} PartsOfPosix(parts: seq<string>)
    requires parts != [] && forall i :: 0 <= i < |parts| ==> Component(parts[i])
    ensures Parts(Posix(parts)) == parts
    ensures ".." !in parts ==> Normal(Posix(parts))
  {
    SplitOfJoin(parts, '/');
    ComponentsStay(parts);
  }

  lemma {:induction false} ComponentsConcat(x: seq<string>, y: seq<string>)
    ensures Components(x + y) == Components(x) + Components(y)
  {
    if x == [] {
      assert x + y == y;
    } else {
      hide *;
      ComponentsConcat(x[1..], y);
      FirstAndRest(x, y);
      ComponentsMore(x);
      ComponentsMore(x + y);
      ConcatAssociates(if x[0] == "" || x[0] == "." then [] else [x[0]], Components(x[1..]), Components(y));
    }
  }

  lemma {:induction false} FirstAndRest(x: seq<string>, y: seq<string>)
    requires x != []
    ensures (x + y)[0] == x[0] && (x + y)[1..] == x[1..] + y
  {
  }

  lemma {:induction false} ConcatAssociates(x: seq<string>, y: seq<string>, z: seq<string>)
    ensures (x + y) + z == x + (y + z)
  {
  }

  lemma {:induction false} ComponentsMore(fields: seq<string>)
    requires fields != []
    ensures Components(fields) == (if fields[0] == "" || fields[0] == "." then [] else [fields[0]]) + Components(fields[1..])
  {
  }

  /** What the components of a name are: those of its two halves at any slash, none for an empty
      piece and for a dot, and a piece without a slash itself otherwise. */
  lemma {:induction false} PartsExactly(a: string, b: string)
    ensures Parts(a + "/" + b) == Parts(a) + Parts(b)
    ensures '/' !in a ==> Parts(a) == if a == "" || a == "." then [] else [a]
  {
    SplitConcat(a, b, '/');
    ComponentsConcat(Split(a, '/'), Split(b, '/'));
    if '/' !in a {
      SplitPlain(a, '/');
      assert Components([]) == [];
    }
  }

  /** A name in normal form does not start with a slash. */
  lemma {:induction false} NormalIsRelative(name: string)
    requires Normal(name)
    ensures !Absolute(name)
  {
    var parts := Parts(name);
    assert Component(parts[0]);
    assert name[0] == parts[0][0];
  }

  /** The last component. */
  function Name(name: string): string {
    var fields := Split(name, '/');
    fields[|fields| - 1]
  }

  /** Everything but the last component; a single dot at the root. */
  function Parent(name: string): string {
    var fields := Split(name, '/');
    Posix(fields[..|fields| - 1])
  }

  /** `name` lies strictly below directory `dir`. */
  predicate Below(dir: string, name: string) {
    dir + "/" <= name
  }

  /** Comparing names as text agrees with comparing their components. */
  lemma {:induction false} BelowMeansPrefix(dir: seq<string>, parts: seq<string>)
    requires dir != [] && parts != []
    requires forall i :: 0 <= i < |dir| ==> Component(dir[i])
    requires forall i :: 0 <= i < |parts| ==> Component(parts[i])
    ensures Below(Posix(dir), Posix(parts)) <==> dir < parts
  {
    if dir < parts {
      assert parts == dir + parts[|dir|..];
      JoinConcat(dir, parts[|dir|..], '/');
    }
    if Below(Posix(dir), Posix(parts)) {
      var rest := Posix(parts)[|Posix(dir)| + 1..];
      assert Posix(parts) == Posix(dir) + "/" + rest;
      SplitConcat(Posix(dir), rest, '/');
      SplitOfJoin(dir, '/');
      SplitOfJoin(parts, '/');
      assert parts == dir + Split(rest, '/');
    }
  }
}
