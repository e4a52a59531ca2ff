/** The two path helpers of makesfz.py: the extension set `find_samples`
    builds from the `--file-types` option, and `strip_dirs`, which keeps the
    last components of a sample's absolute path. */
module SampleFiles {
  import opened Results
  import opened Text

  /** The file types and their extensions (makesfz.py:54-58). */
  const FILE_TYPES: map<string, seq<string>> := map["wav" := ["wav"], "aif" := ["aif", "aiff"], "flac" := ["flac"]]

  /** `FILE_TYPES.get(ftype, (ftype,))`: a lookup of the table, written out
      entry by entry. `wav` and `flac` map to themselves, as an unknown type
      does, so only `aif` needs a test; `ExpansionsFollowTable` shows that
      this is the table's lookup. */
  function Expansions(ftype: string): seq<string> {
    if ftype == "aif" then ["aif", "aiff"] else [ftype]
  }

  /** The expansion is the table's entry for a known type and the type
      itself otherwise. */
  lemma ExpansionsFollowTable(ftype: string)
    ensures ftype in FILE_TYPES ==> Expansions(ftype) == FILE_TYPES[ftype]
    ensures ftype !in FILE_TYPES ==> Expansions(ftype) == [ftype]
  {
  }

  /** The extensions of some names: each name with a dot before it. */
  function Dotted(names: seq<string>): set<string> {
    if names == [] then {} else {"." + names[0]} + Dotted(names[1..])
  }

  /** The dotted names are exactly the names with a dot put in front. */
  lemma {:induction false} DottedMembership(names: seq<string>, x: string)
    ensures x in Dotted(names) <==> |x| >= 1 && x[0] == '.' && x[1..] in names
  {
    if names != [] {
      DottedMembership(names[1..], x);
      if x == "." + names[0] {
        assert x[1..] == names[0];
      }
      if |x| >= 1 && x[0] == '.' && x[1..] == names[0] {
        assert x == "." + names[0];
      }
      assert names == [names[0]] + names[1..];
    }
  }

  /** The extensions one comma-separated entry contributes: the entry is
      stripped and lower-cased, expanded, and each result gets a dot. */
  function EntryExtensions(entry: string): set<string> {
    Dotted(Expansions(Lower(Strip(entry))))
  }

  /** The union of what `f` gives for each of `xs`, built from the front. */
  function UnionOf<T>(f: T -> set<string>, xs: seq<T>): set<string> {
    if xs == [] then {} else UnionOf(f, xs[..|xs| - 1]) + f(xs[|xs| - 1])
  }

  /** One more element adds what `f` gives for it. */
  lemma UnionOfPrefix<T>(f: T -> set<string>, xs: seq<T>, i: nat)
    requires i < |xs|
    ensures UnionOf(f, xs[..i + 1]) == UnionOf(f, xs[..i]) + f(xs[i])
  {
    assert xs[..i + 1][..i] == xs[..i];
  }

  /** Something is in the union exactly when `f` gives it for some element. */
  lemma {:induction false} UnionOfMembership<T>(f: T -> set<string>, xs: seq<T>, x: string)
    ensures x in UnionOf(f, xs) <==> exists i | 0 <= i < |xs| :: x in f(xs[i])
  {
    if xs != [] {
      var init := xs[..|xs| - 1];
      UnionOfMembership(f, init, x);
      if x in UnionOf(f, init) {
        var i :| 0 <= i < |init| && x in f(init[i]);
        assert xs[i] == init[i];
      }
      if exists i | 0 <= i < |xs| :: x in f(xs[i]) {
        var i :| 0 <= i < |xs| && x in f(xs[i]);
        if i < |init| {
          assert init[i] == xs[i];
        }
      }
    }
  }

  /** The extension set built from the entries, in order. */
  function ExtensionsOf(entries: seq<string>): set<string> {
    UnionOf(EntryExtensions, entries)
  }

  /** The loop of `find_samples` (makesfz.py:160-164) that fills the
      extension set entry by entry. */
  method FindExtensions(fileTypes: string) returns (exts: set<string>)
    ensures exts == ExtensionsOf(Split(fileTypes, ','))
  {
    var entries := Split(fileTypes, ',');
    exts := {};
    var i := 0;
    while i < |entries|
      invariant 0 <= i <= |entries|
      invariant exts == ExtensionsOf(entries[..i])
    {
      var ftype := Lower(Strip(entries[i]));
      FindStep(entries, i);
      exts := exts + Dotted(Expansions(ftype));
      i := i + 1;
    }
    assert entries[..i] == entries;
  }

  /** One turn of the loop adds the extensions of one entry. */
  lemma FindStep(entries: seq<string>, i: nat)
    requires i < |entries|
    ensures ExtensionsOf(entries[..i + 1]) == ExtensionsOf(entries[..i]) + Dotted(Expansions(Lower(Strip(entries[i]))))
  {
    UnionOfPrefix(EntryExtensions, entries, i);
  }

  /** An extension is in the set exactly when some entry contributes it. */
  lemma ExtensionsMembership(entries: seq<string>, x: string)
    ensures x in ExtensionsOf(entries) <==> exists i | 0 <= i < |entries| :: x in EntryExtensions(entries[i])
  {
    UnionOfMembership(EntryExtensions, entries, x);
  }

  /** Every extension is a dot followed by one expansion of some entry. */
  lemma ExtensionsAreDotted(entries: seq<string>, x: string)
    requires x in ExtensionsOf(entries)
    ensures |x| >= 1 && x[0] == '.'
    ensures exists i | 0 <= i < |entries| :: x[1..] in Expansions(Lower(Strip(entries[i])))
  {
    ExtensionsMembership(entries, x);
    var i :| 0 <= i < |entries| && x in EntryExtensions(entries[i]);
    DottedMembership(Expansions(Lower(Strip(entries[i]))), x);
  }

  /** A type outside the table is used as written, after stripping and
      lower-casing. */
  lemma UnknownTypeKept(entry: string)
    requires Lower(Strip(entry)) !in FILE_TYPES
    ensures EntryExtensions(entry) == {"." + Lower(Strip(entry))}
  {
    UnknownExpansion(Lower(Strip(entry)));
  }

  lemma UnknownExpansion(t: string)
    requires t !in FILE_TYPES
    ensures Dotted(Expansions(t)) == {"." + t}
  {
    assert [t][1..] == [];
  }

  /** Whitespace around an entry does not change what it contributes. */
  lemma SurroundingSpaceIgnored(a: string, t: string, b: string)
    requires AllSpace(a) && AllSpace(b)
    ensures EntryExtensions(a + t + b) == EntryExtensions(t)
  {
    StripSurrounded(a, t, b);
  }

  /** A space after the comma, as in `"aif, wav"`, changes nothing. */
  lemma LeadingSpaceIgnored(c: char, t: string)
    requires IsSpace(c)
    ensures EntryExtensions([c] + t) == EntryExtensions(t)
  {
    assert [c] + t + [] == [c] + t;
    SurroundingSpaceIgnored([c], t, []);
  }

  /** `"aif, wav"` splits into two entries, the second with its space. */
  lemma SplitAifWav(s: string)
    requires s == "aif, wav"
    ensures Split(s, ',') == ["aif", [' '] + "wav"]
  {
    assert s == "aif" + [','] + ([' '] + "wav");
    SplitAfterPiece("aif", ',', [' '] + "wav");
    SplitAfterPiece([' '] + "wav", ',', []);
  }

  /** The AIFF entry expands to both of its extensions. */
  lemma AifEntry(entry: string)
    requires entry == "aif"
    ensures EntryExtensions(entry) == {".aif", ".aiff"}
  {
    assert TrimStart(entry) == entry && TrimEnd(entry) == entry;
    assert Lower(entry) == entry;
    assert Expansions(entry) == ["aif", "aiff"];
    assert "." + "aif" == ".aif" && "." + "aiff" == ".aiff";
  }

  /** The WAV entry gives its one extension. */
  lemma WavEntry(entry: string)
    requires entry == "wav"
    ensures EntryExtensions(entry) == {".wav"}
  {
    assert TrimStart(entry) == entry && TrimEnd(entry) == entry;
    assert Lower(entry) == entry;
    assert Expansions(entry) == ["wav"];
    assert "." + "wav" == ".wav";
  }

  /** Two entries contribute what each of them does. */
  lemma TwoEntries(entries: seq<string>)
    requires |entries| == 2
    ensures ExtensionsOf(entries) == EntryExtensions(entries[0]) + EntryExtensions(entries[1])
  {
    UnionOfTwo(EntryExtensions, entries);
  }

  /** The union over two elements. */
  lemma UnionOfTwo<T>(f: T -> set<string>, xs: seq<T>)
    requires |xs| == 2
    ensures UnionOf(f, xs) == f(xs[0]) + f(xs[1])
  {
    UnionOfPrefix(f, xs, 0);
    UnionOfPrefix(f, xs, 1);
    assert xs[..0] == [] && xs[..2] == xs;
  }

  /** The documented example: `"aif, wav"` gives `.aif`, `.aiff` and `.wav`. */
  lemma AifWavExample(s: string)
    requires s == "aif, wav"
    ensures ExtensionsOf(Split(s, ',')) == {".aif", ".aiff", ".wav"}
  {
    SplitAifWav(s);
    AifWavEntries(Split(s, ','));
  }

  /** The two entries of the documented example. */
  lemma AifWavEntries(entries: seq<string>)
    requires |entries| == 2 && entries[0] == "aif" && entries[1] == [' '] + "wav"
    ensures ExtensionsOf(entries) == {".aif", ".aiff", ".wav"}
  {
    TwoEntries(entries);
    AifEntry(entries[0]);
    SpacedWavEntry(entries[1]);
  }

  /** The WAV entry after the comma, with its space. */
  lemma SpacedWavEntry(entry: string)
    requires entry == [' '] + "wav"
    ensures EntryExtensions(entry) == {".wav"}
  {
    LeadingSpaceIgnored(' ', "wav");
    WavEntry("wav");
  }

  /** The error `os.path.join` raises when called with no components. */
  datatype PathError = TypeError

  /** Where Python's slice `a[start:]` begins, for a sequence of length `n`. */
  function SliceStart(n: nat, start: int): (r: nat)
    ensures r <= n
    ensures start < 0 && n + start >= 0 ==> r == n + start
    ensures 0 <= start <= n ==> r == start
  {
    if start < 0 then (if n + start < 0 then 0 else n + start)
    else if start > n then n
    else start
  }

  /** One step of POSIX `os.path.join`: an absolute component replaces the
      path, an empty path or one ending in a separator is extended directly,
      and otherwise a separator goes in between. */
  function JoinStep(path: string, b: string): string {
    if b != [] && b[0] == '/' then b
    else if path == [] || path[|path| - 1] == '/' then path + b
    else path + "/" + b
  }

  /** `os.path.join(*parts)`. */
  function JoinPath(parts: seq<string>): string
    requires |parts| >= 1
  {
    if |parts| == 1 then parts[0] else JoinStep(JoinPath(parts[..|parts| - 1]), parts[|parts| - 1])
  }

  /** `strip_dirs` (makesfz.py:169-171) on the absolute path: the last
      `keepDirs + 1` components, in Python's slice semantics, joined again. */
  function StripDirs(absPath: string, keepDirs: int): Result<string, PathError> {
    KeepLast(Split(absPath, '/'), keepDirs)
  }

  /** `pathjoin(*comps[-(keepDirs + 1):])`. */
  function KeepLast(comps: seq<string>, keepDirs: int): Result<string, PathError> {
    var tail := comps[SliceStart(|comps|, -(keepDirs + 1))..];
    if tail == [] then Err(TypeError) else Ok(JoinPath(tail))
  }

  /** Components without separators that are not empty are joined with
      exactly one separator between neighbours. */
  lemma {:induction false} JoinPlain(parts: seq<string>)
    requires |parts| >= 1
    requires forall i | 0 <= i < |parts| :: parts[i] != [] && '/' !in parts[i]
    ensures JoinPath(parts) == Intercalate(parts, '/')
    ensures JoinPath(parts) != [] && JoinPath(parts)[|JoinPath(parts)| - 1] != '/'
    decreases |parts|
  {
    if |parts| > 1 {
      var init := parts[..|parts| - 1];
      JoinPlain(init);
      IntercalateSnoc(init, parts[|parts| - 1], '/');
      assert init + [parts[|parts| - 1]] == parts;
      var last := parts[|parts| - 1];
      assert last[0] != '/' by {
        assert last[0] in last;
      }
      var r := JoinPath(parts);
      assert r == JoinPath(init) + "/" + last;
      assert r[|r| - 1] == last[|last| - 1];
      assert last[|last| - 1] in last;
    }
  }

  /** Joining with one more piece at the end. */
  lemma {:induction false} IntercalateSnoc(parts: seq<string>, last: string, sep: char)
    requires |parts| >= 1
    ensures Intercalate(parts + [last], sep) == Intercalate(parts, sep) + [sep] + last
    decreases |parts|
  {
    if |parts| > 1 {
      IntercalateSnoc(parts[1..], last, sep);
      assert (parts + [last])[1..] == parts[1..] + [last];
    } else {
      assert (parts + [last])[1..] == [last];
    }
  }

  /** A leading empty component, the root of an absolute path, joins to
      nothing: the result has no leading separator. */
  lemma {:induction false} JoinAfterRoot(parts: seq<string>)
    requires |parts| >= 1
    requires forall i | 0 <= i < |parts| :: parts[i] != [] && '/' !in parts[i]
    ensures JoinPath([""] + parts) == Intercalate(parts, '/')
    decreases |parts|
  {
    var all := [""] + parts;
    if |parts| == 1 {
      assert all[..1] == [""];
      assert parts[0][0] != '/' by {
        assert parts[0][0] in parts[0];
      }
      assert JoinPath(all) == "" + parts[0];
    } else {
      var init := parts[..|parts| - 1];
      var last := parts[|parts| - 1];
      JoinAfterRoot(init);
      JoinPlain(init);
      IntercalateSnoc(init, last, '/');
      assert init + [last] == parts;
      assert all[..|all| - 1] == [""] + init;
      assert last[0] != '/' by {
        assert last[0] in last;
      }
    }
  }

  /** An absolute path `/c1/.../cn` splits into the root and its
      components. */
  lemma SplitAbsolute(comps: seq<string>)
    requires |comps| >= 1 && forall i | 0 <= i < |comps| :: '/' !in comps[i]
    ensures Split("/" + Intercalate(comps, '/'), '/') == [""] + comps
  {
    SplitAfterPiece([], '/', Intercalate(comps, '/'));
    SplitJoin(comps, '/');
    assert [] + ['/'] + Intercalate(comps, '/') == "/" + Intercalate(comps, '/');
  }

  /** The slice `[-(keepDirs + 1):]` of the root and the components. */
  lemma RootedTail(comps: seq<string>, keepDirs: nat)
    requires |comps| >= keepDirs + 1
    ensures ([""] + comps)[SliceStart(|comps| + 1, -(keepDirs + 1))..] == comps[|comps| - (keepDirs + 1)..]
  {
  }

  /** With at least `keepDirs + 1` components, `strip_dirs` keeps exactly
      the last `keepDirs + 1` of them, joined as a relative path. */
  lemma StripDirsKeepsLast(comps: seq<string>, keepDirs: nat)
    requires |comps| >= keepDirs + 1
    requires forall i | 0 <= i < |comps| :: comps[i] != [] && '/' !in comps[i]
    ensures StripDirs("/" + Intercalate(comps, '/'), keepDirs)
         == Ok(Intercalate(comps[|comps| - (keepDirs + 1)..], '/'))
  {
    SplitAbsolute(comps);
    KeepLastRooted(comps, keepDirs);
  }

  /** The same on the components of the path, the root first. */
  lemma KeepLastRooted(comps: seq<string>, keepDirs: nat)
    requires |comps| >= keepDirs + 1
    requires forall i | 0 <= i < |comps| :: comps[i] != [] && '/' !in comps[i]
    ensures KeepLast([""] + comps, keepDirs) == Ok(Intercalate(comps[|comps| - (keepDirs + 1)..], '/'))
  {
    RootedTail(comps, keepDirs);
    JoinPlain(comps[|comps| - (keepDirs + 1)..]);
  }

  /** The kept path splits back into the kept components. */
  lemma StripDirsSplitsBack(comps: seq<string>, keepDirs: nat, kept: string)
    requires |comps| >= keepDirs + 1
    requires forall i | 0 <= i < |comps| :: comps[i] != [] && '/' !in comps[i]
    requires StripDirs("/" + Intercalate(comps, '/'), keepDirs) == Ok(kept)
    ensures Split(kept, '/') == comps[|comps| - (keepDirs + 1)..]
  {
    var tail := comps[|comps| - (keepDirs + 1)..];
    StripDirsKeepsLast(comps, keepDirs);
    assert kept == Intercalate(tail, '/');
    SplitJoin(tail, '/');
  }

  /** With fewer components than asked for, the whole path is kept but its
      leading separator is lost, because the root joins as an empty
      component. */
  lemma StripDirsShortPath(comps: seq<string>, keepDirs: int)
    requires 1 <= |comps| && keepDirs >= |comps|
    requires forall i | 0 <= i < |comps| :: comps[i] != [] && '/' !in comps[i]
    ensures StripDirs("/" + Intercalate(comps, '/'), keepDirs) == Ok(Intercalate(comps, '/'))
  {
    SplitAbsolute(comps);
    var all := [""] + comps;
    assert SliceStart(|all|, -(keepDirs + 1)) == 0;
    assert all[0..] == all;
    JoinAfterRoot(comps);
  }

  /** A negative `keepDirs` below -1 turns the slice around: it starts
      from the front, and past the end nothing is left to join, which
      raises TypeError. */
  lemma StripDirsNothingLeft(absPath: string, keepDirs: int)
    requires -(keepDirs + 1) >= |Split(absPath, '/')|
    ensures StripDirs(absPath, keepDirs) == Err(TypeError)
  {
  }

  /** `strip_dirs` of `/home/user/samples/piano.wav` with the default
      `keepDirs` of 1 is `samples/piano.wav`. */
  lemma StripDirsExample(comps: seq<string>)
    requires comps == ["home", "user", "samples", "piano.wav"]
    ensures StripDirs("/" + Intercalate(comps, '/'), 1) == Ok(Intercalate(["samples", "piano.wav"], '/'))
  {
    assert forall i | 0 <= i < |comps| :: comps[i] != [] && '/' !in comps[i];
    StripDirsKeepsLast(comps, 1);
    assert comps[2..] == ["samples", "piano.wav"];
  }
}
