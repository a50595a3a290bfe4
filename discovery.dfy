/**
 * Library discovery: the file names a bare library name may have on each
 * platform (platformSpecificLibName), and the search of the extra directories
 * for the first of them that can be opened for reading
 * (findLibraryInExtendedPath). Whether a file can be opened is an injected
 * predicate `readable`.
 */
module Discovery {
  import opened Common
  import SearchPath

  /** True iff `s` ends with `suffix`. */
  predicate EndsWith(s: string, suffix: string)
  {
    |suffix| <= |s| && s[|s| - |suffix|..] == suffix
  }

  /** The file-name extension of shared libraries on the platform. */
  function Extension(p: Platform): string
  {
    match p
    case Linux => ".so"
    case MacOS => ".dylib"
    case Windows(_) => ".dll"
  }

  /**
   * platformSpecificLibName: the file names tried for `library`, in the order
   * they are tried. Windows has three, the debug-suffixed one first in a debug
   * build and second in a release build; Linux and macOS have one, with the
   * "lib" prefix. On every platform the last name tried is lib<name> with the
   * platform's extension.
   */
  function LibNames(library: string, p: Platform): (r: seq<string>)
    ensures |r| == if p.Windows? then 3 else 1
    ensures r[|r| - 1] == "lib" + library + Extension(p)
  {
    match p
    case Windows(ndebug) =>
      if ndebug then [library + ".dll", library + "d.dll", "lib" + library + ".dll"]
      else [library + "d.dll", library + ".dll", "lib" + library + ".dll"]
    case Linux => ["lib" + library + ".so"]
    case MacOS => ["lib" + library + ".dylib"]
  }

  /**
   * The variants are distinct, each ends with the platform's extension, and
   * Windows tries the debug-suffixed name first exactly in a debug build.
   * On Linux the one variant is lib<name>.so.
   */
  lemma LibNamesShape(library: string, p: Platform)
    ensures forall i :: 0 <= i < |LibNames(library, p)| ==> EndsWith(LibNames(library, p)[i], Extension(p))
    ensures forall i, j :: 0 <= i < j < |LibNames(library, p)| ==> LibNames(library, p)[i] != LibNames(library, p)[j]
    ensures p.Linux? ==> LibNames(library, p) == ["lib" + library + ".so"]
    ensures p.MacOS? ==> LibNames(library, p) == ["lib" + library + ".dylib"]
    ensures p.Windows? ==> LibNames(library, p)[if p.ndebug then 1 else 0] == library + "d.dll"
    ensures p.Windows? ==> LibNames(library, p)[if p.ndebug then 0 else 1] == library + ".dll"
  {
    match p
    case Windows(ndebug) =>
      assert EndsWith(library + "d.dll", ".dll") && EndsWith(library + ".dll", ".dll");
      assert EndsWith("lib" + library + ".dll", ".dll");
    case Linux =>
      assert EndsWith("lib" + library + ".so", ".so");
    case MacOS =>
      assert EndsWith("lib" + library + ".dylib", ".dylib");
  }

  /** The name contains a '/' or '\', so it is used as a path and not searched for. */
  predicate HasSeparator(name: string)
  {
    '/' in name || '\\' in name
  }

  /** The path probed for one directory and one file name. */
  function Candidate(dir: string, sep: string, file: string): string
  {
    dir + sep + file
  }

  /** (x, y) comes strictly before (i, j) in the order the nested loops visit pairs. */
  predicate Before(x: int, y: int, i: int, j: int)
  {
    x < i || (x == i && y < j)
  }

  /**
   * (a, b) is the first pair at or after (i, j) whose candidate is readable:
   * directories are the outer order, file names the inner one.
   */
  predicate FirstHitFrom(dirs: seq<string>, names: seq<string>, sep: string, readable: string -> bool,
                         i: int, j: int, a: int, b: int)
  {
    && 0 <= a < |dirs| && 0 <= b < |names|
    && !Before(a, b, i, j)
    && readable(Candidate(dirs[a], sep, names[b]))
    && forall x, y :: 0 <= x < |dirs| && 0 <= y < |names| && !Before(x, y, i, j) && Before(x, y, a, b) ==>
         !readable(Candidate(dirs[x], sep, names[y]))
  }

  /** The search for the first readable candidate, starting at directory `i`, file name `j`. */
  function SearchFrom(dirs: seq<string>, names: seq<string>, sep: string, readable: string -> bool,
                      i: nat, j: nat): (h: Option<(nat, nat)>)
    requires i <= |dirs| && j <= |names|
    ensures h.Some? ==> h.value.0 < |dirs| && h.value.1 < |names|
    decreases |dirs| - i, |names| - j
  {
    if i == |dirs| then None
    else if j == |names| then SearchFrom(dirs, names, sep, readable, i + 1, 0)
    else if readable(Candidate(dirs[i], sep, names[j])) then Some((i, j))
    else SearchFrom(dirs, names, sep, readable, i, j + 1)
  }

  /**
   * The search from (i, j) stops at the first readable candidate at or after
   * (i, j), and finds nothing exactly when no such candidate is readable.
   */
  lemma {:induction false} SearchFromCorrect(dirs: seq<string>, names: seq<string>, sep: string,
                                            readable: string -> bool, i: nat, j: nat)
    requires i <= |dirs| && j <= |names|
    ensures var h := SearchFrom(dirs, names, sep, readable, i, j);
      h.Some? ==> FirstHitFrom(dirs, names, sep, readable, i, j, h.value.0, h.value.1)
    ensures SearchFrom(dirs, names, sep, readable, i, j).None? ==>
      forall x, y :: 0 <= x < |dirs| && 0 <= y < |names| && !Before(x, y, i, j) ==>
        !readable(Candidate(dirs[x], sep, names[y]))
    decreases |dirs| - i, |names| - j
  {
    if i == |dirs| {
    } else if j == |names| {
      SearchFromCorrect(dirs, names, sep, readable, i + 1, 0);
    } else if readable(Candidate(dirs[i], sep, names[j])) {
    } else {
      SearchFromCorrect(dirs, names, sep, readable, i, j + 1);
    }
  }

  /** No candidate of any directory and any file name is readable. */
  predicate NoneReadable(dirs: seq<string>, names: seq<string>, sep: string, readable: string -> bool)
  {
    forall x, y :: 0 <= x < |dirs| && 0 <= y < |names| ==> !readable(Candidate(dirs[x], sep, names[y]))
  }

  /**
   * `r` is what the nested search returns: the first readable candidate, or
   * the empty string when none is readable.
   */
  ghost predicate IsSearchResult(r: string, dirs: seq<string>, names: seq<string>, sep: string, readable: string -> bool)
  {
    && (r != "" ==> readable(r) && exists a, b ::
          FirstHitFrom(dirs, names, sep, readable, 0, 0, a, b) && r == Candidate(dirs[a], sep, names[b]))
    && (r == "" ==> NoneReadable(dirs, names, sep, readable))
  }

  /** The candidate the search from (i, j) stops at, or the empty string. */
  function SearchResultFrom(dirs: seq<string>, names: seq<string>, sep: string, readable: string -> bool,
                            i: nat, j: nat): string
    requires i <= |dirs| && j <= |names|
  {
    match SearchFrom(dirs, names, sep, readable, i, j)
    case None => ""
    case Some((a, b)) => Candidate(dirs[a], sep, names[b])
  }

  /** The search from the first pair stops at the first readable candidate. */
  lemma SearchResultCorrect(dirs: seq<string>, names: seq<string>, sep: string, readable: string -> bool)
    requires |sep| > 0
    ensures IsSearchResult(SearchResultFrom(dirs, names, sep, readable, 0, 0), dirs, names, sep, readable)
  {
    SearchFromCorrect(dirs, names, sep, readable, 0, 0);
    match SearchFrom(dirs, names, sep, readable, 0, 0)
    case None =>
    case Some((a, b)) =>
      assert FirstHitFrom(dirs, names, sep, readable, 0, 0, a, b);
  }

  /** One step of the nested loops: the search from (i, j) in terms of the next position. */
  lemma SearchStep(dirs: seq<string>, names: seq<string>, sep: string, readable: string -> bool, i: nat, j: nat)
    requires i <= |dirs| && j <= |names|
    ensures i == |dirs| ==> SearchResultFrom(dirs, names, sep, readable, i, j) == ""
    ensures i < |dirs| && j == |names| ==>
      SearchResultFrom(dirs, names, sep, readable, i, j) == SearchResultFrom(dirs, names, sep, readable, i + 1, 0)
    ensures i < |dirs| && j < |names| && readable(Candidate(dirs[i], sep, names[j])) ==>
      SearchResultFrom(dirs, names, sep, readable, i, j) == Candidate(dirs[i], sep, names[j])
    ensures i < |dirs| && j < |names| && !readable(Candidate(dirs[i], sep, names[j])) ==>
      SearchResultFrom(dirs, names, sep, readable, i, j) == SearchResultFrom(dirs, names, sep, readable, i, j + 1)
  {
  }

  /**
   * findLibraryInExtendedPath: empty when the name contains a separator;
   * otherwise the first readable `dir + PATH_SEPARATOR + variant`, directories
   * in list order and variants in platformSpecificLibName order; empty when
   * none is readable.
   */
  function Resolve(name: string, dirs: seq<string>, p: Platform, readable: string -> bool): (r: string)
    ensures HasSeparator(name) ==> r == ""
  {
    if HasSeparator(name) then "" else SearchResultFrom(dirs, LibNames(name, p), PathSeparator(p), readable, 0, 0)
  }

  /**
   * For a bare name, the search result is the first readable candidate in
   * directory-then-variant order, or empty when no candidate is readable.
   */
  lemma ResolveIsFirstHit(name: string, dirs: seq<string>, p: Platform, readable: string -> bool)
    requires !HasSeparator(name)
    ensures IsSearchResult(Resolve(name, dirs, p, readable), dirs, LibNames(name, p), PathSeparator(p), readable)
  {
    SearchResultCorrect(dirs, LibNames(name, p), PathSeparator(p), readable);
  }

  /** A candidate found by the search contains the platform's path separator, so it differs from a bare name. */
  lemma FoundHasSeparator(name: string, dirs: seq<string>, p: Platform, readable: string -> bool)
    requires !HasSeparator(name) && Resolve(name, dirs, p, readable) != ""
    ensures HasSeparator(Resolve(name, dirs, p, readable))
  {
    var names, sep := LibNames(name, p), PathSeparator(p);
    ResolveIsFirstHit(name, dirs, p, readable);
    var a, b :| FirstHitFrom(dirs, names, sep, readable, 0, 0, a, b)
                && Resolve(name, dirs, p, readable) == Candidate(dirs[a], sep, names[b]);
    assert Candidate(dirs[a], sep, names[b])[|dirs[a]|] == sep[0];
  }

  /**
   * The path `open` hands to the loader: the search result, or the requested
   * name unchanged when the search found nothing.
   */
  function LoadPath(name: string, dirs: seq<string>, p: Platform, readable: string -> bool): (r: string)
    ensures HasSeparator(name) ==> r == name
    ensures dirs == [] ==> r == name
    ensures !HasSeparator(name) ==> (r == name <==> NoneReadable(dirs, LibNames(name, p), PathSeparator(p), readable))
    ensures r != name ==> IsSearchResult(r, dirs, LibNames(name, p), PathSeparator(p), readable)
  {
    var found := Resolve(name, dirs, p, readable);
    if found == "" then
      if HasSeparator(name) then name
      else
        ResolveIsFirstHit(name, dirs, p, readable);
        name
    else
      ResolveIsFirstHit(name, dirs, p, readable);
      FoundHasSeparator(name, dirs, p, readable);
      found
  }

  /**
   * Adding a directory and then looking for a library whose file cannot be
   * read in any of the directories already stored finds it in the new one:
   * the search path reaches the directory just added.
   */
  lemma FoundAfterExtend(dirs: seq<string>, dir: string, name: string, p: Platform, readable: string -> bool)
    requires |dir| > 0 && !HasSeparator(name)
    requires readable(Candidate(SearchPath.Normalize(dir), PathSeparator(p), LibNames(name, p)[0]))
    requires NoneReadable(dirs, LibNames(name, p), PathSeparator(p), readable)
    ensures LoadPath(name, SearchPath.Extend(dirs, dir), p, readable) ==
      Candidate(SearchPath.Normalize(dir), PathSeparator(p), LibNames(name, p)[0])
  {
    var names, sep, d := LibNames(name, p), PathSeparator(p), SearchPath.Normalize(dir);
    assert d !in dirs;
    var extended := dirs + [d];
    assert SearchPath.Extend(dirs, dir) == extended;
    assert readable(Candidate(extended[|dirs|], sep, names[0]));
    ResolveIsFirstHit(name, extended, p, readable);
    var r := Resolve(name, extended, p, readable);
    assert r != "";
    var a, b :| FirstHitFrom(extended, names, sep, readable, 0, 0, a, b) && r == Candidate(extended[a], sep, names[b]);
    assert a == |dirs|;
    assert !Before(|dirs|, 0, a, b);
  }
}
