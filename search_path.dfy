/**
 * The factory's list of extra search directories: how one directory is
 * normalised and added (extendSearchPath), how the plugin-path environment
 * variable is cut into entries (std::getline on a delimiter), and how those
 * entries are folded into the list in order (readExtendedPathFromEnvironment).
 */
module SearchPath {
  import opened Common

  /** No entry of the list occurs twice. */
  predicate NoDuplicates(s: seq<string>)
  {
    forall i, j :: 0 <= i < j < |s| ==> s[i] != s[j]
  }

  /** Every entry is non-empty, so extendSearchPath may be applied to it. */
  predicate AllNonEmpty(paths: seq<string>)
  {
    forall i :: 0 <= i < |paths| ==> |paths[i]| > 0
  }

  /**
   * The directory extendSearchPath stores for `path`: the same text with one
   * trailing '/' or '\' removed, if there is one. The source reads the last
   * character of `path` unconditionally, which is undefined for an empty
   * string, hence the precondition.
   */
  function Normalize(path: string): (r: string)
    requires |path| > 0
    ensures |r| == |path| || |r| == |path| - 1
    ensures r == path[..|r|]
    ensures |r| == |path| - 1 <==> IsSeparator(path[|path| - 1])
  {
    if IsSeparator(path[|path| - 1]) then path[..|path| - 1] else path
  }

  /**
   * The list after extendSearchPath(path): the normalised directory is appended
   * when it is not already present; otherwise the list is unchanged.
   */
  function Extend(list: seq<string>, path: string): (r: seq<string>)
    requires |path| > 0
    ensures |list| <= |r| <= |list| + 1 && r[..|list|] == list
    ensures |r| == |list| <==> Normalize(path) in list
    ensures forall x :: x in r <==> x in list || x == Normalize(path)
    ensures NoDuplicates(list) ==> NoDuplicates(r)
  {
    var dir := Normalize(path);
    if dir in list then list else list + [dir]
  }

  /** A second identical call to extendSearchPath changes nothing. */
  lemma ExtendIdempotent(list: seq<string>, path: string)
    requires |path| > 0
    ensures Extend(Extend(list, path), path) == Extend(list, path)
  {
  }

  /** The list after extendSearchPath has been applied to each of `paths`, left to right. */
  function ExtendAll(list: seq<string>, paths: seq<string>): seq<string>
    requires AllNonEmpty(paths)
    decreases |paths|
  {
    if paths == [] then list else ExtendAll(Extend(list, paths[0]), paths[1..])
  }

  /** The normalised form of each entry, in order. */
  function NormalizeAll(paths: seq<string>): (r: seq<string>)
    requires AllNonEmpty(paths)
    ensures |r| == |paths|
    ensures forall i :: 0 <= i < |paths| ==> r[i] == Normalize(paths[i])
  {
    if paths == [] then [] else [Normalize(paths[0])] + NormalizeAll(paths[1..])
  }

  /**
   * Folding entries in keeps every existing entry in its place, keeps the list
   * free of duplicates, and adds exactly the normalised entries.
   */
  lemma {:induction false} ExtendAllProperties(list: seq<string>, paths: seq<string>)
    requires AllNonEmpty(paths)
    ensures |list| <= |ExtendAll(list, paths)| && ExtendAll(list, paths)[..|list|] == list
    ensures NoDuplicates(list) ==> NoDuplicates(ExtendAll(list, paths))
    ensures forall x :: x in ExtendAll(list, paths) <==> x in list || x in NormalizeAll(paths)
    decreases |paths|
  {
    if paths != [] {
      var next := Extend(list, paths[0]);
      ExtendAllProperties(next, paths[1..]);
      assert NormalizeAll(paths) == [Normalize(paths[0])] + NormalizeAll(paths[1..]);
      assert ExtendAll(list, paths)[..|list|] == ExtendAll(next, paths[1..])[..|next|][..|list|];
    }
  }

  /**
   * Folding in entries that are all already present is a no-op: reading the
   * same environment value again leaves the search path as it was.
   */
  lemma {:induction false} ExtendAllKnown(list: seq<string>, paths: seq<string>)
    requires AllNonEmpty(paths)
    requires forall i :: 0 <= i < |paths| ==> Normalize(paths[i]) in list
    ensures ExtendAll(list, paths) == list
    decreases |paths|
  {
    if paths != [] {
      assert Extend(list, paths[0]) == list;
      ExtendAllKnown(list, paths[1..]);
    }
  }

  /** Reading the same entries twice gives the list reading them once gives. */
  lemma ExtendAllTwice(list: seq<string>, paths: seq<string>)
    requires AllNonEmpty(paths)
    ensures ExtendAll(ExtendAll(list, paths), paths) == ExtendAll(list, paths)
  {
    ExtendAllProperties(list, paths);
    ExtendAllKnown(ExtendAll(list, paths), paths);
  }

  /** The index of the first `delim` in `s`, or |s| when there is none. */
  function FirstIndex(s: string, delim: char): (k: nat)
    ensures k <= |s|
    ensures k < |s| ==> s[k] == delim
    ensures delim !in s[..k]
  {
    if s == [] then 0
    else if s[0] == delim then 0
    else
      assert s[..1 + FirstIndex(s[1..], delim)] == [s[0]] + s[1..][..FirstIndex(s[1..], delim)];
      1 + FirstIndex(s[1..], delim)
  }

  /**
   * The strings successive calls of std::getline(stream, seg, delim) deliver
   * from a stream holding `s`: an empty stream gives none, a trailing
   * delimiter ends the last segment without starting an empty one, and two
   * adjacent delimiters give an empty segment.
   */
  function Segments(s: string, delim: char): (r: seq<string>)
    ensures forall i :: 0 <= i < |r| ==> delim !in r[i]
    ensures r == [] <==> s == []
    decreases |s|
  {
    if s == [] then []
    else
      var k := FirstIndex(s, delim);
      if k == |s| then [s] else [s[..k]] + Segments(s[k + 1..], delim)
  }

  /** The segments glued back together with the delimiter. */
  function Join(segs: seq<string>, delim: char): string
  {
    if segs == [] then []
    else if |segs| == 1 then segs[0]
    else segs[0] + [delim] + Join(segs[1..], delim)
  }

  /** Joining a segment in front of a non-empty list puts one delimiter between them. */
  lemma JoinCons(first: string, segs: seq<string>, delim: char)
    requires segs != []
    ensures Join([first] + segs, delim) == first + [delim] + Join(segs, delim)
  {
    assert ([first] + segs)[1..] == segs;
  }

  /**
   * Cutting into segments loses nothing but a trailing delimiter: joining the
   * segments gives back `s`, less its last character when that is the delimiter.
   */
  lemma {:induction false} SegmentsJoin(s: string, delim: char)
    ensures s != [] && s[|s| - 1] == delim ==> Join(Segments(s, delim), delim) + [delim] == s
    ensures (s == [] || s[|s| - 1] != delim) ==> Join(Segments(s, delim), delim) == s
    decreases |s|
  {
    if s != [] {
      var k := FirstIndex(s, delim);
      if k < |s| {
        var first, rest := s[..k], s[k + 1..];
        assert s == first + [delim] + rest;
        var segs := Segments(rest, delim);
        assert Segments(s, delim) == [first] + segs;
        if rest == [] {
          assert Join(Segments(s, delim), delim) == first;
        } else {
          SegmentsJoin(rest, delim);
          JoinCons(first, segs, delim);
          assert s[|s| - 1] == rest[|rest| - 1];
          if rest[|rest| - 1] == delim {
            assert Join(segs, delim) + [delim] == rest;
            assert Join(Segments(s, delim), delim) + [delim] == first + [delim] + (Join(segs, delim) + [delim]);
          } else {
            assert Join(segs, delim) == rest;
          }
        }
      }
    }
  }

  /** The environment value yields no empty entry (no leading delimiter, no two adjacent). */
  predicate NoEmptySegment(s: string, delim: char)
  {
    AllNonEmpty(Segments(s, delim))
  }

  /**
   * The list after readExtendedPathFromEnvironment: unchanged when the
   * variable is not set, otherwise every segment of its value folded in with
   * extendSearchPath, left to right.
   */
  function ReadEnvironment(list: seq<string>, env: map<string, string>, varName: string, delim: char): (r: seq<string>)
    requires varName in env ==> NoEmptySegment(env[varName], delim)
    ensures varName !in env ==> r == list
    ensures NoDuplicates(list) ==> NoDuplicates(r)
  {
    if varName !in env then list
    else
      ExtendAllProperties(list, Segments(env[varName], delim));
      ExtendAll(list, Segments(env[varName], delim))
  }

  /**
   * Reading the variable keeps the existing entries first and in order, and
   * adds exactly the normalised segments of its value.
   */
  lemma ReadEnvironmentEntries(list: seq<string>, env: map<string, string>, varName: string, delim: char)
    requires varName in env && NoEmptySegment(env[varName], delim)
    ensures |list| <= |ReadEnvironment(list, env, varName, delim)|
    ensures ReadEnvironment(list, env, varName, delim)[..|list|] == list
    ensures forall x :: x in ReadEnvironment(list, env, varName, delim) <==>
      x in list || x in NormalizeAll(Segments(env[varName], delim))
  {
    ExtendAllProperties(list, Segments(env[varName], delim));
  }

  /**
   * A stretch of `s` from `pos` up to a delimiter at `k` (or up to the end of
   * `s`, when `k` is |s|) is the first segment of s[pos..]; the segments of
   * what follows that delimiter are the rest.
   */
  lemma SegmentsSplit(s: string, pos: nat, k: nat, delim: char)
    requires pos < |s| && pos <= k <= |s|
    requires delim !in s[pos..k]
    requires k < |s| ==> s[k] == delim
    ensures Segments(s[pos..], delim) == [s[pos..k]] + Segments(s[if k < |s| then k + 1 else k..], delim)
  {
    var t := s[pos..];
    var f := FirstIndex(t, delim);
    assert t[..k - pos] == s[pos..k];
    assert f == k - pos;
    if k < |s| {
      assert t[k - pos + 1..] == s[k + 1..];
      assert Segments(t, delim) == [t[..f]] + Segments(t[f + 1..], delim);
    } else {
      assert t == s[pos..k];
      assert Segments(t, delim) == [t];
      assert s[k..] == [];
    }
  }

  /**
   * One call of std::getline(stream, segment, delim) on a stream holding `s`
   * whose read position is `pos`: it fails at the end of the stream; otherwise
   * it delivers the characters up to the next delimiter (or the end) and moves
   * past that delimiter.
   */
  method GetLine(s: string, pos: nat, delim: char) returns (ok: bool, segment: string, next: nat)
    requires pos <= |s|
    ensures ok <==> pos < |s|
    ensures !ok ==> next == pos && Segments(s[pos..], delim) == []
    ensures ok ==> pos < next <= |s| && Segments(s[pos..], delim) == [segment] + Segments(s[next..], delim)
  {
    if pos == |s| {
      return false, [], pos;
    }
    var k := pos;
    while k < |s| && s[k] != delim
      invariant pos <= k <= |s|
      invariant delim !in s[pos..k]
    {
      k := k + 1;
    }
    segment := s[pos..k];
    next := if k < |s| then k + 1 else k;
    ok := true;
    SegmentsSplit(s, pos, k, delim);
  }
}
