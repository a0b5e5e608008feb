/** POSIX `path.basename` without an extension argument: trailing slashes are
    dropped, then the last slash-free segment is the result. The properties
    of the three functions are lemmas, so that the functions can be used in
    other specifications without bringing their quantifiers along. */
module Paths {

  predicate NoSlash(s: string)
  {
    forall i :: 0 <= i < |s| ==> s[i] != '/'
  }

  /** `s` without its trailing slashes. */
  function TrimTrailingSlashes(s: string): string
  {
    if s != [] && s[|s| - 1] == '/' then TrimTrailingSlashes(s[..|s| - 1]) else s
  }

  /** The longest suffix of `s` that contains no slash. */
  function LastSegment(s: string): string
  {
    if s == [] || s[|s| - 1] == '/' then [] else LastSegment(s[..|s| - 1]) + [s[|s| - 1]]
  }

  /** The last component of a path. */
  function Basename(p: string): string
  {
    LastSegment(TrimTrailingSlashes(p))
  }

  /** Trimming keeps a prefix that does not end in a slash and drops only slashes. */
  lemma {:induction false} TrimTrailingSlashesShape(s: string)
    ensures var r := TrimTrailingSlashes(s);
      && |r| <= |s| && r == s[..|r|]
      && (r == [] || r[|r| - 1] != '/')
      && forall i :: |r| <= i < |s| ==> s[i] == '/'
  {
    if s != [] && s[|s| - 1] == '/' {
      TrimTrailingSlashesShape(s[..|s| - 1]);
    }
  }

  /** The last segment is a slash-free suffix that is either all of `s` or
      preceded by a slash. */
  lemma {:induction false} LastSegmentShape(s: string)
    ensures var r := LastSegment(s);
      && NoSlash(r)
      && |r| <= |s| && r == s[|s| - |r|..]
      && (|r| < |s| ==> s[|s| - |r| - 1] == '/')
  {
    if !(s == [] || s[|s| - 1] == '/') {
      LastSegmentShape(s[..|s| - 1]);
    }
  }

  /** The basename contains no slash; of a path without a trailing slash it
      is the segment after the last slash, or the whole path if it has none. */
  lemma BasenameShape(p: string)
    ensures NoSlash(Basename(p))
    ensures (p == [] || p[|p| - 1] != '/') ==>
      var r := Basename(p);
      |r| <= |p| && r == p[|p| - |r|..] && (|r| < |p| ==> p[|p| - |r| - 1] == '/')
  {
    TrimTrailingSlashesShape(p);
    LastSegmentShape(TrimTrailingSlashes(p));
  }

  /** The last segment of a path joined from a directory and a slash-free name is that name. */
  lemma {:induction false} LastSegmentOfJoin(dir: string, name: string)
    requires NoSlash(name)
    ensures LastSegment(dir + "/" + name) == name
  {
    var p := dir + "/" + name;
    if name != [] {
      var init := name[..|name| - 1];
      assert p[..|p| - 1] == dir + "/" + init;
      LastSegmentOfJoin(dir, init);
      assert name == init + [name[|name| - 1]];
    }
  }

  /** The basename of a path joined from a directory and a non-empty slash-free name is that name. */
  lemma BasenameOfJoin(dir: string, name: string)
    requires NoSlash(name) && name != []
    ensures Basename(dir + "/" + name) == name
  {
    LastSegmentOfJoin(dir, name);
  }
}
