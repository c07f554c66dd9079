/**
 * The process working directory as the scripts see it: an absolute path,
 * held as its list of components from the root, and `os.chdir` with a
 * relative argument resolving `.` and `..` against it.
 */
module Paths {

  /** An absolute directory, as its components below the root. */
  type Path = seq<string>

  /** An ordinary directory name: neither empty, `.` nor `..`, and without a separator. */
  predicate IsName(c: string) {
    c != "" && c != "." && c != ".." && '/' !in c
  }

  /** One component of a relative path applied to a directory. */
  function Enter(dir: Path, c: string): (r: Path)
  {
    if c == "" || c == "." then dir
    else if c == ".." then (if dir == [] then [] else dir[..|dir| - 1])
    else dir + [c]
  }

  /** The directory `rel` (given as its components) names when taken relative to `dir`. */
  function Resolve(dir: Path, rel: seq<string>): Path
    decreases |rel|
  {
    if rel == [] then dir else Resolve(Enter(dir, rel[0]), rel[1..])
  }

  /** `../..` and its kin: `n` steps up. */
  function Up(n: nat): (r: seq<string>)
    ensures |r| == n && forall i :: 0 <= i < n ==> r[i] == ".."
  {
    if n == 0 then [] else [".."] + Up(n - 1)
  }

  /** Descending by ordinary names appends them. */
  lemma {:induction false} ResolveNames(dir: Path, rel: seq<string>)
    requires forall i :: 0 <= i < |rel| ==> IsName(rel[i])
    ensures Resolve(dir, rel) == dir + rel
    decreases |rel|
  {
    if rel != [] {
      ResolveNames(dir + [rel[0]], rel[1..]);
      assert dir + [rel[0]] + rel[1..] == dir + rel;
    }
  }

  /** `n` steps up from a directory `n` levels below `dir` lead back to `dir`. */
  lemma {:induction false} ResolveUp(dir: Path, below: seq<string>)
    ensures Resolve(dir + below, Up(|below|)) == dir
    decreases |below|
  {
    if below != [] {
      var shorter := below[..|below| - 1];
      assert (dir + below)[..|dir + below| - 1] == dir + shorter;
      assert Up(|below|)[1..] == Up(|shorter|);
      ResolveUp(dir, shorter);
    }
  }

  /**
   * Changing into a relative directory of ordinary names and then as many
   * levels up returns to where one started, wherever that is.
   */
  lemma DescendThenAscend(dir: Path, rel: seq<string>)
    requires forall i :: 0 <= i < |rel| ==> IsName(rel[i])
    ensures Resolve(Resolve(dir, rel), Up(|rel|)) == dir
  {
    ResolveNames(dir, rel);
    ResolveUp(dir, rel);
  }

  /** The directory as `os.getcwd()` spells it. */
  function PathString(dir: Path): (s: string)
    ensures |s| > 0 && s[0] == '/'
  {
    if dir == [] then "/" else Components(dir)
  }

  /** "/a/b/c" for ["a", "b", "c"]. */
  function Components(dir: Path): (s: string)
    ensures dir != [] ==> |s| > |dir[|dir| - 1]| && s[0] == '/'
    decreases |dir|
  {
    if dir == [] then "" else Components(dir[..|dir| - 1]) + "/" + dir[|dir| - 1]
  }

  /** Every component is an ordinary name. */
  predicate IsNamePath(dir: Path) {
    forall i :: 0 <= i < |dir| ==> IsName(dir[i])
  }

  /** A string has at most one split at its last separator. */
  lemma SplitAtLastSlash(p1: string, x1: string, p2: string, x2: string)
    requires '/' !in x1 && '/' !in x2
    requires p1 + "/" + x1 == p2 + "/" + x2
    ensures p1 == p2 && x1 == x2
  {
    var s := p1 + "/" + x1;
    if |x1| < |x2| {
      CharAfterSlash(p2, x2, |x2| - |x1| - 1);
      assert false;
    } else if |x2| < |x1| {
      CharAfterSlash(p1, x1, |x1| - |x2| - 1);
      assert false;
    }
    assert p1 == s[..|p1|] == p2;
    assert x1 == s[|p1| + 1..] == x2;
  }

  lemma CharAfterSlash(p: string, x: string, i: int)
    requires 0 <= i < |x|
    ensures (p + "/" + x)[|p| + 1 + i] == x[i] && (p + "/" + x)[|p|] == '/'
  {
  }

  /** Two directories of ordinary names with the same spelling are the same directory. */
  lemma {:induction false} ComponentsInjective(a: Path, b: Path)
    requires IsNamePath(a) && IsNamePath(b)
    requires Components(a) == Components(b)
    ensures a == b
    decreases |a|
  {
    if a != [] && b != [] {
      var a', b' := a[..|a| - 1], b[..|b| - 1];
      assert IsName(a[|a| - 1]) && IsName(b[|b| - 1]);
      SplitAtLastSlash(Components(a'), a[|a| - 1], Components(b'), b[|b| - 1]);
      assert IsNamePath(a') by {
        forall i | 0 <= i < |a'| ensures IsName(a'[i]) { assert a'[i] == a[i]; }
      }
      assert IsNamePath(b') by {
        forall i | 0 <= i < |b'| ensures IsName(b'[i]) { assert b'[i] == b[i]; }
      }
      ComponentsInjective(a', b');
      assert a == a' + [a[|a| - 1]] && b == b' + [b[|b| - 1]];
    }
  }

  /** `os.getcwd()` names the directory: distinct directories of ordinary names are spelled apart. */
  lemma PathStringInjective(a: Path, b: Path)
    requires IsNamePath(a) && IsNamePath(b)
    requires PathString(a) == PathString(b)
    ensures a == b
  {
    if a != [] && b != [] {
      ComponentsInjective(a, b);
    }
  }

  /**
   * `os.path.join(a, b)` on POSIX: an absolute `b` replaces `a`; otherwise
   * `a` is kept and `b` follows it, with one `/` between them unless `a`
   * is empty or already ends with one.
   */
  function Join(a: string, b: string): (s: string)
    ensures |b| > 0 && b[0] == '/' ==> s == b
    ensures !(|b| > 0 && b[0] == '/') ==> s == a + b || s == a + "/" + b
    ensures !(|b| > 0 && b[0] == '/') ==> |s| >= |a| && s[..|a|] == a && s[|s| - |b|..] == b
    ensures !(|b| > 0 && b[0] == '/') && a != "" && a[|a| - 1] != '/' ==> s == a + "/" + b
    ensures !(|b| > 0 && b[0] == '/') && (a == "" || a[|a| - 1] == '/') ==> s == a + b
  {
    if |b| > 0 && b[0] == '/' then b
    else if a == "" || a[|a| - 1] == '/' then a + b
    else a + "/" + b
  }
}
