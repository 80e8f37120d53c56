/**
 Go's `filepath.Base` on a Unix host, which the proxy uses to turn
 `os.Args[0]` into the container id and into the first process argument.
 */
module Paths {

  const Separator: char := '/'

  /** The path with every trailing separator removed. */
  function TrimTrailingSeparators(p: string): (r: string)
    ensures r <= p
    ensures |r| == 0 || r[|r| - 1] != Separator
    ensures forall i :: |r| <= i < |p| ==> p[i] == Separator
    ensures Separator !in p ==> r == p
    decreases |p|
  {
    if |p| > 0 && p[|p| - 1] == Separator then TrimTrailingSeparators(p[..|p| - 1]) else p
  }

  /** The longest suffix of the path that holds no separator. */
  function LastElement(p: string): (r: string)
    ensures Separator !in r
    ensures |r| <= |p| && r == p[|p| - |r|..]
    ensures |r| < |p| ==> p[|p| - |r| - 1] == Separator
    ensures Separator !in p ==> r == p
    decreases |p|
  {
    if |p| == 0 || p[|p| - 1] == Separator then []
    else LastElement(p[..|p| - 1]) + [p[|p| - 1]]
  }

  /** `filepath.Base`: the last element of the path, trailing separators
      ignored; "." for the empty path and "/" for a path of separators only. */
  function Base(path: string): (r: string)
    ensures |r| > 0
    ensures r == [Separator] || Separator !in r
    ensures path == [] ==> r == "."
    ensures |path| > 0 && Separator !in path ==> r == path
    ensures |path| > 0 && (forall i | 0 <= i < |path| :: path[i] == Separator) ==> r == [Separator]
    ensures |path| > 1 && path[|path| - 1] == Separator ==> r == Base(path[..|path| - 1])
    decreases |path|
  {
    if path == [] then "."
    else
      var last := LastElement(TrimTrailingSeparators(path));
      if last == [] then [Separator] else last
  }

  /** Base of a directory joined with a plain name is that name. */
  lemma {:induction false} BaseOfJoin(dir: string, name: string)
    requires |name| > 0 && Separator !in name
    ensures Base(dir + [Separator] + name) == name
  {
    var p := dir + [Separator] + name;
    assert p[|p| - 1] == name[|name| - 1];
    assert TrimTrailingSeparators(p) == p;
    LastElementOfJoin(dir + [Separator], name);
  }

  lemma {:induction false} LastElementOfJoin(dir: string, name: string)
    requires |dir| > 0 && dir[|dir| - 1] == Separator
    requires Separator !in name
    ensures LastElement(dir + name) == name
    decreases |name|
  {
    if |name| == 0 {
      assert dir + name == dir;
    } else {
      var p := dir + name;
      assert p[..|p| - 1] == dir + name[..|name| - 1];
      assert name == name[..|name| - 1] + [name[|name| - 1]];
      LastElementOfJoin(dir, name[..|name| - 1]);
    }
  }

  /** A trailing separator is ignored: "a/b/" has base "b". */
  lemma BaseIgnoresTrailingSeparator()
    ensures Base("a/b/") == "b"
  {
    var p := "a/b/";
    var joined := "a" + [Separator] + "b";
    assert p[..|p| - 1] == joined;
    BaseOfJoin("a", "b");
    assert Base(p) == Base(joined);
  }

  /** A path of separators only has base "/". */
  lemma BaseOfSeparatorsOnly()
    ensures Base("//") == "/"
  {
    assert forall i | 0 <= i < |"//"| :: "//"[i] == Separator;
  }

  /** Base is idempotent. */
  lemma BaseIdempotent(path: string)
    ensures Base(Base(path)) == Base(path)
  {
  }
}
