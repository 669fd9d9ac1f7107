/** Paths as strings: joining and the directories named by a path's prefixes. */
module Paths {

  /** `PathBuf::join` for a relative right-hand side: the two parts separated by one `/`. */
  function Join(base: string, rel: string): (p: string)
    ensures |p| == |base| + 1 + |rel|
    ensures p[..|base|] == base && p[|base|] == '/' && p[|base| + 1..] == rel
  {
    base + "/" + rel
  }

  /**
   * The directories that `create_dir_all(p)` makes sure exist: every non-empty
   * prefix of `p` that ends just before a `/`, and `p` itself.
   */
  function DirChain(p: string): (s: set<string>)
    ensures forall q :: q in s ==> q != "" && q <= p
    ensures p != "" ==> p in s
  {
    var s := set i | 0 < i <= |p| && (i == |p| || p[i] == '/') :: p[..i];
    assert p[..|p|] == p;
    s
  }

  /**
   * The directory a path lives in: everything before its last `/`, or `""`
   * when the path has no `/` after its first character (the root or the
   * current directory, which always exist).
   */
  function Parent(p: string): (q: string)
    ensures q <= p
    ensures q == "" || (|q| < |p| && p[|q|] == '/')
    ensures forall i :: |q| < i < |p| ==> p[i] != '/'
    decreases |p|
  {
    if |p| <= 1 then ""
    else if p[|p| - 1] == '/' then p[..|p| - 1]
    else Parent(p[..|p| - 1])
  }

  /** The parent of `<base>/<leaf>`, for a leaf without `/`, is `base`. */
  lemma {:induction false} ParentOfJoin(base: string, leaf: string)
    requires forall i :: 0 <= i < |leaf| ==> leaf[i] != '/'
    ensures Parent(Join(base, leaf)) == base
    decreases |leaf|
  {
    var p := Join(base, leaf);
    if leaf == "" {
      assert p[..|p| - 1] == base;
    } else {
      var shorter := leaf[..|leaf| - 1];
      assert p[|p| - 1] == leaf[|leaf| - 1];
      assert p[..|p| - 1] == Join(base, shorter);
      ParentOfJoin(base, shorter);
    }
  }

  /**
   * Creating the directories of `<base>/<rel>/<leaf>` creates `<base>/<rel>`:
   * for the project configuration directory this is the project directory.
   */
  lemma {:induction false} JoinedPrefixInChain(base: string, rel: string, leaf: string)
    ensures Join(base, rel) in DirChain(Join(Join(base, rel), leaf))
    ensures Join(Join(base, rel), leaf) in DirChain(Join(Join(base, rel), leaf))
  {
    var dir := Join(base, rel);
    var p := Join(dir, leaf);
    var i := |dir|;
    assert 0 < i <= |p| && p[i] == '/';
    assert p[..i] == dir;
  }
}
