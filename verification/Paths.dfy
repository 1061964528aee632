/** Topic names and filters as sequences of levels, separated by '/'. */
module Paths {
  import opened Basics

  type Path = seq<Str>

  const SLASH: Byte := 0x2F
  const PLUS: Str := [0x2B]
  const HASH: Str := [0x23]

  /** What `split('/')` yields: at least one level, none holding a '/'. */
  function Split(s: Str): (t: Path)
    ensures |t| >= 1
    ensures forall i :: 0 <= i < |t| ==> SLASH !in t[i]
  {
    if s == [] then [[]]
    else
      var rest := Split(s[1..]);
      if s[0] == SLASH then [[]] + rest else [[s[0]] + rest[0]] + rest[1..]
  }

  function Join(t: Path): Str
    requires |t| >= 1
  {
    if |t| == 1 then t[0] else t[0] + [SLASH] + Join(t[1..])
  }

  lemma {:induction false} JoinSplit(s: Str)
    ensures Join(Split(s)) == s
  {
    if s != [] {
      var rest := Split(s[1..]);
      JoinSplit(s[1..]);
      if s[0] == SLASH {
        assert ([[]] + rest)[1..] == rest;
        assert s == [] + [SLASH] + s[1..];
      } else {
        var t := [[s[0]] + rest[0]] + rest[1..];
        assert t[1..] == rest[1..];
        assert s == [s[0]] + s[1..];
        if |rest| > 1 {
          assert Join(t) == [s[0]] + (rest[0] + [SLASH] + Join(rest[1..]));
        }
      }
    }
  }

  lemma SplitInjective(s: Str, s': Str)
    requires Split(s) == Split(s')
    ensures s == s'
  {
    JoinSplit(s);
    JoinSplit(s');
  }

  function Parent(p: Path): Path
    requires p != []
  {
    p[..|p| - 1]
  }

  function Leaf(p: Path): Str
    requires p != []
  {
    p[|p| - 1]
  }

  lemma ParentLeaf(p: Path)
    requires p != []
    ensures Parent(p) + [Leaf(p)] == p
  {}

  lemma PathStep(t: Path, i: nat)
    requires i < |t|
    ensures t[..i] + [t[i]] == t[..i + 1]
    ensures i + 1 == |t| ==> t[..i + 1] == t
  {}

  /** No level of a published topic is a wildcard. */
  predicate Plain(t: Path) {
    PLUS !in t && HASH !in t
  }

  ghost predicate PrefixClosed(f: set<Path>) {
    [] in f && forall p {:trigger Parent(p)} :: p in f && p != [] ==> Parent(p) in f
  }

  lemma {:induction false} PrefixesIn(f: set<Path>, p: Path, k: nat)
    requires PrefixClosed(f) && p in f && k <= |p|
    ensures p[..k] in f
    decreases |p|
  {
    if k == |p| {
      assert p[..k] == p;
    } else {
      PrefixesIn(f, Parent(p), k);
      assert Parent(p)[..k] == p[..k];
    }
  }
}
