// Paths below a watched root, written as the sequence of their components.

module Paths {
  type Name = string

  /** A path relative to the watched root: the root itself is the empty path. */
  type Path = seq<Name>

  ghost function Parent(p: Path): Path
    requires p != []
  {
    p[..|p| - 1]
  }

  lemma PrefixTransitive(a: Path, b: Path, c: Path)
    requires a <= b && b <= c
    ensures a <= c
  {
    assert a == b[..|a|] == c[..|a|];
  }

  /** Two prefixes of one path are comparable. */
  lemma PrefixesComparable(a: Path, b: Path, p: Path)
    requires a <= p && b <= p && |a| <= |b|
    ensures a <= b
  {
    assert a == p[..|a|] && b == p[..|b|];
  }

  lemma PrefixOfExtension(a: Path, p: Path, n: Name)
    requires a <= p + [n]
    ensures a <= p || a == p + [n]
  {
    if |a| <= |p| {
      assert a == (p + [n])[..|a|] == p[..|a|];
    }
  }

  lemma ProperPrefix(a: Path, p: Path)
    requires a <= p
    ensures a == p || (p != [] && a <= Parent(p))
  {
    if |a| == |p| {
      assert a == p[..|a|] == p;
    } else {
      assert a == p[..|a|] == Parent(p)[..|a|];
    }
  }
}
