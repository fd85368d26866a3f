// Exclusion policies of one subscription: what they hide, how prefixes are
// minimised, and which subtrees a replacement policy brings back.

module Exclusions {
  import opened Paths

  datatype Policy = Policy(prefixes: set<Path>, names: set<Name>, observed: set<Path>)

  predicate Under(paths: set<Path>, path: Path)
  {
    exists p | p in paths :: p <= path
  }

  /** A component of `path` bears an excluded directory name; the last one only counts for a directory. */
  predicate MatchesDirectoryName(path: Path, targetIsDirectory: bool, names: set<Name>)
  {
    exists i | 0 <= i < |path| :: path[i] in names && (i < |path| - 1 || targetIsDirectory)
  }

  predicate TopologyExcludes(policy: Policy, path: Path)
  {
    || Under(policy.prefixes, path)
    || Under(policy.observed, path)
    || MatchesDirectoryName(path, true, policy.names)
  }

  predicate EventExcludes(policy: Policy, path: Path, targetIsDirectory: bool)
  {
    || Under(policy.prefixes, path)
    || Under(policy.observed, path)
    || MatchesDirectoryName(path, targetIsDirectory, policy.names)
  }

  /** What validation guarantees of an accepted policy. */
  ghost predicate Validated(policy: Policy)
  {
    && Antichain(policy.prefixes)
    && (forall o :: o in policy.observed ==> o != [] && Observable(policy, o))
  }

  predicate Observable(policy: Policy, o: Path)
    requires o != []
  {
    var parent := o[..|o| - 1];
    && !Under(policy.prefixes, parent)
    && !Under(policy.observed - {o}, parent)
    && !MatchesDirectoryName(parent, true, policy.names)
  }

  ghost predicate Antichain(paths: set<Path>)
  {
    forall p, q :: p in paths && q in paths && p <= q ==> p == q
  }

  /** The members with no other member above them. */
  function Minimal(paths: set<Path>): set<Path>
  {
    set p | p in paths && !exists a | a in paths :: a != p && a <= p
  }

  function PolicyReinclusionRoots(previous: Policy, replacement: Policy): set<Path>
  {
    var candidates :=
      if previous.names - replacement.names != {} then {[]}
      else (previous.prefixes - replacement.prefixes) + (previous.observed - replacement.observed);
    Minimal(set c | c in candidates && !TopologyExcludes(replacement, c))
  }

  // ----- closure -----------------------------------------------------------

  lemma ExclusionClosed(policy: Policy, a: Path, p: Path)
    requires a <= p
    ensures TopologyExcludes(policy, a) ==> TopologyExcludes(policy, p)
    ensures EventExcludes(policy, a, true) ==> EventExcludes(policy, p, true)
  {
    if Under(policy.prefixes, a) {
      var q :| q in policy.prefixes && q <= a;
      PrefixTransitive(q, a, p);
    }
    if Under(policy.observed, a) {
      var q :| q in policy.observed && q <= a;
      PrefixTransitive(q, a, p);
    }
    if MatchesDirectoryName(a, true, policy.names) {
      var i :| 0 <= i < |a| && a[i] in policy.names;
      assert p[i] == a[i];
    }
  }

  /** Every proper ancestor of an observed path stays visible, so its boundary can be reported. */
  lemma ObservedAncestorsVisible(policy: Policy, o: Path, a: Path)
    requires Validated(policy) && o in policy.observed
    requires a < o
    ensures !TopologyExcludes(policy, a)
  {
    var parent := Parent(o);
    assert Observable(policy, o);
    assert a == o[..|a|] == parent[..|a|];
    ExclusionClosed(policy, a, parent);
    assert forall q | q in policy.observed && q != o :: q in policy.observed - {o};
    assert !(o <= parent);
  }

  // ----- minimisation ------------------------------------------------------

  lemma MinimalIsAntichain(paths: set<Path>)
    ensures Antichain(Minimal(paths))
  {
  }

  lemma {:induction false} MinimalAncestor(paths: set<Path>, p: Path) returns (m: Path)
    requires p in paths
    ensures m in Minimal(paths) && m <= p
    decreases |p|
  {
    if p in Minimal(paths) {
      m := p;
    } else {
      var a :| a in paths && a != p && a <= p;
      m := MinimalAncestor(paths, a);
      PrefixTransitive(m, a, p);
    }
  }

  /** Dropping the prefixes that lie below others hides exactly the same paths. */
  lemma MinimisationKeepsCover(paths: set<Path>, path: Path)
    ensures Under(Minimal(paths), path) <==> Under(paths, path)
  {
    if Under(paths, path) {
      var p :| p in paths && p <= path;
      var m := MinimalAncestor(paths, p);
      PrefixTransitive(m, p, path);
    }
  }

  // ----- reinclusion -------------------------------------------------------

  /** The candidates before minimisation. */
  ghost function Candidates(previous: Policy, replacement: Policy): set<Path>
  {
    set c | c in (if previous.names - replacement.names != {} then {[]}
                  else (previous.prefixes - replacement.prefixes) + (previous.observed - replacement.observed))
            && !TopologyExcludes(replacement, c)
  }

  /** Every path the replacement brings back has a rescanned root above it. */
  lemma ReinclusionComplete(previous: Policy, replacement: Policy, path: Path) returns (root: Path)
    requires TopologyExcludes(previous, path) && !TopologyExcludes(replacement, path)
    ensures root in PolicyReinclusionRoots(previous, replacement) && root <= path
  {
    var cs := Candidates(previous, replacement);
    var c: Path;
    if previous.names - replacement.names != {} {
      c := [];
    } else if Under(previous.prefixes, path) {
      c :| c in previous.prefixes && c <= path;
      if c in replacement.prefixes { assert Under(replacement.prefixes, path); }
    } else if Under(previous.observed, path) {
      c :| c in previous.observed && c <= path;
      if c in replacement.observed { assert Under(replacement.observed, path); }
    } else {
      assert forall n | n in previous.names :: n !in previous.names - replacement.names ==> n in replacement.names;
      assert false;
    }
    ExclusionClosed(replacement, c, path);
    assert c in cs;
    root := MinimalAncestor(cs, c);
    PrefixTransitive(root, c, path);
  }

  /** Sound, complete and minimal: one returned root above each returning path, and no root hidden or nested. */
  lemma ReinclusionRoots(previous: Policy, replacement: Policy)
    ensures forall path :: TopologyExcludes(previous, path) && !TopologyExcludes(replacement, path) ==>
              exists r :: r in PolicyReinclusionRoots(previous, replacement) && r <= path &&
                (forall q :: q in PolicyReinclusionRoots(previous, replacement) && q <= path ==> q == r)
    ensures forall r :: r in PolicyReinclusionRoots(previous, replacement) ==> !TopologyExcludes(replacement, r)
    ensures Antichain(PolicyReinclusionRoots(previous, replacement))
    ensures forall r :: r in PolicyReinclusionRoots(previous, replacement) ==>
              TopologyExcludes(previous, r) || (r == [] && DropsName(previous, replacement))
  {
    forall r | r in PolicyReinclusionRoots(previous, replacement)
      ensures TopologyExcludes(previous, r) || (r == [] && DropsName(previous, replacement))
    {
      RootsAreTopmost(previous, replacement, r);
    }
    var roots := PolicyReinclusionRoots(previous, replacement);
    MinimalIsAntichain(Candidates(previous, replacement));
    forall path | TopologyExcludes(previous, path) && !TopologyExcludes(replacement, path)
      ensures exists r :: r in roots && r <= path && (forall q :: q in roots && q <= path ==> q == r)
    {
      var r := ReinclusionComplete(previous, replacement, path);
      forall q | q in roots && q <= path
        ensures q == r
      {
        if |q| <= |r| { PrefixesComparable(q, r, path); } else { PrefixesComparable(r, q, path); }
      }
    }
  }

  predicate DropsName(previous: Policy, replacement: Policy)
  {
    exists n :: n in previous.names && n !in replacement.names
  }

  /** The first hidden ancestor of a returning path is itself a returned root, unless an excluded name was dropped. */
  lemma FirstHiddenAncestorIsRoot(previous: Policy, replacement: Policy, path: Path, first: Path)
    requires TopologyExcludes(previous, path) && !TopologyExcludes(replacement, path)
    requires first <= path && TopologyExcludes(previous, first)
    requires first == [] || !TopologyExcludes(previous, Parent(first))
    ensures DropsName(previous, replacement) || first in PolicyReinclusionRoots(previous, replacement)
  {
    ExclusionClosed(replacement, first, path);
    var r := ReinclusionComplete(previous, replacement, first);
    if !DropsName(previous, replacement) {
      assert previous.names - replacement.names == {};
      assert r in previous.prefixes || r in previous.observed;
      assert r in Candidates(previous, replacement);
      assert r in previous.prefixes || r in previous.observed;
      assert TopologyExcludes(previous, r) by { assert r <= r; }
      HiddenNothingAbove(previous, first);
      ProperPrefix(r, first);
      assert r == first;
    }
  }

  ghost predicate BringsBack(previous: Policy, replacement: Policy, path: Path)
  {
    TopologyExcludes(previous, path) && !TopologyExcludes(replacement, path)
  }

  /**
   * The roots are exactly the topmost returning paths. Only when an excluded name was dropped is the whole tree rescanned,
   * and then it alone.
   */
  lemma RootsAreTopmost(previous: Policy, replacement: Policy, r: Path)
    ensures var roots := PolicyReinclusionRoots(previous, replacement);
      if DropsName(previous, replacement) then roots == if TopologyExcludes(replacement, []) then {} else {[]}
      else r in roots <==>
             BringsBack(previous, replacement, r) && (r == [] || !TopologyExcludes(previous, Parent(r)))
  {
    var roots := PolicyReinclusionRoots(previous, replacement);
    if DropsName(previous, replacement) {
      var n :| n in previous.names && n !in replacement.names;
      assert n in previous.names - replacement.names;
      assert forall c :: c in roots ==> c == [];
    } else if r in roots {
      assert previous.names - replacement.names == {};
      DroppedReturns(previous, replacement, r);
      if r != [] && TopologyExcludes(previous, Parent(r)) { NoRootAbove(previous, replacement, r); }
    } else if BringsBack(previous, replacement, r) && (r == [] || !TopologyExcludes(previous, Parent(r))) {
      FirstHiddenAncestorIsRoot(previous, replacement, r, r);
    }
  }

  lemma DroppedReturns(previous: Policy, replacement: Policy, r: Path)
    requires previous.names - replacement.names == {} && r in PolicyReinclusionRoots(previous, replacement)
    ensures BringsBack(previous, replacement, r)
  {
    assert r in previous.prefixes || r in previous.observed;
    assert r <= r;
  }

  lemma NoRootAbove(previous: Policy, replacement: Policy, r: Path)
    requires r != [] && TopologyExcludes(previous, Parent(r)) && !TopologyExcludes(replacement, r)
    ensures r !in PolicyReinclusionRoots(previous, replacement)
  {
    ExclusionClosed(replacement, Parent(r), r);
    var q := ReinclusionComplete(previous, replacement, Parent(r));
    PrefixTransitive(q, Parent(r), r);
    MinimalIsAntichain(Candidates(previous, replacement));
  }

  // ----- events and the walk -----------------------------------------------

  /** A path is hidden from the walk exactly when something at or above it is: a listed path, or an excluded name. */
  lemma HiddenFromAbove(policy: Policy, path: Path)
    ensures TopologyExcludes(policy, path) <==>
      path in policy.prefixes || path in policy.observed
      || (path != [] && (path[|path| - 1] in policy.names || TopologyExcludes(policy, Parent(path))))
  {
    if path != [] {
      var above := Parent(path);
      ExclusionClosed(policy, above, path);
      UnderParent(policy.prefixes, path);
      UnderParent(policy.observed, path);
      assert path[|path| - 1] in policy.names ==> MatchesDirectoryName(path, true, policy.names);
      if MatchesDirectoryName(path, true, policy.names) {
        var i :| 0 <= i < |path| && path[i] in policy.names;
        if i < |path| - 1 { assert above[i] == path[i]; }
      }
    } else {
      UnderRoot(policy.prefixes);
      UnderRoot(policy.observed);
    }
  }

  lemma UnderRoot(paths: set<Path>)
    ensures Under(paths, []) <==> [] in paths
  {
    var root: Path := [];
    assert root <= root;
  }

  lemma UnderParent(paths: set<Path>, path: Path)
    requires path != []
    ensures Under(paths, path) <==> path in paths || Under(paths, Parent(path))
  {
    if Under(paths, path) {
      var q :| q in paths && q <= path;
      ProperPrefix(q, path);
    }
    if Under(paths, Parent(path)) {
      var q :| q in paths && q <= Parent(path);
      PrefixTransitive(q, Parent(path), path);
    }
    assert path <= path;
  }

  /** Events about directories are hidden as the walk is; an excluded name does not hide another kind of file that bears it. */
  lemma EventsAsTheWalk(policy: Policy, path: Path)
    ensures EventExcludes(policy, path, true) <==> TopologyExcludes(policy, path)
    ensures EventExcludes(policy, path, false) <==>
      path in policy.prefixes || path in policy.observed || (path != [] && TopologyExcludes(policy, Parent(path)))
  {
    if path != [] {
      var above := Parent(path);
      UnderParent(policy.prefixes, path);
      UnderParent(policy.observed, path);
      if MatchesDirectoryName(above, true, policy.names) {
        var i :| 0 <= i < |above| && above[i] in policy.names;
        assert path[i] == above[i];
      }
      if MatchesDirectoryName(path, false, policy.names) {
        var i :| 0 <= i < |path| && path[i] in policy.names && i < |path| - 1;
        assert above[i] == path[i];
      }
    } else {
      UnderRoot(policy.prefixes);
      UnderRoot(policy.observed);
    }
  }

  lemma HiddenNothingAbove(policy: Policy, first: Path)
    requires first == [] || !TopologyExcludes(policy, Parent(first))
    ensures forall a :: first != [] && a <= Parent(first) ==> !TopologyExcludes(policy, a)
  {
    if first != [] {
      forall a | a <= Parent(first) ensures !TopologyExcludes(policy, a) {
        ExclusionClosed(policy, a, Parent(first));
      }
    }
  }
}
