/**
 * The root directory locator, specified as a walk up the directory tree: the
 * root directory is the closest directory, starting from a given one and
 * going up, that contains a `Tuist` or a `.git` directory. The file system is
 * the read-only predicate `directoryExists`, which holds of a path that
 * exists as a directory (a file of the same name does not count).
 */
module RootDirectoryLocator {
  import opened Wrappers
  import opened AbsolutePaths

  const TuistDirectoryName: Component := "Tuist"
  const GitDirectoryName: Component := ".git"

  /** `dir` holds one of the two root markers. */
  predicate IsRootDirectory(directoryExists: AbsPath -> bool, dir: AbsPath) {
    directoryExists(Join(dir, [TuistDirectoryName])) || directoryExists(Join(dir, [GitDirectoryName]))
  }

  /**
   * `locate(from:)`: the closest ancestor of `from` (`from` included) that is
   * a root directory, or nothing when no ancestor up to the file-system root is.
   */
  function Locate(directoryExists: AbsPath -> bool, from: AbsPath): (root: Option<AbsPath>)
    decreases |from.components|
    ensures root.Some? ==> IsAncestor(root.value, from) && IsRootDirectory(directoryExists, root.value)
    ensures root.Some? ==>
      forall depth :: |root.value.components| < depth <= |from.components| ==>
        !IsRootDirectory(directoryExists, Ancestor(from, depth))
    ensures root.None? ==>
      forall depth :: 0 <= depth <= |from.components| ==> !IsRootDirectory(directoryExists, Ancestor(from, depth))
  {
    if IsRootDirectory(directoryExists, from) then Some(from)
    else if from.components == [] then None
    else
      AncestorsOfParent(from);
      Locate(directoryExists, RemovingLastComponent(from))
  }

  /** The ancestors of a directory are the directory itself and the ancestors of its parent. */
  lemma AncestorsOfParent(from: AbsPath)
    requires from.components != []
    ensures Ancestor(from, |from.components|) == from
    ensures var parent := RemovingLastComponent(from);
      |parent.components| == |from.components| - 1 &&
      forall depth :: 0 <= depth <= |parent.components| ==> Ancestor(parent, depth) == Ancestor(from, depth)
  {
  }

  /**
   * The located root does not depend on how far below it the search starts:
   * from any directory under a root directory with no root directory in
   * between, the search finds that root.
   */
  lemma {:induction false} LocateFromAnyDepthBelowRoot(directoryExists: AbsPath -> bool, root: AbsPath, from: AbsPath)
    requires IsAncestor(root, from) && IsRootDirectory(directoryExists, root)
    requires forall depth :: |root.components| < depth <= |from.components| ==>
      !IsRootDirectory(directoryExists, Ancestor(from, depth))
    ensures Locate(directoryExists, from) == Some(root)
  {
    var d := |root.components|;
    assert Ancestor(from, d) == root;
    var found := Locate(directoryExists, from);
    assert found.Some?;
    var k := |found.value.components|;
    assert found.value == Ancestor(from, k);
    assert IsRootDirectory(directoryExists, Ancestor(from, k));
  }

  /** Locating again from the located root finds that same root. */
  lemma LocateIsIdempotent(directoryExists: AbsPath -> bool, from: AbsPath)
    requires Locate(directoryExists, from).Some?
    ensures Locate(directoryExists, Locate(directoryExists, from).value) == Locate(directoryExists, from)
  {
  }
}
