/**
 * Absolute file-system paths, as the loader uses them. A path is the list of
 * its components below the file-system root, so `[]` is the root itself.
 * Joining a relative path onto a directory appends its components; no `.`,
 * `..` or absolute-string normalisation is modelled.
 */
module AbsolutePaths {

  type Component = string

  datatype AbsPath = AbsPath(components: seq<Component>)

  /**
   * A component that names an entry: not empty, not `.` or `..`, and without
   * a `/`. Only paths made of such components are joined without any
   * normalisation in the source, so claims that depend on the join being
   * plain concatenation are stated for them.
   */
  predicate IsPlainComponent(c: Component) {
    c != "" && c != "." && c != ".." && '/' !in c
  }

  predicate IsPlainRelative(relative: seq<Component>) {
    forall i :: 0 <= i < |relative| ==> IsPlainComponent(relative[i])
  }

  /** `a` is `d` itself or a directory above it. */
  predicate IsAncestor(a: AbsPath, d: AbsPath) {
    a.components <= d.components
  }

  /** The ancestor of `p` that lies `depth` components below the root. */
  function Ancestor(p: AbsPath, depth: nat): (a: AbsPath)
    requires depth <= |p.components|
    ensures IsAncestor(a, p) && |a.components| == depth
  {
    AbsPath(p.components[..depth])
  }

  /** `AbsolutePath(relative, relativeTo: base)`: the relative components below `base`. */
  function Join(base: AbsPath, relative: seq<Component>): (r: AbsPath)
    ensures IsAncestor(base, r)
    ensures |r.components| == |base.components| + |relative|
    ensures r.components[|base.components|..] == relative
  {
    AbsPath(base.components + relative)
  }

  /** `removingLastComponent()`: the parent directory; the root is its own parent. */
  function RemovingLastComponent(p: AbsPath): (parent: AbsPath)
    ensures IsAncestor(parent, p)
    ensures p.components == [] ==> parent == p
    ensures p.components != [] ==> p == Join(parent, [p.components[|p.components| - 1]])
  {
    if p.components == [] then p else AbsPath(p.components[..|p.components| - 1])
  }

  /** Joining the same plain relative path onto two different directories gives two different paths. */
  lemma JoinIsInjectiveInBase(a: AbsPath, b: AbsPath, relative: seq<Component>)
    requires IsPlainRelative(relative)
    requires Join(a, relative) == Join(b, relative)
    ensures a == b
  {
  }
}
