/**
 * The loader's path resolver: it turns a manifest path, relative to the
 * current file, to the manifest or to the root directory, into an absolute
 * path. The root directory locator is injected as the function `locate`.
 */
module TuistLoader {
  import opened Wrappers
  import opened AbsolutePaths
  import PD = ProjectDescription
  import RootDirectoryLocator

  /** How a fatal error is reported to the user. */
  datatype ErrorType = Abort | Bug | AbortSilent | BugSilent

  datatype GeneratorPathsError = RootDirectoryNotFound(path: AbsPath) {
    /** Every generator-paths error aborts. */
    function Type(): (t: ErrorType)
      ensures t.Abort?
    {
      match this
      case RootDirectoryNotFound(_) => Abort
    }
  }

  /** The paths a manifest path can be relative to; the constructor is `init(manifestDirectory:)`. */
  datatype GeneratorPaths = GeneratorPaths(manifestDirectory: AbsPath) {

    /**
     * `resolve(path:)`. A current-file-relative path without a caller path
     * traps in the source (a force unwrap), so callers must supply one.
     */
    function Resolve(path: PD.Path, locate: AbsPath -> Option<AbsPath>): (r: Result<AbsPath, GeneratorPathsError>)
      requires path.kind.RelativeToCurrentFile? ==> path.callerPath.Some?
      ensures r.Failure? <==> path.kind.RelativeToRoot? && locate(manifestDirectory).None?
      ensures r.Failure? ==> r.error == RootDirectoryNotFound(manifestDirectory)
      ensures r.Success? && IsPlainRelative(path.pathString) ==>
        |path.pathString| <= |r.value.components| &&
        r.value.components[|r.value.components| - |path.pathString|..] == path.pathString
    {
      match path.kind
      case RelativeToCurrentFile =>
        Success(Join(RemovingLastComponent(path.callerPath.value), path.pathString))
      case RelativeToManifest =>
        Success(Join(manifestDirectory, path.pathString))
      case RelativeToRoot =>
        match locate(manifestDirectory)
        case None => Failure(RootDirectoryNotFound(manifestDirectory))
        case Some(rootPath) => Success(Join(rootPath, path.pathString))
    }
  }

  /** A manifest-relative path resolves to the manifest directory joined with the path. */
  lemma ResolveRelativeToManifest(g: GeneratorPaths, path: PD.Path, locate: AbsPath -> Option<AbsPath>)
    requires path.kind.RelativeToManifest?
    ensures g.Resolve(path, locate) == Success(Join(g.manifestDirectory, path.pathString))
  {
  }

  /**
   * A current-file-relative path resolves against the directory of the caller
   * file, whatever the manifest directory and the locator; for a plain
   * relative path, whenever that directory is not the manifest directory,
   * the result differs from the manifest-relative resolution of the same path.
   */
  lemma ResolveRelativeToCurrentFile(
    g: GeneratorPaths, other: GeneratorPaths, path: PD.Path,
    locate: AbsPath -> Option<AbsPath>, otherLocate: AbsPath -> Option<AbsPath>)
    requires path.kind.RelativeToCurrentFile? && path.callerPath.Some?
    ensures var callerDirectory := RemovingLastComponent(path.callerPath.value);
      && g.Resolve(path, locate) == Success(Join(callerDirectory, path.pathString))
      && g.Resolve(path, locate) == other.Resolve(path, otherLocate)
      && (IsPlainRelative(path.pathString) && callerDirectory != g.manifestDirectory ==>
            g.Resolve(path, locate) != g.Resolve(path.(kind := PD.RelativeToManifest), locate))
  {
  }

  /**
   * A root-relative path resolves to the located root joined with the path,
   * and fails with the manifest directory when no root is located.
   */
  lemma ResolveRelativeToRoot(g: GeneratorPaths, path: PD.Path, locate: AbsPath -> Option<AbsPath>)
    requires path.kind.RelativeToRoot?
    ensures locate(g.manifestDirectory).None? ==>
      g.Resolve(path, locate) == Failure(RootDirectoryNotFound(g.manifestDirectory))
    ensures locate(g.manifestDirectory).Some? ==>
      g.Resolve(path, locate) == Success(Join(locate(g.manifestDirectory).value, path.pathString))
  {
  }

  /** Whatever `resolve` throws is an aborting error. */
  lemma ResolveFailureAborts(g: GeneratorPaths, path: PD.Path, locate: AbsPath -> Option<AbsPath>)
    requires path.kind.RelativeToCurrentFile? ==> path.callerPath.Some?
    requires g.Resolve(path, locate).Failure?
    ensures g.Resolve(path, locate).error.Type() == Abort
  {
  }

  /**
   * `resolve` depends only on the manifest directory stored by `init`, the
   * path and what the locator answers for the manifest directory.
   */
  lemma ResolveDependsOnlyOnManifestDirectory(
    manifestDirectory: AbsPath, path: PD.Path,
    locate: AbsPath -> Option<AbsPath>, otherLocate: AbsPath -> Option<AbsPath>)
    requires path.kind.RelativeToCurrentFile? ==> path.callerPath.Some?
    requires locate(manifestDirectory) == otherLocate(manifestDirectory)
    ensures GeneratorPaths(manifestDirectory).Resolve(path, locate)
         == GeneratorPaths(manifestDirectory).Resolve(path, otherLocate)
  {
  }

  /**
   * With the walk-up locator, a root-relative path fails exactly when no
   * ancestor of the manifest directory holds a root marker, and otherwise
   * resolves below the closest one.
   */
  lemma {:induction false} ResolveRelativeToRootWalkingUp(
    g: GeneratorPaths, path: PD.Path, directoryExists: AbsPath -> bool)
    requires path.kind.RelativeToRoot?
    ensures var r := g.Resolve(path, d => RootDirectoryLocator.Locate(directoryExists, d));
      && (r.Failure? <==>
            forall depth :: 0 <= depth <= |g.manifestDirectory.components| ==>
              !RootDirectoryLocator.IsRootDirectory(directoryExists, Ancestor(g.manifestDirectory, depth)))
      && (r.Success? ==>
            exists depth :: 0 <= depth <= |g.manifestDirectory.components|
              && r.value == Join(Ancestor(g.manifestDirectory, depth), path.pathString)
              && RootDirectoryLocator.IsRootDirectory(directoryExists, Ancestor(g.manifestDirectory, depth))
              && forall deeper :: depth < deeper <= |g.manifestDirectory.components| ==>
                   !RootDirectoryLocator.IsRootDirectory(directoryExists, Ancestor(g.manifestDirectory, deeper)))
  {
    var locate := d => RootDirectoryLocator.Locate(directoryExists, d);
    var found := RootDirectoryLocator.Locate(directoryExists, g.manifestDirectory);
    assert locate(g.manifestDirectory) == found;
    if found.Some? {
      var depth := |found.value.components|;
      assert found.value == Ancestor(g.manifestDirectory, depth);
    }
  }
}
