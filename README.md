# Tuist manifest conversion core, in Dafny

This project models the part of Tuist that turns manifest values into core
values: resolving a manifest `Path` into an absolute path, the `TuistConfig`
value with its hand-written equality and hash, the conversion of the
manifest's compatible-Xcode-versions declaration, and the `RunAction` record
with its two initializers. Everything is pure, so the model is datatypes,
functions and lemmas.

- `wrappers.dfy` (`Wrappers`): `Option` and `Result`. A Swift function that
  `throws` returns a `Result`.
- `absolute_path.dfy` (`AbsolutePaths`): an absolute path is its list of
  components below the file-system root. `AbsolutePath(s, relativeTo: base)`
  is `Join` (component concatenation), `removingLastComponent()` is
  `RemovingLastComponent`.
- `root_directory_locator.dfy` (`RootDirectoryLocator`): the root locator
  specified as a walk up the tree over a read-only `directoryExists` predicate. It
  finds the closest directory holding `Tuist` or `.git`, as the error message
  of `rootDirectoryNotFound` describes it.
- `generator_paths.dfy` (`TuistLoader`): `GeneratorPathsError`, its error
  type, `GeneratorPaths` and `resolve(path:)`. The locator is injected as a
  function `locate: AbsPath -> Option<AbsPath>`, so `resolve` is a function of
  its inputs. `ResolveRelativeToRootWalkingUp` plugs in the walk-up locator.
- `tuist_config.dfy` (`TuistCore`): the core `CompatibleXcodeVersions`,
  `GenerationOptions`, `TuistConfig`, `default`, both `==` and
  `hash(into:)`. The hash is `HashInto`, which feeds the options into an
  abstract hasher state through a `combine` parameter.
- `project_description.dfy` (`ProjectDescription`): the manifest-side `Path`,
  `CompatibleXcodeVersions`, `RunAction` and its initializers. The designated
  initializer is the datatype constructor with defaulted parameters.
- `compatible_xcode_versions.dfy` (`CompatibleXcodeVersionsConversion`): the
  manifest-to-core conversion and its inverse.

Two behaviours of the code are worth stating plainly:
- `resolve` force-unwraps `callerPath` for a current-file-relative path
  (Sources/TuistLoader/Models/GeneratorPaths.swift:40), so `Resolve` requires
  a caller path for such paths; a missing one traps rather than throws.
- `TuistConfig.==` compares the option arrays element by element and in order
  (Sources/TuistCore/Models/TuistConfig.swift:46), and `init` keeps duplicate
  options as given (Sources/TuistCore/Models/TuistConfig.swift:31-35).

## Model

| member | source | states |
|---|---|---|
| AbsolutePaths.Join | Sources/TuistLoader/Models/GeneratorPaths.swift:43 | joining puts the relative components below the base: the base is an ancestor of the result, and the result's tail is exactly the relative path |
| AbsolutePaths.RemovingLastComponent | Sources/TuistLoader/Models/GeneratorPaths.swift:40 | the parent is an ancestor of the path; the root is its own parent; otherwise the path is the parent plus its last component |
| AbsolutePaths.JoinIsInjectiveInBase | Sources/TuistLoader/Models/GeneratorPaths.swift:40-43 | joining one plain relative path (no empty, `.` or `..` component, no `/`) onto two bases gives equal results only when the bases are equal |
| RootDirectoryLocator.Locate | Sources/TuistLoader/Models/GeneratorPaths.swift:19 | the located root is an ancestor of the start directory that holds `Tuist` or `.git`, and no closer ancestor holds either; no result means no ancestor up to the file-system root holds either |
| RootDirectoryLocator.LocateFromAnyDepthBelowRoot | Sources/TuistLoader/Models/GeneratorPaths.swift:19 | from any directory below a root directory, with no root directory in between, the search finds that root, however deep it starts |
| RootDirectoryLocator.LocateIsIdempotent | Sources/TuistLoader/Models/GeneratorPaths.swift:19 | searching again from the located root finds the same root |
| TuistLoader.GeneratorPathsError.Type | Sources/TuistLoader/Models/GeneratorPaths.swift:10-13 | `rootDirectoryNotFound` is an abort error |
| TuistLoader.GeneratorPaths.Resolve | Sources/TuistLoader/Models/GeneratorPaths.swift:37-49 | resolution fails exactly for a root-relative path whose locator finds nothing, with `rootDirectoryNotFound` carrying the manifest directory; the other two frames never fail; a resolved plain relative path ends with the path's own components; a current-file-relative path must carry its caller path |
| TuistLoader.ResolveRelativeToManifest | Sources/TuistLoader/Models/GeneratorPaths.swift:42-43 | a manifest-relative path resolves to the manifest directory joined with the path |
| TuistLoader.ResolveRelativeToCurrentFile | Sources/TuistLoader/Models/GeneratorPaths.swift:39-41 | a current-file-relative path resolves against the caller file's directory, independently of the manifest directory and the locator, and, for a plain relative path, differs from the manifest-relative result whenever the caller's directory is not the manifest directory |
| TuistLoader.ResolveRelativeToRoot | Sources/TuistLoader/Models/GeneratorPaths.swift:44-48 | a root-relative path resolves to the located root joined with the path, or fails with `rootDirectoryNotFound(manifestDirectory)` when no root is located |
| TuistLoader.ResolveFailureAborts | Sources/TuistLoader/Models/GeneratorPaths.swift:10-13 | every error `resolve` throws is classified as abort |
| TuistLoader.ResolveDependsOnlyOnManifestDirectory | Sources/TuistLoader/Models/GeneratorPaths.swift:27-49 | `resolve` depends only on the manifest directory `init` stored, the path and the locator's answer for that directory |
| TuistLoader.ResolveRelativeToRootWalkingUp | Sources/TuistLoader/Models/GeneratorPaths.swift:44-48 | with the walk-up locator, a root-relative path fails exactly when no ancestor of the manifest directory is a root directory, and otherwise resolves below the closest one |
| TuistCore.Default | Sources/TuistCore/Models/TuistConfig.swift:21-24 | the default configuration accepts all Xcode versions and has no generation options |
| TuistCore.OptionEquals | Sources/TuistCore/Models/TuistConfig.swift:50-55 | the free `==` on generation options is exactly equality of the options |
| TuistCore.OptionListEquals | Sources/TuistCore/Models/TuistConfig.swift:46 | comparing option arrays by count and then element by element is exactly equality of the sequences |
| TuistCore.ConfigEquals | Sources/TuistCore/Models/TuistConfig.swift:45-47 | two configurations are equal exactly when their generation-option lists are equal |
| TuistCore.EqualityIgnoresCompatibleXcodeVersions | Sources/TuistCore/Models/TuistConfig.swift:45-47 | configurations that differ only in compatible Xcode versions compare equal |
| TuistCore.ConfigEqualsIsEquivalence | Sources/TuistCore/Models/TuistConfig.swift:45-47 | configuration equality is reflexive, symmetric and transitive |
| TuistCore.ConfigEqualsIsOrderSensitive | Sources/TuistCore/Models/TuistConfig.swift:15 | two different options in swapped order make configurations unequal |
| TuistCore.DuplicateOptionsAreKept | Sources/TuistCore/Models/TuistConfig.swift:31-35 | a configuration with a duplicated option, kept as given by the initializer, is not equal to the one with the option once |
| TuistCore.EqualsDefaultIffNoOptions | Sources/TuistCore/Models/TuistConfig.swift:21-24 | a configuration equals the default exactly when it has no generation options, whatever its Xcode versions |
| TuistCore.HashInto | Sources/TuistCore/Models/TuistConfig.swift:39-41 | feeds the generation options, and nothing else, to the hasher |
| TuistCore.HashIsConsistentWithEquality | Sources/TuistCore/Models/TuistConfig.swift:39-41 | equal configurations leave any hasher in the same state, since only the generation options are combined |
| TuistCore.ProjectNameOptionEquality | Sources/TuistCore/Models/TuistConfig.swift:52-53 | two `xcodeProjectName` options are equal exactly when their names are |
| ProjectDescription.RunActionWithPreset | Sources/ProjectDescription/RunAction.swift:16-22 | the convenience initializer takes the configuration name from the preset and passes executable and arguments through |
| ProjectDescription.RunActionEquals | Sources/ProjectDescription/RunAction.swift:3-6 | the synthesized equality of run actions holds exactly when all three fields are equal |
| ProjectDescription.RunActionDefaultsToNil | Sources/ProjectDescription/RunAction.swift:8-14 | the designated initializer (the constructor) leaves an omitted executable and omitted arguments nil |
| ProjectDescription.RunActionWithPresetDelegates | Sources/ProjectDescription/RunAction.swift:16-22 | the convenience initializer is the designated one applied to the preset's name; with no arguments it uses the debug preset and nil executable and arguments |
| ProjectDescription.RunActionWithPresetEquality | Sources/ProjectDescription/RunAction.swift:16-22 | two run actions built from presets are equal exactly when the presets' names, executables and arguments are equal |
| CompatibleXcodeVersionsConversion.FromManifest | Sources/TuistLoader/ModelConvertible/CompatibleXcodeVersions+ModelConvertible.swift:7-14 | the conversion never fails, maps `.all` to `.all` and `.list(v)` to `.list` of the very same list |
| CompatibleXcodeVersionsConversion.ToManifest | Sources/TuistLoader/ModelConvertible/CompatibleXcodeVersions+ModelConvertible.swift:8-13 | the reverse case mapping keeps the case and the version list |
| CompatibleXcodeVersionsConversion.FromManifestIgnoresGeneratorPaths | Sources/TuistLoader/ModelConvertible/CompatibleXcodeVersions+ModelConvertible.swift:7 | the result does not depend on the generator paths argument |
| CompatibleXcodeVersionsConversion.ConversionIsBijection | Sources/TuistLoader/ModelConvertible/CompatibleXcodeVersions+ModelConvertible.swift:8-13 | the conversion and the reverse mapping undo each other in both orders |

## Left out

- `RootDirectoryLocator.shared` itself is not part of this model: `resolve` takes the locator as a function, and the walk-up `Locate` is a specification of what it is documented to find, not a model of its code. Its caching is not modelled.
- AbsolutePaths.Join: joining is component concatenation. The `Basic` library's `AbsolutePath(_:relativeTo:)` also normalises `.`, `..` and empty components and lets an absolute path string override the base; that normalisation is not modelled, so `Join` agrees with the source only for plain relative paths (`IsPlainRelative`).
- AbsolutePaths.JoinIsInjectiveInBase: stated for plain relative paths only, since with `..` two different bases can give the same normalised path in the source.
- TuistLoader.GeneratorPaths.Resolve: the "ends with the path's components" clause is stated for plain relative paths only; for other paths the result here is the unnormalised concatenation.
- TuistLoader.ResolveRelativeToCurrentFile: the "differs from the manifest-relative result" clause is stated for plain relative paths only, for the same reason.
- `AbsolutePath(_:relativeTo:)` normalisation (`.`, `..`, a path string that is itself absolute) and the parsing of `callerPath` from a string come from the `Basic` library, which is not part of this model; joining is component concatenation.
- `GeneratorPathsError.description`, the user-facing message, is not modelled; `ErrorType` lists the four kinds the reporting layer distinguishes.
- The `Hasher` algorithm is not modelled: `HashInto` takes the hasher state and its `combine` as parameters, so only "what is fed in" is stated.
- `PresetBuildConfiguration.name` is not part of this model; `RunActionWithPreset` receives it as the function `presetName`.
- `TargetReference` and `Arguments` are modelled as plain records with their fields; their own initializers and the `Codable` conformance of `RunAction` are not modelled.
- The converter is declared as throwing any error; the model gives it the one error kind of the loader shown here, `GeneratorPathsError`, which it never produces.
- The installer (`Installer.swift`) runs subprocesses and changes the file system, and `Generator+TuistKit.swift` only wires collaborators together; neither has logic to model.
- Dependency-graph construction, cycle detection, topological ordering and configuration merging have no source among the files modelled here, so they are not modelled.
