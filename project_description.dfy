/**
 * The manifest-side values that users write in their manifests: path
 * expressions, the compatible-Xcode-versions declaration and run actions.
 */
module ProjectDescription {
  import opened Wrappers
  import opened AbsolutePaths

  /** The reference frame a manifest path is relative to. */
  datatype PathType = RelativeToCurrentFile | RelativeToManifest | RelativeToRoot

  /**
   * A manifest path. `pathString` is kept as its list of components;
   * `callerPath` is the absolute path of the file that created it, which only
   * current-file-relative paths need.
   */
  datatype Path = Path(kind: PathType, pathString: seq<Component>, callerPath: Option<AbsPath>)

  /** The manifest's declaration of the Xcode versions a project supports. */
  datatype CompatibleXcodeVersions = All | List(versions: seq<string>)

  /** A reference to a target, possibly in another project. */
  datatype TargetReference = TargetReference(projectPath: Option<Path>, targetName: string)

  /** Environment variables and launch arguments of a scheme action. */
  datatype Arguments = Arguments(environment: map<string, string>, launch: map<string, bool>)

  /** The build configurations every project has. */
  datatype PresetBuildConfiguration = Debug | Release

  /**
   * The run action of a scheme. The constructor, with its two defaulted
   * parameters, is the designated initializer `init(configurationName:executable:arguments:)`.
   */
  datatype RunAction = RunAction(
    configurationName: string,
    executable: Option<TargetReference> := None,
    arguments: Option<Arguments> := None)

  /**
   * The convenience initializer `init(config:executable:arguments:)`. The name
   * of a preset configuration is not part of this model, so it is the
   * parameter `presetName`.
   */
  function RunActionWithPreset(
    presetName: PresetBuildConfiguration -> string,
    config: PresetBuildConfiguration := Debug,
    executable: Option<TargetReference> := None,
    arguments: Option<Arguments> := None): (action: RunAction)
    ensures action.configurationName == presetName(config)
    ensures action.executable == executable && action.arguments == arguments
  {
    RunAction(configurationName := presetName(config), executable := executable, arguments := arguments)
  }

  /** The synthesized `Equatable` conformance of `RunAction`: field by field. */
  function RunActionEquals(lhs: RunAction, rhs: RunAction): (eq: bool)
    ensures eq <==> lhs == rhs
  {
    && lhs.configurationName == rhs.configurationName
    && lhs.executable == rhs.executable
    && lhs.arguments == rhs.arguments
  }

  /** The designated initializer leaves an omitted executable and omitted arguments nil. */
  lemma RunActionDefaultsToNil(name: string)
    ensures RunAction(name).executable == None && RunAction(name).arguments == None
  {
  }

  /**
   * The convenience initializer is the designated one applied to the preset's
   * name; called without arguments it gives the debug configuration and no
   * executable or arguments.
   */
  lemma RunActionWithPresetDelegates(
    presetName: PresetBuildConfiguration -> string,
    config: PresetBuildConfiguration,
    executable: Option<TargetReference>,
    arguments: Option<Arguments>)
    ensures RunActionWithPreset(presetName, config, executable, arguments)
         == RunAction(presetName(config), executable, arguments)
    ensures RunActionWithPreset(presetName) == RunAction(presetName(Debug))
  {
  }

  /**
   * Two run actions built from presets are equal exactly when the presets'
   * names, the executables and the arguments are: only the name of a preset
   * reaches the run action.
   */
  lemma RunActionWithPresetEquality(
    presetName: PresetBuildConfiguration -> string,
    c1: PresetBuildConfiguration, e1: Option<TargetReference>, a1: Option<Arguments>,
    c2: PresetBuildConfiguration, e2: Option<TargetReference>, a2: Option<Arguments>)
    ensures RunActionEquals(RunActionWithPreset(presetName, c1, e1, a1), RunActionWithPreset(presetName, c2, e2, a2))
        <==> presetName(c1) == presetName(c2) && e1 == e2 && a1 == a2
  {
  }
}
