/**
 * Conversion of the manifest's compatible-Xcode-versions declaration into
 * the core value. The conversion is declared as throwing, like every model
 * conversion, but it never fails.
 */
module CompatibleXcodeVersionsConversion {
  import opened Wrappers
  import PD = ProjectDescription
  import TuistCore
  import opened TuistLoader

  /** `init(manifest:generatorPaths:)`: the same case, with the same version list. */
  function FromManifest(manifest: PD.CompatibleXcodeVersions, generatorPaths: GeneratorPaths)
    : (r: Result<TuistCore.CompatibleXcodeVersions, GeneratorPathsError>)
    ensures r.Success?
    ensures r.value.All? <==> manifest.All?
    ensures manifest.List? ==> r.value.versions == manifest.versions
  {
    match manifest
    case All => Success(TuistCore.All)
    case List(versions) => Success(TuistCore.List(versions))
  }

  /** The reverse case mapping, from the core value back to the manifest value. */
  function ToManifest(core: TuistCore.CompatibleXcodeVersions): (manifest: PD.CompatibleXcodeVersions)
    ensures manifest.All? <==> core.All?
    ensures core.List? ==> manifest.versions == core.versions
  {
    match core
    case All => PD.All
    case List(versions) => PD.List(versions)
  }

  /** The conversion does not look at the generator paths it is given. */
  lemma FromManifestIgnoresGeneratorPaths(
    manifest: PD.CompatibleXcodeVersions, g1: GeneratorPaths, g2: GeneratorPaths)
    ensures FromManifest(manifest, g1) == FromManifest(manifest, g2)
  {
  }

  /** The conversion is a bijection: each of the two mappings undoes the other. */
  lemma ConversionIsBijection(
    manifest: PD.CompatibleXcodeVersions, core: TuistCore.CompatibleXcodeVersions, g: GeneratorPaths)
    ensures ToManifest(FromManifest(manifest, g).value) == manifest
    ensures FromManifest(ToManifest(core), g) == Success(core)
  {
  }
}
