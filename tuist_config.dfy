/**
 * The core-side configuration of the tool: the Xcode versions a project is
 * compatible with and the generation options. Equality and hashing of a
 * configuration deliberately look at the generation options only.
 */
module TuistCore {

  /** The core value of the Xcode versions a project supports. */
  datatype CompatibleXcodeVersions = All | List(versions: seq<string>)

  /** An option that affects project generation. */
  datatype GenerationOptions = XcodeProjectName(name: string)

  datatype TuistConfig = TuistConfig(
    compatibleXcodeVersions: CompatibleXcodeVersions,
    generationOptions: seq<GenerationOptions>)

  /** `TuistConfig.default`. */
  function Default(): (config: TuistConfig)
    ensures config.compatibleXcodeVersions == All
    ensures config.generationOptions == []
  {
    TuistConfig(All, [])
  }

  /** The free `==` on generation options: two project-name options are equal when their names are. */
  function OptionEquals(lhs: GenerationOptions, rhs: GenerationOptions): (eq: bool)
    ensures eq <==> lhs == rhs
  {
    match (lhs, rhs)
    case (XcodeProjectName(l), XcodeProjectName(r)) => l == r
  }

  /** Array equality on option lists: same count, then element by element in order. */
  function OptionListEquals(lhs: seq<GenerationOptions>, rhs: seq<GenerationOptions>): (eq: bool)
    ensures eq <==> lhs == rhs
  {
    if |lhs| != |rhs| then false
    else if lhs == [] then true
    else OptionEquals(lhs[0], rhs[0]) && OptionListEquals(lhs[1..], rhs[1..])
  }

  /** The hand-written `==` of `TuistConfig`: it compares the generation options only. */
  function ConfigEquals(lhs: TuistConfig, rhs: TuistConfig): (eq: bool)
    ensures eq <==> lhs.generationOptions == rhs.generationOptions
  {
    OptionListEquals(lhs.generationOptions, rhs.generationOptions)
  }

  /**
   * The hand-written `hash(into:)`: it feeds the generation options, and
   * nothing else, into the hasher. The hasher's state type `H` and its
   * `combine` are not part of this model, so they are parameters.
   */
  function HashInto<H>(config: TuistConfig, hasher: H, combine: (H, seq<GenerationOptions>) -> H): (h: H)
    ensures h == combine(hasher, config.generationOptions)
  {
    combine(hasher, config.generationOptions)
  }

  /** Configurations that differ only in their compatible Xcode versions are equal. */
  lemma EqualityIgnoresCompatibleXcodeVersions(
    v1: CompatibleXcodeVersions, v2: CompatibleXcodeVersions, options: seq<GenerationOptions>)
    ensures ConfigEquals(TuistConfig(v1, options), TuistConfig(v2, options))
  {
  }

  /** Configuration equality is an equivalence relation. */
  lemma ConfigEqualsIsEquivalence(a: TuistConfig, b: TuistConfig, c: TuistConfig)
    ensures ConfigEquals(a, a)
    ensures ConfigEquals(a, b) <==> ConfigEquals(b, a)
    ensures ConfigEquals(a, b) && ConfigEquals(b, c) ==> ConfigEquals(a, c)
  {
  }

  /** Equality is order-sensitive: two different options listed in swapped order do not compare equal. */
  lemma ConfigEqualsIsOrderSensitive(
    v: CompatibleXcodeVersions, o1: GenerationOptions, o2: GenerationOptions)
    requires o1 != o2
    ensures !ConfigEquals(TuistConfig(v, [o1, o2]), TuistConfig(v, [o2, o1]))
  {
  }

  /** The initializer (the constructor) keeps duplicate options, and they matter to equality. */
  lemma DuplicateOptionsAreKept(v: CompatibleXcodeVersions, o: GenerationOptions)
    ensures !ConfigEquals(TuistConfig(v, [o, o]), TuistConfig(v, [o]))
  {
  }

  /** A configuration equals the default one exactly when it has no generation options. */
  lemma EqualsDefaultIffNoOptions(config: TuistConfig)
    ensures ConfigEquals(config, Default()) <==> config.generationOptions == []
  {
  }

  /** The hash is consistent with equality: equal configurations leave the hasher in the same state. */
  lemma HashIsConsistentWithEquality<H>(
    a: TuistConfig, b: TuistConfig, hasher: H, combine: (H, seq<GenerationOptions>) -> H)
    requires ConfigEquals(a, b)
    ensures HashInto(a, hasher, combine) == HashInto(b, hasher, combine)
  {
  }

  /** Two project-name options compare equal exactly when their names are equal. */
  lemma ProjectNameOptionEquality(a: string, b: string)
    ensures OptionEquals(XcodeProjectName(a), XcodeProjectName(b)) <==> a == b
  {
  }
}
