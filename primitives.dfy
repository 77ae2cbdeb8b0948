/**
 * Identifiers of the build graph: labels, rule kinds, target keys, source
 * locations and dependency edges.
 */
module Primitives {

  /** A canonical target label such as `//java/com/foo:bar`, already parsed. */
  datatype Label = Label(text: string) {
    function ToString(): string { text }
  }

  /** The rule kind of a target, such as `java_library`. */
  datatype Kind = Kind(ruleName: string) {
    /** `Kind.isOneOf`: membership of this kind in `kinds`. */
    predicate IsOneOf(kinds: seq<Kind>) { this in kinds }

    function ToString(): string { ruleName }
  }

  /** A source, header or build file location; only its equality matters here. */
  type ArtifactLocation(==,!new)

  /**
   * The identity of a target in the build graph: its label, plus the ids of
   * the aspects that generated it (none for a plain target).
   */
  datatype TargetKey = TargetKey(targetLabel: Label, aspectIds: seq<string>) {

    /** `TargetKey.forPlainTarget`. */
    static function ForPlainTarget(l: Label): (k: TargetKey)
      ensures k.targetLabel == l && k.IsPlainTarget()
    {
      TargetKey(l, [])
    }

    predicate IsPlainTarget() { aspectIds == [] }

    /** The label's text, followed by `#id` for each aspect id. */
    function ToString(): (r: string)
      ensures IsPlainTarget() ==> r == targetLabel.ToString()
    {
      targetLabel.ToString() + AspectSuffix(aspectIds)
    }
  }

  function AspectSuffix(ids: seq<string>): string {
    if ids == [] then "" else "#" + ids[0] + AspectSuffix(ids[1..])
  }

  datatype DependencyType = CompileTime | Runtime

  /** A dependency edge: the target depended on and the kind of edge. */
  datatype Dependency = Dependency(target: TargetKey, dependencyType: DependencyType)
}
