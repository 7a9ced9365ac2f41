/** How the pager treats each edge kind, and the hard ceiling on traversal depth. */
module Edges {
  import opened Core

  const MAX_DEPTH_CEILING: nat := 5

  datatype ParentMode = ParentOff | ContainerOnly | Bidirectional
  datatype DerivedMode = DerivedOff | CoRetrieveSource | SuppressSource
  datatype SupportsMode = SupportsOff | CoRetrieveEvidence
  datatype ContradictMode = ContradictOff | PreferNewer | Flag
  datatype ToolMode = ToolOff | CoRetrieveResult

  datatype EdgePolicy = EdgePolicy(
    enabled: bool,
    maxDepth: nat,
    maxFanout: nat,
    followProvenanceParents: bool,
    parent: ParentMode,
    derivedFrom: DerivedMode,
    supports: SupportsMode,
    contradicts: ContradictMode,
    toolInvocation: ToolMode)
  {
    function EffectiveDepth(): (d: nat)
      ensures d <= maxDepth && d <= 5 && (maxDepth <= 5 ==> d == maxDepth) && (maxDepth >= 5 ==> d == 5)
    {
      if maxDepth <= MAX_DEPTH_CEILING then maxDepth else MAX_DEPTH_CEILING
    }

    predicate PullsOutgoing(kind: EdgeKind) {
      match kind
      case Parent => parent == ContainerOnly || parent == Bidirectional
      case DerivedFrom => derivedFrom == CoRetrieveSource
      case Supports => supports == CoRetrieveEvidence
      case Contradicts => false
      case ToolInvocation => toolInvocation == CoRetrieveResult
    }

    predicate PullsChildren() {
      parent == Bidirectional
    }

    predicate Reconciles() {
      derivedFrom == SuppressSource || contradicts != ContradictOff
    }
  }

  /** The default: every kind on, one hop, eight neighbours per kind. */
  const DEFAULT_POLICY := EdgePolicy(true, 1, 8, false, ContainerOnly, CoRetrieveSource, CoRetrieveEvidence, Flag,
                                     CoRetrieveResult)
}
