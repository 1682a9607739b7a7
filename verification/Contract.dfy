/** The claim contract of `crates/surreal-memory/src/compression/contract.rs`. */
module Contract {

  datatype ClaimKind = Decision | Constraint | Lesson | OpenQuestion | Conflict | Fact
  {
    /** Never dropped to meet a token budget. */
    predicate IsProtected() {
      Constraint? || OpenQuestion? || Conflict?
    }

    /** Lower values are dropped first. */
    function DropPriority(): nat {
      match this
      case Fact => 0
      case Lesson => 1
      case Decision => 2
      case _ => 3
    }
  }

  datatype Qualifiers = Qualifiers(
    negated: bool,
    uncertain: bool,
    failedApproach: bool,
    quotedInstruction: bool,
    oneOff: bool
  )

  datatype SourceMemory = SourceMemory(id: string, version: nat, content: string)

  datatype EvidenceRef = EvidenceRef(sourceId: string, sourceVersion: nat, quote: string)

  datatype Candidate = Candidate(
    kind: ClaimKind,
    text: string,
    qualifiers: Qualifiers,
    evidence: seq<EvidenceRef>,
    validated: bool
  )

  predicate QuotesSource(evidence: seq<EvidenceRef>, sourceId: string) {
    exists e <- evidence :: e.sourceId == sourceId
  }
}
