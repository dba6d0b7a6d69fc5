/** The records the agents exchange (the schemas package, runtime/evidence.py). */
module Schemas {
  import opened Prelude
  import opened Roles

  datatype PlannerSection = PlannerSection(sectionId: string, title: string,
                                           researchQuestions: seq<string>, mustFindEvidence: seq<string>)

  // ---- Research -----------------------------------------------------------

  datatype CandidatePaper = CandidatePaper(paperId: string, title: string, source: string,
                                           whyRelevant: string, handoffToDeep: bool)

  datatype WideOutput = WideOutput(sectionId: string, query: string, candidatePapers: seq<CandidatePaper>,
                                   notes: string)

  datatype EvidenceCard = EvidenceCard(evidenceId: string, paperId: string, sectionId: string, claim: string,
                                       sourceSpan: Option<string>, confidence: real)

  datatype DeepOutput = DeepOutput(sectionId: string, paperIdsProcessed: seq<string>,
                                   evidenceCards: seq<EvidenceCard>, insufficientPaperIds: seq<string>)

  // ---- Evidence -----------------------------------------------------------

  datatype EvidenceItem = EvidenceItem(evidenceId: string, runId: string, paperId: string, sectionId: string,
                                       claim: string, sourceSpan: Option<string>, sourceLocator: Option<string>,
                                       confidence: real, createdBy: AgentRole)

  // ---- Synthesis ----------------------------------------------------------

  datatype PaperFacts = PaperFacts(paperId: string, methodUsed: string, dataset: string, metric: string,
                                   result: string, evidenceIds: seq<string>)

  datatype MatrixCell = MatrixCell(value: string, evidenceIds: seq<string>)

  /** `cells` maps a dimension to its cell. */
  datatype MatrixRow = MatrixRow(paperId: string, cells: map<string, MatrixCell>)

  datatype ComparisonMatrix = ComparisonMatrix(dimensions: seq<string>, rows: seq<MatrixRow>)

  datatype TaxonomyCategory = TaxonomyCategory(name: string, description: string,
                                               paperIds: seq<string>, rationaleEvidenceIds: seq<string>)

  datatype SynthesisClaim = SynthesisClaim(claimText: string, paperIds: seq<string>, evidenceIds: seq<string>)

  datatype CoverageGap = CoverageGap(item: string, reason: string, description: string)

  datatype ClaimRef = ClaimRef(evidenceId: string, paperId: string, claim: string, confidence: real)

  datatype SynthesizerOutput = SynthesizerOutput(
    sectionId: string,
    papersCited: seq<string>,
    claims: seq<ClaimRef>,
    paperFacts: seq<PaperFacts>,
    matrix: ComparisonMatrix,
    categories: seq<TaxonomyCategory>,
    synthesis: seq<SynthesisClaim>,
    coverageGaps: seq<CoverageGap>)

  const DEFAULT_DIMENSIONS: seq<string> := ["method", "dataset", "metric", "result"]
}
