/** The data contracts of src/pipeline/schemas.py, cut down to the fields the other modules read. */
module Schemas {
  import opened Wrappers

  datatype Lane = CodeQL | SkippedTests | Deprecations

  datatype ReasonCode =
    | TriggerMissing
    | AutomatabilityLow
    | VerifiabilityMissing
    | OutOfScopeFrontend
    | ClassScopeTooBroad
    | ClassBreadthUnknown
    | BlockedByEnclosingSkip
    | SuppressedByContainment
    | PublicApiSurface
    | InternalCaller
    | NotEol
    | CapabilityUnavailable
    | BudgetOverflow
    | OutOfDispatchScope
    | CiEvidenceUnavailable
    | CiCheckFailed
    | CiWorkflowsAbsent
    | DcoTrailerMissing
    | ClosedPullRequest
    | SessionCeiling
    | SessionFailed
    | SessionBlocked
    | CriterionNotMet
    | GreenNotReached
    | AlertStillPresent
    | SymbolStillReferenced
    | SuiteRegressed
    | ManualMergeRequired
    | ArtifactValidationFailed
    | MarkerSearchFailed
    | MarkerSearchUnconfigured
    | TestNotRequired
    | OtherReason(code: string)

  datatype CandidateState =
    | Enumerated
    | Gated
    | Scored
    | Dispatching
    | IssueCreated
    | SessionDone
    | Verified
    | PrCreated
    | AwaitingHumanMerge
    | Merged
    | Terminal
    | BlockedByEnclosingSkip
    | SuppressedByContainment
    | Deferred

  datatype Action = OpenPr | OpenIssue | LogOnly | Deferred | HumanReview

  datatype GateName = TriggerExists | Automatability | VerifiabilityExists

  datatype Tier = High | Medium | Low

  datatype CiEvidenceMode = Local | Actions

  datatype Stage = PrePr | PostPr

  datatype MarkerSearchOutcome = Found | Absent | Failed | Orphaned | Unconfigured

  /** One check run observed on a pull-request head. */
  datatype CheckRunConclusion = CheckRunConclusion(
    name: string,
    conclusion: Option<string>,
    status: Option<string>)

  /** One line of the evidence transcript, kept structured instead of rendered as text. */
  datatype Observation =
    | ItemAt(sha: string, nodeid: string, itemPassed: bool)
    | SuiteCheckAt(sha: string, context: string, green: bool)
    | SuiteRunAt(sha: string, scope: seq<string>, passed: bool)
    | AlertAt(sha: string, alertPresent: bool)
    | SkipMarkerAt(sha: string, markerPresent: bool)
    | SymbolAt(sha: string, resolves: bool, callers: nat, overrides: nat)
    | FailingNodeid(failing: string)
    | Note(text: string)

  /** What the orchestrator observed for one candidate's success criterion. */
  datatype CriterionEvidence = CriterionEvidence(
    satisfied: Option<bool>,
    stage: Stage,
    commands: seq<string>,
    observations: seq<Observation>,
    reason: Option<ReasonCode>)

  /** A remediation candidate and its current pipeline state. */
  datatype Candidate = Candidate(
    candidateId: string,
    runId: Option<string>,
    lane: Lane,
    stableLocator: string,
    // LANE 2 nesting
    nodeid: Option<string>,
    enclosingSkipNodeid: Option<string>,
    relatedCandidateId: Option<string>,
    // gates, score and dispatch
    gatePassed: Option<bool>,
    failedGate: Option<GateName>,
    failedGateReason: Option<ReasonCode>,
    score: Option<real>,
    risk: Option<int>,
    tier: Option<Tier>,
    action: Option<Action>,
    state: CandidateState,
    reason: Option<ReasonCode>,
    labels: seq<string>,
    suiteScope: seq<string>,
    // artifact identity
    issueNumber: Option<nat>,
    issueUrl: Option<string>,
    issueAdopted: bool,
    prNumber: Option<nat>,
    prUrl: Option<string>,
    baseSha: Option<string>,
    headBranch: Option<string>,
    headSha: Option<string>,
    mergedAt: Option<string>,
    mergeVerified: bool,
    artifactSimulated: bool,
    // evidence
    markerSearchOutcome: Option<MarkerSearchOutcome>,
    criterionEvidence: Option<CriterionEvidence>,
    checkRunConclusions: seq<CheckRunConclusion>,
    ciEvidenceMode: Option<CiEvidenceMode>,
    sessionId: Option<string>,
    sessionAttempts: nat)

  const NEEDS_HUMAN_REVIEW_LABEL := "needs-human-review"
}
