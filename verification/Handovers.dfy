/**
 What a request to merge rests on (`_verify` and `_settle_merge` of src/pipeline/__main__.py): from the
 durable row back to what the run that wrote it observed.
 */
module Handovers {
  import opened Wrappers
  import opened Schemas
  import opened Protocol
  import CheckRuns
  import Verify

  /** What a handover means: both transcripts record only what this run's observers returned at the row's
      head, between them they show every fact of the lane there, and the covering suite's own check was
      accepted in a report this run read of that very commit. */
  lemma HandoverShowsFacts(log: seq<Candidate>, row: Candidate, run: Run)
    returns (v: Candidate, suite: CheckRuns.SuiteResult, k: nat)
    requires Handover(log, row, run) && run.verify.ciEvidenceMode.Actions?
    ensures v in log && Underpins(v, row, run)
    ensures var head := row.headSha.value;
            && Verify.LaneFacts(row, v.criterionEvidence.value.observations,
                                row.criterionEvidence.value.observations, head, run.verify)
            && (row.lane.CodeQL? ==> Verify.AlertAbsent(run.observe(row.candidateId, PostPr), row, head))
            && (row.lane.SkippedTests? ==> Verify.SkipMarkerAbsent(run.observe(row.candidateId, PostPr), row, head))
            && (row.lane.Deprecations? ==> Verify.SymbolGone(run.observe(row.candidateId, PrePr), v, head))
            && Verify.Truthful(v.criterionEvidence.value.observations, run.observe(row.candidateId, PrePr), v, head)
            && Verify.Truthful(row.criterionEvidence.value.observations,
                               Verify.WithSuite(run.observe(row.candidateId, PostPr), suite), row, head)
            && CheckRuns.SuiteSeen(suite, CheckRuns.Answer(ReportAt(run, row.candidateId, head, NamedSuite, k)),
                                   Verify.CheckContext(row, run.verify))
            && SuiteAccepted(run, row.candidateId, head, k, Verify.CheckContext(row, run.verify))
  {
    hide Verify.Truthful, Verify.LaneFacts, Verify.StageFacts, CheckRuns.Passing, CheckRuns.Answer;
    v :| v in log && Underpins(v, row, run);
    var head := row.headSha.value;
    suite, k :| && CheckRuns.SuiteSeen(suite, CheckRuns.Answer(ReportAt(run, row.candidateId, head, NamedSuite, k)),
                                       Verify.CheckContext(row, run.verify))
                && Verify.Verdict(row.criterionEvidence.value,
                                  Verify.WithSuite(run.observe(row.candidateId, PostPr), suite),
                                  row, head, run.verify, PostPr);
    var after := Verify.WithSuite(run.observe(row.candidateId, PostPr), suite);
    Verify.TwoStagesShowLaneFacts(v.criterionEvidence.value, row.criterionEvidence.value,
                                  run.observe(row.candidateId, PrePr),
                                  after, v, row, head, run.verify);
    assert Verify.CiSuiteGreen(after, head, Verify.CheckContext(row, run.verify));
  }

  /** Report `k` of the suite wait held the named check with an accepted state. */
  ghost predicate SuiteAccepted(run: Run, id: string, sha: string, k: nat, context: string) {
    var seen := CheckRuns.Answer(ReportAt(run, id, sha, NamedSuite, k));
    && seen.Success?
    && exists item :: item in seen.value && item.name == context
                   && CheckRuns.StateOf(item).Some? && CheckRuns.Accepted(CheckRuns.StateOf(item).value)
  }
}
