/**
 Orchestrator-owned evaluation of each lane's success criterion (src/pipeline/verify.py). Nothing a
 session reports is evidence: every verdict is tied here to what the observation seams returned at
 one revision, and to what the evidence transcript records.
 */
module Verify {
  import opened Wrappers
  import opened Schemas
  import opened CheckRuns

  datatype SymbolObservation = SymbolObservation(
    resolves: bool, callers: nat, overrides: nat, command: string, available: bool)

  datatype AlertObservation = AlertObservation(locators: seq<string>, command: string, available: bool)

  datatype SkipMarkerObservation = SkipMarkerObservation(present: bool, command: string, available: bool)

  /** Per-item outcomes of running one nodeid: name and whether it passed. */
  datatype ItemRunResult = ItemRunResult(
    outcomes: seq<(string, bool)>, command: string, reason: Option<ReasonCode>)

  /** The columns of a candidate that enumeration fixes and a probe may read. */
  datatype Subject = Subject(candidateId: string, lane: Lane, stableLocator: string,
                             nodeid: Option<string>, suiteScope: seq<string>)

  function SubjectOf(c: Candidate): Subject {
    Subject(c.candidateId, c.lane, c.stableLocator, c.nodeid, c.suiteScope)
  }

  /** The observation seams; a missing seam cannot observe. */
  datatype Observers = Observers(
    runItem: Option<(string, string) -> ItemRunResult>,
    runSuite: Option<(seq<string>, string) -> SuiteResult>,
    readCiSuite: Option<(string, string) -> SuiteResult>,
    probeSymbol: Option<(Subject, string) -> SymbolObservation>,
    probeAlerts: Option<(Subject, string) -> AlertObservation>,
    probeSkipMarker: Option<(Subject, string) -> SkipMarkerObservation>)

  /** The same seams with the suite read from one finished wait. */
  function WithSuite(o: Observers, suite: SuiteResult): Observers {
    o.(readCiSuite := Some((sha: string, context: string) => suite))
  }

  datatype Config = Config(
    ciEvidenceMode: CiEvidenceMode,
    suiteCheckContext: string,
    integrationSuiteCheckContext: string,
    localItemScope: seq<string>)

  predicate IsLocallyObservable(nodeid: Option<string>, config: Config) {
    nodeid.Some? && exists prefix <- config.localItemScope :: prefix <= nodeid.value
  }

  /** Whether a candidate still owes evidence once its pull request exists. */
  predicate PostPrCriterionPending(c: Candidate, config: Config) {
    c.lane.CodeQL? || !config.ciEvidenceMode.Local?
  }

  // ---- what the seams say --------------------------------------------------------------------

  ghost predicate CiSuiteGreen(o: Observers, head: string, context: string) {
    o.readCiSuite.Some? && o.readCiSuite.value(head, context).reason.None? && o.readCiSuite.value(head, context).passed
  }

  ghost predicate LocalSuiteGreen(o: Observers, c: Candidate, head: string) {
    o.runSuite.Some? && o.runSuite.value(c.suiteScope, head).passed
  }

  ghost predicate SuiteGreen(o: Observers, c: Candidate, head: string, context: string, config: Config) {
    if config.ciEvidenceMode.Local? then LocalSuiteGreen(o, c, head) else CiSuiteGreen(o, head, context)
  }

  ghost predicate AlertAbsent(o: Observers, c: Candidate, head: string) {
    o.probeAlerts.Some? && o.probeAlerts.value(SubjectOf(c), head).available
    && c.stableLocator !in o.probeAlerts.value(SubjectOf(c), head).locators
  }

  ghost predicate SkipMarkerAbsent(o: Observers, c: Candidate, head: string) {
    o.probeSkipMarker.Some? && o.probeSkipMarker.value(SubjectOf(c), head).available
    && !o.probeSkipMarker.value(SubjectOf(c), head).present
  }

  ghost predicate SymbolGone(o: Observers, c: Candidate, head: string) {
    o.probeSymbol.Some?
    && var s := o.probeSymbol.value(SubjectOf(c), head);
       s.available && !s.resolves && s.callers == 0 && s.overrides == 0
  }

  ghost predicate ItemsGreen(o: Observers, c: Candidate, head: string) {
    o.runItem.Some? && c.nodeid.Some?
    && var run := o.runItem.value(head, c.nodeid.value);
       run.reason.None? && run.outcomes != [] && forall item :: item in run.outcomes ==> item.1
  }

  /** The local run could not observe the nodeid, so CI evidence has to. */
  ghost predicate ItemsDeferred(o: Observers, c: Candidate, head: string, config: Config) {
    && !config.ciEvidenceMode.Local?
    && (!IsLocallyObservable(c.nodeid, config)
        || (o.runItem.Some? && o.runItem.value(head, c.nodeid.value).reason == Some(CapabilityUnavailable)))
  }

  function CheckContext(c: Candidate, config: Config): string {
    if c.lane.SkippedTests? && !IsLocallyObservable(c.nodeid, config) then config.integrationSuiteCheckContext
    else config.suiteCheckContext
  }

  /** The criterion is observed to hold at `head`. */
  ghost predicate CriterionMet(o: Observers, c: Candidate, head: string, config: Config, stage: Stage) {
    match (c.lane, stage)
    case (CodeQL, PrePr) => false
    case (CodeQL, PostPr) => AlertAbsent(o, c, head) && SuiteGreen(o, c, head, config.suiteCheckContext, config)
    case (SkippedTests, PrePr) => !ItemsDeferred(o, c, head, config) && ItemsGreen(o, c, head)
    case (SkippedTests, PostPr) => SkipMarkerAbsent(o, c, head)
      && SuiteGreen(o, c, head, CheckContext(c, config), config)
    case (Deprecations, PrePr) => SymbolGone(o, c, head) && config.ciEvidenceMode.Local? && LocalSuiteGreen(o, c, head)
    case (Deprecations, PostPr) => SuiteGreen(o, c, head, config.suiteCheckContext, config)
  }

  /** The verdict is put off to the pull request's own evidence. */
  ghost predicate CriterionDeferred(o: Observers, c: Candidate, head: string, config: Config, stage: Stage) {
    match (c.lane, stage)
    case (CodeQL, PrePr) => config.ciEvidenceMode.Local? ==> LocalSuiteGreen(o, c, head)
    case (SkippedTests, PrePr) => ItemsDeferred(o, c, head, config)
    case (Deprecations, PrePr) => SymbolGone(o, c, head) && !config.ciEvidenceMode.Local?
    case (_, PostPr) => false
  }

  // ---- what the transcript records -----------------------------------------------------------

  /** Every recorded fact was returned by its seam, at the revision `head`. */
  ghost predicate Truthful(lines: seq<Observation>, o: Observers, c: Candidate, head: string) {
    forall line :: line in lines ==>
      match line
      case ItemAt(sha, nodeid, passed) =>
        sha == head && o.runItem.Some? && c.nodeid.Some?
        && (nodeid, passed) in o.runItem.value(head, c.nodeid.value).outcomes
      case SuiteCheckAt(sha, context, green) => sha == head && (green <==> CiSuiteGreen(o, head, context))
      case SuiteRunAt(sha, scope, passed) =>
        sha == head && scope == c.suiteScope && (passed <==> LocalSuiteGreen(o, c, head))
      case AlertAt(sha, present) => sha == head && (!present <==> AlertAbsent(o, c, head))
      case SkipMarkerAt(sha, present) => sha == head && (!present <==> SkipMarkerAbsent(o, c, head))
      case SymbolAt(sha, resolves, callers, overrides) =>
        sha == head && ((!resolves && callers == 0 && overrides == 0) <==> SymbolGone(o, c, head))
      case FailingNodeid(_) => true
      case Note(_) => true
  }

  /** The transcript shows the candidate's covering suite green at `head`. */
  ghost predicate ShowsSuiteGreen(lines: seq<Observation>, c: Candidate, head: string, config: Config) {
    if config.ciEvidenceMode.Local? then SuiteRunAt(head, c.suiteScope, true) in lines
    else SuiteCheckAt(head, CheckContext(c, config), true) in lines
  }

  /** What the two transcripts must show before a human is asked to merge: the lane's defect is gone
      and the covering suite is green, all at the one revision `head`. */
  ghost predicate LaneFacts(c: Candidate, pre: seq<Observation>, post: seq<Observation>, head: string, config: Config) {
    && ShowsSuiteGreen(post, c, head, config)
    && match c.lane
       case CodeQL => AlertAt(head, false) in post
       case SkippedTests => SkipMarkerAt(head, false) in post
       case Deprecations => SymbolAt(head, false, 0, 0) in pre
  }

  /** The part of LaneFacts that one stage contributes. */
  ghost predicate StageFacts(c: Candidate, stage: Stage, lines: seq<Observation>, head: string, config: Config) {
    match stage
    case PrePr => c.lane.Deprecations? ==> SymbolAt(head, false, 0, 0) in lines
    case PostPr =>
      && ShowsSuiteGreen(lines, c, head, config)
      && (c.lane.CodeQL? ==> AlertAt(head, false) in lines)
      && (c.lane.SkippedTests? ==> SkipMarkerAt(head, false) in lines)
  }

  // ---- the evaluators --------------------------------------------------------------------------

  /** The command and observation lists an evaluator shares with the suite check it calls. */
  class Transcript {
    var commands: seq<string>
    var observations: seq<Observation>

    constructor ()
      ensures commands == [] && observations == []
    {
      commands, observations := [], [];
    }

    method Command(text: string)
      modifies this
      ensures commands == old(commands) + [text] && observations == old(observations)
    {
      commands := commands + [text];
    }

    method Observe(line: Observation)
      modifies this
      ensures observations == old(observations) + [line] && commands == old(commands)
    {
      observations := observations + [line];
    }
  }

  function FailingLines(nodeids: seq<string>): (lines: seq<Observation>)
    ensures forall line :: line in lines ==> line.FailingNodeid?
  {
    if nodeids == [] then [] else [FailingNodeid(nodeids[0])] + FailingLines(nodeids[1..])
  }

  function Unobservable(t: seq<string>, detail: string): CriterionEvidence {
    CriterionEvidence(Some(false), PrePr, t, [Note(detail)], Some(CriterionNotMet))
  }

  /** Failing or deferred suite evidence, or nothing when the suite is green. The observed result is
      appended to the caller's transcript either way. */
  method SuiteEvidence(c: Candidate, head: string, o: Observers, t: Transcript, config: Config, context: string,
                       stage: Stage)
    returns (failure: Option<CriterionEvidence>)
    requires Truthful(t.observations, o, c, head)
    modifies t
    ensures Truthful(t.observations, o, c, head)
    ensures old(t.observations) <= t.observations && old(t.commands) <= t.commands
    ensures failure.None? <==>
              SuiteGreen(o, c, head, context, config) && (config.ciEvidenceMode.Local? || stage.PostPr?)
    ensures failure.None? ==>
              if config.ciEvidenceMode.Local? then SuiteRunAt(head, c.suiteScope, true) in t.observations
              else SuiteCheckAt(head, context, true) in t.observations
    ensures failure.Some? ==>
              failure.value.satisfied == if !config.ciEvidenceMode.Local? && stage.PrePr? then None else Some(false)
    ensures failure.Some? && failure.value.satisfied.None? ==> failure.value.observations == old(t.observations)
    ensures failure.Some? ==> Truthful(failure.value.observations, o, c, head)
  {
    if !config.ciEvidenceMode.Local? {
      if !stage.PostPr? {
        return Some(CriterionEvidence(None, stage, t.commands, t.observations, Some(CiEvidenceUnavailable)));
      }
      if o.readCiSuite.None? {
        return Some(CriterionEvidence(Some(false), stage, t.commands, t.observations, Some(CiEvidenceUnavailable)));
      }
      var suite := o.readCiSuite.value(head, context);
      t.Command(suite.command);
      t.Observe(SuiteCheckAt(head, context, suite.reason.None? && suite.passed));
      if suite.reason.Some? {
        return Some(CriterionEvidence(Some(false), stage, t.commands, t.observations, suite.reason));
      }
      if !suite.passed {
        t.observations := t.observations + FailingLines(suite.failingNodeids);
        return Some(CriterionEvidence(Some(false), stage, t.commands, t.observations, Some(SuiteRegressed)));
      }
      assert t.observations[|t.observations| - 1] == SuiteCheckAt(head, context, true);
      return None;
    }
    if o.runSuite.None? {
      return Some(Unobservable(t.commands, "no local checkout was available to run the suite over suite_scope"));
    }
    var suite := o.runSuite.value(c.suiteScope, head);
    t.Command(suite.command);
    t.Observe(SuiteRunAt(head, c.suiteScope, suite.passed));
    if suite.passed {
      assert t.observations[|t.observations| - 1] == SuiteRunAt(head, c.suiteScope, true);
      return None;
    }
    t.observations := t.observations + FailingLines(suite.failingNodeids);
    return Some(CriterionEvidence(Some(false), PrePr, t.commands, t.observations, Some(SuiteRegressed)));
  }

  /** The contract every evaluator meets: the verdict is exactly what the seams say, and the evidence
      records facts, and only facts, observed at `head`. */
  ghost predicate Verdict(e: CriterionEvidence, o: Observers, c: Candidate, head: string, config: Config, stage: Stage)
  {
    && (e.satisfied == Some(true) <==> CriterionMet(o, c, head, config, stage))
    && (e.satisfied == None <==> CriterionDeferred(o, c, head, config, stage))
    && Truthful(e.observations, o, c, head)
    && (e.satisfied == Some(true) ==> e.stage == stage)
    && ((stage.PostPr? && e.satisfied == Some(true)) || (stage.PrePr? && e.satisfied != Some(false))
        ==> StageFacts(c, stage, e.observations, head, config))
  }

  function ItemLines(outcomes: seq<(string, bool)>, head: string): (lines: seq<Observation>)
    ensures |lines| == |outcomes|
    ensures forall k :: 0 <= k < |lines| ==> lines[k] == ItemAt(head, outcomes[k].0, outcomes[k].1)
  {
    seq(|outcomes|, k requires 0 <= k < |outcomes| => ItemAt(head, outcomes[k].0, outcomes[k].1))
  }

  method VerifyLane2(c: Candidate, head: string, o: Observers, config: Config) returns (e: CriterionEvidence)
    requires c.lane.SkippedTests?
    ensures Verdict(e, o, c, head, config, PrePr)
  {
    if !config.ciEvidenceMode.Local? && !IsLocallyObservable(c.nodeid, config) {
      return CriterionEvidence(None, PrePr, [], [Note("deferred to CI evidence at the PR head")],
                               Some(CiEvidenceUnavailable));
    }
    if o.runItem.None? || c.nodeid.None? {
      return Unobservable([], "no local checkout was available to run the nodeid");
    }
    var headRun := o.runItem.value(head, c.nodeid.value);
    var commands := [headRun.command];
    var observations := ItemLines(headRun.outcomes, head);
    assert forall item :: item in headRun.outcomes ==> item == (item.0, item.1);
    if headRun.reason.Some? {
      if !config.ciEvidenceMode.Local? && headRun.reason == Some(CapabilityUnavailable) {
        return CriterionEvidence(None, PrePr, commands,
          observations + [Note("test capability was unavailable at head"),
                          Note("deferred to CI evidence at the PR head")],
          Some(CiEvidenceUnavailable));
      }
      return CriterionEvidence(Some(false), PrePr, commands,
        observations + [Note("test capability was unavailable at head")], headRun.reason);
    }
    var green := headRun.outcomes != [] && forall item <- headRun.outcomes :: item.1;
    if !green {
      return CriterionEvidence(Some(false), PrePr, commands, observations, Some(GreenNotReached));
    }
    return CriterionEvidence(Some(true), PrePr, commands, observations, None);
  }

  method VerifyLane1(c: Candidate, head: string, o: Observers, config: Config, stage: Stage)
    returns (e: CriterionEvidence)
    requires c.lane.CodeQL?
    ensures Verdict(e, o, c, head, config, stage)
  {
    var t := new Transcript();
    if stage.PrePr? {
      var suiteFailure := SuiteEvidence(c, head, o, t, config, config.suiteCheckContext, stage);
      if suiteFailure.Some? {
        return suiteFailure.value;
      }
      t.Observe(Note("alert absence is observed at the post_pr stage"));
      return CriterionEvidence(None, PrePr, t.commands, t.observations, None);
    }
    if o.probeAlerts.None? {
      return Unobservable(t.commands, "alerts could not be read at the candidate head");
    }
    var observation := o.probeAlerts.value(SubjectOf(c), head);
    t.Command(observation.command);
    if !observation.available {
      return CriterionEvidence(Some(false), PostPr, t.commands, [Note("alert analysis did not complete in time")],
                               Some(CriterionNotMet));
    }
    var present := c.stableLocator in observation.locators;
    t.Observe(AlertAt(head, present));
    if present {
      return CriterionEvidence(Some(false), PostPr, t.commands, t.observations, Some(AlertStillPresent));
    }
    assert t.observations[0] == AlertAt(head, false);
    var suiteFailure := SuiteEvidence(c, head, o, t, config, config.suiteCheckContext, stage);
    if suiteFailure.Some? {
      return suiteFailure.value;
    }
    assert t.observations[0] == AlertAt(head, false);
    return CriterionEvidence(Some(true), PostPr, t.commands, t.observations, None);
  }

  method VerifyLane3(c: Candidate, head: string, o: Observers, config: Config) returns (e: CriterionEvidence)
    requires c.lane.Deprecations?
    ensures Verdict(e, o, c, head, config, PrePr)
  {
    if o.probeSymbol.None? {
      return Unobservable([], "no local checkout was available to re-check the symbol at head");
    }
    var observation := o.probeSymbol.value(SubjectOf(c), head);
    var t := new Transcript();
    t.Command(observation.command);
    if !observation.available {
      return CriterionEvidence(Some(false), PrePr, t.commands, [Note("symbol source observation unavailable")],
                               Some(CapabilityUnavailable));
    }
    t.Observe(SymbolAt(head, observation.resolves, observation.callers, observation.overrides));
    if observation.resolves || observation.callers > 0 || observation.overrides > 0 {
      return CriterionEvidence(Some(false), PrePr, t.commands, t.observations, Some(SymbolStillReferenced));
    }
    assert t.observations[0] == SymbolAt(head, false, 0, 0);
    var suiteFailure := SuiteEvidence(c, head, o, t, config, config.suiteCheckContext, PrePr);
    if suiteFailure.Some? {
      return suiteFailure.value;
    }
    assert t.observations[0] == SymbolAt(head, false, 0, 0);
    return CriterionEvidence(Some(true), PrePr, t.commands, t.observations, None);
  }

  /** Evaluate the candidate's lane criterion at the requested stage. */
  method VerifyCandidate(c: Candidate, head: string, o: Observers, config: Config, stage: Stage)
    returns (e: CriterionEvidence)
    ensures Verdict(e, o, c, head, config, stage)
  {
    match c.lane
    case CodeQL =>
      e := VerifyLane1(c, head, o, config, stage);
    case SkippedTests =>
      if stage.PrePr? {
        e := VerifyLane2(c, head, o, config);
        return;
      }
      var context := if IsLocallyObservable(c.nodeid, config) then config.suiteCheckContext
                     else config.integrationSuiteCheckContext;
      if o.probeSkipMarker.None? {
        return CriterionEvidence(Some(false), PostPr, [], [Note("skip-marker observation seam is unavailable")],
                                 Some(CapabilityUnavailable));
      }
      var marker := o.probeSkipMarker.value(SubjectOf(c), head);
      var t := new Transcript();
      t.Command(marker.command);
      if !marker.available {
        return CriterionEvidence(Some(false), PostPr, t.commands, [Note("skip-marker observation unavailable")],
                                 Some(CapabilityUnavailable));
      }
      t.Observe(SkipMarkerAt(head, marker.present));
      if marker.present {
        return CriterionEvidence(Some(false), PostPr, t.commands, t.observations, Some(GreenNotReached));
      }
      assert t.observations[0] == SkipMarkerAt(head, false);
      var suiteFailure := SuiteEvidence(c, head, o, t, config, context, PostPr);
      if suiteFailure.Some? {
        return suiteFailure.value;
      }
      assert t.observations[0] == SkipMarkerAt(head, false);
      return CriterionEvidence(Some(true), PostPr, t.commands, t.observations, None);
    case Deprecations =>
      if stage.PrePr? {
        e := VerifyLane3(c, head, o, config);
        return;
      }
      var t := new Transcript();
      var suiteFailure := SuiteEvidence(c, head, o, t, config, config.suiteCheckContext, PostPr);
      if suiteFailure.Some? {
        return suiteFailure.value;
      }
      return CriterionEvidence(Some(true), PostPr, t.commands, t.observations, None);
  }

  /** Across the two stages: a pre-PR verdict that did not fail and a satisfied post-PR verdict at the
      same revision show every fact of the lane at that revision, and the seams really returned it. */
  lemma TwoStagesShowLaneFacts(pre: CriterionEvidence, post: CriterionEvidence, before: Observers, after: Observers,
                               c: Candidate, c': Candidate, head: string, config: Config)
    requires c.lane == c'.lane
    requires Verdict(pre, before, c, head, config, PrePr) && Verdict(post, after, c', head, config, PostPr)
    requires pre.satisfied != Some(false) && post.satisfied == Some(true)
    ensures LaneFacts(c', pre.observations, post.observations, head, config)
    ensures SuiteGreen(after, c', head, CheckContext(c', config), config)
    ensures c.lane.CodeQL? ==> AlertAbsent(after, c', head)
    ensures c.lane.SkippedTests? ==> SkipMarkerAbsent(after, c', head)
    ensures c.lane.Deprecations? ==> SymbolGone(before, c, head)
  {
    assert CriterionMet(after, c', head, config, PostPr);
    if pre.satisfied.Some? { assert pre.satisfied.value; }
    assert CriterionMet(before, c, head, config, PrePr) || CriterionDeferred(before, c, head, config, PrePr);
  }

  /** A verdict depends on the columns enumeration fixes, not on what the pipeline wrote since. */
  lemma VerdictOfSameSubject(e: CriterionEvidence, o: Observers, c: Candidate, c': Candidate, head: string,
                             config: Config, stage: Stage)
    requires SubjectOf(c) == SubjectOf(c')
    ensures Verdict(e, o, c, head, config, stage) <==> Verdict(e, o, c', head, config, stage)
  {
    assert forall lines :: Truthful(lines, o, c, head) <==> Truthful(lines, o, c', head);
  }

  /** A deprecation is not probed again once the pull request exists: its post-PR verdict says nothing
      about the symbol, which is why the pre-PR transcript has to show it. */
  lemma PostPrIgnoresSymbol(o: Observers, c: Candidate, head: string, config: Config, back: SymbolObservation)
    requires c.lane.Deprecations? && CriterionMet(o, c, head, config, PostPr)
    ensures CriterionMet(o.(probeSymbol := Some((x, sha) => back)), c, head, config, PostPr)
  {}
}
