/**
 `CandidateRunner` of src/pipeline/__main__.py: one candidate walks through reconcile, issue, branch and
 session, verify, pull request and settlement, appending a durable row between remote effects. Every
 method keeps the host's trace an execution of the protocol, wherever it returns, fails or dies.
 */
module Runner {
  import opened Wrappers
  import opened Schemas
  import opened Settlement
  import opened Markers
  import opened MarkerIndex
  import opened Protocol
  import opened Host
  import opened StateStore
  import opened Client
  import CheckRuns
  import Sessions
  import Verify

  datatype RunConfig = RunConfig(
    run: Run,
    baseSha: string,
    branchPrefix: string,
    ciWaitTimeout: real,
    pollInterval: real)

  const MAX_SESSION_ATTEMPTS := 2

  predicate Publishing(action: Option<Action>) {
    action == Some(OpenPr) || action == Some(OpenIssue)
  }

  /** States that end a candidate's turn. */
  predicate Ended(s: CandidateState) {
    s.Terminal? || s.Deferred? || s.Merged? || s.AwaitingHumanMerge?
  }

  /** Ids the marker pattern and the branch name can carry. */
  predicate PlainId(id: string) {
    ScannableId(id) && '/' !in id
  }

  // ---- candidate and log ---------------------------------------------------------------------

  predicate SameIdentity(p: Candidate, c: Candidate) {
    && c.candidateId == p.candidateId && c.nodeid == p.nodeid && c.artifactSimulated == p.artifactSimulated
    && c.issueNumber == p.issueNumber && c.issueUrl == p.issueUrl
    && c.prNumber == p.prNumber && c.prUrl == p.prUrl
    && c.headBranch == p.headBranch && c.headSha == p.headSha
    && c.mergedAt == p.mergedAt && c.mergeVerified == p.mergeVerified
  }

  predicate NoIdentity(c: Candidate) {
    && c.issueNumber.None? && c.issueUrl.None? && c.prNumber.None? && c.prUrl.None?
    && c.headBranch.None? && c.headSha.None? && c.mergedAt.None? && !c.mergeVerified && !c.artifactSimulated
  }

  /** What normalization hands to the runner: the persisted identity when the last row links an
      artifact, a bare candidate otherwise. */
  predicate Normalized(log: seq<Candidate>, c: Candidate) {
    var p := Latest(log, c.candidateId);
    if p.Some? && HasLocalArtifact(p.value) then SameIdentity(p.value, c) else NoIdentity(c)
  }

  /** The candidate's node is the one its id stands for. */
  predicate Placed(w: World, c: Candidate) {
    c.nodeid == NodeOf(w, c.candidateId)
  }

  /** `c` carries all that the last row made durable. */
  predicate Continues(log: seq<Candidate>, c: Candidate) {
    var p := Latest(log, c.candidateId);
    p.Some? ==> Keeps(p.value, c)
  }

  predicate Keeps(p: Candidate, c: Candidate) {
    && (p.issueNumber.Some? ==> c.issueNumber.Some?) && (p.issueUrl.Some? ==> c.issueUrl.Some?)
    && (p.prNumber.Some? ==> c.prNumber.Some?) && (p.prUrl.Some? ==> c.prUrl.Some?)
    && (p.headSha.Some? ==> c.headSha.Some?) && (p.mergedAt.Some? ==> c.mergedAt.Some?)
    && (p.mergeVerified ==> c.mergeVerified)
    && (p.headBranch.Some? ==> c.headBranch == p.headBranch)
  }

  /** A volatile candidate whose artifacts are real and which forgets nothing durable. */
  ghost predicate Working(s: Snapshot, c: Candidate) {
    IdentityKnown(s.world, c) && Continues(s.log, c)
  }

  /** The log's last word on the candidate is the state and reason of `c`. */
  predicate Reported(log: seq<Candidate>, c: Candidate) {
    var p := Latest(log, c.candidateId);
    p.Some? && p.value.state == c.state && p.value.reason == c.reason
  }

  predicate MayAppend(log: seq<Candidate>, row: Candidate) {
    var p := Latest(log, row.candidateId);
    p.Some? ==> MayFollow(p.value, row)
  }

  lemma SettledMayAppend(log: seq<Candidate>, row: Candidate)
    requires Continues(log, row) && IsSettled(row.state)
    requires var p := Latest(log, row.candidateId); p.Some? ==> !p.value.state.Merged? || row.state.Merged?
    ensures MayAppend(log, row)
  {}

  /** A row that differs in other fields only is as sound as the candidate it was copied from. */
  lemma SameIdentityWorks(s: Snapshot, c: Candidate, row: Candidate)
    requires Working(s, c) && SameIdentity(c, row)
    ensures Working(s, row)
    ensures Unsettled(s.log, c.candidateId) ==> MayAppend(s.log, row)
  {}

  lemma NormalizedWorks(s: Snapshot, c: Candidate)
    requires Invariant(s) && Normalized(s.log, c) && Placed(s.world, c)
    ensures Working(s, c)
  {
    var p := Latest(s.log, c.candidateId);
    if p.Some? {
      LoggedRowIsKnown(s, p.value);
    }
  }

  lemma LoggedRowIsKnown(s: Snapshot, row: Candidate)
    requires Invariant(s) && row in s.log
    ensures RowKnown(s.world, row)
  {
    var k :| 0 <= k < |s.log| && s.log[k] == row;
    assert RowKnown(s.world, s.log[k]);
  }

  lemma LaterKeepsWorking(s: Snapshot, s': Snapshot, c: Candidate)
    requires Working(s, c) && Later(s.world, s'.world) && s'.log == s.log
    ensures Working(s', c)
  {
    LaterKeepsIdentity(s.world, s'.world, c);
  }

  /** The identity a turn starts from: the persisted row's, then the marker-matched issue's. */
  function Adopted(c: Candidate, persisted: Option<Candidate>, artifact: Option<MarkerArtifact>,
                   baseSha: string): Candidate
  {
    var based := c.(baseSha := Some(OrElse(c.baseSha, baseSha)));
    var resumed := match persisted
      case None => based
      case Some(p) =>
        based.(issueNumber := p.issueNumber, issueUrl := p.issueUrl, prNumber := p.prNumber, prUrl := p.prUrl,
               headBranch := OrOption(p.headBranch, c.headBranch), headSha := OrOption(p.headSha, c.headSha),
               mergedAt := p.mergedAt, sessionId := OrOption(p.sessionId, c.sessionId));
    match artifact
    case None => resumed
    case Some(a) => resumed.(issueNumber := Some(a.number), issueUrl := Some(a.url))
  }

  lemma AdoptedWorks(s: Snapshot, c: Candidate, artifact: Option<MarkerArtifact>, baseSha: string)
    requires Invariant(s) && Normalized(s.log, c) && Placed(s.world, c)
    requires artifact.Some? ==> HasIssue(s.world, artifact.value.number, artifact.value.url, c.candidateId)
    ensures Working(s, Adopted(c, Latest(s.log, c.candidateId), artifact, baseSha))
  {
    var p := Latest(s.log, c.candidateId);
    if p.Some? {
      LoggedRowIsKnown(s, p.value);
    }
  }

  function RStripSlash(prefix: string): string {
    if prefix != "" && prefix[|prefix| - 1] == '/' then RStripSlash(prefix[..|prefix| - 1]) else prefix
  }

  function BranchName(prefix: string, id: string): (branch: string)
    ensures OwnBranch(branch, id) && branch != ""
  {
    var branch := RStripSlash(prefix) + "/" + id;
    assert branch[|branch| - |id| - 1..] == "/" + id;
    branch
  }

  /** A row of this run put the pre-PR verdict on record for this head. */
  ghost predicate VerifiedOnRecord(log: seq<Candidate>, c: Candidate, run: Run) {
    c.headSha.Some? && exists v :: v in log && v.candidateId == c.candidateId && Underpins(v, c, run)
  }

  lemma RecordSurvives(log: seq<Candidate>, log': seq<Candidate>, c: Candidate, c': Candidate, run: Run)
    requires VerifiedOnRecord(log, c, run) && log <= log'
    requires c'.headSha == c.headSha && Verify.SubjectOf(c') == Verify.SubjectOf(c)
    ensures VerifiedOnRecord(log', c', run)
  {
    hide JudgedBefore;
    var v :| v in log && v.candidateId == c.candidateId && Underpins(v, c, run);
    assert v in log' && Underpins(v, c', run);
  }

  /** The row after the tracking issue was adopted or created. */
  function IssueRow(config: RunConfig, c: Candidate, number: nat, url: string, adopted: bool): Candidate {
    c.(runId := Some(config.run.id), state := CandidateState.IssueCreated,
       issueNumber := Some(number), issueUrl := Some(url), issueAdopted := adopted)
  }

  lemma IssueRowWorks(config: RunConfig, s: Snapshot, c: Candidate, number: nat, url: string, adopted: bool)
    requires Working(s, c) && Unsettled(s.log, c.candidateId) && HasIssue(s.world, number, url, c.candidateId)
    ensures Working(s, IssueRow(config, c, number, url, adopted))
    ensures MayAppend(s.log, IssueRow(config, c, number, url, adopted))
  {}

  /** The row that makes the branch name durable. */
  function PreparedRow(config: RunConfig, c: Candidate): Candidate {
    c.(runId := Some(config.run.id), state := CandidateState.Dispatching,
       headBranch := Some(OrElse(c.headBranch, BranchName(config.branchPrefix, c.candidateId))),
       baseSha := Some(OrElse(c.baseSha, config.baseSha)))
  }

  lemma PreparedRowWorks(config: RunConfig, s: Snapshot, c: Candidate)
    requires Working(s, c) && Unsettled(s.log, c.candidateId) && c.issueNumber.Some?
    ensures Working(s, PreparedRow(config, c)) && MayAppend(s.log, PreparedRow(config, c))
  {
    assert c.headBranch.Some? ==> c.headBranch.value != "";
  }

  /** Recording a head commit keeps a candidate sound. */
  lemma HeadWorks(s: Snapshot, c: Candidate, row: Candidate)
    requires Working(s, c) && c.headBranch.Some? && row.headSha.Some?
    requires SameIdentity(c.(headSha := row.headSha), row)
    ensures Working(s, row)
    ensures Unsettled(s.log, c.candidateId) ==> MayAppend(s.log, row)
  {}

  /** The row that makes a session's id durable before the session is polled. */
  function RecordedRow(config: RunConfig, c: Candidate, sessionId: string): Candidate {
    c.(runId := Some(config.run.id), sessionId := Some(sessionId))
  }

  /** The row of a session whose output was accepted. */
  function SessionRow(config: RunConfig, c: Candidate, attempt: nat, sessionId: string, headSha: string): Candidate {
    c.(runId := Some(config.run.id), state := CandidateState.SessionDone, sessionId := Some(sessionId),
       sessionAttempts := attempt, headSha := Some(headSha))
  }

  /** The candidate after the orchestrator's own pre-PR evaluation at its head. */
  function EvaluatedRow(config: RunConfig, c: Candidate, evidence: CriterionEvidence): Candidate {
    c.(runId := Some(config.run.id), state := CandidateState.Verified, criterionEvidence := Some(evidence))
  }

  /** The row that defers a candidate because a call failed. */
  function UnavailableRow(config: RunConfig, c: Candidate): Candidate {
    c.(runId := Some(config.run.id), state := CandidateState.Deferred, reason := Some(CapabilityUnavailable))
  }

  /** The session's id was durable while the candidate was still being dispatched. */
  ghost predicate SessionOnRecord(log: seq<Candidate>, id: string, sessionId: string) {
    exists row :: row in log && row.candidateId == id && row.state.Dispatching? && row.sessionId == Some(sessionId)
  }

  lemma SessionStaysOnRecord(log: seq<Candidate>, log': seq<Candidate>, id: string, sessionId: string)
    requires SessionOnRecord(log, id, sessionId) && log <= log'
    ensures SessionOnRecord(log', id, sessionId)
  {
    var row :| row in log && row.candidateId == id && row.state.Dispatching? && row.sessionId == Some(sessionId);
    assert row in log';
  }

  /** The branch existed at some moment since snapshot `from`, when no more than `sessions` were requested. */
  ghost predicate BranchSeen(states: seq<Snapshot>, from: int, branch: string, sessions: nat) {
    exists k :: 0 <= k < |states| && from <= k && branch in states[k].world.branches
             && SessionCount(states[k].world.ledger) == sessions
  }

  lemma BranchStaysSeen(states: seq<Snapshot>, states': seq<Snapshot>, from: int, branch: string, sessions: nat)
    requires BranchSeen(states, from, branch, sessions) && states <= states'
    ensures BranchSeen(states', from, branch, sessions)
  {
    var k :| 0 <= k < |states| && from <= k && branch in states[k].world.branches
          && SessionCount(states[k].world.ledger) == sessions;
    assert states'[k] == states[k];
  }

  /** The row was durable at some moment since snapshot `from`, when nothing more than `ledger` was written. */
  ghost predicate DurableFirst(states: seq<Snapshot>, from: int, row: Candidate, ledger: seq<RemoteWrite>) {
    exists k :: 0 <= k < |states| && from <= k && row in states[k].log && states[k].world.ledger == ledger
  }

  lemma StaysDurable(states: seq<Snapshot>, states': seq<Snapshot>, from: int, row: Candidate, ledger: seq<RemoteWrite>)
    requires DurableFirst(states, from, row, ledger) && states <= states'
    ensures DurableFirst(states', from, row, ledger)
  {
    var k :| 0 <= k < |states| && from <= k && row in states[k].log && states[k].world.ledger == ledger;
    assert states'[k] == states[k];
  }

  class CandidateRunner {
    const config: RunConfig
    const host: Host
    const store: CandidateStateStore
    const client: GitHubClient
    const sessions: Sessions.SessionClient

    constructor (config: RunConfig, host: Host, store: CandidateStateStore, client: GitHubClient,
                 sessions: Sessions.SessionClient)
      requires store.host == host && client.host == host && store.Valid() && store.indexConfigured
      requires config.run.verify.ciEvidenceMode.Actions? && config.pollInterval > 0.0 && config.run in host.runs
      ensures Ready() && fresh(this)
      ensures this.config == config && this.host == host && this.store == store
      ensures this.client == client && this.sessions == sessions
    {
      this.config, this.host, this.store, this.client, this.sessions := config, host, store, client, sessions;
    }

    /** A LIVE runner over one host. */
    ghost predicate Ready()
      reads this, host, store
    {
      && store.host == host && client.host == host
      && store.Valid() && store.indexConfigured
      && config.run.verify.ciEvidenceMode.Actions? && config.pollInterval > 0.0 && config.run in host.runs
    }

    /** What every stage guarantees about one candidate's turn, whether it returns or fails. */
    ghost predicate After(id: string, before: Snapshot, r: Result<Candidate, Failure>)
      reads this, host, store
    {
      && Ready() && id in store.started
      && Advances(id, before, host.Now())
      && (r.Failure? ==> r.error.Killed? || r.error.Aborted? || (Deferrable(r.error) && Unsettled(host.log, id)))
      && (r.Success? ==> r.value.candidateId == id && Reported(host.log, r.value))
    }

    // ---- persistence -----------------------------------------------------------------------------

    /** An append failed: the process died, or the file could not be written and is as it was. */
    ghost predicate NotWritten(f: Failure, log: seq<Candidate>)
      reads host
    {
      f.Killed? || (f.Unavailable? && host.log == log)
    }

    /** Append one lifecycle row. The settlement rule never stands in its way. */
    method Persist(row: Candidate) returns (r: Result<Candidate, Failure>)
      requires Ready() && row.candidateId in store.started
      requires Working(host.Now(), row) && MayAppend(host.log, row)
      requires row.state.Merged? ==> row.mergedAt.Some?
      requires row.state.AwaitingHumanMerge? ==> Handover(host.log, row, config.run)
      modifies host
      ensures Ready() && old(host.states) <= host.states
      ensures Advances(row.candidateId, old(host.Now()), host.Now()) && host.world == old(host.world)
      ensures r.Success? ==>
                r.value == row && Latest(host.log, row.candidateId) == Some(row) && Working(host.Now(), row)
      ensures r.Success? ==> row in host.log
      ensures r.Failure? ==> NotWritten(r.error, old(host.log))
    {
      var appended := store.Append(row, config.run);
      if appended.Failure? {
        return Failure(appended.error);
      }
      r := Success(row);
    }

    method Terminal(c: Candidate, reason: ReasonCode) returns (r: Result<Candidate, Failure>)
      requires Ready() && c.candidateId in store.started
      requires Working(host.Now(), c) && Unsettled(host.log, c.candidateId)
      modifies host
      ensures After(c.candidateId, old(host.Now()), r)
      ensures old(host.states) <= host.states && host.world == old(host.world)
      ensures r.Success? ==>
                && r.value == c.(runId := Some(config.run.id), state := CandidateState.Terminal, reason := Some(reason))
                && Latest(host.log, c.candidateId) == Some(r.value)
      ensures r.Failure? ==> NotWritten(r.error, old(host.log))
    {
      var row := c.(runId := Some(config.run.id), state := CandidateState.Terminal, reason := Some(reason));
      SameIdentityWorks(host.Now(), c, row);
      r := Persist(row);
    }

    method Defer(c: Candidate, reason: ReasonCode) returns (r: Result<Candidate, Failure>)
      requires Ready() && c.candidateId in store.started
      requires Working(host.Now(), c) && Unsettled(host.log, c.candidateId)
      modifies host
      ensures After(c.candidateId, old(host.Now()), r)
      ensures old(host.states) <= host.states && host.world == old(host.world)
      ensures r.Success? ==>
                && r.value == c.(runId := Some(config.run.id), state := CandidateState.Deferred, reason := Some(reason))
                && Latest(host.log, c.candidateId) == Some(r.value)
      ensures r.Failure? ==> NotWritten(r.error, old(host.log))
    {
      var row := c.(runId := Some(config.run.id), state := CandidateState.Deferred, reason := Some(reason));
      SameIdentityWorks(host.Now(), c, row);
      r := Persist(row);
    }

    // ---- calls made during one candidate's turn ------------------------------------------------

    /** Another party's call moved the world on; the runner stays ready. */
    lemma StillReady(id: string, before: Snapshot)
      requires store.host == host && client.host == host && store.indexConfigured
      requires config.run.verify.ciEvidenceMode.Actions? && config.pollInterval > 0.0 && config.run in host.runs
      requires store.Memo() && host.Valid() && id in store.started
      requires store.markerIndex.Some? && !store.markerIndexFailed ==>
                 Scoped(before.world, store.indexed, store.started)
      requires Advances(id, before, host.Now())
      ensures Ready()
    {
      store.ScopeKept(id, before);
    }

    /** Time passed and nothing was written, neither to the fork nor to the state file. */
    ghost predicate OnlyTimePassed(id: string, before: Snapshot)
      reads this, host, store
    {
      && Ready() && id in store.started
      && Advances(id, before, host.Now())
      && host.log == before.log && host.world.ledger == before.world.ledger
    }

    method ReadPull(id: string, number: nat) returns (r: Result<Option<Pull>, Failure>)
      requires Ready() && id in store.started
      modifies host
      ensures OnlyTimePassed(id, old(host.Now())) && old(host.states) <= host.states
      ensures r.Success? && r.value.Some? ==> r.value.value in host.world.pulls && r.value.value.number == number
      ensures r.Failure? ==> TransportFailure(r.error)
    {
      r := host.ReadPull(number);
      StillReady(id, old(host.Now()));
    }

    /** The last row is settled and an artifact is known, from the row or from the marker. */
    ghost predicate KeptAsSettled(id: string)
      reads store, store.host, host
    {
      var p := Latest(host.log, id);
      p.Some? && IsSettled(p.value.state) && store.ArtifactKnown(id)
    }

    method ResumeCandidate(id: string) returns (decision: ResumeDecision)
      requires Ready() && id in store.markerOutcomes
      ensures var p := Latest(host.log, id); p.Some? && SettledWithArtifact(p.value) ==> decision.Skip?
      ensures decision.Skip? <==> KeptAsSettled(id)
    {
      decision := store.ResumeCandidate(id);
    }

    method BranchSha(id: string, branch: string) returns (r: Result<Option<string>, Failure>)
      requires Ready() && id in store.started
      modifies host
      ensures OnlyTimePassed(id, old(host.Now())) && old(host.states) <= host.states
      ensures r.Success? && r.value.Some? ==> r.value.value != "" && branch in host.world.branches
      ensures r.Failure? ==> TransportFailure(r.error)
    {
      r := host.BranchSha(branch);
      StillReady(id, old(host.Now()));
    }

    /** Any other read, or a local file operation. */
    method Consult(id: string) returns (failure: Option<Failure>)
      requires Ready() && id in store.started
      modifies host
      ensures OnlyTimePassed(id, old(host.Now())) && old(host.states) <= host.states
      ensures failure.Some? ==> TransportFailure(failure.value)
    {
      failure := host.Request();
      StillReady(id, old(host.Now()));
    }

    /** The fork may have been written to, for this candidate; the state file was not. */
    ghost predicate OnlyForkChanged(id: string, before: Snapshot)
      reads this, host, store
    {
      Ready() && id in store.started && Advances(id, before, host.Now()) && host.log == before.log
    }

    method EnsureLabels(id: string, labels: seq<string>) returns (failure: Option<Failure>)
      requires Ready() && id in store.started
      modifies host, client
      ensures OnlyForkChanged(id, old(host.Now())) && old(host.states) <= host.states
      ensures NoIssueWrite(old(host.world), id) ==> NoIssueWrite(host.world, id)
      ensures TracksOnly(old(host.world.ledger), host.world.ledger)
      ensures failure.Some? ==> TransportFailure(failure.value)
    {
      ghost var before := host.Now();
      for k := 0 to |labels|
        invariant OnlyForkChanged(id, before) && old(host.states) <= host.states
        invariant NoIssueWrite(before.world, id) ==> NoIssueWrite(host.world, id)
        invariant TracksOnly(before.world.ledger, host.world.ledger)
      {
        ghost var here := host.Now();
        var ensured := client.EnsureLabel(labels[k]);
        StillReady(id, here);
        AdvancesTransitive(id, before, here, host.Now());
        if ensured.Failure? {
          return Some(ensured.error);
        }
      }
      failure := None;
    }

    /** No run wrote an issue for the candidate, unless the index search missed issues. */
    ghost predicate MayTrack(id: string)
      reads host, store
    {
      store.missed || NoIssueWrite(host.world, id)
    }

    method ReconcileIssue(id: string, body: string, number: Option<nat>, url: Option<string>)
      returns (r: Result<(nat, string, bool), Failure>)
      requires Ready() && id in store.started && Carries(body, id)
      requires if number.Some? && url.Some? then HasIssue(host.world, number.value, url.value, id)
               else Untracked(host.log, id) && MayTrack(id)
      modifies host
      ensures OnlyForkChanged(id, old(host.Now())) && old(host.states) <= host.states
      ensures r.Success? ==> HasIssue(host.world, r.value.0, r.value.1, id)
      ensures TracksOnly(old(host.world.ledger), host.world.ledger)
      ensures r.Failure? ==> TransportFailure(r.error)
    {
      r := client.ReconcileIssue(id, body, number, url, store.missed);
      StillReady(id, old(host.Now()));
    }

    method PostBranch(id: string, branch: string, sha: string) returns (r: Result<(), Failure>)
      requires Ready() && id in store.started
      requires Latest(host.log, id).Some? && Latest(host.log, id).value.headBranch == Some(branch)
      requires Unsettled(host.log, id)
      modifies host
      ensures OnlyForkChanged(id, old(host.Now())) && old(host.states) <= host.states
      ensures NoSessions(old(host.world.ledger), host.world.ledger)
      ensures r.Success? ==> branch in host.world.branches
      ensures r.Failure? ==> TransportFailure(r.error)
    {
      r := host.PostBranch(id, branch, sha);
      StillReady(id, old(host.Now()));
    }

    method PostSession(id: string) returns (r: Result<(), Failure>)
      requires Ready() && id in store.started
      requires Latest(host.log, id).Some? && Latest(host.log, id).value.headBranch.Some? && Unsettled(host.log, id)
      modifies host
      ensures OnlyForkChanged(id, old(host.Now())) && old(host.states) <= host.states
      ensures SessionCount(host.world.ledger) <= SessionCount(old(host.world.ledger)) + 1
      ensures AnsweredCount(host.world.ledger) == AnsweredCount(old(host.world.ledger)) + if r.Success? then 1 else 0
      ensures r.Failure? ==> TransportFailure(r.error)
    {
      r := host.PostSession(id);
      StillReady(id, old(host.Now()));
    }

    method ReconcilePullRequest(id: string, head: string, number: Option<nat>, url: Option<string>)
      returns (r: Result<(nat, string, bool), Failure>)
      requires Ready() && id in store.started
      requires Latest(host.log, id).Some? && Latest(host.log, id).value.headBranch == Some(head)
      requires Unsettled(host.log, id)
      requires number.Some? <==> url.Some?
      requires number.Some? ==> HasPull(host.world, number.value, url.value, head)
      requires number.None? ==> Latest(host.log, id).value.prNumber.None?
      modifies host
      ensures OnlyForkChanged(id, old(host.Now())) && old(host.states) <= host.states
      ensures client.Reconciled(r, host.world, head)
      ensures NoSessions(old(host.world.ledger), host.world.ledger)
    {
      r := client.ReconcilePullRequest(id, head, number, url);
      StillReady(id, old(host.Now()));
    }

    lemma TimeKeepsWorking(id: string, s: Snapshot, s': Snapshot, c: Candidate)
      requires Working(s, c) && Advances(id, s, s') && s'.log == s.log
      ensures Working(s', c)
    {
      LaterKeepsWorking(s, s', c);
    }

    // ---- reconcile -------------------------------------------------------------------------------

    /** Adopt persisted and fork-side identity. Writes nothing to the fork; only a candidate whose
        marker is found or proven absent goes on, and then either its issue is known or none was ever
        written for it. */
    method Reconcile(c: Candidate) returns (r: Result<Candidate, Failure>)
      requires Ready() && c.candidateId !in store.started && PlainId(c.candidateId)
      requires Normalized(host.log, c) && Placed(host.world, c) && c.state.Dispatching?
      modifies host, store
      ensures Ready() && old(host.states) <= host.states
      ensures store.started <= old(store.started) + {c.candidateId}
      ensures Advances(c.candidateId, old(host.Now()), host.Now()) && host.world.ledger == old(host.world.ledger)
      ensures r.Failure? ==> r.error.Killed? || (r.error.Unavailable? && c.candidateId in store.started)
      ensures r.Success? ==> c.candidateId in store.started && c.candidateId in store.markerOutcomes
      ensures r.Success? ==> r.value.candidateId == c.candidateId
      ensures r.Success? && Ended(r.value.state) ==> Reported(host.log, r.value)
      ensures r.Success? && !Ended(r.value.state) ==>
                && r.value.lane == c.lane && r.value.action == c.action
                && Working(host.Now(), r.value) && host.log == old(host.log) && Unsettled(host.log, c.candidateId)
                && (store.markerOutcomes[c.candidateId].Found? || store.markerOutcomes[c.candidateId].Absent?)
                && (r.value.issueNumber.Some? || MayTrack(c.candidateId))
                && r.value.mergedAt.None?
    {
      hide CandidateRunner.Ready, Latest, Normalized, Working, Unsettled, Execution, Invariant, Advances, Adopted;
      var id := c.candidateId;
      ghost var s0 := host.Now();
      var looked := LookUp(id, c);
      if looked.Failure? {
        return Failure(looked.error);
      }
      ghost var s1 := host.Now();
      var (outcome, artifact) := looked.value;
      var marked := c.(markerSearchOutcome := Some(outcome));
      var persisted := Latest(host.log, id);
      var reconciled := Adopted(marked, persisted, artifact, config.baseSha);
      StaysPlaced(id, s0, s1, c);
      MarkedWorks(s1, c, marked, artifact);
      r := ObserveThenDecide(marked, reconciled, persisted);
      AdvancesTransitive(id, s0, s1, host.Now());
    }

    lemma StaysPlaced(id: string, s: Snapshot, s': Snapshot, c: Candidate)
      requires Placed(s.world, c) && Advances(id, s, s')
      ensures Placed(s'.world, c)
    {}

    /** The candidate before and after adopting an identity. */
    lemma MarkedWorks(s: Snapshot, c: Candidate, marked: Candidate, artifact: Option<MarkerArtifact>)
      requires Invariant(s) && Normalized(s.log, c) && Placed(s.world, c)
      requires marked == c.(markerSearchOutcome := marked.markerSearchOutcome)
      requires artifact.Some? ==> HasIssue(s.world, artifact.value.number, artifact.value.url, c.candidateId)
      ensures Working(s, marked)
      ensures var persisted := Latest(s.log, c.candidateId);
              var adopted := Adopted(marked, persisted, artifact, config.baseSha);
              && Working(s, adopted)
              && adopted.candidateId == c.candidateId && adopted.lane == c.lane
              && adopted.action == c.action && adopted.state == c.state
              && adopted.mergedAt == (if persisted.Some? then persisted.value.mergedAt else None)
              && (persisted.Some? ==> adopted.prNumber == persisted.value.prNumber)
              && (artifact.Some? ==> adopted.issueNumber.Some?)
    {
      NormalizedCopy(s.log, c, marked);
      AdoptedWorks(s, marked, artifact, config.baseSha);
      NormalizedWorks(s, marked);
    }

    /** A merge or close a human made, a settled row, an unproven marker: each ends the turn. */
    method ObserveThenDecide(marked: Candidate, reconciled: Candidate, persisted: Option<Candidate>)
      returns (r: Result<Candidate, Failure>)
      requires Ready() && marked.candidateId in store.started && marked.candidateId in store.markerOutcomes
      requires reconciled.candidateId == marked.candidateId && !Ended(reconciled.state)
      requires persisted == Latest(host.log, marked.candidateId)
      requires reconciled.mergedAt == (if persisted.Some? then persisted.value.mergedAt else None)
      requires persisted.Some? ==> reconciled.prNumber == persisted.value.prNumber
      requires Working(host.Now(), marked) && Working(host.Now(), reconciled)
      modifies host
      ensures Ready() && old(host.states) <= host.states
      ensures Advances(marked.candidateId, old(host.Now()), host.Now()) && host.world.ledger == old(host.world.ledger)
      ensures r.Failure? ==> r.error.Killed? || r.error.Unavailable?
      ensures r.Success? ==> r.value.candidateId == marked.candidateId
      ensures r.Success? && Ended(r.value.state) ==> Reported(host.log, r.value)
      ensures r.Success? && !Ended(r.value.state) ==>
                && r.value == reconciled && r.value.mergedAt.None? && host.log == old(host.log)
                && Working(host.Now(), r.value) && Unsettled(host.log, marked.candidateId)
                && (store.markerOutcomes[marked.candidateId].Found? || store.markerOutcomes[marked.candidateId].Absent?)
    {
      hide CandidateRunner.Ready, Latest, IdentityKnown, Continues, Advances;
      var id := marked.candidateId;
      ghost var s0 := host.Now();
      var observed, _ := ObservePull(reconciled, persisted);
      if observed.Failure? {
        return Failure(observed.error);
      }
      if observed.value.Some? {
        return Success(observed.value.value);
      }
      ghost var s1 := host.Now();
      TimeKeepsWorking(id, s0, s1, reconciled);
      TimeKeepsWorking(id, s0, s1, marked);
      r := SkipDeferOrGoOn(marked, reconciled, persisted);
      AdvancesTransitive(id, s0, s1, host.Now());
    }

    lemma NormalizedCopy(log: seq<Candidate>, c: Candidate, marked: Candidate)
      requires Normalized(log, c) && SameIdentity(c, marked)
      ensures Normalized(log, marked)
      ensures Latest(log, c.candidateId).None? ==> marked.mergedAt.None?
    {}

    /** The marker lookup, and with it the start of the candidate's turn. */
    method LookUp(id: string, c: Candidate) returns (r: Result<(MarkerSearchOutcome, Option<MarkerArtifact>), Failure>)
      requires Ready() && id !in store.started && PlainId(id) && id == c.candidateId
      requires Normalized(host.log, c)
      modifies host, store
      ensures Ready() && old(host.states) <= host.states
      ensures Advances(id, old(host.Now()), host.Now()) && host.log == old(host.log)
      ensures host.world.ledger == old(host.world.ledger)
      ensures r.Failure? ==> r.error.Killed? && store.started == old(store.started)
      ensures r.Success? ==>
                && store.started == old(store.started) + {id} && id in store.markerOutcomes
                && Invariant(host.Now())
                && r.value.0 == store.markerOutcomes[id]
                && (r.value.1.Some? <==> r.value.0.Found?)
                && (r.value.1.Some? ==> HasIssue(host.world, r.value.1.value.number, r.value.1.value.url, id))
                && (r.value.0.Absent? ==> MayTrack(id))
    {
      hide Latest, Normalized, Execution, Invariant, Describes;
      var artifact := store.LookUp(id);
      if artifact.Failure? {
        return Failure(artifact.error);
      }
      var outcome := store.markerOutcomes[id];
      host.Safe();
      LookedUp(id, artifact.value);
      store.Start(id);
      r := Success((outcome, artifact.value));
    }

    function RunIdOf(c: Candidate): Option<string> {
      if c.runId.Some? then c.runId else Some(config.run.id)
    }

    /** What the lookup proves before this candidate's turn starts. */
    lemma LookedUp(id: string, artifact: Option<MarkerArtifact>)
      requires Ready() && id !in store.started && PlainId(id) && Invariant(host.Now())
      requires id in store.markerOutcomes && store.markerOutcomes[id] == store.Outcome(id)
      requires artifact == store.Answer(id)
      requires store.markerIndex.Some?
      ensures artifact.Some? <==> store.markerOutcomes[id].Found?
      ensures artifact.Some? ==> HasIssue(host.world, artifact.value.number, artifact.value.url, id)
      ensures store.markerOutcomes[id].Absent? ==> MayTrack(id)
    {
      if store.Outcome(id).Found? {
        FoundMeansCarried(host.world, store.markerIndex.value, store.entries, store.indexed, store.started, id);
      } else if store.Outcome(id).Absent? && !store.missed {
        AbsentMeansUnpublished(host.world, store.markerIndex.value, store.entries, store.indexed, store.started, id);
      }
    }

    predicate Unproven(outcome: MarkerSearchOutcome) {
      outcome.Failed? || outcome.Orphaned? || outcome.Unconfigured?
    }

    /** What the local half of reconcile leaves: a recorded merge stays merged, a settled row is kept, an
        unproven marker defers, and anything else goes on with the adopted identity. */
    ghost predicate Reconciled(marked: Candidate, reconciled: Candidate, persisted: Option<Candidate>, kept: bool,
                               outcome: MarkerSearchOutcome, d: Candidate) {
      if persisted.Some? && persisted.value.mergedAt.Some? then
        d == (if persisted.value.state.Merged? && persisted.value.mergedAt.value != "" then persisted.value
              else reconciled.(runId := RunIdOf(reconciled), state := CandidateState.Merged))
      else if persisted.Some? && kept then
        d == reconciled.(state := persisted.value.state, reason := persisted.value.reason,
                         mergeVerified := persisted.value.mergeVerified)
      else if Unproven(outcome) then
        d == marked.(runId := Some(config.run.id), state := CandidateState.Deferred,
                     reason := Some(if outcome.Unconfigured? then MarkerSearchUnconfigured else MarkerSearchFailed))
      else d == reconciled
    }

    /** The local half of reconcile: settled rows are kept, an unproven marker defers. */
    method SkipDeferOrGoOn(marked: Candidate, reconciled: Candidate, persisted: Option<Candidate>)
      returns (r: Result<Candidate, Failure>)
      requires Ready() && marked.candidateId in store.started && marked.candidateId in store.markerOutcomes
      requires reconciled.candidateId == marked.candidateId && !Ended(reconciled.state)
      requires persisted == Latest(host.log, marked.candidateId)
      requires persisted.Some? ==> reconciled.mergedAt == persisted.value.mergedAt
      requires Working(host.Now(), marked) && Working(host.Now(), reconciled)
      modifies host
      ensures Ready() && old(host.states) <= host.states
      ensures Advances(marked.candidateId, old(host.Now()), host.Now()) && host.world == old(host.world)
      ensures r.Failure? ==> NotWritten(r.error, old(host.log))
      ensures r.Success? ==> Reconciled(marked, reconciled, persisted, old(KeptAsSettled(marked.candidateId)),
                                        store.markerOutcomes[marked.candidateId], r.value)
      ensures r.Success? ==> r.value.candidateId == marked.candidateId
      ensures r.Success? && Ended(r.value.state) ==> Reported(host.log, r.value)
      ensures r.Success? && !Ended(r.value.state) ==>
                && r.value == reconciled && host.log == old(host.log)
                && Unsettled(host.log, marked.candidateId)
                && (persisted.Some? ==> reconciled.mergedAt.None?)
                && (store.markerOutcomes[marked.candidateId].Found? || store.markerOutcomes[marked.candidateId].Absent?)
    {
      hide CandidateRunner.Ready, IdentityKnown, Continues, MayAppend, Advances, Working;
      AdvancesReflexive(marked.candidateId, host.Now());
      if persisted.Some? && persisted.value.state.Merged?
         && persisted.value.mergedAt.Some? && persisted.value.mergedAt.value != "" {
        return Success(persisted.value);
      }
      if persisted.Some? && persisted.value.mergedAt.Some? {
        r := KeepMerged(reconciled);
        return;
      }
      r := KeepDeferOrGoOn(marked, reconciled, persisted);
    }

    /** A recorded merge under any other state: say merged. */
    method KeepMerged(reconciled: Candidate) returns (r: Result<Candidate, Failure>)
      requires Ready() && reconciled.candidateId in store.started
      requires Working(host.Now(), reconciled) && reconciled.mergedAt.Some?
      modifies host
      ensures Ready() && old(host.states) <= host.states
      ensures Advances(reconciled.candidateId, old(host.Now()), host.Now()) && host.world == old(host.world)
      ensures r.Failure? ==> NotWritten(r.error, old(host.log))
      ensures r.Success? ==>
                && r.value == reconciled.(runId := RunIdOf(reconciled), state := CandidateState.Merged)
                && Latest(host.log, reconciled.candidateId) == Some(r.value)
    {
      hide CandidateRunner.Ready, IdentityKnown, Continues, MayAppend, Advances, Latest;
      var row := reconciled.(runId := RunIdOf(reconciled), state := CandidateState.Merged);
      SameIdentityWorks(host.Now(), reconciled, row);
      SettledMayAppend(host.log, row) by { assert Continues(host.log, row); }
      r := Persist(row);
    }

    /** Without a recorded merge: a settled row is kept, an unproven marker defers. */
    method KeepDeferOrGoOn(marked: Candidate, reconciled: Candidate, persisted: Option<Candidate>)
      returns (r: Result<Candidate, Failure>)
      requires Ready() && marked.candidateId in store.started && marked.candidateId in store.markerOutcomes
      requires reconciled.candidateId == marked.candidateId && !Ended(reconciled.state)
      requires persisted == Latest(host.log, marked.candidateId)
      requires persisted.Some? ==> persisted.value.mergedAt.None? && reconciled.mergedAt.None?
      requires Working(host.Now(), marked)
      modifies host
      ensures Ready() && old(host.states) <= host.states
      ensures Advances(marked.candidateId, old(host.Now()), host.Now()) && host.world == old(host.world)
      ensures r.Failure? ==> NotWritten(r.error, old(host.log))
      ensures r.Success? ==> Reconciled(marked, reconciled, persisted, old(KeptAsSettled(marked.candidateId)),
                                        store.markerOutcomes[marked.candidateId], r.value)
      ensures r.Success? ==> r.value.candidateId == marked.candidateId
      ensures r.Success? && Ended(r.value.state) ==> Reported(host.log, r.value)
      ensures r.Success? && !Ended(r.value.state) ==>
                && r.value == reconciled && host.log == old(host.log)
                && Unsettled(host.log, marked.candidateId)
                && (store.markerOutcomes[marked.candidateId].Found? || store.markerOutcomes[marked.candidateId].Absent?)
    {
      hide CandidateRunner.Ready, IdentityKnown, Continues, MayAppend, Advances, Working;
      var id := marked.candidateId;
      AdvancesReflexive(id, host.Now());
      var outcome := store.markerOutcomes[id];
      if persisted.Some? {
        var decision := ResumeCandidate(id);
        if decision.Skip? {
          return Success(reconciled.(state := persisted.value.state, reason := persisted.value.reason,
                                     mergeVerified := persisted.value.mergeVerified));
        }
      }
      if Unproven(outcome) {
        r := Defer(marked, if outcome.Unconfigured? then MarkerSearchUnconfigured else MarkerSearchFailed);
        return;
      }
      r := Success(reconciled);
    }

    /** Look at the pull request of an awaiting or terminal row, and return what was `seen` of it: a merge or a
        close ends the turn, anything else changes nothing. */
    method ObservePull(reconciled: Candidate, persisted: Option<Candidate>)
      returns (r: Result<Option<Candidate>, Failure>, ghost seen: Option<Pull>)
      requires Ready() && reconciled.candidateId in store.started
      requires persisted == Latest(host.log, reconciled.candidateId)
      requires Working(host.Now(), reconciled)
      requires persisted.Some? ==> reconciled.prNumber == persisted.value.prNumber
      modifies host
      ensures Ready() && old(host.states) <= host.states
      ensures Advances(reconciled.candidateId, old(host.Now()), host.Now())
      ensures host.world.ledger == old(host.world.ledger)
      ensures seen.Some? ==> seen.value in host.world.pulls && reconciled.prNumber == Some(seen.value.number)
      ensures r.Failure? ==> r.error.Killed? || r.error.Unavailable?
      ensures r.Success? ==> (r.value.Some? <==> seen.Some? && !seen.value.isOpen)
      ensures r.Success? && r.value.None? ==> host.log == old(host.log)
      ensures r.Success? && r.value.Some? ==>
                && r.value == Some(PullRow(reconciled.(runId := RunIdOf(reconciled)), seen.value))
                && Latest(host.log, reconciled.candidateId) == r.value
    {
      hide CandidateRunner.Ready, Latest, IdentityKnown, Continues, Advances, SettledWithArtifact;
      var id := reconciled.candidateId;
      ghost var s0 := host.Now();
      AdvancesReflexive(id, s0);
      seen := None;
      if persisted.None? || !(persisted.value.state.AwaitingHumanMerge? || persisted.value.state.Terminal?)
         || persisted.value.prNumber.None? {
        r := Success(None);
        return;
      }
      var read := ReadPull(id, persisted.value.prNumber.value);
      ghost var s1 := host.Now();
      TimeKeepsWorking(id, s0, s1, reconciled);
      if read.Failure? {
        r := if read.error.Killed? then Failure(Killed) else Success(None);
        return;
      }
      seen := read.value;
      if read.value.None? || read.value.value.isOpen {
        r := Success(None);
        return;
      }
      var observed := reconciled.(runId := RunIdOf(reconciled));
      SameIdentityWorks(s1, reconciled, observed);
      r := RecordEnd(observed, persisted.value, read.value.value);
      AdvancesTransitive(id, s0, s1, host.Now());
    }

    /** A human merged or closed the candidate's pull request: write that down. */
    method RecordEnd(c: Candidate, persisted: Candidate, seen: Pull) returns (r: Result<Option<Candidate>, Failure>)
      requires Ready() && c.candidateId in store.started
      requires Latest(host.log, c.candidateId) == Some(persisted) && Working(host.Now(), c)
      requires persisted.state.AwaitingHumanMerge? || persisted.state.Terminal?
      requires c.prNumber == Some(seen.number) && seen in host.world.pulls && !seen.isOpen
      modifies host
      ensures Ready() && old(host.states) <= host.states
      ensures Advances(c.candidateId, old(host.Now()), host.Now()) && host.world == old(host.world)
      ensures if r.Failure? then NotWritten(r.error, old(host.log))
              else r.value == Some(PullRow(c, seen)) && Latest(host.log, c.candidateId) == Some(PullRow(c, seen))
    {
      hide CandidateRunner.Ready, Latest, IdentityKnown, Continues, MayAppend, Invariant;
      SafeNow();
      PullRowWorks(host.Now(), c, persisted, seen);
      var appended := Persist(PullRow(c, seen));
      r := if appended.Failure? then Failure(appended.error) else Success(Some(appended.value));
    }

    lemma SafeNow()
      requires Ready()
      ensures Invariant(host.Now())
    {
      host.Safe();
    }

    /** The row a merged or closed pull request leaves. */
    function PullRow(c: Candidate, seen: Pull): Candidate {
      var known := c.(prNumber := Some(seen.number), prUrl := Some(seen.url));
      if seen.mergedAt.Some? then
        known.(state := CandidateState.Merged, mergedAt := seen.mergedAt, mergeVerified := true)
      else
        known.(state := CandidateState.Terminal, reason := Some(ClosedPullRequest))
    }

    lemma PullRowWorks(s: Snapshot, c: Candidate, persisted: Candidate, seen: Pull)
      requires Invariant(s) && Working(s, c) && Latest(s.log, c.candidateId) == Some(persisted)
      requires persisted.state.AwaitingHumanMerge? || persisted.state.Terminal?
      requires c.prNumber == Some(seen.number) && seen in s.world.pulls
      ensures Working(s, PullRow(c, seen)) && MayAppend(s.log, PullRow(c, seen))
    {
      NumberIdentifiesPull(s.world, c.prNumber.value, c.prUrl.value, c.headBranch.value, seen);
      SeenPull(s.world, seen, c.headBranch.value);
      SettledMayAppend(s.log, PullRow(c, seen));
    }

    lemma SeenPull(w: World, p: Pull, head: string)
      requires p in w.pulls && p.head == head
      ensures HasPull(w, p.number, p.url, head)
      ensures p.mergedAt.Some? ==> MergedPull(w, p.number, p.mergedAt.value)
    {
      var k :| 0 <= k < |w.pulls| && w.pulls[k] == p;
    }

    // ---- tracking issue --------------------------------------------------------------------------

    lemma WorkingIssue(s: Snapshot, c: Candidate)
      requires Working(s, c)
      ensures c.issueNumber.Some? <==> c.issueUrl.Some?
      ensures c.issueNumber.Some? ==> HasIssue(s.world, c.issueNumber.value, c.issueUrl.value, c.candidateId)
      ensures c.issueNumber.None? ==> Untracked(s.log, c.candidateId)
    {}

    /** Write, or adopt, the one tracking issue every published tier gets. */
    method PublishIssue(c: Candidate) returns (r: Result<Candidate, Failure>)
      requires Ready() && c.candidateId in store.started
      requires Working(host.Now(), c) && Unsettled(host.log, c.candidateId)
      requires c.issueNumber.Some? || MayTrack(c.candidateId)
      modifies host, client
      ensures After(c.candidateId, old(host.Now()), r) && old(host.states) <= host.states
      ensures r.Success? && !Ended(r.value.state) ==>
                && r.value.lane == c.lane && r.value.action == c.action && r.value.state.IssueCreated?
                && Working(host.Now(), r.value) && Latest(host.log, c.candidateId) == Some(r.value)
                && r.value.issueNumber.Some? && r.value.mergedAt == c.mergedAt
      ensures TracksOnly(old(host.world.ledger), host.world.ledger)
      ensures IssuesReadWell(host.world.ledger, c.candidateId) ==> IssueWrites(host.world.ledger, c.candidateId) <= 1
      ensures r.Success? && Ended(r.value.state) ==>
                && r.value == c.(runId := Some(config.run.id), state := CandidateState.Deferred,
                                 reason := Some(ArtifactValidationFailed))
                && host.world.ledger == old(host.world.ledger)
    {
      hide CandidateRunner.Ready, Latest, IdentityKnown, Continues, MayAppend, Advances, Carries, HasIssue;
      var id := c.candidateId;
      ghost var s0 := host.Now();
      var failure := Consult(id);
      ghost var s1 := host.Now();
      OneIssueEver(id);
      if failure.Some? {
        return Failure(failure.value);
      }
      TimeKeepsWorking(id, s0, s1, c);
      var sections: seq<(string, string)>, template: string, wellShaped: bool := *, *, *;
      var body := RenderIssueBody(c, sections, template);
      if !wellShaped || !Carries(body, id) {
        r := Defer(c, ArtifactValidationFailed);
        AdvancesTransitive(id, s0, s1, host.Now());
        OneIssueEver(id);
        return;
      }
      r := TrackIssue(c, body);
      AdvancesTransitive(id, s0, s1, host.Now());
      OneIssueEver(id);
    }

    lemma OneIssueEver(id: string)
      requires Ready()
      ensures IssuesReadWell(host.world.ledger, id) ==> IssueWrites(host.world.ledger, id) <= 1
    {
      host.Safe();
      SecondIssueIsMisread(host.world.ledger, id);
    }

    /** Labels first, then the issue, then its row. */
    method TrackIssue(c: Candidate, body: string) returns (r: Result<Candidate, Failure>)
      requires Ready() && c.candidateId in store.started
      requires Working(host.Now(), c) && Unsettled(host.log, c.candidateId) && Carries(body, c.candidateId)
      requires c.issueNumber.Some? || MayTrack(c.candidateId)
      modifies host, client
      ensures After(c.candidateId, old(host.Now()), r) && old(host.states) <= host.states
      ensures r.Success? ==>
                && r.value.lane == c.lane && r.value.action == c.action && r.value.state.IssueCreated?
                && Working(host.Now(), r.value) && Latest(host.log, c.candidateId) == Some(r.value)
                && r.value.issueNumber.Some? && r.value.mergedAt == c.mergedAt
      ensures r.Success? ==>
                && HasIssue(host.world, r.value.issueNumber.value, r.value.issueUrl.value, c.candidateId)
                && r.value == IssueRow(config, c, r.value.issueNumber.value, r.value.issueUrl.value,
                                       r.value.issueAdopted)
      ensures TracksOnly(old(host.world.ledger), host.world.ledger)
    {
      hide NoIssueWrite, Untracked, SettledWithArtifact, CandidateRunner.Ready, Latest, IdentityKnown, Continues,
           MayAppend, Advances, Carries, HasIssue;
      var id := c.candidateId;
      ghost var s0 := host.Now();
      var failure := EnsureLabels(id, c.labels);
      ghost var s1 := host.Now();
      if failure.Some? {
        return Failure(failure.value);
      }
      TimeKeepsWorking(id, s0, s1, c);
      WorkingIssue(s1, c);
      var issue := ReconcileIssue(id, body, c.issueNumber, c.issueUrl);
      ghost var s2 := host.Now();
      AdvancesTransitive(id, s0, s1, s2);
      if issue.Failure? {
        return Failure(issue.error);
      }
      TimeKeepsWorking(id, s1, s2, c);
      IssueRowWorks(config, s2, c, issue.value.0, issue.value.1, issue.value.2);
      r := Persist(IssueRow(config, c, issue.value.0, issue.value.1, issue.value.2));
      AdvancesTransitive(id, s0, s2, host.Now());
    }

    // ---- branch and session ----------------------------------------------------------------------

    /** The requests answered so far and the run's own counter move together. */
    ghost function Uncounted(): int
      reads host, sessions
    {
      AnsweredCount(host.world.ledger) - sessions.sessionCount
    }

    /** The run's accounts keep to their ceilings. */
    ghost predicate WithinCeiling()
      reads sessions
    {
      Sessions.WithinCeilings(sessions.View(), sessions.limits)
    }

    /** The session being polled was reserved with room for its own limit. */
    ghost predicate Roomy()
      reads sessions
    {
      Sessions.Roomy(sessions.View(), sessions.limits)
    }

    /** Make the branch name durable, create the branch, then run the session. */
    method DispatchBranch(c: Candidate) returns (r: Result<Candidate, Failure>)
      requires Ready() && c.candidateId in store.started && WithinCeiling()
      requires Working(host.Now(), c) && Unsettled(host.log, c.candidateId) && c.issueNumber.Some?
      modifies host, sessions
      ensures After(c.candidateId, old(host.Now()), r) && old(host.states) <= host.states
      ensures WithinCeiling() && Uncounted() == old(Uncounted())
      ensures r.Success? && !Ended(r.value.state) ==> SessionFinished(c, r.value)
      ensures host.world.ledger != old(host.world.ledger) ==>
                DurableFirst(host.states, |old(host.states)| - 1, PreparedRow(config, c), old(host.world.ledger))
      ensures SessionCount(host.world.ledger) <= SessionCount(old(host.world.ledger)) + MAX_SESSION_ATTEMPTS
      ensures SessionCount(host.world.ledger) > SessionCount(old(host.world.ledger)) ==>
                BranchSeen(host.states, |old(host.states)| - 1, PreparedRow(config, c).headBranch.value,
                           SessionCount(old(host.world.ledger)))
    {
      hide Sessions.WithinCeilings, Sessions.Roomy, CandidateRunner.Ready, Latest, IdentityKnown, Continues, MayAppend,
           Advances, SessionOnRecord, NoSessions, BranchSeen, DurableFirst;
      var id := c.candidateId;
      ghost var s0 := host.Now();
      ghost var from := |host.states| - 1;
      PreparedRowWorks(config, s0, c);
      var prepared := PreparedRow(config, c);
      var written := Persist(prepared);
      ghost var s1 := host.Now();
      if written.Failure? {
        return Failure(written.error);
      }
      ghost var durable := host.states;
      IsDurable(from, prepared, s0.world.ledger);
      var created := EnsureBranch(prepared);
      ghost var s2 := host.Now();
      AdvancesTransitive(id, s0, s1, s2);
      NoSessionsKeepCount(s1.world.ledger, s2.world.ledger);
      StaysDurable(durable, host.states, from, prepared, s0.world.ledger);
      if created.Failure? {
        return Failure(created.error);
      }
      if created.value.Some? {
        return Success(created.value.value);
      }
      ghost var seen := host.states;
      BranchIsThere(from, prepared.headBranch.value);
      r := RunSession(prepared);
      StaysDurable(seen, host.states, from, prepared, s0.world.ledger);
      BranchStaysSeen(seen, host.states, from, prepared.headBranch.value, SessionCount(s0.world.ledger));
      AdvancesTransitive(id, s0, s2, host.Now());
    }

    lemma IsDurable(from: int, row: Candidate, ledger: seq<RemoteWrite>)
      requires Ready() && row in host.log && host.world.ledger == ledger && from < |host.states|
      ensures DurableFirst(host.states, from, row, ledger)
    {
      assert row in host.states[|host.states| - 1].log;
    }

    /** Create the branch of a prepared candidate. One that exists already is taken over if its head can be
        read; otherwise the candidate is deferred. */
    method EnsureBranch(c: Candidate) returns (r: Result<Option<Candidate>, Failure>)
      requires Ready() && c.candidateId in store.started && c.state.Dispatching?
      requires Working(host.Now(), c) && Latest(host.log, c.candidateId) == Some(c)
      requires c.headBranch.Some? && c.baseSha.Some?
      modifies host
      ensures AfterAttempt(c, old(host.Now()), r) && old(host.states) <= host.states
      ensures NoSessions(old(host.world.ledger), host.world.ledger)
      ensures r.Success? && r.value.Some? ==> r.value.value.state.Deferred?
      ensures r.Success? && r.value.None? ==> c.headBranch.value in host.world.branches
    {
      hide CandidateRunner.Ready, Latest, IdentityKnown, Continues, MayAppend, Advances;
      var id := c.candidateId;
      ghost var s0 := host.Now();
      var created := PostBranch(id, c.headBranch.value, c.baseSha.value);
      ghost var s1 := host.Now();
      TimeKeepsWorking(id, s0, s1, c);
      if created.Success? {
        return Success(None);
      }
      if created.error != Http(422) {
        return Failure(created.error);
      }
      var existing := BranchSha(id, c.headBranch.value);
      ghost var s2 := host.Now();
      AdvancesTransitive(id, s0, s1, s2);
      TimeKeepsWorking(id, s1, s2, c);
      if existing.Failure? {
        return Failure(existing.error);
      }
      if existing.value.Some? {
        return Success(None);
      }
      var deferred := Defer(c, CapabilityUnavailable);
      r := EndOf(deferred);
      AdvancesTransitive(id, s0, s2, host.Now());
    }

    lemma BranchIsThere(from: int, branch: string)
      requires Ready() && branch in host.world.branches && from < |host.states|
      ensures BranchSeen(host.states, from, branch, SessionCount(host.world.ledger))
    {
      assert branch in host.states[|host.states| - 1].world.branches;
    }

    /** The outcome of a session that produced a usable fix. */
    ghost predicate SessionFinished(c: Candidate, done: Candidate)
      reads this, host
    {
      && done.lane == c.lane && done.mergedAt == c.mergedAt && done.state.SessionDone?
      && Working(host.Now(), done) && Latest(host.log, c.candidateId) == Some(done)
      && done.headBranch.Some? && done.headSha.Some? && done.headSha.value != ""
      && done.sessionId.Some? && SessionOnRecord(host.log, c.candidateId, done.sessionId.value)
    }

    function WithSession(c: Candidate, last: Option<string>): Candidate {
      c.(sessionId := OrOption(last, c.sessionId))
    }

    /** Create and poll one session per attempt, up to the ceiling. */
    method RunSession(c: Candidate) returns (r: Result<Candidate, Failure>)
      requires WithinCeiling() && Ready() && c.candidateId in store.started
      requires Working(host.Now(), c) && Unsettled(host.log, c.candidateId)
      requires Latest(host.log, c.candidateId).Some? && c.headBranch.Some? && c.state.Dispatching?
      requires Latest(host.log, c.candidateId).value.headBranch == c.headBranch
      modifies host, sessions
      ensures After(c.candidateId, old(host.Now()), r) && old(host.states) <= host.states
      ensures r.Success? && !Ended(r.value.state) ==> SessionFinished(c, r.value)
      ensures SessionCount(host.world.ledger) <= SessionCount(old(host.world.ledger)) + MAX_SESSION_ATTEMPTS
      ensures WithinCeiling() && Uncounted() == old(Uncounted())
    {
      hide Sessions.WithinCeilings, Sessions.Roomy, CandidateRunner.Ready, Latest, IdentityKnown, Continues, MayAppend,
           Advances, SessionOnRecord;
      var id := c.candidateId;
      ghost var s0 := host.Now();
      AdvancesReflexive(id, s0);
      var last := c.sessionId;
      for attempt := 1 to MAX_SESSION_ATTEMPTS + 1
        invariant Ready() && id in store.started && Advances(id, s0, host.Now()) && old(host.states) <= host.states
        invariant Working(host.Now(), c) && Unsettled(host.log, id)
        invariant SessionCount(host.world.ledger) <= SessionCount(s0.world.ledger) + attempt - 1
        invariant WithinCeiling() && Uncounted() == old(Uncounted())
        invariant Latest(host.log, id).Some? && Latest(host.log, id).value.headBranch == c.headBranch
      {
        ghost var s1 := host.Now();
        var attempted;
        attempted, last := RunAttempt(c, attempt, last);
        AdvancesTransitive(id, s0, s1, host.Now());
        if attempted.Failure? {
          return Failure(attempted.error);
        }
        if attempted.value.Some? {
          return Success(attempted.value.value);
        }
      }
      ghost var s2 := host.Now();
      SameIdentityWorks(s2, c, WithSession(c, last));
      r := EndSession(WithSession(c, last), SessionBlocked);
      AdvancesTransitive(id, s0, s2, host.Now());
    }

    /** One attempt ends the turn, finishes the session, or leaves room for another try. */
    ghost predicate AfterAttempt(c: Candidate, before: Snapshot, r: Result<Option<Candidate>, Failure>)
      reads this, host, store
    {
      && Ready() && c.candidateId in store.started && Advances(c.candidateId, before, host.Now())
      && (r.Failure? ==>
            r.error.Killed? || r.error.Aborted? || (Deferrable(r.error) && Unsettled(host.log, c.candidateId)))
      && (r.Success? && r.value.Some? ==>
            && r.value.value.candidateId == c.candidateId && Reported(host.log, r.value.value)
            && (Ended(r.value.value.state) || SessionFinished(c, r.value.value)))
      && (r.Success? && r.value.None? ==>
            && Working(host.Now(), c) && Unsettled(host.log, c.candidateId)
            && Latest(host.log, c.candidateId).Some?
            && Latest(host.log, c.candidateId).value.headBranch == c.headBranch)
    }

    method RunAttempt(c: Candidate, attempt: nat, last: Option<string>)
      returns (r: Result<Option<Candidate>, Failure>, last': Option<string>)
      requires WithinCeiling() && Ready() && c.candidateId in store.started
      requires Working(host.Now(), c) && Unsettled(host.log, c.candidateId)
      requires Latest(host.log, c.candidateId).Some? && c.headBranch.Some? && c.state.Dispatching?
      requires Latest(host.log, c.candidateId).value.headBranch == c.headBranch
      modifies host, sessions
      ensures AfterAttempt(c, old(host.Now()), r) && old(host.states) <= host.states
      ensures SessionCount(host.world.ledger) <= SessionCount(old(host.world.ledger)) + 1
      ensures WithinCeiling() && Uncounted() == old(Uncounted())
    {
      hide Sessions.WithinCeilings, Sessions.Roomy, CandidateRunner.Ready, Latest, IdentityKnown, Continues, MayAppend,
           Advances, SessionOnRecord;
      var id := c.candidateId;
      ghost var s0 := host.Now();
      last' := last;
      SameIdentityWorks(s0, c, WithSession(c, last));
      var refusal := sessions.ReserveSession();
      if refusal.Some? {
        var deferred := Defer(WithSession(c, last), SessionCeiling);
        r := EndOf(deferred);
        return;
      }
      var posted := PostSession(id);
      ghost var s1 := host.Now();
      if posted.Failure? {
        sessions.ReleaseSession();
        r := Failure(posted.error);
        return;
      }
      TimeKeepsWorking(id, s0, s1, c);
      var sessionId: string, isNew: Option<bool> := *, *;
      r, last' := UseSession(c, attempt, last, sessionId, isNew);
      AdvancesTransitive(id, s0, s1, host.Now());
    }

    /** Judge the session the API returned: a missing id ends the run, a reused session ends the candidate,
        any other is recorded and polled. */
    method UseSession(c: Candidate, attempt: nat, last: Option<string>, sessionId: string, isNew: Option<bool>)
      returns (r: Result<Option<Candidate>, Failure>, last': Option<string>)
      requires WithinCeiling() && Roomy() && Ready() && c.candidateId in store.started
      requires Working(host.Now(), c) && Unsettled(host.log, c.candidateId)
      requires Latest(host.log, c.candidateId).Some? && c.headBranch.Some? && c.state.Dispatching?
      requires Latest(host.log, c.candidateId).value.headBranch == c.headBranch
      modifies host, sessions
      ensures AfterAttempt(c, old(host.Now()), r) && old(host.states) <= host.states
      ensures host.world.ledger == old(host.world.ledger)
      ensures sessionId == "" ==> r == Failure(Aborted) && host.log == old(host.log)
      ensures sessionId != "" && r.Success?
              && Sessions.ResolveRetryDecision(attempt, sessionId, old(sessions.Previous(c.candidateId)),
                                               isNew).FatalDedupeHit? ==>
                r.value.Some? && r.value.value.state.Terminal? && r.value.value.reason == Some(SessionFailed)
      ensures r.Success? && r.value.None? ==>
                last' == Some(sessionId) && SessionOnRecord(host.log, c.candidateId, sessionId)
      ensures sessions.sessionCount == old(sessions.sessionCount) && WithinCeiling()
    {
      hide Working, Unsettled, Sessions.WithinCeilings, Sessions.Roomy, CandidateRunner.Ready, Latest, IdentityKnown,
           Continues, MayAppend, Advances, SessionOnRecord;
      var id := c.candidateId;
      ghost var s0 := host.Now();
      AdvancesReflexive(id, s0);
      last' := last;
      if sessionId == "" {
        r := Failure(Aborted);
        return;
      }
      var decision := sessions.AcceptSession(id, attempt, sessionId, isNew);
      if decision.FatalDedupeHit? {
        SameIdentityWorks(s0, c, WithSession(c, last));
        var ended := EndSession(WithSession(c, last), SessionFailed);
        r := EndOf(ended);
        return;
      }
      last' := Some(sessionId);
      var row := RecordedRow(config, c, sessionId);
      SameIdentityWorks(s0, c, row);
      r := RecordAndPoll(c, row, attempt, sessionId);
    }

    function EndOf(r: Result<Candidate, Failure>): Result<Option<Candidate>, Failure> {
      match r
      case Success(c) => Success(Some(c))
      case Failure(f) => Failure(f)
    }

    /** Persist the session identity before polling, then poll to a terminal status. */
    method RecordAndPoll(c: Candidate, row: Candidate, attempt: nat, sessionId: string)
      returns (r: Result<Option<Candidate>, Failure>)
      requires WithinCeiling() && Roomy() && Ready() && c.candidateId in store.started
      requires Working(host.Now(), c) && Unsettled(host.log, c.candidateId) && c.headBranch.Some?
      requires SameIdentity(c, row) && row.lane == c.lane && row.state == c.state && row.sessionId == Some(sessionId)
      requires Working(host.Now(), row) && MayAppend(host.log, row) && c.state.Dispatching?
      modifies host, sessions
      ensures AfterAttempt(c, old(host.Now()), r) && old(host.states) <= host.states
      ensures host.world.ledger == old(host.world.ledger)
      ensures r.Success? ==> SessionOnRecord(host.log, c.candidateId, sessionId)
      ensures sessions.sessionCount == old(sessions.sessionCount) && WithinCeiling()
    {
      hide Sessions.WithinCeilings, Sessions.Roomy, CandidateRunner.Ready, Latest, IdentityKnown,
           Continues, MayAppend, Advances;
      var id := c.candidateId;
      ghost var s0 := host.Now();
      var recorded := Persist(row);
      ghost var s1 := host.Now();
      if recorded.Failure? {
        return Failure(recorded.error);
      }
      assert SessionOnRecord(host.log, id, sessionId);
      hide SessionOnRecord;
      SameIdentityWorks(s1, row, c);
      var failure := Consult(id);
      ghost var s2 := host.Now();
      AdvancesTransitive(id, s0, s1, s2);
      TimeKeepsWorking(id, s1, s2, c);
      TimeKeepsWorking(id, s1, s2, row);
      if failure.Some? {
        return Failure(failure.value);
      }
      var stopped: bool := *;
      if stopped {
        // blocked, expired or timed out without the required output
        return Success(None);
      }
      r := ReadOutput(c, row, attempt, sessionId);
      AdvancesTransitive(id, s0, s2, host.Now());
    }

    /** Account the usage of a terminal session and judge its structured output. */
    method ReadOutput(c: Candidate, row: Candidate, attempt: nat, sessionId: string)
      returns (r: Result<Option<Candidate>, Failure>)
      requires WithinCeiling() && Roomy() && Ready() && c.candidateId in store.started
      requires Working(host.Now(), c) && Unsettled(host.log, c.candidateId) && c.headBranch.Some?
      requires SameIdentity(c, row) && row.lane == c.lane
      requires Latest(host.log, c.candidateId) == Some(row) && Working(host.Now(), row)
      requires SessionOnRecord(host.log, c.candidateId, sessionId)
      modifies host, sessions
      ensures AfterAttempt(c, old(host.Now()), r) && old(host.states) <= host.states
      ensures host.world.ledger == old(host.world.ledger)
      ensures r.Success? ==> SessionOnRecord(host.log, c.candidateId, sessionId)
      ensures sessions.sessionCount == old(sessions.sessionCount) && WithinCeiling()
    {
      hide Unsettled, Working, Sessions.WithinCeilings, Sessions.Roomy, CandidateRunner.Ready, Latest, IdentityKnown,
           Continues, MayAppend, Advances, SessionOnRecord;
      var id := c.candidateId;
      ghost var s0 := host.Now();
      AdvancesReflexive(id, s0);
      var withSession := WithSession(c, Some(sessionId));
      SameIdentityWorks(host.Now(), c, withSession);
      var acu: real := *;
      var refusal := sessions.RecordTerminalUsage(sessionId, acu);
      if refusal.Some? {
        var deferred := Defer(withSession, SessionCeiling);
        r := EndOf(deferred);
        RecordKept(id, s0, sessionId);
        return;
      }
      r := JudgeOutput(c, attempt, sessionId);
    }

    /** Judge the structured output of a session that kept to its ceilings. */
    method JudgeOutput(c: Candidate, attempt: nat, sessionId: string) returns (r: Result<Option<Candidate>, Failure>)
      requires Ready() && c.candidateId in store.started
      requires Working(host.Now(), c) && Unsettled(host.log, c.candidateId) && c.headBranch.Some?
      requires Latest(host.log, c.candidateId).Some?
      requires Latest(host.log, c.candidateId).value.headBranch == c.headBranch
      requires SessionOnRecord(host.log, c.candidateId, sessionId)
      modifies host
      ensures AfterAttempt(c, old(host.Now()), r) && old(host.states) <= host.states
      ensures host.world.ledger == old(host.world.ledger)
      ensures r.Success? ==> SessionOnRecord(host.log, c.candidateId, sessionId)
    {
      hide Unsettled, Working, CandidateRunner.Ready, Latest, IdentityKnown, Continues, MayAppend, Advances,
           SessionOnRecord;
      var id := c.candidateId;
      ghost var s0 := host.Now();
      AdvancesReflexive(id, s0);
      var withSession := WithSession(c, Some(sessionId));
      SameIdentityWorks(host.Now(), c, withSession);
      var malformed: bool, feasible: bool, headSha: string := *, *, *;
      if malformed {
        return Success(None);
      }
      if !feasible {
        var ended := EndSession(withSession, SessionFailed);
        r := EndOf(ended);
        RecordKept(id, s0, sessionId);
        return;
      }
      if Blank(headSha) {
        return Success(None);
      }
      var done := ApplyFixOutput(c, attempt, sessionId, headSha);
      r := EndOf(done);
      RecordKept(id, s0, sessionId);
    }

    lemma RecordKept(id: string, before: Snapshot, sessionId: string)
      requires SessionOnRecord(before.log, id, sessionId) && Advances(id, before, host.Now())
      ensures SessionOnRecord(host.log, id, sessionId)
    {
      SessionStaysOnRecord(before.log, host.log, id, sessionId);
    }

    predicate Blank(s: string) {
      forall k :: 0 <= k < |s| ==> IsSpace(s[k])
    }

    /** The terminal row of a stopped session: the candidate at its own head, or at a pushed one that is not
        the base. */
    ghost predicate EndedAt(c: Candidate, reason: ReasonCode, d: Candidate) {
      && d == c.(headSha := d.headSha, runId := Some(config.run.id), state := CandidateState.Terminal,
                 reason := Some(reason))
      && (d.headSha == c.headSha
          || (d.headSha.Some? && d.headSha.value != "" && d.headSha.value != OrElse(c.baseSha, config.baseSha)))
    }

    /** Preserve a pushed branch head when a session terminates early, then end the turn. */
    method EndSession(c: Candidate, reason: ReasonCode) returns (r: Result<Candidate, Failure>)
      requires Ready() && c.candidateId in store.started
      requires Working(host.Now(), c) && Unsettled(host.log, c.candidateId) && c.headBranch.Some?
      modifies host
      ensures After(c.candidateId, old(host.Now()), r) && old(host.states) <= host.states
      ensures host.world.ledger == old(host.world.ledger)
      ensures r.Success? ==> EndedAt(c, reason, r.value)
    {
      hide Working, Unsettled, CandidateRunner.Ready, Latest, IdentityKnown, Continues, MayAppend, Advances,
           CandidateRunner.EndedAt;
      var id := c.candidateId;
      ghost var s0 := host.Now();
      var observed := BranchSha(id, c.headBranch.value);
      ghost var s1 := host.Now();
      TimeKeepsWorking(id, s0, s1, c);
      if observed.Failure? && observed.error.Killed? {
        return Failure(Killed);
      }
      var ended := c;
      if observed.Success? && observed.value.Some? && observed.value.value != OrElse(c.baseSha, config.baseSha) {
        ended := c.(headSha := observed.value);
        HeadWorks(s1, c, ended);
      }
      EndsAt(c, reason, ended.headSha);
      r := Terminal(ended, reason);
      AdvancesTransitive(id, s0, s1, host.Now());
    }

    lemma EndsAt(c: Candidate, reason: ReasonCode, head: Option<string>)
      requires head == c.headSha || (head.Some? && head.value != "" && head.value != OrElse(c.baseSha, config.baseSha))
      ensures EndedAt(c, reason,
                      c.(headSha := head).(runId := Some(config.run.id), state := CandidateState.Terminal,
                                           reason := Some(reason)))
    {}

    /** Record the validated session output at the head the fork really has. */
    method ApplyFixOutput(c: Candidate, attempt: nat, sessionId: string, claimedHead: string)
      returns (r: Result<Candidate, Failure>)
      requires Ready() && c.candidateId in store.started
      requires Working(host.Now(), c) && Unsettled(host.log, c.candidateId) && c.headBranch.Some? && claimedHead != ""
      requires SessionOnRecord(host.log, c.candidateId, sessionId)
      modifies host
      ensures After(c.candidateId, old(host.Now()), r) && old(host.states) <= host.states
      ensures host.world.ledger == old(host.world.ledger)
      ensures r.Success? ==> SessionFinished(c, r.value)
      ensures r.Success? ==> r.value == SessionRow(config, c, attempt, sessionId, r.value.headSha.value)
    {
      hide CandidateRunner.Ready, Latest, IdentityKnown, Continues, MayAppend, Advances, SessionOnRecord;
      var id := c.candidateId;
      ghost var s0 := host.Now();
      var observed := BranchSha(id, c.headBranch.value);
      ghost var s1 := host.Now();
      TimeKeepsWorking(id, s0, s1, c);
      if observed.Failure? {
        return Failure(observed.error);
      }
      var headSha := if observed.value.Some? then observed.value.value else claimedHead;
      r := RecordSession(c, attempt, sessionId, headSha);
      AdvancesTransitive(id, s0, s1, host.Now());
    }

    method RecordSession(c: Candidate, attempt: nat, sessionId: string, headSha: string)
      returns (r: Result<Candidate, Failure>)
      requires Ready() && c.candidateId in store.started
      requires Working(host.Now(), c) && Unsettled(host.log, c.candidateId) && c.headBranch.Some? && headSha != ""
      requires SessionOnRecord(host.log, c.candidateId, sessionId)
      modifies host
      ensures After(c.candidateId, old(host.Now()), r) && old(host.states) <= host.states
      ensures host.world == old(host.world)
      ensures r.Success? ==>
                SessionFinished(c, r.value) && r.value == SessionRow(config, c, attempt, sessionId, headSha)
    {
      hide CandidateRunner.Ready, Latest, IdentityKnown, Continues, MayAppend, Advances, SessionOnRecord;
      ghost var s0 := host.Now();
      var row := SessionRow(config, c, attempt, sessionId, headSha);
      HeadWorks(s0, c, row);
      r := Persist(row);
      RecordKept(c.candidateId, s0, sessionId);
    }

    // ---- criterion -------------------------------------------------------------------------------

    function ReasonOf(evidence: CriterionEvidence): ReasonCode {
      if evidence.reason.Some? then evidence.reason.value else CriterionNotMet
    }

    /** A criterion observed to fail ends the candidate; any other verdict lets it go on. */
    function JudgedRow(c: Candidate, evidence: CriterionEvidence): Candidate {
      if evidence.satisfied == Some(false)
      then EvaluatedRow(config, c, evidence).(state := CandidateState.Terminal, reason := Some(ReasonOf(evidence)))
      else EvaluatedRow(config, c, evidence)
    }

    /** `d` records the verdict on what this run's observers showed at the recorded head, and follows from it. */
    ghost predicate Judged(c: Candidate, d: Candidate) {
      && d.criterionEvidence.Some?
      && JudgedBefore(d.criterionEvidence.value, c, OrElse(c.headSha, config.baseSha), config.run)
      && d == JudgedRow(c, d.criterionEvidence.value)
    }

    /** Evaluate the criterion from the orchestrator's own observations at the recorded head. */
    method VerifyHead(c: Candidate) returns (r: Result<Candidate, Failure>)
      requires Ready() && c.candidateId in store.started
      requires Working(host.Now(), c) && Unsettled(host.log, c.candidateId)
      requires c.headBranch.Some? && c.headSha.Some? && c.headSha.value != ""
      modifies host
      ensures After(c.candidateId, old(host.Now()), r) && old(host.states) <= host.states
      ensures host.world.ledger == old(host.world.ledger)
      ensures r.Success? ==> Judged(c, r.value)
      ensures r.Success? && !Ended(r.value.state) ==>
                && r.value.lane == c.lane && r.value.state.Verified? && r.value.headSha == c.headSha
                && Working(host.Now(), r.value) && Latest(host.log, c.candidateId) == Some(r.value)
                && r.value.headBranch == c.headBranch && r.value.mergedAt == c.mergedAt
                && VerifiedOnRecord(host.log, r.value, config.run)
    {
      hide CandidateRunner.Ready, Latest, IdentityKnown, Continues, MayAppend, Advances, Verify.Verdict,
           VerifiedOnRecord, CandidateRunner.Judged;
      var id := c.candidateId;
      ghost var s0 := host.Now();
      var failure := Consult(id);
      ghost var s1 := host.Now();
      TimeKeepsWorking(id, s0, s1, c);
      if failure.Some? {
        return Failure(failure.value);
      }
      var observers := config.run.observe(id, PrePr);
      var evidence := Verify.VerifyCandidate(c, OrElse(c.headSha, config.baseSha), observers, config.run.verify, PrePr);
      JudgedByObservation(c, evidence);
      r := WriteVerdict(c, evidence);
      AdvancesTransitive(id, s0, s1, host.Now());
    }

    /** Write the verdict down. */
    method WriteVerdict(c: Candidate, evidence: CriterionEvidence) returns (r: Result<Candidate, Failure>)
      requires Ready() && c.candidateId in store.started
      requires Working(host.Now(), c) && Unsettled(host.log, c.candidateId)
      requires c.headBranch.Some? && c.headSha.Some? && c.headSha.value != ""
      requires JudgedBefore(evidence, c, c.headSha.value, config.run)
      modifies host
      ensures After(c.candidateId, old(host.Now()), r) && old(host.states) <= host.states
      ensures host.world == old(host.world)
      ensures r.Success? ==> r.value == JudgedRow(c, evidence) && Latest(host.log, c.candidateId) == Some(r.value)
      ensures r.Success? && evidence.satisfied != Some(false) ==>
                Working(host.Now(), r.value) && VerifiedOnRecord(host.log, r.value, config.run)
    {
      hide CandidateRunner.Ready, Latest, IdentityKnown, Continues, MayAppend, Advances, JudgedBefore, VerifiedOnRecord;
      var evaluated := EvaluatedRow(config, c, evidence);
      SameIdentityWorks(host.Now(), c, evaluated);
      if evidence.satisfied == Some(false) {
        r := Terminal(evaluated, ReasonOf(evidence));
      } else {
        ShownOnRecord(c, evidence);
        r := Persist(evaluated);
      }
    }

    lemma JudgedByObservation(c: Candidate, evidence: CriterionEvidence)
      requires JudgedBefore(evidence, c, OrElse(c.headSha, config.baseSha), config.run)
      ensures Judged(c, JudgedRow(c, evidence))
    {}

    lemma ShownOnRecord(c: Candidate, evidence: CriterionEvidence)
      requires c.headSha.Some? && c.headSha.value != "" && evidence.satisfied != Some(false)
      requires JudgedBefore(evidence, c, c.headSha.value, config.run)
      ensures forall log :: EvaluatedRow(config, c, evidence) in log ==>
                VerifiedOnRecord(log, EvaluatedRow(config, c, evidence), config.run)
    {
      var row := EvaluatedRow(config, c, evidence);
      Verify.VerdictOfSameSubject(evidence, config.run.observe(c.candidateId, PrePr), c, row, c.headSha.value,
                                  config.run.verify, PrePr);
      hide Verify.Verdict;
      assert Underpins(row, row, config.run);
    }

    // ---- pull request ----------------------------------------------------------------------------

    function PullCreatedRow(c: Candidate, number: nat, url: string): Candidate {
      c.(runId := Some(config.run.id), state := CandidateState.PrCreated, prNumber := Some(number), prUrl := Some(url))
    }

    function MergedRow(c: Candidate, p: Pull): Candidate {
      c.(runId := Some(config.run.id), state := CandidateState.Merged, prNumber := Some(p.number), prUrl := Some(p.url),
         mergedAt := p.mergedAt, mergeVerified := true)
    }

    lemma PullIdentityWorks(s: Snapshot, c: Candidate, number: nat, url: string)
      requires Working(s, c) && Unsettled(s.log, c.candidateId)
      requires c.headBranch.Some? && HasPull(s.world, number, url, c.headBranch.value)
      requires c.mergedAt.Some? ==> MergedPull(s.world, number, c.mergedAt.value)
      ensures Working(s, PullCreatedRow(c, number, url)) && MayAppend(s.log, PullCreatedRow(c, number, url))
      ensures Working(s, c.(prNumber := Some(number), prUrl := Some(url)))
    {}

    lemma MergedRowWorks(s: Snapshot, c: Candidate, p: Pull)
      requires Working(s, c) && Unsettled(s.log, c.candidateId) && c.headBranch.Some?
      requires HasPull(s.world, p.number, p.url, c.headBranch.value) && p.mergedAt.Some?
      requires MergedPull(s.world, p.number, p.mergedAt.value)
      ensures Working(s, MergedRow(c, p)) && MayAppend(s.log, MergedRow(c, p))
    {}

    lemma WorkingPull(s: Snapshot, c: Candidate)
      requires Working(s, c) && c.headBranch.Some?
      ensures c.prNumber.Some? <==> c.prUrl.Some?
      ensures c.prNumber.Some? ==> HasPull(s.world, c.prNumber.value, c.prUrl.value, c.headBranch.value)
    {}

    /** Write, or adopt, the one pull request that closes the tracking issue. */
    method PublishPull(c: Candidate) returns (r: Result<Candidate, Failure>)
      requires Ready() && c.candidateId in store.started
      requires Working(host.Now(), c) && Latest(host.log, c.candidateId) == Some(c) && !IsSettled(c.state)
      requires c.headBranch.Some? && c.mergedAt.None? && VerifiedOnRecord(host.log, c, config.run)
      modifies host
      ensures After(c.candidateId, old(host.Now()), r) && old(host.states) <= host.states
      ensures NoSessions(old(host.world.ledger), host.world.ledger)
      ensures r.Success? && !Ended(r.value.state) ==>
                && r.value.lane == c.lane && r.value.state.PrCreated?
                && r.value.prNumber.Some? && r.value.headSha == c.headSha
                && Working(host.Now(), r.value) && Latest(host.log, c.candidateId) == Some(r.value)
                && VerifiedOnRecord(host.log, r.value, config.run)
    {
      hide CandidateRunner.Ready, Latest, IdentityKnown, Continues, MayAppend, Advances, VerifiedOnRecord, HasPull,
           MergedPull;
      var id := c.candidateId;
      ghost var s0 := host.Now();
      var titleMatches: bool, signedOff: bool, bodyValid: bool := *, *, *;
      if !titleMatches {
        r := Defer(c, ArtifactValidationFailed);
        return;
      }
      var failure := Consult(id);
      ghost var s1 := host.Now();
      TimeKeepsWorking(id, s0, s1, c);
      if failure.Some? {
        return Failure(failure.value);
      }
      if !signedOff {
        r := Terminal(c, DcoTrailerMissing);
        AdvancesTransitive(id, s0, s1, host.Now());
        return;
      }
      if !bodyValid {
        r := Defer(c, ArtifactValidationFailed);
        AdvancesTransitive(id, s0, s1, host.Now());
        return;
      }
      r := OpenOrAdopt(c);
      AdvancesTransitive(id, s0, s1, host.Now());
    }

    method OpenOrAdopt(c: Candidate) returns (r: Result<Candidate, Failure>)
      requires Ready() && c.candidateId in store.started
      requires Working(host.Now(), c) && Latest(host.log, c.candidateId) == Some(c) && !IsSettled(c.state)
      requires c.headBranch.Some? && c.mergedAt.None? && VerifiedOnRecord(host.log, c, config.run)
      modifies host
      ensures After(c.candidateId, old(host.Now()), r) && old(host.states) <= host.states
      ensures NoSessions(old(host.world.ledger), host.world.ledger)
      ensures r.Success? && !Ended(r.value.state) ==>
                && r.value.lane == c.lane && r.value.state.PrCreated?
                && r.value.prNumber.Some? && r.value.headSha == c.headSha
                && Working(host.Now(), r.value) && Latest(host.log, c.candidateId) == Some(r.value)
                && VerifiedOnRecord(host.log, r.value, config.run)
    {
      hide CandidateRunner.Ready, Latest, IdentityKnown, Continues, MayAppend, Advances, VerifiedOnRecord, HasPull,
           MergedPull;
      var id := c.candidateId;
      ghost var s0 := host.Now();
      WorkingPull(s0, c);
      var pulled := ReconcilePullRequest(id, c.headBranch.value, c.prNumber, c.prUrl);
      ghost var s1 := host.Now();
      TimeKeepsWorking(id, s0, s1, c);
      r := RecordOutcome(c, pulled);
      AdvancesTransitive(id, s0, s1, host.Now());
    }

    /** The row a reconciled pull request leaves. */
    function OutcomeRow(c: Candidate, pulled: Result<(nat, string, bool), Failure>): Option<Candidate> {
      match pulled
      case Success((number, url, _)) => Some(PullCreatedRow(c, number, url))
      case Failure(PullMerged(p)) => Some(MergedRow(c, p))
      case Failure(PullClosed(p)) =>
        Some(c.(prNumber := Some(p.number), prUrl := Some(p.url), runId := Some(config.run.id),
                state := CandidateState.Terminal, reason := Some(ClosedPullRequest)))
      case Failure(_) => None
    }

    /** An open pull request is the candidate's; a merged one settles it; one a human closed ends it and is
        neither reopened nor replaced. */
    method RecordOutcome(c: Candidate, pulled: Result<(nat, string, bool), Failure>)
      returns (r: Result<Candidate, Failure>)
      requires Ready() && c.candidateId in store.started
      requires Working(host.Now(), c) && Unsettled(host.log, c.candidateId) && c.headBranch.Some? && c.mergedAt.None?
      requires client.Reconciled(pulled, host.world, c.headBranch.value) && VerifiedOnRecord(host.log, c, config.run)
      modifies host
      ensures After(c.candidateId, old(host.Now()), r) && old(host.states) <= host.states
      ensures host.world == old(host.world)
      ensures OutcomeRow(c, pulled).None? ==> pulled.Failure? && r == Failure(pulled.error)
      ensures r.Success? ==> OutcomeRow(c, pulled) == Some(r.value) && Latest(host.log, c.candidateId) == Some(r.value)
      ensures r.Success? && r.value.state.PrCreated? ==>
                && r.value.lane == c.lane && r.value.prNumber.Some? && r.value.headSha == c.headSha
                && Working(host.Now(), r.value) && VerifiedOnRecord(host.log, r.value, config.run)
      ensures r.Success? ==> r.value.state.PrCreated? || Ended(r.value.state)
    {
      hide CandidateRunner.Ready, Latest, IdentityKnown, Continues, MayAppend, Advances, VerifiedOnRecord, HasPull,
           MergedPull;
      var id := c.candidateId;
      ghost var s0 := host.Now();
      AdvancesReflexive(id, s0);
      match pulled
      case Success((number, url, _)) =>
        r := RecordPull(c, number, url);
      case Failure(PullMerged(p)) =>
        MergedRowWorks(s0, c, p);
        r := Persist(MergedRow(c, p));
      case Failure(PullClosed(p)) =>
        PullIdentityWorks(s0, c, p.number, p.url);
        r := Terminal(c.(prNumber := Some(p.number), prUrl := Some(p.url)), ClosedPullRequest);
      case Failure(f) =>
        r := Failure(f);
    }

    method RecordPull(c: Candidate, number: nat, url: string) returns (r: Result<Candidate, Failure>)
      requires Ready() && c.candidateId in store.started
      requires Working(host.Now(), c) && Unsettled(host.log, c.candidateId) && c.headBranch.Some? && c.mergedAt.None?
      requires HasPull(host.world, number, url, c.headBranch.value) && VerifiedOnRecord(host.log, c, config.run)
      modifies host
      ensures After(c.candidateId, old(host.Now()), r) && old(host.states) <= host.states
      ensures host.world == old(host.world)
      ensures r.Success? ==>
                && r.value == PullCreatedRow(c, number, url)
                && Working(host.Now(), r.value) && Latest(host.log, c.candidateId) == Some(r.value)
                && VerifiedOnRecord(host.log, r.value, config.run)
    {
      hide CandidateRunner.Ready, Latest, IdentityKnown, Continues, MayAppend, Advances, VerifiedOnRecord, HasPull,
           MergedPull;
      var id := c.candidateId;
      ghost var s0 := host.Now();
      PullIdentityWorks(s0, c, number, url);
      var row := PullCreatedRow(c, number, url);
      RecordSurvives(s0.log, s0.log, c, row, config.run);
      r := Persist(row);
      if r.Success? {
        RecordSurvives(s0.log, host.log, row, row, config.run) by { LogExtends(id, s0, host.Now()); }
      }
    }

    lemma LogExtends(id: string, s: Snapshot, s': Snapshot)
      requires Advances(id, s, s')
      ensures s.log <= s'.log
    {}

    // ---- settlement ------------------------------------------------------------------------------

    /** The wait answered what the run's reports on some commit of the pull request showed. */
    ghost predicate Watched(id: string, ci: CheckRuns.CiWaitResult) {
      exists sha, k :: CheckRuns.Waited(ci, CheckRuns.Answer(ReportAt(config.run, id, sha, WholeSnapshot, k)),
                                        config.run.requiredContexts)
    }

    /** Poll the check runs of the pull request's current head. */
    method WatchCi(id: string) returns (r: Result<CheckRuns.CiWaitResult, Failure>)
      requires Ready() && id in store.started
      modifies host
      ensures OnlyTimePassed(id, old(host.Now())) && old(host.states) <= host.states
      ensures r.Success? ==> Watched(id, r.value)
      ensures r.Failure? ==> TransportFailure(r.error)
    {
      hide CheckRuns.Waited, CheckRuns.Answer;
      var failure := Consult(id);
      if failure.Some? {
        return Failure(failure.value);
      }
      var isFork: bool, sha: string := *, *;
      var clock := new CheckRuns.Clock(0.0);
      var feed := new CheckRuns.CheckFeed(config.run.reports(id, sha, WholeSnapshot));
      var waited := CheckRuns.WaitForCheckRuns(feed, clock, config.run.requiredContexts, config.ciWaitTimeout, 0.0,
                                               config.pollInterval, config.run.verify.ciEvidenceMode, isFork);
      if waited.Failure? {
        return Failure(Http(0));
      }
      assert feed.Last() == CheckRuns.Answer(ReportAt(config.run, id, sha, WholeSnapshot, feed.polls - 1));
      r := Success(waited.value);
    }

    /** The wait for the covering suite answered what the run's reports on this commit showed. */
    ghost predicate SuiteWaited(c: Candidate, head: string, suite: CheckRuns.SuiteResult) {
      exists k :: CheckRuns.SuiteSeen(suite, CheckRuns.Answer(ReportAt(config.run, c.candidateId, head, NamedSuite, k)),
                                      Verify.CheckContext(c, config.run.verify))
    }

    /** Poll the named check of the covering suite at the recorded head. */
    method WaitForSuite(c: Candidate, head: string) returns (suite: CheckRuns.SuiteResult)
      requires config.pollInterval > 0.0
      ensures SuiteWaited(c, head, suite)
    {
      hide CheckRuns.SuiteSeen, CheckRuns.Answer;
      var command: string := *;
      var clock := new CheckRuns.Clock(0.0);
      var feed := new CheckRuns.CheckFeed(config.run.reports(c.candidateId, head, NamedSuite));
      suite := CheckRuns.WaitForNamedSuite(feed, clock, Verify.CheckContext(c, config.run.verify), command,
                                           config.ciWaitTimeout, 0.0, config.pollInterval);
      assert feed.Last() == CheckRuns.Answer(ReportAt(config.run, c.candidateId, head, NamedSuite, feed.polls - 1));
    }

    function WatchedRow(c: Candidate, ci: CheckRuns.CiWaitResult, evidence: CriterionEvidence): Candidate {
      c.(checkRunConclusions := ci.conclusions, ciEvidenceMode := Some(ci.mode), criterionEvidence := Some(evidence))
    }

    function AwaitingRow(c: Candidate): Candidate {
      c.(runId := Some(config.run.id), state := CandidateState.AwaitingHumanMerge, reason := Some(ManualMergeRequired))
    }

    lemma ReadyToHandOver(log: seq<Candidate>, c: Candidate, ci: CheckRuns.CiWaitResult, evidence: CriterionEvidence)
      requires VerifiedOnRecord(log, c, config.run) && c.prNumber.Some?
      requires Watched(c.candidateId, ci) && ci.reason.None?
      requires JudgedAfter(evidence, c, c.headSha.value, config.run) && evidence.satisfied == Some(true)
      requires evidence.stage.PostPr?
      ensures Handover(log, AwaitingRow(WatchedRow(c, ci, evidence)), config.run)
    {
      var row := AwaitingRow(WatchedRow(c, ci, evidence));
      hide CheckRuns.Answer, CheckRuns.Passing, Verify.Verdict, CheckRuns.SuiteSeen, JudgedBefore;
      RecordSurvives(log, log, c, row, config.run);
      AfterOfSameSubject(evidence, c, row, c.headSha.value);
      var sha, k :| CheckRuns.Waited(ci, CheckRuns.Answer(ReportAt(config.run, c.candidateId, sha, WholeSnapshot, k)),
                                     config.run.requiredContexts);
      assert CheckRuns.Answer(ReportAt(config.run, row.candidateId, sha, WholeSnapshot,
                                       k)) == Success(row.checkRunConclusions);
    }

    lemma AfterOfSameSubject(e: CriterionEvidence, c: Candidate, c': Candidate, head: string)
      requires JudgedAfter(e, c, head, config.run) && Verify.SubjectOf(c) == Verify.SubjectOf(c')
      ensures JudgedAfter(e, c', head, config.run)
    {
      hide CheckRuns.Answer, CheckRuns.SuiteSeen, Verify.Verdict;
      var run := config.run;
      var suite, k :| && CheckRuns.SuiteSeen(suite, CheckRuns.Answer(ReportAt(run, c.candidateId, head, NamedSuite, k)),
                                             Verify.CheckContext(c, run.verify))
                      && Verify.Verdict(e, Verify.WithSuite(run.observe(c.candidateId, PostPr), suite), c, head,
                                        run.verify, PostPr);
      Verify.VerdictOfSameSubject(e, Verify.WithSuite(run.observe(c.candidateId, PostPr), suite), c, c', head,
                                  run.verify, PostPr);
      assert Verify.CheckContext(c', run.verify) == Verify.CheckContext(c, run.verify);
    }

    /** The merge gate: the criterion first, then the checks, and only then a human. */
    function GatedRow(c: Candidate, ci: CheckRuns.CiWaitResult, evidence: CriterionEvidence): Candidate {
      var watched := WatchedRow(c, ci, evidence);
      var over := watched.(runId := Some(config.run.id), state := CandidateState.Terminal);
      if evidence.satisfied != Some(true) then over.(reason := Some(ReasonOf(evidence)))
      else if ci.reason.Some? then over.(reason := ci.reason)
      else AwaitingRow(watched)
    }

    /** `d` records the verdict on what this run's observers and its wait for the suite showed at the recorded
        head and the checks its wait read, and follows from both. */
    ghost predicate Gated(c: Candidate, d: Candidate) {
      && d.criterionEvidence.Some?
      && JudgedAfter(d.criterionEvidence.value, c, OrElse(c.headSha, config.baseSha), config.run)
      && exists ci :: Watched(c.candidateId, ci) && d == GatedRow(c, ci, d.criterionEvidence.value)
    }

    lemma GatedByObservation(c: Candidate, ci: CheckRuns.CiWaitResult, evidence: CriterionEvidence)
      requires JudgedAfter(evidence, c, OrElse(c.headSha, config.baseSha), config.run) && Watched(c.candidateId, ci)
      ensures Gated(c, GatedRow(c, ci, evidence))
    {
      hide JudgedAfter, CandidateRunner.Watched;
    }

    /** Apply the merge gate: post-PR criterion and checks decide whether a human is asked to merge. */
    method SettleMerge(c: Candidate) returns (r: Result<Candidate, Failure>)
      requires Ready() && c.candidateId in store.started
      requires Working(host.Now(), c) && Latest(host.log, c.candidateId) == Some(c) && !IsSettled(c.state)
      requires c.prNumber.Some? && VerifiedOnRecord(host.log, c, config.run) && c.headSha.Some? && c.headSha.value != ""
      modifies host
      ensures After(c.candidateId, old(host.Now()), r) && old(host.states) <= host.states
      ensures host.world.ledger == old(host.world.ledger)
      ensures r.Success? ==> Gated(c, r.value)
      ensures r.Success? ==> r.value.state.AwaitingHumanMerge? || r.value.state.Terminal?
    {
      hide CandidateRunner.Ready, Latest, IdentityKnown, Continues, MayAppend, Advances, VerifiedOnRecord, Handover,
           CandidateRunner.Gated, CandidateRunner.Watched, JudgedAfter;
      var id := c.candidateId;
      ghost var s0 := host.Now();
      LiveOwesEvidence(c);
      var ci := WatchCi(id);
      ghost var s1 := host.Now();
      TimeKeepsWorking(id, s0, s1, c);
      if ci.Failure? {
        return Failure(ci.error);
      }
      var failure := Consult(id);
      ghost var s2 := host.Now();
      AdvancesTransitive(id, s0, s1, s2);
      TimeKeepsWorking(id, s1, s2, c);
      if failure.Some? {
        return Failure(failure.value);
      }
      var evidence := EvaluateAfter(c, OrElse(c.headSha, config.baseSha));
      GatedByObservation(c, ci.value, evidence);
      r := DecideMerge(c, ci.value, evidence);
      AdvancesTransitive(id, s0, s2, host.Now());
    }

    /** Evaluate the criterion with the seams available once the pull request exists: the suite is the named
        check of its head, waited for. */
    method EvaluateAfter(c: Candidate, head: string) returns (evidence: CriterionEvidence)
      requires Ready()
      ensures JudgedAfter(evidence, c, head, config.run)
      ensures evidence.satisfied == Some(true) ==> evidence.stage.PostPr?
    {
      hide CheckRuns.SuiteSeen, CheckRuns.Answer, Verify.CriterionMet, Verify.Truthful, Verify.StageFacts,
           Verify.CriterionDeferred;
      var suite := WaitForSuite(c, head);
      var observers := Verify.WithSuite(config.run.observe(c.candidateId, PostPr), suite);
      evidence := Verify.VerifyCandidate(c, head, observers, config.run.verify, PostPr);
      ghost var k :| CheckRuns.SuiteSeen(suite,
                                         CheckRuns.Answer(ReportAt(config.run, c.candidateId, head, NamedSuite, k)),
                                         Verify.CheckContext(c, config.run.verify));
    }

    /** A LIVE run always owes post-PR evidence, so the gate always evaluates it. */
    lemma LiveOwesEvidence(c: Candidate)
      requires Ready()
      ensures Verify.PostPrCriterionPending(c, config.run.verify)
    {}

    /** Write down what the gate decides. */
    method DecideMerge(c: Candidate, ci: CheckRuns.CiWaitResult, evidence: CriterionEvidence)
      returns (r: Result<Candidate, Failure>)
      requires Ready() && c.candidateId in store.started
      requires Working(host.Now(), c) && Unsettled(host.log, c.candidateId)
      requires c.prNumber.Some? && VerifiedOnRecord(host.log, c, config.run) && c.headSha.Some? && c.headSha.value != ""
      requires JudgedAfter(evidence, c, c.headSha.value, config.run) && Watched(c.candidateId, ci)
      requires evidence.satisfied == Some(true) ==> evidence.stage.PostPr?
      modifies host
      ensures After(c.candidateId, old(host.Now()), r) && old(host.states) <= host.states
      ensures host.world == old(host.world)
      ensures r.Success? ==> r.value == GatedRow(c, ci, evidence)
      ensures r.Failure? ==> NotWritten(r.error, old(host.log))
    {
      hide CandidateRunner.Ready, Latest, IdentityKnown, Continues, MayAppend, Advances, VerifiedOnRecord, Handover,
           CandidateRunner.Watched, JudgedAfter;
      var watched := WatchedRow(c, ci, evidence);
      SameIdentityWorks(host.Now(), c, watched);
      if evidence.satisfied != Some(true) {
        r := Terminal(watched, ReasonOf(evidence));
      } else if ci.reason.Some? {
        r := Terminal(watched, ci.reason.value);
      } else {
        SameIdentityWorks(host.Now(), c, AwaitingRow(watched));
        ReadyToHandOver(host.log, c, ci, evidence);
        r := Persist(AwaitingRow(watched));
      }
    }

    // ---- one candidate's whole turn --------------------------------------------------------------

    /** Run one candidate from dispatch to its terminal or deferred row. Whatever happens on the way, the
        trace stays an execution of the protocol, only this candidate is written for, and only a dying
        process or an uncaught exception leaves it without a row or with an unfinished one. */
    method Process(c: Candidate) returns (r: Result<Candidate, Failure>)
      requires WithinCeiling() && Ready() && c.candidateId !in store.started && PlainId(c.candidateId)
      requires Normalized(host.log, c) && Placed(host.world, c)
      requires Publishing(c.action) ==> c.state.Dispatching?
      modifies host, store, client, sessions
      ensures Ready() && old(host.states) <= host.states
      ensures store.started <= old(store.started) + {c.candidateId}
      ensures Advances(c.candidateId, old(host.Now()), host.Now())
      ensures r.Failure? ==> r.error.Killed? || r.error.Aborted?
      ensures SessionCount(host.world.ledger) <= SessionCount(old(host.world.ledger)) + MAX_SESSION_ATTEMPTS
      ensures r.Success? ==> r.value.candidateId == c.candidateId
      ensures !Publishing(c.action) ==> r == Success(c) && host.Now() == old(host.Now())
      ensures r.Success? && Publishing(c.action) ==> Reported(host.log, r.value)
      ensures r.Success? && Publishing(c.action) ==>
                || Ended(r.value.state)
                || (c.action == Some(OpenIssue) && r.value.state.IssueCreated? && r.value.issueNumber.Some?)
      ensures c.action != Some(OpenPr) ==> TracksOnly(old(host.world.ledger), host.world.ledger)
      ensures !Unsettled(old(host.log), c.candidateId) ==> host.world.ledger == old(host.world.ledger)
      ensures host.world.ledger == old(host.world.ledger)
              || (c.candidateId in store.markerOutcomes
                  && (store.markerOutcomes[c.candidateId].Found? || store.markerOutcomes[c.candidateId].Absent?))
      ensures r.Success? && Publishing(c.action) && !Ended(r.value.state) ==>
                && c.candidateId in store.markerOutcomes
                && (store.markerOutcomes[c.candidateId].Found? || store.markerOutcomes[c.candidateId].Absent?)
      ensures WithinCeiling() && Uncounted() == old(Uncounted())
    {
      hide Sessions.WithinCeilings, Sessions.Roomy, CandidateRunner.Ready, Latest, IdentityKnown, Continues, MayAppend,
           Advances, Normalized, Unsettled, Working;
      var id := c.candidateId;
      ghost var s0 := host.Now();
      if !Publishing(c.action) {
        AdvancesReflexive(id, s0);
        return Success(c);
      }
      var reconciled := Reconcile(c);
      ghost var s1 := host.Now();
      if reconciled.Failure? {
        if reconciled.error.Killed? {
          return Failure(Killed);
        }
        r := DeferUnavailable(c, s0);
        AdvancesTransitive(id, s0, s1, host.Now());
        return;
      }
      if Ended(reconciled.value.state) {
        return Success(reconciled.value);
      }
      r := Publish(reconciled.value);
      ghost var s2 := host.Now();
      AdvancesTransitive(id, s0, s1, s2);
      if r.Failure? && Deferrable(r.error) {
        r := DeferUnavailable(c, s0);
        AdvancesTransitive(id, s0, s2, host.Now());
      }
    }

    /** The candidate's last row, or the candidate itself. */
    function LastOr(log: seq<Candidate>, c: Candidate): (d: Candidate)
      ensures d.candidateId == c.candidateId
    {
      var latest := Latest(log, c.candidateId);
      if latest.Some? then latest.value else c
    }

    /** A settled last row that proves an artifact may not be followed by its own deferral; any other may. */
    lemma DeferralIsRefusedOnceSettled(log: seq<Candidate>, c: Candidate)
      ensures MayAppend(log, UnavailableRow(config, LastOr(log, c))) <==> Unsettled(log, c.candidateId)
    {
      hide Latest;
    }

    /** A call failed: defer the candidate's last row, or the candidate itself when it has none. A row the
        settlement rule refuses, or a file that still cannot be written, ends the run. */
    method DeferUnavailable(c: Candidate, ghost start: Snapshot) returns (r: Result<Candidate, Failure>)
      requires Ready() && c.candidateId in store.started
      requires Normalized(start.log, c) && Placed(start.world, c) && Advances(c.candidateId, start, host.Now())
      modifies host
      ensures Ready() && old(host.states) <= host.states && host.world == old(host.world)
      ensures Advances(c.candidateId, old(host.Now()), host.Now())
      ensures r.Success? ==>
                && r.value == UnavailableRow(config, LastOr(old(host.log), c))
                && r.value.candidateId == c.candidateId && Latest(host.log, c.candidateId) == Some(r.value)
      ensures r.Failure? ==> r.error.Killed? || r.error.Aborted?
      ensures !Unsettled(old(host.log), c.candidateId) ==> r == Failure(Aborted) && host.log == old(host.log)
    {
      hide CandidateRunner.Ready, IdentityKnown, Invariant, Advances;
      SafeNow();
      LastRowWorks(start, host.Now(), c);
      DeferralIsRefusedOnceSettled(host.log, c);
      var row := UnavailableRow(config, LastOr(host.log, c));
      SameIdentityWorks(host.Now(), LastOr(host.log, c), row);
      if !MayAppend(host.log, row) {
        AdvancesReflexive(c.candidateId, host.Now());
        return Failure(Aborted);
      }
      r := Persist(row);
      if r.Failure? && !r.error.Killed? {
        r := Failure(Aborted);
      }
    }

    lemma LastRowWorks(start: Snapshot, s: Snapshot, c: Candidate)
      requires Invariant(s) && Normalized(start.log, c) && Placed(start.world, c) && Advances(c.candidateId, start, s)
      ensures Working(s, LastOr(s.log, c))
    {
      var latest := Latest(s.log, c.candidateId);
      if latest.Some? {
        LoggedRowIsKnown(s, latest.value);
      }
    }

    /** The publishing half of a turn. */
    method Publish(c: Candidate) returns (r: Result<Candidate, Failure>)
      requires WithinCeiling() && Ready() && c.candidateId in store.started && Publishing(c.action)
      requires Working(host.Now(), c) && Unsettled(host.log, c.candidateId)
      requires c.issueNumber.Some? || MayTrack(c.candidateId)
      requires c.mergedAt.None?
      modifies host, client, sessions
      ensures After(c.candidateId, old(host.Now()), r) && old(host.states) <= host.states
      ensures SessionCount(host.world.ledger) <= SessionCount(old(host.world.ledger)) + MAX_SESSION_ATTEMPTS
      ensures r.Success? ==>
                || Ended(r.value.state)
                || (c.action == Some(OpenIssue) && r.value.state.IssueCreated? && r.value.issueNumber.Some?)
      ensures c.action == Some(OpenIssue) ==> TracksOnly(old(host.world.ledger), host.world.ledger)
      ensures WithinCeiling() && Uncounted() == old(Uncounted())
    {
      hide Sessions.WithinCeilings, Sessions.Roomy, CandidateRunner.Ready, Latest, IdentityKnown, Continues, MayAppend,
           Advances, Working;
      var id := c.candidateId;
      ghost var s0 := host.Now();
      r := PublishIssue(c);
      NoSessionsKeepCount(s0.world.ledger, host.world.ledger);
      if r.Failure? || Ended(r.value.state) || c.action == Some(OpenIssue) {
        return;
      }
      ghost var s1 := host.Now();
      r := DispatchBranch(r.value);
      ghost var s2 := host.Now();
      AdvancesTransitive(id, s0, s1, s2);
      if r.Failure? || Ended(r.value.state) {
        return;
      }
      r := FinishPull(r.value);
      NoSessionsKeepCount(s2.world.ledger, host.world.ledger);
      AdvancesTransitive(id, s0, s2, host.Now());
    }

    /** From a finished session to the merge gate. */
    method FinishPull(c: Candidate) returns (r: Result<Candidate, Failure>)
      requires Ready() && c.candidateId in store.started
      requires Working(host.Now(), c) && Latest(host.log, c.candidateId) == Some(c) && c.state.SessionDone?
      requires c.headBranch.Some? && c.headSha.Some? && c.headSha.value != "" && c.mergedAt.None?
      modifies host
      ensures After(c.candidateId, old(host.Now()), r) && old(host.states) <= host.states
      ensures NoSessions(old(host.world.ledger), host.world.ledger)
      ensures r.Success? ==> Ended(r.value.state)
    {
      hide CandidateRunner.Ready, Latest, IdentityKnown, Continues, MayAppend, Advances, Working, VerifiedOnRecord;
      var id := c.candidateId;
      ghost var s0 := host.Now();
      r := VerifyHead(c);
      ghost var s1 := host.Now();
      if r.Failure? || Ended(r.value.state) {
        return;
      }
      r := PublishPull(r.value);
      ghost var s2 := host.Now();
      AdvancesTransitive(id, s0, s1, s2);
      if r.Failure? || Ended(r.value.state) {
        return;
      }
      r := SettleMerge(r.value);
      AdvancesTransitive(id, s0, s2, host.Now());
    }

    // ---- after the run ---------------------------------------------------------------------------

    /** Look once more at a pull request that waits for a human, without re-entering publication. */
    method ReobserveMerge(c: Candidate) returns (r: Result<Option<Candidate>, Failure>)
      requires Ready() && c.candidateId in store.started
      requires Latest(host.log, c.candidateId) == Some(c) && c.state.AwaitingHumanMerge?
      modifies host
      ensures Ready() && old(host.states) <= host.states
      ensures Advances(c.candidateId, old(host.Now()), host.Now()) && host.world.ledger == old(host.world.ledger)
      ensures r.Failure? ==> r.error.Killed? || r.error.Aborted?
      ensures r.Success? && r.value.None? ==> host.log == old(host.log)
      ensures r.Success? && r.value.Some? ==>
                exists seen :: seen in host.world.pulls && c.prNumber == Some(seen.number) && !seen.isOpen
                            && r.value.value == PullRow(c, seen) && Latest(host.log, c.candidateId) == r.value
    {
      hide CandidateRunner.Ready, Latest, IdentityKnown, Continues, Advances, Invariant;
      var id := c.candidateId;
      ghost var s0 := host.Now();
      AdvancesReflexive(id, s0);
      if c.prNumber.None? {
        return Success(None);
      }
      var read := ReadPull(id, c.prNumber.value);
      ghost var s1 := host.Now();
      if read.Failure? {
        return if read.error.Killed? then Failure(Killed) else Success(None);
      }
      if read.value.None? || read.value.value.isOpen {
        return Success(None);
      }
      SafeNow();
      LoggedRowIsKnown(s1, c);
      PersistedWorks(s1, c);
      r := RecordEnd(c, c, read.value.value);
      AdvancesTransitive(id, s0, s1, host.Now());
      if r.Failure? && !r.error.Killed? {
        r := Failure(Aborted);
      }
    }

    lemma PersistedWorks(s: Snapshot, c: Candidate)
      requires RowKnown(s.world, c) && Latest(s.log, c.candidateId) == Some(c)
      ensures Working(s, c)
    {}
  }
}
