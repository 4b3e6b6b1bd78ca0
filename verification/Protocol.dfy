/**
 The publication protocol as a transition system over what outlives a process: the fork on GitHub and
 the append-only state file. Every remote write and every durable append is one step, so a run may die
 between any two of them. The runner (module Runner) is proved to take no other steps.

 Assumptions about the environment: one run at a time; tracking issues keep the body they were
 created with; pull requests and issues are never deleted; a merge is permanent; the state file
 survives. Humans may open, close, reopen and merge pull requests, open issues with any body, and
 move or delete branches at any moment.
 */
module Protocol {
  import opened Wrappers
  import opened Schemas
  import opened Settlement
  import opened Markers
  import MarkerIndex
  import CheckRuns
  import Verify

  datatype Issue = Issue(number: nat, url: string, body: string)

  datatype Pull = Pull(number: nat, url: string, head: string, isOpen: bool, mergedAt: Option<string>)

  /** The server-side ledger of the pipeline's own remote writes. A session write is a creation request that
      took effect, `answered` when its response also reached the pipeline. An issue or a pull request is
      `misread` when the answer that should have shown an earlier one may have missed it: it was malformed and
      read as empty, or came from a search index that lags behind. */
  datatype RemoteWrite =
    | LabelWrite(name: string)
    | IssueWrite(id: string, number: nat, misread: bool)
    | BranchWrite(id: string, branch: string)
    | SessionWrite(id: string, answered: bool)
    | PullWrite(id: string, head: string, number: nat, misread: bool)

  /** `nodes` says which test node, if any, a candidate id was digested from. */
  datatype World = World(
    issues: seq<Issue>,
    pulls: seq<Pull>,
    branches: map<string, string>,
    nodes: map<string, Option<string>>,
    ledger: seq<RemoteWrite>)

  function NodeOf(w: World, id: string): Option<string> {
    if id in w.nodes then w.nodes[id] else None
  }

  /** The two waits of the merge gate. */
  datatype Wait = WholeSnapshot | NamedSuite

  /** What one run brings along: its id and configuration, what its observers answer for each candidate
      and stage, and what the checks of a commit report at every read of a wait. */
  datatype Run = Run(
    id: string,
    requiredContexts: seq<string>,
    verify: Verify.Config,
    observe: (string, Stage) -> Verify.Observers,
    reports: (string, string, Wait) -> (nat -> CheckRuns.Report))

  function ReportAt(run: Run, id: string, sha: string, wait: Wait, k: nat): CheckRuns.Report {
    run.reports(id, sha, wait)(k)
  }

  /** Everything that survives a kill. */
  datatype Snapshot = Snapshot(world: World, log: seq<Candidate>)

  datatype Step =
    | Outside
    | CreateLabel(name: string)
    | CreateIssue(id: string, issue: Issue, misread: bool)
    | CreateBranch(id: string, branch: string, sha: string)
    | PostSession(id: string, answered: bool)
    | OpenPull(id: string, pull: Pull, misread: bool)
    | AppendRow(row: Candidate, run: Run)

  // ---- reading the world ---------------------------------------------------------------------

  /** The link of an issue, as opposed to a pull request. */
  predicate IssueLink(url: string) {
    url != "" && !MarkerIndex.PullLink(url, 0)
  }

  predicate WellFormedWorld(w: World) {
    && (forall i, j :: 0 <= i < j < |w.pulls| ==> w.pulls[i].number != w.pulls[j].number)
    && (forall i, j :: 0 <= i < j < |w.issues| ==> w.issues[i].number != w.issues[j].number)
    && (forall i :: 0 <= i < |w.pulls| ==> w.pulls[i].mergedAt.Some? ==> !w.pulls[i].isOpen)
    && (forall i :: 0 <= i < |w.issues| ==> IssueLink(w.issues[i].url))
  }

  ghost predicate HasIssue(w: World, number: nat, url: string, id: string) {
    exists k :: 0 <= k < |w.issues| && w.issues[k].number == number && w.issues[k].url == url
             && Carries(w.issues[k].body, id)
  }

  ghost predicate HasPull(w: World, number: nat, url: string, head: string) {
    exists k :: 0 <= k < |w.pulls| && w.pulls[k].number == number && w.pulls[k].url == url && w.pulls[k].head == head
  }

  ghost predicate MergedPull(w: World, number: nat, at: string) {
    exists k :: 0 <= k < |w.pulls| && w.pulls[k].number == number && w.pulls[k].mergedAt == Some(at)
  }

  /** `<prefix>/<candidate id>`, whatever the prefix of the run that chose it. */
  predicate OwnBranch(branch: string, id: string) {
    |branch| > |id| && branch[|branch| - |id| - 1..] == "/" + id
  }

  /** A branch belongs to one candidate only. */
  lemma BranchOwnerIsUnique(branch: string, a: string, b: string)
    requires OwnBranch(branch, a) && OwnBranch(branch, b)
    requires '/' !in a && '/' !in b
    ensures a == b
  {
    if |a| <= |b| {
      BranchSuffix(branch, a, b);
    } else {
      BranchSuffix(branch, b, a);
    }
  }

  lemma ShorterOwnerShowsSlash(branch: string, a: string, b: string)
    requires OwnBranch(branch, a) && OwnBranch(branch, b) && |a| < |b|
    ensures '/' in b
  {
    var n := |branch|;
    var tailA, tailB := branch[n - |a| - 1..], branch[n - |b| - 1..];
    assert tailA == "/" + a && tailB == "/" + b;
    assert branch[n - |a| - 1] == tailA[0] == '/';
    assert tailB[|b| - |a|] == branch[n - |a| - 1];
    assert b[|b| - |a| - 1] == tailB[|b| - |a|];
  }

  lemma BranchSuffix(branch: string, a: string, b: string)
    requires OwnBranch(branch, a) && OwnBranch(branch, b) && |a| <= |b|
    requires '/' !in b
    ensures a == b
  {
    if |a| < |b| {
      ShorterOwnerShowsSlash(branch, a, b);
    } else {
      assert ("/" + a)[1..] == a && ("/" + b)[1..] == b;
    }
  }

  // ---- what a durable row may claim ----------------------------------------------------------

  /** Every artifact a candidate names exists, and is its own; nothing is simulated. */
  ghost predicate IdentityKnown(w: World, c: Candidate) {
    && (c.issueNumber.Some? <==> c.issueUrl.Some?)
    && (c.issueNumber.Some? ==> HasIssue(w, c.issueNumber.value, c.issueUrl.value, c.candidateId))
    && (c.prNumber.Some? <==> c.prUrl.Some?)
    && (c.prNumber.Some? ==> c.headBranch.Some? && HasPull(w, c.prNumber.value, c.prUrl.value, c.headBranch.value))
    && (c.headBranch.Some? ==> c.issueNumber.Some? && OwnBranch(c.headBranch.value, c.candidateId))
    && (c.headSha.Some? ==> c.headBranch.Some?)
    && (c.mergedAt.Some? ==> c.prNumber.Some? && MergedPull(w, c.prNumber.value, c.mergedAt.value))
    && (c.mergeVerified ==> c.mergedAt.Some?)
    && c.nodeid == NodeOf(w, c.candidateId)
    && !c.artifactSimulated
  }

  ghost predicate RowKnown(w: World, row: Candidate) {
    IdentityKnown(w, row) && (row.state.Merged? ==> row.mergedAt.Some?)
  }

  /** Once a row names a branch, every later row of that candidate names the same branch. */
  predicate HeadKept(log: seq<Candidate>, row: Candidate) {
    var latest := Latest(log, row.candidateId);
    latest.Some? && latest.value.headBranch.Some? ==> row.headBranch == latest.value.headBranch
  }

  /** The row's check snapshot is one the run's wait really read, and it passes the run's own rule. */
  ghost predicate ChecksPassed(row: Candidate, run: Run) {
    && CheckRuns.Passing(row.checkRunConclusions, run.requiredContexts)
    && exists sha, k ::
         CheckRuns.Answer(ReportAt(run, row.candidateId, sha, WholeSnapshot, k)) == Success(row.checkRunConclusions)
  }

  /** The post-PR verdict is what the run's observers and its wait for the covering suite showed at `head`. */
  ghost predicate JudgedAfter(e: CriterionEvidence, c: Candidate, head: string, run: Run) {
    exists suite, k ::
      && CheckRuns.SuiteSeen(suite, CheckRuns.Answer(ReportAt(run, c.candidateId, head, NamedSuite, k)),
                             Verify.CheckContext(c, run.verify))
      && Verify.Verdict(e, Verify.WithSuite(run.observe(c.candidateId, PostPr), suite), c, head, run.verify, PostPr)
  }

  /** The pre-PR verdict is what the run's observers showed at `head`. */
  ghost predicate JudgedBefore(e: CriterionEvidence, c: Candidate, head: string, run: Run) {
    Verify.Verdict(e, run.observe(c.candidateId, PrePr), c, head, run.verify, PrePr)
  }

  /** An earlier row of the same run, candidate and head whose pre-PR verdict did not fail. */
  ghost predicate Underpins(v: Candidate, row: Candidate, run: Run) {
    && v.state.Verified? && v.runId == Some(run.id) && v.headSha == row.headSha && v.headSha.Some?
    && Verify.SubjectOf(v) == Verify.SubjectOf(row)
    && v.criterionEvidence.Some? && v.criterionEvidence.value.satisfied != Some(false)
    && JudgedBefore(v.criterionEvidence.value, v, v.headSha.value, run)
  }

  /** What must be on record before a human is asked to merge, all of it from the run that asks: a passing
      check snapshot, a satisfied post-PR verdict and an earlier pre-PR verdict, both verdicts what this
      run's observers returned at the row's one recorded head. */
  ghost predicate Handover(log: seq<Candidate>, row: Candidate, run: Run) {
    && row.runId == Some(run.id) && row.prNumber.Some? && row.headSha.Some?
    && ChecksPassed(row, run)
    && row.criterionEvidence.Some?
    && row.criterionEvidence.value.satisfied == Some(true)
    && row.criterionEvidence.value.stage.PostPr?
    && JudgedAfter(row.criterionEvidence.value, row, row.headSha.value, run)
    && exists v :: v in log && Underpins(v, row, run)
  }

  /** Nothing the settlement rule protects stands in the way of another row. */
  predicate Unsettled(log: seq<Candidate>, id: string) {
    var p := Latest(log, id);
    p.Some? ==> !SettledWithArtifact(p.value)
  }

  /** No row of the candidate names a tracking issue yet. */
  predicate Untracked(log: seq<Candidate>, id: string) {
    var p := Latest(log, id);
    p.Some? ==> p.value.issueNumber.None?
  }

  // ---- steps -----------------------------------------------------------------------------------

  predicate NoIssueWrite(w: World, id: string) {
    forall k :: 0 <= k < |w.ledger| ==> w.ledger[k].IssueWrite? ==> w.ledger[k].id != id
  }

  /** GitHub takes one open pull request per head. */
  predicate NoOpenPull(w: World, head: string) {
    forall k :: 0 <= k < |w.pulls| ==> w.pulls[k].head == head ==> !w.pulls[k].isOpen
  }

  predicate NoPullWrite(w: World, id: string) {
    forall k :: 0 <= k < |w.ledger| ==> w.ledger[k].PullWrite? ==> w.ledger[k].id != id
  }

  /** The world only grows, and merges stay; `ledger` may gain entries. */
  predicate Later(w: World, w': World) {
    && (WellFormedWorld(w) ==> WellFormedWorld(w'))
    && w'.nodes == w.nodes
    && |w.issues| <= |w'.issues| && |w.pulls| <= |w'.pulls|
    && (forall k :: 0 <= k < |w.issues| ==> w'.issues[k] == w.issues[k])
    && (forall k :: 0 <= k < |w.pulls| ==>
          && w'.pulls[k].number == w.pulls[k].number
          && w'.pulls[k].url == w.pulls[k].url
          && w'.pulls[k].head == w.pulls[k].head
          && (w.pulls[k].mergedAt.Some? ==> w'.pulls[k].mergedAt == w.pulls[k].mergedAt))
    && w.ledger <= w'.ledger
  }

  /** Anything but the pipeline: humans, sessions and GitHub itself. */
  predicate Evolves(w: World, w': World) {
    Later(w, w') && w'.ledger == w.ledger
  }

  predicate FreshNumber(w: World, number: nat) {
    && (forall k :: 0 <= k < |w.issues| ==> w.issues[k].number != number)
    && (forall k :: 0 <= k < |w.pulls| ==> w.pulls[k].number != number)
  }

  /** A number no issue and no pull request uses. */
  function NextNumber(w: World): (n: nat)
    ensures FreshNumber(w, n)
  {
    var a, b := AboveIssues(w.issues), AbovePulls(w.pulls);
    if a > b then a else b
  }

  function AboveIssues(issues: seq<Issue>): (m: nat)
    ensures forall k :: 0 <= k < |issues| ==> issues[k].number < m
  {
    if issues == [] then 1
    else
      var m := AboveIssues(issues[1..]);
      if issues[0].number >= m then issues[0].number + 1 else m
  }

  function AbovePulls(pulls: seq<Pull>): (m: nat)
    ensures forall k :: 0 <= k < |pulls| ==> pulls[k].number < m
  {
    if pulls == [] then 1
    else
      var m := AbovePulls(pulls[1..]);
      if pulls[0].number >= m then pulls[0].number + 1 else m
  }

  ghost predicate Takes(s: Snapshot, step: Step, s': Snapshot) {
    match step
    case Outside => Evolves(s.world, s'.world) && s'.log == s.log
    case CreateLabel(name) =>
      s' == s.(world := s.world.(ledger := s.world.ledger + [LabelWrite(name)]))
    case CreateIssue(id, issue, misread) =>
      && (misread || NoIssueWrite(s.world, id)) && Carries(issue.body, id) && Untracked(s.log, id)
      && FreshNumber(s.world, issue.number) && IssueLink(issue.url)
      && s' == s.(world := s.world.(issues := s.world.issues + [issue],
                                    ledger := s.world.ledger + [IssueWrite(id, issue.number, misread)]))
    case CreateBranch(id, branch, sha) =>
      && Latest(s.log, id).Some? && Latest(s.log, id).value.headBranch == Some(branch) && Unsettled(s.log, id)
      && s' == s.(world := s.world.(branches := s.world.branches[branch := sha],
                                    ledger := s.world.ledger + [BranchWrite(id, branch)]))
    case PostSession(id, answered) =>
      && Latest(s.log, id).Some? && Latest(s.log, id).value.headBranch.Some? && Unsettled(s.log, id)
      && s' == s.(world := s.world.(ledger := s.world.ledger + [SessionWrite(id, answered)]))
    case OpenPull(id, pull, misread) =>
      && (misread || NoPullWrite(s.world, id)) && FreshNumber(s.world, pull.number)
      && pull.isOpen && pull.mergedAt.None? && NoOpenPull(s.world, pull.head) && Unsettled(s.log, id)
      && Latest(s.log, id).Some? && Latest(s.log, id).value.prNumber.None?
      && Latest(s.log, id).value.headBranch == Some(pull.head)
      && s' == s.(world := s.world.(pulls := s.world.pulls + [pull],
                                    ledger := s.world.ledger + [PullWrite(id, pull.head, pull.number, misread)]))
    case AppendRow(row, run) =>
      && RowKnown(s.world, row) && HeadKept(s.log, row) && Admitted(s.log, row)
      && (row.state.AwaitingHumanMerge? ==> Handover(s.log, row, run))
      && s' == s.(log := s.log + [row])
  }

  // ---- what one candidate's turn may change ------------------------------------------------

  predicate Concerns(write: RemoteWrite, id: string) {
    write.LabelWrite? || write.id == id
  }

  /** From `s` to `s'` the outside world moved on, and the pipeline wrote for candidate `id` only. */
  ghost predicate Advances(id: string, s: Snapshot, s': Snapshot) {
    && Later(s.world, s'.world)
    && s.log <= s'.log
    && (forall k :: |s.log| <= k < |s'.log| ==> s'.log[k].candidateId == id)
    && (forall k :: |s.world.ledger| <= k < |s'.world.ledger| ==> Concerns(s'.world.ledger[k], id))
  }

  /** Nothing beyond labels and tracking issues was written. */
  predicate TracksOnly(before: seq<RemoteWrite>, after: seq<RemoteWrite>) {
    before <= after
    && forall k :: |before| <= k < |after| ==> after[k].LabelWrite? || after[k].IssueWrite?
  }

  /** No session was asked for. */
  predicate NoSessions(before: seq<RemoteWrite>, after: seq<RemoteWrite>) {
    before <= after && forall k :: |before| <= k < |after| ==> !after[k].SessionWrite?
  }

  function SessionCount(ledger: seq<RemoteWrite>): nat {
    if ledger == [] then 0
    else
      var n := |ledger| - 1;
      SessionCount(ledger[..n]) + if ledger[n].SessionWrite? then 1 else 0
  }

  /** Of these, the requests whose response reached the pipeline, and those whose response was lost. */
  function AnsweredCount(ledger: seq<RemoteWrite>): nat {
    if ledger == [] then 0
    else
      var n := |ledger| - 1;
      AnsweredCount(ledger[..n]) + if ledger[n].SessionWrite? && ledger[n].answered then 1 else 0
  }

  function LostCount(ledger: seq<RemoteWrite>): nat {
    if ledger == [] then 0
    else
      var n := |ledger| - 1;
      LostCount(ledger[..n]) + if ledger[n].SessionWrite? && !ledger[n].answered then 1 else 0
  }

  lemma {:induction false} AnsweredOrLost(ledger: seq<RemoteWrite>)
    ensures SessionCount(ledger) == AnsweredCount(ledger) + LostCount(ledger)
  {
    if ledger != [] {
      AnsweredOrLost(ledger[..|ledger| - 1]);
    }
  }

  lemma {:induction false} NoSessionsKeepCount(before: seq<RemoteWrite>, after: seq<RemoteWrite>)
    requires NoSessions(before, after)
    ensures SessionCount(after) == SessionCount(before) && AnsweredCount(after) == AnsweredCount(before)
  {
    if |after| > |before| {
      NoSessionsKeepCount(before, after[..|after| - 1]);
    } else {
      assert before == after;
    }
  }

  lemma SessionCountAppend(ledger: seq<RemoteWrite>, write: RemoteWrite)
    ensures SessionCount(ledger + [write]) == SessionCount(ledger) + if write.SessionWrite? then 1 else 0
    ensures AnsweredCount(ledger + [write])
         == AnsweredCount(ledger) + if write.SessionWrite? && write.answered then 1 else 0
  {
    assert (ledger + [write])[..|ledger|] == ledger;
  }

  lemma AdvancesReflexive(id: string, s: Snapshot)
    ensures Advances(id, s, s)
  {}

  lemma AdvancesTransitive(id: string, a: Snapshot, b: Snapshot, c: Snapshot)
    requires Advances(id, a, b) && Advances(id, b, c)
    ensures Advances(id, a, c)
  {
    LaterTransitive(a.world, b.world, c.world);
  }

  /** Other candidates' rows are untouched. */
  lemma {:induction false} AdvancesKeepsOthers(id: string, s: Snapshot, s': Snapshot, other: string)
    requires Advances(id, s, s') && other != id
    ensures Latest(s'.log, other) == Latest(s.log, other)
  {
    hide Latest, Later;
    var tail := s'.log[|s.log|..];
    LatestConcat(s.log, tail, other);
    assert s.log + tail == s'.log;
    assert forall c :: c in tail ==> c.candidateId == id;
  }

  // ---- the invariant ---------------------------------------------------------------------------

  ghost predicate LedgerBacked(s: Snapshot, write: RemoteWrite) {
    match write
    case LabelWrite(_) => true
    case IssueWrite(id, number, _) =>
      exists k :: 0 <= k < |s.world.issues| && s.world.issues[k].number == number && Carries(s.world.issues[k].body, id)
    case BranchWrite(id, branch) => Latest(s.log, id).Some? && Latest(s.log, id).value.headBranch == Some(branch)
    case SessionWrite(id, _) => Latest(s.log, id).Some? && Latest(s.log, id).value.headBranch.Some?
    case PullWrite(id, head, number, _) =>
      && Latest(s.log, id).Some? && Latest(s.log, id).value.headBranch == Some(head)
      && exists k :: 0 <= k < |s.world.pulls| && s.world.pulls[k].number == number && s.world.pulls[k].head == head
  }

  /** No two writes publish the same kind of artifact for one candidate, except that a misread answer may
      have let a later one through. */
  predicate Compatible(a: RemoteWrite, b: RemoteWrite) {
    && (a.IssueWrite? && b.IssueWrite? && a.id == b.id ==> b.misread)
    && (a.PullWrite? && b.PullWrite? && a.id == b.id ==> b.misread)
    && (a.BranchWrite? && b.BranchWrite? && a.id == b.id ==> a.branch == b.branch)
  }

  ghost predicate Invariant(s: Snapshot) {
    && WellFormedWorld(s.world)
    && WellFormed(s.log)
    && (forall k {:trigger RowKnown(s.world, s.log[k])} :: 0 <= k < |s.log| ==> RowKnown(s.world, s.log[k]))
    && (forall k {:trigger HeadKept(s.log[..k], s.log[k])} :: 0 <= k < |s.log| ==> HeadKept(s.log[..k], s.log[k]))
    && (forall k {:trigger LedgerBacked(s, s.world.ledger[k])} :: 0 <= k < |s.world.ledger| ==>
          LedgerBacked(s, s.world.ledger[k]))
    && (forall i, j :: 0 <= i < j < |s.world.ledger| ==> Compatible(s.world.ledger[i], s.world.ledger[j]))
  }

  predicate Initial(s: Snapshot) {
    s.log == [] && s.world.ledger == []
  }

  lemma InitialIsSafe(s: Snapshot)
    requires Initial(s) && WellFormedWorld(s.world)
    ensures Invariant(s)
  {}

  /** Consecutive snapshots of any number of runs, each killed wherever it was killed, from any safe start:
      an empty state file, or one restored from earlier runs. */
  ghost predicate Execution(states: seq<Snapshot>, steps: seq<Step>) {
    && |states| == |steps| + 1
    && Invariant(states[0])
    && forall k :: 0 <= k < |steps| ==> Takes(states[k], steps[k], states[k + 1])
  }

  // ---- knowledge is never invalidated ---------------------------------------------------------

  lemma LaterKeepsIdentity(w: World, w': World, c: Candidate)
    requires Later(w, w') && IdentityKnown(w, c)
    ensures IdentityKnown(w', c)
  {
    if c.issueNumber.Some? {
      var k :| 0 <= k < |w.issues| && w.issues[k].number == c.issueNumber.value
            && w.issues[k].url == c.issueUrl.value && Carries(w.issues[k].body, c.candidateId);
      assert w'.issues[k] == w.issues[k];
    }
    if c.prNumber.Some? {
      var k :| 0 <= k < |w.pulls| && w.pulls[k].number == c.prNumber.value
            && w.pulls[k].url == c.prUrl.value && w.pulls[k].head == c.headBranch.value;
      assert w'.pulls[k].number == w.pulls[k].number;
    }
    if c.mergedAt.Some? {
      var k :| 0 <= k < |w.pulls| && w.pulls[k].number == c.prNumber.value && w.pulls[k].mergedAt == c.mergedAt;
      assert w'.pulls[k].mergedAt == w.pulls[k].mergedAt;
    }
  }

  lemma LaterTransitive(a: World, b: World, c: World)
    requires Later(a, b) && Later(b, c)
    ensures Later(a, c)
  {}

  lemma StepIsLater(s: Snapshot, step: Step, s': Snapshot)
    requires Takes(s, step, s')
    ensures Later(s.world, s'.world)
    ensures s.log <= s'.log
  {}

  lemma LedgerStaysBacked(s: Snapshot, step: Step, s': Snapshot, write: RemoteWrite)
    requires Takes(s, step, s') && LedgerBacked(s, write)
    ensures LedgerBacked(s', write)
  {
    StepIsLater(s, step, s');
    if step.AppendRow? {
      LatestAppend(s.log, step.row);
    }
    match write
    case IssueWrite(id, number, _) =>
      var k :| 0 <= k < |s.world.issues| && s.world.issues[k].number == number && Carries(s.world.issues[k].body, id);
      assert s'.world.issues[k] == s.world.issues[k];
    case PullWrite(id, head, number, _) =>
      var k :| 0 <= k < |s.world.pulls| && s.world.pulls[k].number == number && s.world.pulls[k].head == head;
      assert s'.world.pulls[k].number == number && s'.world.pulls[k].head == head;
    case _ =>
  }

  lemma NewWriteIsBacked(s: Snapshot, step: Step, s': Snapshot)
    requires Takes(s, step, s') && |s'.world.ledger| > |s.world.ledger|
    ensures |s'.world.ledger| == |s.world.ledger| + 1
    ensures LedgerBacked(s', s'.world.ledger[|s.world.ledger|])
  {
    match step
    case CreateIssue(id, issue, _) =>
      assert s'.world.issues[|s.world.issues|] == issue;
    case OpenPull(id, pull, _) =>
      assert s'.world.pulls[|s.world.pulls|] == pull;
    case _ =>
  }

  lemma NewWriteIsCompatible(s: Snapshot, step: Step, s': Snapshot, i: nat)
    requires Invariant(s) && Takes(s, step, s') && |s'.world.ledger| > |s.world.ledger|
    requires i < |s.world.ledger|
    ensures Compatible(s.world.ledger[i], s'.world.ledger[|s.world.ledger|])
  {
    assert LedgerBacked(s, s.world.ledger[i]);
  }

  /** The invariant is inductive. */
  lemma StepKeepsInvariant(s: Snapshot, step: Step, s': Snapshot)
    requires Invariant(s) && Takes(s, step, s')
    ensures Invariant(s')
  {
    StepIsLater(s, step, s');
    StepKeepsLog(s, step, s');
    var n := |s.world.ledger|;
    forall k | 0 <= k < |s'.world.ledger| ensures LedgerBacked(s', s'.world.ledger[k]) {
      if k < n {
        LedgerStaysBacked(s, step, s', s.world.ledger[k]);
      } else {
        NewWriteIsBacked(s, step, s');
      }
    }
    forall i, j | 0 <= i < j < |s'.world.ledger|
      ensures Compatible(s'.world.ledger[i], s'.world.ledger[j])
    {
      if j >= n {
        NewWriteIsBacked(s, step, s');
        NewWriteIsCompatible(s, step, s', i);
      }
    }
    StepKeepsWorldWellFormed(s, step, s');
  }

  lemma StepKeepsWorldWellFormed(s: Snapshot, step: Step, s': Snapshot)
    requires WellFormedWorld(s.world) && Takes(s, step, s')
    ensures WellFormedWorld(s'.world)
  {}

  lemma StepKeepsLog(s: Snapshot, step: Step, s': Snapshot)
    requires Invariant(s) && Takes(s, step, s')
    ensures WellFormed(s'.log)
    ensures forall k :: 0 <= k < |s'.log| ==> RowKnown(s'.world, s'.log[k])
    ensures forall k :: 0 <= k < |s'.log| ==> HeadKept(s'.log[..k], s'.log[k])
  {
    StepIsLater(s, step, s');
    forall k | 0 <= k < |s'.log|
      ensures Admitted(s'.log[..k], s'.log[k])
      ensures RowKnown(s'.world, s'.log[k])
      ensures HeadKept(s'.log[..k], s'.log[k])
    {
      if k < |s.log| {
        assert s'.log[..k] == s.log[..k];
        assert RowKnown(s.world, s.log[k]);
        LaterKeepsIdentity(s.world, s'.world, s.log[k]);
      } else {
        assert s'.log[..k] == s.log;
      }
    }
  }

  /** Safety over whole runs: the invariant holds in every reachable snapshot. */
  lemma {:induction false} ReachableIsSafe(states: seq<Snapshot>, steps: seq<Step>, k: nat)
    requires Execution(states, steps) && k < |states|
    ensures Invariant(states[k])
    decreases k
  {
    if k > 0 {
      ReachableIsSafe(states, steps, k - 1);
      assert Takes(states[k - 1], steps[k - 1], states[k]);
      StepKeepsInvariant(states[k - 1], steps[k - 1], states[k]);
    }
  }

  lemma {:induction false} HistoryOnlyGrows(states: seq<Snapshot>, steps: seq<Step>, j: nat, k: nat)
    requires Execution(states, steps) && j <= k < |states|
    ensures Later(states[j].world, states[k].world) && states[j].log <= states[k].log
    decreases k
  {
    if j < k {
      HistoryOnlyGrows(states, steps, j, k - 1);
      assert Takes(states[k - 1], steps[k - 1], states[k]);
      StepIsLater(states[k - 1], steps[k - 1], states[k]);
      LaterTransitive(states[j].world, states[k - 1].world, states[k].world);
    }
  }

  // ---- at most once ----------------------------------------------------------------------------

  function IssueWrites(ledger: seq<RemoteWrite>, id: string): nat {
    if ledger == [] then 0
    else
      var last := ledger[|ledger| - 1];
      IssueWrites(ledger[..|ledger| - 1], id) + if last.IssueWrite? && last.id == id then 1 else 0
  }

  function PullWrites(ledger: seq<RemoteWrite>, id: string): nat {
    if ledger == [] then 0
    else
      var last := ledger[|ledger| - 1];
      PullWrites(ledger[..|ledger| - 1], id) + if last.PullWrite? && last.id == id then 1 else 0
  }

  predicate IsIssueOf(write: RemoteWrite, id: string) {
    write.IssueWrite? && write.id == id
  }

  predicate IsPullOf(write: RemoteWrite, id: string) {
    write.PullWrite? && write.id == id
  }

  /** No issue, or no pull request, of the candidate was created on a misread answer. */
  predicate IssuesReadWell(ledger: seq<RemoteWrite>, id: string) {
    forall k :: 0 <= k < |ledger| && IsIssueOf(ledger[k], id) ==> !ledger[k].misread
  }

  predicate PullsReadWell(ledger: seq<RemoteWrite>, id: string) {
    forall k :: 0 <= k < |ledger| && IsPullOf(ledger[k], id) ==> !ledger[k].misread
  }

  lemma {:induction false} SecondIssueIsMisread(ledger: seq<RemoteWrite>, id: string)
    requires forall i, j :: 0 <= i < j < |ledger| ==> Compatible(ledger[i], ledger[j])
    ensures IssuesReadWell(ledger, id) ==> IssueWrites(ledger, id) <= 1
    ensures IssueWrites(ledger, id) > 0 <==> exists k :: 0 <= k < |ledger| && IsIssueOf(ledger[k], id)
  {
    if ledger != [] {
      var n := |ledger| - 1;
      var before := ledger[..n];
      SecondIssueIsMisread(before, id);
      assert forall k :: 0 <= k < n ==> before[k] == ledger[k];
      if IssueWrites(before, id) > 0 {
        var k :| 0 <= k < n && IsIssueOf(before[k], id);
        assert Compatible(ledger[k], ledger[n]) && IsIssueOf(ledger[k], id);
      }
    }
  }

  lemma {:induction false} SecondPullIsMisread(ledger: seq<RemoteWrite>, id: string)
    requires forall i, j :: 0 <= i < j < |ledger| ==> Compatible(ledger[i], ledger[j])
    ensures PullsReadWell(ledger, id) ==> PullWrites(ledger, id) <= 1
    ensures PullWrites(ledger, id) > 0 <==> exists k :: 0 <= k < |ledger| && IsPullOf(ledger[k], id)
  {
    if ledger != [] {
      var n := |ledger| - 1;
      var before := ledger[..n];
      SecondPullIsMisread(before, id);
      assert forall k :: 0 <= k < n ==> before[k] == ledger[k];
      if PullWrites(before, id) > 0 {
        var k :| 0 <= k < n && IsPullOf(before[k], id);
        assert Compatible(ledger[k], ledger[n]) && IsPullOf(ledger[k], id);
      }
    }
  }

  /** Over any number of runs and crashes, and even when the branch prefix changes between runs, the
      pipeline creates at most one tracking issue and at most one pull request per candidate, unless it
      created one on a misread answer. When it can do that, `AnotherIssueOnlyIfUnrecorded` and
      `AnotherPullOnlyIfUnrecorded` say. */
  lemma AtMostOneIssueAndPull(states: seq<Snapshot>, steps: seq<Step>, k: nat, id: string)
    requires Execution(states, steps) && k < |states|
    ensures IssuesReadWell(states[k].world.ledger, id) ==> IssueWrites(states[k].world.ledger, id) <= 1
    ensures PullsReadWell(states[k].world.ledger, id) ==> PullWrites(states[k].world.ledger, id) <= 1
  {
    ReachableIsSafe(states, steps, k);
    SecondIssueIsMisread(states[k].world.ledger, id);
    SecondPullIsMisread(states[k].world.ledger, id);
  }

  /** Some step creates a tracking issue for the candidate. */
  ghost predicate CanCreateIssue(s: Snapshot, id: string, misread: bool) {
    exists issue, next :: Takes(s, CreateIssue(id, issue, misread), next)
  }

  /** Some step opens a pull request for the candidate. */
  ghost predicate CanOpenPull(s: Snapshot, id: string, misread: bool) {
    exists pull, next :: Takes(s, OpenPull(id, pull, misread), next)
  }

  /** Once the pipeline has created a tracking issue, it can create another one exactly when the search for
      it is misread and its number never reached a durable row. */
  lemma AnotherIssueOnlyIfUnrecorded(states: seq<Snapshot>, steps: seq<Step>, k: nat, write: RemoteWrite, misread: bool)
    requires Execution(states, steps) && k < |states| && write in states[k].world.ledger && write.IssueWrite?
    ensures CanCreateIssue(states[k], write.id, misread)
       <==> misread && forall row :: row in states[k].log && row.candidateId == write.id ==> row.issueNumber.None?
  {
    hide Latest, Execution;
    ReachableIsSafe(states, steps, k);
    IssueAgain(states[k], write, misread);
    UntrackedThroughout(states[k].log, write.id);
  }

  lemma IssueAgain(s: Snapshot, write: RemoteWrite, misread: bool)
    requires Invariant(s) && write in s.world.ledger && write.IssueWrite?
    ensures CanCreateIssue(s, write.id, misread) <==> misread && Untracked(s.log, write.id)
  {
    hide Latest, Invariant, Untracked;
    var issue := Issue(NextNumber(s.world), "#", CandidateMarker(write.id));
    MarkerCarriesItself(write.id);
    var next := s.(world := s.world.(issues := s.world.issues + [issue],
                                     ledger := s.world.ledger + [IssueWrite(write.id, issue.number, misread)]));
    if misread && Untracked(s.log, write.id) {
      assert Takes(s, CreateIssue(write.id, issue, misread), next);
    }
  }

  /** The last row forgets no issue, so it speaks for all rows. */
  lemma UntrackedThroughout(log: seq<Candidate>, id: string)
    requires WellFormed(log)
    ensures Untracked(log, id) <==> forall row :: row in log && row.candidateId == id ==> row.issueNumber.None?
  {
    hide WellFormed;
    if Untracked(log, id) {
      forall row | row in log && row.candidateId == id ensures row.issueNumber.None? {
        LastRowKeeps(log, row);
      }
    }
  }

  /** Every branch the pipeline creates for a candidate has one and the same name, and that name is in
      the candidate's durable row before the branch exists. */
  lemma BranchNameIsDurableFirst(states: seq<Snapshot>, steps: seq<Step>, k: nat, id: string, branch: string)
    requires Execution(states, steps) && k < |steps|
    requires |states[k + 1].world.ledger| > |states[k].world.ledger|
    requires states[k + 1].world.ledger[|states[k].world.ledger|] == BranchWrite(id, branch)
    ensures exists row :: row in states[k].log && row.candidateId == id && row.headBranch == Some(branch)
                       && row.issueNumber.Some?
    ensures forall j :: 0 <= j < |states[k].world.ledger| ==>
              var earlier := states[k].world.ledger[j];
              earlier.BranchWrite? && earlier.id == id ==> earlier.branch == branch
  {
    assert Takes(states[k], steps[k], states[k + 1]);
    ReachableIsSafe(states, steps, k);
    BranchWritesNameTheRow(states[k], steps[k], states[k + 1], id, branch);
  }

  lemma BranchWritesNameTheRow(s: Snapshot, step: Step, s': Snapshot, id: string, branch: string)
    requires Invariant(s) && Takes(s, step, s')
    requires |s'.world.ledger| > |s.world.ledger| && s'.world.ledger[|s.world.ledger|] == BranchWrite(id, branch)
    ensures exists row :: row in s.log && row.candidateId == id && row.headBranch == Some(branch)
                       && row.issueNumber.Some?
    ensures forall j :: 0 <= j < |s.world.ledger| ==>
              var earlier := s.world.ledger[j];
              earlier.BranchWrite? && earlier.id == id ==> earlier.branch == branch
  {
    hide HasIssue, HasPull, MergedPull, OwnBranch;
    var row := Latest(s.log, id).value;
    var r :| 0 <= r < |s.log| && s.log[r] == row;
    assert RowKnown(s.world, s.log[r]);
    forall j | 0 <= j < |s.world.ledger| && s.world.ledger[j].BranchWrite? && s.world.ledger[j].id == id
      ensures s.world.ledger[j].branch == branch
    {
      assert LedgerBacked(s, s.world.ledger[j]);
    }
  }

  /** A pull request is opened only for a candidate whose issue and branch are already durable and
      whose rows name no pull request yet. */
  lemma IssueRowPrecedesPull(states: seq<Snapshot>, steps: seq<Step>, k: nat, id: string, pull: Pull)
    requires Execution(states, steps) && k < |steps| && steps[k].OpenPull? && steps[k].id == id && steps[k].pull == pull
    ensures exists row :: row in states[k].log && row.candidateId == id && row.prNumber.None?
                       && row.headBranch == Some(pull.head) && row.issueNumber.Some? && row.issueUrl.Some?
                       && HasIssue(states[k].world, row.issueNumber.value, row.issueUrl.value, id)
    ensures OwnBranch(pull.head, id)
  {
    assert Takes(states[k], steps[k], states[k + 1]);
    ReachableIsSafe(states, steps, k);
    var row := Latest(states[k].log, id).value;
    var r :| 0 <= r < |states[k].log| && states[k].log[r] == row;
    assert RowKnown(states[k].world, states[k].log[r]);
  }

  // ---- what the log says is true ---------------------------------------------------------------

  /** Every issue number in the log is an issue that carries that candidate's marker; every merge it
      reports, by state, time or verification flag, really happened to the row's own pull request. */
  lemma LogTellsTheTruth(states: seq<Snapshot>, steps: seq<Step>, k: nat, row: Candidate)
    requires Execution(states, steps) && k < |states| && row in states[k].log
    ensures row.issueNumber.Some? ==>
              exists i :: i in states[k].world.issues && i.number == row.issueNumber.value
                          && Carries(i.body, row.candidateId)
    ensures row.state.Merged? || row.mergedAt.Some? || row.mergeVerified ==>
              row.prNumber.Some? &&
              exists p :: p in states[k].world.pulls && p.number == row.prNumber.value && p.mergedAt.Some?
                       && p.mergedAt == row.mergedAt && OwnBranch(p.head, row.candidateId)
  {
    ReachableIsSafe(states, steps, k);
    var w := states[k].world;
    var r :| 0 <= r < |states[k].log| && states[k].log[r] == row;
    assert RowKnown(w, states[k].log[r]);
    if row.issueNumber.Some? {
      var i :| 0 <= i < |w.issues| && w.issues[i].number == row.issueNumber.value
            && w.issues[i].url == row.issueUrl.value
            && Carries(w.issues[i].body, row.candidateId);
      assert w.issues[i] in w.issues;
    }
    if row.mergedAt.Some? {
      var i :| 0 <= i < |w.pulls| && w.pulls[i].number == row.prNumber.value && w.pulls[i].mergedAt == row.mergedAt;
      var j :| 0 <= j < |w.pulls| && w.pulls[j].number == row.prNumber.value && w.pulls[j].url == row.prUrl.value
            && w.pulls[j].head == row.headBranch.value;
      assert i == j;
      assert w.pulls[i] in w.pulls;
    }
  }

  /** No candidate adopts a pull request the pipeline opened for another one. */
  lemma PullsAreNotShared(states: seq<Snapshot>, steps: seq<Step>, k: nat, row: Candidate, write: RemoteWrite)
    requires Execution(states, steps) && k < |states| && row in states[k].log
    requires write in states[k].world.ledger && write.PullWrite? && row.prNumber == Some(write.number)
    requires '/' !in row.candidateId && '/' !in write.id
    ensures write.id == row.candidateId
  {
    hide OwnBranch, Execution;
    ReachableIsSafe(states, steps, k);
    var s := states[k];
    var i := RowsPull(s, row);
    var j := WrittenPull(s, write);
    assert i == j;
    BranchOwnerIsUnique(write.head, row.candidateId, write.id);
  }

  /** The pull request a row names lives on the candidate's own branch. */
  lemma RowsPull(s: Snapshot, row: Candidate) returns (i: nat)
    requires Invariant(s) && row in s.log && row.prNumber.Some?
    ensures i < |s.world.pulls| && s.world.pulls[i].number == row.prNumber.value
    ensures OwnBranch(s.world.pulls[i].head, row.candidateId)
  {
    hide OwnBranch;
    var w := s.world;
    var r :| 0 <= r < |s.log| && s.log[r] == row;
    assert RowKnown(w, s.log[r]);
    i :| 0 <= i < |w.pulls| && w.pulls[i].number == row.prNumber.value && w.pulls[i].url == row.prUrl.value
      && w.pulls[i].head == row.headBranch.value;
  }

  /** A pull request the pipeline opened lives on the branch of the candidate it was opened for. */
  lemma WrittenPull(s: Snapshot, write: RemoteWrite) returns (j: nat)
    requires Invariant(s) && write in s.world.ledger && write.PullWrite?
    ensures j < |s.world.pulls| && s.world.pulls[j].number == write.number && s.world.pulls[j].head == write.head
    ensures OwnBranch(write.head, write.id)
  {
    hide OwnBranch;
    var w := s.world;
    var l :| 0 <= l < |w.ledger| && w.ledger[l] == write;
    assert LedgerBacked(s, w.ledger[l]);
    var owner := Latest(s.log, write.id).value;
    var q :| 0 <= q < |s.log| && s.log[q] == owner;
    assert RowKnown(w, s.log[q]);
    j :| 0 <= j < |w.pulls| && w.pulls[j].number == write.number && w.pulls[j].head == write.head;
  }

  /** No step of the pipeline merges, closes or reopens anything. */
  lemma PipelineNeverMerges(s: Snapshot, step: Step, s': Snapshot)
    requires Takes(s, step, s') && !step.Outside?
    ensures |s.world.pulls| <= |s'.world.pulls|
    ensures s'.world.pulls[..|s.world.pulls|] == s.world.pulls
    ensures forall k :: |s.world.pulls| <= k < |s'.world.pulls| ==>
              s'.world.pulls[k].isOpen && s'.world.pulls[k].mergedAt.None?
  {}

  // ---- what happened once stays ----------------------------------------------------------------

  lemma {:induction false} LatestOfPrefix(log: seq<Candidate>, n: nat, id: string)
    requires n <= |log|
    ensures Latest(log[..n], id).Some? ==> Latest(log, id).Some?
    ensures Latest(log[..n], id).Some? && Latest(log, id) != Latest(log[..n], id) ==>
              exists i, j :: 0 <= i < n <= j < |log| && log[i] == Latest(log[..n], id).value
                             && log[j] == Latest(log, id).value
  {
    if Latest(log[..n], id).Some? {
      LatestConcat(log[..n], log[n..], id);
      assert log[..n] + log[n..] == log;
      if Latest(log[n..], id).Some? {
        var i :| 0 <= i < n && log[..n][i] == Latest(log[..n], id).value;
        var j :| 0 <= j < |log| - n && log[n..][j] == Latest(log[n..], id).value;
        assert log[i] == log[..n][i] && log[n + j] == log[n..][j];
      }
    }
  }

  /** The branch a candidate's first branch row names is the branch of all its later rows. */
  lemma {:induction false} BranchIsForever(log: seq<Candidate>, i: nat, j: nat)
    requires forall k {:trigger HeadKept(log[..k], log[k])} :: 0 <= k < |log| ==> HeadKept(log[..k], log[k])
    requires i <= j < |log| && log[i].candidateId == log[j].candidateId && log[i].headBranch.Some?
    ensures log[j].headBranch == log[i].headBranch
    decreases j
  {
    if i < j {
      var p := PreviousRow(log, i, j);
      BranchIsForever(log, i, p);
      assert HeadKept(log[..j], log[j]);
    }
  }

  /** After a row of a candidate names a pull request, open, closed or merged, the pipeline opens no
      further pull request for that candidate: what a human closed is never replaced. */
  lemma KnownPullIsNeverReplaced(states: seq<Snapshot>, steps: seq<Step>, j: nat, k: nat, id: string)
    requires Execution(states, steps) && j <= k < |steps|
    requires Latest(states[j].log, id).Some? && Latest(states[j].log, id).value.prNumber.Some?
    ensures !(steps[k].OpenPull? && steps[k].id == id)
  {
    ReachableIsSafe(states, steps, k);
    HistoryOnlyGrows(states, steps, j, k);
    assert Takes(states[k], steps[k], states[k + 1]);
    var n := |states[j].log|;
    assert states[k].log[..n] == states[j].log;
    LatestOfPrefix(states[k].log, n, id);
    var log := states[k].log;
    if Latest(log, id) != Latest(log[..n], id) {
      var a, b :| 0 <= a < n <= b < |log| && log[a] == Latest(log[..n], id).value && log[b] == Latest(log, id).value;
      SettlementIsPermanent(log, a, b);
    }
  }

  /** The same of the tracking issue: once a row names one, no further one is created for that candidate. */
  lemma KnownIssueIsNeverReplaced(states: seq<Snapshot>, steps: seq<Step>, j: nat, k: nat, id: string)
    requires Execution(states, steps) && j <= k < |steps|
    requires Latest(states[j].log, id).Some? && Latest(states[j].log, id).value.issueNumber.Some?
    ensures !(steps[k].CreateIssue? && steps[k].id == id)
  {
    ReachableIsSafe(states, steps, k);
    HistoryOnlyGrows(states, steps, j, k);
    assert Takes(states[k], steps[k], states[k + 1]);
    LastRowKeeps(states[k].log, Latest(states[j].log, id).value);
  }

  /** Once the pipeline has opened a pull request, it can open another one exactly when the listing is
      misread, the number never reached a durable row, the candidate is not settled with an artifact, and
      the branch has no open pull request: the first one has been closed or merged. */
  lemma AnotherPullOnlyIfUnrecorded(states: seq<Snapshot>, steps: seq<Step>, k: nat, write: RemoteWrite, misread: bool)
    requires Execution(states, steps) && k < |states| && write in states[k].world.ledger && write.PullWrite?
    ensures CanOpenPull(states[k], write.id, misread)
       <==> && misread && Unsettled(states[k].log, write.id) && NoOpenPull(states[k].world, write.head)
            && forall row :: row in states[k].log && row.candidateId == write.id ==> row.prNumber.None?
    ensures CanOpenPull(states[k], write.id, misread) ==>
              exists p :: p in states[k].world.pulls && p.number == write.number && p.head == write.head && !p.isOpen
  {
    hide Latest, Execution;
    ReachableIsSafe(states, steps, k);
    PullAgain(states[k], write, misread);
    UnlistedThroughout(states[k].log, write.id);
    var j := WrittenPull(states[k], write);
    assert states[k].world.pulls[j] in states[k].world.pulls;
  }

  /** The candidate's last row names no pull request. */
  predicate Unlisted(log: seq<Candidate>, id: string) {
    var p := Latest(log, id);
    p.Some? ==> p.value.prNumber.None?
  }

  lemma PullAgain(s: Snapshot, write: RemoteWrite, misread: bool)
    requires Invariant(s) && write in s.world.ledger && write.PullWrite?
    ensures CanOpenPull(s, write.id, misread)
       <==> misread && Unsettled(s.log, write.id) && NoOpenPull(s.world, write.head) && Unlisted(s.log, write.id)
  {
    hide Latest, Unsettled, NoOpenPull;
    var k :| 0 <= k < |s.world.ledger| && s.world.ledger[k] == write;
    assert LedgerBacked(s, s.world.ledger[k]);
    assert !NoPullWrite(s.world, write.id);
    var pull := Pull(NextNumber(s.world), "#", write.head, true, None);
    var next := s.(world := s.world.(pulls := s.world.pulls + [pull],
                                     ledger := s.world.ledger
                                               + [PullWrite(write.id, pull.head, pull.number, misread)]));
    if misread && Unsettled(s.log, write.id) && NoOpenPull(s.world, write.head) && Unlisted(s.log, write.id) {
      assert Takes(s, OpenPull(write.id, pull, misread), next);
    }
  }

  /** The last row forgets no pull request, so it speaks for all rows. */
  lemma UnlistedThroughout(log: seq<Candidate>, id: string)
    requires WellFormed(log)
    ensures Unlisted(log, id) <==> forall row :: row in log && row.candidateId == id ==> row.prNumber.None?
  {
    hide WellFormed;
    if Unlisted(log, id) {
      forall row | row in log && row.candidateId == id ensures row.prNumber.None? {
        LastRowKeeps(log, row);
      }
    }
  }

  /** Settlement holds across runs: a candidate settled with an artifact stays settled, and a merged
      one stays merged, in every later snapshot. */
  lemma SettlementOutlivesRuns(states: seq<Snapshot>, steps: seq<Step>, j: nat, k: nat, id: string)
    requires Execution(states, steps) && j <= k < |states|
    requires Latest(states[j].log, id).Some? && SettledWithArtifact(Latest(states[j].log, id).value)
    ensures Latest(states[k].log, id).Some? && SettledWithArtifact(Latest(states[k].log, id).value)
    ensures Latest(states[j].log, id).value.state.Merged? ==> Latest(states[k].log, id).value.state.Merged?
  {
    ReachableIsSafe(states, steps, k);
    HistoryOnlyGrows(states, steps, j, k);
    var log, n := states[k].log, |states[j].log|;
    assert log[..n] == states[j].log;
    LatestOfPrefix(log, n, id);
    if Latest(log, id) != Latest(log[..n], id) {
      var a, b :| 0 <= a < n <= b < |log| && log[a] == Latest(log[..n], id).value && log[b] == Latest(log, id).value;
      SettlementIsPermanent(log, a, b);
    }
  }

  /** A remote write for this candidate. */
  predicate WritesFor(step: Step, id: string) {
    match step
    case CreateIssue(i, _, _) => i == id
    case CreateBranch(i, _, _) => i == id
    case PostSession(i, _) => i == id
    case OpenPull(i, _, _) => i == id
    case _ => false
  }

  /** Once a candidate is settled with an artifact, no run writes anything for it again: no issue, no
      branch, no session, no pull request. */
  lemma NothingAfterSettlement(states: seq<Snapshot>, steps: seq<Step>, j: nat, k: nat, id: string)
    requires Execution(states, steps) && j <= k < |steps|
    requires Latest(states[j].log, id).Some? && SettledWithArtifact(Latest(states[j].log, id).value)
    ensures !WritesFor(steps[k], id)
  {
    hide Latest, SettledWithArtifact, Invariant;
    SettlementOutlivesRuns(states, steps, j, k, id);
    ReachableIsSafe(states, steps, k);
    ArtifactsAreTracked(states[k], id);
    assert Takes(states[k], steps[k], states[k + 1]);
  }

  /** Every artifact comes with a tracking issue. */
  lemma ArtifactsAreTracked(s: Snapshot, id: string)
    requires Invariant(s) && Latest(s.log, id).Some? && SettledWithArtifact(Latest(s.log, id).value)
    ensures !Untracked(s.log, id)
  {
    var row := Latest(s.log, id).value;
    var r :| 0 <= r < |s.log| && s.log[r] == row;
    assert RowKnown(s.world, s.log[r]);
  }

  /** Some step requests a session for the candidate. */
  ghost predicate CanRequestSession(s: Snapshot, id: string, answered: bool) {
    exists next :: Takes(s, PostSession(id, answered), next)
  }

  /** The last row names a branch and is not settled with an artifact. */
  predicate AwaitsSession(log: seq<Candidate>, id: string) {
    var last := Latest(log, id);
    last.Some? && last.value.headBranch.Some? && !SettledWithArtifact(last.value)
  }

  /** A session can be requested exactly when the candidate's last row names a branch and is not settled
      with an artifact. */
  lemma SessionIsPossible(s: Snapshot, id: string, answered: bool)
    ensures CanRequestSession(s, id, answered) <==> AwaitsSession(s.log, id)
  {
    hide Latest, SettledWithArtifact;
    var next := s.(world := s.world.(ledger := s.world.ledger + [SessionWrite(id, answered)]));
    if AwaitsSession(s.log, id) {
      assert Takes(s, PostSession(id, answered), next);
    }
  }

  /** Nothing in the protocol remembers a session: once one was requested, another request is possible
      exactly until the candidate is settled with an artifact. */
  lemma AnotherSessionUntilSettled(states: seq<Snapshot>, steps: seq<Step>, k: nat, id: string, first: bool,
                                   answered: bool)
    requires Execution(states, steps) && k < |states|
    requires SessionWrite(id, first) in states[k].world.ledger
    ensures CanRequestSession(states[k], id, answered) <==> Unsettled(states[k].log, id)
  {
    hide Latest, SettledWithArtifact, Execution, CanRequestSession;
    ReachableIsSafe(states, steps, k);
    var s := states[k];
    var i :| 0 <= i < |s.world.ledger| && s.world.ledger[i] == SessionWrite(id, first);
    assert LedgerBacked(s, s.world.ledger[i]);
    SessionIsPossible(s, id, answered);
  }

  /** Every row of the execution that asks a human to merge was proven first, by the run whose step wrote it: that run's
      required contexts passed and its observers' verdicts are on record, all at the row's own head. */
  lemma HandoverIsProven(states: seq<Snapshot>, steps: seq<Step>, k: nat, r: nat) returns (j: nat)
    requires Execution(states, steps) && k < |states|
    requires |states[0].log| <= r < |states[k].log| && states[k].log[r].state.AwaitingHumanMerge?
    ensures j < k && steps[j].AppendRow? && steps[j].row == states[k].log[r] && states[j].log == states[k].log[..r]
    ensures Handover(states[k].log[..r], states[k].log[r], steps[j].run)
    decreases k
  {
    assert k > 0;
    assert Takes(states[k - 1], steps[k - 1], states[k]);
    if r < |states[k - 1].log| {
      StepIsLater(states[k - 1], steps[k - 1], states[k]);
      j := HandoverIsProven(states, steps, k - 1, r);
      assert states[k].log[..r] == states[k - 1].log[..r];
    } else {
      j := k - 1;
      assert states[k].log[..r] == states[k - 1].log;
    }
  }
}
