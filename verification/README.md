# Verified model of the remediation pipeline

This project models the hard core of the remediation pipeline and proves properties of it with Dafny. The
pipeline finds technical debt in a fork (CodeQL alerts, skipped tests, expired deprecations), opens a tracking
issue per problem, sends the best ones to a coding session, checks the result itself, opens a pull request and
stops: a human merges. A run may be killed at any moment and is simply started again.

`dafny verify dfyconfig.toml` checks everything.

## The system

**Publication protocol.** `Protocol` is a transition system over what outlives a process: the fork (issues, pull
requests, branches, and a ledger of the pipeline's own writes) and the append-only state file. Every remote write
and every durable append is one step, so a run may die between any two of them, and the steps of `Outside` are
everything humans, sessions and GitHub may do in between. Its invariant is proved inductive, and the safety
properties hold in every reachable snapshot of any number of runs.

**The code that runs it.** `Host` is the fork and the state file as objects: every call first lets the outside world
move on, may fail before or after it took effect, and may be the last thing the process does. A ghost trace
records each step; `Host.Valid()` says the trace is an execution of the protocol. `StateStore`, `Client`,
`Sessions` and `Runner` are the classes of the source over that host, method by method, and every method is proved
to keep the trace an execution wherever it returns, fails or dies. `Pipeline` is one run (normalize, dispatch,
process, re-observe) and `Campaign`, any number of runs with different configurations. So the theorems of
`Protocol` hold of the modelled code, not only of an abstract machine. `Hosted` is the same where no state file outlives
a run: each run restores one from the exports of all runs before it, and the exports together are proved to be the log
of one continuous execution.

**What feeds it.** `Settlement` (which row may follow which), `History` (seed, export, reseed), `Markers` and
`MarkerIndex` (print and scan of the marker; the one-pass index), `CheckRuns` (the conclusion rule and both
polling loops), `Verify` (the lanes' criteria and their transcripts), `Handovers` (what a request to merge rests on),
`Containment`, `Ranking`, `Dispatch` and `DispatchLaws` (the allocator), `SkippedTests` and `SkippedLaws` (the
enumerator), `Sessions` (accounting), `Results` (aggregation over runs) and `Reruns` (whole runs that show where the
guarantees end). `Schemas` holds the data contracts, cut down to the fields these use.

## Assumptions about the environment

- One run at a time, as README.md:280-283 of the repository requires.
- Searches and listings show nothing but what is there. They may miss issues or pull requests, because an answer or an
  entry of it is malformed and read as the source reads it, or because the search index lags behind; the ledger notes
  which artifacts were created on such a misread answer.
- Issues keep the body they were created with; issues and pull requests are not deleted; a merge is permanent.
  Humans may otherwise open, close, reopen and merge pull requests, open issues with any body and move or delete
  branches at any moment.
- The state file survives and can be read, or the next run restores it from the exports of all earlier runs, each of
  which was published (`Hosted`). An append happens whole or not at all; it may fail with a file error.
- Candidate ids are free of whitespace, `<`, `>` and `/` (they are SHA-256 digests), and equal ids stand for equal test
  nodes. A node may be enumerated twice; other candidates have distinct ids.
- Run ids tell runs apart (they are UUIDs); only the per-run form of the handover result uses it.
- The runner is in LIVE mode, where preflight fixes the CI evidence mode to Actions
  (src/pipeline/github_client.py:458) and only the marker index is configured (src/pipeline/__main__.py:1204-1231).
- What a run's observers (checkouts, alert analyses, symbol probes) answer for a candidate and stage, and what the checks
  of a commit report at every read, are arbitrary functions that the run brings along (`Protocol.Run`). Verdicts are
  about these functions and nothing else.
- An exception no handler catches ends the run like a kill does.

## Where code and documentation part

- **Sessions are not looked up.** README.md:25-26 promises no second session after an interruption. The runner finds
  existing issues, branches and pull requests before writing, but not sessions: another request is possible exactly until
  the candidate is settled with an artifact (`Protocol.AnotherSessionUntilSettled`). In `Reruns.SecondSessionRequest` a
  run dies while it polls a session whose id is already on record, and the next run requests another one. The promise
  rests on the session API honouring `idempotent` (src/pipeline/session_client.py:311).
- **The session ceiling forgets lost responses.** `create_session` gives its place back on every exception
  (src/pipeline/session_client.py:330-333), also when the session was created and only the response was lost
  (`Reruns.CeilingPassedByLostResponse`). The ceiling of README.md:226 holds up to the number of lost responses
  (`Pipeline.RunOnce`).
- **Answers that miss something.** README.md:25-26 promises no second issue and no second pull request, and
  docs/IMPLEMENTATION_PLAN.md:171-174 accepts a second issue while the search index lags, "never a duplicate PR". But a
  malformed entry of the index search is passed over too (src/pipeline/state.py:109-122), a malformed answer to the search
  before creation reads as no issue (src/pipeline/github_client.py:855-860), a malformed listing reads as no pull request
  (src/pipeline/github_client.py:898-899), and an empty response body reads as `{}` (src/pipeline/http_transport.py:126).
  The promise holds of everything that was not created on such an answer (`Protocol.AtMostOneIssueAndPull`). A second
  artifact can be created if and only if the answer is misread while no row names the first one, and, of a pull request,
  the first one is no longer open and the candidate not settled (`Protocol.AnotherIssueOnlyIfUnrecorded`,
  `Protocol.AnotherPullOnlyIfUnrecorded`; the runs are `Reruns.SecondIssue` and `Reruns.SecondPullRequest`). A contract
  cannot say that a method may make a certain choice, so these runs are given step by step; `Reruns.RunOf` says what makes
  the steps a run.
- **Settled values may change.** The durable rule keeps identity fields non-null; it does not keep their values
  (`Settlement.IdentityValuesMayChange`). What keeps a candidate's branch is the runner together with normalization
  (`Protocol.BranchIsForever`).
- **Settled without a link.** `decide_resume` resumes a settled row that links no artifact even while search is down
  (`Settlement.SettledRowsSkipOnProof`); the fail-closed guarantee is `_reconcile`'s.
- **Two skip decorators on one definition** produce two candidates for one node, and dispatch raises for the whole run
  (`SkippedLaws.RepeatedSkipIsRefused`); this is the only way the enumerator can be refused, next to repeated names
  (`SkippedLaws.AcceptedIffDistinct`).
- **Where the checks are read.** The check snapshot of a row is taken at the pull request's current head, which may
  have moved past the row's `head_sha`; the lane facts and the covering suite are at `head_sha`. `Protocol.Handover`
  says exactly this.
- **A deprecated symbol is probed before the pull request only** (`Verify.PostPrIgnoresSymbol`).
- **A check that is named like an approval wait** ends the wait early: the loop compares the evidence detail, which for a
  single pending check is the check's name (`CheckRuns.ReadsAsApproval`).
- **The handler for `StatePreservationError` in `process` is never reached**: every row the runner writes in its `try` may
  follow the row before it (`Runner.CandidateRunner.Persist`). The rule refuses only inside the other handler: when the
  row that records a human's merge or close cannot be written, deferring the settled row is refused and the run ends
  (`Runner.CandidateRunner.DeferUnavailable`).

## Model

| member | source | states |
|---|---|---|
| Protocol.StepKeepsInvariant | src/pipeline/__main__.py:289-809 | Every step of the pipeline or of the outside world, from any snapshot satisfying the invariant, keeps it: rows name real artifacts of their own candidate, the log is admissible, every remote write is backed by an artifact and a durable row, no two issue or pull-request writes share a candidate. |
| Protocol.ReachableIsSafe | src/pipeline/__main__.py:205-243 | The invariant holds in every snapshot of any number of runs, each killed between any two effects. |
| Protocol.HistoryOnlyGrows | src/pipeline/state.py:414-437 | Between any two moments of an execution the log only grows, artifacts stay and merges stay. |
| Protocol.AtMostOneIssueAndPull | src/pipeline/github_client.py:982-1041 | Over any runs and crashes, and even when the branch prefix changes between runs, a candidate gets at most one tracking issue and at most one pull request, as long as none of them was created on an answer that missed something. |
| Protocol.AnotherIssueOnlyIfUnrecorded | src/pipeline/github_client.py:982-1001 | Once an issue was created for a candidate, another one can be created if and only if the search for it is misread and no row of the candidate ever named an issue. |
| Protocol.AnotherPullOnlyIfUnrecorded | src/pipeline/github_client.py:1004-1041 | Once a pull request was opened for a candidate, another one can be opened if and only if the listing is misread, no row of the candidate ever named a pull request, the candidate is not settled with an artifact and the first one's branch has no open pull request; the first one is closed or merged by then. |
| Protocol.BranchNameIsDurableFirst | src/pipeline/__main__.py:445-468 | When a branch is created, a row naming exactly it (and the candidate's issue) is already durable, and all earlier branches of the candidate had that name. |
| Protocol.BranchIsForever | src/pipeline/__main__.py:447-454 | The branch a candidate's first branch row names is the branch of all its later rows. |
| Protocol.BranchOwnerIsUnique | src/pipeline/__main__.py:447-448 | A branch name belongs to one candidate only, whatever the prefixes. |
| Protocol.IssueRowPrecedesPull | src/pipeline/__main__.py:645-719 | A pull request is opened only when a durable row names the branch and the candidate's own, really existing issue, and no pull request yet. |
| Protocol.LogTellsTheTruth | src/pipeline/__main__.py:325-364 | Every issue number in the log is an issue carrying that candidate's marker; a row that is merged, has a merge time or is merge-verified implies that the row's pull request, on the candidate's branch, really is merged at that time. |
| Protocol.PullsAreNotShared | src/pipeline/github_client.py:1004-1041 | No row adopts a pull request the pipeline opened for another candidate. |
| Protocol.PipelineNeverMerges | src/pipeline/__main__.py:694-702 | No step of the pipeline merges, closes or reopens a pull request; new ones are open and unmerged. |
| Protocol.KnownPullIsNeverReplaced | src/pipeline/__main__.py:703-712 | Once a row names a pull request, open, closed or merged, no further one is opened for that candidate, in this run or a later one. |
| Protocol.KnownIssueIsNeverReplaced | src/pipeline/github_client.py:992-993 | Once a row names a tracking issue, no further one is created for that candidate, in this run or a later one, misread answers or not. |
| Protocol.SettlementOutlivesRuns | src/pipeline/state.py:156-173 | A candidate settled with an artifact stays settled, and a merged one merged, in every later snapshot. |
| Protocol.NothingAfterSettlement | src/pipeline/__main__.py:353-382 | Once a candidate is settled with an artifact, no run ever writes an issue, a branch, a session or a pull request for it again. |
| Protocol.AnotherSessionUntilSettled | src/pipeline/session_client.py:298-342 | After one session request another is possible if and only if the candidate is not yet settled with an artifact. |
| Protocol.HandoverIsProven | src/pipeline/__main__.py:774-808 | Every row that asks a human to merge was appended by a run whose own required contexts passed in a snapshot it read, and whose observers' pre- and post-PR verdicts, both at the row's own head, were on record. |
| Handovers.HandoverShowsFacts | src/pipeline/verify.py:474-614 | What such a row means: the two transcripts show every fact of the lane at the row's head, these facts are what this run's observers returned there, and the check covering the candidate's suite was accepted in a report this run read of that commit. |
| Protocol.AdvancesKeepsOthers | src/pipeline/__main__.py:170-176 | One candidate's turn leaves every other candidate's last row as it was. |
| Runner.CandidateRunner.Process | src/pipeline/__main__.py:205-243 | One turn: writes for this candidate only; nothing is written remotely unless its marker outcome is found or absent, nor if it was settled with an artifact; nothing but labels and an issue without the open-PR action; at most two session requests; it ends settled (or with its issue, for the issue tier) and reports what the log says; only a kill or an abort prevents that. |
| Runner.CandidateRunner.Reconcile | src/pipeline/__main__.py:289-382 | Writes nothing to the fork; goes on only with an unsettled, unmerged candidate whose marker is found or absent, whose named artifacts exist, and for which an issue is known or none was ever written, unless the index search missed issues. |
| Runner.CandidateRunner.LookUp | src/pipeline/__main__.py:289-292 | The lookup that opens a turn: a found marker is an issue of the fork that carries it; an absent one proves that no run ever wrote an issue for the candidate, unless the search missed issues. |
| Runner.CandidateRunner.ObservePull | src/pipeline/__main__.py:312-352 | A merge or close that was seen ends the turn with a row saying so, last in the log; anything else that was seen, or nothing, changes nothing. |
| Runner.CandidateRunner.SkipDeferOrGoOn | src/pipeline/__main__.py:353-382 | A recorded merge stays merged, a settled row whose artifact is known is kept with its state and reason, an unproven marker defers, and only an unsettled candidate with a proven marker goes on, unchanged. |
| Runner.CandidateRunner.RecordEnd | src/pipeline/__main__.py:320-352 | The row a merged or closed pull request leaves is the candidate with what was seen, and is last in the log. |
| Runner.CandidateRunner.PublishIssue | src/pipeline/__main__.py:393-443 | Writes labels and issues of this candidate only, of which there is at most one ever unless one was created on a misread answer; goes on with a durable row naming an existing issue that carries the marker, or ends deferred for its text with nothing written. |
| Runner.CandidateRunner.DispatchBranch | src/pipeline/__main__.py:445-468 | Before anything is written the row naming the branch was durable; before any session was requested the branch existed; at most two requests; the requests answered and the run's counter grow together. |
| Runner.CandidateRunner.EnsureBranch | src/pipeline/__main__.py:455-467 | The branch is created or taken over; an existing one whose head cannot be read defers the candidate. |
| Runner.CandidateRunner.RunSession | src/pipeline/__main__.py:482-556 | At most two session requests; a finished session leaves a durable row with a non-empty head, and its id was durable while the candidate was still being dispatched. |
| Runner.CandidateRunner.RunAttempt | src/pipeline/__main__.py:500-556 | One attempt makes at most one request and leaves room for another only with the candidate unsettled. |
| Runner.CandidateRunner.UseSession | src/pipeline/session_client.py:334-342 | A response without a session id ends the run with no row; a reused session ends the candidate; any other session is on record before it is polled. |
| Runner.CandidateRunner.EndSession | src/pipeline/__main__.py:470-480 | A session that ends early leaves a terminal row that keeps every durable field, with the pushed head when there is one; the fork is not written to. |
| Runner.CandidateRunner.ApplyFixOutput | src/pipeline/__main__.py:558-594 | The session row names a head that is not empty, is sound, and keeps every durable field. |
| Runner.CandidateRunner.VerifyHead | src/pipeline/__main__.py:596-621 | The row records the verdict on what this run's observers showed at the recorded head: terminal exactly when the criterion was observed to fail, verified otherwise and then on record. |
| Runner.CandidateRunner.PublishPull | src/pipeline/__main__.py:645-719 | Opens or adopts the one pull request of the candidate's branch, keeping lane and head; requests no session. |
| Runner.CandidateRunner.RecordOutcome | src/pipeline/__main__.py:682-719 | An open pull request becomes the candidate's, a merged one settles it as merged with the observed time, a closed one ends it as closed by a human; each row is the last in the log. |
| Runner.CandidateRunner.WatchCi | src/pipeline/__main__.py:744-772 | The answer is what the wait read of a commit's checks in this run; it has no failure reason exactly when that snapshot passes the run's required contexts. |
| Runner.CandidateRunner.SettleMerge | src/pipeline/__main__.py:774-808 | The final row records the verdict on what this run's observers and its wait for the covering suite showed at the recorded head, and the checks its wait read: the criterion decides first, then the checks, and only then is a human asked to merge. |
| Runner.CandidateRunner.EvaluateAfter | src/pipeline/__main__.py:721-742 | The post-PR verdict is on this run's observers with the suite read from the finished wait for the covering check at the head. |
| Runner.CandidateRunner.WaitForSuite | src/pipeline/github_client.py:733-742 | The suite's answer is what the wait for the candidate's own covering check read of this commit. |
| Runner.CandidateRunner.DecideMerge | src/pipeline/__main__.py:785-808 | The row is the one the gate prescribes for this verdict and these checks; asking a human to merge is written only with the handover proven. |
| Runner.CandidateRunner.ReobserveMerge | src/pipeline/__main__.py:245-278 | Re-observation writes nothing to the fork; a new row says merged or closed only if the row's own pull request was seen so. |
| Runner.CandidateRunner.Persist | src/pipeline/__main__.py:170-175 | A row that keeps what is durable is never refused: appending fails only when the process dies, or when the file cannot be written and is left as it was. |
| Runner.CandidateRunner.Terminal | src/pipeline/__main__.py:177-188 | The terminal row is the candidate with state, reason and run id set, and is last in the log. |
| Runner.CandidateRunner.Defer | src/pipeline/__main__.py:190-201 | The deferred row is the candidate with state, reason and run id set, and is last in the log. |
| Runner.CandidateRunner.DeferUnavailable | src/pipeline/__main__.py:220-243 | The candidate's last row, or the candidate itself when it has none, is deferred with the capability reason and is last in the log; once settled with an artifact the deferral is refused and the run ends. |
| Runner.CandidateRunner.DeferralIsRefusedOnceSettled | src/pipeline/state.py:156-173 | A candidate's own deferral may follow its last row if and only if that row is not settled with an artifact. |
| Runner.AdoptedWorks | src/pipeline/__main__.py:293-311 | Adopting the persisted identity and then the marker-matched issue yields artifacts that exist and forgets nothing durable. |
| Runner.BranchName | src/pipeline/__main__.py:447-448 | The branch ends in a slash and the id, whatever the prefix, and is never empty. |
| Pipeline.RunOnce | src/pipeline/__main__.py:1165-1318 | However a run ends, the trace is an execution of the protocol; branches, sessions and pull requests were written only for the at most `budget_N` candidates dispatch chose; the sessions created exceed `max_sessions` by no more than the creation responses that were lost; the sessions answered are those the run counted, and its compute units keep to `max_total_acu` as long as no session reports more than its own limit; every handover of this run was proven with its own required contexts and observers. |
| Pipeline.Campaign | src/pipeline/__main__.py:1165-1318 | Any number of runs with any configurations, each dying anywhere, end in a safe snapshot: at most one issue and one pull request per candidate unless one was created on a misread answer, which is possible again if and only if nothing on record names the first; every merge on record real; every request to merge proven by the run that wrote it with its own required contexts and observers. |
| Pipeline.Prepare | src/pipeline/__main__.py:1080-1136 | Every normalized and gated candidate carries exactly the persisted identity when its last row links an artifact and none otherwise; a node enumerated twice stays doubled. |
| Pipeline.Select | src/pipeline/__main__.py:1113-1136 | What is dispatched is what the allocator's specification decides for the normalized, gated and scored candidates; at most `budget_N` are chosen; a refused dispatch ends the run. |
| Pipeline.ProcessAll | src/pipeline/__main__.py:1302-1302 | Each dispatched candidate is processed once and ends unpublished, tracked by an issue, or settled; writes stay within the chosen candidates. |
| Pipeline.ReobserveAll | src/pipeline/__main__.py:1303-1318 | Re-observing the merges other runs wait for writes nothing to the fork and yields merged or closed rows only. |
| Pipeline.LatestRows | src/pipeline/state.py:293-298 | The last row of every candidate, each exactly once. |
| Hosted.HostedCampaign | .github/workflows/remediation.yml:81-140 | Any number of hosted runs, each started from the file seeded from all earlier exports and killed anywhere, put the log of one continuous execution on record: everything the campaign over one surviving file guarantees holds of the exports together. |
| Hosted.ContinuedStep | src/pipeline/history.py:57-123 | Every step of a run on its restored file is the same step on the full record. |
| Hosted.SeedIsSafe | src/pipeline/history.py:75-109 | The file restored from the record of a safe snapshot reads like that record and makes the snapshot safe again. |
| Reruns.SecondSessionRequest | src/pipeline/__main__.py:482-556 | Two runs: the first dies while it polls a session whose id is already on record, and the second requests another session on the same branch and records its id. Every row is computed by the runner's functions from what dispatch decides, and the runner's contracts hold of every step. |
| Reruns.CeilingPassedByLostResponse | src/pipeline/session_client.py:330-333 | One run with a ceiling of one session and budget for two candidates: the response to the first candidate's request is lost and the candidate deferred, and the second candidate's request still goes out: two sessions exist. |
| Reruns.SecondIssue | src/pipeline/state.py:109-122 | Two runs: the first dies after creating the issue, and the second, whose index and whose search for the marker miss it, creates another one. |
| Reruns.SecondPullRequest | src/pipeline/github_client.py:892-899 | Two runs: the first dies after opening a pull request, a human closes it, and the second run's misread listing lets a second one through. |
| Host.Host.Append | src/pipeline/state.py:414-437 | One guarded append: refused exactly when the settlement rule forbids it, suppressed when nothing changed, otherwise the row is added; a refused append or a file error leaves the log as it was. |
| Host.PagesReassemble | src/pipeline/state.py:97-113 | Reading page by page returns exactly the items, if and only if a short page comes within the page limit. |
| Client.GitHubClient.ReconcileIssue | src/pipeline/github_client.py:982-1001 | Adopts the known or marker-matched issue, or creates one as the last write; success names an issue that carries the candidate's marker. |
| Client.GitHubClient.ReconcilePullRequest | src/pipeline/github_client.py:1004-1041 | A pull request the row names is adopted unless it is seen merged or closed; otherwise an open one of this exact branch is adopted, or one is created as the last write, after a listing that showed the branch without any or was misread. |
| Client.GitHubClient.CreatePullRequest | src/pipeline/github_client.py:1028-1041 | Either the new pull request is the last write, or an open one of the branch is adopted after a refusal; a merged or closed one is reported. |
| Client.GitHubClient.IssueForMarker | src/pipeline/github_client.py:843-874 | A match carries the marker; no match means that no issue carries it, unless the answer was misread. |
| Client.GitHubClient.PullRequestForHead | src/pipeline/github_client.py:892-921 | A match is a pull request of the branch; no match means the branch has none, unless the listing was misread. |
| Client.PickPull | src/pipeline/github_client.py:892-921 | Of a branch's pull requests the open one is preferred, then the merged, then the closed. |
| Client.GitHubClient.EnsureLabel | src/pipeline/github_client.py:950-979 | Creates nothing but labels; a failure is remembered for the run. |
| Client.EmptyListingMeansNoPull | src/pipeline/github_client.py:1004-1041 | If the branch has no pull request, the pipeline never opened one for the candidate. |
| Client.NumberIdentifiesPull | src/pipeline/github_client.py:923-940 | The pull request read back by number is the one the row named. |
| StateStore.CandidateStateStore.LookUp | src/pipeline/state.py:332-385 | The answer is the index's, remembered per candidate; the index is built at most once per run. |
| StateStore.CandidateStateStore.SearchOnce | src/pipeline/state.py:337-350 | One search per run; a failure of any kind is remembered as a failed index. |
| StateStore.CandidateStateStore.Remember | src/pipeline/state.py:332-385 | Found, absent, orphaned, failed and unconfigured answers agree with the index. |
| StateStore.CandidateStateStore.ResumeCandidate | src/pipeline/state.py:315-330 | The resume decision, from the last row and the lookup, asking the lookup only when the row links nothing. |
| StateStore.AbsentMeansUnpublished | src/pipeline/state.py:332-385 | A candidate the index does not mention and this run has not started on has no issue from any run, if the search missed nothing. |
| StateStore.FoundMeansCarried | src/pipeline/state.py:332-385 | An indexed artifact is an issue of the fork that carries the candidate's marker. |
| StateStore.ScopeSurvives | src/pipeline/state.py:332-385 | The index stays right about candidates not yet started while others are processed. |
| Settlement.MayFollowTransitive | src/pipeline/state.py:156-173 | The settlement rule is transitive. |
| Settlement.MayFollowReflexive | src/pipeline/state.py:156-173 | The settlement rule is reflexive. |
| Settlement.AppendKeepsWellFormed | src/pipeline/state.py:414-429 | Appends keep the log admissible; exactly the rows the rule forbids are refused, and they leave the log unchanged. |
| Settlement.SettlementNeverWeakens | src/pipeline/state.py:414-437 | Between any two rows of one candidate in an admissible log, however far apart, the later one may follow the earlier. |
| Settlement.SettlementIsPermanent | src/pipeline/state.py:156-173 | Identity never returns to null, merge verification never drops, settled-with-artifact and merged are absorbing, and consecutive rows of a candidate differ. |
| Settlement.IdentityValuesMayChange | src/pipeline/state.py:160-162 | The rule protects non-nullness only: an issue number may be replaced by another. |
| Settlement.SettledRowsSkipOnProof | src/pipeline/state.py:176-200 | A settled row is skipped exactly when an artifact is known; without one it is resumed even while search is down. |
| Settlement.ProvenArtifactsResume | src/pipeline/state.py:176-200 | A row that links an artifact is never deferred: it is skipped when settled and resumed otherwise. |
| Settlement.LatestMap | src/pipeline/state.py:293-298 | The last-write-wins map holds exactly the last row of every candidate. |
| History.Seed | src/pipeline/history.py:57-123 | The seed file holds the last accepted row of every candidate in order of first appearance; counts and run ids are those of the accepted rows; a non-empty output is refused. |
| History.ExportRows | src/pipeline/history.py:142-170 | Exactly the rows after the seeded offset; refused if and only if the metadata is invalid, the file is shorter than the seed, or an exported line is malformed. |
| History.HostedRun | src/pipeline/history.py:57-170 | Seeding, appending a run's rows and exporting yields exactly the rows the run appended. |
| History.HostedIsContinuous | src/pipeline/history.py:57-170 | Any number of hosted runs put exactly the continuous log on record, seed the same last row for every candidate, and have no row refused. |
| History.AppendsDependOnLatest | src/pipeline/state.py:414-429 | What a run appends depends on the last rows only, not on the rest of the file. |
| History.CollapseKeepsLatest | src/pipeline/history.py:75-109 | The seeded table reads like the log it was collapsed from and has one row per candidate. |
| History.WellFormedIsAccepted | src/pipeline/history.py:84-94 | Seeding an admissible log refuses none of its rows. |
| History.SeedNeverWeakens | src/pipeline/history.py:88-94 | Whatever the history, the seeded row of a candidate may follow every accepted row before it. |
| Markers.PrintThenScan | src/pipeline/templates/render.py:17-19 | Scanning a printed marker returns exactly its id. |
| Markers.ScanAgreesWithSubstring | src/pipeline/state.py:83-83 | The pattern finds an id in a body exactly when the printed marker occurs in it. |
| Markers.RenderThenScan | src/pipeline/templates/render.py:205-290 | Scanning any rendered issue body, simulated or live, whose other text holds no marker returns exactly the candidate's id, in all three lanes. |
| Markers.RenderedBodyCarriesMarker | src/pipeline/templates/render.py:205-290 | Every rendered issue body carries the candidate's marker. |
| Markers.ScanSplitsAtNewline | src/pipeline/state.py:83-83 | A marker never spans two lines: scanning lines apart finds the same ids. |
| MarkerIndex.BuildMarkerIndex | src/pipeline/state.py:97-138 | The one-pass index groups the matches of all pages up to the first short one; it fails exactly on a malformed page or when no short page comes. |
| MarkerIndex.IndexIsGroupBy | src/pipeline/state.py:97-138 | An id is indexed if and only if its marker occurs under exactly one issue number, and a duplicate if and only if under two or more. |
| MarkerIndex.GroupingIgnoresOrder | src/pipeline/state.py:97-138 | The grouping does not depend on item order or page split. |
| CheckRuns.RulePassesExactlyPassing | src/pipeline/github_client.py:83-153 | The rule passes a snapshot if and only if it is not empty, every state is accepted and every required context is successful; only then is there no failure reason. |
| CheckRuns.SettledMeansNothingRunning | src/pipeline/github_client.py:83-153 | A verdict is settled if and only if nothing is pending or awaits approval. |
| CheckRuns.ReadCheckRuns | src/pipeline/github_client.py:471-511 | One conclusion per name, check runs before legacy statuses, the first report of a name kept. |
| CheckRuns.EveryNameKeptOnce | src/pipeline/github_client.py:471-511 | No reported name is lost, none appears twice, nothing is invented. |
| CheckRuns.FirstReportWins | src/pipeline/github_client.py:471-511 | The first report of a name is the one kept. |
| CheckRuns.WaitForCheckRuns | src/pipeline/github_client.py:526-624 | Terminates on any monotone clock; sleeps no more than the budget; reads at most once per started interval plus once; gives no failure reason if and only if its last snapshot passes. |
| CheckRuns.WaitForNamedSuite | src/pipeline/github_client.py:218-290 | The same bounds; passes if and only if the last snapshot awaits no approval and holds the named check with an accepted state. |
| Verify.VerifyCandidate | src/pipeline/verify.py:474-614 | A satisfied verdict means that the lane's criterion was observed at the given head, an open one that it is deferred to the pull request, and the transcript records only what observers returned at that head. |
| Verify.SuiteEvidence | src/pipeline/verify.py:242-322 | Suite evidence fails unless the suite was observed green at the head, from the source the mode prescribes. |
| Verify.VerifyLane1 | src/pipeline/verify.py:325-409 | The alert criterion: post-PR, absent at the head and suite green. |
| Verify.VerifyLane2 | src/pipeline/verify.py:148-239 | The skipped-test criterion: every item observed green at the head, or deferred to CI where it cannot run locally. |
| Verify.VerifyLane3 | src/pipeline/verify.py:412-471 | The deprecation criterion: symbol gone with no callers or overrides at the head, and suite green under local evidence. |
| Verify.TwoStagesShowLaneFacts | src/pipeline/verify.py:474-614 | A pre-PR verdict that did not fail and a satisfied post-PR verdict at one head show every fact of the lane at that head. |
| Verify.PostPrIgnoresSymbol | src/pipeline/verify.py:474-614 | The post-PR verdict of a deprecation does not depend on the symbol probe. |
| Sessions.RunStaysBalanced | src/pipeline/session_client.py:278-342 | Over any operations the run's session counter never exceeds the ceiling and the total is the sum of the per-session maxima. |
| Sessions.LostResponsesAreForgotten | src/pipeline/session_client.py:330-333 | Any number of lost creation responses leave the counter at zero and the next reservation accepted. |
| Sessions.AccountedIsMaximum | src/pipeline/session_client.py:379-391 | A session's accounted usage is at least everything it ever reported. |
| Sessions.AccountedWasReported | src/pipeline/session_client.py:379-391 | A session's accounted usage, when not zero, is a value it reported. |
| Sessions.RecordingTwiceAddsNothing | src/pipeline/session_client.py:379-391 | Recording the same usage again, or less, changes nothing. |
| Sessions.AcuRefusalIsPermanent | src/pipeline/session_client.py:278-284 | Once refused for projected usage, every later reservation of the run is refused. |
| Sessions.SequentialSessionsStayUnderCeiling | src/pipeline/session_client.py:278-391 | Sessions that run one after the other within their own limit never exceed the run's ceiling. |
| Sessions.RecordingKeepsCeilings | src/pipeline/session_client.py:379-391 | Whatever the one session there was room for reports, the counter stays within its ceiling, the total the sum of the maxima, and the units within their ceiling as long as no session passed its own limit. |
| Sessions.RetryIsFatalOnReuse | src/pipeline/session_client.py:138-151 | A retry is fatal if and only if the API calls the session old, or says nothing and repeats the previous id. |
| Sessions.SessionClient.ReserveSession | src/pipeline/session_client.py:278-284 | A reservation counts a session or is refused by one of the two ceilings, as the accounting specification says. |
| Sessions.SessionClient.AcceptSession | src/pipeline/session_client.py:334-342 | The retry decision, and the session remembered unless the decision is fatal. |
| Sessions.SessionClient.RecordTerminalUsage | src/pipeline/session_client.py:379-391 | Usage is accounted first and refused afterwards, as the accounting specification says. |
| Containment.ContainmentDepths | src/pipeline/dispatch.py:49-74 | Succeeds if and only if no node is reported twice and every chain ends at an un-nested candidate, and then gives the depth in that forest; otherwise the error names a duplicate, a missing parent or a cycle that is really there. |
| Containment.Climb | src/pipeline/dispatch.py:59-73 | The walk ends because every turn meets a new candidate; it counts the levels above a candidate or explains why there is no root. |
| Containment.RepeatedMeansRootless | src/pipeline/dispatch.py:67-69 | Meeting a candidate twice on the way out means there is no root. |
| Containment.ParentIsOneUp | src/pipeline/dispatch.py:59-73 | In a forest a nested candidate's parent exists, lies one level up and has the same root. |
| Ranking.OrderedIsSorted | src/pipeline/dispatch.py:77-87 | The order sorts by depth, score descending and id, strictly: distinct ids leave no ties. |
| Ranking.Ordered | src/pipeline/dispatch.py:77-87 | Ordering loses and invents no candidate. |
| Ranking.TopCount | src/pipeline/dispatch.py:208-229 | Exactly n of a ranked set are among its best n, or all of them. |
| Ranking.TopIsBest | src/pipeline/dispatch.py:208-229 | Everything among the best n beats everything that is not. |
| Ranking.TopGrows | src/pipeline/dispatch.py:208-229 | One more place admits at most one more candidate and drops none. |
| Dispatch.DispatchCandidates | src/pipeline/dispatch.py:142-233 | The one-pass loop with its counter decides every candidate as the order-free specification does; it raises if and only if containment is broken or an un-nested candidate has no route or no score. |
| Dispatch.SupportFollowsRoot | src/pipeline/dispatch.py:163-170 | A decided parent supports suppression exactly when the root of its chain was chosen. |
| Dispatch.AheadIsPrefix | src/pipeline/dispatch.py:152-211 | The eligible candidates decided so far are exactly those ranked above the next one. |
| Dispatch.ParentIsDecided | src/pipeline/dispatch.py:142-162 | A parent is decided before its children. |
| Dispatch.FirstLinkIsBest | src/pipeline/dispatch.py:171-180 | The child a decision is linked to is the best-ranked of its children. |
| DispatchLaws.OrderIsIrrelevant | src/pipeline/dispatch.py:77-87 | Permuting the input changes neither acceptance, that is distinct nodes and dispatchable rows, nor any candidate's decision. |
| DispatchLaws.BudgetGoesToTheBest | src/pipeline/dispatch.py:182-233 | Pull requests go to exactly the first min(budget, n) of the n eligible candidates by score and id; exactly the others overflow the budget. |
| DispatchLaws.OthersConsumeNoBudget | src/pipeline/dispatch.py:200-233 | Adding a candidate that does not compete, such as any medium-tier one, changes no un-nested decision. |
| DispatchLaws.NestedFollowsRoot | src/pipeline/dispatch.py:152-180 | A nested candidate at any depth is never published; it is suppressed if and only if its root was chosen, blocked otherwise, and linked to its parent. |
| DispatchLaws.SuppressionMirrorsRoot | src/pipeline/dispatch.py:152-180 | A nested candidate is suppressed if and only if the decision on its root opens a pull request. |
| DispatchLaws.BudgetIsMonotone | src/pipeline/dispatch.py:182-233 | One more unit of budget adds at most one pull request and removes none; nested candidates only move from blocked to suppressed; no other decision changes, and no link does. |
| DispatchLaws.DispatchKeepsArtifacts | src/pipeline/dispatch.py:142-233 | Dispatch touches no artifact, and whatever it sends to publication is un-nested and dispatching. |
| DispatchLaws.DecisionIsUnique | src/pipeline/dispatch.py:142-233 | The specification decides every candidate in exactly one way. |
| SkippedTests.EnumerateSkippedTests | src/pipeline/lanes/skipped_tests.py:143-231 | The sites of all readable files in order, and the unreadable ones reported. |
| SkippedTests.FindEnclosing | src/pipeline/lanes/skipped_tests.py:177-184 | The prefix loop finds the longest enclosing scope in the table. |
| SkippedTests.AllLinksPointOutwards | src/pipeline/lanes/skipped_tests.py:166-227 | However classes are named, every link points to a reported site with a shorter scope. |
| SkippedLaws.EmitIsTree | src/pipeline/lanes/skipped_tests.py:86-227 | With distinct class names per body, the flat walk with its table finds exactly what recursion over the nested classes finds: the nearest enclosing skipped class. |
| SkippedLaws.AcceptedIffDistinct | src/pipeline/lanes/skipped_tests.py:166-227 | For every repository the dispatcher accepts the enumerated candidates if and only if no node is reported twice. |
| SkippedLaws.WellNamedRepositoryIsAccepted | src/pipeline/lanes/skipped_tests.py:166-227 | With one skip per definition and unique names per scope the candidates form a forest the dispatcher accepts, each linked to its nearest enclosing skipped class. |
| SkippedLaws.NodeidIsInjective | src/pipeline/lanes/skipped_tests.py:174-174 | A node id can be read back: path and names are determined by it. |
| SkippedLaws.RepeatedSkipIsRefused | src/pipeline/lanes/skipped_tests.py:168-174 | Two unconditional skips on one definition make dispatch raise. |
| Results.Aggregate | src/pipeline/observability/results.py:145-156 | One row per candidate seen: the best by lifecycle progress, later runs winning ties. |
| Results.AggregateIsGreatest | src/pipeline/observability/results.py:145-156 | The aggregated row is the lexicographically greatest by progress, run and position. |
| Results.AggregationIsCompositional | src/pipeline/observability/results.py:145-156 | Aggregating a concatenation of runs is merging the two aggregates. |
| Results.MoreRunsNeverRegress | src/pipeline/observability/results.py:145-156 | Adding runs never moves a candidate back. |
| Results.ExternalSettlementWins | src/pipeline/observability/results.py:52-63 | A merge is never displaced; without one, a pull request a human closed outranks any row that still waits. |

## Left out

- SIMULATE mode of the runner, client and session client: it writes nothing to the fork.
- HTTP transports, credentials, retries on the wire, git worktrees, pytest output parsing and AST probing: every observer
  is an arbitrary function, every transport call an arbitrary success or failure.
- JSON and schema validation, file locking and quarantined lines: the log is a sequence of rows and a malformed line is
  skipped (seed) or an error (export).
- Candidate fields no property mentions, `reason_detail`, notes, run events and fix outputs.
- Drift linking (`dedupe.py`, the LANE 1 branch of `_normalize`, `supersede`): no candidate adopts another one's rows.
- `append_if_new_artifact`, `publish_artifacts`, `github_marker_search`: not on the path `run_once` takes; `upgrade_ci_mode` is
  constant in LIVE mode.
- `gate.py`, `score.py`, `rubric.py`, `red_baseline.py`: dispatch takes an arbitrary gate result, score and risk.
- Issue and pull-request text beyond the marker and the line structure of the issue body; prompts; titles and sign-off
  checks of `_publish_pr` are arbitrary outcomes.
- Reports, KPIs and `config.py` parsing; `aggregate` merges rows only, events are concatenated.
- `wait_for_check_runs` without polling and with preset conclusions; the reread of changed CI mode.
- The order in which re-observed rows are visited, and the `excluded` records of the enumerator.
- Concurrent runs: excluded by assumption. A hosted run whose export is not published: its rows are lost to later runs.
- Protocol.AtMostOneIssueAndPull: does not bound sessions, which the source does not bound across runs either; the limits
  that hold are those of `Pipeline.RunOnce` and `Protocol.AnotherSessionUntilSettled`.
- Runner.CandidateRunner.EvaluateAfter: waits for the suite before it probes alerts or skip markers, not after, because a
  seam is a function here; neither reads what the other returned.
- Runner.CandidateRunner.WatchCi: the fork flag and the pull request's head are arbitrary, because the snapshot's revision is
  not part of any guarantee.
