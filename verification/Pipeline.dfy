/**
 `run_once` of src/pipeline/__main__.py: normalize the enumerated candidates against the state file, gate
 and dispatch them, process each in turn, then look once more at the merges other runs are waiting for.
 `Campaign` strings any number of such runs together, each killed wherever it was killed.
 */
module Pipeline {
  import opened Wrappers
  import opened Schemas
  import opened Settlement
  import opened Protocol
  import opened Host
  import opened StateStore
  import opened Client
  import opened Runner
  import Sessions
  import Containment
  import Ranking
  import Dispatch
  import DispatchLaws

  /** What the gates and the scorer make of a candidate. */
  datatype Judgement = Judgement(
    gatePassed: bool,
    failedGate: Option<GateName>,
    reason: Option<ReasonCode>,
    score: Option<real>,
    risk: Option<int>)

  /** The input of one run: its configuration, what enumeration found, and the gates. */
  datatype RunInput = RunInput(
    config: RunConfig,
    dispatch: Dispatch.DispatchConfig,
    limits: Sessions.Limits,
    hasIssues: bool,
    markerSearchEnabled: bool,
    enumerated: seq<Candidate>,
    judge: Candidate -> Judgement)

  /** A LIVE configuration, and candidates as enumeration builds them: plain ids, the node each id was
      digested from, no artifact. Equal ids mean equal nodes, so a node may be enumerated twice. */
  predicate Sound(input: RunInput, w: World) {
    && input.config.run.verify.ciEvidenceMode.Actions? && input.config.pollInterval > 0.0
    && (Containment.DistinctNodeids(input.enumerated) ==> Containment.DistinctIds(input.enumerated))
    && forall c :: c in input.enumerated ==> PlainId(c.candidateId) && NoIdentity(c) && Placed(w, c)
  }

  // ---- normalize -------------------------------------------------------------------------------

  /** The persisted row when it links an artifact, the enumerated candidate otherwise. */
  function NormalizedRow(log: seq<Candidate>, c: Candidate, runId: string): (n: Candidate)
    ensures n.candidateId == c.candidateId
    ensures NoIdentity(c) ==> Normalized(log, n)
    ensures n in log || n == c.(runId := Some(runId))
  {
    var prior := Latest(log, c.candidateId);
    if prior.Some? && HasLocalArtifact(prior.value) then prior.value else c.(runId := Some(runId))
  }

  function JudgedRow(c: Candidate, j: Judgement): Candidate {
    var gated := c.(gatePassed := Some(j.gatePassed), failedGate := j.failedGate, failedGateReason := j.reason,
                    reason := j.reason, state := Gated);
    if j.gatePassed then gated.(score := j.score, risk := j.risk, state := Scored) else gated
  }

  /** What dispatch is given: every enumerated candidate normalized, gated and scored. */
  function Source(input: RunInput, log: seq<Candidate>): (source: seq<Candidate>)
    ensures |source| == |input.enumerated|
    ensures forall k :: 0 <= k < |source| ==> source[k] == Sourced(input, log, input.enumerated[k])
  {
    seq(|input.enumerated|, k requires 0 <= k < |input.enumerated| => Sourced(input, log, input.enumerated[k]))
  }

  function Sourced(input: RunInput, log: seq<Candidate>, c: Candidate): Candidate {
    var n := NormalizedRow(log, c, input.config.run.id);
    JudgedRow(n, input.judge(n))
  }

  lemma SourcedIsNormalized(input: RunInput, log: seq<Candidate>, w: World, c: Candidate)
    requires NoIdentity(c) && Placed(w, c) && forall row :: row in log ==> Placed(w, row)
    ensures var d := Sourced(input, log, c);
            d.candidateId == c.candidateId && Normalized(log, d) && Placed(w, d)
  {
    hide Normalized, NoIdentity;
    var n := NormalizedRow(log, c, input.config.run.id);
    StaysNormalized(log, n, JudgedRow(n, input.judge(n)));
  }

  /** Adopt persisted identity, then gate and score. */
  method Prepare(log: seq<Candidate>, input: RunInput, ghost w: World) returns (r: seq<Candidate>)
    requires Sound(input, w) && forall row :: row in log ==> Placed(w, row)
    ensures r == Source(input, log)
    ensures forall k :: 0 <= k < |r| ==>
              r[k].candidateId == input.enumerated[k].candidateId && Normalized(log, r[k]) && Placed(w, r[k])
    ensures Containment.DistinctNodeids(r) ==> Containment.DistinctIds(r)
  {
    hide Normalized, Sourced, Placed, NoIdentity, PlainId, Containment.DistinctNodeids, Containment.DistinctIds;
    r := [];
    for k := 0 to |input.enumerated|
      invariant |r| == k && forall j :: 0 <= j < k ==> r[j] == Sourced(input, log, input.enumerated[j])
    {
      r := r + [Sourced(input, log, input.enumerated[k])];
    }
    forall k | 0 <= k < |r|
      ensures r[k].candidateId == input.enumerated[k].candidateId && Normalized(log, r[k]) && Placed(w, r[k])
    {
      assert input.enumerated[k] in input.enumerated;
      SourcedIsNormalized(input, log, w, input.enumerated[k]);
    }
    SameNodesThroughout(input, w, r);
  }

  /** Normalizing changes no node, so doubled nodes stay doubled. */
  lemma SameNodesThroughout(input: RunInput, w: World, r: seq<Candidate>)
    requires Sound(input, w) && |r| == |input.enumerated|
    requires forall k :: 0 <= k < |r| ==> r[k].candidateId == input.enumerated[k].candidateId && Placed(w, r[k])
    ensures Containment.DistinctNodeids(r) ==> Containment.DistinctIds(r)
  {
    hide PlainId;
    forall k | 0 <= k < |r| ensures r[k].nodeid == input.enumerated[k].nodeid {
      assert input.enumerated[k] in input.enumerated;
    }
  }

  lemma StaysNormalized(log: seq<Candidate>, c: Candidate, d: Candidate)
    requires Normalized(log, c) && SameIdentity(c, d)
    ensures Normalized(log, d)
  {}

  // ---- one run -----------------------------------------------------------------------------------

  datatype RunResult = RunResult(settled: seq<Candidate>, reobserved: seq<Candidate>)

  /** Whatever else a run wrote, branches, sessions and pull requests are for the chosen only. */
  predicate WithinBudget(before: seq<RemoteWrite>, after: seq<RemoteWrite>, chosen: set<string>) {
    && before <= after
    && forall k :: |before| <= k < |after| ==>
         after[k].LabelWrite? || after[k].IssueWrite? || after[k].id in chosen
  }

  /** The dispatched candidates still to be processed, and what publication needs to know of them. */
  ghost predicate Pending(s: Snapshot, dispatched: seq<Candidate>, i: nat, chosen: set<string>)
    requires i <= |dispatched|
  {
    && Containment.DistinctIds(dispatched)
    && (forall k :: i <= k < |dispatched| ==>
          Normalized(s.log, dispatched[k]) && Placed(s.world, dispatched[k]) && PlainId(dispatched[k].candidateId))
    && (forall k :: 0 <= k < |dispatched| ==>
          && (Publishing(dispatched[k].action) ==> dispatched[k].state.Dispatching?)
          && (dispatched[k].action == Some(OpenPr) ==> dispatched[k].candidateId in chosen))
  }

  lemma NextPending(before: Snapshot, after: Snapshot, dispatched: seq<Candidate>, i: nat, chosen: set<string>)
    requires i < |dispatched| && Pending(before, dispatched, i, chosen)
    requires Advances(dispatched[i].candidateId, before, after)
    ensures Pending(after, dispatched, i + 1, chosen)
  {
    forall k | i < k < |dispatched| ensures Normalized(after.log, dispatched[k]) {
      AdvancesKeepsOthers(dispatched[i].candidateId, before, after, dispatched[k].candidateId);
    }
  }

  lemma StaysWithinBudget(start: Snapshot, before: Snapshot, after: Snapshot, id: string, chosen: set<string>)
    requires WithinBudget(start.world.ledger, before.world.ledger, chosen) && Advances(id, before, after)
    requires id in chosen || TracksOnly(before.world.ledger, after.world.ledger)
    ensures WithinBudget(start.world.ledger, after.world.ledger, chosen)
  {
    forall k | |before.world.ledger| <= k < |after.world.ledger|
      ensures after.world.ledger[k].LabelWrite? || after.world.ledger[k].IssueWrite?
              || after.world.ledger[k].id in chosen
    {
      assert Concerns(after.world.ledger[k], id);
    }
  }

  ghost function ChosenIds(rows: set<Candidate>, config: Dispatch.DispatchConfig): set<string> {
    set c | c in Dispatch.Chosen(rows, config) :: c.candidateId
  }

  /** The allocator's promises, in the terms of the runner. */
  lemma DispatchedArePending(s: Snapshot, source: seq<Candidate>, config: Dispatch.DispatchConfig,
                             dispatched: seq<Candidate>)
    requires Containment.DistinctIds(source)
    requires forall k :: 0 <= k < |source| ==>
               Normalized(s.log, source[k]) && Placed(s.world, source[k]) && PlainId(source[k].candidateId)
    requires Dispatch.Dispatchable(Containment.Rows(source)) && |dispatched| == |source|
    requires forall k :: 0 <= k < |source| ==>
               Dispatch.Decides(Containment.Rows(source), config, source[k], dispatched[k])
    ensures Pending(s, dispatched, 0, ChosenIds(Containment.Rows(source), config))
    ensures |ChosenIds(Containment.Rows(source), config)| <= config.budgetN
  {
    hide Dispatch.Dispatchable, Dispatch.Decides, Normalized, PlainId, Dispatch.Chosen;
    var all := Containment.Rows(source);
    Containment.DistinctMeansUnique(source);
    DispatchLaws.BudgetGoesToTheBest(all, config);
    ImageIsNoLarger(Dispatch.Chosen(all, config));
    forall k | 0 <= k < |dispatched|
      ensures SameIdentity(source[k], dispatched[k]) && Normalized(s.log, dispatched[k])
      ensures Publishing(dispatched[k].action) ==> dispatched[k].state.Dispatching?
      ensures dispatched[k].action == Some(OpenPr) ==> dispatched[k].candidateId in ChosenIds(all, config)
    {
      assert source[k] in all;
      DispatchLaws.DispatchKeepsArtifacts(all, config, source[k], dispatched[k]);
      StaysNormalized(s.log, source[k], dispatched[k]);
    }
  }

  lemma {:induction false} ImageIsNoLarger(s: set<Candidate>)
    ensures |set c | c in s :: c.candidateId| <= |s|
  {
    var image := set c | c in s :: c.candidateId;
    if s != {} {
      var x :| x in s;
      ImageIsNoLarger(s - {x});
      var rest := set c | c in s - {x} :: c.candidateId;
      assert image == rest + {x.candidateId};
    }
  }

  /** Process the dispatched candidates one after the other. */
  method ProcessAll(runner: CandidateRunner, dispatched: seq<Candidate>, ghost chosen: set<string>,
                    ghost start: Snapshot)
    returns (r: Result<seq<Candidate>, Failure>)
    requires runner.Ready() && runner.store.started == {} && start == runner.host.Now()
    requires Pending(runner.host.Now(), dispatched, 0, chosen) && runner.WithinCeiling()
    modifies runner.host, runner.store, runner.client, runner.sessions
    ensures runner.Ready() && old(runner.host.states) <= runner.host.states
    ensures WithinBudget(start.world.ledger, runner.host.world.ledger, chosen)
    ensures runner.WithinCeiling() && runner.Uncounted() == old(runner.Uncounted())
    ensures r.Failure? ==> r.error.Killed? || r.error.Aborted?
    ensures r.Success? ==>
              && |r.value| == |dispatched|
              && forall k :: 0 <= k < |dispatched| ==> TurnOver(dispatched[k], r.value[k])
  {
    hide Normalized, Advances, CandidateRunner.Ready, TurnOver, PlainId, Reported,
         CandidateRunner.WithinCeiling;
    var settled: seq<Candidate> := [];
    for i := 0 to |dispatched|
      invariant runner.Ready() && old(runner.host.states) <= runner.host.states
      invariant runner.store.started <= set k | 0 <= k < i :: dispatched[k].candidateId
      invariant Pending(runner.host.Now(), dispatched, i, chosen)
      invariant runner.WithinCeiling() && runner.Uncounted() == old(runner.Uncounted())
      invariant WithinBudget(start.world.ledger, runner.host.world.ledger, chosen)
      invariant |settled| == i && forall k :: 0 <= k < i ==> TurnOver(dispatched[k], settled[k])
    {
      ghost var before := runner.host.Now();
      var result := runner.Process(dispatched[i]);
      StaysWithinBudget(start, before, runner.host.Now(), dispatched[i].candidateId, chosen);
      if result.Failure? {
        return Failure(result.error);
      }
      NextPending(before, runner.host.Now(), dispatched, i, chosen);
      TurnIsOver(dispatched[i], result.value);
      settled := settled + [result.value];
    }
    r := Success(settled);
  }

  /** How a turn ends: not published at all, tracked by an issue, or settled. */
  predicate TurnOver(c: Candidate, d: Candidate) {
    && d.candidateId == c.candidateId
    && (if Publishing(c.action)
        then Ended(d.state) || (c.action == Some(OpenIssue) && d.state.IssueCreated? && d.issueNumber.Some?)
        else d == c)
  }

  lemma TurnIsOver(c: Candidate, d: Candidate)
    requires d.candidateId == c.candidateId
    requires !Publishing(c.action) ==> d == c
    requires Publishing(c.action) ==>
               Ended(d.state) || (c.action == Some(OpenIssue) && d.state.IssueCreated? && d.issueNumber.Some?)
    ensures TurnOver(c, d)
  {}

  // ---- merges other runs are waiting for -------------------------------------------------------

  /** The last row of every candidate. */
  function LatestRows(log: seq<Candidate>): (rows: seq<Candidate>)
    ensures forall c :: c in rows <==> Latest(log, c.candidateId) == Some(c)
    ensures Containment.DistinctIds(rows)
  {
    if log == [] then []
    else
      var last := log[|log| - 1];
      Others(LatestRows(log[..|log| - 1]), last.candidateId) + [last]
  }

  function Others(rows: seq<Candidate>, id: string): (r: seq<Candidate>)
    requires Containment.DistinctIds(rows)
    ensures forall c :: c in r <==> c in rows && c.candidateId != id
    ensures Containment.DistinctIds(r)
  {
    if rows == [] then []
    else (if rows[0].candidateId == id then [] else [rows[0]]) + Others(rows[1..], id)
  }

  predicate Waiting(c: Candidate, processed: set<string>) {
    c.candidateId !in processed && c.state.AwaitingHumanMerge? && c.prNumber.Some?
  }

  /** Re-observe every pull request that waits for a human and was not processed by this run. Writes
      nothing to the fork. */
  method ReobserveAll(runner: CandidateRunner, processed: set<string>) returns (r: Result<seq<Candidate>, Failure>)
    requires runner.Ready()
    modifies runner.host, runner.store
    ensures runner.Ready() && old(runner.host.states) <= runner.host.states
    ensures runner.host.world.ledger == old(runner.host.world.ledger)
    ensures r.Failure? ==> r.error.Killed? || r.error.Aborted?
    ensures r.Success? ==> forall c :: c in r.value ==> c.state.Merged? || c.state.Terminal?
  {
    hide Advances, CandidateRunner.Ready, Latest;
    var rows := LatestRows(runner.host.log);
    r := Success([]);
    for k := 0 to |rows|
      invariant runner.Ready() && old(runner.host.states) <= runner.host.states
      invariant runner.host.world.ledger == old(runner.host.world.ledger)
      invariant forall j :: k <= j < |rows| ==> Latest(runner.host.log, rows[j].candidateId) == Some(rows[j])
      invariant r.Success? && forall c :: c in r.value ==> c.state.Merged? || c.state.Terminal?
    {
      if Waiting(rows[k], processed) {
        ghost var before := runner.host.Now();
        Begin(runner, rows[k].candidateId);
        var observed := runner.ReobserveMerge(rows[k]);
        if observed.Failure? {
          return Failure(observed.error);
        }
        OtherRowsStay(before, runner.host.Now(), rows, k);
        if observed.value.Some? {
          r := Success(r.value + [observed.value.value]);
        }
      }
    }
  }

  ghost method Begin(runner: CandidateRunner, id: string)
    requires runner.Ready()
    modifies runner.store`started
    ensures runner.Ready() && id in runner.store.started
  {
    runner.store.Start(id);
  }

  lemma OtherRowsStay(before: Snapshot, after: Snapshot, rows: seq<Candidate>, k: nat)
    requires k < |rows| && Containment.DistinctIds(rows) && Advances(rows[k].candidateId, before, after)
    ensures forall j :: k < j < |rows| ==>
              Latest(after.log, rows[j].candidateId) == Latest(before.log, rows[j].candidateId)
  {
    forall j | k < j < |rows|
      ensures Latest(after.log, rows[j].candidateId) == Latest(before.log, rows[j].candidateId)
    {
      AdvancesKeepsOthers(rows[k].candidateId, before, after, rows[j].candidateId);
    }
  }

  /** Run ids tell the runs of a host apart. */
  ghost predicate OwnRunId(runs: seq<Run>, run: Run) {
    forall other :: other in runs && other.id == run.id ==> other == run
  }

  /** Every row of this run, from position `from` on, that asks a human to merge was proven by this run: its own
      required contexts passed and its own observers' verdicts are on record. */
  ghost predicate HandoversOf(log: seq<Candidate>, from: nat, run: Run) {
    forall r :: from <= r < |log| && log[r].state.AwaitingHumanMerge? && log[r].runId == Some(run.id) ==>
      Handover(log[..r], log[r], run)
  }

  /** One whole run. However it ends, the trace is an execution of the protocol; branches, sessions and pull
      requests were written for at most `budgetN` candidates; the sessions created exceed the ceiling by no
      more than the creation responses that were lost; the run's accounts keep to their ceilings; and every
      merge it asks for was proven. */
  method RunOnce(host: Host, input: RunInput)
    returns (r: Result<RunResult, Failure>, ghost chosen: set<string>, ghost accounts: Sessions.Accounts)
    requires host.Valid() && Sound(input, host.world) && input.config.run in host.runs
    modifies host
    ensures host.Valid() && old(host.states) <= host.states && host.world.nodes == old(host.world.nodes)
    ensures |chosen| <= input.dispatch.budgetN
    ensures chosen == {} || chosen == ChosenIds(Containment.Rows(Source(input, old(host.log))), input.dispatch)
    ensures WithinBudget(old(host.world.ledger), host.world.ledger, chosen)
    ensures Sessions.WithinCeilings(accounts, input.limits)
    ensures AnsweredCount(host.world.ledger) == AnsweredCount(old(host.world.ledger)) + accounts.sessions
    ensures SessionCount(host.world.ledger) - SessionCount(old(host.world.ledger))
         <= input.limits.maxSessions + LostCount(host.world.ledger) - LostCount(old(host.world.ledger))
    ensures OwnRunId(host.runs, input.config.run) ==> HandoversOf(host.log, |host.states[0].log|, input.config.run)
    ensures r.Failure? ==> r.error.Killed? || r.error.Aborted?
    ensures r.Success? ==>
              && |r.value.settled| == |input.enumerated|
              && forall k :: 0 <= k < |input.enumerated| ==>
                   r.value.settled[k].candidateId == input.enumerated[k].candidateId
    ensures r.Success? ==> forall c :: c in r.value.reobserved ==> c.state.Merged? || c.state.Terminal?
  {
    hide Execution, Handover, HandoversOf, OwnRunId, WithinBudget, Sessions.WithinCeilings, Source, ChosenIds;
    LastIsSnapshot(host.states, host.steps);
    r, chosen, accounts := RunCandidates(host, input);
    CounterIsBounded(accounts, input.limits);
    AnsweredOrLost(host.world.ledger);
    AnsweredOrLost(old(host.world.ledger));
    LastIsSnapshot(host.states, host.steps);
    OwnHandovers(host.states, host.steps, host.runs, input.config.run);
    GrownFrom(old(host.states), host.states, host.steps);
  }

  lemma CounterIsBounded(accounts: Sessions.Accounts, limits: Sessions.Limits)
    requires Sessions.WithinCeilings(accounts, limits)
    ensures accounts.sessions <= limits.maxSessions
  {}

  lemma GrownFrom(before: seq<Snapshot>, states: seq<Snapshot>, steps: seq<Step>)
    requires Execution(states, steps) && before <= states && before != []
    ensures states[|states| - 1].world.nodes == before[|before| - 1].world.nodes
  {
    HistoryOnlyGrows(states, steps, |before| - 1, |states| - 1);
  }

  lemma OwnHandovers(states: seq<Snapshot>, steps: seq<Step>, runs: seq<Run>, run: Run)
    requires Execution(states, steps) && RowsComeFrom(steps, runs)
    ensures OwnRunId(runs, run) ==> HandoversOf(states[|states| - 1].log, |states[0].log|, run)
  {
    LastIsSnapshot(states, steps);
    var log := states[|states| - 1].log;
    forall r | |states[0].log| <= r < |log| && log[r].state.AwaitingHumanMerge?
      ensures exists own :: own in runs && log[r].runId == Some(own.id) && Handover(log[..r], log[r], own)
    {
      var own := ProvenBySomeRun(states, steps, runs, r);
    }
  }

  /** Some run of the host proved this handover. */
  lemma ProvenBySomeRun(states: seq<Snapshot>, steps: seq<Step>, runs: seq<Run>, r: nat) returns (own: Run)
    requires Execution(states, steps) && RowsComeFrom(steps, runs) && |states| > 0
    requires |states[0].log| <= r < |states[|states| - 1].log| && states[|states| - 1].log[r].state.AwaitingHumanMerge?
    ensures own in runs
    ensures var log := states[|states| - 1].log; log[r].runId == Some(own.id) && Handover(log[..r], log[r], own)
  {
    hide Execution;
    var j := HandoverIsProven(states, steps, |states| - 1, r);
    LastIsSnapshot(states, steps);
    own := steps[j].run;
  }

  method RunCandidates(host: Host, input: RunInput)
    returns (r: Result<RunResult, Failure>, ghost chosen: set<string>, ghost accounts: Sessions.Accounts)
    requires host.Valid() && Sound(input, host.world) && input.config.run in host.runs
    modifies host
    ensures host.Valid() && old(host.states) <= host.states
    ensures |chosen| <= input.dispatch.budgetN
    ensures chosen == {} || chosen == ChosenIds(Containment.Rows(Source(input, old(host.log))), input.dispatch)
    ensures WithinBudget(old(host.world.ledger), host.world.ledger, chosen)
    ensures Sessions.WithinCeilings(accounts, input.limits)
    ensures AnsweredCount(host.world.ledger) == AnsweredCount(old(host.world.ledger)) + accounts.sessions
    ensures r.Failure? ==> r.error.Killed? || r.error.Aborted?
    ensures r.Success? ==>
              && |r.value.settled| == |input.enumerated|
              && forall k :: 0 <= k < |input.enumerated| ==>
                   r.value.settled[k].candidateId == input.enumerated[k].candidateId
    ensures r.Success? ==> forall c :: c in r.value.reobserved ==> c.state.Merged? || c.state.Terminal?
  {
    hide Execution, Pending, RowsComeFrom, WithinBudget, TurnOver, Sessions.WithinCeilings, Sound, Dispatch.Decides,
         Dispatch.Dispatchable, Source, ChosenIds;
    accounts := Sessions.EMPTY;
    Sessions.NothingSpent(input.limits);
    SoundRunner(input, host.world);
    var selected;
    selected, chosen := Select(host, input);
    if selected.Failure? {
      NothingWritten(host.world.ledger);
      return Failure(selected.error), {}, accounts;
    }
    var dispatched := selected.value;
    var store := new CandidateStateStore(host, true, true);
    var client := new GitHubClient(host, input.hasIssues, input.markerSearchEnabled);
    var sessions := new Sessions.SessionClient(input.limits);
    var runner := new CandidateRunner(input.config, host, store, client, sessions);
    var settled := ProcessAll(runner, dispatched, chosen, host.Now());
    accounts := sessions.View();
    if settled.Failure? {
      return Failure(settled.error), chosen, accounts;
    }
    var processed := set c | c in dispatched && Publishing(c.action) :: c.candidateId;
    var reobserved := ReobserveAll(runner, processed);
    if reobserved.Failure? {
      return Failure(reobserved.error), chosen, accounts;
    }
    r := Success(RunResult(settled.value, reobserved.value));
    TurnsKeepIds(dispatched, settled.value);
  }

  lemma SoundRunner(input: RunInput, w: World)
    requires Sound(input, w)
    ensures input.config.run.verify.ciEvidenceMode.Actions? && input.config.pollInterval > 0.0
  {}

  /** Normalize, gate, score and dispatch. What is dispatched decides as the allocator's specification says, and
      is ready to be processed. */
  method Select(host: Host, input: RunInput) returns (r: Result<seq<Candidate>, Failure>, ghost chosen: set<string>)
    requires host.Valid() && Sound(input, host.world)
    ensures |chosen| <= input.dispatch.budgetN
    ensures r.Failure? ==> r.error.Aborted? && chosen == {}
    ensures r.Success? ==> Pending(host.Now(), r.value, 0, chosen) && |r.value| == |input.enumerated|
    ensures r.Success? ==>
              forall k :: 0 <= k < |input.enumerated| ==> r.value[k].candidateId == input.enumerated[k].candidateId
    ensures r.Success? ==>
              var all := Containment.Rows(Source(input, host.log));
              && Dispatch.Dispatchable(all) && chosen == ChosenIds(all, input.dispatch)
              && forall k :: 0 <= k < |input.enumerated| ==>
                   Dispatch.Decides(all, input.dispatch, Source(input, host.log)[k], r.value[k])
  {
    hide Normalized, Execution, Dispatch.Decides, Dispatch.Dispatchable, PlainId, Pending, Placed, NoIdentity,
         Dispatch.Chosen, Containment.DistinctNodeids, Sourced, ChosenIds;
    RowsArePlaced(host);
    var source := Prepare(host.log, input, host.world);
    chosen := {};
    var decided := Dispatch.DispatchCandidates(source, input.dispatch);
    if decided.Failure? {
      return Failure(Aborted), {};
    }
    chosen := ChosenIds(Containment.Rows(source), input.dispatch);
    SourceIsPlain(source, input, host.world);
    DispatchedArePending(host.Now(), source, input.dispatch, decided.value);
    DispatchKeepsIds(Containment.Rows(source), input.dispatch, source, decided.value);
    r := Success(decided.value);
  }

  lemma NothingWritten(ledger: seq<RemoteWrite>)
    ensures WithinBudget(ledger, ledger, {})
  {}

  lemma TurnsKeepIds(dispatched: seq<Candidate>, settled: seq<Candidate>)
    requires |settled| == |dispatched| && forall k :: 0 <= k < |dispatched| ==> TurnOver(dispatched[k], settled[k])
    ensures forall k :: 0 <= k < |dispatched| ==> settled[k].candidateId == dispatched[k].candidateId
  {}

  lemma RowsArePlaced(host: Host)
    requires host.Valid()
    ensures forall row :: row in host.log ==> Placed(host.world, row)
  {
    hide Execution, HasIssue, HasPull, MergedPull;
    host.Safe();
    forall row | row in host.log ensures Placed(host.world, row) {
      LoggedRowIsKnown(host.Now(), row);
    }
  }

  lemma SourceIsPlain(source: seq<Candidate>, input: RunInput, w: World)
    requires Sound(input, w) && |source| == |input.enumerated|
    requires forall k :: 0 <= k < |source| ==> source[k].candidateId == input.enumerated[k].candidateId
    ensures forall k :: 0 <= k < |source| ==> PlainId(source[k].candidateId)
  {
    hide PlainId;
    forall k | 0 <= k < |source| ensures PlainId(source[k].candidateId) {
      assert input.enumerated[k] in input.enumerated;
    }
  }

  lemma DispatchKeepsIds(all: set<Candidate>, config: Dispatch.DispatchConfig, source: seq<Candidate>,
                         dispatched: seq<Candidate>)
    requires all == Containment.Rows(source) && |dispatched| == |source| && Dispatch.Dispatchable(all)
    requires forall k :: 0 <= k < |source| ==> Dispatch.Decides(all, config, source[k], dispatched[k])
    ensures forall k :: 0 <= k < |source| ==> dispatched[k].candidateId == source[k].candidateId
  {
    hide Dispatch.Decides, Dispatch.Dispatchable;
    forall k | 0 <= k < |source| ensures dispatched[k].candidateId == source[k].candidateId {
      assert source[k] in all;
      DispatchLaws.DispatchKeepsArtifacts(all, config, source[k], dispatched[k]);
    }
  }

  // ---- any number of runs ----------------------------------------------------------------------

  /** A merge the log reports happened to the row's own pull request. */
  ghost predicate MergesAreReal(s: Snapshot) {
    forall row :: row in s.log && (row.state.Merged? || row.mergedAt.Some? || row.mergeVerified) ==>
      row.prNumber.Some? && row.mergedAt.Some? && MergedPull(s.world, row.prNumber.value, row.mergedAt.value)
  }

  /** Whoever asked a human to merge had the proof on record: the required contexts and the observers are
      those of the run that wrote the row. */
  ghost predicate HandoversAreProven(log: seq<Candidate>, inputs: seq<RunInput>) {
    forall r :: 0 <= r < |log| && log[r].state.AwaitingHumanMerge? ==>
      exists input :: input in inputs && log[r].runId == Some(input.config.run.id)
                   && Handover(log[..r], log[r], input.config.run)
  }

  function RunsOf(inputs: seq<RunInput>): (runs: seq<Run>)
    ensures |runs| == |inputs| && forall k :: 0 <= k < |inputs| ==> runs[k] == inputs[k].config.run
  {
    seq(|inputs|, k requires 0 <= k < |inputs| => inputs[k].config.run)
  }

  /** Some step publishes the artifact of `write` once more. */
  ghost predicate CanRepeat(s: Snapshot, write: RemoteWrite, misread: bool) {
    match write
    case IssueWrite(id, _, _) => CanCreateIssue(s, id, misread)
    case PullWrite(id, _, _, _) => CanOpenPull(s, id, misread)
    case _ => false
  }

  /** No row names the artifact of `write`; a pull request is also closed or merged by now, and its candidate
      not settled. */
  predicate Unrecorded(s: Snapshot, write: RemoteWrite) {
    match write
    case IssueWrite(id, _, _) => Untracked(s.log, id)
    case PullWrite(id, head, _, _) => Unlisted(s.log, id) && NoOpenPull(s.world, head) && Unsettled(s.log, id)
    case _ => false
  }

  /** An artifact can be published once more exactly on a misread answer, while it is unrecorded. */
  ghost predicate RepeatsOnlyUnrecorded(s: Snapshot) {
    forall write, misread :: write in s.world.ledger ==>
      (CanRepeat(s, write, misread) <==> misread && Unrecorded(s, write))
  }

  /** At most one tracking issue and one pull request per candidate, none of them created on a misread answer. */
  ghost predicate AtMostOnce(ledger: seq<RemoteWrite>) {
    forall id: string ::
      && (IssuesReadWell(ledger, id) ==> IssueWrites(ledger, id) <= 1)
      && (PullsReadWell(ledger, id) ==> PullWrites(ledger, id) <= 1)
  }

  /** Any number of runs over one fork, whatever their configurations and wherever each of them dies: every
      candidate has at most one tracking issue and one pull request, unless one was created on a misread answer
      while nothing named the first; every merge on record is real; every handover was proven by its own run. */
  method Campaign(world: World, inputs: seq<RunInput>) returns (host: Host)
    requires WellFormedWorld(world) && world.ledger == []
    requires forall input :: input in inputs ==> Sound(input, world)
    ensures host.Valid() && Invariant(host.Now())
    ensures AtMostOnce(host.world.ledger) && RepeatsOnlyUnrecorded(host.Now())
    ensures MergesAreReal(host.Now()) && HandoversAreProven(host.log, inputs)
  {
    hide Execution, Sound, Invariant, MergesAreReal, HandoversAreProven, RowsComeFrom, AtMostOnce,
         RepeatsOnlyUnrecorded;
    InitialIsSafe(Snapshot(world, []));
    host := new Host(world, [], RunsOf(inputs));
    for k := 0 to |inputs|
      invariant host.Valid() && host.world.nodes == world.nodes && host.runs == RunsOf(inputs)
      invariant host.states != [] && host.states[0].log == []
    {
      SoundIsAboutNodes(inputs[k], world, host.world);
      assert RunsOf(inputs)[k] in host.runs;
      var _, _, _ := RunOnce(host, inputs[k]);
    }
    host.Safe();
    SafeIsOnce(host.Now());
    SafeMergesAreReal(host.Now());
    ExecutedHandovers(host.states, host.steps, inputs);
  }

  lemma SoundIsAboutNodes(input: RunInput, w: World, w': World)
    requires Sound(input, w) && w'.nodes == w.nodes
    ensures Sound(input, w')
  {
    hide PlainId;
  }

  lemma SafeMergesAreReal(s: Snapshot)
    requires Invariant(s)
    ensures MergesAreReal(s)
  {
    hide Latest, MergedPull, HasPull, HasIssue;
    forall row | row in s.log ensures RowKnown(s.world, row) {
      LoggedRowIsKnown(s, row);
    }
  }

  lemma ExecutedHandovers(states: seq<Snapshot>, steps: seq<Step>, inputs: seq<RunInput>)
    requires Execution(states, steps) && RowsComeFrom(steps, RunsOf(inputs)) && states != [] && states[0].log == []
    ensures HandoversAreProven(states[|states| - 1].log, inputs)
  {
    hide Handover, Execution, RowsComeFrom;
    LastIsSnapshot(states, steps);
    var log := states[|states| - 1].log;
    forall r | 0 <= r < |log| && log[r].state.AwaitingHumanMerge?
      ensures exists input :: input in inputs && log[r].runId == Some(input.config.run.id)
                           && Handover(log[..r], log[r], input.config.run)
    {
      var own := ProvenBySomeRun(states, steps, RunsOf(inputs), r);
      var k :| 0 <= k < |inputs| && RunsOf(inputs)[k] == own;
      assert inputs[k] in inputs;
    }
  }

  lemma LastIsSnapshot(states: seq<Snapshot>, steps: seq<Step>)
    requires Execution(states, steps)
    ensures |states| == |steps| + 1
  {}

  lemma SafeIsOnce(s: Snapshot)
    requires Invariant(s)
    ensures AtMostOnce(s.world.ledger) && RepeatsOnlyUnrecorded(s)
  {
    hide CanCreateIssue, CanOpenPull, Unsettled, Untracked, Unlisted, NoOpenPull;
    forall id: string
      ensures IssuesReadWell(s.world.ledger, id) ==> IssueWrites(s.world.ledger, id) <= 1
      ensures PullsReadWell(s.world.ledger, id) ==> PullWrites(s.world.ledger, id) <= 1
    {
      SecondIssueIsMisread(s.world.ledger, id);
      SecondPullIsMisread(s.world.ledger, id);
    }
    forall write, misread | write in s.world.ledger
      ensures CanRepeat(s, write, misread) <==> misread && Unrecorded(s, write)
    {
      match write
      case IssueWrite(_, _, _) => IssueAgain(s, write, misread);
      case PullWrite(_, _, _, _) => PullAgain(s, write, misread);
      case _ =>
    }
  }
}
