/**
 Where the guarantees end, shown on executions of whole runs.

 Sessions are not looked up before they are requested: a run that dies while it polls a session leaves the
 next run to ask again, with the first session's id on record. That it is then given the first session back
 rests on the session API honouring the `idempotent` flag of the request. A response that is lost gives its
 place under the run's session ceiling back. And malformed answers read as empty, so that a second issue can
 follow one whose number was never written down, and a second pull request one a human closed.

 A contract cannot say that a method may make a certain choice, so the runs are given step by step. `RunOf`
 says what makes such a stretch of an execution a run: every row is the one the runner's own functions compute
 from the row before and from what dispatch decided, and the runner's contracts hold of every step.
 */
module Reruns {
  import opened Wrappers
  import opened Schemas
  import opened Settlement
  import opened Markers
  import opened MarkerIndex
  import opened Protocol
  import opened Host
  import opened Client
  import opened Runner
  import opened Pipeline
  import Containment
  import Dispatch
  import DispatchLaws
  import Ranking
  import Sessions
  import Verify

  /** An execution: its snapshots and the steps between them. */
  datatype Trace = Trace(states: seq<Snapshot>, steps: seq<Step>)

  ghost predicate Traced(t: Trace) {
    Execution(t.states, t.steps)
  }

  function Now(t: Trace): Snapshot
    requires t.states != []
  {
    t.states[|t.states| - 1]
  }

  ghost predicate Grown(t: Trace, t': Trace) {
    t.states <= t'.states && t.steps <= t'.steps
  }

  function EmptyFork(nodes: map<string, Option<string>>): Snapshot {
    Snapshot(World([], [], map[], nodes, []), [])
  }

  // ---- what makes a stretch of an execution a run --------------------------------------------------

  /** The candidates this run opens pull requests for, as dispatch decides it on the log the run starts with. */
  ghost function Picked(input: RunInput, log: seq<Candidate>): set<string> {
    ChosenIds(Containment.Rows(Source(input, log)), input.dispatch)
  }

  /** `d` is what dispatch decides for the enumerated candidate `c`. */
  ghost predicate DispatchedAs(input: RunInput, log: seq<Candidate>, c: Candidate, d: Candidate) {
    var all := Containment.Rows(Source(input, log));
    c in input.enumerated && Sourced(input, log, c) in all
    && Dispatch.Dispatchable(all) && Dispatch.Decides(all, input.dispatch, Sourced(input, log, c), d)
  }

  /** The first row of a turn: the dispatched candidate with its persisted identity and its issue. */
  function TrackedRow(config: RunConfig, d: Candidate, log: seq<Candidate>, artifact: Option<MarkerArtifact>,
                      number: nat, url: string): Candidate {
    var marked := d.(markerSearchOutcome := Some(if artifact.Some? then Found else Absent));
    IssueRow(config, Adopted(marked, Latest(log, d.candidateId), artifact, config.baseSha), number, url, artifact.Some?)
  }

  ghost predicate FirstRow(input: RunInput, start: Snapshot, s: Snapshot, row: Candidate) {
    exists c: Candidate, d: Candidate, artifact: Option<MarkerArtifact>, number: nat, url: string ::
      && DispatchedAs(input, start.log, c, d) && d.action == Some(OpenPr)
      && HasIssue(s.world, number, url, row.candidateId)
      && (artifact.Some? ==> artifact.value == MarkerArtifact(number, url))
      && row == TrackedRow(input.config, d, s.log, artifact, number, url)
  }

  /** The rows a turn may add after `last`; a finished session is recorded at the head its branch really has. */
  ghost predicate NextRow(config: RunConfig, w: World, last: Candidate, row: Candidate) {
    || (last.state.IssueCreated? && row == PreparedRow(config, last))
    || (last.state.Dispatching? && exists id :: id != "" && row == RecordedRow(config, last, id))
    || (last.state.Dispatching? && last.sessionId.Some? && last.headBranch.Some? && last.headBranch.value in w.branches
        && w.branches[last.headBranch.value] != ""
        && row == SessionRow(config, last, 1, last.sessionId.value, w.branches[last.headBranch.value]))
    || (last.state.SessionDone? && last.headSha.Some?
        && exists e :: JudgedBefore(e, last, last.headSha.value, config.run) && e.satisfied != Some(false)
                    && row == EvaluatedRow(config, last, e))
    || row == UnavailableRow(config, last)
  }

  /** Every other candidate on record has had its turn. */
  ghost predicate OthersEnded(log: seq<Candidate>, id: string) {
    forall other :: other != id && Latest(log, other).Some? ==> Ended(Latest(log, other).value.state)
  }

  ghost predicate MayWrite(input: RunInput, start: Snapshot, s: Snapshot, id: string) {
    id in Picked(input, start.log) && OthersEnded(s.log, id)
  }

  /** What the runner's contracts demand of a step beyond the protocol, in a run that began in `start`: one
      candidate at a time, a session only on a branch that exists and within the ceiling, a pull request only
      on such a branch, after a pre-PR verdict and a listing that showed none or was misread. */
  ghost predicate Orderly(input: RunInput, start: Snapshot, s: Snapshot, step: Step) {
    match step
    case CreateIssue(id, _, _) => MayWrite(input, start, s, id)
    case CreateBranch(id, branch, sha) =>
      && MayWrite(input, start, s, id) && branch !in s.world.branches
      && Latest(s.log, id).Some? && Latest(s.log, id).value.baseSha == Some(sha)
    case PostSession(id, _) =>
      && MayWrite(input, start, s, id)
      && AnsweredCount(s.world.ledger) < AnsweredCount(start.world.ledger) + input.limits.maxSessions
      && Latest(s.log, id).Some? && Latest(s.log, id).value.state.Dispatching?
      && Latest(s.log, id).value.headBranch.Some? && Latest(s.log, id).value.headBranch.value in s.world.branches
    case OpenPull(id, pull, misread) =>
      && MayWrite(input, start, s, id) && pull.head in s.world.branches && (misread || NoPullOf(s.world, pull.head))
      && Latest(s.log, id).Some? && VerifiedOnRecord(s.log, Latest(s.log, id).value, input.config.run)
    case AppendRow(row, run) =>
      && run == input.config.run && OthersEnded(s.log, row.candidateId)
      && (FirstRow(input, start, s, row)
          || (Latest(s.log, row.candidateId).Some?
              && NextRow(input.config, s.world, Latest(s.log, row.candidateId).value, row)))
    case _ => true
  }

  /** A session's id is durable before anything else happens, and a lost response defers its candidate. */
  ghost predicate Followed(input: RunInput, s: Snapshot, step: Step, next: Step) {
    step.PostSession? ==>
      && Latest(s.log, step.id).Some? && next.AppendRow?
      && var last := Latest(s.log, step.id).value;
         if step.answered then exists id :: id != "" && next.row == RecordedRow(input.config, last, id)
         else next.row == UnavailableRow(input.config, last)
  }

  /** The budget and the session ceiling are kept from `start` to `s`. */
  ghost predicate Kept(input: RunInput, start: Snapshot, s: Snapshot) {
    && Sound(input, start.world)
    && WithinBudget(start.world.ledger, s.world.ledger, Picked(input, start.log))
    && |Picked(input, start.log)| <= input.dispatch.budgetN
    && AnsweredCount(s.world.ledger) <= AnsweredCount(start.world.ledger) + input.limits.maxSessions
  }

  ghost predicate AllOrderly(t: Trace, from: nat, to: nat, input: RunInput)
    requires |t.states| == |t.steps| + 1 && from <= to <= |t.steps|
  {
    forall k :: from <= k < to ==> Orderly(input, t.states[from], t.states[k], t.steps[k])
  }

  ghost predicate AllFollowed(t: Trace, from: nat, to: nat, input: RunInput)
    requires |t.states| == |t.steps| + 1 && from <= to <= |t.steps|
  {
    forall k :: from <= k < to - 1 ==> Followed(input, t.states[k], t.steps[k], t.steps[k + 1])
  }

  /** From snapshot `from` to snapshot `to` one run of `input` takes place. */
  ghost predicate RunOf(t: Trace, from: nat, to: nat, input: RunInput)
    requires |t.states| == |t.steps| + 1 && from <= to <= |t.steps|
  {
    Kept(input, t.states[from], t.states[to]) && AllOrderly(t, from, to, input) && AllFollowed(t, from, to, input)
  }

  // ---- building runs -------------------------------------------------------------------------------

  /** A run that began in snapshot `from` is still under way, with no session response outstanding. */
  ghost predicate Running(t: Trace, from: nat, input: RunInput) {
    && Traced(t) && |t.states| == |t.steps| + 1 && from <= |t.steps|
    && RunOf(t, from, |t.steps|, input)
    && (|t.steps| > from ==> !t.steps[|t.steps| - 1].PostSession?)
  }

  lemma RunStays(t: Trace, t': Trace, from: nat, to: nat, input: RunInput)
    requires |t.states| == |t.steps| + 1 && |t'.states| == |t'.steps| + 1 && Grown(t, t') && from <= to <= |t.steps|
    requires RunOf(t, from, to, input)
    ensures RunOf(t', from, to, input)
  {
    hide Orderly, Followed, Kept;
    assert t'.states[to] == t.states[to];
    assert forall k :: from <= k < to ==> t'.states[k] == t.states[k] && t'.steps[k] == t.steps[k];
  }

  lemma Prolong(t: Trace, step: Step, next: Snapshot) returns (t': Trace)
    requires Traced(t) && Takes(Now(t), step, next)
    ensures Traced(t') && t' == Trace(t.states + [next], t.steps + [step])
  {
    hide Takes, Invariant;
    t' := Trace(t.states + [next], t.steps + [step]);
    forall k | 0 <= k < |t'.steps| ensures Takes(t'.states[k], t'.steps[k], t'.states[k + 1]) {
      if k < |t.steps| {
        assert Takes(t.states[k], t.steps[k], t.states[k + 1]);
      }
    }
  }

  /** An orderly step keeps the budget and the ceiling. */
  lemma OrderlyKeepsLimits(input: RunInput, start: Snapshot, s: Snapshot, step: Step, s': Snapshot)
    requires Takes(s, step, s') && Orderly(input, start, s, step) && Kept(input, start, s)
    ensures Kept(input, start, s')
  {
    hide Picked, Sound, Latest, OthersEnded, VerifiedOnRecord, RowKnown, Handover, FirstRow, NextRow;
    if s'.world.ledger != s.world.ledger {
      var write := s'.world.ledger[|s.world.ledger|];
      assert s'.world.ledger == s.world.ledger + [write];
      SessionCountAppend(s.world.ledger, write);
    }
  }

  lemma OrderlyGoesOn(t: Trace, t': Trace, from: nat, input: RunInput, step: Step, next: Snapshot)
    requires |t.states| == |t.steps| + 1 && from <= |t.steps| && t' == Trace(t.states + [next], t.steps + [step])
    requires AllOrderly(t, from, |t.steps|, input) && Orderly(input, t.states[from], Now(t), step)
    ensures AllOrderly(t', from, |t'.steps|, input)
  {
    hide Orderly;
    forall k | from <= k < |t'.steps| ensures Orderly(input, t'.states[from], t'.states[k], t'.steps[k]) {
      if k < |t.steps| {
        assert Orderly(input, t.states[from], t.states[k], t.steps[k]);
      }
    }
  }

  lemma FollowedGoesOn(t: Trace, t': Trace, from: nat, input: RunInput, step: Step, next: Snapshot)
    requires |t.states| == |t.steps| + 1 && from <= |t.steps| && t' == Trace(t.states + [next], t.steps + [step])
    requires AllFollowed(t, from, |t.steps|, input)
    requires |t.steps| > from ==> Followed(input, t.states[|t.steps| - 1], t.steps[|t.steps| - 1], step)
    ensures AllFollowed(t', from, |t'.steps|, input)
  {
    hide Followed;
    forall k | from <= k < |t'.steps| - 1 ensures Followed(input, t'.states[k], t'.steps[k], t'.steps[k + 1]) {
      if k < |t.steps| - 1 {
        assert Followed(input, t.states[k], t.steps[k], t.steps[k + 1]);
      }
    }
  }

  /** The run goes on by one step. */
  lemma GoOn(t: Trace, from: nat, input: RunInput, step: Step, next: Snapshot) returns (t': Trace)
    requires Traced(t) && |t.states| == |t.steps| + 1 && from <= |t.steps| && RunOf(t, from, |t.steps|, input)
    requires Takes(Now(t), step, next) && Orderly(input, t.states[from], Now(t), step)
    requires |t.steps| > from ==> Followed(input, t.states[|t.steps| - 1], t.steps[|t.steps| - 1], step)
    ensures Traced(t') && Grown(t, t') && t' == Trace(t.states + [next], t.steps + [step])
    ensures RunOf(t', from, |t'.steps|, input)
  {
    hide Takes, Orderly, Followed, Kept, AllOrderly, AllFollowed, Traced;
    OrderlyKeepsLimits(input, t.states[from], Now(t), step, next);
    t' := Prolong(t, step, next);
    OrderlyGoesOn(t, t', from, input, step, next);
    FollowedGoesOn(t, t', from, input, step, next);
  }

  // ---- runs in which dispatch picks every candidate ------------------------------------------------

  predicate Promising(j: Judgement, config: Dispatch.DispatchConfig) {
    j.gatePassed && j.score.Some? && j.risk.Some? && Dispatch.TierForScore(j.score.value, config).High?
  }

  /** The gates pass whatever they see with a high score, every lane is in scope, no enumerated candidate is
      nested or enumerated twice, and budget and ceilings have room. */
  ghost predicate Favours(input: RunInput) {
    && input.dispatch.onlyLanes == [] && |input.enumerated| <= input.dispatch.budgetN
    && Containment.DistinctNodeids(input.enumerated)
    && (forall c :: c in input.enumerated ==> !Containment.Nested(c) && c.sessionId.None?)
    && (forall n :: Promising(input.judge(n), input.dispatch))
    && Sessions.CheckReserve(Sessions.EMPTY, input.limits).None? && input.config.baseSha != ""
  }

  /** What dispatch makes of a promising candidate. */
  function Dispatched(input: RunInput, log: seq<Candidate>, c: Candidate): Candidate {
    var source := Sourced(input, log, c);
    var decision := Dispatch.RootDecision(source, input.dispatch, true);
    if decision.Success? then decision.value else source
  }

  lemma PromisingIsDispatched(input: RunInput, log: seq<Candidate>, c: Candidate)
    requires Favours(input) && !Containment.Nested(NormalizedRow(log, c, input.config.run.id))
    ensures var source := Sourced(input, log, c);
            && Dispatch.Eligible(source, input.dispatch) && Dispatch.Routable(source)
            && Dispatch.RootDecision(source, input.dispatch, true) == Success(Dispatched(input, log, c))
    ensures var n, d := NormalizedRow(log, c, input.config.run.id), Dispatched(input, log, c);
            && d.action == Some(OpenPr) && d.state == CandidateState.Dispatching
            && SameIdentity(n, d) && Verify.SubjectOf(d) == Verify.SubjectOf(n) && d.sessionId == n.sessionId
            && d.enclosingSkipNodeid == n.enclosingSkipNodeid
  {
    hide NormalizedRow, Dispatch.TierForScore;
    var n := NormalizedRow(log, c, input.config.run.id);
    assert Promising(input.judge(n), input.dispatch);
  }

  lemma SourceIsDistinct(input: RunInput, s: Snapshot)
    requires Invariant(s) && Sound(input, s.world) && Favours(input)
    ensures Containment.DistinctIds(Source(input, s.log)) && Containment.DistinctNodeids(Source(input, s.log))
  {
    hide NoIdentity, PlainId, Invariant, Sourced;
    var source := Source(input, s.log);
    forall k | 0 <= k < |source|
      ensures source[k].candidateId == input.enumerated[k].candidateId && source[k].nodeid == input.enumerated[k].nodeid
    {
      var c := input.enumerated[k];
      assert c in input.enumerated;
      RowsAreWhereTheyStand(s);
      SourcedIsNormalized(input, s.log, s.world, c);
    }
  }

  lemma RowsAreWhereTheyStand(s: Snapshot)
    requires Invariant(s)
    ensures forall row :: row in s.log ==> Placed(s.world, row)
  {
    hide HasIssue, HasPull, MergedPull;
    forall row | row in s.log ensures Placed(s.world, row) {
      LoggedRowIsKnown(s, row);
    }
  }

  lemma {:induction false} NoMoreRows(s: seq<Candidate>)
    ensures |Containment.Rows(s)| <= |s|
  {
    if s != [] {
      NoMoreRows(s[1..]);
      assert Containment.Rows(s) == Containment.Rows(s[1..]) + {s[0]};
    }
  }

  lemma PromisingRowsAreDispatchable(input: RunInput, s: Snapshot)
    requires Invariant(s) && Sound(input, s.world) && Favours(input)
    requires forall c :: c in input.enumerated ==> !Containment.Nested(NormalizedRow(s.log, c, input.config.run.id))
    ensures var all := Containment.Rows(Source(input, s.log));
            && Dispatch.Dispatchable(all) && Containment.UniqueIds(all)
            && forall c :: c in all ==> Dispatch.Eligible(c, input.dispatch)
  {
    hide Sound, Favours, Invariant, Sourced, NormalizedRow, Dispatch.Eligible, Dispatch.Routable,
         Containment.DistinctIds, Containment.DistinctNodeids, Containment.HasRoot;
    var source := Source(input, s.log);
    var all := Containment.Rows(source);
    SourceIsDistinct(input, s);
    Containment.DistinctMeansUnique(source);
    Containment.DistinctNodeidsAreUnique(source);
    forall c | c in all
      ensures Dispatch.Eligible(c, input.dispatch) && Dispatch.Routable(c) && Containment.HasRoot(all, c)
    {
      var k :| 0 <= k < |source| && source[k] == c;
      assert input.enumerated[k] in input.enumerated;
      PromisingIsDispatched(input, s.log, input.enumerated[k]);
      EligibleIsRoot(all, input, c);
    }
  }

  lemma EligibleIsRoot(all: set<Candidate>, input: RunInput, c: Candidate)
    requires Dispatch.Eligible(c, input.dispatch)
    ensures Containment.HasRoot(all, c)
  {
    assert Containment.RootAt(all, c, 0);
  }

  /** With room for all of them, dispatch decides every promising candidate for a pull request. */
  lemma PromisingArePicked(input: RunInput, s: Snapshot, c: Candidate)
    requires Invariant(s) && Sound(input, s.world) && Favours(input) && c in input.enumerated
    requires forall c :: c in input.enumerated ==> !Containment.Nested(NormalizedRow(s.log, c, input.config.run.id))
    ensures DispatchedAs(input, s.log, c, Dispatched(input, s.log, c)) && c.candidateId in Picked(input, s.log)
    ensures |Picked(input, s.log)| <= input.dispatch.budgetN
  {
    hide Sound, Invariant, NormalizedRow, Dispatch.Eligible, Dispatch.Routable, Dispatch.RootDecision,
         Dispatch.Decides, Dispatch.Chosen, Dispatch.Dispatchable;
    var all, row := Containment.Rows(Source(input, s.log)), Sourced(input, s.log, c);
    PromisingRowsAreDispatchable(input, s);
    var k :| 0 <= k < |input.enumerated| && input.enumerated[k] == c;
    assert Source(input, s.log)[k] == row;
    PromisingIsDispatched(input, s.log, c);
    NoMoreRows(Source(input, s.log));
    RoomForAll(all, input.dispatch, row);
    DispatchLaws.BudgetGoesToTheBest(all, input.dispatch);
    ImageIsNoLarger(Dispatch.Chosen(all, input.dispatch));
  }

  lemma RoomForAll(all: set<Candidate>, config: Dispatch.DispatchConfig, c: Candidate)
    requires Dispatch.Dispatchable(all) && c in all && |all| <= config.budgetN
    requires forall x :: x in all ==> Dispatch.Eligible(x, config)
    requires Dispatch.RootDecision(c, config, true).Success?
    ensures Dispatch.Decides(all, config, c, Dispatch.RootDecision(c, config, true).value)
    ensures c in Dispatch.Chosen(all, config)
  {
    hide Dispatch.RootDecision, Dispatch.TierForScore;
    var ahead := Ranking.Ahead(Dispatch.Eligibles(all, config), c);
    Ranking.BetterIsStrict(c, c);
    assert ahead <= all - {c};
    SmallerSet(ahead, all - {c});
    DispatchLaws.ChosenIsEligibleWithRoom(all, config, c);
    Dispatch.RootVerdict(all, config, c);
    DispatchLaws.RootKeepsLink(c, config, true);
  }

  lemma {:induction false} SmallerSet(a: set<Candidate>, b: set<Candidate>)
    requires a <= b
    ensures |a| <= |b|
  {
    if a != {} {
      var x :| x in a;
      SmallerSet(a - {x}, b - {x});
    }
  }

  // ---- what a turn writes to the fork --------------------------------------------------------------

  function WithIssue(w: World, id: string, url: string, body: string, misread: bool): World {
    var number := NextNumber(w);
    w.(issues := w.issues + [Issue(number, url, body)], ledger := w.ledger + [IssueWrite(id, number, misread)])
  }

  function WithBranch(w: World, id: string, branch: string, sha: string): World {
    w.(branches := w.branches[branch := sha], ledger := w.ledger + [BranchWrite(id, branch)])
  }

  function WithSession(w: World, id: string, answered: bool): World {
    w.(ledger := w.ledger + [SessionWrite(id, answered)])
  }

  function WithPull(w: World, id: string, head: string, url: string, misread: bool): World {
    var number := NextNumber(w);
    w.(pulls := w.pulls + [Pull(number, url, head, true, None)],
       ledger := w.ledger + [PullWrite(id, head, number, misread)])
  }

  // ---- the steps of a turn -------------------------------------------------------------------------

  /** A run has the turn of `c` under way. */
  ghost predicate Turn(t: Trace, from: nat, input: RunInput, c: Candidate) {
    && Running(t, from, input)
    && c in input.enumerated && c.candidateId in Picked(input, t.states[from].log)
    && OthersEnded(Now(t).log, c.candidateId)
  }

  /** A row from which the candidate's turn can go on or be resumed. */
  predicate Underway(c: Candidate, r: Candidate) {
    && Verify.SubjectOf(r) == Verify.SubjectOf(c) && !Containment.Nested(r)
    && r.issueUrl.Some? && r.headBranch.Some? && r.prNumber.None? && !IsSettled(r.state) && !r.state.IssueCreated?
  }

  lemma RunningIsSafe(t: Trace, from: nat, input: RunInput)
    requires Running(t, from, input)
    ensures Invariant(Now(t)) && Invariant(t.states[from]) && Sound(input, t.states[from].world)
  {
    hide AllOrderly, AllFollowed, WithinBudget, Sound, Invariant, Takes, Picked;
    ReachableIsSafe(t.states, t.steps, |t.states| - 1);
    ReachableIsSafe(t.states, t.steps, from);
  }

  /** The turn appends a row. */
  lemma Write(t: Trace, from: nat, input: RunInput, c: Candidate, row: Candidate) returns (t': Trace)
    requires Turn(t, from, input, c) && row.candidateId == c.candidateId
    requires Working(Now(t), row) && MayAppend(Now(t).log, row) && Latest(Now(t).log, row.candidateId) != Some(row)
    requires !row.state.Merged? && !row.state.AwaitingHumanMerge?
    requires FirstRow(input, t.states[from], Now(t), row)
             || (Latest(Now(t).log, row.candidateId).Some?
                 && NextRow(input.config, Now(t).world, Latest(Now(t).log, row.candidateId).value, row))
    ensures Turn(t', from, input, c) && Grown(t, t') && t'.states == t.states + [Now(t')]
    ensures Now(t') == Now(t).(log := Now(t).log + [row]) && Working(Now(t'), row)
    ensures Latest(Now(t').log, c.candidateId) == Some(row)
    ensures forall other :: other != c.candidateId ==> Latest(Now(t').log, other) == Latest(Now(t).log, other)
  {
    hide Latest, IdentityKnown, FirstRow, NextRow, RunOf, Traced, Picked;
    var next := Now(t).(log := Now(t).log + [row]);
    LatestAppend(Now(t).log, row);
    assert Takes(Now(t), AppendRow(row, input.config.run), next);
    t' := GoOn(t, from, input, AppendRow(row, input.config.run), next);
  }

  /** The turn, or the outside world, changes the fork. */
  lemma Act(t: Trace, from: nat, input: RunInput, c: Candidate, step: Step, next: Snapshot) returns (t': Trace)
    requires Turn(t, from, input, c) && !step.AppendRow? && !step.PostSession?
    requires Takes(Now(t), step, next) && Orderly(input, t.states[from], Now(t), step)
    ensures Turn(t', from, input, c) && Grown(t, t') && t'.states == t.states + [next] && next.log == Now(t).log
  {
    hide Latest, Orderly, RunOf, Traced, Picked;
    t' := GoOn(t, from, input, step, next);
  }

  /** What a session request leaves: its id on record, or the candidate deferred because the response was lost. */
  function Response(config: RunConfig, last: Candidate, answered: bool, sessionId: string): Candidate {
    if answered then RecordedRow(config, last, sessionId) else UnavailableRow(config, last)
  }

  /** The turn requests a session. */
  lemma Ask(t: Trace, from: nat, input: RunInput, c: Candidate, last: Candidate, answered: bool, sessionId: string)
    returns (t': Trace)
    requires Turn(t, from, input, c) && Latest(Now(t).log, c.candidateId) == Some(last)
    requires last.state.Dispatching? && last.headBranch.Some? && last.headBranch.value in Now(t).world.branches
    requires answered ==> sessionId != "" && last.sessionId != Some(sessionId)
    requires AnsweredCount(Now(t).world.ledger) < AnsweredCount(t.states[from].world.ledger) + input.limits.maxSessions
    ensures Turn(t', from, input, c) && Grown(t, t')
    ensures var row := Response(input.config, last, answered, sessionId);
            && Now(t') == Snapshot(WithSession(Now(t).world, c.candidateId, answered), Now(t).log + [row])
            && Latest(Now(t').log, c.candidateId) == Some(row)
    ensures forall other :: other != c.candidateId ==> Latest(Now(t').log, other) == Latest(Now(t).log, other)
  {
    hide Latest, RunOf, Traced, Picked, Invariant, Takes, Orderly, Followed, OthersEnded;
    var id, row := c.candidateId, Response(input.config, last, answered, sessionId);
    RunningIsSafe(t, from, input);
    var start, s := t.states[from], Now(t);
    var asked := s.(world := WithSession(s.world, id, answered));
    RequestIsOrderly(input, start, s, last, answered);
    if |t.steps| > from {
      NothingOutstanding(input, t.states[|t.steps| - 1], t.steps[|t.steps| - 1], PostSession(id, answered));
    }
    var t1 := GoOn(t, from, input, PostSession(id, answered), asked);
    ResponseIsOrderly(input, start, s, asked, last, answered, sessionId);
    t' := GoOn(t1, from, input, AppendRow(row, input.config.run), asked.(log := asked.log + [row]));
    LatestAppend(s.log, row);
    OthersStayEnded(s.log, row);
  }

  lemma NothingOutstanding(input: RunInput, s: Snapshot, step: Step, next: Step)
    requires !step.PostSession?
    ensures Followed(input, s, step, next)
  {}

  lemma RequestIsOrderly(input: RunInput, start: Snapshot, s: Snapshot, last: Candidate, answered: bool)
    requires MayWrite(input, start, s, last.candidateId) && Latest(s.log, last.candidateId) == Some(last)
    requires last.state.Dispatching? && last.headBranch.Some? && last.headBranch.value in s.world.branches
    requires AnsweredCount(s.world.ledger) < AnsweredCount(start.world.ledger) + input.limits.maxSessions
    ensures Orderly(input, start, s, PostSession(last.candidateId, answered))
    ensures Takes(s, PostSession(last.candidateId, answered),
                  s.(world := WithSession(s.world, last.candidateId, answered)))
  {
    hide Latest, MayWrite;
  }

  lemma ResponseIsOrderly(input: RunInput, start: Snapshot, s: Snapshot, asked: Snapshot, last: Candidate,
                          answered: bool, sessionId: string)
    requires Invariant(s) && OthersEnded(s.log, last.candidateId) && Latest(s.log, last.candidateId) == Some(last)
    requires asked.log == s.log && Later(s.world, asked.world) && last.state.Dispatching?
    requires answered ==> sessionId != "" && last.sessionId != Some(sessionId)
    ensures var step := AppendRow(Response(input.config, last, answered, sessionId), input.config.run);
            && Takes(asked, step, asked.(log := asked.log + [step.row])) && Orderly(input, start, asked, step)
            && Followed(input, s, PostSession(last.candidateId, answered), step)
  {
    hide Latest, IdentityKnown, FirstRow, Invariant, OthersEnded;
    var row := Response(input.config, last, answered, sessionId);
    LastRowIsWorking(s, last);
    SameIdentityWorks(s, last, row);
    LaterKeepsWorking(s, asked, row);
  }

  lemma OthersStayEnded(log: seq<Candidate>, row: Candidate)
    requires OthersEnded(log, row.candidateId)
    ensures OthersEnded(log + [row], row.candidateId)
  {
    hide Latest;
    LatestAppend(log, row);
  }

  lemma LastRowIsWorking(s: Snapshot, c: Candidate)
    requires Invariant(s) && Latest(s.log, c.candidateId) == Some(c)
    ensures Working(s, c)
  {
    hide HasIssue, HasPull, MergedPull;
    LoggedRowIsKnown(s, c);
  }

  /** A run begins, and with it the turn of `c`. */
  lemma Begin(t: Trace, input: RunInput, c: Candidate)
    requires Traced(t) && |t.states| == |t.steps| + 1 && Sound(input, Now(t).world)
    requires Favours(input) && c in input.enumerated
    requires forall c :: c in input.enumerated ==>
               !Containment.Nested(NormalizedRow(Now(t).log, c, input.config.run.id))
    requires OthersEnded(Now(t).log, c.candidateId)
    ensures Turn(t, |t.steps|, input, c) && DispatchedAs(input, Now(t).log, c, Dispatched(input, Now(t).log, c))
  {
    hide Sound, NormalizedRow, DispatchedAs, Picked, OthersEnded, Dispatched;
    ReachableIsSafe(t.states, t.steps, |t.steps|);
    PromisingArePicked(input, Now(t), c);
  }

  /** What normalization finds: nothing, or a row the turn can resume from. */
  predicate Resumes(c: Candidate, prior: Option<Candidate>) {
    prior.Some? ==> Underway(c, prior.value)
  }

  lemma ResumedIsFlat(input: RunInput, log: seq<Candidate>, c: Candidate)
    requires Favours(input) && c in input.enumerated && Resumes(c, Latest(log, c.candidateId))
    ensures !Containment.Nested(NormalizedRow(log, c, input.config.run.id))
  {
    hide Latest;
  }

  /** The two rows with which a turn begins, and what they take over. */
  lemma TakenRows(input: RunInput, start: seq<Candidate>, log: seq<Candidate>, c: Candidate,
                  artifact: Option<MarkerArtifact>, number: nat, url: string)
    requires Favours(input) && c in input.enumerated && NoIdentity(c)
    requires Latest(log, c.candidateId) == Latest(start, c.candidateId) && Resumes(c, Latest(log, c.candidateId))
    ensures var prior := Latest(log, c.candidateId);
            var row := TrackedRow(input.config, Dispatched(input, start, c), log, artifact, number, url);
            var prepared := PreparedRow(input.config, row);
            && row.state.IssueCreated? && row.candidateId == c.candidateId
            && Underway(c, prepared) && prepared.candidateId == c.candidateId && prepared.state.Dispatching?
            && prepared.baseSha.Some? && prepared.baseSha.value != ""
            && prepared.sessionId == (if prior.Some? then prior.value.sessionId else None)
  {
    hide Latest, Dispatched, Dispatch.TierForScore;
    ResumedIsFlat(input, start, c);
    PromisingIsDispatched(input, start, c);
  }

  lemma TrackedWorks(input: RunInput, start: Snapshot, s: Snapshot, c: Candidate, artifact: Option<MarkerArtifact>,
                     number: nat, url: string)
    requires Invariant(start) && Invariant(s) && Sound(input, start.world) && Favours(input) && c in input.enumerated
    requires s.world.nodes == start.world.nodes
    requires Latest(s.log, c.candidateId) == Latest(start.log, c.candidateId)
    requires Resumes(c, Latest(s.log, c.candidateId))
    requires HasIssue(s.world, number, url, c.candidateId)
    requires artifact.Some? ==> artifact.value == MarkerArtifact(number, url)
    ensures var row := TrackedRow(input.config, Dispatched(input, start.log, c), s.log, artifact, number, url);
            Working(s, row) && MayAppend(s.log, row)
  {
    hide Latest, HasIssue, Invariant, Dispatched, Favours, Sound, MayAppend, Normalized, Working, Unsettled, Resumes,
         Adopted, IssueRow;
    DispatchedIsNormalized(input, start, c);
    ResumesUnsettled(s.log, c);
    var d := Dispatched(input, start.log, c);
    var marked := d.(markerSearchOutcome := Some(if artifact.Some? then Found else Absent));
    NormalizedElsewhere(start.log, s.log, d, marked);
    var adopted := Adopted(marked, Latest(s.log, c.candidateId), artifact, input.config.baseSha);
    AdoptedWorks(s, marked, artifact, input.config.baseSha);
    AdoptedKeepsId(marked, Latest(s.log, c.candidateId), artifact, input.config.baseSha);
    IssueRowWorks(input.config, s, adopted, number, url, artifact.Some?);
  }

  lemma AdoptedKeepsId(c: Candidate, persisted: Option<Candidate>, artifact: Option<MarkerArtifact>, baseSha: string)
    ensures Adopted(c, persisted, artifact, baseSha).candidateId == c.candidateId
  {}

  lemma ResumesUnsettled(log: seq<Candidate>, c: Candidate)
    requires Resumes(c, Latest(log, c.candidateId))
    ensures Unsettled(log, c.candidateId)
  {
    hide Latest;
  }

  /** Normalization looks at the candidate's last row only. */
  lemma NormalizedElsewhere(log: seq<Candidate>, log': seq<Candidate>, d: Candidate, marked: Candidate)
    requires Normalized(log, d) && Latest(log', d.candidateId) == Latest(log, d.candidateId) && SameIdentity(d, marked)
    ensures Normalized(log', marked)
  {
    hide Latest;
  }

  lemma DispatchedIsNormalized(input: RunInput, start: Snapshot, c: Candidate)
    requires Invariant(start) && Sound(input, start.world) && Favours(input) && c in input.enumerated
    requires Resumes(c, Latest(start.log, c.candidateId))
    ensures var d := Dispatched(input, start.log, c);
            d.candidateId == c.candidateId && Normalized(start.log, d) && Placed(start.world, d)
  {
    hide Latest, Invariant, PlainId, NoIdentity, Dispatched, Dispatch.TierForScore, Normalized;
    var n := NormalizedRow(start.log, c, input.config.run.id);
    ResumedIsFlat(input, start.log, c);
    PromisingIsDispatched(input, start.log, c);
    RowsAreWhereTheyStand(start);
    StaysNormalized(start.log, n, Dispatched(input, start.log, c));
  }

  lemma SameNodes(t: Trace, from: nat, input: RunInput)
    requires Running(t, from, input)
    ensures Now(t).world.nodes == t.states[from].world.nodes
  {
    HistoryOnlyGrows(t.states, t.steps, from, |t.states| - 1);
  }

  lemma EnumeratedIsBare(input: RunInput, w: World, c: Candidate)
    requires Sound(input, w) && c in input.enumerated
    ensures NoIdentity(c) && Placed(w, c) && '/' !in c.candidateId
  {
    hide NoIdentity;
  }

  /** The turn's first row may be appended, and is what the run computes. */
  lemma TrackedIsFirst(input: RunInput, start: Snapshot, s: Snapshot, c: Candidate, artifact: Option<MarkerArtifact>,
                       number: nat, url: string)
    requires Invariant(start) && Invariant(s) && Sound(input, start.world) && Favours(input) && c in input.enumerated
    requires s.world.nodes == start.world.nodes && DispatchedAs(input, start.log, c, Dispatched(input, start.log, c))
    requires Latest(s.log, c.candidateId) == Latest(start.log, c.candidateId)
    requires Resumes(c, Latest(s.log, c.candidateId))
    requires HasIssue(s.world, number, url, c.candidateId)
    requires artifact.Some? ==> artifact.value == MarkerArtifact(number, url)
    ensures var row := TrackedRow(input.config, Dispatched(input, start.log, c), s.log, artifact, number, url);
            && Working(s, row) && MayAppend(s.log, row) && Latest(s.log, c.candidateId) != Some(row)
            && FirstRow(input, start, s, row) && row.candidateId == c.candidateId && row.state.IssueCreated?
  {
    hide Latest, HasIssue, IdentityKnown, Continues, Invariant, Sound, Favours, NormalizedRow, Dispatched, MayAppend,
         TrackedRow, DispatchedAs, PreparedRow;
    var d := Dispatched(input, start.log, c);
    EnumeratedIsBare(input, start.world, c);
    TakenRows(input, start.log, s.log, c, artifact, number, url);
    TrackedWorks(input, start, s, c, artifact, number, url);
    ResumedIsFlat(input, start.log, c);
    PromisingIsDispatched(input, start.log, c);
    assert FirstRow(input, start, s, TrackedRow(input.config, d, s.log, artifact, number, url));
  }

  /** The branch's row may follow the issue's. */
  lemma PreparedIsNext(input: RunInput, s: Snapshot, row: Candidate)
    requires Working(s, row) && Latest(s.log, row.candidateId) == Some(row)
    requires row.state.IssueCreated? && row.issueNumber.Some?
    ensures var r := PreparedRow(input.config, row);
            && r.candidateId == row.candidateId && Working(s, r) && MayAppend(s.log, r)
            && Latest(s.log, r.candidateId) != Some(r) && NextRow(input.config, s.world, row, r)
  {
    hide Latest, IdentityKnown, Continues, MayAppend;
    PreparedRowWorks(input.config, s, row);
  }

  /** The turn begins: the issue is known, its row and the branch's row are written. */
  lemma TakeUp(t: Trace, from: nat, input: RunInput, c: Candidate, artifact: Option<MarkerArtifact>, number: nat,
               url: string)
    returns (t': Trace, r: Candidate)
    requires Turn(t, from, input, c) && Favours(input)
    requires DispatchedAs(input, t.states[from].log, c, Dispatched(input, t.states[from].log, c))
    requires Latest(Now(t).log, c.candidateId) == Latest(t.states[from].log, c.candidateId)
    requires Resumes(c, Latest(Now(t).log, c.candidateId)) && HasIssue(Now(t).world, number, url, c.candidateId)
    requires artifact.Some? ==> artifact.value == MarkerArtifact(number, url)
    ensures Turn(t', from, input, c) && Grown(t, t') && Now(t').world == Now(t).world
    ensures Latest(Now(t').log, c.candidateId) == Some(r) && Underway(c, r) && r.candidateId == c.candidateId
    ensures r.state.Dispatching? && r.baseSha.Some? && r.baseSha.value != ""
    ensures var prior := Latest(Now(t).log, c.candidateId);
            r.sessionId == if prior.Some? then prior.value.sessionId else None
    ensures forall other :: other != c.candidateId ==> Latest(Now(t').log, other) == Latest(Now(t).log, other)
  {
    hide Latest, HasIssue, IdentityKnown, Continues, Invariant, Sound, Favours, Dispatched, RunOf, Traced, Picked,
         DispatchedAs, OthersEnded, MayAppend, TrackedRow, Underway, PreparedRow, FirstRow, NextRow;
    var start, s := t.states[from], Now(t);
    RunningIsSafe(t, from, input);
    SameNodes(t, from, input);
    var row := TrackedRow(input.config, Dispatched(input, start.log, c), s.log, artifact, number, url);
    r := PreparedRow(input.config, row);
    EnumeratedIsBare(input, start.world, c);
    TakenRows(input, start.log, s.log, c, artifact, number, url);
    TrackedIsFirst(input, start, s, c, artifact, number, url);
    TrackedNamesIssue(input.config, Dispatched(input, start.log, c), s.log, artifact, number, url);
    var t1 := Write(t, from, input, c, row);
    PreparedIsNext(input, Now(t1), row);
    t' := Write(t1, from, input, c, r);
  }

  lemma TrackedNamesIssue(config: RunConfig, d: Candidate, log: seq<Candidate>, artifact: Option<MarkerArtifact>,
                          number: nat, url: string)
    ensures TrackedRow(config, d, log, artifact, number, url).issueNumber == Some(number)
  {
    hide Latest;
  }

  /** The turn creates the candidate's tracking issue. */
  lemma NewIssue(t: Trace, from: nat, input: RunInput, c: Candidate, url: string, body: string, misread: bool)
    returns (t': Trace)
    requires Turn(t, from, input, c) && Untracked(Now(t).log, c.candidateId)
    requires misread || NoIssueWrite(Now(t).world, c.candidateId)
    requires IssueLink(url) && Carries(body, c.candidateId)
    ensures Turn(t', from, input, c) && Grown(t, t')
    ensures Now(t') == Now(t).(world := WithIssue(Now(t).world, c.candidateId, url, body, misread))
    ensures HasIssue(Now(t').world, NextNumber(Now(t).world), url, c.candidateId)
  {
    hide Latest, Carries, IssueLink, Untracked, NoIssueWrite, RunOf, Traced, Picked, OthersEnded;
    var s, issue := Now(t), Issue(NextNumber(Now(t).world), url, body);
    var next := s.(world := WithIssue(s.world, c.candidateId, url, body, misread));
    assert next.world.issues[|s.world.issues|] == issue;
    assert Takes(s, CreateIssue(c.candidateId, issue, misread), next);
    t' := Act(t, from, input, c, CreateIssue(c.candidateId, issue, misread), next);
  }

  /** The branch of the turn exists, and its head can be read. */
  predicate Branched(w: World, r: Candidate) {
    r.headBranch.Some? && r.headBranch.value in w.branches && w.branches[r.headBranch.value] != ""
  }

  /** The turn creates the branch its row names. */
  lemma NewBranch(t: Trace, from: nat, input: RunInput, c: Candidate, r: Candidate) returns (t': Trace)
    requires Turn(t, from, input, c) && Latest(Now(t).log, c.candidateId) == Some(r) && !IsSettled(r.state)
    requires r.headBranch.Some? && r.headBranch.value !in Now(t).world.branches
    requires r.baseSha.Some? && r.baseSha.value != ""
    ensures Turn(t', from, input, c) && Grown(t, t') && Branched(Now(t').world, r)
    ensures Now(t') == Now(t).(world := WithBranch(Now(t).world, c.candidateId, r.headBranch.value, r.baseSha.value))
  {
    hide Latest, RunOf, Traced, Picked, OthersEnded;
    var s, branch := Now(t), r.headBranch.value;
    var next := s.(world := WithBranch(s.world, c.candidateId, branch, r.baseSha.value));
    assert Takes(s, CreateBranch(c.candidateId, branch, r.baseSha.value), next);
    t' := Act(t, from, input, c, CreateBranch(c.candidateId, branch, r.baseSha.value), next);
  }

  /** The session pushes its work to the branch. */
  lemma Push(t: Trace, from: nat, input: RunInput, c: Candidate, r: Candidate, sha: string) returns (t': Trace)
    requires Turn(t, from, input, c) && Branched(Now(t).world, r) && sha != ""
    ensures Turn(t', from, input, c) && Grown(t, t') && Branched(Now(t').world, r)
    ensures Now(t') == Now(t).(world := Now(t).world.(branches := Now(t).world.branches[r.headBranch.value := sha]))
  {
    hide Latest, RunOf, Traced, Picked, OthersEnded, IssueLink;
    var s := Now(t);
    var next := s.(world := s.world.(branches := s.world.branches[r.headBranch.value := sha]));
    assert Takes(s, Outside, next);
    t' := Act(t, from, input, c, Outside, next);
  }

  lemma FinishedRows(input: RunInput, s: Snapshot, c: Candidate, r: Candidate, evidence: CriterionEvidence)
    requires Invariant(s) && Latest(s.log, r.candidateId) == Some(r)
    requires Underway(c, r) && r.state.Dispatching? && r.sessionId.Some?
    requires Branched(s.world, r) && evidence.satisfied != Some(false)
    requires JudgedBefore(evidence, c, s.world.branches[r.headBranch.value], input.config.run)
    ensures var done := SessionRow(input.config, r, 1, r.sessionId.value, s.world.branches[r.headBranch.value]);
            && done.candidateId == r.candidateId && Working(s, done) && MayAppend(s.log, done) && done != r
            && NextRow(input.config, s.world, r, done) && done.state.SessionDone?
            && JudgedBefore(evidence, done, done.headSha.value, input.config.run)
  {
    hide Latest, IdentityKnown, Continues, MayAppend, Verify.Verdict, Invariant;
    var done := SessionRow(input.config, r, 1, r.sessionId.value, s.world.branches[r.headBranch.value]);
    LastRowIsWorking(s, r);
    HeadWorks(s, r, done);
    var run := input.config.run;
    Verify.VerdictOfSameSubject(evidence, run.observe(c.candidateId, PrePr), c, done, done.headSha.value, run.verify,
                                PrePr);
  }

  lemma EvaluatedIsNext(input: RunInput, s: Snapshot, c: Candidate, done: Candidate, evidence: CriterionEvidence)
    requires Working(s, done) && Latest(s.log, done.candidateId) == Some(done)
    requires done.state.SessionDone? && done.headSha.Some?
    requires JudgedBefore(evidence, done, done.headSha.value, input.config.run) && evidence.satisfied != Some(false)
    requires Underway(c, done)
    ensures var row := EvaluatedRow(input.config, done, evidence);
            && row.candidateId == done.candidateId && Working(s, row) && MayAppend(s.log, row) && row != done
            && NextRow(input.config, s.world, done, row) && Underway(c, row)
            && forall log :: row in log ==> VerifiedOnRecord(log, row, input.config.run)
  {
    hide Latest, IdentityKnown, Continues, MayAppend, Verify.Verdict;
    var row, run := EvaluatedRow(input.config, done, evidence), input.config.run;
    SameIdentityWorks(s, done, row);
    Verify.VerdictOfSameSubject(evidence, run.observe(done.candidateId, PrePr), done, row, done.headSha.value,
                                run.verify, PrePr);
    assert Underpins(row, row, run);
  }

  /** The session is done: its row and the verified row are written. */
  lemma Finish(t: Trace, from: nat, input: RunInput, c: Candidate, r: Candidate, evidence: CriterionEvidence)
    returns (t': Trace, fixed: Candidate)
    requires Turn(t, from, input, c) && r.candidateId == c.candidateId && Latest(Now(t).log, c.candidateId) == Some(r)
    requires Underway(c, r) && r.state.Dispatching? && r.sessionId.Some? && Branched(Now(t).world, r)
    requires evidence.satisfied != Some(false)
    requires JudgedBefore(evidence, c, Now(t).world.branches[r.headBranch.value], input.config.run)
    ensures Turn(t', from, input, c) && Grown(t, t') && Now(t').world == Now(t).world
    ensures Latest(Now(t').log, c.candidateId) == Some(fixed)
    ensures fixed.candidateId == c.candidateId && Underway(c, fixed)
    ensures fixed.state.Verified? && fixed.headBranch == r.headBranch && fixed.sessionId == r.sessionId
    ensures VerifiedOnRecord(Now(t').log, fixed, input.config.run)
  {
    hide Latest, IdentityKnown, Continues, MayAppend, JudgedBefore, VerifiedOnRecord, NextRow, FirstRow, RunOf, Traced,
         Picked, OthersEnded, Invariant;
    RunningIsSafe(t, from, input);
    var done := SessionRow(input.config, r, 1, r.sessionId.value, Now(t).world.branches[r.headBranch.value]);
    FinishedRows(input, Now(t), c, r, evidence);
    var t1 := Write(t, from, input, c, done);
    fixed := EvaluatedRow(input.config, done, evidence);
    EvaluatedIsNext(input, Now(t1), c, done, evidence);
    t' := Write(t1, from, input, c, fixed);
    assert fixed in Now(t').log;
  }

  /** The turn opens a pull request. */
  lemma NewPull(t: Trace, from: nat, input: RunInput, c: Candidate, r: Candidate, url: string, misread: bool)
    returns (t': Trace)
    requires Turn(t, from, input, c) && Latest(Now(t).log, c.candidateId) == Some(r)
    requires !IsSettled(r.state) && r.prNumber.None?
    requires Branched(Now(t).world, r) && VerifiedOnRecord(Now(t).log, r, input.config.run)
    requires NoOpenPull(Now(t).world, r.headBranch.value)
    requires misread || (NoPullOf(Now(t).world, r.headBranch.value) && NoPullWrite(Now(t).world, c.candidateId))
    ensures Turn(t', from, input, c) && Grown(t, t')
    ensures Now(t') == Now(t).(world := WithPull(Now(t).world, c.candidateId, r.headBranch.value, url, misread))
  {
    hide Latest, RunOf, Traced, Picked, OthersEnded, NoOpenPull, NoPullOf, NoPullWrite, VerifiedOnRecord;
    var s, pull := Now(t), Pull(NextNumber(Now(t).world), url, r.headBranch.value, true, None);
    var next := s.(world := WithPull(s.world, c.candidateId, r.headBranch.value, url, misread));
    assert Takes(s, OpenPull(c.candidateId, pull, misread), next);
    t' := Act(t, from, input, c, OpenPull(c.candidateId, pull, misread), next);
  }

  // ---- whole turns -----------------------------------------------------------------------------------

  lemma EmptyTrace(nodes: map<string, Option<string>>) returns (t: Trace)
    ensures Traced(t) && t == Trace([EmptyFork(nodes)], [])
  {
    t := Trace([EmptyFork(nodes)], []);
    InitialIsSafe(EmptyFork(nodes));
  }

  lemma NoRowYet(id: string)
    ensures Latest([], id).None?
  {}

  lemma IssueStays(w: World, w': World, number: nat, url: string, id: string)
    requires HasIssue(w, number, url, id) && w'.issues == w.issues
    ensures HasIssue(w', number, url, id)
  {}

  lemma LastRowsBranchIsOwn(s: Snapshot, r: Candidate)
    requires Invariant(s) && Latest(s.log, r.candidateId) == Some(r) && r.headBranch.Some?
    ensures OwnBranch(r.headBranch.value, r.candidateId)
  {
    LoggedRowIsKnown(s, r);
  }

  /** A branch once created is the one the last row names. */
  lemma BranchIsNamed(s: Snapshot, k: nat, r: Candidate)
    requires Invariant(s) && k < |s.world.ledger| && s.world.ledger[k].BranchWrite?
    requires s.world.ledger[k].id == r.candidateId
    requires Latest(s.log, r.candidateId) == Some(r)
    ensures r.headBranch == Some(s.world.ledger[k].branch)
  {
    assert LedgerBacked(s, s.world.ledger[k]);
  }

  /** What a first turn writes to the fork up to its branch. */
  function FirstWrites(w: World, c: Candidate, r: Candidate, url: string, body: string): World
    requires r.headBranch.Some? && r.baseSha.Some?
  {
    WithBranch(WithIssue(w, c.candidateId, url, body, false), c.candidateId, r.headBranch.value, r.baseSha.value)
  }

  /** A candidate's first turn up to its branch: no issue is indexed, so one is created. */
  lemma FirstBranch(t: Trace, from: nat, input: RunInput, c: Candidate, url: string, body: string)
    returns (t': Trace, r: Candidate)
    requires Turn(t, from, input, c) && Favours(input)
    requires DispatchedAs(input, t.states[from].log, c, Dispatched(input, t.states[from].log, c))
    requires Latest(t.states[from].log, c.candidateId).None? && Latest(Now(t).log, c.candidateId).None?
    requires NoIssueWrite(Now(t).world, c.candidateId) && IssueLink(url) && Carries(body, c.candidateId)
    requires forall branch <- Now(t).world.branches :: !OwnBranch(branch, c.candidateId)
    ensures Turn(t', from, input, c) && Grown(t, t')
    ensures Underway(c, r) && r.candidateId == c.candidateId && r.state.Dispatching? && r.sessionId.None?
    ensures Latest(Now(t').log, c.candidateId) == Some(r) && r.baseSha.Some? && Branched(Now(t').world, r)
    ensures Now(t').world == FirstWrites(Now(t).world, c, r, url, body)
    ensures HasIssue(Now(t').world, NextNumber(Now(t).world), url, c.candidateId)
    ensures OwnBranch(r.headBranch.value, c.candidateId)
    ensures forall other :: other != c.candidateId ==> Latest(Now(t').log, other) == Latest(Now(t).log, other)
  {
    hide Latest, Carries, IssueLink, NoIssueWrite, RunOf, Traced, Picked, OthersEnded, DispatchedAs, Dispatched,
         HasIssue, OwnBranch, Favours, Invariant;
    var number := NextNumber(Now(t).world);
    var t1 := NewIssue(t, from, input, c, url, body, false);
    var t2;
    t2, r := TakeUp(t1, from, input, c, None, number, url);
    RunningIsSafe(t2, from, input);
    LastRowsBranchIsOwn(Now(t2), r);
    t' := NewBranch(t2, from, input, c, r);
    IssueStays(Now(t1).world, Now(t').world, number, url, c.candidateId);
  }

  /** The same, and the session is requested. */
  lemma FirstSession(t: Trace, from: nat, input: RunInput, c: Candidate, url: string, body: string, answered: bool,
                     sessionId: string)
    returns (t': Trace, r: Candidate)
    requires Turn(t, from, input, c) && Favours(input)
    requires DispatchedAs(input, t.states[from].log, c, Dispatched(input, t.states[from].log, c))
    requires Latest(t.states[from].log, c.candidateId).None? && Latest(Now(t).log, c.candidateId).None?
    requires NoIssueWrite(Now(t).world, c.candidateId) && IssueLink(url)
    requires Carries(body, c.candidateId) && sessionId != ""
    requires forall branch <- Now(t).world.branches :: !OwnBranch(branch, c.candidateId)
    requires AnsweredCount(Now(t).world.ledger) < AnsweredCount(t.states[from].world.ledger) + input.limits.maxSessions
    ensures Turn(t', from, input, c) && Grown(t, t')
    ensures Underway(c, r) && r.candidateId == c.candidateId && r.state.Dispatching? && r.sessionId.None?
    ensures Latest(Now(t').log, c.candidateId) == Some(Response(input.config, r, answered, sessionId))
    ensures r.baseSha.Some? && Branched(Now(t').world, r)
    ensures Now(t').world == WithSession(FirstWrites(Now(t).world, c, r, url, body), c.candidateId, answered)
    ensures HasIssue(Now(t').world, NextNumber(Now(t).world), url, c.candidateId)
    ensures OwnBranch(r.headBranch.value, c.candidateId)
    ensures forall other :: other != c.candidateId ==> Latest(Now(t').log, other) == Latest(Now(t).log, other)
  {
    hide Latest, Carries, IssueLink, NoIssueWrite, RunOf, Traced, Picked, OthersEnded, DispatchedAs, Dispatched,
         HasIssue, OwnBranch, Favours, Invariant, FirstWrites;
    var t1;
    t1, r := FirstBranch(t, from, input, c, url, body);
    FirstCounts(Now(t).world, c, r, url, body);
    t' := Ask(t1, from, input, c, r, answered, sessionId);
    IssueStays(Now(t1).world, Now(t').world, NextNumber(Now(t).world), url, c.candidateId);
  }

  /** A later run resumes the turn up to its session request: the index shows the issue, and the branch is there. */
  lemma NextSession(t: Trace, from: nat, input: RunInput, c: Candidate, prior: Candidate, k: nat, number: nat,
                    url: string, sessionId: string)
    returns (t': Trace, r: Candidate)
    requires Turn(t, from, input, c) && Favours(input) && from == |t.steps|
    requires DispatchedAs(input, t.states[from].log, c, Dispatched(input, t.states[from].log, c))
    requires Latest(Now(t).log, c.candidateId) == Some(prior) && Underway(c, prior) && Branched(Now(t).world, prior)
    requires k < |Now(t).world.ledger| && Now(t).world.ledger[k] == BranchWrite(c.candidateId, prior.headBranch.value)
    requires HasIssue(Now(t).world, number, url, c.candidateId)
    requires sessionId != "" && prior.sessionId != Some(sessionId)
    requires Sessions.CheckReserve(Sessions.EMPTY, input.limits).None?
    ensures Turn(t', from, input, c) && Grown(t, t')
    ensures Underway(c, r) && r.candidateId == c.candidateId && r.state.Dispatching? && r.headBranch == prior.headBranch
    ensures Latest(Now(t').log, c.candidateId) == Some(RecordedRow(input.config, r, sessionId))
    ensures Now(t').world == WithSession(Now(t).world, c.candidateId, true)
  {
    hide Latest, RunOf, Traced, Picked, OthersEnded, DispatchedAs, Dispatched, HasIssue, Favours, Invariant;
    var t1;
    t1, r := TakeUp(t, from, input, c, Some(MarkerArtifact(number, url)), number, url);
    RunningIsSafe(t1, from, input);
    BranchIsNamed(Now(t1), k, r);
    t' := Ask(t1, from, input, c, r, true, sessionId);
  }

  lemma RecordedIsOnRecord(log: seq<Candidate>, config: RunConfig, r: Candidate, sessionId: string)
    requires Latest(log, r.candidateId) == Some(RecordedRow(config, r, sessionId)) && r.state.Dispatching?
    ensures SessionOnRecord(log, r.candidateId, sessionId)
  {
    hide Latest;
    assert RecordedRow(config, r, sessionId) in log;
  }

  lemma RecordedIsUnderway(config: RunConfig, c: Candidate, r: Candidate, sessionId: string)
    requires Underway(c, r)
    ensures Underway(c, RecordedRow(config, r, sessionId))
  {}

  /** A run over this one candidate begins where an earlier one died. */
  lemma BeginAgain(t: Trace, w: World, input: RunInput, c: Candidate)
    requires Traced(t) && |t.states| == |t.steps| + 1 && Sound(input, w)
    requires w.nodes == Now(t).world.nodes && Favours(input)
    requires input.enumerated == [c] && Resumes(c, Latest(Now(t).log, c.candidateId))
    requires OthersEnded(Now(t).log, c.candidateId)
    ensures Turn(t, |t.steps|, input, c) && DispatchedAs(input, Now(t).log, c, Dispatched(input, Now(t).log, c))
  {
    hide Latest, Traced, Sound, Favours, NormalizedRow, Turn, DispatchedAs, OthersEnded;
    assert c in input.enumerated;
    SoundIsAboutNodes(input, w, Now(t).world);
    ResumedIsFlat(input, Now(t).log, c);
    Begin(t, input, c);
  }

  // ---- a session is requested again ------------------------------------------------------------------

  /** Two runs, the first of which dies while it polls its session: that session's id is on record when the
      second run begins, and still the second run requests another one and records its id. */
  lemma SecondSessionRequest(first: RunInput, second: RunInput, c: Candidate, nodes: map<string, Option<string>>,
                             url: string, body: string, firstId: string, secondId: string)
    returns (t: Trace, died: nat)
    requires Sound(first, EmptyFork(nodes).world) && Favours(first) && first.enumerated == [c]
    requires Sound(second, EmptyFork(nodes).world) && Favours(second) && second.enumerated == [c]
    requires IssueLink(url) && Carries(body, c.candidateId) && firstId != "" && secondId != "" && firstId != secondId
    ensures Traced(t) && |t.states| == |t.steps| + 1 && t.states[0] == EmptyFork(nodes) && died <= |t.steps|
    ensures RunOf(t, 0, died, first) && RunOf(t, died, |t.steps|, second)
    ensures SessionOnRecord(t.states[died].log, c.candidateId, firstId)
    ensures SessionCount(Now(t).world.ledger) == 2 && SessionOnRecord(Now(t).log, c.candidateId, secondId)
  {
    hide Latest, Carries, IssueLink, RunOf, Traced, Picked, OthersEnded, DispatchedAs, Dispatched, HasIssue, OwnBranch,
         Sound, Favours, Invariant, SessionOnRecord;
    var t1, r1 := FirstRun(first, c, nodes, url, body, firstId);
    died := |t1.steps|;
    var prior := RecordedRow(first.config, r1, firstId);
    RecordedIsOnRecord(Now(t1).log, first.config, r1, firstId);
    RecordedIsUnderway(first.config, c, r1, firstId);
    BeginAgain(t1, EmptyFork(nodes).world, second, c);
    FavoursOneSession(second);
    var r2;
    t, r2 := NextSession(t1, died, second, c, prior, 1, NextNumber(EmptyFork(nodes).world), url, secondId);
    RecordedIsOnRecord(Now(t).log, second.config, r2, secondId);
    RunStays(t1, t, 0, died, first);
    CountWrites(Now(t).world.ledger, 2);
  }

  lemma FavoursOneSession(input: RunInput)
    requires Favours(input)
    ensures Sessions.CheckReserve(Sessions.EMPTY, input.limits).None? && input.limits.maxSessions > 0
  {}

  /** The requests among at most six writes. */
  lemma CountWrites(ledger: seq<RemoteWrite>, sessions: nat)
    requires |ledger| >= 2 && !ledger[0].SessionWrite? && !ledger[1].SessionWrite? && |ledger| == 2 + sessions <= 4
    requires forall k :: 2 <= k < |ledger| ==> ledger[k].SessionWrite?
    ensures SessionCount(ledger) == sessions
  {
    var n := |ledger|;
    assert ledger[..1][..0] == [] && ledger[..2][..1] == ledger[..1];
    assert SessionCount(ledger[..1]) == 0 && SessionCount(ledger[..2]) == 0;
    if n >= 3 {
      assert ledger[..3][..2] == ledger[..2];
      assert SessionCount(ledger[..3]) == 1;
    }
    if n == 4 {
      assert ledger[..4][..3] == ledger[..3];
    }
    assert ledger[..n] == ledger;
  }

  /** One run over an empty fork, up to the first session it is given. */
  lemma FirstRun(input: RunInput, c: Candidate, nodes: map<string, Option<string>>, url: string, body: string,
                 sessionId: string)
    returns (t: Trace, r: Candidate)
    requires Sound(input, EmptyFork(nodes).world) && Favours(input) && input.enumerated == [c]
    requires IssueLink(url) && Carries(body, c.candidateId) && sessionId != ""
    ensures Turn(t, 0, input, c) && t.states[0] == EmptyFork(nodes) && OthersEnded(Now(t).log, c.candidateId)
    ensures Underway(c, r) && r.candidateId == c.candidateId
    ensures r.state.Dispatching? && r.sessionId.None? && r.baseSha.Some?
    ensures Latest(Now(t).log, c.candidateId) == Some(RecordedRow(input.config, r, sessionId))
    ensures Now(t).world == WithSession(FirstWrites(EmptyFork(nodes).world, c, r, url, body), c.candidateId, true)
    ensures Branched(Now(t).world, r)
    ensures HasIssue(Now(t).world, NextNumber(EmptyFork(nodes).world), url, c.candidateId)
  {
    hide Latest, Carries, IssueLink, RunOf, Picked, DispatchedAs, Dispatched, HasIssue, OwnBranch, Sound, Favours,
         Invariant, Underway;
    var t0 := EmptyTrace(nodes);
    NoRowYet(c.candidateId);
    assert OthersEnded(Now(t0).log, c.candidateId) by { forall other { NoRowYet(other); } }
    BeginAgain(t0, EmptyFork(nodes).world, input, c);
    FavoursOneSession(input);
    t, r := FirstSession(t0, 0, input, c, url, body, true, sessionId);
  }

  // ---- the session ceiling is passed ---------------------------------------------------------------

  /** One run under a ceiling of a single session: the response to candidate `a`'s request is lost, `a` is
      deferred and its reservation given back, and candidate `b`'s request goes out too. Two sessions exist,
      one of them unanswered, and every reservation was accepted. */
  lemma CeilingPassedByLostResponse(input: RunInput, a: Candidate, b: Candidate, nodes: map<string, Option<string>>,
                                    url: string, bodyA: string, bodyB: string, sessionId: string)
    returns (t: Trace)
    requires Sound(input, EmptyFork(nodes).world) && Favours(input)
    requires input.enumerated == [a, b] && input.limits.maxSessions == 1
    requires a.candidateId != b.candidateId && IssueLink(url) && sessionId != ""
    requires Carries(bodyA, a.candidateId) && Carries(bodyB, b.candidateId)
    ensures Traced(t) && |t.states| == |t.steps| + 1 && t.states[0] == EmptyFork(nodes) && RunOf(t, 0, |t.steps|, input)
    ensures SessionCount(Now(t).world.ledger) == 2 && AnsweredCount(Now(t).world.ledger) == 1
    ensures Latest(Now(t).log, a.candidateId).Some? && Ended(Latest(Now(t).log, a.candidateId).value.state)
    ensures SessionOnRecord(Now(t).log, b.candidateId, sessionId)
    ensures var accounts := Sessions.Run(Sessions.EMPTY, input.limits, Sessions.LostResponses(1));
            accounts == Sessions.EMPTY && Sessions.CheckReserve(accounts, input.limits).None?
  {
    hide Latest, Carries, IssueLink, RunOf, Traced, Picked, OthersEnded, DispatchedAs, Dispatched, HasIssue, OwnBranch,
         Sound, Favours, Invariant, SessionOnRecord, Underway, PlainId, NoIdentity;
    var t0 := EmptyTrace(nodes);
    EmptyRunBegins(t0, input, nodes, a);
    EmptyRunBegins(t0, input, nodes, b);
    FavoursOneSession(input);
    var t1, ra := FirstSession(t0, 0, input, a, url, bodyA, false, sessionId);
    var wa := Now(t1).world;
    EnumeratedIsBare(input, EmptyFork(nodes).world, a);
    EnumeratedIsBare(input, EmptyFork(nodes).world, b);
    OnlyOwnBranch(wa, ra, b.candidateId);
    NextTurn(t1, input, a, b);
    AskedCounts(EmptyFork(nodes).world, a, ra, url, bodyA, false);
    var rb;
    t, rb := FirstSession(t1, 0, input, b, url, bodyB, true, sessionId);
    AskedCounts(wa, b, rb, url, bodyB, true);
    RecordedIsOnRecord(Now(t).log, input.config, rb, sessionId);
    FavoursOneSession(input);
    UnitsHaveRoom(input);
    Sessions.LostResponsesAreForgotten(input.limits, 1);
  }

  lemma UnitsHaveRoom(input: RunInput)
    requires Favours(input)
    ensures input.limits.maxAcuLimit <= input.limits.maxTotalAcu
  {}

  lemma EmptyRunBegins(t: Trace, input: RunInput, nodes: map<string, Option<string>>, c: Candidate)
    requires Traced(t) && t == Trace([EmptyFork(nodes)], []) && Sound(input, EmptyFork(nodes).world) && Favours(input)
    requires c in input.enumerated
    ensures Turn(t, 0, input, c) && DispatchedAs(input, [], c, Dispatched(input, [], c))
    ensures Latest([], c.candidateId).None?
    ensures forall other :: Latest(Now(t).log, other).None?
  {
    hide Sound, Traced, Turn, DispatchedAs, Latest;
    forall other ensures Latest([], other).None? {
      NoRowYet(other);
    }
    forall x | x in input.enumerated ensures !Containment.Nested(NormalizedRow([], x, input.config.run.id)) {
      ResumedIsFlat(input, [], x);
    }
    Begin(t, input, c);
  }

  /** The one branch there is belongs to somebody else. */
  lemma OnlyOwnBranch(w: World, r: Candidate, id: string)
    requires r.headBranch.Some? && w.branches.Keys == {r.headBranch.value}
    requires OwnBranch(r.headBranch.value, r.candidateId)
    requires '/' !in id && '/' !in r.candidateId && r.candidateId != id
    ensures forall branch <- w.branches :: !OwnBranch(branch, id)
  {
    hide OwnBranch;
    if OwnBranch(r.headBranch.value, id) {
      BranchOwnerIsUnique(r.headBranch.value, id, r.candidateId);
    }
  }

  /** The turn passes from `a`, which has ended, to `b`. */
  lemma NextTurn(t: Trace, input: RunInput, a: Candidate, b: Candidate)
    requires Turn(t, 0, input, a) && b in input.enumerated && b.candidateId in Picked(input, t.states[0].log)
    requires Latest(Now(t).log, a.candidateId).Some? && Ended(Latest(Now(t).log, a.candidateId).value.state)
    requires forall other :: other != a.candidateId ==> Latest(Now(t).log, other).None?
    ensures Turn(t, 0, input, b)
  {
    hide Latest, RunOf, Picked;
  }

  lemma AskedCounts(w: World, c: Candidate, r: Candidate, url: string, body: string, answered: bool)
    requires r.headBranch.Some? && r.baseSha.Some?
    ensures var w' := WithSession(FirstWrites(w, c, r, url, body), c.candidateId, answered);
            && SessionCount(w'.ledger) == SessionCount(w.ledger) + 1
            && AnsweredCount(w'.ledger) == AnsweredCount(w.ledger) + if answered then 1 else 0
  {
    hide FirstWrites;
    FirstCounts(w, c, r, url, body);
    SessionCountAppend(FirstWrites(w, c, r, url, body).ledger, SessionWrite(c.candidateId, answered));
  }

  lemma FirstCounts(w: World, c: Candidate, r: Candidate, url: string, body: string)
    requires r.headBranch.Some? && r.baseSha.Some?
    ensures var w' := FirstWrites(w, c, r, url, body);
            SessionCount(w'.ledger) == SessionCount(w.ledger) && AnsweredCount(w'.ledger) == AnsweredCount(w.ledger)
  {
    SessionCountAppend(w.ledger, IssueWrite(c.candidateId, NextNumber(w), false));
    SessionCountAppend(WithIssue(w, c.candidateId, url, body, false).ledger,
                       BranchWrite(c.candidateId, r.headBranch.value));
  }

  // ---- a second tracking issue -----------------------------------------------------------------------

  /** The first run creates the issue and dies before its row; the second run's index passes the issue's entry
      over and its search for the marker is malformed, so a second issue is created. */
  lemma SecondIssue(first: RunInput, second: RunInput, c: Candidate, nodes: map<string, Option<string>>, url: string,
                    body: string)
    returns (t: Trace, died: nat)
    requires Sound(first, EmptyFork(nodes).world) && Favours(first) && first.enumerated == [c]
    requires Sound(second, EmptyFork(nodes).world) && Favours(second) && second.enumerated == [c]
    requires IssueLink(url) && Carries(body, c.candidateId)
    ensures Traced(t) && |t.states| == |t.steps| + 1 && t.states[0] == EmptyFork(nodes) && died <= |t.steps|
    ensures RunOf(t, 0, died, first) && RunOf(t, died, |t.steps|, second)
    ensures IssueWrites(Now(t).world.ledger, c.candidateId) == 2
  {
    hide Latest, Carries, IssueLink, RunOf, Picked, OthersEnded, DispatchedAs, Dispatched, HasIssue, Sound, Favours,
         Invariant;
    var t0 := EmptyTrace(nodes);
    assert c in first.enumerated;
    EmptyRunBegins(t0, first, nodes, c);
    var t1 := NewIssue(t0, 0, first, c, url, body, false);
    died := |t1.steps|;
    BeginAgain(t1, EmptyFork(nodes).world, second, c);
    t := NewIssue(t1, died, second, c, url, body, true);
    RunStays(t1, t, 0, died, first);
    CountIssues(Now(t).world.ledger, c.candidateId);
  }

  lemma CountIssues(ledger: seq<RemoteWrite>, id: string)
    requires |ledger| == 2 && IsIssueOf(ledger[0], id) && IsIssueOf(ledger[1], id)
    ensures IssueWrites(ledger, id) == 2
  {
    assert ledger[..1][..0] == [];
    assert IssueWrites(ledger[..1], id) == 1;
  }

  // ---- a second pull request ------------------------------------------------------------------------

  /** The first run opens a pull request and dies before writing its number down; a human closes it; the
      second run's listing is no list, so it reads as empty and a second pull request is opened. */
  lemma SecondPullRequest(first: RunInput, second: RunInput, c: Candidate, nodes: map<string, Option<string>>,
                          url: string, body: string, sha: string, firstId: string, secondId: string,
                          firstVerdict: CriterionEvidence, secondVerdict: CriterionEvidence)
    returns (t: Trace, died: nat)
    requires Sound(first, EmptyFork(nodes).world) && Favours(first) && first.enumerated == [c]
    requires Sound(second, EmptyFork(nodes).world) && Favours(second) && second.enumerated == [c]
    requires IssueLink(url) && Carries(body, c.candidateId) && sha != ""
    requires firstId != "" && secondId != "" && firstId != secondId
    requires JudgedBefore(firstVerdict, c, sha, first.config.run) && firstVerdict.satisfied != Some(false)
    requires JudgedBefore(secondVerdict, c, sha, second.config.run) && secondVerdict.satisfied != Some(false)
    ensures Traced(t) && |t.states| == |t.steps| + 1 && t.states[0] == EmptyFork(nodes) && died < |t.steps|
    ensures RunOf(t, 0, died, first) && t.steps[died].Outside? && RunOf(t, died + 1, |t.steps|, second)
    ensures PullWrites(Now(t).world.ledger, c.candidateId) == 2
  {
    hide Latest, Carries, IssueLink, RunOf, Picked, OthersEnded, DispatchedAs, Dispatched, HasIssue, OwnBranch, Sound,
         Favours, Invariant, Underway, JudgedBefore, Traced;
    var t1, prior := FirstPull(first, c, nodes, url, body, sha, firstId, firstVerdict);
    died := |t1.steps|;
    var t2 := HumanCloses(t1, 0, first, c);
    IssueStays(Now(t1).world, Now(t2).world, NextNumber(EmptyFork(nodes).world), url, c.candidateId);
    BeginAgain(t2, EmptyFork(nodes).world, second, c);
    FavoursOneSession(second);
    var t3, r := NextSession(t2, died + 1, second, c, prior, 1, NextNumber(EmptyFork(nodes).world), url, secondId);
    var recorded := RecordedRow(second.config, r, secondId);
    RecordedIsUnderway(second.config, c, r, secondId);
    var t4, fixed := Finish(t3, died + 1, second, c, recorded, secondVerdict);
    UnderwayNamesNoPull(c, fixed);
    t := NewPull(t4, died + 1, second, c, fixed, url, true);
    RunStays(t1, t, 0, died, first);
    CountPulls(Now(t).world.ledger, c.candidateId);
  }

  lemma UnderwayNamesNoPull(c: Candidate, r: Candidate)
    requires Underway(c, r)
    ensures r.prNumber.None? && r.headBranch.Some? && !IsSettled(r.state)
  {}

  lemma CountPulls(ledger: seq<RemoteWrite>, id: string)
    requires |ledger| == 6 && IsPullOf(ledger[3], id) && IsPullOf(ledger[5], id)
    requires !ledger[0].PullWrite? && !ledger[1].PullWrite? && !ledger[2].PullWrite? && !ledger[4].PullWrite?
    ensures PullWrites(ledger, id) == 2
  {
    assert ledger[..6] == ledger;
    PullWritesAt(ledger, 5, id);
    PullWritesAt(ledger, 4, id);
    PullWritesAt(ledger, 3, id);
    PullWritesAt(ledger, 2, id);
    PullWritesAt(ledger, 1, id);
    PullWritesAt(ledger, 0, id);
  }

  lemma PullWritesAt(ledger: seq<RemoteWrite>, k: nat, id: string)
    requires k < |ledger|
    ensures PullWrites(ledger[..k + 1], id) == PullWrites(ledger[..k], id) + if IsPullOf(ledger[k], id) then 1 else 0
  {
    assert ledger[..k + 1][..k] == ledger[..k];
  }

  /** A human closes the one pull request there is, after the run died. */
  lemma HumanCloses(t: Trace, from: nat, input: RunInput, c: Candidate) returns (t': Trace)
    requires Turn(t, from, input, c) && |Now(t).world.pulls| == 1 && Now(t).world.pulls[0].mergedAt.None?
    ensures Traced(t') && |t'.states| == |t'.steps| + 1 && Grown(t, t') && t'.steps == t.steps + [Outside]
    ensures Now(t') == Now(t).(world := Now(t).world.(pulls := [Now(t).world.pulls[0].(isOpen := false)]))
  {
    hide RunOf, Picked, IssueLink, Latest, Traced;
    var s := Now(t);
    var next := s.(world := s.world.(pulls := [s.world.pulls[0].(isOpen := false)]));
    assert Takes(s, Outside, next);
    t' := Prolong(t, Outside, next);
  }

  /** The first run, up to the pull request whose number it never writes down. */
  lemma FirstPull(input: RunInput, c: Candidate, nodes: map<string, Option<string>>, url: string, body: string,
                  sha: string, sessionId: string, verdict: CriterionEvidence)
    returns (t: Trace, fixed: Candidate)
    requires Sound(input, EmptyFork(nodes).world) && Favours(input) && input.enumerated == [c]
    requires IssueLink(url) && Carries(body, c.candidateId) && sha != "" && sessionId != ""
    requires JudgedBefore(verdict, c, sha, input.config.run) && verdict.satisfied != Some(false)
    ensures Turn(t, 0, input, c) && t.states[0] == EmptyFork(nodes) && OthersEnded(Now(t).log, c.candidateId)
    ensures Latest(Now(t).log, c.candidateId) == Some(fixed) && Underway(c, fixed) && Branched(Now(t).world, fixed)
    ensures fixed.sessionId == Some(sessionId) && Now(t).world.branches[fixed.headBranch.value] == sha
    ensures HasIssue(Now(t).world, NextNumber(EmptyFork(nodes).world), url, c.candidateId)
    ensures |Now(t).world.pulls| == 1 && Now(t).world.pulls[0].mergedAt.None? && Now(t).world.nodes == nodes
    ensures var ledger := Now(t).world.ledger;
            && |ledger| == 4 && ledger[0].IssueWrite? && ledger[1] == BranchWrite(c.candidateId, fixed.headBranch.value)
            && ledger[2].SessionWrite? && IsPullOf(ledger[3], c.candidateId)
  {
    hide Latest, Carries, IssueLink, RunOf, Traced, Picked, OthersEnded, HasIssue, Sound, Favours, Invariant, Underway,
         JudgedBefore;
    var t1, r := FirstRun(input, c, nodes, url, body, sessionId);
    var recorded := RecordedRow(input.config, r, sessionId);
    RecordedIsUnderway(input.config, c, r, sessionId);
    var t2 := Push(t1, 0, input, c, recorded, sha);
    var t3;
    t3, fixed := Finish(t2, 0, input, c, recorded, verdict);
    UnderwayNamesNoPull(c, fixed);
    t := NewPull(t3, 0, input, c, fixed, url, false);
    IssueStays(Now(t1).world, Now(t).world, NextNumber(EmptyFork(nodes).world), url, c.candidateId);
  }
}
