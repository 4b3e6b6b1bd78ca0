/**
 Check-run evidence of src/pipeline/github_client.py: reading, the conclusion rule, and the two
 polling loops that wait for a commit's checks to settle.
 */
module CheckRuns {
  import opened Wrappers
  import opened Schemas

  const AWAITING_APPROVAL := "awaiting_workflow_approval"

  predicate Accepted(state: string) {
    state == "success" || state == "skipped" || state == "neutral"
  }

  predicate Rejected(state: string) {
    state == "failure" || state == "cancelled" || state == "timed_out" || state == "stale" || state == "error"
  }

  predicate Pending(state: string) {
    state == "queued" || state == "in_progress" || state == "pending" || state == "requested"
  }

  predicate NeedsApproval(state: string) {
    state == "action_required" || state == "awaiting_approval" || state == "waiting"
  }

  /** The state a check run reports: its conclusion, else its status. */
  function StateOf(item: CheckRunConclusion): Option<string> {
    if item.conclusion.Some? && item.conclusion.value != "" then item.conclusion
    else if item.status.Some? && item.status.value != "" then item.status
    else None
  }

  predicate Unsettled(item: CheckRunConclusion) {
    StateOf(item).None? || Pending(StateOf(item).value)
  }

  datatype Detail =
    | NoDetail
    | WorkflowApproval
    | UnsettledChecks(unsettled: set<string>)
    | RejectedChecks(rejected: set<string>)
    | MissingContexts(missing: set<string>)

  /** The waiting loop recognises an approval by the detail text alone, and a single unsettled check
      of that very name renders as the same text. */
  predicate ReadsAsApproval(detail: Detail) {
    detail.WorkflowApproval? || detail == UnsettledChecks({AWAITING_APPROVAL})
  }

  datatype CheckRunEvidence = CheckRunEvidence(
    settled: bool,
    passed: bool,
    reason: Option<ReasonCode>,
    detail: Detail)

  /** The observed runs by name; the last entry of a name counts. */
  function ByName(observed: seq<CheckRunConclusion>): (m: map<string, CheckRunConclusion>)
    ensures forall item :: item in observed ==> item.name in m
    ensures forall name <- m :: m[name] in observed && m[name].name == name
  {
    if observed == [] then map[]
    else
      var last := observed[|observed| - 1];
      ByName(observed[..|observed| - 1])[last.name := last]
  }

  /** The conclusion rule. */
  function EvaluateCheckRuns(observed: seq<CheckRunConclusion>, required: seq<string>): CheckRunEvidence {
    var runs := ByName(observed);
    if observed == [] then
      CheckRunEvidence(false, false, Some(CiEvidenceUnavailable), NoDetail)
    else if exists name <- runs :: StateOf(runs[name]).Some? && NeedsApproval(StateOf(runs[name]).value) then
      CheckRunEvidence(false, false, Some(CiEvidenceUnavailable), WorkflowApproval)
    else
      var unsettled := set name <- runs | Unsettled(runs[name]);
      if unsettled != {} then
        CheckRunEvidence(false, false, Some(CiEvidenceUnavailable), UnsettledChecks(unsettled))
      else
        var rejected := set name <- runs | StateOf(runs[name]).Some? && Rejected(StateOf(runs[name]).value);
        if rejected != {} then
          CheckRunEvidence(true, false, Some(CiCheckFailed), RejectedChecks(rejected))
        else if exists name <- runs :: StateOf(runs[name]).None? || !Accepted(StateOf(runs[name]).value) then
          CheckRunEvidence(true, false, Some(CiCheckFailed), NoDetail)
        else
          var missing := set context <- required | context !in runs || runs[context].conclusion != Some("success");
          if missing != {} then
            CheckRunEvidence(true, false, Some(CiCheckFailed), MissingContexts(missing))
          else
            CheckRunEvidence(true, true, None, NoDetail)
  }

  predicate DistinctNames(observed: seq<CheckRunConclusion>) {
    forall i, j :: 0 <= i < j < |observed| ==> observed[i].name != observed[j].name
  }

  /** What a passing snapshot means: something ran, every run is accepted, and every required context
      is present and successful. */
  ghost predicate Passing(observed: seq<CheckRunConclusion>, required: seq<string>) {
    && observed != []
    && (forall item :: item in observed ==> StateOf(item).Some? && Accepted(StateOf(item).value))
    && (forall context :: context in required ==>
          exists item :: item in observed && item.name == context && item.conclusion == Some("success"))
  }

  lemma {:induction false} ByNameFindsEvery(observed: seq<CheckRunConclusion>, i: nat)
    requires DistinctNames(observed) && i < |observed|
    ensures observed[i].name in ByName(observed) && ByName(observed)[observed[i].name] == observed[i]
  {
    if i < |observed| - 1 {
      ByNameFindsEvery(observed[..|observed| - 1], i);
    }
  }

  lemma StatesAreDisjoint()
    ensures forall s :: Accepted(s) ==> !Rejected(s) && !Pending(s) && !NeedsApproval(s)
  {}

  /** Under distinct names the by-name table is the snapshot itself. */
  lemma TableIsSnapshot(observed: seq<CheckRunConclusion>)
    requires DistinctNames(observed)
    ensures forall item :: item in observed ==> item.name in ByName(observed) && ByName(observed)[item.name] == item
    ensures forall name <- ByName(observed) :: ByName(observed)[name] in observed && ByName(observed)[name].name == name
  {
    forall item | item in observed ensures item.name in ByName(observed) && ByName(observed)[item.name] == item {
      var i :| 0 <= i < |observed| && observed[i] == item;
      ByNameFindsEvery(observed, i);
    }
  }

  predicate NothingRunning(runs: map<string, CheckRunConclusion>) {
    forall name <- runs :: !Unsettled(runs[name]) && !NeedsApproval(StateOf(runs[name]).value)
  }

  predicate AllAccepted(runs: map<string, CheckRunConclusion>) {
    forall name <- runs ::
      StateOf(runs[name]).Some? && !Rejected(StateOf(runs[name]).value) && Accepted(StateOf(runs[name]).value)
  }

  predicate RequiredGreen(runs: map<string, CheckRunConclusion>, required: seq<string>) {
    forall context <- required :: context in runs && runs[context].conclusion == Some("success")
  }

  /** The branches of the rule, read off the table. */
  lemma RuleOnTable(observed: seq<CheckRunConclusion>, required: seq<string>)
    ensures EvaluateCheckRuns(observed, required).settled <==> (observed != [] && NothingRunning(ByName(observed)))
    ensures EvaluateCheckRuns(observed, required).passed
         <==> (observed != [] && NothingRunning(ByName(observed))
               && AllAccepted(ByName(observed)) && RequiredGreen(ByName(observed), required))
    ensures EvaluateCheckRuns(observed, required).reason.None? <==> EvaluateCheckRuns(observed, required).passed
  {
    hide Accepted, Rejected, Pending, NeedsApproval, StateOf, ByName;
    var runs := ByName(observed);
    if observed == [] { return; }
    if name :| name in runs && StateOf(runs[name]).Some? && NeedsApproval(StateOf(runs[name]).value) {
      assert !NothingRunning(runs);
      return;
    }
    var unsettled := set name <- runs | Unsettled(runs[name]);
    var rejected := set name <- runs | StateOf(runs[name]).Some? && Rejected(StateOf(runs[name]).value);
    var missing := set context <- required | context !in runs || runs[context].conclusion != Some("success");
    assert NothingRunning(runs) <==> unsettled == {} by {
      assert forall name <- runs :: Unsettled(runs[name]) <==> name in unsettled;
    }
    assert forall name <- runs :: StateOf(runs[name]).Some? && Rejected(StateOf(runs[name]).value)
             <==> name in rejected;
    assert RequiredGreen(runs, required) <==> missing == {} by {
      assert forall context <- required ::
        context !in runs || runs[context].conclusion != Some("success") <==> context in missing;
    }
  }

  /** The rule passes exactly the passing snapshots; a verdict carries no reason only when it passes. */
  lemma RulePassesExactlyPassing(observed: seq<CheckRunConclusion>, required: seq<string>)
    requires DistinctNames(observed)
    ensures EvaluateCheckRuns(observed, required).passed <==> Passing(observed, required)
    ensures EvaluateCheckRuns(observed, required).reason.None? <==> Passing(observed, required)
    ensures EvaluateCheckRuns(observed, required).passed ==> EvaluateCheckRuns(observed, required).settled
  {
    RuleOnTable(observed, required);
    TableIsSnapshot(observed);
    StatesAreDisjoint();
    hide EvaluateCheckRuns, Accepted, Rejected, Pending, NeedsApproval, StateOf, ByName;
  }

  /** A settled verdict is final: nothing in the snapshot is still running or awaiting approval. */
  lemma SettledMeansNothingRunning(observed: seq<CheckRunConclusion>, required: seq<string>)
    requires DistinctNames(observed)
    ensures EvaluateCheckRuns(observed, required).settled
         <==> (observed != []
               && forall item :: item in observed ==> !Unsettled(item) && !NeedsApproval(StateOf(item).value))
  {
    RuleOnTable(observed, required);
    TableIsSnapshot(observed);
    hide EvaluateCheckRuns, Accepted, Rejected, Pending, NeedsApproval, StateOf, ByName;
  }

  // ---- reading one commit's checks -----------------------------------------------------------

  datatype RawCheck = MalformedCheck | RawCheck(name: string, conclusion: Option<string>, status: Option<string>)
  datatype RawStatus = MalformedStatus | RawStatus(context: string, state: string)

  function FromStatus(raw: RawStatus): CheckRunConclusion
    requires raw.RawStatus?
  {
    if raw.state == "pending" then CheckRunConclusion(raw.context, None, Some("pending"))
    else CheckRunConclusion(raw.context, Some(raw.state), Some("completed"))
  }

  /** Every reported item, checks before legacy statuses. */
  function Reported(checks: seq<RawCheck>, statuses: seq<RawStatus>): seq<CheckRunConclusion> {
    ReportedChecks(checks) + ReportedStatuses(statuses)
  }

  function ReportedChecks(checks: seq<RawCheck>): seq<CheckRunConclusion> {
    if checks == [] then []
    else
      var last := checks[|checks| - 1];
      ReportedChecks(checks[..|checks| - 1])
      + if last.RawCheck? then [CheckRunConclusion(last.name, last.conclusion, last.status)] else []
  }

  function ReportedStatuses(statuses: seq<RawStatus>): seq<CheckRunConclusion> {
    if statuses == [] then []
    else
      var last := statuses[|statuses| - 1];
      ReportedStatuses(statuses[..|statuses| - 1]) + if last.RawStatus? then [FromStatus(last)] else []
  }

  /** The reports kept: the first of every name. */
  function FirstOfEachName(reported: seq<CheckRunConclusion>): seq<CheckRunConclusion> {
    if reported == [] then []
    else
      var kept := FirstOfEachName(reported[..|reported| - 1]);
      var last := reported[|reported| - 1];
      if last.name in Names(kept) then kept else kept + [last]
  }

  function Names(items: seq<CheckRunConclusion>): set<string> {
    set item <- items :: item.name
  }

  /** What the de-duplication promises: distinct names, no name lost, nothing invented. */
  lemma {:induction false} EveryNameKeptOnce(reported: seq<CheckRunConclusion>)
    ensures DistinctNames(FirstOfEachName(reported))
    ensures Names(FirstOfEachName(reported)) == Names(reported)
    ensures forall item :: item in FirstOfEachName(reported) ==> item in reported
  {
    if reported != [] {
      var before, last := reported[..|reported| - 1], reported[|reported| - 1];
      EveryNameKeptOnce(before);
      var kept := FirstOfEachName(before);
      assert reported == before + [last];
      NamesAppend(before, last);
      NamesAppend(kept, last);
      assert forall i :: 0 <= i < |kept| ==> kept[i] in kept && kept[i].name in Names(kept);
    }
  }

  lemma NamesAppend(items: seq<CheckRunConclusion>, item: CheckRunConclusion)
    ensures Names(items + [item]) == Names(items) + {item.name}
  {
    assert forall i :: 0 <= i < |items| ==> (items + [item])[i] == items[i];
    assert (items + [item])[|items|] == item;
  }

  /** The first report of a name is the one kept. */
  lemma {:induction false} FirstReportWins(reported: seq<CheckRunConclusion>, k: nat)
    requires k < |reported| && reported[k].name !in Names(reported[..k])
    ensures reported[k] in FirstOfEachName(reported)
  {
    var before := reported[..|reported| - 1];
    if k < |before| {
      assert reported[..k] == before[..k];
      FirstReportWins(before, k);
    } else {
      EveryNameKeptOnce(before);
    }
  }

  method ReadCheckRuns(checks: seq<RawCheck>, statuses: seq<RawStatus>) returns (observed: seq<CheckRunConclusion>)
    ensures observed == FirstOfEachName(Reported(checks, statuses))
    ensures DistinctNames(observed)
  {
    observed := [];
    var seen: set<string> := {};
    for k := 0 to |checks|
      invariant observed == FirstOfEachName(ReportedChecks(checks[..k]))
      invariant seen == Names(observed)
    {
      assert checks[..k + 1][..k] == checks[..k];
      if checks[k].RawCheck? {
        var item := CheckRunConclusion(checks[k].name, checks[k].conclusion, checks[k].status);
        observed, seen := Observe(observed, seen, item, ReportedChecks(checks[..k]));
        assert ReportedChecks(checks[..k + 1]) == ReportedChecks(checks[..k]) + [item];
      } else {
        assert ReportedChecks(checks[..k + 1]) == ReportedChecks(checks[..k]);
      }
    }
    assert checks[..|checks|] == checks;
    observed := AddStatuses(observed, seen, statuses, ReportedChecks(checks));
    EveryNameKeptOnce(Reported(checks, statuses));
  }

  /** Legacy commit statuses only add names no check run reported. */
  method AddStatuses(kept: seq<CheckRunConclusion>, names: set<string>, statuses: seq<RawStatus>,
                     ghost first: seq<CheckRunConclusion>)
    returns (observed: seq<CheckRunConclusion>)
    requires kept == FirstOfEachName(first) && names == Names(kept)
    ensures observed == FirstOfEachName(first + ReportedStatuses(statuses))
  {
    observed := kept;
    var seen := names;
    assert first + ReportedStatuses(statuses[..0]) == first;
    for k := 0 to |statuses|
      invariant observed == FirstOfEachName(first + ReportedStatuses(statuses[..k]))
      invariant seen == Names(observed)
    {
      assert statuses[..k + 1][..k] == statuses[..k];
      ghost var before := first + ReportedStatuses(statuses[..k]);
      if statuses[k].RawStatus? {
        observed, seen := Observe(observed, seen, FromStatus(statuses[k]), before);
        assert first + ReportedStatuses(statuses[..k + 1]) == before + [FromStatus(statuses[k])];
      } else {
        assert first + ReportedStatuses(statuses[..k + 1]) == before;
      }
    }
    assert statuses[..|statuses|] == statuses;
  }

  /** Keep one more report unless its name was already seen. */
  method Observe(kept: seq<CheckRunConclusion>, seen: set<string>, item: CheckRunConclusion,
                 ghost reported: seq<CheckRunConclusion>)
    returns (kept': seq<CheckRunConclusion>, seen': set<string>)
    requires kept == FirstOfEachName(reported) && seen == Names(kept)
    ensures kept' == FirstOfEachName(reported + [item]) && seen' == Names(kept')
  {
    KeepNext(reported, item);
    kept', seen' := kept, seen;
    if item.name !in seen {
      seen' := seen + {item.name};
      kept' := kept + [item];
    }
  }

  lemma KeepNext(reported: seq<CheckRunConclusion>, item: CheckRunConclusion)
    ensures var kept := FirstOfEachName(reported);
            && FirstOfEachName(reported + [item]) == (if item.name in Names(kept) then kept else kept + [item])
            && Names(kept + [item]) == Names(kept) + {item.name}
  {
    NamesAppend(FirstOfEachName(reported), item);
    assert (reported + [item])[..|reported|] == reported;
  }

  // ---- time --------------------------------------------------------------------------------

  /** A monotone clock that advances by at least every requested sleep. */
  class Clock {
    var now: real
    ghost var slept: real

    constructor (start: real)
      ensures now == start && slept == 0.0
    {
      now, slept := start, 0.0;
    }

    method Read() returns (t: real)
      modifies this
      ensures t == now >= old(now) && slept == old(slept)
    {
      var passed: real :| passed >= 0.0;
      now := now + passed;
      t := now;
    }

    method Sleep(duration: real)
      requires duration >= 0.0
      modifies this
      ensures now >= old(now) + duration && slept == old(slept) + duration
    {
      var over: real :| over >= 0.0;
      now := now + duration + over;
      slept := slept + duration;
    }
  }

  datatype ReadError = HttpError | ArtifactUnavailable | Preflight

  /** What the API answers to one read of a commit's checks. */
  datatype Report = Unreadable | Report(checks: seq<RawCheck>, statuses: seq<RawStatus>)

  /** The snapshot one report yields. */
  function Answer(report: Report): (r: Result<seq<CheckRunConclusion>, ReadError>)
    ensures r.Success? ==> DistinctNames(r.value)
  {
    if report.Unreadable? then Failure(HttpError)
    else
      EveryNameKeptOnce(Reported(report.checks, report.statuses));
      Success(FirstOfEachName(Reported(report.checks, report.statuses)))
  }

  /** A commit's checks as the API reports them, one report for every read. */
  class CheckFeed {
    const reports: nat -> Report
    var polls: nat

    constructor (reports: nat -> Report)
      ensures polls == 0 && this.reports == reports
    {
      this.reports, polls := reports, 0;
    }

    /** The snapshot of the last read. */
    ghost function Last(): (r: Result<seq<CheckRunConclusion>, ReadError>)
      requires polls > 0
      reads this
      ensures r.Success? ==> DistinctNames(r.value)
    {
      Answer(reports(polls - 1))
    }

    method Poll() returns (r: Result<seq<CheckRunConclusion>, ReadError>)
      modifies this
      ensures polls == old(polls) + 1 && r == Last()
    {
      var report := reports(polls);
      polls := polls + 1;
      if report.Unreadable? {
        return Failure(HttpError);
      }
      var observed := ReadCheckRuns(report.checks, report.statuses);
      r := Success(observed);
    }
  }

  function Max(a: real, b: real): real { if a >= b then a else b }
  function Min(a: real, b: real): real { if a <= b then a else b }

  /** ceil(budget / interval). */
  function Rounds(budget: real, interval: real): (n: nat)
    requires budget >= 0.0 && interval > 0.0
    ensures Covers(n, interval, budget)
    ensures n > 0 ==> (n - 1) as real * interval < budget
  {
    var q := budget / interval;
    QuotientBounds(budget, interval, q, q.Floor);
    if q.Floor as real == q then q.Floor else q.Floor + 1
  }

  lemma QuotientBounds(budget: real, interval: real, q: real, f: int)
    requires budget >= 0.0 && interval > 0.0 && q == budget / interval && f == q.Floor
    ensures f >= 0
    ensures f as real == q ==> f as real * interval == budget
    ensures (f - 1) as real * interval < budget
    ensures f as real != q ==> f as real * interval < budget
    ensures (f + 1) as real * interval > budget
  {
    assert q * interval == budget;
    assert q >= 0.0;
    var above := (f + 1) as real;
    ScaleLess(q, above, interval);
    assert above * interval > budget;
    ScaleLess((f - 1) as real, q, interval);
    if f as real != q { ScaleLess(f as real, q, interval); }
  }

  lemma ScaleLess(a: real, b: real, c: real)
    requires a < b && c > 0.0
    ensures a * c < b * c
  {
    assert (b - a) * c > 0.0;
  }

  /** `rounds` full intervals reach at least `left` seconds ahead. */
  predicate Covers(rounds: nat, interval: real, left: real) {
    rounds as real * interval >= left
  }

  /** One full interval uses up one round. */
  lemma SpendRound(rounds: nat, interval: real, left: real, rest: real)
    requires Covers(rounds, interval, left) && left > 0.0 && interval > 0.0
    requires rest <= left - interval
    ensures rounds >= 1 && Covers(rounds - 1, interval, rest)
  {
    assert rounds == 0 ==> rounds as real * interval == 0.0;
    assert (rounds - 1) as real * interval == rounds as real * interval - interval;
  }

  lemma CoversLess(rounds: nat, interval: real, left: real, less: real)
    requires Covers(rounds, interval, left) && less <= left
    ensures Covers(rounds, interval, less)
  {}

  lemma NothingLeft(interval: real, left: real)
    requires left <= 0.0
    ensures Covers(0, interval, left)
  {
    assert 0 as real * interval == 0.0;
  }

  /** The bookkeeping of one sleep of either loop. */
  method SleepRound(clock: Clock, ghost rounds: nat, interval: real, deadline: real, remaining: real)
    returns (ghost rounds': nat)
    requires interval > 0.0 && remaining > 0.0
    requires remaining >= deadline - clock.now && Covers(rounds, interval, remaining)
    modifies clock
    ensures rounds' < rounds
    ensures clock.now >= old(clock.now) + Min(interval, remaining)
    ensures clock.slept == old(clock.slept) + Min(interval, remaining)
    ensures Covers(rounds', interval, deadline - clock.now)
  {
    SpendRound(rounds, interval, remaining, remaining - interval);
    clock.Sleep(Min(interval, remaining));
    if interval <= remaining {
      SpendRound(rounds, interval, remaining, deadline - clock.now);
      rounds' := rounds - 1;
    } else {
      rounds' := 0;
      NothingLeft(interval, deadline - clock.now);
    }
  }

  // ---- waiting for the whole snapshot ----------------------------------------------------------

  datatype CiWaitResult = CiWaitResult(
    mode: CiEvidenceMode,
    reason: Option<ReasonCode>,
    conclusions: seq<CheckRunConclusion>)

  /** The wait gives no failure reason exactly when its last snapshot passes, and then reports that snapshot. */
  ghost predicate Waited(r: CiWaitResult, last: Result<seq<CheckRunConclusion>, ReadError>, required: seq<string>) {
    && (r.reason.None? <==> last.Success? && Passing(last.value, required))
    && (r.reason.None? ==> last == Success(r.conclusions))
  }

  /** Poll until the checks settle or the wait budget is spent. The call requests no more sleep than
      the budget, reads at most once per started interval plus once, and answers without a failure
      reason only when its last snapshot passes the conclusion rule. */
  method WaitForCheckRuns(
    feed: CheckFeed, clock: Clock, required: seq<string>, timeout: real, elapsed: real, interval: real,
    mode: CiEvidenceMode, isFork: bool)
    returns (r: Result<CiWaitResult, ReadError>)
    requires interval > 0.0
    modifies feed, clock
    ensures clock.slept - old(clock.slept) <= Max(timeout - elapsed, 0.0)
    ensures old(feed.polls) < feed.polls <= old(feed.polls) + Rounds(Max(timeout - elapsed, 0.0), interval) + 1
    ensures r.Success? ==> Waited(r.value, feed.Last(), required)
    ensures r.Success? ==> r.value.mode == mode && DistinctNames(r.value.conclusions)
  {
    var none: seq<CheckRunConclusion> := [];
    assert DistinctNames(none);
    hide EvaluateCheckRuns, ReadsAsApproval, Passing, DistinctNames;
    var budget := Max(timeout - elapsed, 0.0);
    var started := clock.Read();
    var deadline := started + budget;
    ghost var rounds := Rounds(budget, interval);
    hide Covers, Rounds;
    while true
      invariant clock.now >= started
      invariant clock.slept - old(clock.slept) <= Min(clock.now - started, budget)
      invariant Covers(rounds, interval, deadline - clock.now)
      invariant old(feed.polls) <= feed.polls <= old(feed.polls) + Rounds(budget, interval) - rounds
      decreases rounds
    {
      ghost var left := deadline - clock.now;
      var observed := feed.Poll();
      if observed.Failure? {
        return Success(CiWaitResult(mode, Some(CiEvidenceUnavailable), none));
      }
      var evidence := EvaluateCheckRuns(observed.value, required);
      RulePassesExactlyPassing(observed.value, required);
      if evidence.settled {
        return Success(CiWaitResult(mode, evidence.reason, observed.value));
      }
      if ReadsAsApproval(evidence.detail) {
        return Success(CiWaitResult(mode, Some(CiEvidenceUnavailable), observed.value));
      }
      if isFork && observed.value == [] {
        var t := clock.Read();
        if t - started >= interval {
          if * {
            return Failure(HttpError);
          }
          var workflowsListed: bool := *;
          return Success(CiWaitResult(mode, Some(if workflowsListed then CiEvidenceUnavailable else CiWorkflowsAbsent),
                                      none));
        }
      }
      var now := clock.Read();
      var remaining := deadline - now;
      if remaining <= 0.0 {
        return Success(CiWaitResult(mode, Some(CiEvidenceUnavailable), observed.value));
      }
      CoversLess(rounds, interval, left, remaining);
      rounds := SleepRound(clock, rounds, interval, deadline, remaining);
    }
  }

  // ---- waiting for one named check -----------------------------------------------------------

  /** Observed result of the suite covering a candidate's scope. */
  datatype SuiteResult = SuiteResult(
    passed: bool,
    command: string,
    failingNodeids: seq<string>,
    reason: Option<ReasonCode>,
    conclusion: Option<string>)

  function Named(observed: seq<CheckRunConclusion>, name: string): (r: Option<CheckRunConclusion>)
    ensures r.Some? ==> r.value in observed && r.value.name == name
    ensures r.None? ==> forall item :: item in observed ==> item.name != name
  {
    if observed == [] then None
    else if observed[0].name == name then Some(observed[0])
    else Named(observed[1..], name)
  }

  /** The suite passes exactly when the last snapshot awaits no approval and holds the named check with an
      accepted state; only then is there no failure reason. */
  ghost predicate SuiteSeen(r: SuiteResult, last: Result<seq<CheckRunConclusion>, ReadError>, context: string) {
    && (r.passed <==>
          && last.Success?
          && (forall item :: item in last.value ==> StateOf(item).Some? ==> !NeedsApproval(StateOf(item).value))
          && (exists item :: item in last.value && item.name == context
                          && StateOf(item).Some? && Accepted(StateOf(item).value)))
    && (r.passed <==> r.reason.None?)
  }

  /** Poll one named check until it settles or the wait budget is spent. It passes only when the last
      snapshot awaits no approval and holds that check with an accepted state. */
  method WaitForNamedSuite(
    feed: CheckFeed, clock: Clock, context: string, command: string, timeout: real, elapsed: real, interval: real)
    returns (r: SuiteResult)
    requires interval > 0.0
    modifies feed, clock
    ensures clock.slept - old(clock.slept) <= Max(timeout - elapsed, 0.0)
    ensures old(feed.polls) < feed.polls <= old(feed.polls) + Rounds(Max(timeout - elapsed, 0.0), interval) + 1
    ensures SuiteSeen(r, feed.Last(), context)
  {
    hide EvaluateCheckRuns, ReadsAsApproval, Passing, DistinctNames;
    hide DistinctNames, Accepted, NeedsApproval, Pending, StateOf, Named;
    var budget := Max(timeout - elapsed, 0.0);
    var started := clock.Read();
    var deadline := started + budget;
    ghost var rounds := Rounds(budget, interval);
    hide Covers, Rounds;
    while true
      invariant clock.now >= started
      invariant clock.slept - old(clock.slept) <= Min(clock.now - started, budget)
      invariant Covers(rounds, interval, deadline - clock.now)
      invariant old(feed.polls) <= feed.polls <= old(feed.polls) + Rounds(budget, interval) - rounds
      decreases rounds
    {
      ghost var left := deadline - clock.now;
      var observed := feed.Poll();
      if observed.Failure? {
        return SuiteResult(false, command, [], Some(CiEvidenceUnavailable), None);
      }
      var items := observed.value;
      if exists item <- items :: StateOf(item).Some? && NeedsApproval(StateOf(item).value) {
        return SuiteResult(false, command, [], Some(CiEvidenceUnavailable), None);
      }
      var named := Named(items, context);
      OnlyOneNamed(items, context);
      if named.Some? {
        var state := StateOf(named.value);
        if state.Some? && Accepted(state.value) {
          return SuiteResult(true, command, [], None, state);
        }
        if state.Some? && !Pending(state.value) {
          return SuiteResult(false, command, [context], Some(CiCheckFailed), state);
        }
      } else if items != [] && forall item <- items :: !Unsettled(item) {
        return SuiteResult(false, command, [], Some(CiEvidenceUnavailable), None);
      }
      var now := clock.Read();
      var remaining := deadline - now;
      if remaining <= 0.0 {
        return SuiteResult(false, command, [], Some(CiEvidenceUnavailable), None);
      }
      CoversLess(rounds, interval, left, remaining);
      rounds := SleepRound(clock, rounds, interval, deadline, remaining);
    }
  }

  lemma OnlyOneNamed(items: seq<CheckRunConclusion>, name: string)
    requires DistinctNames(items)
    ensures forall item :: item in items && item.name == name ==> Named(items, name) == Some(item)
  {}
}
