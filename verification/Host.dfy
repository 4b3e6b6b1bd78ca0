/**
 The two things a run talks to that outlive it: the fork on GitHub and the state file. Every call first
 lets the outside world move on, may fail with or without having taken effect, and may be the last
 thing the process does. The ghost trace records each step; `Valid` says the trace is an execution of
 the protocol.
 */
module Host {
  import opened Wrappers
  import opened Schemas
  import opened Settlement
  import opened Markers
  import opened MarkerIndex
  import opened Protocol

  /** How a call can end other than by returning. */
  datatype Failure =
    | Killed                     // the process died
    | Aborted                    // an exception no handler catches: the run ends
    | Preservation               // StatePreservationError
    | Http(status: nat)          // HttpTransportError
    | Unavailable                // ArtifactUnavailableError, GitHubResponseError or OSError
    | PullMerged(merged: Pull)   // MergedPullRequestError
    | PullClosed(closed: Pull)   // ClosedPullRequestError

  /** The failures that defer a candidate instead of ending the run. */
  predicate Deferrable(f: Failure) {
    f.Http? || f.Unavailable? || f.PullMerged? || f.PullClosed?
  }

  /** What a single API call can fail with. */
  predicate TransportFailure(f: Failure) {
    f.Killed? || f.Http? || f.Unavailable?
  }

  /** The search hit an issue shows up as. */
  function ItemOf(issue: Issue): SearchItem {
    SearchItem(false, Some(issue.number), Some(issue.url), Some(issue.body))
  }

  function ItemsOf(issues: seq<Issue>): (items: seq<SearchItem>)
    ensures |items| == |issues| && forall k :: 0 <= k < |items| ==> items[k] == ItemOf(issues[k])
  {
    seq(|issues|, k requires 0 <= k < |issues| => ItemOf(issues[k]))
  }

  /** A search result as it is read: every usable entry is one of these issues; malformed ones are passed over. */
  predicate Reads(items: seq<SearchItem>, issues: seq<Issue>) {
    forall item <- items :: Usable(item) ==> item in ItemsOf(issues)
  }

  /** Nothing is missing from the result: no entry is malformed, and the search index does not lag behind. */
  predicate ReadsAll(items: seq<SearchItem>, issues: seq<Issue>) {
    forall item <- ItemsOf(issues) :: item in items
  }

  /** The search result cut into pages. */
  function Paginate(items: seq<SearchItem>): nat -> SearchPage {
    (page: nat) => SearchPage(PageOf(items, page))
  }

  function PageOf(items: seq<SearchItem>, page: nat): seq<SearchItem> {
    if page == 0 || (page - 1) * PAGE_SIZE >= |items| then []
    else if page * PAGE_SIZE >= |items| then items[(page - 1) * PAGE_SIZE..]
    else items[(page - 1) * PAGE_SIZE..page * PAGE_SIZE]
  }

  /** Reading page by page returns exactly the items, as long as a short page comes in time. */
  lemma {:induction false} PagesReassemble(items: seq<SearchItem>, page: nat)
    requires 1 <= page && (page - 1) * PAGE_SIZE <= |items|
    ensures Collect(Paginate(items), page).Success? ==>
              Collect(Paginate(items), page).value == items[(page - 1) * PAGE_SIZE..]
    ensures Collect(Paginate(items), page).Success? <==> page <= MAX_PAGES && |items| < MAX_PAGES * PAGE_SIZE
    decreases MAX_PAGES + 1 - page
  {
    if page <= MAX_PAGES {
      var got := PageOf(items, page);
      assert Paginate(items)(page) == SearchPage(got);
      if |got| >= PAGE_SIZE {
        PagesReassemble(items, page + 1);
        assert items[(page - 1) * PAGE_SIZE..] == got + items[page * PAGE_SIZE..];
      }
    }
  }

  /** Every row was appended by one of these runs. */
  ghost predicate RowsComeFrom(steps: seq<Step>, runs: seq<Run>) {
    forall k :: 0 <= k < |steps| && steps[k].AppendRow? ==> steps[k].run in runs
  }

  class Host {
    var world: World
    var log: seq<Candidate>
    ghost const runs: seq<Run>    // the runs this host serves
    ghost var states: seq<Snapshot>
    ghost var steps: seq<Step>

    /** A fork and the state file it starts with: an empty one, or one restored from earlier runs. */
    constructor (world: World, log: seq<Candidate>, ghost runs: seq<Run>)
      requires Invariant(Snapshot(world, log))
      ensures Valid() && Now() == Snapshot(world, log) && states == [Now()] && this.runs == runs
    {
      this.world, this.log, this.runs := world, log, runs;
      states, steps := [Snapshot(world, log)], [];
    }

    ghost function Now(): Snapshot
      reads this
    {
      Snapshot(world, log)
    }

    ghost predicate Valid()
      reads this
    {
      && Execution(states, steps) && states[|states| - 1] == Now()
      && RowsComeFrom(steps, runs)
    }

    /** What every reachable snapshot satisfies. */
    lemma Safe()
      requires Valid()
      ensures Invariant(Now())
    {
      ReachableIsSafe(states, steps, |states| - 1);
    }

    ghost method Record(step: Step)
      requires Execution(states, steps) && Takes(states[|states| - 1], step, Now())
      requires RowsComeFrom(steps, runs) && (step.AppendRow? ==> step.run in runs)
      modifies this`states, this`steps
      ensures Valid() && old(states) <= states
    {
      states := states + [Now()];
      steps := steps + [step];
    }

    /** Time passes: humans, sessions and GitHub act. */
    method Elapse()
      requires Valid()
      modifies this
      ensures Valid() && old(states) <= states
      ensures log == old(log) && Evolves(old(world), world)
    {
      var next: World := *;
      if Evolves(world, next) {
        world := next;
        Record(Outside);
      }
    }

    /** The request leaves: time passes, and it may fail before it has any effect. */
    method Request() returns (failure: Option<Failure>)
      requires Valid()
      modifies this
      ensures Valid() && old(states) <= states
      ensures log == old(log) && Evolves(old(world), world)
      ensures failure.Some? ==> TransportFailure(failure.value)
    {
      Elapse();
      failure := Response();
    }

    /** The response comes back, or is lost, or nobody is left to read it. */
    method Response() returns (failure: Option<Failure>)
      ensures failure.Some? ==> TransportFailure(failure.value)
    {
      var outcome: nat := *;
      var status: nat := *;
      failure := if outcome == 0 then Some(Killed)
                 else if outcome == 1 then Some(Http(status))
                 else if outcome == 2 then Some(Unavailable)
                 else None;
    }

    // ---- the state file ------------------------------------------------------------------------

    /** Append one row under the settlement rule, as one atomic step. A file error writes nothing. */
    method Append(row: Candidate, ghost run: Run) returns (r: Result<(), Failure>)
      requires Valid() && run in runs
      requires RowKnown(world, row) && HeadKept(log, row)
      requires row.state.AwaitingHumanMerge? ==> Handover(log, row, run)
      modifies this
      ensures Valid() && old(states) <= states && world == old(world)
      ensures log == old(log) || (Admitted(old(log), row) && log == old(log) + [row])
      ensures r.Success? ==> Appended(old(log), row) == Success(log) && Latest(log, row.candidateId) == Some(row)
      ensures r.Failure? ==> r.error.Killed? || (r.error.Unavailable? && log == old(log))
                             || (r.error.Preservation? && Appended(old(log), row).Failure? && log == old(log))
    {
      var dies: bool, unwritable: bool := *, *;
      if dies {
        return Failure(Killed);
      }
      var latest := Latest(log, row.candidateId);
      if latest.Some? && !MayFollow(latest.value, row) {
        return Failure(Preservation);
      }
      if unwritable {
        return Failure(Unavailable);
      }
      if latest != Some(row) {
        LatestAppend(log, row);
        log := log + [row];
        Record(AppendRow(row, run));
      }
      dies := *;
      if dies {
        return Failure(Killed);
      }
      r := Success(());
    }

    // ---- reading the fork ------------------------------------------------------------------------

    /** Issue search over the marker phrase. The result is misread when issues are missing from it. */
    method SearchIssues() returns (r: Result<nat -> SearchPage, Failure>, ghost items: seq<SearchItem>, misread: bool)
      requires Valid()
      modifies this
      ensures Valid() && old(states) <= states
      ensures log == old(log) && Evolves(old(world), world)
      ensures r.Success? ==> r.value == Paginate(items) && Reads(items, WithPhrase(world.issues))
      ensures r.Success? && !misread ==> ReadsAll(items, WithPhrase(world.issues))
      ensures r.Failure? ==> TransportFailure(r.error) && !misread
    {
      var failure := Request();
      if failure.Some? {
        return Failure(failure.value), [], false;
      }
      var found: seq<SearchItem> := *;
      if !Reads(found, WithPhrase(world.issues)) {
        found := ItemsOf(WithPhrase(world.issues));
      }
      return Success(Paginate(found)), found, !ReadsAll(found, WithPhrase(world.issues));
    }

    /** Issue search for one marker. A malformed response reads as no answer; the answer is misread when it
        is malformed or issues carrying the marker are missing from it. */
    method FindIssues(marker: string) returns (r: Result<Option<seq<Issue>>, Failure>, misread: bool)
      requires Valid()
      modifies this
      ensures Valid() && old(states) <= states
      ensures log == old(log) && Evolves(old(world), world)
      ensures r.Success? && r.value.Some? ==> forall issue :: issue in r.value.value ==> issue in world.issues
      ensures r.Success? && !misread ==>
                r.value.Some? && forall issue <- world.issues :: Contains(issue.body, marker) ==> issue in r.value.value
      ensures r.Failure? ==> TransportFailure(r.error) && !misread
    {
      var failure := Request();
      if failure.Some? {
        return Failure(failure.value), false;
      }
      var malformed: bool, found: seq<Issue> := *, *;
      if malformed {
        return Success(None), true;
      }
      if !(forall issue <- found :: issue in world.issues) {
        found := world.issues;
      }
      return Success(Some(found)), !(forall issue <- world.issues :: Contains(issue.body, marker) ==> issue in found);
    }

    /** All pull requests of one head branch, whatever their state. A response that is no list reads as empty
        and a malformed entry is passed over; the listing is misread when pull requests are missing from it. */
    method ListPulls(head: string) returns (r: Result<seq<Pull>, Failure>, misread: bool)
      requires Valid()
      modifies this
      ensures Valid() && old(states) <= states
      ensures log == old(log) && Evolves(old(world), world)
      ensures r.Success? ==> forall p :: p in r.value ==> p in world.pulls && p.head == head
      ensures r.Success? && !misread ==> forall p :: p in world.pulls && p.head == head ==> p in r.value
      ensures r.Failure? ==> TransportFailure(r.error) && !misread
    {
      var failure := Request();
      if failure.Some? {
        return Failure(failure.value), false;
      }
      var listed := WithHead(world.pulls, head);
      var read: seq<Pull> := *;
      if forall p <- read :: p in listed {
        return Success(read), !(forall p <- listed :: p in read);
      }
      return Success(listed), false;
    }

    /** One pull request by number; a malformed response reads as nothing. */
    method ReadPull(number: nat) returns (r: Result<Option<Pull>, Failure>)
      requires Valid()
      modifies this
      ensures Valid() && old(states) <= states
      ensures log == old(log) && Evolves(old(world), world)
      ensures r.Success? && r.value.Some? ==> r.value.value in world.pulls && r.value.value.number == number
      ensures r.Failure? ==> TransportFailure(r.error)
    {
      var failure := Request();
      if failure.Some? {
        return Failure(failure.value);
      }
      var malformed: bool := *;
      r := Success(if malformed then None else WithNumber(world.pulls, number));
    }

    /** The commit a branch points at; a malformed response reads as nothing. */
    method BranchSha(branch: string) returns (r: Result<Option<string>, Failure>)
      requires Valid()
      modifies this
      ensures Valid() && old(states) <= states
      ensures log == old(log) && Evolves(old(world), world)
      ensures r.Success? && r.value.Some? ==> r.value.value != "" && branch in world.branches
      ensures r.Failure? ==> TransportFailure(r.error)
    {
      var failure := Request();
      if failure.Some? {
        return Failure(failure.value);
      }
      if branch in world.branches && world.branches[branch] != "" {
        return Success(Some(world.branches[branch]));
      }
      r := Success(None);
    }

    // ---- writing to the fork ---------------------------------------------------------------------

    method PostLabel(name: string) returns (r: Result<(), Failure>)
      requires Valid()
      modifies this
      ensures Valid() && old(states) <= states
      ensures log == old(log) && Later(old(world), world)
      ensures forall k :: |old(world.ledger)| <= k < |world.ledger| ==> world.ledger[k].LabelWrite?
      ensures r.Failure? ==> TransportFailure(r.error)
    {
      var failure := Request();
      if failure.Some? {
        return Failure(failure.value);
      }
      world := world.(ledger := world.ledger + [LabelWrite(name)]);
      Record(CreateLabel(name));
      failure := Response();
      r := if failure.Some? then Failure(failure.value) else Success(());
    }

    method PostIssue(id: string, body: string, misread: bool) returns (r: Result<Issue, Failure>)
      requires Valid()
      requires (misread || NoIssueWrite(world, id)) && Carries(body, id) && Untracked(log, id)
      modifies this
      ensures Valid() && old(states) <= states
      ensures Advances(id, old(Now()), Now()) && log == old(log)
      ensures r.Success? ==> HasIssue(world, r.value.number, r.value.url, id)
      ensures r.Success? ==> world.ledger == old(world.ledger) + [IssueWrite(id, r.value.number, misread)]
      ensures TracksOnly(old(world.ledger), world.ledger)
      ensures r.Failure? ==> TransportFailure(r.error)
    {
      var failure := Request();
      if failure.Some? {
        return Failure(failure.value);
      }
      var url: string := *;
      if !IssueLink(url) {
        url := "#";
      }
      var issue := Issue(NextNumber(world), url, body);
      CommitIssue(id, issue, misread);
      failure := Response();
      r := if failure.Some? then Failure(failure.value) else Success(issue);
    }

    method CommitIssue(id: string, issue: Issue, misread: bool)
      requires Valid()
      requires (misread || NoIssueWrite(world, id)) && Untracked(log, id)
      requires Carries(issue.body, id) && FreshNumber(world, issue.number) && IssueLink(issue.url)
      modifies this
      ensures Valid() && old(states) <= states
      ensures Advances(id, old(Now()), Now()) && log == old(log)
      ensures HasIssue(world, issue.number, issue.url, id)
      ensures world.ledger == old(world.ledger) + [IssueWrite(id, issue.number, misread)]
      ensures TracksOnly(old(world.ledger), world.ledger)
    {
      hide Carries, IssueLink, Execution, Untracked;
      ghost var before := Now();
      world := world.(issues := world.issues + [issue],
                      ledger := world.ledger + [IssueWrite(id, issue.number, misread)]);
      assert world.issues[|world.issues| - 1] == issue;
      assert Takes(before, CreateIssue(id, issue, misread), Now());
      StepIsLater(before, CreateIssue(id, issue, misread), Now());
      Record(CreateIssue(id, issue, misread));
    }

    /** Refused with 422 when the branch exists. */
    method PostBranch(id: string, branch: string, sha: string) returns (r: Result<(), Failure>)
      requires Valid()
      requires Latest(log, id).Some? && Latest(log, id).value.headBranch == Some(branch) && Unsettled(log, id)
      modifies this
      ensures Valid() && old(states) <= states
      ensures Advances(id, old(Now()), Now()) && log == old(log)
      ensures NoSessions(old(world.ledger), world.ledger)
      ensures r.Success? ==> branch in world.branches
      ensures r.Failure? ==> TransportFailure(r.error)
    {
      var failure := Request();
      if failure.Some? {
        return Failure(failure.value);
      }
      if branch in world.branches {
        return Failure(Http(422));
      }
      world := world.(branches := world.branches[branch := sha], ledger := world.ledger + [BranchWrite(id, branch)]);
      Record(CreateBranch(id, branch, sha));
      failure := Response();
      r := if failure.Some? then Failure(failure.value) else Success(());
    }

    /** A session creation request. When it takes effect, its response may still be lost. */
    method PostSession(id: string) returns (r: Result<(), Failure>)
      requires Valid()
      requires Latest(log, id).Some? && Latest(log, id).value.headBranch.Some? && Unsettled(log, id)
      modifies this
      ensures Valid() && old(states) <= states
      ensures Advances(id, old(Now()), Now()) && log == old(log)
      ensures SessionCount(world.ledger) <= SessionCount(old(world.ledger)) + 1
      ensures AnsweredCount(world.ledger) == AnsweredCount(old(world.ledger)) + if r.Success? then 1 else 0
      ensures r.Failure? ==> TransportFailure(r.error)
    {
      hide Latest, Execution, Unsettled;
      var failure := Request();
      if failure.Some? {
        return Failure(failure.value);
      }
      failure := Response();
      CommitSession(id, failure.None?);
      r := if failure.Some? then Failure(failure.value) else Success(());
    }

    method CommitSession(id: string, answered: bool)
      requires Valid()
      requires Latest(log, id).Some? && Latest(log, id).value.headBranch.Some? && Unsettled(log, id)
      modifies this
      ensures Valid() && old(states) <= states
      ensures Advances(id, old(Now()), Now()) && log == old(log)
      ensures SessionCount(world.ledger) == SessionCount(old(world.ledger)) + 1
      ensures AnsweredCount(world.ledger) == AnsweredCount(old(world.ledger)) + if answered then 1 else 0
    {
      hide Latest, Execution, Unsettled;
      SessionCountAppend(world.ledger, SessionWrite(id, answered));
      ghost var before := Now();
      world := world.(ledger := world.ledger + [SessionWrite(id, answered)]);
      assert Takes(before, Step.PostSession(id, answered), Now());
      StepIsLater(before, Step.PostSession(id, answered), Now());
      Record(Step.PostSession(id, answered));
    }

    /** Refused with 422 while the head has an open pull request. */
    method PostPull(id: string, head: string, misread: bool) returns (r: Result<Pull, Failure>)
      requires Valid()
      requires misread || NoPullWrite(world, id)
      requires Latest(log, id).Some? && Latest(log, id).value.prNumber.None?
      requires Latest(log, id).value.headBranch == Some(head) && Unsettled(log, id)
      modifies this
      ensures Valid() && old(states) <= states
      ensures Advances(id, old(Now()), Now()) && log == old(log)
      ensures NoSessions(old(world.ledger), world.ledger)
      ensures r.Success? ==> HasPull(world, r.value.number, r.value.url, head)
      ensures r.Success? ==> world.ledger == old(world.ledger) + [PullWrite(id, head, r.value.number, misread)]
      ensures r.Failure? ==> TransportFailure(r.error)
    {
      hide Latest, Unsettled;
      var failure := Request();
      if failure.Some? {
        return Failure(failure.value);
      }
      if exists p <- world.pulls :: p.head == head && p.isOpen {
        return Failure(Http(422));
      }
      var url: string := *;
      var pull := Pull(NextNumber(world), url, head, true, None);
      assert NoOpenPull(world, head) by { assert forall k :: 0 <= k < |world.pulls| ==> world.pulls[k] in world.pulls; }
      CommitPull(id, pull, misread);
      failure := Response();
      r := if failure.Some? then Failure(failure.value) else Success(pull);
    }

    method CommitPull(id: string, pull: Pull, misread: bool)
      requires Valid()
      requires (misread || NoPullWrite(world, id)) && FreshNumber(world, pull.number)
      requires pull.isOpen && pull.mergedAt.None?
      requires NoOpenPull(world, pull.head) && Unsettled(log, id)
      requires Latest(log, id).Some? && Latest(log, id).value.prNumber.None?
      requires Latest(log, id).value.headBranch == Some(pull.head)
      modifies this
      ensures Valid() && old(states) <= states
      ensures Advances(id, old(Now()), Now()) && log == old(log)
      ensures world.ledger == old(world.ledger) + [PullWrite(id, pull.head, pull.number, misread)]
      ensures HasPull(world, pull.number, pull.url, pull.head)
    {
      hide Latest, Execution, Unsettled;
      ghost var before := Now();
      world := world.(pulls := world.pulls + [pull],
                      ledger := world.ledger + [PullWrite(id, pull.head, pull.number, misread)]);
      assert world.pulls[|world.pulls| - 1] == pull;
      assert Takes(before, OpenPull(id, pull, misread), Now());
      StepIsLater(before, OpenPull(id, pull, misread), Now());
      Record(OpenPull(id, pull, misread));
    }
  }

  /** The issues whose body holds the phrase the index search asks for. */
  function WithPhrase(issues: seq<Issue>): (r: seq<Issue>)
    ensures forall i :: i in r <==> i in issues && HoldsPhrase(i.body)
  {
    if issues == [] then []
    else (if HoldsPhrase(issues[0].body) then [issues[0]] else []) + WithPhrase(issues[1..])
  }

  function WithHead(pulls: seq<Pull>, head: string): (r: seq<Pull>)
    ensures forall p :: p in r <==> p in pulls && p.head == head
  {
    if pulls == [] then []
    else (if pulls[0].head == head then [pulls[0]] else []) + WithHead(pulls[1..], head)
  }

  function WithNumber(pulls: seq<Pull>, number: nat): (r: Option<Pull>)
    ensures r.Some? ==> r.value in pulls && r.value.number == number
  {
    if pulls == [] then None
    else if pulls[0].number == number then Some(pulls[0])
    else WithNumber(pulls[1..], number)
  }
}
