/**
 The guarded publication calls of src/pipeline/github_client.py: adopt what is already there, create it
 otherwise, and never touch a pull request a human closed or merged.
 */
module Client {
  import opened Wrappers
  import opened Schemas
  import opened Settlement
  import opened Markers
  import opened Protocol
  import opened Host

  predicate NoPullOf(w: World, head: string) {
    forall k :: 0 <= k < |w.pulls| ==> w.pulls[k].head != head
  }

  /** At some moment since snapshot `from` the branch had no pull request at all. */
  ghost predicate SeenEmpty(states: seq<Snapshot>, from: int, head: string) {
    exists k :: 0 <= k < |states| && from <= k && NoPullOf(states[k].world, head)
  }

  ghost predicate OpenPullAt(w: World, number: nat, url: string, head: string) {
    exists p :: p in w.pulls && p.number == number && p.url == url && p.head == head && p.isOpen && p.mergedAt.None?
  }

  /** A listing of the candidate's own branch that comes back empty proves that the pipeline opened no
      pull request for it, whatever prefix earlier runs used. */
  lemma EmptyListingMeansNoPull(s: Snapshot, id: string, head: string)
    requires Invariant(s)
    requires Latest(s.log, id).Some? && Latest(s.log, id).value.headBranch == Some(head)
    requires NoPullOf(s.world, head)
    ensures NoPullWrite(s.world, id)
  {
    forall k | 0 <= k < |s.world.ledger| && s.world.ledger[k].PullWrite? ensures s.world.ledger[k].id != id {
      assert LedgerBacked(s, s.world.ledger[k]);
    }
  }

  /** A branch named by the latest row is the branch of every pull request the pipeline opened. */
  lemma NumberIdentifiesPull(w: World, number: nat, url: string, head: string, pull: Pull)
    requires WellFormedWorld(w) && HasPull(w, number, url, head) && pull in w.pulls && pull.number == number
    ensures pull.head == head && pull.url == url
  {
    var i :| 0 <= i < |w.pulls| && w.pulls[i].number == number && w.pulls[i].url == url && w.pulls[i].head == head;
    var j :| 0 <= j < |w.pulls| && w.pulls[j] == pull;
    assert i == j;
  }

  /** The one pull request a listing settles on: an open one, else a merged one, else a closed one. */
  ghost predicate Preferred(listing: seq<Pull>, match': Option<Pull>) {
    match match'
    case None => listing == []
    case Some(p) =>
      && p in listing
      && ((exists q :: q in listing && q.isOpen) ==> p.isOpen)
      && ((exists q :: q in listing && q.mergedAt.Some?) ==> p.isOpen || p.mergedAt.Some?)
  }

  /** Scan a listing of one head branch. */
  method PickPull(listing: seq<Pull>) returns (found: Option<Pull>)
    ensures Preferred(listing, found)
  {
    var closed: Option<Pull> := None;
    var merged: Option<Pull> := None;
    for k := 0 to |listing|
      invariant forall q :: q in listing[..k] ==> !q.isOpen
      invariant merged.Some? ==> merged.value in listing && merged.value.mergedAt.Some?
      invariant closed.Some? ==> closed.value in listing && closed.value.mergedAt.None?
      invariant (exists q :: q in listing[..k] && q.mergedAt.Some?) ==> merged.Some?
      invariant k > 0 ==> merged.Some? || closed.Some?
    {
      assert listing[..k + 1] == listing[..k] + [listing[k]];
      if listing[k].isOpen {
        return Some(listing[k]);
      }
      if listing[k].mergedAt.Some? {
        merged := Some(listing[k]);
      } else {
        closed := Some(listing[k]);
      }
    }
    assert listing[..|listing|] == listing;
    return if merged.Some? then merged else closed;
  }

  class GitHubClient {
    const host: Host
    const hasIssues: bool
    const markerSearchEnabled: bool
    var ensuredLabels: map<string, bool>

    constructor (host: Host, hasIssues: bool, markerSearchEnabled: bool)
      ensures fresh(this) && this.host == host
      ensures this.hasIssues == hasIssues && this.markerSearchEnabled == markerSearchEnabled
    {
      this.host, this.hasIssues, this.markerSearchEnabled := host, hasIssues, markerSearchEnabled;
      ensuredLabels := map[];
    }

    /** Make sure a label exists; a failure is remembered for the rest of the run. */
    method EnsureLabel(name: string) returns (r: Result<(), Failure>)
      requires host.Valid()
      modifies this`ensuredLabels, host
      ensures host.Valid() && old(host.states) <= host.states
      ensures host.log == old(host.log) && Later(old(host.world), host.world)
      ensures forall k :: |old(host.world.ledger)| <= k < |host.world.ledger| ==> host.world.ledger[k].LabelWrite?
      ensures r.Failure? ==> r.error.Killed? || r.error.Unavailable?
      ensures r.Success? ==> name in ensuredLabels && ensuredLabels[name]
      ensures r.Failure? && r.error.Unavailable? ==> name in ensuredLabels && !ensuredLabels[name]
      ensures name in old(ensuredLabels) ==> ensuredLabels == old(ensuredLabels) && host.world == old(host.world)
    {
      if name in ensuredLabels {
        return if ensuredLabels[name] then Success(()) else Failure(Unavailable);
      }
      var failure := host.Request();
      if failure.Some? && failure.value.Killed? {
        return Failure(Killed);
      }
      if failure.None? {
        ensuredLabels := ensuredLabels[name := true];
        return Success(());
      }
      if failure != Some(Http(404)) {
        ensuredLabels := ensuredLabels[name := false];
        return Failure(Unavailable);
      }
      var posted := host.PostLabel(name);
      if posted.Failure? && posted.error.Killed? {
        return Failure(Killed);
      }
      ensuredLabels := ensuredLabels[name := posted.Success?];
      r := if posted.Success? then Success(()) else Failure(Unavailable);
    }

    /** Search for an issue that carries the marker; an answer that is misread may show no match. */
    method IssueForMarker(id: string) returns (r: Result<Option<Issue>, Failure>, misread: bool)
      requires host.Valid()
      modifies host
      ensures host.Valid() && old(host.states) <= host.states
      ensures host.log == old(host.log) && Evolves(old(host.world), host.world)
      ensures r.Success? && r.value.Some? ==> HasIssue(host.world, r.value.value.number, r.value.value.url, id)
      ensures r.Success? && r.value.None? && markerSearchEnabled ==>
                misread || forall k :: 0 <= k < |host.world.issues| ==> !Carries(host.world.issues[k].body, id)
      ensures r.Failure? ==> TransportFailure(r.error)
    {
      misread := false;
      if !markerSearchEnabled {
        return Success(None), false;
      }
      var items;
      items, misread := host.FindIssues(CandidateMarker(id));
      if items.Failure? {
        return Failure(items.error), false;
      }
      if items.value.None? {
        return Success(None), misread;
      }
      var found := items.value.value;
      for k := 0 to |found|
        invariant forall j :: 0 <= j < k ==> !Carries(found[j].body, id)
      {
        if Carries(found[k].body, id) {
          assert found[k] in host.world.issues;
          return Success(Some(found[k])), misread;
        }
      }
      if !misread {
        assert forall k :: 0 <= k < |host.world.issues| ==> host.world.issues[k] in host.world.issues;
      }
      r := Success(None);
    }

    /** An answer that shows no issue carrying the marker proves that the pipeline created none. */
    lemma NothingCarriesMeansNoIssue(id: string)
      requires host.Valid() && forall k :: 0 <= k < |host.world.issues| ==> !Carries(host.world.issues[k].body, id)
      ensures NoIssueWrite(host.world, id)
    {
      hide Carries, Execution;
      host.Safe();
      forall k | 0 <= k < |host.world.ledger| && host.world.ledger[k].IssueWrite?
        ensures host.world.ledger[k].id != id
      {
        assert LedgerBacked(host.Now(), host.world.ledger[k]);
      }
    }

    /** Adopt the known or marker-matched tracking issue, or create it once. A new one is noted as misread when
        the index missed issues (`missed`) and this search was misread or not made. */
    method ReconcileIssue(id: string, body: string, existingNumber: Option<nat>, existingUrl: Option<string>,
                          missed: bool)
      returns (r: Result<(nat, string, bool), Failure>)
      requires host.Valid() && Carries(body, id)
      requires if existingNumber.Some? && existingUrl.Some?
               then HasIssue(host.world, existingNumber.value, existingUrl.value, id)
               else Untracked(host.log, id) && (missed || NoIssueWrite(host.world, id))
      modifies host
      ensures host.Valid() && old(host.states) <= host.states
      ensures Advances(id, old(host.Now()), host.Now()) && host.log == old(host.log)
      ensures r.Success? ==> HasIssue(host.world, r.value.0, r.value.1, id)
      ensures TracksOnly(old(host.world.ledger), host.world.ledger)
      ensures existingNumber.Some? && existingUrl.Some? ==>
                r == Success((existingNumber.value, existingUrl.value, true)) && host.world == old(host.world)
      ensures r.Success? && !r.value.2 ==>
                || host.world.ledger == old(host.world.ledger) + [IssueWrite(id, r.value.0, false)]
                || (missed && host.world.ledger == old(host.world.ledger) + [IssueWrite(id, r.value.0, true)])
      ensures r.Failure? ==> TransportFailure(r.error)
    {
      if existingNumber.Some? && existingUrl.Some? {
        return Success((existingNumber.value, existingUrl.value, true));
      }
      if !hasIssues {
        return Failure(Unavailable);
      }
      var found, misread := IssueForMarker(id);
      if found.Failure? {
        return Failure(found.error);
      }
      if found.value.Some? {
        return Success((found.value.value.number, found.value.value.url, true));
      }
      if markerSearchEnabled && !misread {
        NothingCarriesMeansNoIssue(id);
      }
      var created := host.PostIssue(id, body, missed && (misread || !markerSearchEnabled));
      if created.Failure? {
        return Failure(created.error);
      }
      r := Success((created.value.number, created.value.url, false));
    }

    /** Find one pull request of a head branch. */
    method PullRequestForHead(head: string) returns (r: Result<Option<Pull>, Failure>, misread: bool)
      requires host.Valid()
      modifies host
      ensures host.Valid() && old(host.states) <= host.states
      ensures host.log == old(host.log) && Evolves(old(host.world), host.world)
      ensures r.Success? && r.value.Some? ==> r.value.value in host.world.pulls && r.value.value.head == head
      ensures r.Success? && r.value.None? && !misread ==> NoPullOf(host.world, head)
      ensures r.Failure? ==> TransportFailure(r.error) && !misread
    {
      var listing;
      listing, misread := host.ListPulls(head);
      if listing.Failure? {
        return Failure(listing.error), false;
      }
      var found := PickPull(listing.value);
      if found.None? {
        assert forall k :: 0 <= k < |host.world.pulls| ==> host.world.pulls[k] in host.world.pulls;
      }
      r := Success(found);
    }

    /** The verdict on a pull request that already exists: adopt it only while it is open. */
    function Adopt(p: Pull): Result<(nat, string, bool), Failure> {
      if p.mergedAt.Some? then Failure(PullMerged(p))
      else if !p.isOpen then Failure(PullClosed(p))
      else Success((p.number, p.url, true))
    }

    /** What a caller may rely on, however the reconciliation ends. */
    ghost predicate Reconciled(r: Result<(nat, string, bool), Failure>, w: World, head: string) {
      match r
      case Success((number, url, _)) => HasPull(w, number, url, head)
      case Failure(PullMerged(p)) =>
        HasPull(w, p.number, p.url, head) && p.mergedAt.Some? && MergedPull(w, p.number, p.mergedAt.value)
      case Failure(PullClosed(p)) => HasPull(w, p.number, p.url, head) && p.mergedAt.None? && !p.isOpen
      case Failure(f) => TransportFailure(f)
    }

    lemma AdoptedIsReconciled(p: Pull, w: World, head: string)
      requires p in w.pulls && p.head == head
      ensures Reconciled(Adopt(p), w, head)
      ensures Adopt(p).Success? ==> OpenPullAt(w, p.number, p.url, head)
    {
      var k :| 0 <= k < |w.pulls| && w.pulls[k] == p;
    }

    /** A new pull request is the last write, and it followed a listing that showed none or was misread. */
    ghost predicate Created(id: string, head: string, number: nat, from: int, ledger: seq<RemoteWrite>)
      reads host
    {
      || (host.world.ledger == ledger + [PullWrite(id, head, number, false)] && SeenEmpty(host.states, from, head))
      || host.world.ledger == ledger + [PullWrite(id, head, number, true)]
    }

    /** Adopt the pull request of this exact branch while it is open, or create it. */
    method ReconcilePullRequest(id: string, head: string, existingNumber: Option<nat>, existingUrl: Option<string>)
      returns (r: Result<(nat, string, bool), Failure>)
      requires host.Valid()
      requires Latest(host.log, id).Some? && Latest(host.log, id).value.headBranch == Some(head)
      requires Unsettled(host.log, id)
      requires existingNumber.Some? <==> existingUrl.Some?
      requires existingNumber.Some? ==> HasPull(host.world, existingNumber.value, existingUrl.value, head)
      requires existingNumber.None? ==> Latest(host.log, id).value.prNumber.None?
      modifies host
      ensures host.Valid() && old(host.states) <= host.states
      ensures Advances(id, old(host.Now()), host.Now()) && host.log == old(host.log)
      ensures Reconciled(r, host.world, head)
      ensures NoSessions(old(host.world.ledger), host.world.ledger)
      ensures r.Success? && existingNumber.Some? ==> r.value == (existingNumber.value, existingUrl.value, true)
      ensures r.Success? && existingNumber.None? ==>
                if r.value.2 then OpenPullAt(host.world, r.value.0, r.value.1, head)
                else Created(id, head, r.value.0, |old(host.states)| - 1, old(host.world.ledger))
    {
      hide Latest, Unsettled, SeenEmpty, Execution;
      if existingNumber.Some? {
        r := ReadKnownPull(id, head, existingNumber.value, existingUrl.value);
        return;
      }
      var listed, misread := PullRequestForHead(head);
      if listed.Failure? {
        return Failure(listed.error);
      }
      if listed.value.Some? {
        AdoptedIsReconciled(listed.value.value, host.world, head);
        return Adopt(listed.value.value);
      }
      if !misread {
        host.Safe();
        EmptyListingMeansNoPull(host.Now(), id, head);
        EmptyNow(|old(host.states)| - 1, head);
      }
      ghost var listedAt := host.states;
      r := CreatePullRequest(id, head, misread);
      if !misread {
        StaysSeenEmpty(listedAt, host.states, |old(host.states)| - 1, head);
      }
    }

    /** The pull request the row names: adopted while it is open or unreadable, reported when it has ended. */
    method ReadKnownPull(id: string, head: string, number: nat, url: string)
      returns (r: Result<(nat, string, bool), Failure>)
      requires host.Valid() && HasPull(host.world, number, url, head)
      modifies host
      ensures host.Valid() && old(host.states) <= host.states
      ensures Advances(id, old(host.Now()), host.Now()) && host.log == old(host.log)
      ensures host.world.ledger == old(host.world.ledger)
      ensures Reconciled(r, host.world, head)
      ensures r.Success? ==> r.value == (number, url, true)
    {
      hide Execution;
      var read := host.ReadPull(number);
      if read.Failure? {
        return Failure(read.error);
      }
      LaterKeepsPull(old(host.world), host.world, number, url, head);
      if read.value.None? {
        return Success((number, url, true));
      }
      host.Safe();
      NumberIdentifiesPull(host.world, number, url, head, read.value.value);
      AdoptedIsReconciled(read.value.value, host.world, head);
      r := Adopt(read.value.value);
    }

    lemma EmptyNow(from: int, head: string)
      requires host.Valid() && NoPullOf(host.world, head) && from < |host.states|
      ensures SeenEmpty(host.states, from, head)
    {
      assert NoPullOf(host.states[|host.states| - 1].world, head);
    }

    /** Create the pull request, or adopt an open one of the branch when the server refuses. */
    method CreatePullRequest(id: string, head: string, misread: bool) returns (r: Result<(nat, string, bool), Failure>)
      requires host.Valid() && (misread || NoPullWrite(host.world, id))
      requires Latest(host.log, id).Some? && Latest(host.log, id).value.headBranch == Some(head)
      requires Unsettled(host.log, id)
      requires Latest(host.log, id).value.prNumber.None?
      modifies host
      ensures host.Valid() && old(host.states) <= host.states
      ensures Advances(id, old(host.Now()), host.Now()) && host.log == old(host.log)
      ensures Reconciled(r, host.world, head)
      ensures NoSessions(old(host.world.ledger), host.world.ledger)
      ensures r.Success? ==>
                if r.value.2 then OpenPullAt(host.world, r.value.0, r.value.1, head)
                else host.world.ledger == old(host.world.ledger) + [PullWrite(id, head, r.value.0, misread)]
    {
      hide Latest, Unsettled;
      var created := host.PostPull(id, head, misread);
      if created.Success? {
        return Success((created.value.number, created.value.url, false));
      }
      if created.error != Http(422) {
        return Failure(created.error);
      }
      var existing, _ := PullRequestForHead(head);
      if existing.Failure? {
        return Failure(existing.error);
      }
      if existing.value.None? {
        return Failure(created.error);
      }
      AdoptedIsReconciled(existing.value.value, host.world, head);
      r := Adopt(existing.value.value);
    }
  }

  lemma StaysSeenEmpty(states: seq<Snapshot>, states': seq<Snapshot>, from: int, head: string)
    requires SeenEmpty(states, from, head) && states <= states'
    ensures SeenEmpty(states', from, head)
  {
    var k :| 0 <= k < |states| && from <= k && NoPullOf(states[k].world, head);
    assert states'[k] == states[k];
  }

  lemma LaterKeepsPull(w: World, w': World, number: nat, url: string, head: string)
    requires Later(w, w') && HasPull(w, number, url, head)
    ensures HasPull(w', number, url, head)
  {
    var k :| 0 <= k < |w.pulls| && w.pulls[k].number == number && w.pulls[k].url == url && w.pulls[k].head == head;
    assert w'.pulls[k].head == head;
  }
}
