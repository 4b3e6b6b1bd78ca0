/**
 `CandidateStateStore` of src/pipeline/state.py: last-write-wins reads, the guarded append, and the
 memoised marker lookup that is backed by one index per run.
 */
module StateStore {
  import opened Wrappers
  import opened Schemas
  import opened Settlement
  import opened Markers
  import opened MarkerIndex
  import opened Protocol
  import opened Host

  /** The issues the index was built from say which candidates earlier runs published. */
  ghost predicate Carried(indexed: seq<Issue>, id: string) {
    exists j :: 0 <= j < |indexed| && Carries(indexed[j].body, id)
  }

  /** The index describes the fork as it was when it was built; since then, this run wrote tracking
      issues for candidates in `started` only. */
  ghost predicate Scoped(w: World, indexed: seq<Issue>, started: set<string>) {
    && |indexed| <= |w.issues|
    && (forall k :: 0 <= k < |indexed| ==> w.issues[k] == indexed[k])
    && (forall k :: 0 <= k < |w.ledger| ==> w.ledger[k].IssueWrite? ==>
          w.ledger[k].id in started || Carried(indexed, w.ledger[k].id))
  }

  lemma ScopeSurvives(id: string, s: Snapshot, s': Snapshot, indexed: seq<Issue>, started: set<string>)
    requires Scoped(s.world, indexed, started) && Advances(id, s, s') && id in started
    ensures Scoped(s'.world, indexed, started)
  {
    forall k | 0 <= k < |s'.world.ledger| && s'.world.ledger[k].IssueWrite?
      ensures s'.world.ledger[k].id in started || Carried(indexed, s'.world.ledger[k].id)
    {
      if k < |s.world.ledger| {
        assert s'.world.ledger[k] == s.world.ledger[k];
      }
    }
  }

  /** When the index is built, every tracking issue ever written is among the indexed ones. */
  lemma ScopeStarts(s: Snapshot, started: set<string>)
    requires Invariant(s)
    ensures Scoped(s.world, s.world.issues, started)
  {
    forall k | 0 <= k < |s.world.ledger| && s.world.ledger[k].IssueWrite?
      ensures Carried(s.world.issues, s.world.ledger[k].id)
    {
      assert LedgerBacked(s, s.world.ledger[k]);
    }
  }

  /** The index groups the marker matches of the entries that were read for those of these issues that hold
      the searched phrase. */
  ghost predicate Describes(index: Index, entries: seq<SearchItem>, issues: seq<Issue>) {
    Groups(index, x => Hits(entries, x)) && Reads(entries, WithPhrase(issues))
  }

  lemma {:induction false} CarriedMeansHit(issues: seq<Issue>, entries: seq<SearchItem>, id: string)
    requires Carried(issues, id) && ScannableId(id) && ReadsAll(entries, WithPhrase(issues))
    requires forall k :: 0 <= k < |issues| ==> IssueLink(issues[k].url)
    ensures Hits(entries, id) != {}
  {
    hide MarkerIds, Carries, HoldsPhrase;
    var i :| 0 <= i < |issues| && Carries(issues[i].body, id);
    CarriedMarkerHoldsPhrase(issues[i].body, id);
    var listed := WithPhrase(issues);
    assert issues[i] in listed;
    var j :| 0 <= j < |listed| && listed[j] == issues[i];
    assert ItemsOf(listed)[j] in entries;
    var k :| 0 <= k < |entries| && entries[k] == ItemOf(listed[j]);
    ScanAgreesWithSubstring(listed[j].body, id);
    assert Mentions(entries[k], id);
    assert MarkerArtifact(listed[j].number, listed[j].url) in Hits(entries, id);
  }

  /** A candidate the index does not mention, and this run has not started on, has no tracking issue, if
      nothing was missing from the search. */
  lemma AbsentMeansUnpublished(w: World, index: Index, entries: seq<SearchItem>, indexed: seq<Issue>,
                               started: set<string>, id: string)
    requires Describes(index, entries, indexed) && ReadsAll(entries, WithPhrase(indexed)) && WellFormedWorld(w)
    requires Scoped(w, indexed, started) && id !in started && ScannableId(id)
    requires id !in index.artifacts && id !in index.duplicates
    ensures NoIssueWrite(w, id)
  {
    assert Hits(entries, id) == {};
    forall k | 0 <= k < |indexed| ensures IssueLink(indexed[k].url) {
      assert w.issues[k] == indexed[k];
    }
    if Carried(indexed, id) {
      CarriedMeansHit(indexed, entries, id);
    }
  }

  /** An indexed artifact is an issue of the fork that carries the candidate's marker. */
  lemma FoundMeansCarried(w: World, index: Index, entries: seq<SearchItem>, indexed: seq<Issue>, started: set<string>,
                          id: string)
    requires Describes(index, entries, indexed)
    requires Scoped(w, indexed, started) && id in index.artifacts
    ensures HasIssue(w, index.artifacts[id].number, index.artifacts[id].url, id)
  {
    hide MarkerIds, Carries, HoldsPhrase;
    var artifact := index.artifacts[id];
    var listed := WithPhrase(indexed);
    assert artifact in Hits(entries, id);
    var e :| 0 <= e < |entries| && Mentions(entries[e], id)
          && artifact == MarkerArtifact(entries[e].number.value, entries[e].url.value);
    assert entries[e] in entries;
    var j :| 0 <= j < |listed| && ItemsOf(listed)[j] == entries[e];
    ScanAgreesWithSubstring(listed[j].body, id);
    assert listed[j] in listed;
    var k :| 0 <= k < |indexed| && indexed[k] == listed[j];
    assert w.issues[k] == indexed[k];
  }

  class CandidateStateStore {
    const host: Host
    const indexConfigured: bool
    const requireMarkerProof: bool

    var markerResults: map<string, Option<MarkerArtifact>>
    var markerOutcomes: map<string, MarkerSearchOutcome>
    var markerIndex: Option<Index>
    var markerIndexFailed: bool
    var markerSearchFailed: bool

    var missed: bool                 // issues were missing from the search; noted for the ledger, no branch reads it

    ghost var searches: nat          // how often the index was searched for
    ghost var indexed: seq<Issue>    // the issues it was built from
    ghost var entries: seq<SearchItem> // what was read of them
    ghost var started: set<string>   // candidates this run has begun to process

    constructor (host: Host, indexConfigured: bool, requireMarkerProof: bool)
      requires host.Valid()
      ensures Valid() && fresh(this) && this.host == host
      ensures this.indexConfigured == indexConfigured && this.requireMarkerProof == requireMarkerProof
      ensures started == {} && searches == 0 && markerOutcomes == map[]
    {
      this.host := host;
      this.indexConfigured, this.requireMarkerProof := indexConfigured, requireMarkerProof;
      markerResults, markerOutcomes := map[], map[];
      markerIndex, markerIndexFailed, markerSearchFailed := None, false, false;
      missed, searches, indexed, entries, started := false, 0, [], [], {};
    }

    /** The answer the built index gives for a candidate. */
    ghost function Outcome(id: string): MarkerSearchOutcome
      reads this
    {
      if !indexConfigured || markerIndex.None? then Unconfigured
      else if markerIndexFailed then Failed
      else if id in markerIndex.value.duplicates then Orphaned
      else if id in markerIndex.value.artifacts then Found
      else Absent
    }

    ghost function Answer(id: string): Option<MarkerArtifact>
      reads this
    {
      if Outcome(id).Found? then Some(markerIndex.value.artifacts[id]) else None
    }

    /** The memo agrees with the index, and the index was searched for at most once. */
    ghost predicate Memo()
      reads this
    {
      && markerResults.Keys == markerOutcomes.Keys
      && (forall id <- markerOutcomes :: markerOutcomes[id] == Outcome(id) && markerResults[id] == Answer(id))
      && (indexConfigured && markerIndex.None? ==> markerOutcomes == map[])
      && searches == (if markerIndex.Some? then 1 else 0)
      && (markerIndexFailed ==> markerIndex.Some?)
      && (markerIndex.Some? && !markerIndexFailed ==>
            Describes(markerIndex.value, entries, indexed) && (missed || ReadsAll(entries, WithPhrase(indexed))))
    }

    ghost predicate Valid()
      reads this, host
    {
      && host.Valid()
      && Memo()
      && (markerIndex.Some? && !markerIndexFailed ==> Scoped(host.world, indexed, started))
    }

    /** The store stays valid while the current candidate's turn advances. */
    lemma ScopeKept(id: string, s: Snapshot)
      requires Memo() && host.Valid() && id in started
      requires markerIndex.Some? && !markerIndexFailed ==> Scoped(s.world, indexed, started)
      requires Advances(id, s, host.Now())
      ensures Valid()
    {
      if markerIndex.Some? && !markerIndexFailed {
        ScopeSurvives(id, s, host.Now(), indexed, started);
      }
    }

    ghost method Start(id: string)
      requires Valid()
      modifies this`started
      ensures Valid() && started == old(started) + {id}
    {
      started := started + {id};
    }

    /** The last row of one candidate. */
    method Resume(id: string) returns (row: Option<Candidate>)
      ensures row == Latest(host.log, id)
    {
      row := Latest(host.log, id);
    }

    method Append(row: Candidate, ghost run: Run) returns (r: Result<(), Failure>)
      requires Valid() && row.candidateId in started && run in host.runs
      requires RowKnown(host.world, row) && HeadKept(host.log, row)
      requires row.state.AwaitingHumanMerge? ==> Handover(host.log, row, run)
      modifies host
      ensures Valid() && old(host.states) <= host.states && host.world == old(host.world)
      ensures Advances(row.candidateId, old(host.Now()), host.Now())
      ensures host.log == old(host.log) || (Admitted(old(host.log), row) && host.log == old(host.log) + [row])
      ensures r.Success? ==> Latest(host.log, row.candidateId) == Some(row)
      ensures r.Failure? ==> r.error.Killed? || (r.error.Unavailable? && host.log == old(host.log))
                             || (r.error.Preservation? && Appended(old(host.log), row).Failure?
                                && host.log == old(host.log))
    {
      r := host.Append(row, run);
    }

    /** Look one candidate's marker up, building the index on the first lookup of the run. Only a
        process that dies during the search leaves the candidate unanswered. */
    method LookUp(id: string) returns (r: Result<Option<MarkerArtifact>, Failure>)
      requires Valid()
      modifies this`markerResults, this`markerOutcomes, this`markerIndex, this`markerIndexFailed,
               this`markerSearchFailed, this`missed, this`searches, this`indexed, this`entries, host
      ensures Valid() && old(host.states) <= host.states
      ensures host.log == old(host.log) && Evolves(old(host.world), host.world)
      ensures r.Failure? ==> r.error.Killed? && markerOutcomes == old(markerOutcomes)
      ensures r.Success? ==> id in markerOutcomes && markerOutcomes[id] == Outcome(id) && r.value == Answer(id)
      ensures r.Success? && indexConfigured ==> markerIndex.Some?
      ensures old(markerIndex).Some? ==> markerIndex == old(markerIndex) && searches == old(searches)
      ensures searches <= 1
      ensures forall other :: other != id ==> (other in markerOutcomes <==> other in old(markerOutcomes))
    {
      if id in markerResults {
        return Success(markerResults[id]);
      }
      if indexConfigured && markerIndex.None? {
        var dead := SearchOnce();
        if dead {
          return Failure(Killed);
        }
      }
      var found := Remember(id);
      return Success(found);
    }

    method Remember(id: string) returns (found: Option<MarkerArtifact>)
      requires Memo() && (indexConfigured ==> markerIndex.Some?)
      modifies this`markerResults, this`markerOutcomes
      ensures Memo()
      ensures id in markerOutcomes && markerOutcomes[id] == Outcome(id) && found == Answer(id)
      ensures forall other :: other != id ==> (other in markerOutcomes <==> other in old(markerOutcomes))
    {
      hide Describes;
      var outcome;
      found := None;
      if !indexConfigured {
        outcome := Unconfigured;
      } else if markerIndexFailed {
        outcome := Failed;
      } else if id in markerIndex.value.duplicates {
        outcome := Orphaned;
      } else if id in markerIndex.value.artifacts {
        found := Some(markerIndex.value.artifacts[id]);
        outcome := Found;
      } else {
        outcome := Absent;
      }
      markerResults := markerResults[id := found];
      markerOutcomes := markerOutcomes[id := outcome];
    }

    /** The one search of the run; a failure of any kind is remembered as a failed index. */
    method SearchOnce() returns (dead: bool)
      requires Valid() && indexConfigured && markerIndex.None?
      modifies this`markerIndex, this`markerIndexFailed, this`markerSearchFailed, this`missed, this`searches,
               this`indexed,
               this`entries, host
      ensures Valid() && old(host.states) <= host.states
      ensures host.log == old(host.log) && Evolves(old(host.world), host.world)
      ensures if dead then markerIndex.None? && searches == 0 else markerIndex.Some? && searches == 1
      ensures !dead ==> (markerSearchFailed <==> old(markerSearchFailed) || markerIndexFailed)
    {
      hide Describes, Scoped, Execution, Groups, Hits;
      var pages, items, misread := host.SearchIssues();
      if pages.Failure? && pages.error.Killed? {
        return true;
      }
      dead := false;
      var found: Option<Index> := None;
      if pages.Success? {
        var built := BuildMarkerIndex(pages.value);
        if built.Success? {
          IndexIsCurrent(built.value, items, host.world.issues);
          found := Some(built.value);
        }
      }
      Install(found, items, misread);
    }

    /** Keep the index for the rest of the run, or remember that there is none. */
    method Install(index: Option<Index>, ghost items: seq<SearchItem>, misread: bool)
      requires host.Valid() && Memo() && indexConfigured && markerIndex.None?
      requires index.Some? ==>
                 && Describes(index.value, items, host.world.issues) && Scoped(host.world, host.world.issues, started)
                 && (misread || ReadsAll(items, WithPhrase(host.world.issues)))
      modifies this`markerIndex, this`markerIndexFailed, this`markerSearchFailed, this`missed, this`searches,
               this`indexed,
               this`entries
      ensures Valid() && markerIndex.Some? && searches == 1
      ensures markerIndexFailed <==> index.None?
      ensures index.Some? ==>
                markerIndex == index && indexed == host.world.issues && entries == items && missed == misread
      ensures markerSearchFailed <==> old(markerSearchFailed) || markerIndexFailed
    {
      hide Describes, Scoped, Execution;
      searches := searches + 1;
      if index.Some? {
        markerIndex, markerIndexFailed, missed := index, false, misread;
        indexed, entries := host.world.issues, items;
      } else {
        markerIndex, markerIndexFailed := Some(Index(map[], {})), true;
      }
      markerSearchFailed := markerSearchFailed || markerIndexFailed;
    }

    lemma IndexIsCurrent(built: Index, items: seq<SearchItem>, issues: seq<Issue>)
      requires host.Valid() && issues == host.world.issues && Reads(items, WithPhrase(issues))
      requires Collect(Paginate(items), 1).Success?
      requires Groups(built, x => Hits(Collect(Paginate(items), 1).value, x))
      ensures Describes(built, items, issues)
      ensures Scoped(host.world, issues, started)
    {
      PagesReassemble(items, 1);
      assert items[0..] == items;
      host.Safe();
      ScopeStarts(host.Now(), started);
    }

    /** Resume behaviour from the persisted row and the marker lookup. */
    method ResumeCandidate(id: string) returns (decision: ResumeDecision)
      requires Valid() && id in markerOutcomes
      ensures decision == DecideResume(Latest(host.log, id), ArtifactKnown(id), SearchUsable(id),
                                       markerOutcomes[id].Orphaned?)
    {
      var persisted := Latest(host.log, id);
      var present, available;
      if persisted.None? || !HasLocalArtifact(persisted.value) {
        present := markerResults[id].Some?;
        available := !(markerOutcomes[id].Failed? || (markerOutcomes[id].Unconfigured? && requireMarkerProof));
      } else {
        present, available := true, true;
      }
      decision := DecideResume(persisted, present, available, markerOutcomes[id].Orphaned?);
    }

    /** The state file or the fork proves an artifact. */
    ghost predicate ArtifactKnown(id: string)
      reads this, host
    {
      var row := Latest(host.log, id);
      (row.Some? && HasLocalArtifact(row.value)) || (id in markerResults && markerResults[id].Some?)
    }

    /** The lookup proved something, or the state file makes the proof unnecessary. */
    ghost predicate SearchUsable(id: string)
      requires id in markerOutcomes
      reads this, host
    {
      var row := Latest(host.log, id);
      || (row.Some? && HasLocalArtifact(row.value))
      || !(markerOutcomes[id].Failed? || (markerOutcomes[id].Unconfigured? && requireMarkerProof))
    }
  }
}
