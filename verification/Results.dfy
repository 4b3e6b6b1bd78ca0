/**
 Cross-run aggregation (src/pipeline/observability/results.py): per candidate, the row furthest along the
 lifecycle, later runs winning ties. A closed pull request outranks the row that waits for a human, and a
 merge outranks everything.
 */
module Results {
  import opened Wrappers
  import opened Schemas

  datatype RunArtifacts = RunArtifacts(candidates: seq<Candidate>)

  function LifecycleProgress(s: CandidateState): real {
    match s
    case Enumerated => 0.0
    case Gated => 1.0
    case Scored => 2.0
    case Deferred => 3.0
    case BlockedByEnclosingSkip => 4.0
    case SuppressedByContainment => 5.0
    case Dispatching => 6.0
    case IssueCreated => 7.0
    case SessionDone => 8.0
    case Verified => 9.0
    case PrCreated => 10.0
    case Terminal => 11.0
    case AwaitingHumanMerge => 12.0
    case Merged => 13.0
  }

  predicate ClosedByHuman(c: Candidate) {
    c.state.Terminal? && c.reason == Some(ClosedPullRequest)
  }

  function RowProgress(c: Candidate): real {
    if ClosedByHuman(c) then LifecycleProgress(AwaitingHumanMerge) + 0.5 else LifecycleProgress(c.state)
  }

  // ---- the specification -----------------------------------------------------------------------

  /** Every row of every run, run by run. */
  function AllRows(runs: seq<RunArtifacts>): seq<Candidate> {
    if runs == [] then [] else AllRows(runs[..|runs| - 1]) + runs[|runs| - 1].candidates
  }

  /** The better of two answers; the later one wins a tie. */
  function Later(a: Option<Candidate>, b: Option<Candidate>): Option<Candidate> {
    if b.None? then a
    else if a.Some? && RowProgress(a.value) > RowProgress(b.value) then a
    else b
  }

  /** The last of the furthest rows of one candidate. */
  function Best(rows: seq<Candidate>, id: string): (best: Option<Candidate>)
    ensures best.Some? ==> best.value in rows && best.value.candidateId == id
    ensures best.None? <==> forall c :: c in rows ==> c.candidateId != id
  {
    if rows == [] then None
    else
      var last := rows[|rows| - 1];
      Later(Best(rows[..|rows| - 1], id), if last.candidateId == id then Some(last) else None)
  }

  lemma {:induction false} BestConcat(a: seq<Candidate>, b: seq<Candidate>, id: string)
    ensures Best(a + b, id) == Later(Best(a, id), Best(b, id))
  {
    if b == [] {
      assert a + b == a;
    } else {
      var n := |b| - 1;
      assert (a + b)[..|a + b| - 1] == a + b[..n];
      BestConcat(a, b[..n], id);
    }
  }

  lemma {:induction false} AllRowsConcat(a: seq<RunArtifacts>, b: seq<RunArtifacts>)
    ensures AllRows(a + b) == AllRows(a) + AllRows(b)
  {
    if b == [] {
      assert a + b == a;
    } else {
      var n := |b| - 1;
      assert (a + b)[..|a + b| - 1] == a + b[..n];
      AllRowsConcat(a, b[..n]);
    }
  }

  /** Aggregating a concatenation is merging the two aggregates. */
  lemma AggregationIsCompositional(a: seq<RunArtifacts>, b: seq<RunArtifacts>, id: string)
    ensures Best(AllRows(a + b), id) == Later(Best(AllRows(a), id), Best(AllRows(b), id))
  {
    AllRowsConcat(a, b);
    BestConcat(AllRows(a), AllRows(b), id);
  }

  /** Within one list, nothing of the same candidate is further along, and nothing later is as far. */
  lemma {:induction false} BestIsLastOfFurthest(rows: seq<Candidate>, id: string) returns (k: nat)
    requires Best(rows, id).Some?
    ensures k < |rows| && rows[k] == Best(rows, id).value
    ensures forall j :: 0 <= j < |rows| && rows[j].candidateId == id ==>
              RowProgress(rows[j]) < RowProgress(rows[k]) || (RowProgress(rows[j]) == RowProgress(rows[k]) && j <= k)
  {
    hide RowProgress;
    var n := |rows| - 1;
    var before := Best(rows[..n], id);
    if before.Some? && Best(rows, id) == before {
      k := BestIsLastOfFurthest(rows[..n], id);
      if rows[n].candidateId == id && RowProgress(rows[n]) >= RowProgress(rows[k]) {
        k := n;
      }
    } else {
      k := n;
      if before.Some? {
        var i := BestIsLastOfFurthest(rows[..n], id);
      }
    }
  }

  /** The order of the aggregator, refined by the position inside one run. */
  predicate AtMost(a: Candidate, i: nat, j: nat, b: Candidate, i': nat, j': nat) {
    || RowProgress(a) < RowProgress(b)
    || (RowProgress(a) == RowProgress(b) && (i < i' || (i == i' && j <= j')))
  }

  /** Row `j` of run `i` is the lexicographically greatest of its candidate. */
  ghost predicate Leads(runs: seq<RunArtifacts>, id: string, i: nat, j: nat) {
    && i < |runs| && j < |runs[i].candidates|
    && forall i', j' ::
         0 <= i' < |runs| && 0 <= j' < |runs[i'].candidates| && runs[i'].candidates[j'].candidateId == id ==>
           AtMost(runs[i'].candidates[j'], i', j', runs[i].candidates[j], i, j)
  }

  /** The aggregate is the row with the lexicographically greatest (progress, run, position in the run). */
  lemma {:induction false} AggregateIsGreatest(runs: seq<RunArtifacts>, id: string) returns (i: nat, j: nat)
    requires Best(AllRows(runs), id).Some?
    ensures Leads(runs, id, i, j)
    ensures i < |runs| && j < |runs[i].candidates| && runs[i].candidates[j] == Best(AllRows(runs), id).value
  {
    hide Leads, RowProgress, Best, AllRows;
    var last, rest := LastRun(runs, id);
    var n := |runs| - 1;
    i, j := 0, 0;
    if Best(rest, id).Some? {
      i, j := AggregateIsGreatest(runs[..n], id);
      assert runs[..n][i] == runs[i];
    }
    if Best(last, id).Some? {
      var k := BestIsLastOfFurthest(last, id);
      if Best(rest, id).Some? && RowProgress(Best(rest, id).value) > RowProgress(last[k]) {
        EarlierRunLeads(runs, id, i, j, k);
      } else {
        LastRunLeads(runs, id, i, j, k);
        i, j := n, k;
      }
    } else {
      EarlierRunStillLeads(runs, id, i, j);
    }
  }

  lemma LastRun(runs: seq<RunArtifacts>, id: string) returns (last: seq<Candidate>, rest: seq<Candidate>)
    requires Best(AllRows(runs), id).Some?
    ensures runs != [] && last == runs[|runs| - 1].candidates && rest == AllRows(runs[..|runs| - 1])
    ensures Best(AllRows(runs), id) == Later(Best(rest, id), Best(last, id))
  {
    last, rest := runs[|runs| - 1].candidates, AllRows(runs[..|runs| - 1]);
    BestConcat(rest, last, id);
  }

  lemma EarlierRunLeads(runs: seq<RunArtifacts>, id: string, i: nat, j: nat, k: nat)
    requires var n := |runs| - 1; n >= 0 && Leads(runs[..n], id, i, j)
    requires var last := runs[|runs| - 1].candidates;
             k < |last| && RowProgress(runs[i].candidates[j]) > RowProgress(last[k])
             && forall m :: 0 <= m < |last| && last[m].candidateId == id ==>
                  RowProgress(last[m]) <= RowProgress(last[k])
    ensures Leads(runs, id, i, j) && runs[..|runs| - 1][i] == runs[i]
  {
    hide RowProgress;
    var n := |runs| - 1;
    forall i', j' | 0 <= i' < n && 0 <= j' < |runs[i'].candidates| && runs[i'].candidates[j'].candidateId == id
      ensures AtMost(runs[i'].candidates[j'], i', j', runs[i].candidates[j], i, j)
    {
      assert runs[..n][i'] == runs[i'];
    }
  }

  lemma EarlierRunStillLeads(runs: seq<RunArtifacts>, id: string, i: nat, j: nat)
    requires var n := |runs| - 1; n >= 0 && Leads(runs[..n], id, i, j)
    requires forall c :: c in runs[|runs| - 1].candidates ==> c.candidateId != id
    ensures Leads(runs, id, i, j) && runs[..|runs| - 1][i] == runs[i]
  {
    hide RowProgress;
    var n := |runs| - 1;
    forall i', j' | 0 <= i' < n && 0 <= j' < |runs[i'].candidates| && runs[i'].candidates[j'].candidateId == id
      ensures AtMost(runs[i'].candidates[j'], i', j', runs[i].candidates[j], i, j)
    {
      assert runs[..n][i'] == runs[i'];
    }
  }

  lemma LastRunLeads(runs: seq<RunArtifacts>, id: string, i: nat, j: nat, k: nat)
    requires var n := |runs| - 1; n >= 0 && k < |runs[n].candidates|
    requires var last := runs[|runs| - 1].candidates;
             forall m :: 0 <= m < |last| && last[m].candidateId == id ==>
               RowProgress(last[m]) < RowProgress(last[k]) || (RowProgress(last[m]) == RowProgress(last[k]) && m <= k)
    requires var n := |runs| - 1;
             if Best(AllRows(runs[..n]), id).Some?
             then Leads(runs[..n], id, i, j) && RowProgress(runs[i].candidates[j]) <= RowProgress(runs[n].candidates[k])
             else true
    ensures Leads(runs, id, |runs| - 1, k)
  {
    hide RowProgress;
    var n := |runs| - 1;
    forall i', j' | 0 <= i' < n && 0 <= j' < |runs[i'].candidates| && runs[i'].candidates[j'].candidateId == id
      ensures AtMost(runs[i'].candidates[j'], i', j', runs[n].candidates[k], n, k)
    {
      assert runs[..n][i'] == runs[i'];
      RowOfRun(runs[..n], i', j');
    }
  }

  lemma {:induction false} RowOfRun(runs: seq<RunArtifacts>, i: nat, j: nat)
    requires i < |runs| && j < |runs[i].candidates|
    ensures runs[i].candidates[j] in AllRows(runs)
  {
    if i < |runs| - 1 {
      RowOfRun(runs[..|runs| - 1], i, j);
    }
  }

  /** Adding runs never moves a candidate back. */
  lemma MoreRunsNeverRegress(a: seq<RunArtifacts>, b: seq<RunArtifacts>, id: string)
    requires Best(AllRows(a), id).Some?
    ensures Best(AllRows(a + b), id).Some?
    ensures RowProgress(Best(AllRows(a + b), id).value) >= RowProgress(Best(AllRows(a), id).value)
  {
    AggregationIsCompositional(a, b, id);
  }

  /** A merge in any run is never displaced; without one, a pull request a human closed is what counts,
      ahead of any row that still waits. */
  lemma {:induction false} ExternalSettlementWins(rows: seq<Candidate>, c: Candidate)
    requires c in rows && (c.state.Merged? || ClosedByHuman(c))
    ensures Best(rows, c.candidateId).Some?
    ensures var best := Best(rows, c.candidateId).value;
            || best.state.Merged?
            || (ClosedByHuman(c) && ClosedByHuman(best))
  {
    hide Best, RowProgress;
    var j :| 0 <= j < |rows| && rows[j] == c;
    BestExists(rows, c);
    var k := BestIsLastOfFurthest(rows, c.candidateId);
    SettlementOutranks(c, rows[k]);
  }

  lemma {:induction false} BestExists(rows: seq<Candidate>, c: Candidate)
    requires c in rows
    ensures Best(rows, c.candidateId).Some?
  {}

  lemma SettlementOutranks(c: Candidate, best: Candidate)
    requires (c.state.Merged? || ClosedByHuman(c)) && RowProgress(c) <= RowProgress(best)
    ensures best.state.Merged? || (ClosedByHuman(c) && ClosedByHuman(best))
  {}

  // ---- the loop ----------------------------------------------------------------------------------

  datatype Entry = Entry(rank: real, run: nat, row: Candidate)

  /** The table agrees with the specification for the rows merged so far. */
  ghost predicate Tracks(latest: map<string, Entry>, rows: seq<Candidate>, run: nat) {
    && (forall id :: id in latest <==> Best(rows, id).Some?)
    && (forall id :: id in latest ==>
          && Best(rows, id) == Some(latest[id].row)
          && latest[id].rank == RowProgress(latest[id].row) && latest[id].run <= run)
  }

  ghost predicate OncePerId(order: seq<string>, ids: set<string>) {
    && (forall i, j :: 0 <= i < j < |order| ==> order[i] != order[j])
    && (forall id :: id in order <==> id in ids)
  }

  /** Merge runs by lifecycle progress, breaking ties in favour of later runs. `order` is the insertion
      order of the source's dictionary. */
  method Aggregate(runs: seq<RunArtifacts>) returns (rows: seq<Candidate>)
    ensures forall c :: c in rows <==> Best(AllRows(runs), c.candidateId) == Some(c)
    ensures forall i, j :: 0 <= i < j < |rows| ==> rows[i].candidateId != rows[j].candidateId
  {
    hide Best, RowProgress;
    var latest: map<string, Entry> := map[];
    var order: seq<string> := [];
    NothingTracked();
    for i := 0 to |runs|
      invariant Tracks(latest, AllRows(runs[..i]), i)
      invariant OncePerId(order, latest.Keys)
    {
      assert runs[..i + 1][..i] == runs[..i];
      latest, order := MergeRun(AllRows(runs[..i]), runs[i].candidates, i, latest, order);
    }
    assert runs[..|runs|] == runs;
    rows := seq(|order|, k requires 0 <= k < |order| => latest[order[k]].row);
    TableIsAnswer(latest, order, AllRows(runs), |runs|, rows);
  }

  lemma TableIsAnswer(latest: map<string, Entry>, order: seq<string>, all: seq<Candidate>, run: nat,
                      rows: seq<Candidate>)
    requires Tracks(latest, all, run) && OncePerId(order, latest.Keys)
    requires |rows| == |order| && forall k :: 0 <= k < |order| ==> rows[k] == latest[order[k]].row
    ensures forall c :: c in rows <==> Best(all, c.candidateId) == Some(c)
    ensures forall i, j :: 0 <= i < j < |rows| ==> rows[i].candidateId != rows[j].candidateId
  {
    hide Best, RowProgress;
    TrackedIds(latest, all, run);
    forall c ensures c in rows <==> Best(all, c.candidateId) == Some(c) {
      if Best(all, c.candidateId) == Some(c) {
        var k :| 0 <= k < |order| && order[k] == c.candidateId;
        assert rows[k] == c;
      }
    }
  }

  lemma TrackedIds(latest: map<string, Entry>, all: seq<Candidate>, run: nat)
    requires Tracks(latest, all, run)
    ensures forall id :: id in latest ==> latest[id].row.candidateId == id
  {}

  lemma NothingTracked()
    ensures Tracks(map[], [], 0) && OncePerId([], {})
  {}

  method MergeRun(ghost earlier: seq<Candidate>, candidates: seq<Candidate>, run: nat, table: map<string, Entry>,
                  keys: seq<string>)
    returns (latest: map<string, Entry>, order: seq<string>)
    requires Tracks(table, earlier, run) && OncePerId(keys, table.Keys)
    ensures Tracks(latest, earlier + candidates, run) && OncePerId(order, latest.Keys)
  {
    hide RowProgress, Best;
    latest, order := table, keys;
    assert earlier + candidates[..0] == earlier;
    for j := 0 to |candidates|
      invariant Tracks(latest, earlier + candidates[..j], run) && OncePerId(order, latest.Keys)
    {
      var c := candidates[j];
      var rank := RowProgress(c);
      NextEntry(latest, earlier + candidates[..j], run, c);
      assert earlier + candidates[..j + 1] == earlier + candidates[..j] + [c];
      if c.candidateId !in latest {
        order := order + [c.candidateId];
        latest := latest[c.candidateId := Entry(rank, run, c)];
      } else {
        var previous := latest[c.candidateId];
        if rank > previous.rank || (rank == previous.rank && run >= previous.run) {
          latest := latest[c.candidateId := Entry(rank, run, c)];
        }
      }
    }
    assert candidates[..|candidates|] == candidates;
  }

  lemma NextEntry(latest: map<string, Entry>, rows: seq<Candidate>, run: nat, c: Candidate)
    requires Tracks(latest, rows, run)
    ensures var wins := c.candidateId in latest ==> RowProgress(c) >= latest[c.candidateId].rank;
            Tracks(if wins then latest[c.candidateId := Entry(RowProgress(c), run, c)] else latest, rows + [c], run)
  {
    hide RowProgress, Best;
    forall id ensures Best(rows + [c], id) == Later(Best(rows, id), if c.candidateId == id then Some(c) else None) {
      BestAppend(rows, c, id);
    }
  }

  lemma BestAppend(rows: seq<Candidate>, c: Candidate, id: string)
    ensures Best(rows + [c], id) == Later(Best(rows, id), if c.candidateId == id then Some(c) else None)
  {
    assert (rows + [c])[..|rows|] == rows;
  }
}
