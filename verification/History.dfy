/**
 History across hosted runs (src/pipeline/history.py): a run starts from a state file seeded with the last
 row of every candidate, and only the rows it appended are exported. The round trip loses nothing:
 seeding, running, exporting and reseeding is indistinguishable from one continuous state file.
 */
module History {
  import opened Wrappers
  import opened Schemas
  import opened Settlement

  /** One line of a state file. */
  datatype Line = Blank | Malformed(text: string) | Row(row: Candidate)

  datatype SeedMeta = MissingMeta | InvalidMeta | SeededRows(count: nat)

  datatype HistoryError =
    | OutputNotEmpty
    | InvalidMetadata
    | ShorterThanSeed
    | CorruptState(text: string)

  datatype SeedReport = SeedReport(
    rows: seq<Candidate>,       // the seeded state file
    runIds: seq<string>,
    skippedRuns: nat,
    skippedSimulated: nat,
    preserved: nat)             // rows refused by the settlement rule

  // ---- reading ---------------------------------------------------------------------------------

  /** The well-formed rows of a file. */
  function RowsOf(lines: seq<Line>): seq<Candidate> {
    if lines == [] then []
    else
      var n := |lines| - 1;
      RowsOf(lines[..n]) + if lines[n].Row? then [lines[n].row] else []
  }

  function Lines(rows: seq<Candidate>): (lines: seq<Line>)
    ensures |lines| == |rows| && forall k :: 0 <= k < |rows| ==> lines[k] == Row(rows[k])
  {
    seq(|rows|, k requires 0 <= k < |rows| => Row(rows[k]))
  }

  /** Simulated rows never enter live state. */
  function Real(rows: seq<Candidate>): seq<Candidate> {
    if rows == [] then []
    else
      var n := |rows| - 1;
      Real(rows[..n]) + if rows[n].artifactSimulated then [] else [rows[n]]
  }

  /** The real rows of all readable runs, oldest run first. */
  function Recorded(runs: seq<Option<seq<Line>>>): seq<Candidate> {
    if runs == [] then []
    else
      var n := |runs| - 1;
      Recorded(runs[..n]) + if runs[n].Some? then Real(RowsOf(runs[n].value)) else []
  }

  /** All rows of all readable runs, simulated ones included. */
  function AllRows(runs: seq<Option<seq<Line>>>): seq<Candidate> {
    if runs == [] then []
    else
      var n := |runs| - 1;
      AllRows(runs[..n]) + if runs[n].Some? then RowsOf(runs[n].value) else []
  }

  function Unreadable(runs: seq<Option<seq<Line>>>): nat {
    if runs == [] then 0
    else
      var n := |runs| - 1;
      Unreadable(runs[..n]) + if runs[n].None? then 1 else 0
  }

  lemma {:induction false} LinesAreRows(rows: seq<Candidate>)
    ensures RowsOf(Lines(rows)) == rows
  {
    if rows != [] {
      var n := |rows| - 1;
      assert Lines(rows)[..n] == Lines(rows[..n]);
      LinesAreRows(rows[..n]);
    }
  }

  lemma {:induction false} RealKeepsReal(rows: seq<Candidate>)
    requires forall c :: c in rows ==> !c.artifactSimulated
    ensures Real(rows) == rows
  {
    if rows != [] {
      RealKeepsReal(rows[..|rows| - 1]);
    }
  }

  // ---- what seeding keeps ------------------------------------------------------------------------

  /** The rows no earlier accepted row of the candidate forbids. */
  function Accepted(rows: seq<Candidate>): seq<Candidate> {
    if rows == [] then []
    else
      var n := |rows| - 1;
      var before := Accepted(rows[..n]);
      var latest := Latest(before, rows[n].candidateId);
      if latest.Some? && !MayFollow(latest.value, rows[n]) then before else before + [rows[n]]
  }

  /** Update an insertion-ordered table of last rows. */
  function Put(table: seq<Candidate>, c: Candidate): seq<Candidate> {
    if table == [] then [c]
    else if table[0].candidateId == c.candidateId then [c] + table[1..]
    else [table[0]] + Put(table[1..], c)
  }

  /** One row per candidate, in the order the candidates first appeared. */
  function Collapse(rows: seq<Candidate>): seq<Candidate> {
    if rows == [] then [] else Put(Collapse(rows[..|rows| - 1]), rows[|rows| - 1])
  }

  function RunIds(rows: seq<Candidate>): seq<string> {
    if rows == [] then []
    else
      var n := |rows| - 1;
      var before := RunIds(rows[..n]);
      var id := rows[n].runId;
      if id.Some? && id.value != "" && id.value !in before then before + [id.value] else before
  }

  predicate OneRowEach(table: seq<Candidate>) {
    forall i, j :: 0 <= i < j < |table| ==> table[i].candidateId != table[j].candidateId
  }

  lemma {:induction false} PutIsUpdate(table: seq<Candidate>, c: Candidate)
    requires OneRowEach(table)
    ensures OneRowEach(Put(table, c))
    ensures forall id :: Latest(Put(table, c), id) == if id == c.candidateId then Some(c) else Latest(table, id)
    ensures forall x :: x in Put(table, c) ==> x in table || x == c
  {
    if table == [] {
    } else {
      var rest := if table[0].candidateId == c.candidateId then table[1..] else Put(table[1..], c);
      var head := if table[0].candidateId == c.candidateId then c else table[0];
      assert Put(table, c) == [head] + rest && table == [table[0]] + table[1..];
      if table[0].candidateId != c.candidateId {
        PutIsUpdate(table[1..], c);
        forall j | 0 <= j < |rest| ensures rest[j].candidateId != head.candidateId {
          assert rest[j] in rest;
        }
      }
      forall id ensures Latest(Put(table, c), id) == if id == c.candidateId then Some(c) else Latest(table, id) {
        LatestConcat([head], rest, id);
        LatestConcat([table[0]], table[1..], id);
        LatestOfOne(head, id);
        LatestOfOne(table[0], id);
      }
    }
  }

  lemma LatestOfOne(c: Candidate, id: string)
    ensures Latest([c], id) == if c.candidateId == id then Some(c) else None
  {
    assert [c][..0] == [];
  }

  /** The table reads like the rows it was collapsed from. */
  lemma {:induction false} CollapseKeepsLatest(rows: seq<Candidate>)
    ensures OneRowEach(Collapse(rows))
    ensures forall id :: Latest(Collapse(rows), id) == Latest(rows, id)
  {
    if rows != [] {
      var n := |rows| - 1;
      CollapseKeepsLatest(rows[..n]);
      PutIsUpdate(Collapse(rows[..n]), rows[n]);
      assert rows == rows[..n] + [rows[n]];
      LatestAppend(rows[..n], rows[n]);
    }
  }

  lemma AcceptedAppend(rows: seq<Candidate>, c: Candidate)
    ensures Accepted(rows + [c]) ==
              var before := Accepted(rows);
              var latest := Latest(before, c.candidateId);
              if latest.Some? && !MayFollow(latest.value, c) then before else before + [c]
  {
    assert (rows + [c])[..|rows|] == rows;
  }

  // ---- seed --------------------------------------------------------------------------------------

  method ReadCandidates(lines: seq<Line>) returns (rows: seq<Candidate>)
    ensures rows == RowsOf(lines)
  {
    rows := [];
    for k := 0 to |lines|
      invariant rows == RowsOf(lines[..k])
    {
      assert lines[..k + 1][..k] == lines[..k];
      if lines[k].Row? {
        rows := rows + [lines[k].row];
      }
    }
    assert lines[..|lines|] == lines;
  }

  /** Seed one last row per candidate from the runs on record, oldest first. */
  method Seed(runs: seq<Option<seq<Line>>>, output: seq<Line>) returns (r: Result<SeedReport, HistoryError>)
    ensures r.Failure? <==> output != []
    ensures r.Failure? ==> r.error.OutputNotEmpty?
    ensures r.Success? ==>
              var accepted := Accepted(Recorded(runs));
              && r.value.rows == Collapse(accepted)
              && r.value.runIds == RunIds(accepted)
              && r.value.preserved == |Recorded(runs)| - |accepted|
              && r.value.skippedSimulated == |AllRows(runs)| - |Recorded(runs)|
              && r.value.skippedRuns == Unreadable(runs)
  {
    if output != [] {
      return Failure(OutputNotEmpty);
    }
    hide Progress;
    var latest: seq<Candidate> := [];
    var runIds: seq<string> := [];
    var skippedRuns, skippedSimulated, preserved := 0, 0, 0;
    NothingRead();
    for i := 0 to |runs|
      invariant Progress(Recorded(runs[..i]), latest, runIds, preserved)
      invariant skippedSimulated == |AllRows(runs[..i])| - |Recorded(runs[..i])| && skippedRuns == Unreadable(runs[..i])
    {
      RecordedNext(runs, i);
      if runs[i].None? {
        skippedRuns := skippedRuns + 1;
      } else {
        var rows := ReadCandidates(runs[i].value);
        var simulated;
        latest, runIds, preserved, simulated := AbsorbRun(Recorded(runs[..i]), rows, latest, runIds, preserved);
        skippedSimulated := skippedSimulated + simulated;
      }
    }
    assert runs[..|runs|] == runs;
    ProgressMeans(Recorded(runs), latest, runIds, preserved);
    r := Success(SeedReport(latest, runIds, skippedRuns, skippedSimulated, preserved));
  }

  /** Take over the rows of one run. */
  method AbsorbRun(ghost earlier: seq<Candidate>, rows: seq<Candidate>, table: seq<Candidate>, ids: seq<string>,
                   refused: nat)
    returns (latest: seq<Candidate>, runIds: seq<string>, preserved: nat, simulated: nat)
    requires Progress(earlier, table, ids, refused)
    ensures Progress(earlier + Real(rows), latest, runIds, preserved)
    ensures simulated == |rows| - |Real(rows)|
  {
    hide Progress, MayFollow, Put, Latest, Accepted, Collapse, RunIds;
    latest, runIds, preserved, simulated := table, ids, refused, 0;
    assert earlier + Real([]) == earlier;
    for j := 0 to |rows|
      invariant Progress(earlier + Real(rows[..j]), latest, runIds, preserved)
      invariant simulated == j - |Real(rows[..j])|
    {
      var c := rows[j];
      RealNext(earlier, rows, j);
      if c.artifactSimulated {
        simulated := simulated + 1;
      } else {
        NextRow(earlier + Real(rows[..j]), c, latest, runIds, preserved);
        var previous := Latest(latest, c.candidateId);
        if previous.Some? && !MayFollow(previous.value, c) {
          preserved := preserved + 1;
        } else {
          if c.runId.Some? && c.runId.value != "" && c.runId.value !in runIds {
            runIds := runIds + [c.runId.value];
          }
          latest := Put(latest, c);
        }
      }
    }
    assert rows[..|rows|] == rows;
  }

  lemma RealNext(earlier: seq<Candidate>, rows: seq<Candidate>, j: nat)
    requires j < |rows|
    ensures rows[j].artifactSimulated ==> Real(rows[..j + 1]) == Real(rows[..j])
    ensures !rows[j].artifactSimulated ==>
              && earlier + Real(rows[..j + 1]) == earlier + Real(rows[..j]) + [rows[j]]
              && |Real(rows[..j + 1])| == |Real(rows[..j])| + 1
  {
    assert rows[..j + 1][..j] == rows[..j];
  }

  lemma NothingRead()
    ensures Progress([], [], [], 0)
  {}

  lemma RecordedNext(runs: seq<Option<seq<Line>>>, i: nat)
    requires i < |runs|
    ensures Recorded(runs[..i + 1]) ==
              if runs[i].Some? then Recorded(runs[..i]) + Real(RowsOf(runs[i].value)) else Recorded(runs[..i])
    ensures AllRows(runs[..i + 1]) == AllRows(runs[..i]) + if runs[i].Some? then RowsOf(runs[i].value) else []
    ensures Unreadable(runs[..i + 1]) == Unreadable(runs[..i]) + if runs[i].None? then 1 else 0
  {
    assert runs[..i + 1][..i] == runs[..i];
  }

  /** What the loop has made of the rows read so far. */
  ghost predicate Progress(rows: seq<Candidate>, latest: seq<Candidate>, runIds: seq<string>, preserved: nat) {
    && latest == Collapse(Accepted(rows))
    && runIds == RunIds(Accepted(rows))
    && preserved == |rows| - |Accepted(rows)|
  }

  lemma ProgressMeans(rows: seq<Candidate>, latest: seq<Candidate>, runIds: seq<string>, preserved: nat)
    requires Progress(rows, latest, runIds, preserved)
    ensures latest == Collapse(Accepted(rows)) && runIds == RunIds(Accepted(rows))
    ensures preserved == |rows| - |Accepted(rows)|
  {}

  lemma NextRow(rows: seq<Candidate>, c: Candidate, latest: seq<Candidate>, runIds: seq<string>, preserved: nat)
    requires Progress(rows, latest, runIds, preserved)
    ensures Latest(latest, c.candidateId) == Latest(Accepted(rows), c.candidateId)
    ensures var previous := Latest(latest, c.candidateId);
            if previous.Some? && !MayFollow(previous.value, c)
            then Progress(rows + [c], latest, runIds, preserved + 1)
            else Progress(rows + [c], Put(latest, c),
                   if c.runId.Some? && c.runId.value != "" && c.runId.value !in runIds then runIds + [c.runId.value]
                   else runIds,
                   preserved)
  {
    hide MayFollow, Latest;
    CollapseKeepsLatest(Accepted(rows));
    AcceptedAppend(rows, c);
    var accepted := Accepted(rows);
    assert (accepted + [c])[..|accepted|] == accepted;
  }

  // ---- export ------------------------------------------------------------------------------------

  predicate Intact(lines: seq<Line>) {
    forall line :: line in lines ==> !line.Malformed?
  }

  /** Export the rows appended after the seeded ones, by line offset. */
  method ExportRows(state: Option<seq<Line>>, meta: SeedMeta) returns (r: Result<seq<Candidate>, HistoryError>)
    ensures r.Success? <==>
              && !meta.InvalidMeta?
              && (state.Some? ==> var seeded := if meta.SeededRows? then meta.count else 0;
                                  seeded <= |state.value| && Intact(state.value[seeded..]))
    ensures r.Success? ==>
              r.value == if state.None? then [] else RowsOf(state.value[if meta.SeededRows? then meta.count else 0..])
  {
    if meta.InvalidMeta? {
      return Failure(InvalidMetadata);
    }
    var seeded := if meta.SeededRows? then meta.count else 0;
    var rows: seq<Candidate> := [];
    if state.Some? {
      if |state.value| < seeded {
        return Failure(ShorterThanSeed);
      }
      var lines := state.value[seeded..];
      for k := 0 to |lines|
        invariant rows == RowsOf(lines[..k]) && Intact(lines[..k])
      {
        assert lines[..k + 1][..k] == lines[..k];
        match lines[k]
        case Blank =>
        case Malformed(text) => return Failure(CorruptState(text));
        case Row(row) => rows := rows + [row];
      }
      assert lines[..|lines|] == lines;
    }
    r := Success(rows);
  }

  // ---- the round trip ----------------------------------------------------------------------------

  /** A run's appends, in order; a refused row leaves the file as it was. */
  function AppendAll(log: seq<Candidate>, batch: seq<Candidate>): seq<Candidate> {
    if batch == [] then log
    else
      var n := |batch| - 1;
      var before := AppendAll(log, batch[..n]);
      if Appended(before, batch[n]).Success? then Appended(before, batch[n]).value else before
  }

  /** One state file that all runs append to. */
  function Continuous(batches: seq<seq<Candidate>>): seq<Candidate> {
    if batches == [] then [] else AppendAll(Continuous(batches[..|batches| - 1]), batches[|batches| - 1])
  }

  /** Hosted runs: each starts from the seed of all earlier exports and exports what it appended. */
  function Hosted(batches: seq<seq<Candidate>>): seq<seq<Candidate>> {
    if batches == [] then []
    else
      var n := |batches| - 1;
      var exports := Hosted(batches[..n]);
      exports + [NextExport(exports, batches[n])]
  }

  /** What one hosted run exports. */
  function NextExport(exports: seq<seq<Candidate>>, batch: seq<Candidate>): seq<Candidate> {
    var seeded := SeededFrom(exports);
    AppendAllGrows(seeded, batch);
    AppendAll(seeded, batch)[|seeded|..]
  }

  /** The workflow of one hosted run: restore the state file, append to it, export what was appended. */
  method HostedRun(exports: seq<seq<Candidate>>, batch: seq<Candidate>)
    returns (r: Result<seq<Candidate>, HistoryError>)
    ensures r == Success(NextExport(exports, batch))
  {
    hide Accepted, Recorded, RunIds, Collapse;
    var seeded := Seed(Files(exports), []);
    var report := seeded.value;
    var state := report.rows;
    for k := 0 to |batch|
      invariant state == AppendAll(report.rows, batch[..k])
    {
      assert batch[..k + 1][..k] == batch[..k];
      var appended := Appended(state, batch[k]);
      if appended.Success? {
        state := appended.value;
      }
    }
    assert batch[..|batch|] == batch;
    AppendAllGrows(report.rows, batch);
    var n := |report.rows|;
    assert Lines(state)[n..] == Lines(state[n..]);
    LinesAreRows(state[n..]);
    r := ExportRows(Some(Lines(state)), SeededRows(n));
  }

  /** The state file seeded from exported runs. */
  function SeededFrom(exports: seq<seq<Candidate>>): seq<Candidate> {
    Collapse(Accepted(Recorded(Files(exports))))
  }

  function Files(exports: seq<seq<Candidate>>): (files: seq<Option<seq<Line>>>)
    ensures |files| == |exports| && forall k :: 0 <= k < |exports| ==> files[k] == Some(Lines(exports[k]))
  {
    seq(|exports|, k requires 0 <= k < |exports| => Some(Lines(exports[k])))
  }

  lemma {:induction false} AppendAllGrows(log: seq<Candidate>, batch: seq<Candidate>)
    ensures log <= AppendAll(log, batch)
  {
    if batch != [] {
      AppendAllGrows(log, batch[..|batch| - 1]);
    }
  }

  lemma {:induction false} AppendAllKeepsWellFormed(log: seq<Candidate>, batch: seq<Candidate>)
    requires WellFormed(log)
    ensures WellFormed(AppendAll(log, batch))
  {
    if batch != [] {
      var n := |batch| - 1;
      AppendAllKeepsWellFormed(log, batch[..n]);
      AppendKeepsWellFormed(AppendAll(log, batch[..n]), batch[n]);
    }
  }

  /** What a run appends depends on the last rows only, not on the rest of the file. */
  lemma {:induction false} AppendsDependOnLatest(a: seq<Candidate>, b: seq<Candidate>, batch: seq<Candidate>)
    requires forall id :: Latest(a, id) == Latest(b, id)
    ensures a <= AppendAll(a, batch) && b <= AppendAll(b, batch)
    ensures AppendAll(a, batch)[|a|..] == AppendAll(b, batch)[|b|..]
    ensures forall id :: Latest(AppendAll(a, batch), id) == Latest(AppendAll(b, batch), id)
  {
    AppendAllGrows(a, batch);
    AppendAllGrows(b, batch);
    if batch != [] {
      var n := |batch| - 1;
      AppendsDependOnLatest(a, b, batch[..n]);
      LatestAppend(AppendAll(a, batch[..n]), batch[n]);
      LatestAppend(AppendAll(b, batch[..n]), batch[n]);
    }
  }

  lemma PrefixIsWellFormed(log: seq<Candidate>, n: nat)
    requires WellFormed(log) && n < |log|
    ensures WellFormed(log[..n]) && Admitted(log[..n], log[n])
  {
    hide Admitted;
    forall k | 0 <= k < n ensures Admitted(log[..n][..k], log[..n][k]) {
      assert log[..n][..k] == log[..k];
    }
  }

  /** Seeding a well-formed log refuses none of its rows. */
  lemma {:induction false} WellFormedIsAccepted(log: seq<Candidate>)
    requires WellFormed(log)
    ensures Accepted(log) == log
  {
    hide WellFormed, MayFollow, Latest;
    if log != [] {
      var n := |log| - 1;
      PrefixIsWellFormed(log, n);
      WellFormedIsAccepted(log[..n]);
    }
  }

  lemma {:induction false} AppendedRowsAreReal(log: seq<Candidate>, batch: seq<Candidate>)
    requires forall c :: c in batch ==> !c.artifactSimulated
    ensures log <= AppendAll(log, batch)
    ensures forall c :: c in AppendAll(log, batch)[|log|..] ==> !c.artifactSimulated
  {
    AppendAllGrows(log, batch);
    if batch != [] {
      var n := |batch| - 1;
      AppendedRowsAreReal(log, batch[..n]);
    }
  }

  lemma RecordedAppend(exports: seq<seq<Candidate>>, next: seq<Candidate>)
    requires forall c :: c in next ==> !c.artifactSimulated
    ensures Recorded(Files(exports + [next])) == Recorded(Files(exports)) + next
  {
    hide RowsOf, Real;
    var all := exports + [next];
    assert Files(all)[..|exports|] == Files(exports);
    assert Files(all)[|exports|] == Some(Lines(next));
    LinesAreRows(next);
    RealKeepsReal(next);
  }

  /** Any number of hosted runs put exactly the continuous log on record, seed the same last row for
      every candidate, and have no row refused on the way. */
  lemma {:induction false} HostedIsContinuous(batches: seq<seq<Candidate>>)
    requires forall k :: 0 <= k < |batches| ==> forall c :: c in batches[k] ==> !c.artifactSimulated
    ensures WellFormed(Continuous(batches))
    ensures Recorded(Files(Hosted(batches))) == Continuous(batches)
    ensures Accepted(Recorded(Files(Hosted(batches)))) == Continuous(batches)
    ensures OneRowEach(SeededFrom(Hosted(batches)))
    ensures forall id :: Latest(SeededFrom(Hosted(batches)), id) == Latest(Continuous(batches), id)
  {
    if batches != [] {
      var n := |batches| - 1;
      HostedIsContinuous(batches[..n]);
      var exports, log := Hosted(batches[..n]), Continuous(batches[..n]);
      var seeded := SeededFrom(exports);
      AppendsDependOnLatest(seeded, log, batches[n]);
      AppendedRowsAreReal(log, batches[n]);
      AppendAllKeepsWellFormed(log, batches[n]);
      RecordedAppend(exports, AppendAll(seeded, batches[n])[|seeded|..]);
    }
    WellFormedIsAccepted(Continuous(batches));
    CollapseKeepsLatest(Continuous(batches));
  }

  /** Simulated and refused rows cannot weaken what is on record: whatever the history, the seeded row of
      a candidate may follow every accepted row before it. */
  lemma {:induction false} SeedNeverWeakens(rows: seq<Candidate>, k: nat)
    requires k < |Accepted(rows)|
    ensures var c := Accepted(rows)[k];
            var kept := Latest(Collapse(Accepted(rows)), c.candidateId);
            kept.Some? && MayFollow(c, kept.value)
  {
    CollapseKeepsLatest(Accepted(rows));
    AcceptedRowsStrengthen(rows, k);
  }

  lemma {:induction false} AcceptedRowsStrengthen(rows: seq<Candidate>, k: nat)
    requires k < |Accepted(rows)|
    ensures var kept := Latest(Accepted(rows), Accepted(rows)[k].candidateId);
            kept.Some? && MayFollow(Accepted(rows)[k], kept.value)
  {
    hide MayFollow;
    var n := |rows| - 1;
    var before := Accepted(rows[..n]);
    if Accepted(rows) != before {
      LatestAppend(before, rows[n]);
    }
    if k < |before| {
      AcceptedRowsStrengthen(rows[..n], k);
      var kept := Latest(before, before[k].candidateId).value;
      if Accepted(rows) != before && rows[n].candidateId == before[k].candidateId {
        MayFollowTransitive(before[k], kept, rows[n]);
      }
    } else {
      MayFollowReflexive(rows[n]);
    }
  }
}
