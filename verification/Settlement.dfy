/**
 The durable-settlement rule of src/pipeline/state.py: which row may follow which, and how a
 persisted row is resumed. The rule is a preorder, so what one append protects stays protected
 over every later append of the log.
 */
module Settlement {
  import opened Wrappers
  import opened Schemas

  /** A state from which no further publication step is taken. */
  predicate IsSettled(s: CandidateState) {
    s.Merged? || s.AwaitingHumanMerge? || s.Terminal?
  }

  /** Whether a persisted row proves that an artifact already exists. */
  predicate HasLocalArtifact(c: Candidate) {
    c.issueUrl.Some? || c.prUrl.Some?
  }

  datatype Violation =
    | DiscardedIdentity(field: string)
    | DiscardedMergeVerified
    | WeakenedState(from: CandidateState, to: CandidateState)

  /** The reason, if any, why `current` would weaken the settlement recorded by `previous`. */
  function SettlementViolation(previous: Candidate, current: Candidate): Option<Violation> {
    if previous.prUrl.Some? && current.prUrl.None? then Some(DiscardedIdentity("pr_url"))
    else if previous.prNumber.Some? && current.prNumber.None? then Some(DiscardedIdentity("pr_number"))
    else if previous.issueUrl.Some? && current.issueUrl.None? then Some(DiscardedIdentity("issue_url"))
    else if previous.issueNumber.Some? && current.issueNumber.None? then Some(DiscardedIdentity("issue_number"))
    else if previous.headSha.Some? && current.headSha.None? then Some(DiscardedIdentity("head_sha"))
    else if previous.mergedAt.Some? && current.mergedAt.None? then Some(DiscardedIdentity("merged_at"))
    else if previous.mergeVerified && !current.mergeVerified then Some(DiscardedMergeVerified)
    else if IsSettled(previous.state) && HasLocalArtifact(previous)
            && (!IsSettled(current.state) || (previous.state.Merged? && !current.state.Merged?))
    then Some(WeakenedState(previous.state, current.state))
    else None
  }

  /** `current` may be appended after `previous`. */
  predicate MayFollow(previous: Candidate, current: Candidate) {
    SettlementViolation(previous, current).None?
  }

  /** A settled row with an artifact: the resume decision never re-enters publication from it. */
  predicate SettledWithArtifact(c: Candidate) {
    IsSettled(c.state) && HasLocalArtifact(c)
  }

  datatype ResumeDecision = Skip | ResumeAtPublication | Defer

  /** Resume behaviour, decided without consulting external state. */
  function DecideResume(
    persisted: Option<Candidate>,
    artifactsPresent: bool,
    markerSearchAvailable: bool,
    markerSearchOrphaned: bool): ResumeDecision
  {
    match persisted
    case None =>
      if (!markerSearchAvailable || markerSearchOrphaned) && !artifactsPresent then Defer
      else ResumeAtPublication
    case Some(row) =>
      if IsSettled(row.state) then
        if artifactsPresent || HasLocalArtifact(row) then Skip else ResumeAtPublication
      else if !HasLocalArtifact(row) && (artifactsPresent || !markerSearchAvailable || markerSearchOrphaned) then Defer
      else ResumeAtPublication
  }

  // ---- the append-only log ---------------------------------------------------------------

  /** Last-write-wins read of one candidate. */
  function Latest(log: seq<Candidate>, id: string): (r: Option<Candidate>)
    ensures r.Some? ==> r.value.candidateId == id && r.value in log
    ensures r.None? ==> forall c :: c in log ==> c.candidateId != id
  {
    if log == [] then None
    else
      var last := log[|log| - 1];
      if last.candidateId == id then Some(last) else Latest(log[..|log| - 1], id)
  }

  /** The whole last-write-wins map. */
  function LatestMap(log: seq<Candidate>): (m: map<string, Candidate>)
    ensures forall id :: id in m <==> Latest(log, id).Some?
    ensures forall id :: id in m ==> Latest(log, id) == Some(m[id])
  {
    if log == [] then map[]
    else LatestMap(log[..|log| - 1])[log[|log| - 1].candidateId := log[|log| - 1]]
  }

  /** One guarded append: rejected on a violation, suppressed when nothing changed. */
  function Appended(log: seq<Candidate>, row: Candidate): Result<seq<Candidate>, Violation> {
    var latest := Latest(log, row.candidateId);
    if latest.Some? && SettlementViolation(latest.value, row).Some?
    then Failure(SettlementViolation(latest.value, row).value)
    else if latest == Some(row) then Success(log)
    else Success(log + [row])
  }

  /** Every row was admitted by the guard when it was written. */
  predicate WellFormed(log: seq<Candidate>) {
    forall k {:trigger Admitted(log[..k], log[k])} :: 0 <= k < |log| ==> Admitted(log[..k], log[k])
  }

  predicate Admitted(before: seq<Candidate>, row: Candidate) {
    var latest := Latest(before, row.candidateId);
    latest.Some? ==> MayFollow(latest.value, row) && latest.value != row
  }

  // ---- the rule is a preorder ------------------------------------------------------------

  lemma MayFollowReflexive(a: Candidate)
    ensures MayFollow(a, a)
  {}

  lemma MayFollowTransitive(a: Candidate, b: Candidate, c: Candidate)
    requires MayFollow(a, b) && MayFollow(b, c)
    ensures MayFollow(a, c)
  {}

  lemma LatestAppend(log: seq<Candidate>, row: Candidate)
    ensures Latest(log + [row], row.candidateId) == Some(row)
    ensures forall id :: id != row.candidateId ==> Latest(log + [row], id) == Latest(log, id)
  {
    assert (log + [row])[..|log|] == log;
  }

  lemma {:induction false} LatestConcat(a: seq<Candidate>, b: seq<Candidate>, id: string)
    ensures Latest(a + b, id) == if Latest(b, id).Some? then Latest(b, id) else Latest(a, id)
  {
    if b == [] {
      assert a + b == a;
    } else {
      var n := |b| - 1;
      assert (a + b)[..|a + b| - 1] == a + b[..n];
      LatestConcat(a, b[..n], id);
    }
  }

  /** An append keeps the log well formed; a rejected or repeated row leaves it as it was. */
  lemma AppendKeepsWellFormed(log: seq<Candidate>, row: Candidate)
    requires WellFormed(log)
    ensures Appended(log, row).Success? ==>
              var log' := Appended(log, row).value;
              WellFormed(log') && log <= log' && Latest(log', row.candidateId) == Some(row)
    ensures Appended(log, row).Failure? <==>
              var latest := Latest(log, row.candidateId);
              latest.Some? && !MayFollow(latest.value, row)
  {
    var r := Appended(log, row);
    if r.Success? && r.value != log {
      LatestAppend(log, row);
      forall k | 0 <= k < |r.value| ensures Admitted(r.value[..k], r.value[k]) {
        if k < |log| {
          assert r.value[..k] == log[..k];
          assert Admitted(log[..k], log[k]);
        } else {
          assert r.value[..k] == log;
        }
      }
    }
  }

  /** Between any two rows of one candidate, however far apart, settlement only strengthens. */
  lemma {:induction false} SettlementNeverWeakens(log: seq<Candidate>, i: nat, j: nat)
    requires WellFormed(log)
    requires i <= j < |log| && log[i].candidateId == log[j].candidateId
    ensures MayFollow(log[i], log[j])
    decreases j
  {
    if i < j {
      var p := PreviousRow(log, i, j);
      assert Admitted(log[..j], log[j]);
      SettlementNeverWeakens(log, i, p);
      MayFollowTransitive(log[i], log[p], log[j]);
    } else {
      MayFollowReflexive(log[i]);
    }
  }

  lemma LatestOfNext(log: seq<Candidate>, p: nat, id: string)
    requires p < |log|
    ensures Latest(log[..p + 1], id) == if log[p].candidateId == id then Some(log[p]) else Latest(log[..p], id)
  {
    assert log[..p + 1][..p] == log[..p];
  }

  /** The row the guard compared `log[j]` with lies at or after any earlier row of that candidate. */
  lemma {:induction false} PreviousRow(log: seq<Candidate>, i: nat, j: nat) returns (p: nat)
    requires i < j < |log| && log[i].candidateId == log[j].candidateId
    ensures i <= p < j && log[p].candidateId == log[j].candidateId
    ensures Latest(log[..j], log[j].candidateId) == Some(log[p])
  {
    hide Latest;
    var id := log[j].candidateId;
    p := j - 1;
    while log[p].candidateId != id
      invariant i <= p < j
      invariant Latest(log[..j], id) == Latest(log[..p + 1], id)
      decreases p
    {
      LatestOfNext(log, p, id);
      p := p - 1;
    }
    LatestOfNext(log, p, id);
  }

  /** What the preorder means over a whole log: identity, merge evidence and settlement persist,
      a merged row stays merged, and consecutive rows of one candidate differ. */
  lemma SettlementIsPermanent(log: seq<Candidate>, i: nat, j: nat)
    requires WellFormed(log)
    requires i < j < |log| && log[i].candidateId == log[j].candidateId
    ensures log[i].issueNumber.Some? ==> log[j].issueNumber.Some?
    ensures log[i].issueUrl.Some? ==> log[j].issueUrl.Some?
    ensures log[i].prNumber.Some? ==> log[j].prNumber.Some?
    ensures log[i].prUrl.Some? ==> log[j].prUrl.Some?
    ensures log[i].headSha.Some? ==> log[j].headSha.Some?
    ensures log[i].mergedAt.Some? ==> log[j].mergedAt.Some?
    ensures log[i].mergeVerified ==> log[j].mergeVerified
    ensures SettledWithArtifact(log[i]) ==> SettledWithArtifact(log[j])
    ensures SettledWithArtifact(log[i]) && log[i].state.Merged? ==> log[j].state.Merged?
    ensures (forall k :: i < k < j ==> log[k].candidateId != log[i].candidateId) ==> log[i] != log[j]
  {
    hide WellFormed, MayFollow, SettledWithArtifact;
    SettlementNeverWeakens(log, i, j);
    MayFollowMeans(log[i], log[j]);
    if forall k :: i < k < j ==> log[k].candidateId != log[i].candidateId {
      ConsecutiveRowsDiffer(log, i, j);
    }
  }

  /** The last row of a candidate may follow each of its rows. */
  lemma LastRowKeeps(log: seq<Candidate>, row: Candidate)
    requires WellFormed(log) && row in log
    ensures var last := Latest(log, row.candidateId); last.Some? && MayFollow(row, last.value)
  {
    hide WellFormed, MayFollow;
    var i :| 0 <= i < |log| && log[i] == row;
    var j := LastPosition(log, row.candidateId, i);
    SettlementNeverWeakens(log, i, j);
  }

  lemma {:induction false} LastPosition(log: seq<Candidate>, id: string, i: nat) returns (j: nat)
    requires i < |log| && log[i].candidateId == id
    ensures i <= j < |log| && Latest(log, id) == Some(log[j])
  {
    var n := |log| - 1;
    if log[n].candidateId == id {
      j := n;
    } else {
      j := LastPosition(log[..n], id, i);
    }
  }

  lemma MayFollowMeans(a: Candidate, b: Candidate)
    requires MayFollow(a, b)
    ensures a.issueNumber.Some? ==> b.issueNumber.Some?
    ensures a.issueUrl.Some? ==> b.issueUrl.Some?
    ensures a.prNumber.Some? ==> b.prNumber.Some?
    ensures a.prUrl.Some? ==> b.prUrl.Some?
    ensures a.headSha.Some? ==> b.headSha.Some?
    ensures a.mergedAt.Some? ==> b.mergedAt.Some?
    ensures a.mergeVerified ==> b.mergeVerified
    ensures SettledWithArtifact(a) ==> SettledWithArtifact(b)
    ensures SettledWithArtifact(a) && a.state.Merged? ==> b.state.Merged?
  {}

  lemma ConsecutiveRowsDiffer(log: seq<Candidate>, i: nat, j: nat)
    requires WellFormed(log)
    requires i < j < |log| && log[i].candidateId == log[j].candidateId
    requires forall k :: i < k < j ==> log[k].candidateId != log[i].candidateId
    ensures log[i] != log[j]
  {
    hide MayFollow, Latest;
    var p := PreviousRow(log, i, j);
    assert Admitted(log[..j], log[j]);
  }

  /** The rule protects non-nullness only: a row may replace an issue number by another one. */
  lemma IdentityValuesMayChange(c: Candidate, n: nat, m: nat)
    requires c.issueNumber == Some(n) && n != m
    ensures MayFollow(c, c.(issueNumber := Some(m))) && c.(issueNumber := Some(m)) != c
  {}

  /** A settled row is skipped exactly when some artifact is known; a settled row without a link
      is resumed even while the marker search is down or ambiguous. */
  lemma SettledRowsSkipOnProof(row: Candidate, present: bool, available: bool, orphaned: bool)
    requires IsSettled(row.state)
    ensures DecideResume(Some(row), present, available, orphaned).Skip? <==> (present || HasLocalArtifact(row))
    ensures !present && !HasLocalArtifact(row)
            ==> DecideResume(Some(row), present, available, orphaned).ResumeAtPublication?
  {}

  /** No row that proves an artifact is ever deferred, and an unsettled one is always resumed. */
  lemma ProvenArtifactsResume(row: Candidate, present: bool, available: bool, orphaned: bool)
    requires HasLocalArtifact(row)
    ensures DecideResume(Some(row), present, available, orphaned)
            == if IsSettled(row.state) then Skip else ResumeAtPublication
  {}
}
