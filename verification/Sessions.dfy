/**
 Session accounting of src/pipeline/session_client.py: the per-run ceilings on created sessions and on
 the compute units (ACU) they report, and the new-session check of a retry.
 */
module Sessions {
  import opened Wrappers

  datatype Limits = Limits(maxSessions: nat, maxTotalAcu: real, maxAcuLimit: real)

  /** The counters a run keeps; `accounted` holds the largest usage seen per session. */
  datatype Accounts = Accounts(sessions: nat, totalAcu: real, accounted: map<string, real>)

  const EMPTY := Accounts(0, 0.0, map[])

  datatype Refusal = SessionCeiling | ProjectedAcuCeiling | SessionOverLimit | TotalAcuCeiling

  function CheckReserve(a: Accounts, limits: Limits): Option<Refusal> {
    if a.sessions >= limits.maxSessions then Some(SessionCeiling)
    else if a.totalAcu + limits.maxAcuLimit > limits.maxTotalAcu then Some(ProjectedAcuCeiling)
    else None
  }

  function Reserved(a: Accounts, limits: Limits): Accounts {
    if CheckReserve(a, limits).Some? then a else a.(sessions := a.sessions + 1)
  }

  /** A reservation whose creation request failed is given back. */
  function Released(a: Accounts): Accounts {
    if a.sessions == 0 then a else a.(sessions := a.sessions - 1)
  }

  function Max(x: real, y: real): real { if x >= y then x else y }

  function AccountedFor(a: Accounts, session: string): real {
    if session in a.accounted then a.accounted[session] else 0.0
  }

  /** Usage is added even when it is then refused. */
  function Recorded(a: Accounts, session: string, observed: real): Accounts {
    var before := AccountedFor(a, session);
    a.(accounted := a.accounted[session := Max(before, observed)],
       totalAcu := a.totalAcu + Max(observed - before, 0.0))
  }

  function CheckUsage(a: Accounts, limits: Limits, observed: real): Option<Refusal> {
    if observed > limits.maxAcuLimit then Some(SessionOverLimit)
    else if a.totalAcu > limits.maxTotalAcu then Some(TotalAcuCeiling)
    else None
  }

  datatype Operation =
    | Reserve
    | Release                                   // the creation request failed
    | Record(session: string, observed: real)   // a terminal snapshot reported its usage

  function Apply(a: Accounts, limits: Limits, op: Operation): Accounts {
    match op
    case Reserve => Reserved(a, limits)
    case Release => Released(a)
    case Record(session, observed) => Recorded(a, session, observed)
  }

  function Run(a: Accounts, limits: Limits, ops: seq<Operation>): Accounts {
    if ops == [] then a else Apply(Run(a, limits, ops[..|ops| - 1]), limits, ops[|ops| - 1])
  }

  // ---- sums --------------------------------------------------------------------------------------

  ghost function Sum(m: map<string, real>): real
    decreases |m|
  {
    if m == map[] then 0.0
    else
      var k :| k in m;
      assert (m - {k}).Keys == m.Keys - {k};
      m[k] + Sum(m - {k})
  }

  /** The sum does not depend on the order the entries are taken in. */
  lemma {:induction false} SumWithout(m: map<string, real>, k: string)
    requires k in m
    ensures Sum(m) == m[k] + Sum(m - {k})
    decreases |m|
  {
    var p :| p in m && Sum(m) == m[p] + Sum(m - {p});
    if p != k {
      assert (m - {p}).Keys == m.Keys - {p};
      assert (m - {k}).Keys == m.Keys - {k};
      SumWithout(m - {p}, k);
      SumWithout(m - {k}, p);
      assert m - {p} - {k} == m - {k} - {p};
    }
  }

  lemma SumUpdate(m: map<string, real>, k: string, v: real)
    ensures Sum(m[k := v]) == Sum(m) - (if k in m then m[k] else 0.0) + v
  {
    SumWithout(m[k := v], k);
    assert m[k := v] - {k} == m - {k};
    if k in m {
      SumWithout(m, k);
    } else {
      assert m - {k} == m;
    }
  }

  // ---- accounting over any sequence of operations -----------------------------------------------

  ghost predicate Balanced(a: Accounts, limits: Limits) {
    && a.sessions <= limits.maxSessions
    && a.totalAcu == Sum(a.accounted)
    && forall session <- a.accounted :: a.accounted[session] >= 0.0
  }

  lemma ApplyKeepsBalance(a: Accounts, limits: Limits, op: Operation)
    requires Balanced(a, limits)
    ensures Balanced(Apply(a, limits, op), limits)
  {
    if op.Record? {
      SumUpdate(a.accounted, op.session, Max(AccountedFor(a, op.session), op.observed));
    }
  }

  /** However operations interleave, the counter never exceeds the ceiling and the run's total is the sum of
      the per-session maxima. */
  lemma {:induction false} RunStaysBalanced(limits: Limits, ops: seq<Operation>)
    ensures Balanced(Run(EMPTY, limits, ops), limits)
  {
    if ops != [] {
      RunStaysBalanced(limits, ops[..|ops| - 1]);
      ApplyKeepsBalance(Run(EMPTY, limits, ops[..|ops| - 1]), limits, ops[|ops| - 1]);
    }
  }

  /** Each accounted value is the largest usage recorded for that session, and not less than zero. */
  lemma {:induction false} AccountedIsMaximum(limits: Limits, ops: seq<Operation>, k: nat)
    requires k < |ops| && ops[k].Record?
    ensures ops[k].session in Run(EMPTY, limits, ops).accounted
    ensures Run(EMPTY, limits, ops).accounted[ops[k].session] >= Max(ops[k].observed, 0.0)
  {
    var n := |ops| - 1;
    RunStaysBalanced(limits, ops[..n]);
    if k < n {
      AccountedIsMaximum(limits, ops[..n], k);
    }
  }

  /** An accounted value other than zero was really reported by its session. */
  lemma {:induction false} AccountedWasReported(limits: Limits, ops: seq<Operation>, session: string)
    requires session in Run(EMPTY, limits, ops).accounted
    ensures var acu := Run(EMPTY, limits, ops).accounted[session];
            acu == 0.0 || Record(session, acu) in ops
  {
    if ops != [] {
      var n := |ops| - 1;
      var before := Run(EMPTY, limits, ops[..n]);
      if session in before.accounted {
        AccountedWasReported(limits, ops[..n], session);
      }
      assert ops[n] in ops;
      assert forall op :: op in ops[..n] ==> op in ops;
    }
  }

  /** Recording the same usage again, or a smaller one, adds nothing. */
  lemma RecordingTwiceAddsNothing(a: Accounts, session: string, observed: real, again: real)
    requires again <= observed
    ensures Recorded(Recorded(a, session, observed), session, again) == Recorded(a, session, observed)
  {
    assert Recorded(a, session, observed).accounted[session := Max(AccountedFor(a, session), observed)]
        == Recorded(a, session, observed).accounted;
  }

  /** Once a reservation is refused for its projected usage, every later one of the run is refused. */
  lemma {:induction false} AcuRefusalIsPermanent(a: Accounts, limits: Limits, ops: seq<Operation>)
    requires a.totalAcu + limits.maxAcuLimit > limits.maxTotalAcu
    ensures Run(a, limits, ops).totalAcu >= a.totalAcu
    ensures CheckReserve(Run(a, limits, ops), limits).Some?
  {
    if ops != [] {
      AcuRefusalIsPermanent(a, limits, ops[..|ops| - 1]);
    }
  }

  /** `n` reservations, each given back because the response of its creation request was lost. */
  function LostResponses(n: nat): seq<Operation> {
    if n == 0 then [] else LostResponses(n - 1) + [Reserve, Release]
  }

  /** A lost response gives its reservation back although the session may exist: after any number of them
      the counter stands at zero and the next reservation is accepted. */
  lemma {:induction false} LostResponsesAreForgotten(limits: Limits, n: nat)
    requires limits.maxSessions > 0 && limits.maxAcuLimit <= limits.maxTotalAcu
    ensures Run(EMPTY, limits, LostResponses(n)) == EMPTY
    ensures CheckReserve(EMPTY, limits).None?
  {
    if n > 0 {
      LostResponsesAreForgotten(limits, n - 1);
      RunConcat(EMPTY, limits, LostResponses(n - 1), [Reserve, Release]);
      assert [Reserve, Release][..1] == [Reserve] && [Reserve][..0] == [];
      assert Run(EMPTY, limits, [Reserve]) == Reserved(EMPTY, limits);
      assert Run(EMPTY, limits, [Reserve, Release]) == Released(Reserved(EMPTY, limits));
    }
  }

  // ---- one session after the other ---------------------------------------------------------------

  /** One session's life: a reservation, then whatever usage its snapshots report. */
  datatype Life = Life(session: string, observations: seq<real>)

  function LifeOps(life: Life): seq<Operation> {
    [Reserve] +
      seq(|life.observations|, k requires 0 <= k < |life.observations| => Record(life.session, life.observations[k]))
  }

  /** The sessions of a run in sequence; a refused reservation ends the run's sessions. */
  function Live(a: Accounts, limits: Limits, lives: seq<Life>): Accounts {
    if lives == [] then a
    else
      var before := Live(a, limits, lives[..|lives| - 1]);
      if CheckReserve(before, limits).Some? then before
      else Run(before, limits, LifeOps(lives[|lives| - 1]))
  }

  lemma {:induction false} UsageOfOneSession(a: Accounts, limits: Limits, session: string, ops: seq<Operation>)
    requires AccountedFor(a, session) <= limits.maxAcuLimit
    requires forall op :: op in ops ==> op.Record? && op.session == session && op.observed <= limits.maxAcuLimit
    ensures var b := Run(a, limits, ops);
            && b.totalAcu - AccountedFor(b, session) == a.totalAcu - AccountedFor(a, session)
            && AccountedFor(b, session) <= limits.maxAcuLimit
            && forall other :: other != session ==> AccountedFor(b, other) == AccountedFor(a, other)
  {
    if ops != [] {
      UsageOfOneSession(a, limits, session, ops[..|ops| - 1]);
      assert ops[|ops| - 1] in ops;
    }
  }

  lemma {:induction false} RunConcat(a: Accounts, limits: Limits, first: seq<Operation>, rest: seq<Operation>)
    ensures Run(a, limits, first + rest) == Run(Run(a, limits, first), limits, rest)
  {
    if rest == [] {
      assert first + rest == first;
    } else {
      assert (first + rest)[..|first + rest| - 1] == first + rest[..|rest| - 1];
      RunConcat(a, limits, first, rest[..|rest| - 1]);
    }
  }

  ghost predicate WithinOwnLimits(a: Accounts, limits: Limits) {
    forall session :: 0.0 <= AccountedFor(a, session) <= limits.maxAcuLimit
  }

  /** When sessions run one after the other and none reports more than its own limit, the projected
      check is enough: the total never exceeds the run's ceiling. */
  lemma {:induction false} SequentialSessionsStayUnderCeiling(limits: Limits, lives: seq<Life>)
    requires limits.maxAcuLimit >= 0.0 && limits.maxTotalAcu >= 0.0
    requires forall life :: life in lives ==> forall acu :: acu in life.observations ==> acu <= limits.maxAcuLimit
    ensures Live(EMPTY, limits, lives).totalAcu <= limits.maxTotalAcu
    ensures WithinOwnLimits(Live(EMPTY, limits, lives), limits)
  {
    if lives != [] {
      var n := |lives| - 1;
      SequentialSessionsStayUnderCeiling(limits, lives[..n]);
      var before := Live(EMPTY, limits, lives[..n]);
      if CheckReserve(before, limits).None? {
        assert lives[n] in lives;
        OneLife(before, limits, lives[n]);
      }
    }
  }

  lemma OneLife(a: Accounts, limits: Limits, life: Life)
    requires WithinOwnLimits(a, limits) && CheckReserve(a, limits).None? && limits.maxAcuLimit >= 0.0
    requires forall acu :: acu in life.observations ==> acu <= limits.maxAcuLimit
    ensures WithinOwnLimits(Run(a, limits, LifeOps(life)), limits)
    ensures Run(a, limits, LifeOps(life)).totalAcu <= limits.maxTotalAcu
  {
    var records := LifeOps(life)[1..];
    var reserved := Reserved(a, limits);
    assert LifeOps(life) == [Reserve] + records;
    RunConcat(a, limits, [Reserve], records);
    assert Run(a, limits, [Reserve]) == reserved by {
      assert [Reserve][..0] == [];
    }
    assert AccountedFor(reserved, life.session) == AccountedFor(a, life.session);
    forall op | op in records ensures op.Record? && op.session == life.session && op.observed <= limits.maxAcuLimit {
      var k :| 0 <= k < |records| && records[k] == op;
      assert op == Record(life.session, life.observations[k]);
      assert life.observations[k] in life.observations;
    }
    UsageOfOneSession(reserved, limits, life.session, records);
    var b := Run(reserved, limits, records);
    forall session ensures 0.0 <= AccountedFor(b, session) <= limits.maxAcuLimit {
      assert AccountedFor(reserved, session) == AccountedFor(a, session);
      AccountedStaysPositive(reserved, limits, records, session);
    }
  }

  lemma {:induction false} AccountedStaysPositive(a: Accounts, limits: Limits, ops: seq<Operation>, session: string)
    requires AccountedFor(a, session) >= 0.0
    ensures AccountedFor(Run(a, limits, ops), session) >= 0.0
  {
    if ops != [] {
      AccountedStaysPositive(a, limits, ops[..|ops| - 1], session);
    }
  }

  /** What a run keeps to: the counter within its ceiling, the total the sum of the maxima, and the units
      within their ceiling as long as no session reported more than its own limit. */
  ghost predicate WithinCeilings(a: Accounts, limits: Limits) {
    && Balanced(a, limits)
    && (limits.maxTotalAcu >= 0.0 && (forall session <- a.accounted :: a.accounted[session] <= limits.maxAcuLimit) ==>
          a.totalAcu <= limits.maxTotalAcu)
  }

  /** There is room for one more session at its own limit. */
  predicate Roomy(a: Accounts, limits: Limits) {
    a.totalAcu + limits.maxAcuLimit <= limits.maxTotalAcu
  }

  lemma NothingSpent(limits: Limits)
    ensures WithinCeilings(EMPTY, limits)
  {}

  /** Reservations, given back or not, keep to the ceilings; one that is accepted leaves room for its session. */
  lemma CountingKeepsCeilings(a: Accounts, limits: Limits)
    requires WithinCeilings(a, limits)
    ensures WithinCeilings(Reserved(a, limits), limits) && WithinCeilings(Released(a), limits)
    ensures CheckReserve(a, limits).None? ==> Roomy(Reserved(a, limits), limits)
  {
    hide Sum;
  }

  /** The one session there was room for keeps to the ceilings whatever it reports. */
  lemma RecordingKeepsCeilings(a: Accounts, limits: Limits, session: string, observed: real)
    requires WithinCeilings(a, limits) && Roomy(a, limits)
    ensures WithinCeilings(Recorded(a, session, observed), limits)
  {
    hide Sum;
    ApplyKeepsBalance(a, limits, Record(session, observed));
    var b := Recorded(a, session, observed);
    if forall s <- b.accounted :: b.accounted[s] <= limits.maxAcuLimit {
      assert b.accounted[session] <= limits.maxAcuLimit;
    }
  }

  // ---- the new-session check of a retry -----------------------------------------------------------

  datatype RetryDecision = Proceed | FatalDedupeHit | ProceedIdDiffers

  function ResolveRetryDecision(attempt: int, sessionId: string, previous: Option<string>,
                                isNewSession: Option<bool>): RetryDecision
  {
    if attempt <= 1 || isNewSession == Some(true) then Proceed
    else if isNewSession == Some(false) then FatalDedupeHit
    else if previous == Some(sessionId) then FatalDedupeHit
    else ProceedIdDiffers
  }

  /** A retry is fatal exactly when the API says the session is old, or says nothing and returns the
      id of the attempt before. */
  lemma RetryIsFatalOnReuse(attempt: int, sessionId: string, previous: Option<string>, isNewSession: Option<bool>)
    ensures ResolveRetryDecision(attempt, sessionId, previous, isNewSession).FatalDedupeHit?
       <==> attempt > 1 && (isNewSession == Some(false) || (isNewSession.None? && previous == Some(sessionId)))
  {
    if isNewSession.Some? { assert isNewSession.value || !isNewSession.value; }
  }

  // ---- the client ----------------------------------------------------------------------------------

  /** The counters of one run. */
  class SessionClient {
    const limits: Limits
    var sessionCount: nat
    var totalAcu: real
    var accountedAcu: map<string, real>
    var previous: map<string, string>

    constructor (limits: Limits)
      ensures this.limits == limits && View() == EMPTY && previous == map[]
    {
      this.limits := limits;
      sessionCount, totalAcu, accountedAcu, previous := 0, 0.0, map[], map[];
    }

    function View(): Accounts
      reads this
    {
      Accounts(sessionCount, totalAcu, accountedAcu)
    }

    /** The session last accepted for a candidate. */
    function Previous(candidateId: string): Option<string>
      reads this
    {
      if candidateId in previous then Some(previous[candidateId]) else None
    }

    method ReserveSession() returns (refusal: Option<Refusal>)
      modifies this`sessionCount
      ensures refusal == CheckReserve(old(View()), limits)
      ensures View() == Apply(old(View()), limits, Reserve)
      ensures WithinCeilings(old(View()), limits) ==>
                WithinCeilings(View(), limits) && (refusal.None? ==> Roomy(View(), limits))
    {
      hide WithinCeilings;
      if WithinCeilings(View(), limits) {
        CountingKeepsCeilings(View(), limits);
      }
      if sessionCount >= limits.maxSessions {
        return Some(SessionCeiling);
      }
      if totalAcu + limits.maxAcuLimit > limits.maxTotalAcu {
        return Some(ProjectedAcuCeiling);
      }
      sessionCount := sessionCount + 1;
      return None;
    }

    method ReleaseSession()
      modifies this`sessionCount
      ensures View() == Apply(old(View()), limits, Release)
      ensures WithinCeilings(old(View()), limits) ==> WithinCeilings(View(), limits)
    {
      hide WithinCeilings;
      if WithinCeilings(View(), limits) {
        CountingKeepsCeilings(View(), limits);
      }
      if sessionCount > 0 {
        sessionCount := sessionCount - 1;
      }
    }

    /** Decide whether the created session may be used, and remember it if so. */
    method AcceptSession(candidateId: string, attempt: int, sessionId: string, isNewSession: Option<bool>)
      returns (decision: RetryDecision)
      modifies this`previous
      ensures decision == ResolveRetryDecision(attempt, sessionId, old(Previous(candidateId)), isNewSession)
      ensures previous == if decision.FatalDedupeHit? then old(previous) else old(previous)[candidateId := sessionId]
    {
      decision := ResolveRetryDecision(attempt, sessionId, Previous(candidateId), isNewSession);
      if !decision.FatalDedupeHit? {
        previous := previous[candidateId := sessionId];
      }
    }

    method RecordTerminalUsage(sessionId: string, observed: real) returns (refusal: Option<Refusal>)
      modifies this`totalAcu, this`accountedAcu
      ensures View() == Apply(old(View()), limits, Record(sessionId, observed))
      ensures refusal == CheckUsage(View(), limits, observed)
      ensures WithinCeilings(old(View()), limits) && Roomy(old(View()), limits) ==> WithinCeilings(View(), limits)
    {
      hide WithinCeilings;
      if WithinCeilings(View(), limits) && Roomy(View(), limits) {
        RecordingKeepsCeilings(View(), limits, sessionId, observed);
      }
      var accounted := if sessionId in accountedAcu then accountedAcu[sessionId] else 0.0;
      var delta := Max(observed - accounted, 0.0);
      accountedAcu := accountedAcu[sessionId := Max(accounted, observed)];
      totalAcu := totalAcu + delta;
      if observed > limits.maxAcuLimit {
        return Some(SessionOverLimit);
      }
      if totalAcu > limits.maxTotalAcu {
        return Some(TotalAcuCeiling);
      }
      return None;
    }
  }
}
