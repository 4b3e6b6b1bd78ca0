/**
 Per-run dispatch decisions (src/pipeline/dispatch.py). The loop decides candidates in one sorted pass with
 a budget counter; the specification `Decision` never mentions order or counters: who opens a pull request
 is a matter of rank among the eligible, and a nested candidate follows the root of its chain.
 */
module Dispatch {
  import opened Wrappers
  import opened Schemas
  import opened Containment
  import opened Ranking

  datatype DispatchConfig = DispatchConfig(
    tierHighMin: real,
    tierMediumMin: real,
    onlyLanes: seq<Lane>,
    budgetN: nat)

  datatype DispatchError =
    | BadContainment(error: ContainmentError)
    | NoGateRoute(reason: ReasonCode)
    | Unscored(candidateId: string)

  predicate HumanRouted(r: ReasonCode) {
    r.ClassScopeTooBroad? || r.ClassBreadthUnknown? || r == ReasonCode.BlockedByEnclosingSkip
    || r.PublicApiSurface? || r.InternalCaller?
  }

  predicate Dropped(r: ReasonCode) {
    r.OutOfScopeFrontend? || r.NotEol? || r.TriggerMissing? || r.AutomatabilityLow? || r.VerifiabilityMissing?
  }

  function TierForScore(score: real, config: DispatchConfig): Tier {
    if score >= config.tierHighMin then High
    else if score >= config.tierMediumMin then Medium
    else Low
  }

  function WithLabel(labels: seq<string>, name: string): seq<string> {
    if name in labels then labels else labels + [name]
  }

  /** The dispatcher changes its own columns only. */
  predicate SameArtifacts(a: Candidate, b: Candidate) {
    b == a.(tier := b.tier, action := b.action, state := b.state, reason := b.reason, labels := b.labels,
            gatePassed := b.gatePassed, failedGate := b.failedGate, relatedCandidateId := b.relatedCandidateId)
  }

  // ---- single decisions --------------------------------------------------------------------------

  function BlockedChild(c: Candidate): Candidate {
    c.(action := Some(HumanReview), state := CandidateState.BlockedByEnclosingSkip, gatePassed := Some(false),
       failedGate := Some(Automatability), reason := Some(ReasonCode.BlockedByEnclosingSkip),
       labels := WithLabel(c.labels, NEEDS_HUMAN_REVIEW_LABEL))
  }

  function SuppressedChild(c: Candidate): Candidate {
    c.(action := Some(Action.Deferred), state := CandidateState.SuppressedByContainment,
       reason := Some(ReasonCode.SuppressedByContainment))
  }

  function GateReason(c: Candidate): Option<ReasonCode> {
    if c.reason.Some? then c.reason else if c.failedGate.Some? then c.failedGateReason else None
  }

  /** The route of a candidate no gate let through; other reasons have none. */
  function GatedOut(c: Candidate): Result<Candidate, DispatchError> {
    var reason := GateReason(c);
    if reason.Some? && HumanRouted(reason.value) then
      Success(c.(action := Some(HumanReview), state := Gated, reason := reason,
                 labels := WithLabel(c.labels, NEEDS_HUMAN_REVIEW_LABEL)))
    else if reason.Some? && !Dropped(reason.value) then
      Failure(NoGateRoute(reason.value))
    else
      Success(c.(action := Some(LogOnly), state := CandidateState.Terminal, reason := reason))
  }

  predicate InScope(c: Candidate, config: DispatchConfig) {
    config.onlyLanes == [] || c.lane in config.onlyLanes
  }

  /** The decision on an un-nested candidate, given whether the budget has room for it. */
  function RootDecision(c: Candidate, config: DispatchConfig, room: bool): Result<Candidate, DispatchError> {
    if c.gatePassed != Some(true) then GatedOut(c)
    else if c.score.None? || c.risk.None? then Failure(Unscored(c.candidateId))
    else
      var tier := TierForScore(c.score.value, config);
      if tier.Low? then
        Success(Ruled(c, tier, LogOnly, CandidateState.Terminal, c.reason, c.labels))
      else if tier.High? && !InScope(c, config) then
        Success(Ruled(c, tier, Action.Deferred, CandidateState.Deferred, Some(OutOfDispatchScope), c.labels))
      else if tier.High? && !room then
        Success(Ruled(c, tier, Action.Deferred, CandidateState.Deferred, Some(BudgetOverflow), c.labels))
      else
        Success(Ruled(c, tier, if tier.High? then OpenPr else OpenIssue, CandidateState.Dispatching, c.reason,
                      if tier.High? && c.risk.value >= 3 then WithLabel(c.labels, NEEDS_HUMAN_REVIEW_LABEL)
                      else c.labels))
  }

  function Ruled(c: Candidate, tier: Tier, action: Action, state: CandidateState, reason: Option<ReasonCode>,
                 labels: seq<string>): (d: Candidate)
    ensures SameArtifacts(c, d)
  {
    c.(tier := Some(tier), action := Some(action), state := state, reason := reason, labels := labels)
  }

  // ---- the specification ---------------------------------------------------------------------------

  /** Un-nested, gate-passed, high-tier and in scope: what competes for the budget. */
  predicate Eligible(c: Candidate, config: DispatchConfig) {
    && !Nested(c) && c.gatePassed == Some(true) && c.score.Some? && c.risk.Some?
    && TierForScore(c.score.value, config).High? && InScope(c, config)
  }

  ghost function Eligibles(all: set<Candidate>, config: DispatchConfig): set<Candidate> {
    set c | c in all && Eligible(c, config)
  }

  /** The candidates that get a pull request: the best `budgetN` of the eligible. */
  ghost function Chosen(all: set<Candidate>, config: DispatchConfig): set<Candidate> {
    Top(Eligibles(all, config), config.budgetN)
  }

  predicate Routable(c: Candidate) {
    !Nested(c) ==>
      if c.gatePassed == Some(true) then c.score.Some? && c.risk.Some?
      else GateReason(c).Some? ==> HumanRouted(GateReason(c).value) || Dropped(GateReason(c).value)
  }

  /** Nothing in these rows makes the dispatcher raise. */
  ghost predicate Dispatchable(all: set<Candidate>) {
    UniqueNodeids(all) && Forest(all) && forall c :: c in all ==> Routable(c)
  }

  ghost predicate ChildOf(all: set<Candidate>, child: Candidate, c: Candidate) {
    child in all && Parent(all, child) == Some(c)
  }

  /** The best-ranked candidate directly inside `c`. */
  ghost predicate FirstChild(all: set<Candidate>, child: Candidate, c: Candidate) {
    && ChildOf(all, child, c)
    && forall other :: ChildOf(all, other, c) && other != child ==> Better(child, other)
  }

  /** Fewer than `budgetN` eligible candidates rank above `c`. */
  ghost predicate HasRoom(all: set<Candidate>, config: DispatchConfig, c: Candidate) {
    |Ahead(Eligibles(all, config), c)| < config.budgetN
  }

  lemma RoutableIsDecided(c: Candidate, config: DispatchConfig, room: bool)
    requires !Nested(c)
    ensures RootDecision(c, config, room).Success? <==> Routable(c)
  {}

  /** The decision before a child is linked to it. */
  ghost function Verdict(all: set<Candidate>, config: DispatchConfig, c: Candidate): Candidate
    requires Forest(all) && c in all && Routable(c)
  {
    if Nested(c) then
      ParentIsOneUp(all, c);
      var d := if Root(all, c) in Chosen(all, config) then SuppressedChild(c) else BlockedChild(c);
      d.(relatedCandidateId := Some(Parent(all, c).value.candidateId))
    else
      RoutableIsDecided(c, config, HasRoom(all, config, c));
      RootDecision(c, config, HasRoom(all, config, c)).value
  }

  /** `d` is what dispatch decides for `c`; a decision without a link is linked to its first child. */
  ghost predicate Decides(all: set<Candidate>, config: DispatchConfig, c: Candidate, d: Candidate)
    requires Forest(all) && c in all && Routable(c)
  {
    var v := Verdict(all, config, c);
    && d == v.(relatedCandidateId := d.relatedCandidateId)
    && (v.relatedCandidateId.Some? ==> d.relatedCandidateId == v.relatedCandidateId)
    && (v.relatedCandidateId.None? ==>
          if exists child :: ChildOf(all, child, c)
          then exists child :: FirstChild(all, child, c) && d.relatedCandidateId == Some(child.candidateId)
          else d.relatedCandidateId.None?)
  }

  // ---- the loop ---------------------------------------------------------------------------------

  /** The rows in the order the loop decides them. */
  ghost predicate Arranged(all: set<Candidate>, depths: map<string, nat>, order: seq<Candidate>) {
    && UniqueIds(all) && UniqueNodeids(all) && Forest(all)
    && Measured(depths, order) && Sorted(depths, order)
    && (forall c :: c in order <==> c in all)
    && (forall c :: c in order ==> depths[c.candidateId] == Depth(all, c))
  }

  /** The first child of `c` among the candidates decided so far. */
  ghost function LinkIn(all: set<Candidate>, done: seq<Candidate>, c: Candidate): (child: Option<Candidate>)
    ensures child.Some? ==> child.value in done && Parent(all, child.value) == Some(c)
    ensures child.None? ==> forall x :: x in done ==> Parent(all, x) != Some(c)
  {
    if done == [] then None
    else
      var n := |done| - 1;
      var earlier := LinkIn(all, done[..n], c);
      if earlier.Some? then earlier
      else if Parent(all, done[n]) == Some(c) then Some(done[n])
      else None
  }

  /** The decision on `c` once the candidates in `done` are decided. */
  ghost function DecisionSoFar(all: set<Candidate>, config: DispatchConfig, done: seq<Candidate>,
                               c: Candidate): Candidate
    requires Forest(all) && c in all && Routable(c)
  {
    var v := Verdict(all, config, c);
    var link := LinkIn(all, done, c);
    if v.relatedCandidateId.None? && link.Some? then v.(relatedCandidateId := Some(link.value.candidateId)) else v
  }

  lemma LinkInAppend(all: set<Candidate>, done: seq<Candidate>, next: Candidate, c: Candidate)
    ensures LinkIn(all, done + [next], c) ==
              var earlier := LinkIn(all, done, c);
              if earlier.Some? then earlier else if Parent(all, next) == Some(c) then Some(next) else None
  {
    assert (done + [next])[..|done|] == done;
  }

  /** In depth order, the first child met is the best-ranked one. */
  lemma {:induction false} FirstLinkIsBest(all: set<Candidate>, depths: map<string, nat>, order: seq<Candidate>,
                                           n: nat, c: Candidate)
    requires Arranged(all, depths, order) && n <= |order|
    ensures var link := LinkIn(all, order[..n], c);
            link.Some? ==>
              forall x :: x in order[..n] && Parent(all, x) == Some(c) && x != link.value ==> Better(link.value, x)
  {
    hide LinkIn, Parent, Arranged;
    if n > 0 {
      FirstLinkIsBest(all, depths, order, n - 1, c);
      assert order[..n] == order[..n - 1] + [order[n - 1]];
      LinkInAppend(all, order[..n - 1], order[n - 1], c);
      var link := LinkIn(all, order[..n - 1], c);
      var x := order[n - 1];
      if link.Some? && Parent(all, x) == Some(c) {
        var i :| 0 <= i < n - 1 && order[i] == link.value;
        EarlierSiblingIsBetter(all, depths, order, i, n - 1, c);
      }
    }
  }

  lemma EarlierSiblingIsBetter(all: set<Candidate>, depths: map<string, nat>, order: seq<Candidate>, i: nat, j: nat,
                               c: Candidate)
    requires Arranged(all, depths, order) && i < j < |order|
    requires Parent(all, order[i]) == Some(c) && Parent(all, order[j]) == Some(c)
    ensures Better(order[i], order[j])
  {
    hide Parent, Depth, Root, Better;
    ParentIsOneUp(all, order[i]) by { ChildIsNested(all, order[i]); }
    ParentIsOneUp(all, order[j]) by { ChildIsNested(all, order[j]); }
    assert Before(depths, order[i], order[j]);
  }

  lemma ChildIsNested(all: set<Candidate>, c: Candidate)
    requires Parent(all, c).Some?
    ensures Nested(c)
  {}

  /** After the last candidate the running decision is the specified one. */
  lemma FinalDecision(all: set<Candidate>, config: DispatchConfig, depths: map<string, nat>, order: seq<Candidate>,
                      c: Candidate)
    requires Arranged(all, depths, order) && c in all && Routable(c)
    ensures Decides(all, config, c, DecisionSoFar(all, config, order, c))
  {
    hide Verdict, Parent, Root, Depth, LinkIn, Sorted, Measured, UniqueIds, UniqueNodeids;
    assert order[..|order|] == order;
    FirstLinkIsBest(all, depths, order, |order|, c);
    var link := LinkIn(all, order, c);
    if link.Some? {
      assert FirstChild(all, link.value, c);
    }
  }

  /** The eligible candidates among the first `n` are those ahead of an un-nested `order[n]`. */
  lemma AheadIsPrefix(all: set<Candidate>, config: DispatchConfig, depths: map<string, nat>, order: seq<Candidate>,
                      n: nat)
    requires Arranged(all, depths, order) && n < |order|
    requires !Nested(order[n])
    ensures Ahead(Eligibles(all, config), order[n]) == Eligibles(Rows(order[..n]), config)
  {
    var c := order[n];
    RootOfUnnested(all, c);
    forall e | e in all && Eligible(e, config) ensures Better(e, c) <==> e in order[..n] {
      RootOfUnnested(all, e);
      var j :| 0 <= j < |order| && order[j] == e;
      SortedPosition(depths, order, j, n);
      if e in order[..n] {
        var i :| 0 <= i < n && order[i] == e;
        SortedPosition(depths, order, i, n);
      }
    }
  }

  /** Parents are decided before their children. */
  lemma ParentIsDecided(all: set<Candidate>, depths: map<string, nat>, order: seq<Candidate>, n: nat)
    requires Arranged(all, depths, order) && n < |order|
    requires Nested(order[n])
    ensures Parent(all, order[n]).Some? && Parent(all, order[n]).value in order[..n]
  {
    var c := order[n];
    ParentIsOneUp(all, c);
    var p := Parent(all, c).value;
    var j :| 0 <= j < |order| && order[j] == p;
    SortedPosition(depths, order, j, n);
    assert Before(depths, p, c);
  }

  /** What a parent's decision says about the root of its chain. */
  predicate Supports(d: Candidate) {
    (d.action == Some(OpenPr) && d.tier == Some(High)) || d.state == CandidateState.SuppressedByContainment
  }

  lemma SupportFollowsRoot(all: set<Candidate>, config: DispatchConfig, p: Candidate)
    requires Forest(all) && p in all && Routable(p)
    ensures Supports(Verdict(all, config, p)) <==> Root(all, p) in Chosen(all, config)
  {
    hide RootDecision, Eligible, Root, Top, Ahead;
    if Nested(p) {
      ParentIsOneUp(all, p);
    } else {
      RootOfUnnested(all, p);
      ChosenMeansRoom(all, config, p);
      RoutableIsDecided(p, config, HasRoom(all, config, p));
      OpenPrMeansEligible(p, config, HasRoom(all, config, p));
    }
  }

  lemma ChosenMeansRoom(all: set<Candidate>, config: DispatchConfig, c: Candidate)
    requires c in all
    ensures c in Chosen(all, config) <==> Eligible(c, config) && HasRoom(all, config, c)
  {}

  /** An un-nested candidate gets a pull request exactly when it is eligible and there is room. */
  lemma OpenPrMeansEligible(c: Candidate, config: DispatchConfig, room: bool)
    requires !Nested(c) && RootDecision(c, config, room).Success?
    ensures var d := RootDecision(c, config, room).value;
            && (d.action == Some(OpenPr) <==> Eligible(c, config) && room)
            && (d.action == Some(OpenPr) ==> d.tier == Some(High) && d.state.Dispatching?)
            && d.state != CandidateState.SuppressedByContainment
  {
    hide GatedOut, InScope, TierForScore, WithLabel, SameArtifacts;
    if c.gatePassed != Some(true) {
      GatedOutKeepsArtifacts(c);
    }
  }

  lemma GatedOutKeepsArtifacts(c: Candidate)
    requires GatedOut(c).Success?
    ensures var d := GatedOut(c).value;
            SameArtifacts(c, d)
            && (d.action == Some(LogOnly) || d.action == Some(HumanReview))
            && (d.state.Gated? || d.state.Terminal?)
  {}

  /** After `n` candidates the table holds the running decision on each of them. */
  ghost predicate DecidedUpTo(all: set<Candidate>, config: DispatchConfig, order: seq<Candidate>, n: nat,
                              decisions: map<string, Candidate>)
    requires Forest(all) && n <= |order| && forall c :: c in order <==> c in all
  {
    forall j :: 0 <= j < n ==>
         && Routable(order[j]) && order[j].candidateId in decisions
         && decisions[order[j].candidateId] == DecisionSoFar(all, config, order[..n], order[j])
  }

  lemma OrderHasNoRepeats(all: set<Candidate>, depths: map<string, nat>, order: seq<Candidate>, i: nat, j: nat)
    requires Arranged(all, depths, order) && i < |order| && j < |order| && order[i].candidateId == order[j].candidateId
    ensures i == j
  {
    assert order[i] == order[j];
    SortedPosition(depths, order, i, j);
    SortedPosition(depths, order, j, i);
  }

  /** A candidate is decided before any of its children, so it has no link yet. */
  lemma NoLinkYet(all: set<Candidate>, depths: map<string, nat>, order: seq<Candidate>, n: nat)
    requires Arranged(all, depths, order) && n < |order|
    ensures LinkIn(all, order[..n], order[n]).None? && Parent(all, order[n]) != Some(order[n])
  {
    forall i | 0 <= i <= n ensures Parent(all, order[i]) != Some(order[n]) {
      if Nested(order[i]) {
        ParentIsDecided(all, depths, order, i);
        var k :| 0 <= k < i && order[k] == Parent(all, order[i]).value;
        if order[k] == order[n] {
          OrderHasNoRepeats(all, depths, order, k, n);
        }
      }
    }
  }

  /** The parent's decision, linked to its first child. */
  function Linked(d: Candidate, child: Candidate): Candidate {
    if d.relatedCandidateId.None? then d.(relatedCandidateId := Some(child.candidateId)) else d
  }

  /** Deciding one more candidate touches its parent's decision only. */
  lemma NextLinks(all: set<Candidate>, config: DispatchConfig, done: seq<Candidate>, next: Candidate, c: Candidate)
    requires Forest(all) && c in all && Routable(c)
    ensures var d := DecisionSoFar(all, config, done, c);
            DecisionSoFar(all, config, done + [next], c) == if Parent(all, next) == Some(c) then Linked(d, next) else d
  {
    hide Verdict, LinkIn, Parent;
    LinkInAppend(all, done, next, c);
  }

  lemma NoLinkNoChange(all: set<Candidate>, config: DispatchConfig, done: seq<Candidate>, c: Candidate)
    requires Forest(all) && c in all && Routable(c) && LinkIn(all, done, c).None?
    ensures DecisionSoFar(all, config, done, c) == Verdict(all, config, c)
  {}

  lemma ForestOf(all: set<Candidate>, depths: map<string, nat>, order: seq<Candidate>, n: nat)
    requires Arranged(all, depths, order) && n < |order|
    ensures Forest(all) && order[n] in all
  {}

  lemma NewcomerIsUnlinked(all: set<Candidate>, config: DispatchConfig, depths: map<string, nat>,
                           order: seq<Candidate>, n: nat)
    requires Arranged(all, depths, order) && n < |order| && Routable(order[n])
    ensures DecisionSoFar(all, config, order[..n + 1], order[n]) == Verdict(all, config, order[n])
  {
    hide Verdict, Parent, LinkIn, DecisionSoFar, Arranged, Forest, Routable;
    ForestOf(all, depths, order, n);
    NoLinkYet(all, depths, order, n);
    NoLinkNoChange(all, config, order[..n], order[n]);
    NextLinks(all, config, order[..n], order[n], order[n]);
    assert order[..n + 1] == order[..n] + [order[n]];
  }

  lemma NewcomerHasNewId(all: set<Candidate>, depths: map<string, nat>, order: seq<Candidate>, n: nat)
    requires Arranged(all, depths, order) && n < |order|
    ensures forall j :: 0 <= j < n ==> order[j].candidateId != order[n].candidateId
    ensures Forest(all) && forall j :: 0 <= j < |order| ==> order[j] in all
  {
    forall j | 0 <= j < n ensures order[j].candidateId != order[n].candidateId {
      if order[j].candidateId == order[n].candidateId {
        OrderHasNoRepeats(all, depths, order, j, n);
      }
    }
  }

  lemma DecidedRoot(all: set<Candidate>, config: DispatchConfig, depths: map<string, nat>, order: seq<Candidate>,
                    n: nat, decisions: map<string, Candidate>, d: Candidate)
    requires Arranged(all, depths, order) && n < |order| && DecidedUpTo(all, config, order, n, decisions)
    requires !Nested(order[n]) && Routable(order[n]) && d == Verdict(all, config, order[n])
    ensures DecidedUpTo(all, config, order, n + 1, decisions[order[n].candidateId := d])
  {
    hide Verdict, LinkIn, Parent, DecisionSoFar, Arranged, Forest;
    var c := order[n];
    NewcomerIsUnlinked(all, config, depths, order, n);
    NewcomerHasNewId(all, depths, order, n);
    assert order[..n + 1] == order[..n] + [c];
    UnnestedHasNoParent(all, c);
    forall j | 0 <= j < n
      ensures DecisionSoFar(all, config, order[..n + 1], order[j]) == DecisionSoFar(all, config, order[..n], order[j])
    {
      NextLinks(all, config, order[..n], c, order[j]);
    }
  }

  lemma UnnestedHasNoParent(all: set<Candidate>, c: Candidate)
    requires !Nested(c)
    ensures Parent(all, c).None?
  {}

  lemma DecidedChild(all: set<Candidate>, config: DispatchConfig, depths: map<string, nat>, order: seq<Candidate>,
                     n: nat, decisions: map<string, Candidate>, p: Candidate, d: Candidate)
    requires Arranged(all, depths, order) && n < |order| && DecidedUpTo(all, config, order, n, decisions)
    requires Nested(order[n]) && d == Verdict(all, config, order[n])
    requires Parent(all, order[n]) == Some(p) && p in all && p.candidateId in decisions
    ensures DecidedUpTo(all, config, order, n + 1,
              decisions[p.candidateId := Linked(decisions[p.candidateId], order[n])][order[n].candidateId := d])
  {
    hide Verdict, LinkIn, Parent, DecisionSoFar, Linked, Arranged, Forest;
    var c := order[n];
    NewcomerIsUnlinked(all, config, depths, order, n);
    NewcomerHasNewId(all, depths, order, n);
    assert order[..n + 1] == order[..n] + [c];
    forall j | 0 <= j < n
      ensures DecisionSoFar(all, config, order[..n + 1], order[j]) ==
                if order[j].candidateId == p.candidateId then Linked(decisions[p.candidateId], c)
                else decisions[order[j].candidateId]
    {
      NextLinks(all, config, order[..n], c, order[j]);
      SameIdSameRow(all, depths, order, order[j], p);
    }
  }

  lemma SameIdSameRow(all: set<Candidate>, depths: map<string, nat>, order: seq<Candidate>, a: Candidate, b: Candidate)
    requires Arranged(all, depths, order) && a in all && b in all
    ensures a.candidateId == b.candidateId <==> a == b
  {}

  /** The first row with this node. */
  function RowAtNode(source: seq<Candidate>, nodeid: Option<string>): Option<Candidate> {
    if source == [] then None
    else if source[0].nodeid == nodeid then Some(source[0])
    else RowAtNode(source[1..], nodeid)
  }

  lemma {:induction false} RowAtNodeFinds(source: seq<Candidate>, nodeid: Option<string>)
    ensures var r := RowAtNode(source, nodeid);
            if r.Some? then r.value in source && r.value.nodeid == nodeid
            else forall c :: c in source ==> c.nodeid != nodeid
  {
    if source != [] {
      RowAtNodeFinds(source[1..], nodeid);
    }
  }

  lemma RowAtNodeIsParent(source: seq<Candidate>, c: Candidate)
    requires UniqueNodeids(Rows(source)) && Nested(c)
    ensures RowAtNode(source, c.enclosingSkipNodeid) == Parent(Rows(source), c)
  {
    RowAtNodeFinds(source, c.enclosingSkipNodeid);
  }

  /** The budget spent after `n` candidates. */
  ghost predicate Spent(config: DispatchConfig, order: seq<Candidate>, n: nat, dispatched: nat)
    requires n <= |order|
  {
    var eligible := |Eligibles(Rows(order[..n]), config)|;
    dispatched == if eligible < config.budgetN then eligible else config.budgetN
  }

  lemma RoomMeansBudget(all: set<Candidate>, config: DispatchConfig, depths: map<string, nat>, order: seq<Candidate>,
                        n: nat, dispatched: nat)
    requires Arranged(all, depths, order) && n < |order| && Spent(config, order, n, dispatched)
    ensures !Nested(order[n]) ==> (dispatched < config.budgetN <==> HasRoom(all, config, order[n]))
    ensures Spent(config, order, n + 1,
              if Eligible(order[n], config) && dispatched < config.budgetN then dispatched + 1 else dispatched)
  {
    hide Eligible, HasRoom, Arranged, Eligibles, Ahead;
    var c := order[n];
    if !Nested(c) {
      RoomIsPrefix(all, config, depths, order, n);
    }
    NewcomerHasNewId(all, depths, order, n);
    EligiblePrefixGrows(config, order, n);
    if Eligible(c, config) {
      EligibleIsUnnested(c, config);
    }
  }

  lemma EligibleIsUnnested(c: Candidate, config: DispatchConfig)
    requires Eligible(c, config)
    ensures !Nested(c)
  {}

  lemma RoomIsPrefix(all: set<Candidate>, config: DispatchConfig, depths: map<string, nat>, order: seq<Candidate>,
                     n: nat)
    requires Arranged(all, depths, order) && n < |order| && !Nested(order[n])
    ensures HasRoom(all, config, order[n]) <==> |Eligibles(Rows(order[..n]), config)| < config.budgetN
  {
    AheadIsPrefix(all, config, depths, order, n);
  }

  lemma EligiblePrefixGrows(config: DispatchConfig, order: seq<Candidate>, n: nat)
    requires n < |order| && forall j :: 0 <= j < n ==> order[j].candidateId != order[n].candidateId
    ensures |Eligibles(Rows(order[..n + 1]), config)| ==
            |Eligibles(Rows(order[..n]), config)| + if Eligible(order[n], config) then 1 else 0
  {
    hide Eligible;
    var c := order[n];
    assert order[..n + 1] == order[..n] + [c];
    assert c !in Rows(order[..n]);
    assert Eligibles(Rows(order[..n + 1]), config) ==
           Eligibles(Rows(order[..n]), config) + if Eligible(c, config) then {c} else {};
  }

  lemma SomeRowNotRoutable(all: set<Candidate>, c: Candidate)
    requires c in all && !Routable(c)
    ensures !Dispatchable(all)
  {}

  lemma Arrange(source: seq<Candidate>, depths: map<string, nat>)
    requires DistinctIds(source) && UniqueNodeids(Rows(source)) && Forest(Rows(source))
    requires Measured(depths, source)
    requires forall c :: c in Rows(source) ==> depths[c.candidateId] == Depth(Rows(source), c)
    ensures Arranged(Rows(source), depths, Ordered(depths, source))
  {
    DistinctMeansUnique(source);
    OrderedIsSorted(depths, source);
  }

  /** The decision on a nested candidate, from its parent's. */
  lemma ChildFollowsParent(all: set<Candidate>, config: DispatchConfig, depths: map<string, nat>,
                           order: seq<Candidate>, n: nat, decisions: map<string, Candidate>, p: Candidate)
    requires Arranged(all, depths, order) && n < |order| && DecidedUpTo(all, config, order, n, decisions)
    requires Nested(order[n]) && Parent(all, order[n]) == Some(p)
    ensures p in all && p.candidateId in decisions
    ensures Routable(order[n])
    ensures var child :=
              if Supports(decisions[p.candidateId]) then SuppressedChild(order[n]) else BlockedChild(order[n]);
            child.(relatedCandidateId := Some(p.candidateId)) == Verdict(all, config, order[n])
  {
    hide Top, Ahead, Eligibles, Root, Depth, Sorted;
    ParentIsDecided(all, depths, order, n);
    var j :| 0 <= j < n && order[j] == p;
    SupportFollowsRoot(all, config, p);
    ParentIsOneUp(all, order[n]);
  }

  lemma NothingDecided(all: set<Candidate>, config: DispatchConfig, depths: map<string, nat>, order: seq<Candidate>)
    requires Arranged(all, depths, order)
    ensures Forest(all) && forall c :: c in order <==> c in all
    ensures DecidedUpTo(all, config, order, 0, map[]) && Spent(config, order, 0, 0)
  {
    assert Eligibles(Rows(order[..0]), config) == {};
  }

  lemma RootVerdict(all: set<Candidate>, config: DispatchConfig, c: Candidate)
    requires Forest(all) && c in all && !Nested(c) && Routable(c)
    ensures RootDecision(c, config, HasRoom(all, config, c)).Success?
    ensures Verdict(all, config, c) == RootDecision(c, config, HasRoom(all, config, c)).value
  {
    hide RootDecision, HasRoom;
    RoutableIsDecided(c, config, HasRoom(all, config, c));
  }

  lemma AllDecided(all: set<Candidate>, config: DispatchConfig, depths: map<string, nat>, order: seq<Candidate>,
                   decisions: map<string, Candidate>)
    requires Arranged(all, depths, order) && DecidedUpTo(all, config, order, |order|, decisions)
    ensures Dispatchable(all)
    ensures forall c :: c in all ==> c.candidateId in decisions && Decides(all, config, c, decisions[c.candidateId])
  {
    hide Decides, DecisionSoFar, Verdict, Sorted, Depth, Root;
    assert order[..|order|] == order;
    forall c | c in all
      ensures Routable(c)
      ensures c.candidateId in decisions && decisions[c.candidateId] == DecisionSoFar(all, config, order, c)
    {
      var j :| 0 <= j < |order| && order[j] == c;
    }
    forall c | c in all ensures Decides(all, config, c, DecisionSoFar(all, config, order, c)) {
      FinalDecision(all, config, depths, order, c);
    }
  }

  /** Decide a nested candidate and link its parent to it. */
  method DecideNested(source: seq<Candidate>, ghost config: DispatchConfig, ghost depths: map<string, nat>,
                      order: seq<Candidate>, n: nat, decisions: map<string, Candidate>)
    returns (updated: map<string, Candidate>)
    requires Arranged(Rows(source), depths, order) && n < |order|
    requires DecidedUpTo(Rows(source), config, order, n, decisions) && Nested(order[n])
    ensures DecidedUpTo(Rows(source), config, order, n + 1, updated)
  {
    hide Verdict, Parent, Arranged, DecidedUpTo, Routable, Supports, Linked, SuppressedChild, BlockedChild, Rows;
    var c := order[n];
    var parent := RowAtNode(source, c.enclosingSkipNodeid);
    ParentRow(source, depths, order, n);
    ChildFollowsParent(Rows(source), config, depths, order, n, decisions, parent.value);
    var p := parent.value.candidateId;
    var child := if Supports(decisions[p]) then SuppressedChild(c) else BlockedChild(c);
    child := child.(relatedCandidateId := Some(p));
    DecidedChild(Rows(source), config, depths, order, n, decisions, parent.value, child);
    updated := decisions[p := Linked(decisions[p], c)];
    updated := updated[c.candidateId := child];
  }

  lemma ParentRow(source: seq<Candidate>, depths: map<string, nat>, order: seq<Candidate>, n: nat)
    requires Arranged(Rows(source), depths, order) && n < |order| && Nested(order[n])
    ensures RowAtNode(source, order[n].enclosingSkipNodeid).Some?
    ensures RowAtNode(source, order[n].enclosingSkipNodeid) == Parent(Rows(source), order[n])
  {
    RowAtNodeIsParent(source, order[n]);
    ParentIsDecided(Rows(source), depths, order, n);
  }

  /** Decide an un-nested candidate, and spend the budget if it gets a pull request. */
  method DecideUnnested(ghost all: set<Candidate>, config: DispatchConfig, ghost depths: map<string, nat>,
                        order: seq<Candidate>, n: nat, decisions: map<string, Candidate>, dispatched: nat)
    returns (r: Result<(map<string, Candidate>, nat), DispatchError>)
    requires Arranged(all, depths, order) && n < |order| && Spent(config, order, n, dispatched)
    requires Forest(all) && forall c :: c in order <==> c in all
    requires DecidedUpTo(all, config, order, n, decisions) && !Nested(order[n])
    ensures r.Success? ==> DecidedUpTo(all, config, order, n + 1, r.value.0) && Spent(config, order, n + 1, r.value.1)
    ensures r.Failure? ==> !r.error.BadContainment? && !Dispatchable(all)
  {
    hide Verdict, Arranged, DecidedUpTo, Routable, Spent, Eligible, HasRoom, Forest;
    var c := order[n];
    RoomMeansBudget(all, config, depths, order, n, dispatched);
    var room := dispatched < config.budgetN;
    var decision := RootDecision(c, config, room);
    RoutableIsDecided(c, config, room);
    if decision.Failure? {
      SomeRowNotRoutable(all, c);
      return Failure(decision.error);
    }
    hide RootDecision;
    OpenPrMeansEligible(c, config, room);
    RootVerdict(all, config, c);
    DecidedRoot(all, config, depths, order, n, decisions, decision.value);
    r := Success((decisions[c.candidateId := decision.value],
                  if decision.value.action == Some(OpenPr) then dispatched + 1 else dispatched));
  }

  /** Dispatch the rows deterministically, deferring what the budget has no room for. */
  method DispatchCandidates(source: seq<Candidate>, config: DispatchConfig)
    returns (r: Result<seq<Candidate>, DispatchError>)
    requires DistinctNodeids(source) ==> DistinctIds(source)
    ensures r.Success? <==> DistinctNodeids(source) && Dispatchable(Rows(source))
    ensures r.Success? ==>
              && |r.value| == |source|
              && forall k :: 0 <= k < |source| ==> Decides(Rows(source), config, source[k], r.value[k])
    ensures r.Failure? ==> (r.error.BadContainment? <==> !DistinctNodeids(source) || !Forest(Rows(source)))
  {
    hide Arranged, DecidedUpTo, Routable, Spent, Decides, Forest, UniqueNodeids, RootDecision, DistinctIds,
         DistinctNodeids, Dispatchable;
    ghost var all := Rows(source);
    var measured := ContainmentDepths(source);
    if measured.Failure? {
      BadContainmentIsRefused(source);
      return Failure(BadContainment(measured.error));
    }
    var depths := measured.value;
    var order := Sort(source, depths);
    hide Rows, Depth;
    var decisions: map<string, Candidate> := map[];
    var dispatched := 0;
    NothingDecided(all, config, depths, order);
    for n := 0 to |order|
      invariant DecidedUpTo(all, config, order, n, decisions) && Spent(config, order, n, dispatched)
    {
      if Nested(order[n]) {
        SpentOnNested(all, config, depths, order, n, dispatched);
        decisions := DecideNested(source, config, depths, order, n, decisions);
      } else {
        var decided := DecideUnnested(all, config, depths, order, n, decisions, dispatched);
        if decided.Failure? {
          return Failure(decided.error);
        }
        decisions, dispatched := decided.value.0, decided.value.1;
      }
    }
    AllDecided(all, config, depths, order, decisions);
    r := Success(seq(|source|, k requires 0 <= k < |source| => decisions[source[k].candidateId]));
  }

  lemma BadContainmentIsRefused(source: seq<Candidate>)
    requires DistinctNodeids(source) ==> DistinctIds(source)
    requires !(DistinctNodeids(source) && Forest(Rows(source)))
    ensures !(DistinctNodeids(source) && Dispatchable(Rows(source)))
  {}

  /** The rows in the order they are decided. */
  method Sort(source: seq<Candidate>, depths: map<string, nat>) returns (order: seq<Candidate>)
    requires DistinctNodeids(source) && DistinctIds(source) && Forest(Rows(source))
    requires depths.Keys == (set c | c in source :: c.candidateId)
    requires forall c :: c in Rows(source) ==> depths[c.candidateId] == Depth(Rows(source), c)
    ensures Arranged(Rows(source), depths, order)
  {
    hide Depth;
    DistinctNodeidsAreUnique(source);
    order := Ordered(depths, source);
    Arrange(source, depths);
  }

  lemma SpentOnNested(all: set<Candidate>, config: DispatchConfig, depths: map<string, nat>, order: seq<Candidate>,
                      n: nat, dispatched: nat)
    requires Arranged(all, depths, order) && n < |order| && Spent(config, order, n, dispatched) && Nested(order[n])
    ensures Spent(config, order, n + 1, dispatched)
  {
    hide Spent, Arranged;
    RoomMeansBudget(all, config, depths, order, n, dispatched);
  }
}
