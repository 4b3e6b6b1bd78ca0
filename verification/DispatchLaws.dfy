/** What the dispatcher promises, proved of its specification: src/pipeline/dispatch.py, module Dispatch. */
module DispatchLaws {
  import opened Wrappers
  import opened Schemas
  import opened Containment
  import opened Ranking
  import opened Dispatch

  // ---- one decision per candidate, whatever the order ------------------------------------------

  lemma FirstChildIsUnique(all: set<Candidate>, a: Candidate, b: Candidate, c: Candidate)
    requires FirstChild(all, a, c) && FirstChild(all, b, c)
    ensures a == b
  {
    BetterIsStrict(a, b);
  }

  lemma DecisionIsUnique(all: set<Candidate>, config: DispatchConfig, c: Candidate, d: Candidate, e: Candidate)
    requires Dispatchable(all) && c in all
    requires Decides(all, config, c, d) && Decides(all, config, c, e)
    ensures d == e
  {
    hide Verdict, FirstChild;
    var v := Verdict(all, config, c);
    if v.relatedCandidateId.None? && exists child :: ChildOf(all, child, c) {
      var a :| FirstChild(all, a, c) && d.relatedCandidateId == Some(a.candidateId);
      var b :| FirstChild(all, b, c) && e.relatedCandidateId == Some(b.candidateId);
      FirstChildIsUnique(all, a, b, c);
    }
  }

  /** Two lists of the same candidates: either both are refused, or every candidate gets the same
      decision from both. */
  lemma OrderIsIrrelevant(s: seq<Candidate>, t: seq<Candidate>, config: DispatchConfig, c: Candidate)
    requires multiset(s) == multiset(t) && c in s
    ensures DistinctNodeids(s) <==> DistinctNodeids(t)
    ensures Dispatchable(Rows(s)) <==> Dispatchable(Rows(t))
    ensures c in Rows(t)
    ensures Dispatchable(Rows(s)) ==>
              forall d, e :: Decides(Rows(s), config, c, d) && Decides(Rows(t), config, c, e) ==> d == e
  {
    hide Decides, DistinctNodeids;
    SameRows(s, t);
    if !DistinctNodeids(s) {
      RepeatedStays(s, t);
    }
    if !DistinctNodeids(t) {
      RepeatedStays(t, s);
    }
    if Dispatchable(Rows(s)) {
      forall d, e | Decides(Rows(s), config, c, d) && Decides(Rows(t), config, c, e) ensures d == e {
        DecisionIsUnique(Rows(s), config, c, d, e);
      }
    }
  }

  /** A node that is reported twice stays so however the rows are permuted. */
  lemma RepeatedStays(s: seq<Candidate>, t: seq<Candidate>)
    requires multiset(s) == multiset(t) && !DistinctNodeids(s)
    ensures !DistinctNodeids(t)
  {
    var i, j :| 0 <= i < j < |s| && s[i].nodeid.Some? && s[i].nodeid == s[j].nodeid;
    if s[i] == s[j] {
      TwiceMeansTwo(s, i, j);
      var p, q := TwoMeansTwice(t, s[i]);
    } else {
      assert s[i] in multiset(t) && s[j] in multiset(t);
      var p :| 0 <= p < |t| && t[p] == s[i];
      var q :| 0 <= q < |t| && t[q] == s[j];
    }
  }

  lemma TwiceMeansTwo(s: seq<Candidate>, i: nat, j: nat)
    requires i < j < |s| && s[i] == s[j]
    ensures multiset(s)[s[i]] >= 2
  {
    assert s == s[..j] + [s[j]] + s[j + 1..] && s[..j][i] == s[j];
  }

  lemma {:induction false} TwoMeansTwice(s: seq<Candidate>, c: Candidate) returns (p: nat, q: nat)
    requires multiset(s)[c] >= 2
    ensures p < q < |s| && s[p] == c == s[q]
  {
    var n := |s| - 1;
    assert s == s[..n] + [s[n]];
    if s[n] == c {
      assert c in s[..n];
      p :| 0 <= p < n && s[p] == c;
      q := n;
    } else {
      p, q := TwoMeansTwice(s[..n], c);
    }
  }

  lemma SameRows(s: seq<Candidate>, t: seq<Candidate>)
    requires multiset(s) == multiset(t)
    ensures Rows(s) == Rows(t)
  {
    forall c ensures c in s <==> c in t {
      assert c in multiset(s) <==> c in multiset(t);
    }
  }

  // ---- the budget ------------------------------------------------------------------------------

  lemma EligibleIdsAreUnique(all: set<Candidate>, config: DispatchConfig)
    requires UniqueIds(all)
    ensures UniqueIds(Eligibles(all, config))
  {}

  /** What an un-nested candidate's decision says about its place in the ranking. */
  lemma RootDecisionMeaning(all: set<Candidate>, config: DispatchConfig, c: Candidate, d: Candidate)
    requires Dispatchable(all) && c in all && !Nested(c) && Decides(all, config, c, d)
    ensures d.action == Some(OpenPr) <==> c in Chosen(all, config)
    ensures d.action == Some(Action.Deferred) && d.reason == Some(BudgetOverflow)
            <==> c in Eligibles(all, config) - Chosen(all, config)
    ensures d.action == Some(OpenIssue) ==> c !in Eligibles(all, config) && d.tier == Some(Medium)
  {
    hide Top, Ahead, Parent, Root, Eligibles;
    RootVerdict(all, config, c);
    ChosenIsEligibleWithRoom(all, config, c);
    var room := HasRoom(all, config, c);
    hide HasRoom, Verdict, Chosen;
    RootRoutes(c, config, room);
  }

  lemma ChosenIsEligibleWithRoom(all: set<Candidate>, config: DispatchConfig, c: Candidate)
    requires c in all
    ensures c in Eligibles(all, config) <==> Eligible(c, config)
    ensures c in Chosen(all, config) <==> Eligible(c, config) && HasRoom(all, config, c)
  {}

  lemma RootRoutes(c: Candidate, config: DispatchConfig, room: bool)
    requires !Nested(c) && RootDecision(c, config, room).Success?
    ensures var d := RootDecision(c, config, room).value;
            && (d.action == Some(OpenPr) <==> Eligible(c, config) && room)
            && (d.action == Some(Action.Deferred) && d.reason == Some(BudgetOverflow) <==> Eligible(c, config) && !room)
            && (d.action == Some(OpenIssue) ==> !Eligible(c, config) && d.tier == Some(Medium))
  {
    hide GatedOut, InScope, TierForScore, WithLabel;
    if c.gatePassed != Some(true) {
      GatedOutKeepsArtifacts(c);
    }
  }

  /** The pull requests are exactly the first `min(budgetN, n)` of the `n` eligible candidates, by score
      descending and then by id; exactly the others overflow the budget. */
  lemma BudgetGoesToTheBest(all: set<Candidate>, config: DispatchConfig)
    requires Dispatchable(all) && UniqueIds(all)
    ensures var n := |Eligibles(all, config)|;
            |Chosen(all, config)| == if n < config.budgetN then n else config.budgetN
    ensures Chosen(all, config) <= Eligibles(all, config)
    ensures forall a, b :: a in Chosen(all, config) && b in Eligibles(all, config) - Chosen(all, config) ==>
              Better(a, b)
    ensures forall c, d :: c in all && Decides(all, config, c, d) ==>
              && (d.action == Some(OpenPr) <==> c in Chosen(all, config))
              && (d.reason == Some(BudgetOverflow) && d.action == Some(Action.Deferred)
                  <==> c in Eligibles(all, config) - Chosen(all, config))
  {
    hide Decides, Top, Better, Eligible, Ahead;
    EligibleIdsAreUnique(all, config);
    TopCount(Eligibles(all, config), config.budgetN);
    ChosenAreEligible(all, config);
    forall a, b | a in Chosen(all, config) && b in Eligibles(all, config) - Chosen(all, config) ensures Better(a, b) {
      TopIsBest(Eligibles(all, config), config.budgetN, a, b);
    }
    forall c, d | c in all && Decides(all, config, c, d)
      ensures d.action == Some(OpenPr) <==> c in Chosen(all, config)
      ensures d.reason == Some(BudgetOverflow) && d.action == Some(Action.Deferred)
              <==> c in Eligibles(all, config) - Chosen(all, config)
    {
      if Nested(c) {
        NestedFollowsRoot(all, config, c, d);
        NestedIsNotEligible(all, config, c);
      } else {
        RootDecisionMeaning(all, config, c, d);
      }
    }
  }

  lemma ChosenAreEligible(all: set<Candidate>, config: DispatchConfig)
    ensures Chosen(all, config) <= Eligibles(all, config)
  {}

  lemma NestedIsNotEligible(all: set<Candidate>, config: DispatchConfig, c: Candidate)
    requires Nested(c)
    ensures c !in Eligibles(all, config)
  {}

  /** A candidate that does not compete, such as any medium-tier one, changes no other's decision: adding
      it to the rows takes nothing from the budget. */
  lemma OthersConsumeNoBudget(all: set<Candidate>, config: DispatchConfig, m: Candidate, c: Candidate)
    requires Dispatchable(all) && Dispatchable(all + {m}) && !Eligible(m, config)
    requires c in all && !Nested(c)
    ensures Chosen(all + {m}, config) == Chosen(all, config)
    ensures Verdict(all + {m}, config, c) == Verdict(all, config, c)
  {
    hide Top, RootDecision;
    assert Eligibles(all + {m}, config) == Eligibles(all, config);
    RootVerdict(all, config, c);
    RootVerdict(all + {m}, config, c);
  }

  // ---- containment -----------------------------------------------------------------------------

  /** A nested candidate at any depth gets no pull request and no issue of its own. It is suppressed when
      the root of its chain gets a pull request and blocked for a human otherwise, and it is linked to
      its parent. */
  lemma NestedFollowsRoot(all: set<Candidate>, config: DispatchConfig, c: Candidate, d: Candidate)
    requires Dispatchable(all) && c in all && Nested(c) && Decides(all, config, c, d)
    ensures d.action == Some(Action.Deferred) || d.action == Some(HumanReview)
    ensures d.state == CandidateState.SuppressedByContainment <==> Root(all, c) in Chosen(all, config)
    ensures d.state == CandidateState.BlockedByEnclosingSkip <==> Root(all, c) !in Chosen(all, config)
    ensures d.reason != Some(BudgetOverflow)
    ensures Parent(all, c).Some? && d.relatedCandidateId == Some(Parent(all, c).value.candidateId)
  {
    hide Chosen, Root, Parent, Depth;
    ParentIsOneUp(all, c);
  }

  /** The same, between the two rows a run writes. */
  lemma SuppressionMirrorsRoot(all: set<Candidate>, config: DispatchConfig, c: Candidate, d: Candidate,
                               rootDecision: Candidate)
    requires Dispatchable(all) && UniqueIds(all) && c in all && Nested(c) && Decides(all, config, c, d)
    requires Root(all, c) in all && Decides(all, config, Root(all, c), rootDecision)
    ensures d.state == CandidateState.SuppressedByContainment <==> rootDecision.action == Some(OpenPr)
  {
    hide Decides, Chosen;
    RootIsUnnested(all, c);
    NestedFollowsRoot(all, config, c, d);
    RootDecisionMeaning(all, config, Root(all, c), rootDecision);
  }

  /** One more unit of budget adds at most one pull request and takes none away; nested candidates only
      move from blocked to suppressed; nobody else's decision changes, nor any link. */
  lemma BudgetIsMonotone(all: set<Candidate>, config: DispatchConfig, more: DispatchConfig)
    requires Dispatchable(all) && UniqueIds(all) && more == config.(budgetN := config.budgetN + 1)
    ensures Chosen(all, config) <= Chosen(all, more)
    ensures |Chosen(all, more) - Chosen(all, config)| <= 1
    ensures forall c, d, e :: c in all && Decides(all, config, c, d) && Decides(all, more, c, e) ==>
              && d.relatedCandidateId == e.relatedCandidateId
              && (d != e && Nested(c) ==> d.state == CandidateState.BlockedByEnclosingSkip
                                          && e.state == CandidateState.SuppressedByContainment)
              && (d != e && !Nested(c) ==> c in Chosen(all, more) - Chosen(all, config))
  {
    hide Decides, Verdict, Top, Eligible;
    VerdictsAreMonotone(all, config, more);
    forall c, d, e | c in all && Decides(all, config, c, d) && Decides(all, more, c, e)
      ensures d.relatedCandidateId == e.relatedCandidateId
      ensures d != e && Nested(c) ==> d.state == CandidateState.BlockedByEnclosingSkip
                                      && e.state == CandidateState.SuppressedByContainment
      ensures d != e && !Nested(c) ==> c in Chosen(all, more) - Chosen(all, config)
    {
      LinksIgnoreBudget(all, config, more, c);
      LinkFollowsVerdict(all, config, more, c, d, e);
    }
  }

  lemma LinksIgnoreBudget(all: set<Candidate>, config: DispatchConfig, more: DispatchConfig, c: Candidate)
    requires Dispatchable(all) && c in all
    ensures Verdict(all, config, c).relatedCandidateId == Verdict(all, more, c).relatedCandidateId
  {
    hide Chosen, Root, Depth, Parent, HasRoom;
    if Nested(c) {
      ParentIsOneUp(all, c);
    } else {
      RootVerdict(all, config, c);
      RootVerdict(all, more, c);
      RootKeepsLink(c, config, HasRoom(all, config, c));
      RootKeepsLink(c, more, HasRoom(all, more, c));
    }
  }

  lemma RootKeepsLink(c: Candidate, config: DispatchConfig, room: bool)
    requires RootDecision(c, config, room).Success?
    ensures RootDecision(c, config, room).value.relatedCandidateId == c.relatedCandidateId
  {
    hide InScope, TierForScore, WithLabel;
  }

  /** Two decisions with the same kind of link carry the same link. */
  lemma LinkFollowsVerdict(all: set<Candidate>, config: DispatchConfig, more: DispatchConfig, c: Candidate,
                           d: Candidate, e: Candidate)
    requires Dispatchable(all) && c in all && Decides(all, config, c, d) && Decides(all, more, c, e)
    requires Verdict(all, config, c).relatedCandidateId == Verdict(all, more, c).relatedCandidateId
    ensures d.relatedCandidateId == e.relatedCandidateId
    ensures d.state == Verdict(all, config, c).state && e.state == Verdict(all, more, c).state
    ensures Verdict(all, config, c) == Verdict(all, more, c) ==> d == e
  {
    hide Verdict, FirstChild;
    if Verdict(all, config, c).relatedCandidateId.None? && exists child :: ChildOf(all, child, c) {
      var a :| FirstChild(all, a, c) && d.relatedCandidateId == Some(a.candidateId);
      var b :| FirstChild(all, b, c) && e.relatedCandidateId == Some(b.candidateId);
      FirstChildIsUnique(all, a, b, c);
    }
  }

  /** The same of the verdicts, before decisions are linked. */
  lemma VerdictsAreMonotone(all: set<Candidate>, config: DispatchConfig, more: DispatchConfig)
    requires Dispatchable(all) && UniqueIds(all) && more == config.(budgetN := config.budgetN + 1)
    ensures Chosen(all, config) <= Chosen(all, more)
    ensures |Chosen(all, more) - Chosen(all, config)| <= 1
    ensures forall c :: c in all && Nested(c) && Verdict(all, config, c) != Verdict(all, more, c) ==>
              && Verdict(all, config, c).state == CandidateState.BlockedByEnclosingSkip
              && Verdict(all, more, c).state == CandidateState.SuppressedByContainment
    ensures forall c :: c in all && !Nested(c) && Verdict(all, config, c) != Verdict(all, more, c) ==>
              c in Chosen(all, more) - Chosen(all, config)
  {
    hide Top, Ahead, Root, Depth, Parent;
    EligibleIdsAreUnique(all, config);
    assert Eligibles(all, config) == Eligibles(all, more) by { EligibilityIgnoresBudget(config, more); }
    TopGrows(Eligibles(all, config), config.budgetN);
    forall c | c in all && !Nested(c) && Verdict(all, config, c) != Verdict(all, more, c)
      ensures c in Chosen(all, more) - Chosen(all, config)
    {
      RootVerdict(all, config, c);
      RootVerdict(all, more, c);
      ChosenIsEligibleWithRoom(all, config, c);
      ChosenIsEligibleWithRoom(all, more, c);
      RoomMattersToTheEligible(c, config, more, HasRoom(all, config, c), HasRoom(all, more, c));
    }
  }

  lemma EligibilityIgnoresBudget(config: DispatchConfig, more: DispatchConfig)
    requires more == config.(budgetN := more.budgetN)
    ensures forall c :: Eligible(c, config) <==> Eligible(c, more)
  {}

  lemma RoomMattersToTheEligible(c: Candidate, config: DispatchConfig, more: DispatchConfig, a: bool, b: bool)
    requires !Nested(c) && more == config.(budgetN := more.budgetN) && (a ==> b)
    ensures RootDecision(c, config, a) != RootDecision(c, more, b) ==> Eligible(c, config) && !a && b
  {}

  // ---- what the runner relies on ---------------------------------------------------------------

  /** Dispatch touches no artifact, and what it sends to publication is in state `dispatching`. */
  lemma DispatchKeepsArtifacts(all: set<Candidate>, config: DispatchConfig, c: Candidate, d: Candidate)
    requires Dispatchable(all) && c in all && Decides(all, config, c, d)
    ensures SameArtifacts(c, d)
    ensures d.action == Some(OpenPr) || d.action == Some(OpenIssue) ==> d.state.Dispatching? && !Nested(c)
  {
    hide Chosen, Root, Parent, Depth, HasRoom;
    if Nested(c) {
      ParentIsOneUp(all, c);
    } else {
      RootVerdict(all, config, c);
      RootDecisionKeepsArtifacts(c, config, HasRoom(all, config, c));
    }
  }

  lemma RootDecisionKeepsArtifacts(c: Candidate, config: DispatchConfig, room: bool)
    requires RootDecision(c, config, room).Success?
    ensures var d := RootDecision(c, config, room).value;
            SameArtifacts(c, d) && (d.action == Some(OpenPr) || d.action == Some(OpenIssue) ==> d.state.Dispatching?)
  {
    hide SameArtifacts;
    if c.gatePassed != Some(true) {
      GatedOutKeepsArtifacts(c);
    } else {
      PassedKeepsArtifacts(c, config, room);
      PublishedIsDispatching(c, config, room);
    }
  }

  lemma PassedKeepsArtifacts(c: Candidate, config: DispatchConfig, room: bool)
    requires RootDecision(c, config, room).Success? && c.gatePassed == Some(true)
    ensures SameArtifacts(c, RootDecision(c, config, room).value)
  {
    hide GatedOut, InScope, TierForScore, WithLabel, Ruled, SameArtifacts;
  }

  lemma PublishedIsDispatching(c: Candidate, config: DispatchConfig, room: bool)
    requires RootDecision(c, config, room).Success? && c.gatePassed == Some(true)
    ensures var d := RootDecision(c, config, room).value;
            d.action == Some(OpenPr) || d.action == Some(OpenIssue) ==> d.state.Dispatching?
  {
    hide GatedOut, InScope, TierForScore, WithLabel;
  }
}
