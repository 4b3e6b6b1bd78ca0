/**
 The total order the dispatcher sorts by (src/pipeline/dispatch.py): containment depth, then score
 descending, then candidate id. Because ids are distinct, the order has no ties.
 */
module Ranking {
  import opened Wrappers
  import opened Schemas
  import opened Containment
  import TextOrder

  /** An unscored candidate sorts as if it had scored -1. */
  function EffectiveScore(c: Candidate): real {
    if c.score.Some? then c.score.value else -1.0
  }

  predicate Better(a: Candidate, b: Candidate) {
    || EffectiveScore(a) > EffectiveScore(b)
    || (EffectiveScore(a) == EffectiveScore(b) && TextOrder.Less(a.candidateId, b.candidateId))
  }

  lemma BetterIsStrict(a: Candidate, b: Candidate)
    ensures !(Better(a, b) && Better(b, a))
  {
    TextOrder.Asymmetric(a.candidateId, b.candidateId);
  }

  lemma BetterIsTotal(a: Candidate, b: Candidate)
    requires a.candidateId != b.candidateId
    ensures Better(a, b) || Better(b, a)
  {
    TextOrder.Total(a.candidateId, b.candidateId);
  }

  lemma BetterIsTransitive(a: Candidate, b: Candidate, c: Candidate)
    requires Better(a, b) && Better(b, c)
    ensures Better(a, c)
  {
    if EffectiveScore(a) == EffectiveScore(b) == EffectiveScore(c) {
      TextOrder.Transitive(a.candidateId, b.candidateId, c.candidateId);
    }
  }

  /** The sort key of the source, compared. */
  predicate Before(depths: map<string, nat>, a: Candidate, b: Candidate)
    requires a.candidateId in depths && b.candidateId in depths
  {
    || depths[a.candidateId] < depths[b.candidateId]
    || (depths[a.candidateId] == depths[b.candidateId] && Better(a, b))
  }

  predicate Measured(depths: map<string, nat>, s: seq<Candidate>) {
    forall c :: c in s ==> c.candidateId in depths
  }

  predicate Sorted(depths: map<string, nat>, s: seq<Candidate>)
    requires Measured(depths, s)
  {
    forall i, j :: 0 <= i < j < |s| ==> Before(depths, s[i], s[j])
  }

  function Insert(depths: map<string, nat>, c: Candidate, s: seq<Candidate>): (r: seq<Candidate>)
    requires Measured(depths, s) && c.candidateId in depths
    ensures multiset(r) == multiset(s) + multiset{c}
    ensures forall x :: x in r <==> x in s || x == c
    ensures |r| == |s| + 1
  {
    if s == [] || Before(depths, c, s[0]) then [c] + s
    else
      assert s == [s[0]] + s[1..];
      [s[0]] + Insert(depths, c, s[1..])
  }

  /** The candidates in the order they are decided. */
  function Ordered(depths: map<string, nat>, s: seq<Candidate>): (r: seq<Candidate>)
    requires Measured(depths, s)
    ensures multiset(r) == multiset(s) && |r| == |s|
    ensures forall c :: c in r <==> c in s
  {
    if s == [] then []
    else
      assert s == [s[0]] + s[1..];
      Insert(depths, s[0], Ordered(depths, s[1..]))
  }

  lemma BeforeIsTransitive(depths: map<string, nat>, a: Candidate, b: Candidate, c: Candidate)
    requires Measured(depths, [a, b, c])
    requires Before(depths, a, b) && Before(depths, b, c)
    ensures Before(depths, a, c)
  {
    if Better(a, b) && Better(b, c) {
      BetterIsTransitive(a, b, c);
    }
  }

  lemma {:induction false} InsertSorts(depths: map<string, nat>, c: Candidate, s: seq<Candidate>)
    requires Measured(depths, s) && c.candidateId in depths && Sorted(depths, s)
    requires forall x :: x in s ==> x.candidateId != c.candidateId
    ensures Sorted(depths, Insert(depths, c, s))
  {
    if s == [] {
    } else if Before(depths, c, s[0]) {
      forall j | 0 < j < |s| ensures Before(depths, c, s[j]) {
        BeforeIsTransitive(depths, c, s[0], s[j]);
      }
    } else {
      BetterIsTotal(c, s[0]);
      InsertSorts(depths, c, s[1..]);
      var rest := Insert(depths, c, s[1..]);
      forall j | 0 <= j < |rest| ensures Before(depths, s[0], rest[j]) {
        assert rest[j] in rest;
      }
    }
  }

  /** With distinct ids the result is strictly sorted. */
  lemma {:induction false} OrderedIsSorted(depths: map<string, nat>, s: seq<Candidate>)
    requires Measured(depths, s) && DistinctIds(s)
    ensures Sorted(depths, Ordered(depths, s))
  {
    if s != [] {
      OrderedIsSorted(depths, s[1..]);
      InsertSorts(depths, s[0], Ordered(depths, s[1..]));
    }
  }

  /** In a sorted sequence, position and order say the same. */
  lemma SortedPosition(depths: map<string, nat>, s: seq<Candidate>, i: nat, j: nat)
    requires Measured(depths, s) && Sorted(depths, s) && i < |s| && j < |s|
    ensures Before(depths, s[i], s[j]) <==> i < j
  {
    BetterIsStrict(s[i], s[j]);
    if i > j {
      assert Before(depths, s[j], s[i]);
    }
  }

  // ---- the best few of a set -------------------------------------------------------------------

  ghost function Ahead(all: set<Candidate>, c: Candidate): set<Candidate> {
    set e | e in all && Better(e, c)
  }

  /** The best `n` of `all`. */
  ghost function Top(all: set<Candidate>, n: nat): set<Candidate> {
    set c | c in all && |Ahead(all, c)| < n
  }

  lemma {:induction false} Worst(all: set<Candidate>) returns (w: Candidate)
    requires all != {} && UniqueIds(all)
    ensures w in all && forall c :: c in all && c != w ==> Better(c, w)
  {
    hide Better;
    var x :| x in all;
    w := x;
    var rest := all - {x};
    assert forall c :: c in all && c != x ==> c in rest;
    if rest != {} {
      var y := Worst(rest);
      assert x.candidateId != y.candidateId;
      BetterIsTotal(x, y);
      if Better(x, y) {
        w := y;
      } else {
        forall c | c in rest ensures Better(c, x) {
          if c != y {
            BetterIsTransitive(c, y, x);
          }
        }
      }
      forall c | c in all && c != w ensures Better(c, w) {
        assert c == x || c in rest;
      }
    }
  }

  lemma {:induction false} Smaller(a: set<Candidate>, b: set<Candidate>)
    requires a <= b
    ensures |a| <= |b| && (a != b ==> |a| < |b|)
  {
    assert b == a + (b - a);
    if a != b {
      assert b - a != {};
    }
  }

  /** Exactly `n` are among the best `n`, or all of them when there are fewer. */
  lemma {:induction false} TopCount(all: set<Candidate>, n: nat)
    requires UniqueIds(all)
    ensures |Top(all, n)| == if |all| < n then |all| else n
    decreases |all|
  {
    hide Better;
    if all == {} {
      assert Top(all, n) == {};
    } else {
      var w := Worst(all);
      var rest := all - {w};
      TopCount(rest, n);
      forall c | c in rest ensures Ahead(all, c) == Ahead(rest, c) {
        BetterIsStrict(c, w);
      }
      BetterIsStrict(w, w);
      assert Ahead(all, w) == rest;
      assert Top(all, n) == Top(rest, n) + if |rest| < n then {w} else {};
    }
  }

  /** Everything among the best beats everything that is not. */
  lemma TopIsBest(all: set<Candidate>, n: nat, a: Candidate, b: Candidate)
    requires UniqueIds(all) && a in Top(all, n) && b in all - Top(all, n)
    ensures Better(a, b)
  {
    BetterIsTotal(a, b);
    if Better(b, a) {
      forall e | e in Ahead(all, b) ensures e in Ahead(all, a) {
        BetterIsTransitive(e, b, a);
      }
      Smaller(Ahead(all, b), Ahead(all, a));
    }
  }

  /** One more place admits at most one more candidate and drops none. */
  lemma TopGrows(all: set<Candidate>, n: nat)
    requires UniqueIds(all)
    ensures Top(all, n) <= Top(all, n + 1)
    ensures |Top(all, n + 1) - Top(all, n)| <= 1
  {
    TopCount(all, n);
    TopCount(all, n + 1);
    assert Top(all, n + 1) == Top(all, n) + (Top(all, n + 1) - Top(all, n));
  }
}
