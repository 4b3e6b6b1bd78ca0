/**
 Containment of LANE 2 candidates (src/pipeline/dispatch.py): a skipped definition may sit inside another
 skipped one. The walk up to the outermost one must end, find every parent and meet no candidate twice.
 */
module Containment {
  import opened Wrappers
  import opened Schemas

  datatype ContainmentError =
    | DuplicateNodeid(nodeid: string)
    | MissingEnclosing(nodeid: string)
    | Cycle(candidateId: string)

  function Rows(s: seq<Candidate>): set<Candidate> {
    set c | c in s
  }

  predicate DistinctIds(s: seq<Candidate>) {
    forall i, j :: 0 <= i < j < |s| ==> s[i].candidateId != s[j].candidateId
  }

  /** No node is reported twice. */
  predicate DistinctNodeids(s: seq<Candidate>) {
    forall i, j :: 0 <= i < j < |s| && s[i].nodeid.Some? ==> s[i].nodeid != s[j].nodeid
  }

  ghost predicate UniqueIds(all: set<Candidate>) {
    forall a, b :: a in all && b in all && a.candidateId == b.candidateId ==> a == b
  }

  ghost predicate UniqueNodeids(all: set<Candidate>) {
    forall a, b :: a in all && b in all && a.nodeid.Some? && a.nodeid == b.nodeid ==> a == b
  }

  predicate Nested(c: Candidate) {
    c.enclosingSkipNodeid.Some?
  }

  /** The candidate whose node encloses `c`. */
  ghost function Parent(all: set<Candidate>, c: Candidate): (p: Option<Candidate>)
    ensures p.Some? ==> p.value in all && Nested(c) && p.value.nodeid == c.enclosingSkipNodeid
    ensures p.None? ==> Nested(c) ==> forall q :: q in all ==> q.nodeid != c.enclosingSkipNodeid
  {
    if Nested(c) && exists p :: p in all && p.nodeid == c.enclosingSkipNodeid then
      var p :| p in all && p.nodeid == c.enclosingSkipNodeid;
      Some(p)
    else None
  }

  /** The candidate `k` levels further out. */
  ghost function Ancestor(all: set<Candidate>, c: Candidate, k: nat): Option<Candidate> {
    if k == 0 then Some(c)
    else
      var inner := Ancestor(all, c, k - 1);
      if inner.Some? then Parent(all, inner.value) else None
  }

  ghost predicate RootAt(all: set<Candidate>, c: Candidate, depth: nat) {
    Ancestor(all, c, depth).Some? && !Nested(Ancestor(all, c, depth).value)
  }

  ghost predicate HasRoot(all: set<Candidate>, c: Candidate) {
    exists depth :: RootAt(all, c, depth)
  }

  /** Every chain of containment ends at an un-nested candidate. */
  ghost predicate Forest(all: set<Candidate>) {
    forall c {:trigger HasRoot(all, c)} :: c in all ==> HasRoot(all, c)
  }

  ghost function Depth(all: set<Candidate>, c: Candidate): (d: nat)
    requires HasRoot(all, c)
    ensures RootAt(all, c, d)
  {
    var depth :| RootAt(all, c, depth);
    depth
  }

  ghost function Root(all: set<Candidate>, c: Candidate): Candidate
    requires HasRoot(all, c)
  {
    Ancestor(all, c, Depth(all, c)).value
  }

  // ---- walking outwards ------------------------------------------------------------------------

  lemma {:induction false} AncestorOfAncestor(all: set<Candidate>, c: Candidate, k: nat, m: nat)
    requires Ancestor(all, c, k).Some?
    ensures Ancestor(all, c, k + m) == Ancestor(all, Ancestor(all, c, k).value, m)
  {
    if m > 0 {
      AncestorOfAncestor(all, c, k, m - 1);
    }
  }

  lemma {:induction false} CloserAncestors(all: set<Candidate>, c: Candidate, j: nat, k: nat)
    requires j <= k && Ancestor(all, c, k).Some?
    ensures Ancestor(all, c, j).Some?
  {
    if j < k {
      CloserAncestors(all, c, j, k - 1);
    }
  }

  lemma {:induction false} AncestorsAreRows(all: set<Candidate>, c: Candidate, k: nat)
    requires c in all
    ensures Ancestor(all, c, k).Some? ==> Ancestor(all, c, k).value in all
  {}

  /** A chain has nothing beyond its root. */
  lemma NothingBeyondRoot(all: set<Candidate>, c: Candidate, depth: nat, k: nat)
    requires RootAt(all, c, depth) && Ancestor(all, c, k).Some?
    ensures k <= depth
  {
    if k > depth {
      CloserAncestors(all, c, depth + 1, k);
    }
  }

  lemma DepthIsUnique(all: set<Candidate>, c: Candidate, a: nat, b: nat)
    requires RootAt(all, c, a) && RootAt(all, c, b)
    ensures a == b
  {
    NothingBeyondRoot(all, c, a, b);
    NothingBeyondRoot(all, c, b, a);
  }

  /** Meeting a candidate twice means the walk never ends. */
  lemma RepeatedMeansRootless(all: set<Candidate>, c: Candidate, i: nat, j: nat, depth: nat)
    requires i < j && Ancestor(all, c, j).Some? && Ancestor(all, c, i) == Ancestor(all, c, j)
    ensures !RootAt(all, c, depth)
  {
    if RootAt(all, c, depth) {
      NothingBeyondRoot(all, c, depth, j);
      AncestorOfAncestor(all, c, i, depth - j);
      AncestorOfAncestor(all, c, j, depth - j);
      NothingBeyondRoot(all, c, depth - (j - i), depth);
    }
  }

  /** A child is one level below its parent and shares its root. */
  lemma ParentIsOneUp(all: set<Candidate>, c: Candidate)
    requires Forest(all) && c in all && Nested(c)
    ensures Parent(all, c).Some?
    ensures Parent(all, c).value in all
    ensures Depth(all, c) == Depth(all, Parent(all, c).value) + 1
    ensures Root(all, c) == Root(all, Parent(all, c).value)
  {
    hide Ancestor, Parent;
    var d := Depth(all, c);
    FirstStep(all, c, d);
    var p := Parent(all, c).value;
    DepthIsUnique(all, p, d - 1, Depth(all, p));
  }

  lemma FirstStep(all: set<Candidate>, c: Candidate, d: nat)
    requires Nested(c) && RootAt(all, c, d)
    ensures d > 0 && Parent(all, c).Some? && RootAt(all, Parent(all, c).value, d - 1)
    ensures Ancestor(all, c, d) == Ancestor(all, Parent(all, c).value, d - 1)
  {
    hide Parent;
    assert Ancestor(all, c, 0) == Some(c);
    CloserAncestors(all, c, 1, d);
    assert Ancestor(all, c, 1) == Parent(all, c);
    AncestorOfAncestor(all, c, 1, d - 1);
  }

  lemma RootOfUnnested(all: set<Candidate>, c: Candidate)
    requires !Nested(c)
    ensures RootAt(all, c, 0) && Depth(all, c) == 0 && Root(all, c) == c
  {
    assert RootAt(all, c, 0);
    DepthIsUnique(all, c, 0, Depth(all, c));
  }

  lemma RootIsUnnested(all: set<Candidate>, c: Candidate)
    requires Forest(all) && c in all
    ensures Root(all, c) in all && !Nested(Root(all, c))
    ensures Depth(all, c) == 0 <==> !Nested(c)
  {
    AncestorsAreRows(all, c, Depth(all, c));
    if !Nested(c) {
      RootOfUnnested(all, c);
    }
  }

  // ---- the walk of the dispatcher ---------------------------------------------------------------

  /** The lookup table finds exactly the candidates with a node. */
  ghost predicate Tabulates(byNodeid: map<string, Candidate>, all: set<Candidate>) {
    && (forall n <- byNodeid :: byNodeid[n] in all && byNodeid[n].nodeid == Some(n))
    && (forall c :: c in all && c.nodeid.Some? ==> c.nodeid.value in byNodeid && byNodeid[c.nodeid.value] == c)
  }

  lemma TabulatesParent(byNodeid: map<string, Candidate>, all: set<Candidate>, c: Candidate)
    requires Tabulates(byNodeid, all) && Nested(c)
    ensures Parent(all, c) ==
              if c.enclosingSkipNodeid.value in byNodeid then Some(byNodeid[c.enclosingSkipNodeid.value]) else None
    ensures c.enclosingSkipNodeid.value !in byNodeid ==> forall p :: p in all ==> p.nodeid != c.enclosingSkipNodeid
    ensures c.enclosingSkipNodeid.value in byNodeid ==> byNodeid[c.enclosingSkipNodeid.value] in all
  {}

  /** What each error says about the rows. */
  ghost predicate Explains(e: ContainmentError, all: set<Candidate>, c: Candidate) {
    match e
    case DuplicateNodeid(_) => false
    case MissingEnclosing(n) =>
      && (exists k :: Ancestor(all, c, k).Some? && Ancestor(all, c, k).value.enclosingSkipNodeid == Some(n))
      && (forall p :: p in all ==> p.nodeid != Some(n))
    case Cycle(id) =>
      exists i, j :: i < j && Ancestor(all, c, i).Some? && Ancestor(all, c, i) == Ancestor(all, c, j)
                && Ancestor(all, c, i).value.candidateId == id
  }

  /** Count the levels above one candidate. */
  method Climb(ghost all: set<Candidate>, byNodeid: map<string, Candidate>, c: Candidate)
    returns (r: Result<nat, ContainmentError>)
    requires UniqueIds(all) && Tabulates(byNodeid, all) && c in all
    ensures r.Success? ==> RootAt(all, c, r.value)
    ensures r.Failure? ==> Explains(r.error, all, c) && forall depth :: !RootAt(all, c, depth)
  {
    hide Parent, Ancestor, Tabulates, UniqueIds, Explains, Trail;
    var depth := 0;
    var current := c;
    var visited := {c.candidateId};
    SetOut(all, c);
    while current.enclosingSkipNodeid.Some?
      invariant Trail(all, c, depth, current, visited)
      invariant current.enclosingSkipNodeid.None? ==> RootAt(all, c, depth)
      decreases |Ids(all) - visited|
    {
      TabulatesParent(byNodeid, all, current);
      var enclosing := current.enclosingSkipNodeid.value;
      if enclosing !in byNodeid {
        DeadEnd(all, c, depth, current, visited);
        return Failure(MissingEnclosing(enclosing));
      }
      var parent := byNodeid[enclosing];
      if parent.candidateId in visited {
        BackAgain(all, c, depth, current, visited, parent);
        return Failure(Cycle(parent.candidateId));
      }
      Onward(all, c, depth, current, visited, parent);
      visited := visited + {parent.candidateId};
      depth := depth + 1;
      current := parent;
    }
    r := Success(depth);
  }

  ghost function Ids(all: set<Candidate>): set<string> {
    set c | c in all :: c.candidateId
  }

  ghost predicate Met(all: set<Candidate>, c: Candidate, k: nat, id: string) {
    Ancestor(all, c, k).Some? && Ancestor(all, c, k).value.candidateId == id
  }

  /** The walk from `c` stands at `current` and has met the candidates `visited`. */
  ghost predicate Trail(all: set<Candidate>, c: Candidate, depth: nat, current: Candidate, visited: set<string>) {
    && Ancestor(all, c, depth) == Some(current) && current in all
    && visited <= Ids(all)
    && forall id <- visited :: exists k :: 0 <= k <= depth && Met(all, c, k, id)
  }

  lemma SetOut(all: set<Candidate>, c: Candidate)
    requires c in all
    ensures Trail(all, c, 0, c, {c.candidateId})
    ensures !Nested(c) ==> RootAt(all, c, 0)
  {
    assert Met(all, c, 0, c.candidateId);
  }

  /** A new parent: the walk goes on, and fewer candidates are left. */
  lemma Onward(all: set<Candidate>, c: Candidate, depth: nat, current: Candidate, visited: set<string>, p: Candidate)
    requires Trail(all, c, depth, current, visited) && Parent(all, current) == Some(p) && p.candidateId !in visited
    ensures Trail(all, c, depth + 1, p, visited + {p.candidateId})
    ensures !Nested(p) ==> RootAt(all, c, depth + 1)
    ensures |Ids(all) - (visited + {p.candidateId})| < |Ids(all) - visited|
  {
    assert Met(all, c, depth + 1, p.candidateId);
    assert Ids(all) - (visited + {p.candidateId}) == (Ids(all) - visited) - {p.candidateId};
    assert p.candidateId in Ids(all) - visited;
  }

  /** The walk stops at a missing parent: there is no root. */
  lemma DeadEnd(all: set<Candidate>, c: Candidate, k: nat, current: Candidate, visited: set<string>)
    requires Trail(all, c, k, current, visited) && Nested(current) && Parent(all, current).None?
    ensures forall depth :: !RootAt(all, c, depth)
    ensures Explains(MissingEnclosing(current.enclosingSkipNodeid.value), all, c)
  {
    forall depth: nat ensures !RootAt(all, c, depth) {
      if RootAt(all, c, depth) {
        NothingBeyondRoot(all, c, depth, k);
        if depth > k {
          CloserAncestors(all, c, k + 1, depth);
        }
      }
    }
  }

  /** The walk comes back to a candidate it has met: there is no root. */
  lemma BackAgain(all: set<Candidate>, c: Candidate, depth: nat, current: Candidate, visited: set<string>, p: Candidate)
    requires UniqueIds(all) && c in all
    requires Trail(all, c, depth, current, visited) && Parent(all, current) == Some(p) && p.candidateId in visited
    ensures forall d :: !RootAt(all, c, d)
    ensures Explains(Cycle(p.candidateId), all, c)
  {
    var i :| 0 <= i <= depth && Met(all, c, i, p.candidateId);
    MetIsRow(all, c, i, p);
    assert Ancestor(all, c, depth + 1) == Some(p);
    forall d: nat ensures !RootAt(all, c, d) {
      RepeatedMeansRootless(all, c, i, depth + 1, d);
    }
  }

  lemma MetIsRow(all: set<Candidate>, c: Candidate, k: nat, p: Candidate)
    requires UniqueIds(all) && c in all && p in all && Met(all, c, k, p.candidateId)
    ensures Ancestor(all, c, k) == Some(p)
  {
    AncestorsAreRows(all, c, k);
  }

  lemma DistinctMeansUnique(s: seq<Candidate>)
    requires DistinctIds(s)
    ensures UniqueIds(Rows(s))
  {}

  lemma DistinctNodeidsAreUnique(s: seq<Candidate>)
    requires DistinctIds(s)
    ensures DistinctNodeids(s) <==> UniqueNodeids(Rows(s))
  {
    if UniqueNodeids(Rows(s)) {
      forall i, j | 0 <= i < j < |s| && s[i].nodeid.Some? ensures s[i].nodeid != s[j].nodeid {
        assert s[i] in Rows(s) && s[j] in Rows(s);
      }
    }
  }

  method TabulateNodeids(source: seq<Candidate>) returns (r: Result<map<string, Candidate>, ContainmentError>)
    ensures r.Success? <==> DistinctNodeids(source)
    ensures r.Success? ==> Tabulates(r.value, Rows(source))
    ensures r.Failure? ==> r.error.DuplicateNodeid?
    ensures r.Failure? ==>
              exists i, j :: 0 <= i < j < |source| && source[i].nodeid == source[j].nodeid == Some(r.error.nodeid)
  {
    var byNodeid: map<string, Candidate> := map[];
    for k := 0 to |source|
      invariant Tabulates(byNodeid, Rows(source[..k])) && DistinctNodeids(source[..k])
    {
      var c := source[k];
      assert source[..k + 1] == source[..k] + [c];
      if c.nodeid.Some? {
        if c.nodeid.value in byNodeid {
          ghost var i :| 0 <= i < k && source[i] == byNodeid[c.nodeid.value];
          return Failure(DuplicateNodeid(c.nodeid.value));
        }
        byNodeid := byNodeid[c.nodeid.value := c];
      }
    }
    assert source[..|source|] == source;
    r := Success(byNodeid);
  }

  /** The depth of every candidate, or the reason why the rows are no forest. */
  method ContainmentDepths(source: seq<Candidate>) returns (r: Result<map<string, nat>, ContainmentError>)
    requires DistinctNodeids(source) ==> DistinctIds(source)
    ensures r.Success? <==> DistinctNodeids(source) && Forest(Rows(source))
    ensures r.Success? ==>
              && r.value.Keys == (set c | c in source :: c.candidateId)
              && forall c :: c in Rows(source) ==> r.value[c.candidateId] == Depth(Rows(source), c)
    ensures r.Failure? ==>
              if r.error.DuplicateNodeid? then !DistinctNodeids(source)
              else DistinctNodeids(source) && exists c :: c in source && Explains(r.error, Rows(source), c)
  {
    var byNodeid :- TabulateNodeids(source);
    ghost var all := Rows(source);
    DistinctMeansUnique(source);
    var depths: map<string, nat> := map[];
    for k := 0 to |source|
      invariant depths.Keys == set c | c in source[..k] :: c.candidateId
      invariant forall i :: 0 <= i < k ==> RootAt(all, source[i], depths[source[i].candidateId])
    {
      assert source[..k + 1] == source[..k] + [source[k]];
      var depth := Climb(all, byNodeid, source[k]);
      if depth.Failure? {
        assert source[k] in all && !HasRoot(all, source[k]);
        return Failure(depth.error);
      }
      depths := depths[source[k].candidateId := depth.value];
    }
    assert source[..|source|] == source;
    forall c | c in all ensures RootAt(all, c, depths[c.candidateId]) && depths[c.candidateId] == Depth(all, c) {
      DepthIsUnique(all, c, depths[c.candidateId], Depth(all, c));
    }
    r := Success(depths);
  }
}
