/** What skipped-test enumeration promises: src/pipeline/lanes/skipped_tests.py, module SkippedTests. */
module SkippedLaws {
  import opened Wrappers
  import opened Schemas
  import opened Containment
  import opened SkippedTests

  // ---- the flat walk is recursion over the nested classes --------------------------------------

  /** What the table stands for: pass the nearest skipped class down the tree. */
  function Tree(path: string, body: Body, scope: Scope, enclosing: Option<string>): seq<Site> {
    match body
    case Done => []
    case Then(d, rest) =>
      Repeat(SiteAt(path, d, scope, enclosing), Skips(d.markers))
      + (if d.Class?
         then Tree(path, d.body, scope + [d.name],
                   if Skips(d.markers) > 0 then Some(Nodeid(path, scope + [d.name])) else enclosing)
         else [])
      + Tree(path, rest, scope, enclosing)
  }

  function ClassNames(body: Body): set<string> {
    match body
    case Done => {}
    case Then(d, rest) => (if d.Class? then {d.name} else {}) + ClassNames(rest)
  }

  /** No class shares its name with another class of the same body. */
  predicate DistinctClasses(body: Body) {
    match body
    case Done => true
    case Then(d, rest) => (d.Class? ==> d.name !in ClassNames(rest) && DistinctClasses(d.body)) && DistinctClasses(rest)
  }

  /** The table knows nothing yet about these classes or anything inside them. */
  ghost predicate Fresh(skipped: map<Scope, string>, scope: Scope, names: set<string>) {
    forall k <- skipped :: forall n <- names :: !(scope + [n] <= k)
  }

  /** `after` adds entries at or inside these classes only. */
  ghost predicate Extends(skipped: map<Scope, string>, after: map<Scope, string>, scope: Scope, names: set<string>) {
    && (forall k <- skipped :: k in after && after[k] == skipped[k])
    && (forall k <- after :: k in skipped || exists n :: n in names && scope + [n] <= k)
  }

  lemma {:induction false} EmitConcat(path: string, a: seq<(Definition, Scope)>, b: seq<(Definition, Scope)>,
                                      skipped: map<Scope, string>)
    ensures var (first, table) := Emit(path, a, skipped);
            var (second, after) := Emit(path, b, table);
            Emit(path, a + b, skipped).0 == first + second && Emit(path, a + b, skipped).1 == after
  {
    if b == [] {
      assert a + b == a;
    } else {
      var n := |b| - 1;
      assert (a + b)[..|a + b| - 1] == a + b[..n];
      EmitConcat(path, a, b[..n], skipped);
    }
  }

  lemma EmitOne(path: string, d: Definition, scope: Scope, skipped: map<Scope, string>)
    ensures Emit(path, [(d, scope)], skipped).0
           == Repeat(SiteAt(path, d, scope, Nearest(skipped, scope)), Skips(d.markers))
    ensures Emit(path, [(d, scope)], skipped).1 == Marked(path, d, scope, skipped)
  {
    var items := [(d, scope)];
    assert items[..0] == [];
    assert Emit(path, [], skipped) == ([], skipped);
  }

  lemma NearestUnchanged(skipped: map<Scope, string>, after: map<Scope, string>, scope: Scope, names: set<string>)
    requires Extends(skipped, after, scope, names)
    ensures Nearest(after, scope) == Nearest(skipped, scope)
  {
    NearestAgrees(skipped, after, scope);
  }

  /** Scopes that differ right after a common part extend each other's classes nowhere. */
  lemma DifferentClasses(scope: Scope, a: string, b: string, k: Scope)
    requires scope + [a] <= k && scope + [b] <= k
    ensures a == b
  {
    assert k[|scope|] == (scope + [a])[|scope|] == (scope + [b])[|scope|];
  }

  /** With distinct class names, walking the flat list with the table finds for every skip the nearest
      enclosing skipped class. */
  lemma {:induction false} EmitIsTree(path: string, body: Body, scope: Scope, skipped: map<Scope, string>)
    requires DistinctClasses(body) && Fresh(skipped, scope, ClassNames(body))
    ensures Emit(path, Preorder(body, scope), skipped).0 == Tree(path, body, scope, Nearest(skipped, scope))
    ensures Extends(skipped, Emit(path, Preorder(body, scope), skipped).1, scope, ClassNames(body))
    decreases body, 0
  {
    if body.Then? {
      var (d, rest) := (body.first, body.rest);
      var m1 := Marked(path, d, scope, skipped);
      var inner := if d.Class? then Preorder(d.body, scope + [d.name]) else [];
      var m2 := Emit(path, inner, m1).1;
      EmitOne(path, d, scope, skipped);
      EmitConcat(path, [(d, scope)], inner, skipped);
      EmitConcat(path, [(d, scope)] + inner, Preorder(rest, scope), skipped);
      if d.Class? {
        InnerClass(path, d, scope, skipped, ClassNames(rest));
      }
      assert Fresh(m2, scope, ClassNames(rest));
      EmitIsTree(path, rest, scope, m2);
      NearestUnchanged(skipped, m2, scope, ClassNames(body));
      ExtendsTransitive(skipped, m2, Emit(path, Preorder(rest, scope), m2).1, scope, ClassNames(body));
    }
  }

  lemma ExtendsTransitive(a: map<Scope, string>, b: map<Scope, string>, c: map<Scope, string>, scope: Scope,
                          names: set<string>)
    requires Extends(a, b, scope, names) && exists fewer :: fewer <= names && Extends(b, c, scope, fewer)
    ensures Extends(a, c, scope, names)
  {}

  /** One class and everything inside it. */
  lemma {:induction false} InnerClass(path: string, d: Definition, scope: Scope, skipped: map<Scope, string>,
                                      others: set<string>)
    requires d.Class? && DistinctClasses(d.body)
    requires Fresh(skipped, scope, {d.name} + others) && d.name !in others
    ensures var m1 := Marked(path, d, scope, skipped);
            var (sites, m2) := Emit(path, Preorder(d.body, scope + [d.name]), m1);
            && sites == Tree(path, d.body, scope + [d.name],
                             if Skips(d.markers) > 0 then Some(Nodeid(path, scope + [d.name]))
                             else Nearest(skipped, scope))
            && Extends(skipped, m2, scope, {d.name})
            && Fresh(m2, scope, others)
    decreases d, 1
  {
    var m1 := Marked(path, d, scope, skipped);
    var deeper := scope + [d.name];
    assert deeper[..|deeper| - 1] == scope;
    forall k | k in m1 && deeper <= k ensures k == deeper {
      assert scope + [d.name] <= k;
    }
    NearestUnchanged(skipped, m1, scope, {d.name});
    assert deeper !in skipped;
    EmitIsTree(path, d.body, deeper, m1);
    var m2 := Emit(path, Preorder(d.body, deeper), m1).1;
    forall k | k in m2 ensures k in skipped || deeper <= k {
      if k !in m1 {
        var n :| n in ClassNames(d.body) && deeper + [n] <= k;
        assert deeper <= k;
      }
    }
    forall k, n | k in m2 && n in others ensures !(scope + [n] <= k) {
      if scope + [n] <= k && k !in skipped {
        DifferentClasses(scope, d.name, n, k);
      }
    }
  }

  // ---- what the dispatcher accepts ---------------------------------------------------------------

  /** No two inputs share a digest. */
  ghost predicate Injective(hash: string -> string) {
    forall a, b :: hash(a) == hash(b) ==> a == b
  }

  /** The candidate reported for a site; `base` supplies the columns the dispatcher does not read. */
  function CandidateOf(hash: string -> string, base: Candidate, s: Site): Candidate {
    base.(candidateId := hash(s.nodeid), stableLocator := s.nodeid, nodeid := Some(s.nodeid),
          enclosingSkipNodeid := s.enclosing)
  }

  function Enumerated(hash: string -> string, base: Candidate, sites: seq<Site>): (cs: seq<Candidate>)
    ensures |cs| == |sites| && forall k :: 0 <= k < |sites| ==> cs[k] == CandidateOf(hash, base, sites[k])
  {
    seq(|sites|, k requires 0 <= k < |sites| => CandidateOf(hash, base, sites[k]))
  }

  predicate DistinctSites(sites: seq<Site>) {
    forall i, j :: 0 <= i < j < |sites| ==> sites[i].nodeid != sites[j].nodeid
  }

  /** Following the links from any site leads to one without a link. */
  lemma {:induction false} SiteHasRoot(hash: string -> string, base: Candidate, sites: seq<Site>, s: Site)
    returns (depth: nat)
    requires Linked(sites) && UniqueNodeids(Rows(Enumerated(hash, base, sites))) && s in sites
    ensures RootAt(Rows(Enumerated(hash, base, sites)), CandidateOf(hash, base, s), depth)
    decreases |s.scope|
  {
    hide RootAt, Parent, Ancestor, Linked;
    var all := Rows(Enumerated(hash, base, sites));
    if s.enclosing.None? {
      depth := 0;
      RootOfUnnested(all, CandidateOf(hash, base, s));
    } else {
      var t := OuterSite(sites, s);
      depth := SiteHasRoot(hash, base, sites, t);
      SiteIsRow(hash, base, sites, t);
      ParentIsFound(all, CandidateOf(hash, base, s), CandidateOf(hash, base, t));
      OneFurtherDown(all, CandidateOf(hash, base, s), CandidateOf(hash, base, t), depth);
      depth := depth + 1;
    }
  }

  lemma OuterSite(sites: seq<Site>, s: Site) returns (t: Site)
    requires Linked(sites) && s in sites && s.enclosing.Some?
    ensures t in sites && Encloses(t, s)
  {
    t :| t in sites && Encloses(t, s);
  }

  lemma SiteIsRow(hash: string -> string, base: Candidate, sites: seq<Site>, t: Site)
    requires t in sites
    ensures CandidateOf(hash, base, t) in Rows(Enumerated(hash, base, sites))
  {
    var k :| 0 <= k < |sites| && sites[k] == t;
    assert Enumerated(hash, base, sites)[k] == CandidateOf(hash, base, t);
  }

  lemma ParentIsFound(all: set<Candidate>, c: Candidate, p: Candidate)
    requires UniqueNodeids(all) && p in all && p.nodeid.Some? && c.enclosingSkipNodeid == p.nodeid
    ensures Parent(all, c) == Some(p)
  {}

  lemma OneFurtherDown(all: set<Candidate>, c: Candidate, p: Candidate, depth: nat)
    requires Parent(all, c) == Some(p) && RootAt(all, p, depth)
    ensures RootAt(all, c, depth + 1)
  {
    hide Parent;
    assert Ancestor(all, c, 0) == Some(c);
    assert Ancestor(all, c, 1) == Some(p);
    AncestorOfAncestor(all, c, 1, depth);
  }

  /** For every repository: the dispatcher accepts the enumerated candidates exactly when no node is
      reported twice; cycles and missing parents cannot occur. */
  lemma AcceptedIffDistinct(hash: string -> string, base: Candidate, files: seq<File>)
    requires Injective(hash)
    ensures var cs := Enumerated(hash, base, AllSites(files));
            && (DistinctNodeids(cs) <==> DistinctSites(AllSites(files)))
            && (DistinctNodeids(cs) ==> DistinctIds(cs) && Forest(Rows(cs)))
  {
    var sites := AllSites(files);
    var cs := Enumerated(hash, base, sites);
    AllLinksPointOutwards(files);
    if DistinctNodeids(cs) {
      forall i, j | 0 <= i < j < |sites| ensures sites[i].nodeid != sites[j].nodeid {
        assert cs[i].nodeid != cs[j].nodeid;
      }
      DistinctNodeidsAreUnique(cs);
      forall c | c in Rows(cs) ensures HasRoot(Rows(cs), c) {
        var k :| 0 <= k < |cs| && cs[k] == c;
        var depth := SiteHasRoot(hash, base, sites, sites[k]);
      }
    }
  }

  // ---- distinct nodes ----------------------------------------------------------------------------

  /** A Python identifier has neither a colon nor a dot in it. */
  predicate Identifier(s: string) {
    s != "" && ':' !in s && '.' !in s
  }

  predicate PythonPath(path: string) {
    |path| >= 3 && path[|path| - 3..] == ".py"
  }

  function Names(body: Body): set<string> {
    match body
    case Done => {}
    case Then(d, rest) => {d.name} + Names(rest)
  }

  /** Names are unique in every scope, and every definition has at most one unconditional skip. */
  predicate WellNamed(body: Body) {
    match body
    case Done => true
    case Then(d, rest) =>
      && Identifier(d.name) && d.name !in Names(rest) && Skips(d.markers) <= 1
      && (d.Class? ==> WellNamed(d.body)) && WellNamed(rest)
  }

  lemma WellNamedClasses(body: Body)
    requires WellNamed(body)
    ensures DistinctClasses(body) && ClassNames(body) <= Names(body)
  {}

  function Parts(s: Site): Scope {
    s.scope + [s.name]
  }

  /** A site of this body: its node is spelled by its parts, which start with one of the names. */
  ghost predicate Within(path: string, s: Site, scope: Scope, names: set<string>) {
    && s.nodeid == Nodeid(path, Parts(s))
    && (exists n :: n in names && scope + [n] <= Parts(s))
    && (forall n :: n in Parts(s)[|scope|..] ==> Identifier(n))
  }

  lemma {:induction false} TreeSitesWithin(path: string, body: Body, scope: Scope, enclosing: Option<string>)
    requires WellNamed(body)
    ensures forall s :: s in Tree(path, body, scope, enclosing) ==> Within(path, s, scope, Names(body))
  {
    if body.Then? {
      var (d, rest) := (body.first, body.rest);
      var deeper := scope + [d.name];
      var mine := if Skips(d.markers) > 0 then Some(Nodeid(path, deeper)) else enclosing;
      TreeSitesWithin(path, rest, scope, enclosing);
      OwnSiteWithin(path, d, scope, enclosing, Names(body));
      if d.Class? {
        TreeSitesWithin(path, d.body, deeper, mine);
        forall s | s in Tree(path, d.body, deeper, mine) ensures Within(path, s, scope, Names(body)) {
          DeeperSiteWithin(path, s, scope, d.name, Names(d.body), Names(body));
        }
      }
    }
  }

  lemma OwnSiteWithin(path: string, d: Definition, scope: Scope, enclosing: Option<string>, names: set<string>)
    requires Identifier(d.name) && d.name in names
    ensures Within(path, SiteAt(path, d, scope, enclosing), scope, names)
  {
    assert scope + [d.name] <= Parts(SiteAt(path, d, scope, enclosing));
  }

  lemma DeeperSiteWithin(path: string, s: Site, scope: Scope, name: string, inner: set<string>, names: set<string>)
    requires Within(path, s, scope + [name], inner) && Identifier(name) && name in names
    ensures Within(path, s, scope, names)
  {
    var parts := Parts(s);
    var n :| n in inner && scope + [name] + [n] <= parts;
    assert scope + [name] <= parts;
    assert parts[|scope|..] == [name] + parts[|scope| + 1..];
  }

  ghost predicate DistinctParts(sites: seq<Site>) {
    forall i, j :: 0 <= i < j < |sites| ==> Parts(sites[i]) != Parts(sites[j])
  }

  lemma {:induction false} TreeSitesDistinct(path: string, body: Body, scope: Scope, enclosing: Option<string>)
    requires WellNamed(body)
    ensures DistinctParts(Tree(path, body, scope, enclosing))
  {
    if body.Then? {
      var (d, rest) := (body.first, body.rest);
      var deeper := scope + [d.name];
      var mine := if Skips(d.markers) > 0 then Some(Nodeid(path, deeper)) else enclosing;
      var own := Repeat(SiteAt(path, d, scope, enclosing), Skips(d.markers));
      var inner := if d.Class? then Tree(path, d.body, deeper, mine) else [];
      var others := Tree(path, rest, scope, enclosing);
      TreeSitesDistinct(path, rest, scope, enclosing);
      TreeSitesWithin(path, rest, scope, enclosing);
      if d.Class? {
        TreeSitesDistinct(path, d.body, deeper, mine);
        TreeSitesWithin(path, d.body, deeper, mine);
      }
      hide Tree, WellNamed, Within;
      forall s, t | s in own && t in inner ensures Parts(s) != Parts(t) {
        InnerIsLonger(path, t, deeper, Names(d.body));
      }
      forall s, t | s in own + inner && t in others ensures Parts(s) != Parts(t) {
        if s in inner {
          InnerIsLonger(path, s, deeper, Names(d.body));
        }
        OtherNameOtherParts(path, s, t, scope, d.name, Names(rest));
      }
      DistinctConcat(own, inner);
      DistinctConcat(own + inner, others);
    }
  }

  lemma InnerIsLonger(path: string, t: Site, deeper: Scope, names: set<string>)
    requires Within(path, t, deeper, names)
    ensures deeper <= Parts(t) && Parts(t) != deeper
  {
    var n :| n in names && deeper + [n] <= Parts(t);
    assert deeper <= deeper + [n];
  }

  lemma OtherNameOtherParts(path: string, s: Site, t: Site, scope: Scope, name: string, names: set<string>)
    requires scope + [name] <= Parts(s) && Within(path, t, scope, names) && name !in names
    ensures Parts(s) != Parts(t)
  {
    var n :| n in names && scope + [n] <= Parts(t);
    assert Parts(s)[|scope|] == name && Parts(t)[|scope|] == n;
  }

  lemma DistinctConcat(a: seq<Site>, b: seq<Site>)
    requires DistinctParts(a) && DistinctParts(b)
    requires forall s, t :: s in a && t in b ==> Parts(s) != Parts(t)
    ensures DistinctParts(a + b)
  {}

  // ---- reading a node id back --------------------------------------------------------------------

  lemma {:induction false} SuffixHasNoDot(names: Scope)
    requires forall n :: n in names ==> Identifier(n)
    ensures '.' !in Suffix(names)
    ensures names != [] ==> |Suffix(names)| > 2 && Suffix(names)[..2] == "::"
  {
    if names != [] {
      assert Identifier(names[0]);
      SuffixHasNoDot(names[1..]);
    }
  }

  /** The first colon ends the first name. */
  lemma {:induction false} SuffixIsInjective(a: Scope, b: Scope)
    requires forall n :: n in a ==> Identifier(n)
    requires forall n :: n in b ==> Identifier(n)
    requires Suffix(a) == Suffix(b)
    ensures a == b
  {
    SuffixHasNoDot(a);
    SuffixHasNoDot(b);
    if a != [] && b != [] {
      SuffixHasNoDot(a[1..]);
      SuffixHasNoDot(b[1..]);
      assert Identifier(a[0]) && Identifier(b[0]);
      assert Suffix(a)[2..] == a[0] + Suffix(a[1..]);
      assert Suffix(b)[2..] == b[0] + Suffix(b[1..]);
      SameHead(a[0], Suffix(a[1..]), b[0], Suffix(b[1..]));
      SuffixIsInjective(a[1..], b[1..]);
      assert a == [a[0]] + a[1..] && b == [b[0]] + b[1..];
    }
  }

  lemma HeadIsNoShorter(a: string, s: string, b: string, t: string)
    requires a + s == b + t && ':' !in b && (s == "" || s[0] == ':')
    ensures |b| <= |a|
  {
    if s != "" {
      assert (b + t)[|a|] == s[0];
    } else {
      assert |a| == |b| + |t|;
    }
  }

  lemma SameHead(a: string, s: string, b: string, t: string)
    requires a + s == b + t && ':' !in a && ':' !in b
    requires s == "" || s[0] == ':'
    requires t == "" || t[0] == ':'
    ensures a == b && s == t
  {
    HeadIsNoShorter(a, s, b, t);
    HeadIsNoShorter(b, t, a, s);
    assert a == (a + s)[..|a|] && b == (b + t)[..|b|];
    assert s == (a + s)[|a|..] && t == (b + t)[|b|..];
  }

  /** The last dot of a node id belongs to the file extension. */
  lemma PathEnds(p: string, s: string, q: string, t: string)
    requires p + s == q + t && PythonPath(p) && PythonPath(q) && '.' !in s && '.' !in t
    ensures p == q && s == t
  {
    if |p| < |q| {
      ShorterPath(p, s, q, t);
    } else if |q| < |p| {
      ShorterPath(q, t, p, s);
    }
    assert p == (p + s)[..|p|] && q == (q + t)[..|q|];
    assert s == (p + s)[|p|..] && t == (q + t)[|q|..];
  }

  lemma ShorterPath(p: string, s: string, q: string, t: string)
    requires p + s == q + t && PythonPath(p) && PythonPath(q) && '.' !in s
    ensures |q| <= |p|
  {
    var k := |q| - 3;
    assert (q + t)[k] == q[k] == q[|q| - 3..][0] == '.';
    assert (p + s)[k] == '.';
    assert k < |p|;
    assert p[|p| - 1] == p[|p| - 3..][2] == 'y' && p[|p| - 2] == p[|p| - 3..][1] == 'p';
    assert (p + s)[|p| - 1] == 'y' && (p + s)[|p| - 2] == 'p';
  }

  lemma NodeidIsInjective(p: string, a: Scope, q: string, b: Scope)
    requires PythonPath(p) && PythonPath(q)
    requires forall n :: n in a ==> Identifier(n)
    requires forall n :: n in b ==> Identifier(n)
    requires Nodeid(p, a) == Nodeid(q, b)
    ensures p == q && a == b
  {
    SuffixHasNoDot(a);
    SuffixHasNoDot(b);
    PathEnds(p, Suffix(a), q, Suffix(b));
    SuffixIsInjective(a, b);
  }

  predicate WellNamedFiles(files: seq<File>) {
    && (forall i, j :: 0 <= i < j < |files| ==> files[i].path != files[j].path)
    && (forall file :: file in files ==> PythonPath(file.path) && (file.body.Some? ==> WellNamed(file.body.value)))
  }

  /** A site of one of these files. */
  ghost predicate FromFile(files: seq<File>, s: Site) {
    exists file :: file in files && Within(file.path, s, [], Names(BodyOf(file)))
  }

  function BodyOf(file: File): Body {
    if file.body.Some? then file.body.value else Done
  }

  lemma FileSitesAreTree(file: File)
    requires PythonPath(file.path) && (file.body.Some? ==> WellNamed(file.body.value))
    ensures FileSites(file) == Tree(file.path, BodyOf(file), [], None)
    ensures DistinctParts(FileSites(file))
    ensures forall s :: s in FileSites(file) ==> Within(file.path, s, [], Names(BodyOf(file)))
  {
    var body := BodyOf(file);
    WellNamedClasses(body);
    EmitIsTree(file.path, body, [], map[]);
    TreeSitesDistinct(file.path, body, [], None);
    TreeSitesWithin(file.path, body, [], None);
  }

  lemma SameNodeSameFile(p: File, s: Site, q: File, t: Site)
    requires PythonPath(p.path) && PythonPath(q.path) && s.nodeid == t.nodeid
    requires Within(p.path, s, [], Names(BodyOf(p))) && Within(q.path, t, [], Names(BodyOf(q)))
    ensures p.path == q.path && Parts(s) == Parts(t)
  {
    assert Parts(s)[0..] == Parts(s) && Parts(t)[0..] == Parts(t);
    NodeidIsInjective(p.path, Parts(s), q.path, Parts(t));
  }

  lemma {:induction false} WellNamedSitesAreDistinct(files: seq<File>)
    requires WellNamedFiles(files)
    ensures DistinctSites(AllSites(files))
    ensures forall s :: s in AllSites(files) ==> FromFile(files, s)
  {
    if files != [] {
      var n := |files| - 1;
      var last := files[n];
      WellNamedSitesAreDistinct(files[..n]);
      FileSitesAreTree(last);
      var before, now := AllSites(files[..n]), FileSites(last);
      forall i, j | 0 <= i < j < |now| ensures now[i].nodeid != now[j].nodeid {
        if now[i].nodeid == now[j].nodeid {
          SameNodeSameFile(last, now[i], last, now[j]);
        }
      }
      forall s, t | s in before && t in now ensures s.nodeid != t.nodeid {
        var file :| file in files[..n] && Within(file.path, s, [], Names(BodyOf(file)));
        if s.nodeid == t.nodeid {
          SameNodeSameFile(file, s, last, t);
        }
      }
      forall s | s in AllSites(files) ensures FromFile(files, s) {
        if s in before {
          var file :| file in files[..n] && Within(file.path, s, [], Names(BodyOf(file)));
          assert file in files;
        } else {
          assert last in files;
        }
      }
    }
  }

  /** One skip per definition and unique names per scope: the enumerated candidates are a forest the
      dispatcher accepts, and every link names the nearest enclosing skipped class. */
  lemma WellNamedRepositoryIsAccepted(hash: string -> string, base: Candidate, files: seq<File>)
    requires Injective(hash) && WellNamedFiles(files)
    ensures var cs := Enumerated(hash, base, AllSites(files));
            DistinctNodeids(cs) && DistinctIds(cs) && Forest(Rows(cs))
    ensures forall file :: file in files ==> FileSites(file) == Tree(file.path, BodyOf(file), [], None)
  {
    WellNamedSitesAreDistinct(files);
    AcceptedIffDistinct(hash, base, files);
    forall file | file in files ensures FileSites(file) == Tree(file.path, BodyOf(file), [], None) {
      FileSitesAreTree(file);
    }
  }

  /** Two unconditional skips on one definition are two candidates for one node: dispatch raises. */
  lemma {:induction false} RepeatedSkipIsRefused(path: string, items: seq<(Definition, Scope)>, k: nat,
                                                 hash: string -> string, base: Candidate)
    requires k < |items| && Skips(items[k].0.markers) >= 2
    ensures !DistinctNodeids(Enumerated(hash, base, Emit(path, items, map[]).0))
    decreases |items|
  {
    var n := |items| - 1;
    var (sites, table) := Emit(path, items[..n], map[]);
    var all := Emit(path, items, map[]).0;
    var cs := Enumerated(hash, base, all);
    if k == n {
      var i := |sites|;
      assert all[i] == all[i + 1];
      assert cs[i].nodeid == cs[i + 1].nodeid;
    } else {
      RepeatedSkipIsRefused(path, items[..n], k, hash, base);
      var fewer := Enumerated(hash, base, sites);
      var i, j :| 0 <= i < j < |fewer| && fewer[i].nodeid.Some? && fewer[i].nodeid == fewer[j].nodeid;
      assert cs[i] == fewer[i] && cs[j] == fewer[j];
    }
  }
}
