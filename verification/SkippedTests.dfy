/**
 Skipped-test enumeration (src/pipeline/lanes/skipped_tests.py): a flat walk over the definitions of a file
 that remembers, in a table keyed by class scope, which enclosing classes are skipped. The table is shown
 to do what recursion over the nested classes would, and the result to be what the dispatcher accepts.
 */
module SkippedTests {
  import opened Wrappers
  import opened Schemas
  import opened Containment

  /** What a decorator turns out to be once its name is resolved. */
  datatype Marker = Unconditional | Conditional | Unrelated

  datatype Definition =
    | Class(name: string, markers: seq<Marker>, body: Body)
    | Function(name: string, markers: seq<Marker>)

  datatype Body = Done | Then(first: Definition, rest: Body)

  type Scope = seq<string>

  /** One unconditional skip; `enclosing` is the node of the nearest skipped class around it. */
  datatype Site = Site(nodeid: string, enclosing: Option<string>, scope: Scope, name: string)

  // ---- node ids --------------------------------------------------------------------------------

  function Suffix(names: seq<string>): string {
    if names == [] then "" else "::" + names[0] + Suffix(names[1..])
  }

  /** The parts joined by `::`. */
  function Nodeid(path: string, parts: Scope): string {
    path + Suffix(parts)
  }

  // ---- the flat walk -----------------------------------------------------------------------------

  /** The definitions of a body, classes before their members, each with its class scope. */
  function Preorder(body: Body, scope: Scope): seq<(Definition, Scope)> {
    match body
    case Done => []
    case Then(d, rest) =>
      [(d, scope)] + (if d.Class? then Preorder(d.body, scope + [d.name]) else []) + Preorder(rest, scope)
  }

  function Skips(markers: seq<Marker>): nat {
    if markers == [] then 0
    else Skips(markers[..|markers| - 1]) + if markers[|markers| - 1].Unconditional? then 1 else 0
  }

  /** The skipped class with the longest scope that contains `scope`. */
  function Nearest(skipped: map<Scope, string>, scope: Scope): Option<string> {
    if scope == [] then None
    else if scope in skipped then Some(skipped[scope])
    else Nearest(skipped, scope[..|scope| - 1])
  }

  function Repeat(site: Site, n: nat): (sites: seq<Site>)
    ensures |sites| == n && forall s :: s in sites ==> s == site
  {
    seq(n, _ => site)
  }

  function SiteAt(path: string, d: Definition, scope: Scope, enclosing: Option<string>): Site {
    Site(Nodeid(path, scope + [d.name]), enclosing, scope, d.name)
  }

  function Marked(path: string, d: Definition, scope: Scope, skipped: map<Scope, string>): map<Scope, string> {
    if d.Class? && Skips(d.markers) > 0 then skipped[scope + [d.name] := Nodeid(path, scope + [d.name])] else skipped
  }

  /** Sites and table after a list of definitions. */
  function Emit(path: string, items: seq<(Definition, Scope)>, skipped: map<Scope, string>): (seq<Site>, map<Scope,
                string>)
  {
    if items == [] then ([], skipped)
    else
      var n := |items| - 1;
      var (sites, table) := Emit(path, items[..n], skipped);
      var (d, scope) := items[n];
      (sites + Repeat(SiteAt(path, d, scope, Nearest(table, scope)), Skips(d.markers)), Marked(path, d, scope, table))
  }

  /** The scope loop of the source: prefixes of the scope, longest first. */
  method FindEnclosing(skipped: map<Scope, string>, scope: Scope) returns (enclosing: Option<string>)
    ensures enclosing == Nearest(skipped, scope)
  {
    var index := |scope|;
    assert scope[..index] == scope;
    while index > 0
      invariant 0 <= index <= |scope|
      invariant Nearest(skipped, scope[..index]) == Nearest(skipped, scope)
    {
      if scope[..index] in skipped {
        return Some(skipped[scope[..index]]);
      }
      assert scope[..index][..index - 1] == scope[..index - 1];
      index := index - 1;
    }
    enclosing := None;
  }

  /** Enumerate the unconditional skips of one file. */
  method EnumerateFile(path: string, body: Body) returns (sites: seq<Site>)
    ensures sites == Emit(path, Preorder(body, []), map[]).0
  {
    var items := Preorder(body, []);
    var skipped: map<Scope, string> := map[];
    sites := [];
    for k := 0 to |items|
      invariant (sites, skipped) == Emit(path, items[..k], map[])
    {
      assert items[..k + 1][..k] == items[..k];
      sites, skipped := VisitDefinition(path, items[k].0, items[k].1, sites, skipped);
    }
    assert items[..|items|] == items;
  }

  /** A test file; nothing when it cannot be read or parsed. */
  datatype File = File(path: string, body: Option<Body>)

  function FileSites(file: File): seq<Site> {
    if file.body.Some? then Emit(file.path, Preorder(file.body.value, []), map[]).0 else []
  }

  function AllSites(files: seq<File>): seq<Site> {
    if files == [] then [] else AllSites(files[..|files| - 1]) + FileSites(files[|files| - 1])
  }

  /** The files that could not be read, in order. */
  function Unreadable(files: seq<File>): seq<string> {
    if files == [] then []
    else
      var n := |files| - 1;
      Unreadable(files[..n]) + if files[n].body.None? then [files[n].path] else []
  }

  /** Enumerate the unconditional skips of a repository, and report what could not be read. */
  method EnumerateSkippedTests(files: seq<File>) returns (sites: seq<Site>, failures: seq<string>)
    ensures sites == AllSites(files)
    ensures failures == Unreadable(files)
  {
    hide Emit, Preorder;
    sites, failures := [], [];
    for k := 0 to |files|
      invariant sites == AllSites(files[..k]) && failures == Unreadable(files[..k])
    {
      assert files[..k + 1][..k] == files[..k];
      if files[k].body.None? {
        failures := failures + [files[k].path];
      } else {
        var more := EnumerateFile(files[k].path, files[k].body.value);
        sites := sites + more;
      }
    }
    assert files[..|files|] == files;
  }

  /** Every unconditional decorator of one definition makes a site. */
  method VisitDefinition(path: string, d: Definition, scope: Scope, before: seq<Site>, table: map<Scope, string>)
    returns (sites: seq<Site>, skipped: map<Scope, string>)
    ensures sites == before + Repeat(SiteAt(path, d, scope, Nearest(table, scope)), Skips(d.markers))
    ensures skipped == Marked(path, d, scope, table)
  {
    sites, skipped := before, table;
    var nodeid := Nodeid(path, scope + [d.name]);
    for k := 0 to |d.markers|
      invariant sites == before + Repeat(SiteAt(path, d, scope, Nearest(table, scope)), Skips(d.markers[..k]))
      invariant skipped == if d.Class? && Skips(d.markers[..k]) > 0 then table[scope + [d.name] := nodeid] else table
    {
      assert d.markers[..k + 1][..k] == d.markers[..k];
      if d.markers[k].Unconditional? {
        var enclosing := FindEnclosing(skipped, scope);
        NearestAgrees(table, skipped, scope);
        sites := sites + [Site(nodeid, enclosing, scope, d.name)];
        if d.Class? {
          skipped := skipped[scope + [d.name] := nodeid];
        }
      }
    }
    assert d.markers[..|d.markers|] == d.markers;
  }

  /** The lookup reads no scope longer than the one asked for. */
  lemma {:induction false} NearestAgrees(a: map<Scope, string>, b: map<Scope, string>, scope: Scope)
    requires forall k :: k <= scope ==> (k in a <==> k in b) && (k in a ==> a[k] == b[k])
    ensures Nearest(a, scope) == Nearest(b, scope)
  {
    if scope != [] {
      NearestAgrees(a, b, scope[..|scope| - 1]);
    }
  }

  // ---- links point outwards --------------------------------------------------------------------

  /** Every link names a reported site with a shorter scope. */
  ghost predicate Linked(sites: seq<Site>) {
    forall s :: s in sites && s.enclosing.Some? ==> exists t :: t in sites && Encloses(t, s)
  }

  predicate Encloses(t: Site, s: Site) {
    s.enclosing == Some(t.nodeid) && |t.scope| < |s.scope|
  }

  /** Every entry of the table is the node of a reported class. */
  ghost predicate Backed(skipped: map<Scope, string>, sites: seq<Site>) {
    forall k <- skipped :: exists t :: t in sites && t.nodeid == skipped[k] && t.scope + [t.name] == k
  }

  lemma {:induction false} NearestIsEntry(skipped: map<Scope, string>, scope: Scope) returns (k: Scope)
    requires Nearest(skipped, scope).Some?
    ensures k in skipped && k <= scope && Nearest(skipped, scope) == Some(skipped[k])
  {
    if scope in skipped {
      k := scope;
    } else {
      k := NearestIsEntry(skipped, scope[..|scope| - 1]);
    }
  }

  /** However the classes of a file are named, every link it reports points to a site outside. */
  lemma {:induction false} LinksPointOutwards(path: string, items: seq<(Definition, Scope)>)
    ensures var (sites, table) := Emit(path, items, map[]); Linked(sites) && Backed(table, sites)
  {
    if items != [] {
      var n := |items| - 1;
      LinksPointOutwards(path, items[..n]);
      var (sites, table) := Emit(path, items[..n], map[]);
      var (d, scope) := items[n];
      var here := SiteAt(path, d, scope, Nearest(table, scope));
      var more := sites + Repeat(here, Skips(d.markers));
      if here.enclosing.Some? {
        var k := NearestIsEntry(table, scope);
        var t :| t in sites && t.nodeid == table[k] && t.scope + [t.name] == k;
        assert Encloses(t, here);
      }
      LinkedGrows(sites, Repeat(here, Skips(d.markers)));
      forall k | k in Marked(path, d, scope, table)
        ensures exists t :: t in more && t.nodeid == Marked(path, d, scope, table)[k] && t.scope + [t.name] == k
      {
        if d.Class? && Skips(d.markers) > 0 && k == scope + [d.name] {
          assert more[|sites|] == here;
          assert here in more;
        } else {
          var t :| t in sites && t.nodeid == table[k] && t.scope + [t.name] == k;
          assert t in more;
        }
      }
    }
  }

  lemma LinkedGrows(a: seq<Site>, b: seq<Site>)
    requires Linked(a)
    requires forall s :: s in b && s.enclosing.Some? ==> exists t :: t in a + b && Encloses(t, s)
    ensures Linked(a + b)
  {
    forall s | s in a + b && s.enclosing.Some? ensures exists t :: t in a + b && Encloses(t, s) {
      if s in a {
        var t :| t in a && Encloses(t, s);
        assert t in a + b;
      }
    }
  }

  lemma {:induction false} AllLinksPointOutwards(files: seq<File>)
    ensures Linked(AllSites(files))
  {
    if files != [] {
      var n := |files| - 1;
      AllLinksPointOutwards(files[..n]);
      if files[n].body.Some? {
        LinksPointOutwards(files[n].path, Preorder(files[n].body.value, []));
      }
      var last := FileSites(files[n]);
      forall s | s in last && s.enclosing.Some?
        ensures exists t :: t in AllSites(files[..n]) + last && Encloses(t, s)
      {
        var t :| t in last && Encloses(t, s);
        assert t in AllSites(files[..n]) + last;
      }
      LinkedGrows(AllSites(files[..n]), last);
    }
  }
}
