/**
 `build_marker_index` of src/pipeline/state.py: one pass over bounded search pages, maintaining an
 index and a set of duplicated ids. The result is a group-by of issue numbers per marker id, whatever
 the order of the items and however they are split into pages.
 */
module MarkerIndex {
  import opened Wrappers
  import opened Markers

  const PAGE_SIZE := 100
  const MAX_PAGES := 10

  /** The unique tracking issue found for one candidate marker. */
  datatype MarkerArtifact = MarkerArtifact(number: nat, url: string)

  /** One search hit, as far as its fields have the expected types. */
  datatype SearchItem =
    | NotAnObject
    | SearchItem(isPullRequest: bool, number: Option<nat>, url: Option<string>, body: Option<string>)

  datatype SearchPage = MalformedPage | SearchPage(items: seq<SearchItem>)

  datatype BuildError = MalformedResponse | TooManyPages

  datatype Index = Index(artifacts: map<string, MarkerArtifact>, duplicates: set<string>)

  /** An item the index takes into account: an issue with a number, a link and a body. */
  predicate Usable(item: SearchItem) {
    && item.SearchItem?
    && !item.isPullRequest
    && item.number.Some?
    && item.url.Some? && item.url.value != "" && !PullLink(item.url.value, 0)
    && item.body.Some?
  }

  /** Python's `"/pull/" in url[from:]`. */
  predicate PullLink(url: string, from: nat)
    requires from <= |url|
    decreases |url| - from
  {
    "/pull/" <= url[from..] || (from < |url| && PullLink(url, from + 1))
  }

  predicate Mentions(item: SearchItem, id: string) {
    Usable(item) && id in MarkerIds(item.body.value)
  }

  /** The issues under which a marker id occurs. */
  ghost function Hits(items: seq<SearchItem>, id: string): set<MarkerArtifact> {
    set k | 0 <= k < |items| && Mentions(items[k], id) :: MarkerArtifact(items[k].number.value, items[k].url.value)
  }

  ghost predicate Several(hits: set<MarkerArtifact>) {
    exists a, b :: a in hits && b in hits && a.number != b.number
  }

  /** All hits carry the number of `one`, which is a hit itself. */
  ghost predicate Single(hits: set<MarkerArtifact>, one: MarkerArtifact) {
    one in hits && forall h :: h in hits ==> h.number == one.number
  }

  /** The index agrees with the issues each id was seen under. */
  ghost predicate Groups(index: Index, hits: string -> set<MarkerArtifact>) {
    && (forall id <- index.artifacts :: id !in index.duplicates && Single(hits(id), index.artifacts[id]))
    && (forall id <- index.duplicates :: Several(hits(id)))
    && (forall id :: id !in index.artifacts && id !in index.duplicates ==> hits(id) == {})
  }

  /** All items of the pages from `page` on, up to and including the first short page. */
  function Collect(searchPage: nat -> SearchPage, page: nat): Result<seq<SearchItem>, BuildError>
    decreases MAX_PAGES + 1 - page
  {
    if page > MAX_PAGES then Failure(TooManyPages)
    else if searchPage(page).MalformedPage? then Failure(MalformedResponse)
    else
      var items := searchPage(page).items;
      if |items| < PAGE_SIZE then Success(items)
      else
        After(items, Collect(searchPage, page + 1))
  }

  function After(seen: seq<SearchItem>, rest: Result<seq<SearchItem>, BuildError>): Result<seq<SearchItem>, BuildError>
  {
    match rest
    case Failure(e) => Failure(e)
    case Success(items) => Success(seen + items)
  }

  method BuildMarkerIndex(searchPage: nat -> SearchPage) returns (r: Result<Index, BuildError>)
    ensures r.Success? <==> Collect(searchPage, 1).Success?
    ensures r.Failure? ==> r.error == Collect(searchPage, 1).error
    ensures r.Success? ==> Groups(r.value, id => Hits(Collect(searchPage, 1).value, id))
  {
    hide Groups, Hits;
    var index := Index(map[], {});
    ghost var seen: seq<SearchItem> := [];
    EmptyIndex();
    assert Collect(searchPage, 1).Success? ==> seen + Collect(searchPage, 1).value == Collect(searchPage, 1).value;
    for page := 1 to MAX_PAGES + 1
      invariant Groups(index, id => Hits(seen, id))
      invariant Collect(searchPage, 1) == After(seen, Collect(searchPage, page))
    {
      var response := searchPage(page);
      if response.MalformedPage? {
        return Failure(MalformedResponse);
      }
      index := AddPage(index, response.items, seen);
      NextPage(searchPage, page, seen);
      seen := seen + response.items;
      if |response.items| < PAGE_SIZE {
        return Success(index);
      }
    }
    return Failure(TooManyPages);
  }

  lemma EmptyIndex()
    ensures Groups(Index(map[], {}), id => Hits([], id))
  {}

  /** A short page is the last one; after a full one the rest follows. */
  lemma NextPage(searchPage: nat -> SearchPage, page: nat, seen: seq<SearchItem>)
    requires 1 <= page <= MAX_PAGES && !searchPage(page).MalformedPage?
    ensures var items := searchPage(page).items;
            After(seen, Collect(searchPage, page)) ==
              if |items| < PAGE_SIZE then Success(seen + items) else After(seen + items, Collect(searchPage, page + 1))
  {
    var items := searchPage(page).items;
    if |items| >= PAGE_SIZE && Collect(searchPage, page + 1).Success? {
      var rest := Collect(searchPage, page + 1).value;
      assert seen + (items + rest) == (seen + items) + rest;
    }
  }

  /** Fold the items of one page into the index. */
  method AddPage(index: Index, items: seq<SearchItem>, ghost seen: seq<SearchItem>) returns (index': Index)
    requires Groups(index, id => Hits(seen, id))
    ensures Groups(index', id => Hits(seen + items, id))
  {
    hide Hits;
    index' := index;
    assert seen + items[..0] == seen;
    for k := 0 to |items|
      invariant Groups(index', id => Hits(seen + items[..k], id))
    {
      ghost var before := seen + items[..k];
      ghost var earlier := index';
      if Usable(items[k]) {
        index' := AddItem(index', items[k], before);
      }
      GroupsNextItem(earlier, index', before, items[k]);
      assert before + [items[k]] == seen + items[..k + 1];
    }
    assert items[..|items|] == items;
  }

  lemma GroupsNextItem(index: Index, index': Index, seen: seq<SearchItem>, item: SearchItem)
    requires Groups(index, id => Hits(seen, id))
    requires if Usable(item)
             then Groups(index', WithMatches(seen, MarkerIds(item.body.value),
                                        MarkerArtifact(item.number.value, item.url.value)))
             else index' == index
    ensures Groups(index', id => Hits(seen + [item], id))
  {
    hide MarkerIds;
    forall id ensures Hits(seen + [item], id) == Hits(seen, id) + Fresh(item, id) {
      HitsAppend(seen, item, id);
    }
  }

  /** What one more item contributes to the hits of an id. */
  ghost function Fresh(item: SearchItem, id: string): set<MarkerArtifact> {
    if Mentions(item, id) then {MarkerArtifact(item.number.value, item.url.value)} else {}
  }

  lemma HitsAppend(items: seq<SearchItem>, item: SearchItem, id: string)
    ensures Hits(items + [item], id) == Hits(items, id) + Fresh(item, id)
  {
    hide MarkerIds;
    var all := items + [item];
    forall h ensures h in Hits(all, id) <==> h in Hits(items, id) + Fresh(item, id) {
      if h in Hits(items, id) {
        var k :| 0 <= k < |items| && Mentions(items[k], id)
              && MarkerArtifact(items[k].number.value, items[k].url.value) == h;
        assert all[k] == items[k];
      }
      if h in Fresh(item, id) {
        assert all[|items|] == item;
      }
    }
  }

  /** The hits once `ids` have been read from the body of one more issue. */
  ghost function WithMatches(seen: seq<SearchItem>, ids: seq<string>,
                             artifact: MarkerArtifact): string -> set<MarkerArtifact>
  {
    id => Hits(seen, id) + if id in ids then {artifact} else {}
  }

  /** Fold every marker match of one usable item into the index. */
  method AddItem(index: Index, item: SearchItem, ghost seen: seq<SearchItem>) returns (index': Index)
    requires Usable(item)
    requires Groups(index, id => Hits(seen, id))
    ensures Groups(index', WithMatches(seen, MarkerIds(item.body.value),
                                       MarkerArtifact(item.number.value, item.url.value)))
  {
    hide MarkerIds, Hits, Groups, WithMatches, AddMention;
    index' := index;
    var ids := MarkerIds(item.body.value);
    var artifact := MarkerArtifact(item.number.value, item.url.value);
    NoMentionYet(index, seen, artifact);
    assert ids[..0] == [];
    for m := 0 to |ids|
      invariant Groups(index', WithMatches(seen, ids[..m], artifact))
    {
      NextMention(index', seen, ids, m, artifact);
      index' := AddMention(index', ids[m], artifact);
    }
    assert ids[..|ids|] == ids;
  }

  lemma NoMentionYet(index: Index, seen: seq<SearchItem>, artifact: MarkerArtifact)
    requires Groups(index, id => Hits(seen, id))
    ensures Groups(index, WithMatches(seen, [], artifact))
  {
    hide Hits;
  }

  lemma NextMention(index: Index, seen: seq<SearchItem>, ids: seq<string>, m: nat, artifact: MarkerArtifact)
    requires m < |ids| && Groups(index, WithMatches(seen, ids[..m], artifact))
    ensures Groups(AddMention(index, ids[m], artifact), WithMatches(seen, ids[..m + 1], artifact))
  {
    hide Hits, Groups, AddMention;
    assert ids[..m + 1] == ids[..m] + [ids[m]];
    GroupsStep(index, AddMention(index, ids[m], artifact), ids[m], artifact,
               WithMatches(seen, ids[..m], artifact), WithMatches(seen, ids[..m + 1], artifact));
  }

  /** One marker match: a second number makes the id a duplicate for good. */
  function AddMention(index: Index, id: string, artifact: MarkerArtifact): Index {
    if id in index.artifacts && index.artifacts[id].number != artifact.number then
      Index(index.artifacts - {id}, index.duplicates + {id})
    else if id !in index.duplicates then
      index.(artifacts := index.artifacts[id := artifact])
    else index
  }

  lemma GroupsStep(index: Index, index': Index, id: string, artifact: MarkerArtifact,
                   before: string -> set<MarkerArtifact>, after: string -> set<MarkerArtifact>)
    requires Groups(index, before) && index' == AddMention(index, id, artifact)
    requires after(id) == before(id) + {artifact}
    requires forall other :: other != id ==> after(other) == before(other)
    ensures Groups(index', after)
  {
    if id in index.duplicates {
      var a, b :| a in before(id) && b in before(id) && a.number != b.number;
      assert a in after(id) && b in after(id);
    } else if id in index.artifacts && index.artifacts[id].number != artifact.number {
      assert index.artifacts[id] in after(id) && artifact in after(id);
    }
  }

  /** The issue numbers under which a marker id occurs. */
  ghost function Numbers(items: seq<SearchItem>, id: string): set<nat> {
    set h | h in Hits(items, id) :: h.number
  }

  /** The group-by, both directions: an id is indexed exactly when its marker occurs under one issue
      number, and a duplicate exactly when it occurs under two or more. */
  lemma IndexIsGroupBy(index: Index, items: seq<SearchItem>, id: string)
    requires Groups(index, x => Hits(items, x))
    ensures id in index.artifacts <==> exists n :: Numbers(items, id) == {n}
    ensures id in index.artifacts ==> Numbers(items, id) == {index.artifacts[id].number}
    ensures id in index.artifacts ==> index.artifacts[id] in Hits(items, id)
    ensures id in index.duplicates <==> exists a, b :: a in Numbers(items, id) && b in Numbers(items, id) && a != b
    ensures id !in index.artifacts && id !in index.duplicates <==> Numbers(items, id) == {}
  {
    hide MarkerIds;
    var hits, numbers := Hits(items, id), Numbers(items, id);
    assert forall h :: h in hits ==> h.number in numbers;
    if id in index.artifacts {
      assert numbers == {index.artifacts[id].number};
    } else if id in index.duplicates {
      var a, b :| a in hits && b in hits && a.number != b.number;
      assert a.number in numbers && b.number in numbers;
      assert forall n :: numbers == {n} ==> a.number == n && b.number == n;
    } else {
      assert numbers == {};
    }
  }

  /** Two searches that return the same items in another order or split yield the same grouping. */
  lemma GroupingIgnoresOrder(a: Index, b: Index, itemsA: seq<SearchItem>, itemsB: seq<SearchItem>)
    requires Groups(a, x => Hits(itemsA, x)) && Groups(b, x => Hits(itemsB, x))
    requires forall item :: item in itemsA <==> item in itemsB
    ensures a.duplicates == b.duplicates
    ensures a.artifacts.Keys == b.artifacts.Keys
    ensures forall id <- a.artifacts :: a.artifacts[id].number == b.artifacts[id].number
  {
    forall id
      ensures id in a.duplicates <==> id in b.duplicates
      ensures id in a.artifacts <==> id in b.artifacts
      ensures id in a.artifacts ==> a.artifacts[id].number == b.artifacts[id].number
    {
      hide Hits, MarkerIds;
      SameItemsSameHits(itemsA, itemsB, id);
      SameItemsSameHits(itemsB, itemsA, id);
      SameHitsSameGroup(a, b, Hits(itemsA, id), id);
    }
  }

  lemma SameHitsSameGroup(a: Index, b: Index, hits: set<MarkerArtifact>, id: string)
    requires if id in a.artifacts then id !in a.duplicates && Single(hits, a.artifacts[id])
             else if id in a.duplicates then Several(hits) else hits == {}
    requires if id in b.artifacts then id !in b.duplicates && Single(hits, b.artifacts[id])
             else if id in b.duplicates then Several(hits) else hits == {}
    ensures id in a.duplicates <==> id in b.duplicates
    ensures id in a.artifacts <==> id in b.artifacts
    ensures id in a.artifacts ==> a.artifacts[id].number == b.artifacts[id].number
  {}

  lemma SameItemsSameHits(itemsA: seq<SearchItem>, itemsB: seq<SearchItem>, id: string)
    requires forall item :: item in itemsA ==> item in itemsB
    ensures Hits(itemsA, id) <= Hits(itemsB, id)
  {
    hide MarkerIds;
    forall h | h in Hits(itemsA, id) ensures h in Hits(itemsB, id) {
      var k :| 0 <= k < |itemsA| && Mentions(itemsA[k], id)
            && MarkerArtifact(itemsA[k].number.value, itemsA[k].url.value) == h;
      assert itemsA[k] in itemsB;
    }
  }
}
