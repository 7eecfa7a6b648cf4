/**
 * The search logic of the current dashboard: the prefix name search and the
 * combined area/category search that runs one query per selected area and one
 * per selected category, unites the area matches into an id set, and merges
 * the category matches with explicit de-duplication.
 */
module Dashboard {
  import opened Optional
  import opened Text
  import opened SpotStore
  import opened Resolution
  import opened Selection

  /** The category names of a display record are joined with a comma and a space. */
  const Separator: string := ", "

  // ---- name search ----

  function NameSearch(db: Db, searchQuery: Option<string>): Option<seq<SearchResult>> {
    if !db.queriesSucceed then None
    else ResolveAll(NameQuery(db.spots, searchQuery), db, Separator)
  }

  /** The search text after a click: "" becomes null, anything else stays. */
  function QueryAfterSearch(searchQuery: Option<string>): (r: Option<string>)
    ensures r.None? <==> searchQuery.None? || searchQuery == Some("")
    ensures r.Some? ==> r == searchQuery
  {
    if searchQuery == Some("") then None else searchQuery
  }

  /**
   * A non-empty query selects exactly the documents whose name extends it by
   * nothing, by a character below U+F8FF, or by U+F8FF alone, sorted by name.
   */
  lemma NonEmptyQuerySelection(spots: seq<Spot>, q: string)
    requires q != ""
    ensures SortedByName(NameQuery(spots, Some(q)))
    ensures forall x :: x in NameQuery(spots, Some(q)) <==>
      x in spots && x.name.Some? && IsPrefix(q, x.name.value) &&
      (|x.name.value| == |q| || x.name.value[|q|] < RangeEnd || x.name.value == q + [RangeEnd])
  {
    forall x | x in spots && x.name.Some? {
      PrefixRangeIff(q, x.name.value);
    }
  }

  /** A document named exactly like the query is found. */
  lemma ExactNameFound(spots: seq<Spot>, q: string, x: Spot)
    requires q != "" && x in spots && x.name == Some(q)
    ensures x in NameQuery(spots, Some(q))
  {
    LeReflexive(q);
    PrefixLe(q, q + [RangeEnd]);
  }

  /** No document whose name sorts below the query is found. */
  lemma NameBelowQueryExcluded(spots: seq<Spot>, q: string, x: Spot)
    requires q != "" && x.name.Some? && Lt(x.name.value, q)
    ensures x !in NameQuery(spots, Some(q))
  {
    if x in NameQuery(spots, Some(q)) {
      LeAntisymmetric(q, x.name.value);
    }
  }

  /** An empty or null query selects only the documents whose name is null; with every name present it finds nothing. */
  lemma EmptyQuerySelection(spots: seq<Spot>, searchQuery: Option<string>)
    requires searchQuery.None? || searchQuery == Some("")
    ensures forall x :: x in NameQuery(spots, searchQuery) <==> x in spots && x.name.None?
    ensures (forall k :: 0 <= k < |spots| ==> spots[k].name.Some?) ==> NameQuery(spots, searchQuery) == []
  {
    if forall k :: 0 <= k < |spots| ==> spots[k].name.Some? {
      FilterNone(spots, HasNullName);
    }
  }

  // ---- combined search ----

  /** One where("area", "==", ref) snapshot per selected area, in selection order. */
  function AreaSnapshots(spots: seq<Spot>, areas: seq<string>): (r: seq<seq<Spot>>)
    ensures |r| == |areas|
    ensures forall i :: 0 <= i < |areas| ==> forall x :: x in r[i] <==> x in spots && x.areaId == areas[i]
  {
    seq(|areas|, i requires 0 <= i < |areas| => AreaEquals(spots, areas[i]))
  }

  /** One where("category", "array-contains", ref) snapshot per selected category, in selection order. */
  function CategorySnapshots(spots: seq<Spot>, categories: seq<string>): (r: seq<seq<Spot>>)
    ensures |r| == |categories|
    ensures forall i :: 0 <= i < |categories| ==> forall x :: x in r[i] <==> x in spots && categories[i] in x.categoryIds
  {
    seq(|categories|, i requires 0 <= i < |categories| => CategoryContains(spots, categories[i]))
  }

  /** The areaSpotIds set. */
  function AreaSpotIds(spots: seq<Spot>, areas: seq<string>): set<string> {
    IdsOf(Flatten(AreaSnapshots(spots, areas)))
  }

  /** areaSpotIds is the union of the ids each per-area query returns. */
  lemma AreaSpotIdsUnion(spots: seq<Spot>, areas: seq<string>)
    ensures forall id :: id in AreaSpotIds(spots, areas) <==>
      exists d :: d in spots && d.areaId in areas && d.id == id
  {
    var snaps := AreaSnapshots(spots, areas);
    forall id | id in AreaSpotIds(spots, areas)
      ensures exists d :: d in spots && d.areaId in areas && d.id == id
    {
      var d :| d in Flatten(snaps) && d.id == id;
      var i :| 0 <= i < |snaps| && d in snaps[i];
    }
    forall id, d | d in spots && d.areaId in areas && d.id == id
      ensures id in AreaSpotIds(spots, areas)
    {
      var i :| 0 <= i < |areas| && areas[i] == d.areaId;
      assert d in snaps[i];
    }
  }

  /** The documents of s whose id is in ids (the .filter on areaSpotIds.has). */
  function KeepIds(s: seq<Spot>, ids: set<string>): seq<Spot> {
    Filter(s, (d: Spot) => d.id in ids)
  }

  lemma KeepIdsSnoc(s: seq<Spot>, d: Spot, ids: set<string>)
    ensures KeepIds(s + [d], ids) == KeepIds(s, ids) + (if d.id in ids then [d] else [])
  {
    FilterConcat(s, [d], (x: Spot) => x.id in ids);
    assert Filter([d], (x: Spot) => x.id in ids) == (if d.id in ids then [d] else []) by {
      assert [d][1..] == [];
    }
  }

  predicate UniqueIds(s: seq<Spot>) {
    forall i, j :: 0 <= i < j < |s| ==> s[i].id != s[j].id
  }

  /**
   * The temporaryDataId bookkeeping: each document is kept unless a document
   * with its id was kept before it.
   */
  function Dedup(s: seq<Spot>): (r: seq<Spot>)
    ensures IdsOf(r) == IdsOf(s)
    ensures forall x :: x in r ==> x in s
    ensures UniqueIds(r)
  {
    if |s| == 0 then []
    else
      var init := s[..|s| - 1];
      var last := s[|s| - 1];
      var kept := Dedup(init);
      assert s == init + [last];
      IdsOfConcat(init, [last]);
      if last.id in IdsOf(kept) then kept
      else
        IdsOfConcat(kept, [last]);
        kept + [last]
  }

  lemma DedupSnoc(s: seq<Spot>, d: Spot)
    ensures Dedup(s + [d]) == (if d.id in IdsOf(Dedup(s)) then Dedup(s) else Dedup(s) + [d])
  {
    assert (s + [d])[..|s|] == s;
  }

  /** The position of the first document of s with the given id. */
  function FirstPos(s: seq<Spot>, id: string): (p: nat)
    requires id in IdsOf(s)
    ensures p < |s| && s[p].id == id && id !in IdsOf(s[..p])
  {
    var init := s[..|s| - 1];
    assert s == init + [s[|s| - 1]];
    IdsOfConcat(init, [s[|s| - 1]]);
    if id in IdsOf(init) then
      var p := FirstPos(init, id);
      assert s[..p] == init[..p];
      p
    else
      |s| - 1
  }

  lemma FirstPosSnocOld(s: seq<Spot>, d: Spot, id: string)
    requires id in IdsOf(s)
    ensures id in IdsOf(s + [d]) && FirstPos(s + [d], id) == FirstPos(s, id)
  {
    assert (s + [d])[..|s|] == s;
    IdsOfConcat(s, [d]);
  }

  lemma FirstPosSnocNew(s: seq<Spot>, d: Spot)
    requires d.id !in IdsOf(s)
    ensures d.id in IdsOf(s + [d]) && FirstPos(s + [d], d.id) == |s|
  {
    assert (s + [d])[..|s|] == s;
    IdsOfConcat(s, [d]);
  }

  /** Every document Dedup keeps is the first document of s with its id. */
  lemma {:induction false} DedupTakesFirst(s: seq<Spot>)
    ensures forall k :: 0 <= k < |Dedup(s)| ==> Dedup(s)[k] == s[FirstPos(s, Dedup(s)[k].id)]
    decreases |s|
  {
    if |s| > 0 {
      var init, last := s[..|s| - 1], s[|s| - 1];
      assert s == init + [last];
      DedupTakesFirst(init);
      var r0 := Dedup(init);
      DedupSnoc(init, last);
      forall k | 0 <= k < |r0|
        ensures FirstPos(s, r0[k].id) == FirstPos(init, r0[k].id) < |init|
      {
        assert r0[k] in r0;
        FirstPosSnocOld(init, last, r0[k].id);
      }
      if last.id !in IdsOf(r0) {
        FirstPosSnocNew(init, last);
        forall k | 0 <= k < |Dedup(s)|
          ensures Dedup(s)[k] == s[FirstPos(s, Dedup(s)[k].id)]
        {
          if k < |r0| {
            assert Dedup(s)[k] == r0[k];
          }
        }
      }
    }
  }

  /** Dedup keeps its documents in the order of their ids' first occurrences in s. */
  lemma {:induction false} DedupInFirstOrder(s: seq<Spot>)
    ensures forall i, j :: 0 <= i < j < |Dedup(s)| ==> FirstPos(s, Dedup(s)[i].id) < FirstPos(s, Dedup(s)[j].id)
    decreases |s|
  {
    if |s| > 0 {
      var init, last := s[..|s| - 1], s[|s| - 1];
      assert s == init + [last];
      DedupInFirstOrder(init);
      var r0 := Dedup(init);
      DedupSnoc(init, last);
      forall k | 0 <= k < |r0|
        ensures FirstPos(s, r0[k].id) == FirstPos(init, r0[k].id) < |init|
      {
        assert r0[k] in r0;
        FirstPosSnocOld(init, last, r0[k].id);
      }
      if last.id !in IdsOf(r0) {
        FirstPosSnocNew(init, last);
        forall i, j | 0 <= i < j < |Dedup(s)|
          ensures FirstPos(s, Dedup(s)[i].id) < FirstPos(s, Dedup(s)[j].id)
        {
          assert Dedup(s)[i] == r0[i];
          if j < |r0| {
            assert Dedup(s)[j] == r0[j];
          }
        }
      }
    }
  }

  /** What the category branch builds before resolution (the null placeholders already filtered out). */
  function CategoryBranch(spots: seq<Spot>, areas: seq<string>, categories: seq<string>): seq<Spot> {
    Dedup(KeepIds(Flatten(CategorySnapshots(spots, categories)), AreaSpotIds(spots, areas)))
  }

  /** What handleCombinedSearch hands to resolution. */
  function CombinedDocs(spots: seq<Spot>, areas: seq<string>, categories: seq<string>): seq<Spot> {
    if |categories| > 0 then CategoryBranch(spots, areas, categories)
    else Flatten(AreaSnapshots(spots, areas))
  }

  /** The records a combined search publishes, or None when the catch block runs. */
  function CombinedSearch(db: Db, areas: seq<string>, categories: seq<string>): Option<seq<SearchResult>> {
    if !db.queriesSucceed && (|areas| > 0 || |categories| > 0) then None
    else ResolveAll(CombinedDocs(db.spots, areas, categories), db, Separator)
  }

  /**
   * With a category selected, every document kept is in areaSpotIds and in
   * some selected category's matches, and no id is repeated.
   */
  lemma CategoryBranchMembers(spots: seq<Spot>, areas: seq<string>, categories: seq<string>)
    requires |categories| > 0
    ensures UniqueIds(CombinedDocs(spots, areas, categories))
    ensures forall x :: x in CombinedDocs(spots, areas, categories) ==>
      x in spots && x.id in AreaSpotIds(spots, areas) && exists c :: c in categories && c in x.categoryIds
  {
    var snaps := CategorySnapshots(spots, categories);
    forall x | x in CombinedDocs(spots, areas, categories)
      ensures x in spots && x.id in AreaSpotIds(spots, areas) && exists c :: c in categories && c in x.categoryIds
    {
      assert x in KeepIds(Flatten(snaps), AreaSpotIds(spots, areas));
      var i :| 0 <= i < |snaps| && x in snaps[i];
      assert categories[i] in x.categoryIds;
    }
  }

  /** With no area selected, areaSpotIds is empty, so a category-only search finds nothing. */
  lemma CategoryOnlyFindsNothing(spots: seq<Spot>, categories: seq<string>)
    requires |categories| > 0
    ensures CombinedDocs(spots, [], categories) == []
  {
    AreaSpotIdsUnion(spots, []);
    FilterNone(Flatten(CategorySnapshots(spots, categories)), (d: Spot) => d.id in AreaSpotIds(spots, []));
  }

  /**
   * With no category selected, the result is the per-area matches one area
   * after another; with nothing selected it is empty and needs no query.
   */
  lemma AreaOnlyConcatenation(db: Db, areas: seq<string>)
    ensures CombinedDocs(db.spots, areas, []) == Flatten(AreaSnapshots(db.spots, areas))
    ensures forall x :: x in CombinedDocs(db.spots, areas, []) <==> x in db.spots && x.areaId in areas
    ensures CombinedSearch(db, [], []) == Some([])
  {
    var snaps := AreaSnapshots(db.spots, areas);
    forall x | x in db.spots && x.areaId in areas ensures x in Flatten(snaps) {
      var i :| 0 <= i < |areas| && areas[i] == x.areaId;
      assert x in snaps[i];
    }
    assert AreaSnapshots(db.spots, []) == [];
  }

  // ---- the loops of handleCombinedSearch ----

  /** The nested forEach that adds every area-query document id to areaSpotIds. */
  method CollectAreaSpotIds(areaSnapshots: seq<seq<Spot>>) returns (ids: set<string>)
    ensures ids == IdsOf(Flatten(areaSnapshots))
  {
    ids := {};
    for i := 0 to |areaSnapshots|
      invariant ids == IdsOf(Flatten(areaSnapshots[..i]))
    {
      var docs := areaSnapshots[i];
      assert Flatten(areaSnapshots[..i + 1]) == Flatten(areaSnapshots[..i]) + docs by {
        assert areaSnapshots[..i + 1][..i] == areaSnapshots[..i];
      }
      for j := 0 to |docs|
        invariant ids == IdsOf(Flatten(areaSnapshots[..i]) + docs[..j])
      {
        assert docs[..j + 1] == docs[..j] + [docs[j]];
        IdsOfConcat(Flatten(areaSnapshots[..i]) + docs[..j], [docs[j]]);
        ids := ids + {docs[j].id};
      }
      assert docs[..|docs|] == docs;
    }
    assert areaSnapshots[..|areaSnapshots|] == areaSnapshots;
  }

  /** One document of a category snapshot: kept when its id is in areaSpotIds and not kept before. */
  lemma MergeStep(x: seq<Spot>, d: Spot, ids: set<string>)
    ensures var before := Dedup(KeepIds(x, ids));
      Dedup(KeepIds(x + [d], ids)) ==
        if d.id in ids && d.id !in IdsOf(before) then before + [d] else before
  {
    KeepIdsSnoc(x, d, ids);
    assert KeepIds(x, ids) + [] == KeepIds(x, ids);
    if d.id in ids {
      DedupSnoc(KeepIds(x, ids), d);
    }
  }

  /** One document of a category snapshot: it is kept exactly when it matches and is new. */
  lemma KeepStep(before: seq<Spot>, docs: seq<Spot>, j: nat, ids: set<string>, acc: seq<Spot>, seen: seq<string>)
    requires j < |docs|
    requires acc == Dedup(KeepIds(before + docs[..j], ids))
    requires forall id :: id in seen <==> id in IdsOf(acc)
    ensures (if docs[j].id in ids && docs[j].id !in seen then acc + [docs[j]] else acc)
      == Dedup(KeepIds(before + docs[..j + 1], ids))
  {
    assert before + docs[..j + 1] == (before + docs[..j]) + [docs[j]];
    MergeStep(before + docs[..j], docs[j], ids);
  }

  /** Pushing a document's id keeps the list of seen ids in step with the kept documents. */
  lemma SeenStep(acc: seq<Spot>, seen: seq<string>, d: Spot)
    requires forall id :: id in seen <==> id in IdsOf(acc)
    ensures forall id :: id in seen + [d.id] <==> id in IdsOf(acc + [d])
  {
    IdsOfConcat(acc, [d]);
  }

  /**
   * The filter and map over one category snapshot, concatenated onto the
   * results so far: the documents of docs whose id is in areaSpotIds and not
   * yet in temporaryDataId are appended, and their ids pushed.
   */
  method KeepNewMatches(docs: seq<Spot>, areaSpotIds: set<string>, combined: seq<Spot>, seen: seq<string>,
                        ghost before: seq<Spot>)
    returns (combinedAfter: seq<Spot>, seenAfter: seq<string>)
    requires combined == Dedup(KeepIds(before, areaSpotIds))
    requires forall id :: id in seen <==> id in IdsOf(combined)
    ensures combinedAfter == Dedup(KeepIds(before + docs, areaSpotIds))
    ensures forall id :: id in seenAfter <==> id in IdsOf(combinedAfter)
  {
    combinedAfter, seenAfter := combined, seen;
    assert before + docs[..0] == before;
    for j := 0 to |docs|
      invariant combinedAfter == Dedup(KeepIds(before + docs[..j], areaSpotIds))
      invariant forall id :: id in seenAfter <==> id in IdsOf(combinedAfter)
    {
      var d := docs[j];
      KeepStep(before, docs, j, areaSpotIds, combinedAfter, seenAfter);
      if d.id in areaSpotIds && d.id !in seenAfter {
        SeenStep(combinedAfter, seenAfter, d);
        seenAfter := seenAfter + [d.id];
        combinedAfter := combinedAfter + [d];
      }
    }
    assert docs[..|docs|] == docs;
  }

  /** The forEach over the category snapshots, concatenating each snapshot's new matches. */
  method MergeCategoryMatches(categorySnapshots: seq<seq<Spot>>, areaSpotIds: set<string>) returns (combined: seq<Spot>)
    ensures combined == Dedup(KeepIds(Flatten(categorySnapshots), areaSpotIds))
  {
    var temporaryDataId: seq<string> := [];
    combined := [];
    for i := 0 to |categorySnapshots|
      invariant combined == Dedup(KeepIds(Flatten(categorySnapshots[..i]), areaSpotIds))
      invariant forall id :: id in temporaryDataId <==> id in IdsOf(combined)
    {
      assert Flatten(categorySnapshots[..i + 1]) == Flatten(categorySnapshots[..i]) + categorySnapshots[i] by {
        assert categorySnapshots[..i + 1][..i] == categorySnapshots[..i];
      }
      combined, temporaryDataId := KeepNewMatches(categorySnapshots[i], areaSpotIds, combined, temporaryDataId,
                                                  Flatten(categorySnapshots[..i]));
    }
    assert categorySnapshots[..|categorySnapshots|] == categorySnapshots;
  }

  /** The else branch: concat each area snapshot's documents onto combinedResults. */
  method ConcatAreaMatches(areaSnapshots: seq<seq<Spot>>) returns (combined: seq<Spot>)
    ensures combined == Flatten(areaSnapshots)
  {
    combined := [];
    for i := 0 to |areaSnapshots|
      invariant combined == Flatten(areaSnapshots[..i])
    {
      assert areaSnapshots[..i + 1][..i] == areaSnapshots[..i];
      combined := combined + areaSnapshots[i];
    }
    assert areaSnapshots[..|areaSnapshots|] == areaSnapshots;
  }

  // ---- the component state ----

  /** The dashboard's search state: the useState hooks the search handlers read and write. */
  class DashboardView {
    var spots: seq<SearchResult>
    var searchQuery: Option<string>
    var selectedAreas: seq<string>
    var selectedCategories: seq<string>
    var searching: bool

    /** The checkbox handlers keep both selections free of duplicates. */
    ghost predicate Valid()
      reads this
    {
      NoDuplicates(selectedAreas) && NoDuplicates(selectedCategories)
    }

    constructor ()
      ensures Valid()
      ensures spots == [] && searchQuery == Some("") && selectedAreas == [] && selectedCategories == []
      ensures !searching
    {
      spots, searchQuery, selectedAreas, selectedCategories, searching := [], Some(""), [], [], false;
    }

    /** The search box's onChange. */
    method EditSearchQuery(text: string)
      modifies this
      ensures searchQuery == Some(text)
      ensures spots == old(spots) && searching == old(searching)
      ensures selectedAreas == old(selectedAreas) && selectedCategories == old(selectedCategories)
    {
      searchQuery := Some(text);
    }

    /** An area checkbox's onChange. */
    method ToggleArea(areaId: string)
      requires Valid()
      modifies this
      ensures Valid()
      ensures selectedAreas == Toggle(old(selectedAreas), areaId)
      ensures selectedCategories == old(selectedCategories)
      ensures spots == old(spots) && searchQuery == old(searchQuery) && searching == old(searching)
    {
      selectedAreas := Toggle(selectedAreas, areaId);
    }

    /** A category checkbox's onChange. */
    method ToggleCategory(categoryId: string)
      requires Valid()
      modifies this
      ensures Valid()
      ensures selectedCategories == Toggle(old(selectedCategories), categoryId)
      ensures selectedAreas == old(selectedAreas)
      ensures spots == old(spots) && searchQuery == old(searchQuery) && searching == old(searching)
    {
      selectedCategories := Toggle(selectedCategories, categoryId);
    }

    /**
     * handleNameSearch run to completion. A failure rejects a promise nobody
     * catches, so spots stay and searching stays true.
     */
    method HandleNameSearch(db: Db)
      modifies this
      ensures searchQuery == QueryAfterSearch(old(searchQuery))
      ensures selectedAreas == old(selectedAreas) && selectedCategories == old(selectedCategories)
      ensures NameSearch(db, old(searchQuery)).Some? ==> spots == NameSearch(db, old(searchQuery)).value && !searching
      ensures NameSearch(db, old(searchQuery)).None? ==> spots == old(spots) && searching
    {
      searching := true;
      var queryText := searchQuery;
      searchQuery := QueryAfterSearch(queryText);
      if !db.queriesSucceed {
        return;
      }
      var docs := NameQuery(db.spots, queryText);
      var resolved := ResolveResults(docs, db, Separator);
      if resolved.None? {
        return;
      }
      spots := resolved.value;
      searching := false;
    }

    /** handleCombinedSearch run to completion; the catch block leaves spots alone. */
    method HandleCombinedSearch(db: Db)
      modifies this
      ensures searchQuery == old(searchQuery)
      ensures selectedAreas == old(selectedAreas) && selectedCategories == old(selectedCategories)
      ensures !searching
      ensures var r := CombinedSearch(db, selectedAreas, selectedCategories);
        if r.Some? then spots == r.value else spots == old(spots)
    {
      searching := true;
      var areas, categories := selectedAreas, selectedCategories;
      if !db.queriesSucceed && (|areas| > 0 || |categories| > 0) {
        searching := false;
        return;
      }
      var areaSnapshots := AreaSnapshots(db.spots, areas);
      var categorySnapshots := CategorySnapshots(db.spots, categories);
      var areaSpotIds := CollectAreaSpotIds(areaSnapshots);
      var combined: seq<Spot>;
      if |categories| > 0 {
        combined := MergeCategoryMatches(categorySnapshots, areaSpotIds);
      } else {
        combined := ConcatAreaMatches(areaSnapshots);
      }
      var resolved := ResolveResults(combined, db, Separator);
      if resolved.None? {
        searching := false;
        return;
      }
      spots := resolved.value;
      searching := false;
    }
  }
}
