/**
 * The older dashboard: the same prefix name search with a different category
 * separator, a combined search that issues at most one "in" query for the
 * areas and one "array-contains-any" query for the categories and intersects
 * them by id, a spotsExist flag, a search button whose label and enabling
 * follow the selection, and the way a record's category string is displayed.
 */
module DashboardBackup {
  import opened Optional
  import opened Text
  import opened SpotStore
  import opened Resolution
  import opened Selection

  /** The category names of a display record are joined with a bare comma. */
  const Separator: string := ","

  // ---- the search button ----

  datatype ButtonLabel = AreaSearch | CategorySearch | AreaAndCategorySearch

  function LabelText(caption: ButtonLabel): string {
    match caption
    case AreaSearch => "エリア検索"
    case CategorySearch => "カテゴリー検索"
    case AreaAndCategorySearch => "エリア＆カテゴリ検索"
  }

  datatype SearchButton = SearchButton(caption: ButtonLabel, enabled: bool)

  /** The useEffect on the selections: its label and whether it is enabled. */
  function SearchButtonFor(areas: seq<string>, categories: seq<string>): (b: SearchButton)
    ensures b.enabled <==> |areas| > 0 || |categories| > 0
    ensures b.caption == AreaSearch <==> |areas| > 0 && |categories| == 0
    ensures b.caption == CategorySearch <==> |areas| == 0 && |categories| > 0
  {
    if |areas| > 0 && |categories| == 0 then SearchButton(AreaSearch, true)
    else if |categories| > 0 && |areas| == 0 then SearchButton(CategorySearch, true)
    else if |areas| > 0 && |categories| > 0 then SearchButton(AreaAndCategorySearch, true)
    else SearchButton(AreaAndCategorySearch, false)
  }

  // ---- name search ----

  function NameSearch(db: Db, searchQuery: Option<string>): Option<seq<SearchResult>> {
    if !db.queriesSucceed then None
    else ResolveAll(NameQuery(db.spots, searchQuery), db, Separator)
  }

  // ---- combined search ----

  /** What handleCombinedSearch hands to resolution for the selected areas and categories. */
  function CombinedDocs(spots: seq<Spot>, areas: seq<string>, categories: seq<string>): seq<Spot> {
    if |areas| > 0 && |categories| > 0 then
      Filter(CategoryContainsAny(spots, categories), (d: Spot) => d.id in IdsOf(AreaIn(spots, areas)))
    else if |areas| > 0 then AreaIn(spots, areas)
    else if |categories| > 0 then CategoryContainsAny(spots, categories)
    else []
  }

  /** The records a combined search publishes, or None when the catch block runs. */
  function CombinedSearch(db: Db, areas: seq<string>, categories: seq<string>): Option<seq<SearchResult>> {
    if !db.queriesSucceed && (|areas| > 0 || |categories| > 0) then None
    else ResolveAll(CombinedDocs(db.spots, areas, categories), db, Separator)
  }

  /**
   * With both filters set, the result is the category-query documents whose id
   * the area query also returned, and it comes out in store order: it is one
   * pass over the store keeping the documents that match a selected category
   * and whose id the area query returned.
   */
  lemma BothFiltersIntersect(spots: seq<Spot>, areas: seq<string>, categories: seq<string>)
    requires |areas| > 0 && |categories| > 0
    ensures forall x :: x in CombinedDocs(spots, areas, categories) <==>
      x in CategoryContainsAny(spots, categories) && exists y :: y in AreaIn(spots, areas) && y.id == x.id
    ensures CombinedDocs(spots, areas, categories) ==
      Filter(spots, (d: Spot) => (exists c :: c in categories && c in d.categoryIds) && d.id in IdsOf(AreaIn(spots, areas)))
  {
    var ids := IdsOf(AreaIn(spots, areas));
    FilterFilter(spots, (d: Spot) => exists c :: c in categories && c in d.categoryIds, (d: Spot) => d.id in ids,
      (d: Spot) => (exists c :: c in categories && c in d.categoryIds) && d.id in ids);
  }

  /** With only one kind of filter, the result is exactly that query's documents; with none it is empty. */
  lemma SingleFilterResults(spots: seq<Spot>, areas: seq<string>, categories: seq<string>)
    ensures |categories| == 0 ==>
      forall x :: x in CombinedDocs(spots, areas, categories) <==> x in spots && x.areaId in areas
    ensures |areas| == 0 ==>
      forall x :: x in CombinedDocs(spots, areas, categories) <==>
        x in spots && exists c :: c in categories && c in x.categoryIds
  {
  }

  /**
   * When the spot ids are unique in the store and both filters are set, the
   * result is exactly the spots in a selected area with a selected category.
   */
  lemma BothFiltersByDocument(spots: seq<Spot>, areas: seq<string>, categories: seq<string>)
    requires |areas| > 0 && |categories| > 0
    requires forall i, j :: 0 <= i < j < |spots| ==> spots[i].id != spots[j].id
    ensures forall x :: x in CombinedDocs(spots, areas, categories) <==>
      x in spots && x.areaId in areas && exists c :: c in categories && c in x.categoryIds
  {
    forall x | x in CombinedDocs(spots, areas, categories)
      ensures x.areaId in areas
    {
      var y :| y in AreaIn(spots, areas) && y.id == x.id;
      var i :| 0 <= i < |spots| && spots[i] == x;
      var j :| 0 <= j < |spots| && spots[j] == y;
      assert i == j;
    }
  }

  // ---- displaying the category string ----

  /** spot.category.split(",").map(trim).filter(non-empty) */
  function DisplayCategories(category: string): seq<string> {
    NonEmpty(TrimAll(Split(category, ',')))
  }

  function TrimAll(parts: seq<string>): seq<string> {
    seq(|parts|, k requires 0 <= k < |parts| => Trim(parts[k]))
  }

  function NonEmpty(parts: seq<string>): (r: seq<string>)
    ensures forall x :: x in r <==> x in parts && x != ""
  {
    if |parts| == 0 then []
    else (if parts[0] != "" then [parts[0]] else []) + NonEmpty(parts[1..])
  }

  lemma {:induction false} TrimAllTrimmed(parts: seq<string>)
    requires forall k :: 0 <= k < |parts| ==> Trimmed(parts[k])
    ensures TrimAll(parts) == parts
  {
    forall k | 0 <= k < |parts| ensures TrimAll(parts)[k] == parts[k] {
      TrimOfTrimmed(parts[k]);
    }
  }

  lemma {:induction false} NonEmptyKeepsAll(parts: seq<string>)
    requires forall k :: 0 <= k < |parts| ==> parts[k] != ""
    ensures NonEmpty(parts) == parts
  {
    if |parts| > 0 {
      NonEmptyKeepsAll(parts[1..]);
      assert parts == [parts[0]] + parts[1..];
    }
  }

  /**
   * Displaying a joined category string gives the names back in order when
   * the names are non-empty, contain no comma and have no surrounding
   * whitespace; an empty list displays as nothing.
   */
  lemma DisplayJoinedCategories(names: seq<string>)
    requires forall k :: 0 <= k < |names| ==> names[k] != "" && ',' !in names[k] && Trimmed(names[k])
    ensures DisplayCategories(Join(names, Separator)) == names
  {
    if |names| == 0 {
      assert Join(names, Separator) == "";
      FailedCategoryDisplaysNothing();
    } else {
      assert Separator == [','];
      SplitJoin(names, ',');
      assert Split(Join(names, Separator), ',') == names;
      TrimAllTrimmed(names);
      NonEmptyKeepsAll(names);
    }
  }

  /** A record whose category field is "" (a failed reference) displays no category at all. */
  lemma FailedCategoryDisplaysNothing()
    ensures DisplayCategories("") == []
  {
    assert Split("", ',') == [""];
    assert Trim("") == "";
    assert [""][1..] == [];
  }

  // ---- the component state ----

  class BackupDashboardView {
    var spots: seq<SearchResult>
    var spotsExist: bool
    var searchQuery: Option<string>
    var selectedAreas: seq<string>
    var selectedCategories: seq<string>
    var searching: bool
    var buttonLabel: ButtonLabel
    var isButtonEnabled: bool

    /** Selections stay duplicate-free and the search button always reflects them. */
    ghost predicate Valid()
      reads this
    {
      && NoDuplicates(selectedAreas) && NoDuplicates(selectedCategories)
      && SearchButton(buttonLabel, isButtonEnabled) == SearchButtonFor(selectedAreas, selectedCategories)
    }

    constructor ()
      ensures Valid()
      ensures spots == [] && spotsExist && searchQuery == Some("") && !searching
      ensures selectedAreas == [] && selectedCategories == []
    {
      spots, spotsExist, searchQuery, searching := [], true, Some(""), false;
      selectedAreas, selectedCategories := [], [];
      buttonLabel, isButtonEnabled := AreaAndCategorySearch, false;
    }

    /** The useEffect that runs whenever a selection changes. */
    method UpdateSearchButton()
      modifies this`buttonLabel, this`isButtonEnabled
      ensures SearchButton(buttonLabel, isButtonEnabled) == SearchButtonFor(selectedAreas, selectedCategories)
    {
      if |selectedAreas| > 0 && |selectedCategories| == 0 {
        buttonLabel, isButtonEnabled := AreaSearch, true;
      } else if |selectedCategories| > 0 && |selectedAreas| == 0 {
        buttonLabel, isButtonEnabled := CategorySearch, true;
      } else if |selectedAreas| > 0 && |selectedCategories| > 0 {
        buttonLabel, isButtonEnabled := AreaAndCategorySearch, true;
      } else {
        buttonLabel, isButtonEnabled := AreaAndCategorySearch, false;
      }
    }

    method EditSearchQuery(text: string)
      requires Valid()
      modifies this`searchQuery
      ensures Valid() && searchQuery == Some(text)
    {
      searchQuery := Some(text);
    }

    /** An area checkbox's onChange, followed by the effect it triggers. */
    method ToggleArea(areaId: string)
      requires Valid()
      modifies this`selectedAreas, this`buttonLabel, this`isButtonEnabled
      ensures Valid()
      ensures selectedAreas == Toggle(old(selectedAreas), areaId)
    {
      selectedAreas := Toggle(selectedAreas, areaId);
      UpdateSearchButton();
    }

    /** A category checkbox's onChange, followed by the effect it triggers. */
    method ToggleCategory(categoryId: string)
      requires Valid()
      modifies this`selectedCategories, this`buttonLabel, this`isButtonEnabled
      ensures Valid()
      ensures selectedCategories == Toggle(old(selectedCategories), categoryId)
    {
      selectedCategories := Toggle(selectedCategories, categoryId);
      UpdateSearchButton();
    }

    /** handleNameSearch run to completion; without a catch, a failure leaves searching true. */
    method HandleNameSearch(db: Db)
      requires Valid()
      modifies this`spots, this`spotsExist, this`searchQuery, this`searching
      ensures Valid()
      ensures searchQuery == (if old(searchQuery) == Some("") then None else old(searchQuery))
      ensures var r := NameSearch(db, old(searchQuery));
        if r.Some? then spots == r.value && spotsExist == (r.value != []) && !searching
        else spots == old(spots) && spotsExist == old(spotsExist) && searching
    {
      searching := true;
      var queryText := searchQuery;
      searchQuery := if queryText == Some("") then None else queryText;
      if !db.queriesSucceed {
        return;
      }
      var resolved := ResolveResults(NameQuery(db.spots, queryText), db, Separator);
      if resolved.None? {
        return;
      }
      spotsExist := |resolved.value| != 0;
      spots := resolved.value;
      searching := false;
    }

    /** handleCombinedSearch run to completion; the catch block leaves spots and spotsExist alone. */
    method HandleCombinedSearch(db: Db)
      requires Valid()
      modifies this`spots, this`spotsExist, this`searching
      ensures Valid()
      ensures !searching
      ensures var r := CombinedSearch(db, selectedAreas, selectedCategories);
        if r.Some? then spots == r.value && spotsExist == (r.value != [])
        else spots == old(spots) && spotsExist == old(spotsExist)
    {
      searching := true;
      var areas, categories := selectedAreas, selectedCategories;
      if !db.queriesSucceed && (|areas| > 0 || |categories| > 0) {
        searching := false;
        return;
      }
      var combined: seq<Spot> := [];
      if |areas| > 0 && |categories| > 0 {
        var areaSnapshot := AreaIn(db.spots, areas);
        var categorySnapshot := CategoryContainsAny(db.spots, categories);
        var areaSpotIds := IdsOf(areaSnapshot);
        combined := Filter(categorySnapshot, (d: Spot) => d.id in areaSpotIds);
        FilterExt(categorySnapshot, (d: Spot) => d.id in areaSpotIds, (d: Spot) => d.id in IdsOf(AreaIn(db.spots, areas)));
      } else if |areas| > 0 {
        combined := AreaIn(db.spots, areas);
      } else if |categories| > 0 {
        combined := CategoryContainsAny(db.spots, categories);
      }
      var resolved := ResolveResults(combined, db, Separator);
      if resolved.None? {
        searching := false;
        return;
      }
      spotsExist := |resolved.value| != 0;
      spots := resolved.value;
      searching := false;
    }

    /** The name-search button's disabled attribute: no text to search for, or a search in progress. */
    function NameSearchButtonDisabled(): (disabled: bool)
      reads this
      ensures disabled <==> searchQuery.None? || searchQuery == Some("") || searching
    {
      !(searchQuery.Some? && searchQuery.value != "") || searching
    }
  }
}
