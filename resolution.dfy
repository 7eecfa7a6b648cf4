/**
 * Turning query documents into display records: the area reference becomes
 * the area's name and the category references become one joined string.
 * Both dashboards do this the same way except for the join separator.
 */
module Resolution {
  import opened Optional
  import opened Text
  import opened SpotStore

  /** The names of the referenced categories in reference order, or None when one of them has no document. */
  function ResolveCategories(refs: seq<string>, names: map<string, string>): (r: Option<seq<string>>)
    ensures r.Some? <==> forall k :: 0 <= k < |refs| ==> refs[k] in names
    ensures r.Some? ==> |r.value| == |refs| && forall k :: 0 <= k < |refs| ==> r.value[k] == names[refs[k]]
  {
    if |refs| == 0 then Some([])
    else if refs[0] !in names then None
    else
      match ResolveCategories(refs[1..], names)
      case None => None
      case Some(rest) => Some([names[refs[0]]] + rest)
  }

  /**
   * The category field of a display record: the joined names, or "" as soon
   * as one reference fails, discarding the names already resolved.
   */
  function CategoryField(refs: seq<string>, names: map<string, string>, sep: string): string {
    match ResolveCategories(refs, names)
    case Some(resolved) => Join(resolved, sep)
    case None => ""
  }

  /** One failing reference empties the whole field, whatever the other references resolve to. */
  lemma CategoryFieldAllOrNothing(refs: seq<string>, names: map<string, string>, sep: string, k: nat)
    requires k < |refs| && refs[k] !in names
    ensures CategoryField(refs, names, sep) == ""
  {
  }

  /** When every reference resolves, the field joins the names in reference order. */
  lemma CategoryFieldResolved(refs: seq<string>, names: map<string, string>, sep: string)
    requires forall k :: 0 <= k < |refs| ==> refs[k] in names
    ensures CategoryField(refs, names, sep) == Join(seq(|refs|, k requires 0 <= k < |refs| => names[refs[k]]), sep)
  {
    var r := ResolveCategories(refs, names);
    assert r.value == seq(|refs|, k requires 0 <= k < |refs| => names[refs[k]]);
  }

  /** The try block around the category loop: getDoc each reference, push its name, join; a throw gives "". */
  method JoinCategoryNames(refs: seq<string>, names: map<string, string>, sep: string) returns (category: string)
    ensures category == CategoryField(refs, names, sep)
  {
    var categoryNames: seq<string> := [];
    for i := 0 to |refs|
      invariant forall k :: 0 <= k < i ==> refs[k] in names
      invariant categoryNames == seq(i, k requires 0 <= k < i => names[refs[k]])
    {
      if refs[i] !in names {
        // categoryData is undefined: reading .name throws and the catch sets ""
        return "";
      }
      categoryNames := categoryNames + [names[refs[i]]];
    }
    CategoryFieldResolved(refs, names, sep);
    category := Join(categoryNames, sep);
  }

  /** The display record of one document, or None when its area document is missing (reading areaData.name throws). */
  function ResolveSpot(d: Spot, db: Db, sep: string): (r: Option<SearchResult>)
    ensures r.Some? <==> d.areaId in db.areaNames
    ensures r.Some? ==> r.value == SearchResult(d.id, d.name, db.areaNames[d.areaId], d.url,
                                                 CategoryField(d.categoryIds, db.categoryNames, sep))
  {
    if d.areaId !in db.areaNames then None
    else Some(SearchResult(d.id, d.name, db.areaNames[d.areaId], d.url,
                           CategoryField(d.categoryIds, db.categoryNames, sep)))
  }

  /** Promise.all over the documents: every display record in document order, or None if any one fails. */
  function ResolveAll(docs: seq<Spot>, db: Db, sep: string): (r: Option<seq<SearchResult>>)
    ensures r.Some? <==> forall k :: 0 <= k < |docs| ==> docs[k].areaId in db.areaNames
    ensures r.Some? ==> (|r.value| == |docs| &&
      forall k :: 0 <= k < |docs| ==> Some(r.value[k]) == ResolveSpot(docs[k], db, sep))
  {
    if |docs| == 0 then Some([])
    else
      match ResolveSpot(docs[0], db, sep)
      case None => None
      case Some(first) =>
        match ResolveAll(docs[1..], db, sep)
        case None => None
        case Some(rest) => Some([first] + rest)
  }

  /** Resolved records keep the id, name and url of their documents, in document order. */
  lemma ResolveAllKeepsDocuments(docs: seq<Spot>, db: Db, sep: string)
    requires ResolveAll(docs, db, sep).Some?
    ensures var rs := ResolveAll(docs, db, sep).value;
      |rs| == |docs| && forall k :: 0 <= k < |docs| ==>
        rs[k].id == docs[k].id && rs[k].name == docs[k].name && rs[k].url == docs[k].url
  {
  }

  /** The fan-out over the documents, run one document at a time. */
  method ResolveResults(docs: seq<Spot>, db: Db, sep: string) returns (results: Option<seq<SearchResult>>)
    ensures results == ResolveAll(docs, db, sep)
  {
    var records: seq<SearchResult> := [];
    for i := 0 to |docs|
      invariant forall k :: 0 <= k < i ==> docs[k].areaId in db.areaNames
      invariant |records| == i
      invariant forall k :: 0 <= k < i ==> Some(records[k]) == ResolveSpot(docs[k], db, sep)
    {
      var d := docs[i];
      if d.areaId !in db.areaNames {
        return None;
      }
      var category := JoinCategoryNames(d.categoryIds, db.categoryNames, sep);
      records := records + [SearchResult(d.id, d.name, db.areaNames[d.areaId], d.url, category)];
    }
    var all := ResolveAll(docs, db, sep);
    assert all.Some?;
    assert all.value == records;
    results := Some(records);
  }
}
