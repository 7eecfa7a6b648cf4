/**
 * In-memory stand-in for the document store the dashboards query: the "spots"
 * collection, the "area_list" and "category_list" name lookups, and the
 * queries the dashboards issue against them.
 *
 * The spots collection is a sequence kept in document-id order, which is the
 * order the store returns when a query has no orderBy. A document reference is
 * modelled by the referenced document's id.
 */
module SpotStore {
  import opened Optional
  import opened Text

  /** A document of the "spots" collection; a null name is None. */
  datatype Spot = Spot(id: string, name: Option<string>, url: string, areaId: string, categoryIds: seq<string>)

  /**
   * The store as the dashboards see it. A key missing from areaNames or
   * categoryNames is a getDoc whose snapshot has no data. queriesSucceed is
   * false when getDocs rejects (network or permission failure).
   */
  datatype Db = Db(
    spots: seq<Spot>,
    areaNames: map<string, string>,
    categoryNames: map<string, string>,
    queriesSucceed: bool)

  /** A display record: area and category already resolved to names. */
  datatype SearchResult = SearchResult(id: string, name: Option<string>, area: string, url: string, category: string)

  /** The documents of s that satisfy p, in the order of s. */
  function Filter(s: seq<Spot>, p: Spot -> bool): (r: seq<Spot>)
    ensures |r| <= |s|
    ensures forall x :: x in r <==> x in s && p(x)
  {
    if |s| == 0 then []
    else (if p(s[0]) then [s[0]] else []) + Filter(s[1..], p)
  }

  /** Filtering distributes over concatenation, so it keeps the relative order of what it keeps. */
  lemma {:induction false} FilterConcat(a: seq<Spot>, b: seq<Spot>, p: Spot -> bool)
    ensures Filter(a + b, p) == Filter(a, p) + Filter(b, p)
  {
    if |a| > 0 {
      assert (a + b)[1..] == a[1..] + b;
      FilterConcat(a[1..], b, p);
    } else {
      assert a + b == b;
    }
  }

  /** Filters by two tests that agree on every document keep the same documents. */
  lemma {:induction false} FilterExt(s: seq<Spot>, p: Spot -> bool, q: Spot -> bool)
    requires forall x :: p(x) == q(x)
    ensures Filter(s, p) == Filter(s, q)
  {
    if |s| > 0 {
      FilterExt(s[1..], p, q);
    }
  }

  /** Filtering twice keeps, in store order, exactly what one filter by both tests keeps. */
  lemma {:induction false} FilterFilter(s: seq<Spot>, p: Spot -> bool, q: Spot -> bool, both: Spot -> bool)
    requires forall x :: both(x) == (p(x) && q(x))
    ensures Filter(Filter(s, p), q) == Filter(s, both)
  {
    if |s| > 0 {
      FilterFilter(s[1..], p, q, both);
      var head := if p(s[0]) then [s[0]] else [];
      FilterConcat(head, Filter(s[1..], p), q);
      if p(s[0]) {
        assert head[1..] == [];
      }
    }
  }

  lemma {:induction false} FilterNone(s: seq<Spot>, p: Spot -> bool)
    requires forall x :: x in s ==> !p(x)
    ensures Filter(s, p) == []
  {
    if |s| > 0 {
      assert forall x :: x in s[1..] ==> x in s;
      FilterNone(s[1..], p);
    }
  }

  /** The documents of several snapshots, one snapshot after another. */
  function Flatten(ss: seq<seq<Spot>>): (r: seq<Spot>)
    ensures forall x :: x in r <==> exists i :: 0 <= i < |ss| && x in ss[i]
  {
    if |ss| == 0 then [] else Flatten(ss[..|ss| - 1]) + ss[|ss| - 1]
  }

  /** The ids of the documents of s. */
  function IdsOf(s: seq<Spot>): set<string> {
    set x | x in s :: x.id
  }

  lemma IdsOfConcat(a: seq<Spot>, b: seq<Spot>)
    ensures IdsOf(a + b) == IdsOf(a) + IdsOf(b)
  {
  }

  // ---- the queries ----

  /** where("area", "==", ref) */
  function AreaEquals(spots: seq<Spot>, areaId: string): (r: seq<Spot>)
    ensures forall x :: x in r <==> x in spots && x.areaId == areaId
  {
    Filter(spots, (d: Spot) => d.areaId == areaId)
  }

  /** where("area", "in", refs) */
  function AreaIn(spots: seq<Spot>, areaIds: seq<string>): (r: seq<Spot>)
    ensures forall x :: x in r <==> x in spots && x.areaId in areaIds
  {
    Filter(spots, (d: Spot) => d.areaId in areaIds)
  }

  /** where("category", "array-contains", ref) */
  function CategoryContains(spots: seq<Spot>, categoryId: string): (r: seq<Spot>)
    ensures forall x :: x in r <==> x in spots && categoryId in x.categoryIds
  {
    Filter(spots, (d: Spot) => categoryId in d.categoryIds)
  }

  /** where("category", "array-contains-any", refs) */
  function CategoryContainsAny(spots: seq<Spot>, categoryIds: seq<string>): (r: seq<Spot>)
    ensures forall x :: x in r <==> x in spots && exists c :: c in categoryIds && c in x.categoryIds
  {
    Filter(spots, (d: Spot) => exists c :: c in categoryIds && c in d.categoryIds)
  }

  /** where("name", "==", null) */
  function NullName(spots: seq<Spot>): (r: seq<Spot>)
    ensures forall x :: x in r <==> x in spots && x.name.None?
  {
    Filter(spots, HasNullName)
  }

  predicate HasNullName(d: Spot) {
    d.name.None?
  }

  /** The private-use character U+F8FF that closes the prefix range. */
  const RangeEnd: char := '\U{F8FF}'

  /** startAt(q) and endAt(q + "") on the name. */
  predicate InPrefixRange(q: string, n: string) {
    Le(q, n) && Le(n, q + [RangeEnd])
  }

  /**
   * The range [q, q + U+F8FF] holds exactly the names that extend q with
   * nothing, with a character below U+F8FF, or with U+F8FF alone.
   */
  lemma {:induction false} PrefixRangeIff(q: string, n: string)
    ensures InPrefixRange(q, n) <==>
      IsPrefix(q, n) && (|n| == |q| || n[|q|] < RangeEnd || n == q + [RangeEnd])
    decreases |q|
  {
    if |q| == 0 {
      assert q + [RangeEnd] == [RangeEnd];
      if |n| > 0 && n[0] == RangeEnd {
        assert Le(n, [RangeEnd]) <==> |n| == 1;
        assert |n| == 1 ==> n == [RangeEnd];
      }
    } else if |n| > 0 && n[0] == q[0] {
      assert (q + [RangeEnd])[1..] == q[1..] + [RangeEnd];
      PrefixRangeIff(q[1..], n[1..]);
      assert IsPrefix(q, n) <==> IsPrefix(q[1..], n[1..]) by {
        if IsPrefix(q[1..], n[1..]) {
          assert n[..|q|] == [n[0]] + n[1..][..|q| - 1];
          assert q == [q[0]] + q[1..];
        }
        if IsPrefix(q, n) {
          assert n[1..][..|q| - 1] == n[..|q|][1..];
        }
      }
      assert n == q + [RangeEnd] <==> n[1..] == q[1..] + [RangeEnd] by {
        if n[1..] == q[1..] + [RangeEnd] {
          assert n == [n[0]] + n[1..];
        }
      }
    } else if |n| > 0 {
      if |q| <= |n| {
        assert n[..|q|][0] == n[0];
      }
      assert (q + [RangeEnd])[0] == q[0];
    }
  }

  // ---- orderBy("name") ----

  /** The sort key of a document; every document a prefix query returns has a name. */
  function NameKey(d: Spot): string {
    d.name.GetOr("")
  }

  predicate SortedByName(s: seq<Spot>) {
    forall i, j :: 0 <= i < j < |s| ==> Le(NameKey(s[i]), NameKey(s[j]))
  }

  /** Inserts d before the first document whose name is not below d's. */
  function InsertByName(d: Spot, s: seq<Spot>): (r: seq<Spot>)
    requires SortedByName(s)
    ensures SortedByName(r)
    ensures multiset(r) == multiset(s) + multiset{d}
  {
    if |s| == 0 then [d]
    else if Le(NameKey(d), NameKey(s[0])) then
      SortedInsertHead(d, s);
      [d] + s
    else
      LeTotal(NameKey(d), NameKey(s[0]));
      var rest := InsertByName(d, s[1..]);
      SortedConsHead(s[0], rest, d, s[1..]);
      assert s == [s[0]] + s[1..];
      [s[0]] + rest
  }

  lemma SortedInsertHead(d: Spot, s: seq<Spot>)
    requires SortedByName(s) && |s| > 0 && Le(NameKey(d), NameKey(s[0]))
    ensures SortedByName([d] + s)
  {
    forall j | 0 < j < |s| + 1 ensures Le(NameKey(d), NameKey(([d] + s)[j])) {
      if j > 1 { LeTransitive(NameKey(d), NameKey(s[0]), NameKey(s[j - 1])); }
    }
  }

  lemma SortedConsHead(h: Spot, rest: seq<Spot>, d: Spot, tail: seq<Spot>)
    requires SortedByName(rest) && SortedByName([h] + tail)
    requires Le(NameKey(h), NameKey(d))
    requires multiset(rest) == multiset(tail) + multiset{d}
    ensures SortedByName([h] + rest)
  {
    forall j | 0 <= j < |rest| ensures Le(NameKey(h), NameKey(rest[j])) {
      assert rest[j] in multiset(rest);
      if rest[j] != d {
        assert rest[j] in multiset(tail);
        var k :| 0 <= k < |tail| && tail[k] == rest[j];
        assert ([h] + tail)[k + 1] == tail[k] && ([h] + tail)[0] == h;
      }
    }
  }

  /** A stable insertion sort by name: equal names keep their store (document-id) order. */
  function SortByName(s: seq<Spot>): (r: seq<Spot>)
    ensures SortedByName(r)
    ensures multiset(r) == multiset(s)
  {
    if |s| == 0 then []
    else
      assert s == [s[0]] + s[1..];
      InsertByName(s[0], SortByName(s[1..]))
  }

  /** orderBy("name"), startAt(q), endAt(q + ""). */
  function PrefixRange(spots: seq<Spot>, q: string): (r: seq<Spot>)
    ensures SortedByName(r)
    ensures forall x :: x in r <==> x in spots && x.name.Some? && InPrefixRange(q, x.name.value)
  {
    var inRange := (d: Spot) => d.name.Some? && InPrefixRange(q, d.name.value);
    var matches := Filter(spots, inRange);
    var sorted := SortByName(matches);
    forall x ensures x in sorted <==> x in spots && inRange(x) {
      assert x in sorted <==> x in multiset(sorted);
      assert x in matches <==> x in multiset(matches);
    }
    sorted
  }

  /**
   * The query both dashboards' handleNameSearch issue for the text in the
   * search box: a prefix range for a non-empty text, and name == null for ""
   * or null (both falsy).
   */
  function NameQuery(spots: seq<Spot>, searchQuery: Option<string>): seq<Spot> {
    if searchQuery.Some? && searchQuery.value != "" then PrefixRange(spots, searchQuery.value)
    else NullName(spots)
  }
}
