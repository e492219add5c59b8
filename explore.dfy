/**
 * The Explore page's listing view (src/pages/Explore.tsx): the fetched
 * listings are filtered by a case-insensitive search over title and
 * location and by condition, then ordered by one of four sort keys.
 * The whole view is one `listings.filter(...).sort(...)` expression, so it
 * is modelled as functions over immutable sequences: the fetched sequence
 * is never changed, and the sort acts on the fresh filtered one.
 */
module Explore {
  import opened Common
  import ListingSection

  /** A fetched listing row; the text columns may be null or missing. */
  datatype Listing = Listing(
    id: string,
    title: Field,
    location: Field,
    condition: Field,
    price: int,
    rating: Option<int>,
    createdAt: int)  // the created_at column as a timestamp

  /** The page's search term, condition filter and sort key. */
  datatype Query = Query(searchTerm: string, condition: string, sortBy: string)

  /** The page opens with no search, every condition, newest first. */
  const InitialQuery := Query("", "all", "newest")

  // ------------------------------------------------------------- filter

  /**
   * The search test: skipped for an empty term, else a title or location
   * hit; a hit needs a field at least as long as the term.
   */
  predicate SearchMatches(l: Listing, term: string): (r: bool)
    ensures term == "" ==> r
    ensures r && term != "" ==> |term| <= |Stringify(l.title)| || |term| <= |Stringify(l.location)|
  {
    term == "" ||
    Includes(Lower(Stringify(l.title)), Lower(term)) ||
    Includes(Lower(Stringify(l.location)), Lower(term))
  }

  /**
   * The condition test: "all" passes everything, else equality ignoring
   * case, so the exact word always passes and a word of another length never
   * does.
   */
  predicate ConditionMatches(l: Listing, condition: string): (r: bool)
    ensures condition == "all" ==> r
    ensures Stringify(l.condition) == condition ==> r
    ensures r && condition != "all" ==> |Stringify(l.condition)| == |condition|
  {
    condition == "all" || Lower(Stringify(l.condition)) == Lower(condition)
  }

  /** The filter callback: both tests must pass, so the opening query keeps everything. */
  predicate Keep(l: Listing, q: Query): (r: bool)
    ensures q.searchTerm == "" && q.condition == "all" ==> r
  {
    SearchMatches(l, q.searchTerm) && ConditionMatches(l, q.condition)
  }

  function KeepFor(q: Query): Listing -> bool
  {
    l => Keep(l, q)
  }

  /**
   * A non-empty term keeps a listing exactly when the lower-cased term is a
   * substring of the lower-cased String() of its title or of its location.
   */
  lemma SearchIsCaseInsensitiveSubstring(l: Listing, term: string)
    requires term != ""
    ensures SearchMatches(l, term) <==>
      IsSubstring(Lower(term), Lower(Stringify(l.title))) ||
      IsSubstring(Lower(term), Lower(Stringify(l.location)))
  {
    IncludesIffSubstring(Lower(Stringify(l.title)), Lower(term));
    IncludesIffSubstring(Lower(Stringify(l.location)), Lower(term));
  }

  /** A term whose lower-cased form begins the lower-cased title is found. */
  lemma TitlePrefixMatches(l: Listing, term: string)
    requires |Lower(term)| <= |Lower(Stringify(l.title))|
    requires Lower(Stringify(l.title))[..|term|] == Lower(term)
    ensures SearchMatches(l, term)
  {
  }

  /** A missing title is searched as the text "undefined", not as "": that word finds it. */
  lemma MissingTitleSearchedAsUndefined(l: Listing)
    requires l.title == Undefined
    ensures SearchMatches(l, "undefined")
  {
    IncludesSelf(Lower("undefined"));
  }

  /** A term longer than "undefined" never finds a listing with neither title nor location. */
  lemma MissingFieldsMissLongTerm(l: Listing, term: string)
    requires l.title == Undefined && l.location == Undefined
    requires |term| > |"undefined"|
    ensures !SearchMatches(l, term)
  {
  }

  // --------------------------------------------------------------- sort

  /**
   * The sort comparator, one case per sort key ("newest" is the default
   * case). Every case is the difference of one integer key, so the
   * comparator is a consistent total preorder and sorting by it is sorting
   * by that key.
   */
  function Compare(a: Listing, b: Listing, sortBy: string): (r: int)
    ensures r == Rank(a, sortBy) - Rank(b, sortBy)
  {
    if sortBy == "price_low" then a.price - b.price
    else if sortBy == "price_high" then b.price - a.price
    else if sortBy == "rating" then OrZero(b.rating) - OrZero(a.rating)
    else b.createdAt - a.createdAt
  }

  /** The key the comparator orders by, smallest first. */
  function Rank(l: Listing, sortBy: string): int
  {
    if sortBy == "price_low" then l.price
    else if sortBy == "price_high" then -l.price
    else if sortBy == "rating" then -OrZero(l.rating)
    else -l.createdAt
  }

  /** The sort key as a function value, the comparator being its difference. */
  function SortKey(sortBy: string): Listing -> int
  {
    l => Rank(l, sortBy)
  }

  /** Adjacent elements are in key order. */
  ghost predicate Sorted(s: seq<Listing>, key: Listing -> int)
  {
    forall i :: 0 <= i < |s| - 1 ==> key(s[i]) <= key(s[i + 1])
  }

  /**
   * Insertion of `x` in front of the first element it does not sort after,
   * that is, the first element the comparator does not rank below `x`.
   */
  function Insert(x: Listing, s: seq<Listing>, key: Listing -> int): (r: seq<Listing>)
    ensures multiset(r) == multiset(s) + multiset{x}
    ensures r[0] == x || (s != [] && r[0] == s[0])
    ensures Sorted(s, key) ==> Sorted(r, key)
  {
    if s == [] || key(x) <= key(s[0]) then [x] + s
    else
      assert s == [s[0]] + s[1..];
      [s[0]] + Insert(x, s[1..], key)
  }

  /**
   * Array.prototype.sort with the comparator: a stable sort (ECMAScript
   * 2019), written as an insertion sort.
   */
  function Sort(s: seq<Listing>, key: Listing -> int): (r: seq<Listing>)
    ensures multiset(r) == multiset(s)
    ensures Sorted(r, key)
  {
    if s == [] then []
    else
      assert s == [s[0]] + s[1..];
      Insert(s[0], Sort(s[1..], key), key)
  }

  /** The listings whose key equals k: the ones the comparator ties. */
  function TiedWith(key: Listing -> int, k: int): Listing -> bool
  {
    l => key(l) == k
  }

  lemma {:induction false} InsertStable(x: Listing, s: seq<Listing>, key: Listing -> int, k: int)
    ensures Filter(Insert(x, s, key), TiedWith(key, k)) ==
      (if key(x) == k then [x] else []) + Filter(s, TiedWith(key, k))
  {
    var tied := TiedWith(key, k);
    if s == [] || key(x) <= key(s[0]) {
      assert Insert(x, s, key) == [x] + s;
      FilterCons(x, s, tied);
    } else {
      InsertStable(x, s[1..], key, k);
      InsertStableStep(x, s, key, k);
    }
  }

  /** The step of InsertStable where `x` moves past the first element. */
  lemma InsertStableStep(x: Listing, s: seq<Listing>, key: Listing -> int, k: int)
    requires s != [] && key(x) > key(s[0])
    requires Filter(Insert(x, s[1..], key), TiedWith(key, k)) ==
      (if key(x) == k then [x] else []) + Filter(s[1..], TiedWith(key, k))
    ensures Filter(Insert(x, s, key), TiedWith(key, k)) ==
      (if key(x) == k then [x] else []) + Filter(s, TiedWith(key, k))
  {
    var tied := TiedWith(key, k);
    var xs: seq<Listing> := if key(x) == k then [x] else [];
    var hs: seq<Listing> := if key(s[0]) == k then [s[0]] else [];
    var rest := Insert(x, s[1..], key);
    var c := Filter(s[1..], tied);
    InsertPastHead(x, s, key);
    FilterCons(s[0], rest, tied);
    assert Filter(Insert(x, s, key), tied) == hs + (xs + c);
    FilterOfSplit(s, tied);
    assert Filter(s, tied) == hs + c;
    SwapAroundEmpty(hs, xs, c);
  }

  /** Insertion passes over a first element that ranks below `x`. */
  lemma InsertPastHead(x: Listing, s: seq<Listing>, key: Listing -> int)
    requires s != [] && key(x) > key(s[0])
    ensures Insert(x, s, key) == [s[0]] + Insert(x, s[1..], key)
  {
  }

  lemma SwapAroundEmpty<T>(a: seq<T>, b: seq<T>, c: seq<T>)
    requires a == [] || b == []
    ensures a + (b + c) == b + (a + c)
  {
  }

  /** The sort is stable: listings with equal keys keep their relative order. */
  lemma {:induction false} SortStable(s: seq<Listing>, key: Listing -> int, k: int)
    ensures Filter(Sort(s, key), TiedWith(key, k)) == Filter(s, TiedWith(key, k))
  {
    if s != [] {
      SortStable(s[1..], key, k);
      InsertStable(s[0], Sort(s[1..], key), key, k);
    }
  }

  // --------------------------------------------------------------- view

  /**
   * filteredListings: a permutation of exactly the fetched listings that
   * pass both tests, in comparator order for the chosen key.
   */
  function FilteredListings(listings: seq<Listing>, q: Query): (r: seq<Listing>)
    ensures forall l :: multiset(r)[l] == if Keep(l, q) then multiset(listings)[l] else 0
    ensures forall l :: l in r ==> Keep(l, q)
    ensures forall i :: 0 <= i < |r| - 1 ==> Compare(r[i], r[i + 1], q.sortBy) <= 0
    ensures q.sortBy == "price_low" ==>
      forall i :: 0 <= i < |r| - 1 ==> r[i].price <= r[i + 1].price
    ensures q.sortBy == "price_high" ==>
      forall i :: 0 <= i < |r| - 1 ==> r[i].price >= r[i + 1].price
    ensures q.sortBy == "rating" ==>
      forall i :: 0 <= i < |r| - 1 ==> OrZero(r[i].rating) >= OrZero(r[i + 1].rating)
    ensures q.sortBy !in {"price_low", "price_high", "rating"} ==>
      forall i :: 0 <= i < |r| - 1 ==> r[i].createdAt >= r[i + 1].createdAt
  {
    var kept := Filter(listings, KeepFor(q));
    var r := Sort(kept, SortKey(q.sortBy));
    SortedInKeyOrder(r, q.sortBy);
    r
  }

  /** What comparator order means for each sort key. */
  lemma SortedInKeyOrder(r: seq<Listing>, sortBy: string)
    requires Sorted(r, SortKey(sortBy))
    ensures forall i :: 0 <= i < |r| - 1 ==> Compare(r[i], r[i + 1], sortBy) <= 0
    ensures sortBy == "price_low" ==>
      forall i :: 0 <= i < |r| - 1 ==> r[i].price <= r[i + 1].price
    ensures sortBy == "price_high" ==>
      forall i :: 0 <= i < |r| - 1 ==> r[i].price >= r[i + 1].price
    ensures sortBy == "rating" ==>
      forall i :: 0 <= i < |r| - 1 ==> OrZero(r[i].rating) >= OrZero(r[i + 1].rating)
    ensures sortBy !in {"price_low", "price_high", "rating"} ==>
      forall i :: 0 <= i < |r| - 1 ==> r[i].createdAt >= r[i + 1].createdAt
  {
  }

  /** Chaining subsequences. */
  lemma {:induction false} SubsequenceTransitive<T>(a: seq<T>, b: seq<T>, c: seq<T>)
    requires IsSubsequence(a, b) && IsSubsequence(b, c)
    ensures IsSubsequence(a, c)
    decreases |c|
  {
    if a != [] {
      assert b != [] && c != [];
      if IsSubsequence(b, c[1..]) {
        SubsequenceTransitive(a, b, c[1..]);
      } else if a[0] == b[0] && IsSubsequence(a[1..], b[1..]) {
        SubsequenceTransitive(a[1..], b[1..], c[1..]);
      } else {
        SubsequenceTransitive(a, b[1..], c[1..]);
      }
    }
  }

  /** Listings that tie on the sort key are shown in the order they were fetched. */
  lemma TiesKeepFetchedOrder(listings: seq<Listing>, q: Query, k: int)
    ensures IsSubsequence(Filter(FilteredListings(listings, q), TiedWith(SortKey(q.sortBy), k)), listings)
  {
    var kept := Filter(listings, KeepFor(q));
    var tied := TiedWith(SortKey(q.sortBy), k);
    SortStable(kept, SortKey(q.sortBy), k);
    FilterIsSubsequence(listings, KeepFor(q));
    FilterIsSubsequence(kept, tied);
    SubsequenceTransitive(Filter(kept, tied), kept, listings);
  }

  /** The page opens on every fetched listing, newest first. */
  lemma OpeningViewShowsAll(listings: seq<Listing>)
    ensures multiset(FilteredListings(listings, InitialQuery)) == multiset(listings)
    ensures var r := FilteredListings(listings, InitialQuery);
      forall i :: 0 <= i < |r| - 1 ==> r[i].createdAt >= r[i + 1].createdAt
  {
    var r := FilteredListings(listings, InitialQuery);
    assert forall l :: Keep(l, InitialQuery);
    assert forall l :: multiset(r)[l] == multiset(listings)[l];
  }

  /** Explore passes no totalCount, so the summary counts the kept listings. */
  lemma ResultsCountIsKeptCount(listings: seq<Listing>, q: Query)
    ensures ListingSection.ResultsCount(None, FilteredListings(listings, q)) ==
      |Filter(listings, KeepFor(q))|
  {
    var r := FilteredListings(listings, q);
    assert |multiset(r)| == |r|;
  }
}

module ExploreScenarios {
  import opened Common
  import opened Explore

  const PanelA := Listing("1", Str("Panel A"), Undefined, Str("new"), 100, Some(4), 20240101)
  const PanelB := Listing("2", Str("Panel B"), Undefined, Str("used"), 50, Some(5), 20240201)

  /** Searching "panel" over both conditions, cheapest first. */
  lemma PanelsCheapestFirst()
    ensures FilteredListings([PanelA, PanelB], Query("panel", "all", "price_low")) == [PanelB, PanelA]
  {
    BothPanelsMatch();
    PanelsByPrice();
  }

  lemma BothPanelsMatch()
    ensures Filter([PanelA, PanelB], KeepFor(Query("panel", "all", "price_low"))) == [PanelA, PanelB]
  {
    var q := Query("panel", "all", "price_low");
    TitleMatchesPanel(PanelA);
    TitleMatchesPanel(PanelB);
    assert [PanelA, PanelB] == [PanelA] + [PanelB];
    FilterCons(PanelA, [PanelB], KeepFor(q));
    FilterCons(PanelB, [], KeepFor(q));
  }

  lemma TitleMatchesPanel(l: Listing)
    requires l == PanelA || l == PanelB
    ensures Keep(l, Query("panel", "all", "price_low"))
  {
    var t := Stringify(l.title);
    assert t[..5] == "Panel";
    LowerPrefix(t, 5);
    SameLower("Panel", "panel");
    TitlePrefixMatches(l, "panel");
  }

  lemma PanelsByPrice()
    ensures Sort([PanelA, PanelB], SortKey("price_low")) == [PanelB, PanelA]
  {
    var key := SortKey("price_low");
    assert key(PanelA) == 100 && key(PanelB) == 50;
    assert [PanelB][1..] == [];
    assert Sort([PanelB], key) == [PanelB];
    assert Insert(PanelA, [PanelB], key) == [PanelB] + Insert(PanelA, [], key);
    assert [PanelA, PanelB][1..] == [PanelB];
  }

  /** No search, used condition only, newest first. */
  lemma UsedNewestFirst()
    ensures FilteredListings([PanelA, PanelB], Query("", "used", "newest")) == [PanelB]
  {
    var q := Query("", "used", "newest");
    assert Lower("new") == "new" && Lower("used") == "used";
    assert !Keep(PanelA, q) && Keep(PanelB, q);
    assert [PanelA, PanelB] == [PanelA] + [PanelB];
    FilterCons(PanelA, [PanelB], KeepFor(q));
    FilterCons(PanelB, [], KeepFor(q));
    var kept := Filter([PanelA, PanelB], KeepFor(q));
    assert kept == [PanelB];
  }
}
