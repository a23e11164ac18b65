/**
 * The search page's filter sidebar: toggling applied filters, and turning the
 * applied filters into the request `loadProducts` sends (category, price
 * bounds, page and page size).
 */
module Search {
  import opened Wrappers
  import opened Seqs
  import opened Text
  import opened Catalog
  import opened ProductQuery

  const Categories: seq<string> := ["Woman", "Men", "Kids", "Sporty", "Casual"]
  const PriceRanges: seq<string> := ["$20 - $100", "$100 - $200", "Over $200"]
  const Sizes: seq<string> := ["XS", "S", "M", "L", "XL"]

  /** `page` never changes from its initial state, and `limit` is a constant. */
  const FirstPage := 1
  const PageSize := 12

  // ---------------------------------------------------------------------------
  // handleFilterChange

  /**
   * `handleFilterChange`: a filter that is applied is removed (every copy of
   * it, the rest kept in order); one that is not is appended at the end.
   */
  function ToggleFilter(applied: seq<string>, filter: string): (r: seq<string>)
    ensures filter in r <==> filter !in applied
    ensures forall g :: g != filter ==> (g in r <==> g in applied)
    ensures filter in applied ==> IsSubsequence(r, applied)
    ensures filter !in applied ==> r == applied + [filter]
    ensures filter in applied ==> forall x :: multiset(r)[x] == if x == filter then 0 else multiset(applied)[x]
  {
    if filter in applied then
      FilterCount(applied, (f: string) => f != filter);
      FilterIsSubsequence(applied, (f: string) => f != filter);
      FilterKeeps(applied, (f: string) => f != filter);
      FilterMembers(applied, (f: string) => f != filter);
      Filter(applied, (f: string) => f != filter)
    else
      applied + [filter]
  }

  /** Toggling a filter that was not applied, then toggling it again, restores the list. */
  lemma ToggleTwiceRestores(applied: seq<string>, filter: string)
    requires filter !in applied
    ensures ToggleFilter(ToggleFilter(applied, filter), filter) == applied
  {
    var keep := (f: string) => f != filter;
    FilterAppend(applied, [filter], keep);
    FilterSingleton(filter, keep);
    FilterKeepsAll(applied, keep);
  }

  /**
   * Toggling an applied filter twice restores which filters are applied but
   * not their order: the filter moves to the end.
   */
  lemma ToggleTwiceMovesToEnd(applied: seq<string>, filter: string)
    requires filter in applied
    ensures ToggleFilter(ToggleFilter(applied, filter), filter) == Filter(applied, (f: string) => f != filter) + [filter]
    ensures forall g :: g in ToggleFilter(ToggleFilter(applied, filter), filter) <==> g in applied
  {
  }

  /** So the round trip is exact only for a filter that was not applied. */
  lemma ToggleTwiceReorders()
    ensures ToggleFilter(ToggleFilter(["Men", "Kids"], "Men"), "Men") == ["Kids", "Men"]
  {
    var keep := (f: string) => f != "Men";
    assert Filter(["Men", "Kids"], keep) == [] + Filter(["Kids"], keep);
    assert Filter(["Kids"], keep) == ["Kids"] + Filter([], keep);
  }

  /** Toggling never introduces a duplicate into a duplicate-free list. */
  lemma ToggleKeepsDistinct(applied: seq<string>, filter: string)
    requires Distinct(applied)
    ensures Distinct(ToggleFilter(applied, filter))
  {
    if filter in applied {
      FilterKeepsDistinct(applied, (f: string) => f != filter);
    }
  }

  // ---------------------------------------------------------------------------
  // loadProducts

  /** The category sent: the first applied filter that names a category, in applied order. */
  function SelectedCategory(applied: seq<string>): (r: Option<string>)
    ensures r.None? <==> forall i :: 0 <= i < |applied| ==> applied[i] !in Categories
    ensures r.Some? ==>
      r.value in Categories &&
      exists i :: 0 <= i < |applied| && applied[i] == r.value && forall j :: 0 <= j < i ==> applied[j] !in Categories
  {
    Find(applied, (f: string) => f in Categories)
  }

  /** A `{ min, max }` pair; None is `undefined` (a label with no " - " has no max). */
  datatype PriceBounds = PriceBounds(min: Option<JsNumber>, max: Option<JsNumber>)

  const DefaultBounds := PriceBounds(Some(Num(0)), Some(Num(1000)))

  /**
   * The price bounds sent: those parsed from the first applied filter that
   * contains '$', or 0 and 1000 when there is none. The label first loses
   * its first '$' (`StripDollar`, the source's `replace('$', '')`); `parse`
   * stands for the `split(' - ').map(Number)` that follows.
   */
  function PriceFilter(applied: seq<string>, parse: string -> PriceBounds): (r: PriceBounds)
    ensures (forall i :: 0 <= i < |applied| ==> '$' !in applied[i]) ==> r == DefaultBounds
    ensures forall i :: 0 <= i < |applied| && '$' in applied[i] && (forall j :: 0 <= j < i ==> '$' !in applied[j]) ==>
      r == parse(StripDollar(applied[i]))
  {
    match Find(applied, (f: string) => '$' in f)
    case Some(f) => parse(StripDollar(f))
    case None => DefaultBounds
  }

  /** The `getProducts` argument `loadProducts` builds. */
  function SearchRequest(query: string, applied: seq<string>, parse: string -> PriceBounds): ProductFilters
  {
    var bounds := PriceFilter(applied, parse);
    ProductFilters(SelectedCategory(applied), Some(query), bounds.min, bounds.max, Some(Num(FirstPage)), Some(Num(PageSize)))
  }

  /** Only category filters and filters containing '$' influence the request. */
  lemma OnlyCategoryAndPriceMatter(query: string, applied: seq<string>, parse: string -> PriceBounds)
    ensures SearchRequest(query, Filter(applied, (f: string) => f in Categories || '$' in f), parse) ==
      SearchRequest(query, applied, parse)
  {
    var keep := (f: string) => f in Categories || '$' in f;
    FindThroughFilter(applied, (f: string) => f in Categories, keep);
    FindThroughFilter(applied, (f: string) => '$' in f, keep);
  }

  /** In particular the size filters are stored but never sent. */
  lemma SizesIgnored(query: string, applied: seq<string>, parse: string -> PriceBounds)
    ensures SearchRequest(query, Filter(applied, (f: string) => f !in Sizes), parse) == SearchRequest(query, applied, parse)
  {
    var keep := (f: string) => f !in Sizes;
    assert forall f :: f in Categories ==> keep(f);
    assert forall f :: '$' in f ==> keep(f);
    FindThroughFilter(applied, (f: string) => f in Categories, keep);
    FindThroughFilter(applied, (f: string) => '$' in f, keep);
  }

  /** What each key of the search request sends. */
  lemma RequestValues(query: string, applied: seq<string>, parse: string -> PriceBounds)
    ensures SentValue(SearchRequest(query, applied, parse), "page") == Some("1")
    ensures SentValue(SearchRequest(query, applied, parse), "limit") == Some("12")
    ensures SentValue(SearchRequest(query, applied, parse), "search").Some? <==> query != ""
    ensures SentValue(SearchRequest(query, applied, parse), "category").Some? <==> SelectedCategory(applied).Some?
    ensures (forall i :: 0 <= i < |applied| ==> '$' !in applied[i]) ==>
      SentValue(SearchRequest(query, applied, parse), "minPrice").None? &&
      SentValue(SearchRequest(query, applied, parse), "maxPrice") == Some("1000")
  {
    assert "" !in Categories;
    RenderedConstants();
  }

  /** The renderings of the page number, the page size and the default maximum price. */
  lemma RenderedConstants()
    ensures IntToString(FirstPage) == "1" && IntToString(PageSize) == "12" && IntToString(1000) == "1000"
  {
    assert NatToString(12) == NatToString(1) + [DigitChar(2)];
    assert NatToString(1000) == NatToString(100) + [DigitChar(0)];
    assert NatToString(100) == NatToString(10) + [DigitChar(0)];
    assert NatToString(10) == NatToString(1) + [DigitChar(0)];
  }

  /** Against `BuildQueryParams`' contract: a key is sent exactly when it has a value, and with that value. */
  lemma SentIff(p: ProductFilters, q: seq<(string, string)>, key: string)
    requires forall i :: 0 <= i < |q| ==> SentValue(p, q[i].0) == Some(q[i].1)
    requires forall k :: SentValue(p, k).Some? ==> k in KeysOf(q)
    ensures key in KeysOf(q) <==> SentValue(p, key).Some?
    ensures SentValue(p, key).Some? ==> (key, SentValue(p, key).value) in q
  {
    if key in KeysOf(q) {
      var i :| 0 <= i < |KeysOf(q)| && KeysOf(q)[i] == key;
      assert SentValue(p, q[i].0) == Some(q[i].1);
    }
    if SentValue(p, key).Some? {
      var i :| 0 <= i < |KeysOf(q)| && KeysOf(q)[i] == key;
      assert q[i] == (key, SentValue(p, key).value);
    }
  }

  /**
   * The parameters `loadProducts` makes `getProducts` send: always page 1 and
   * limit 12; the search term exactly when the query is non-empty; a category
   * exactly when one is applied; with no price filter applied, maxPrice 1000
   * and never minPrice, whose default 0 is falsy.
   */
  method LoadProductsParams(query: string, applied: seq<string>, parse: string -> PriceBounds)
    returns (q: seq<(string, string)>)
    ensures ("page", "1") in q && ("limit", "12") in q
    ensures "search" in KeysOf(q) <==> query != ""
    ensures "category" in KeysOf(q) <==> SelectedCategory(applied).Some?
    ensures (forall i :: 0 <= i < |applied| ==> '$' !in applied[i]) ==>
      "minPrice" !in KeysOf(q) && ("maxPrice", "1000") in q
  {
    var request := SearchRequest(query, applied, parse);
    q := BuildQueryParams(Some(request));
    RequestValues(query, applied, parse);
    SentIff(request, q, "page");
    SentIff(request, q, "limit");
    SentIff(request, q, "search");
    SentIff(request, q, "category");
    SentIff(request, q, "minPrice");
    SentIff(request, q, "maxPrice");
  }

  // ---------------------------------------------------------------------------
  // The '$' stripping in the price-range parse

  /** `s.replace('$', '')`: a string pattern replaces only the first occurrence. */
  function StripDollar(s: string): (r: string)
    ensures '$' !in s ==> r == s
    ensures '$' in s ==> |r| == |s| - 1
    ensures '$' in s ==> exists i :: 0 <= i < |s| && s[i] == '$' && '$' !in s[..i] && r == s[..i] + s[i + 1..]
  {
    match FindFirst(s, (c: char) => c == '$')
    case None => s
    case Some(i) => s[..i] + s[i + 1..]
  }

  /** On the first range label the upper bound keeps its '$', so `Number` gives NaN for it. */
  lemma StripDollarKeepsUpperDollar()
    ensures StripDollar("$20 - $100") == "20 - $100"
    ensures StripDollar("$100 - $200") == "100 - $200"
  {
    var r := StripDollar("$20 - $100");
    assert "$20 - $100"[0] == '$';
    assert FindFirst("$20 - $100", (c: char) => c == '$') == Some(0);
    assert FindFirst("$100 - $200", (c: char) => c == '$') == Some(0);
  }

  predicate NotDollar(c: char)
  {
    c != '$'
  }

  /**
   * As written, a request with the first range label applied first hands the
   * parse "20 - $100": its upper bound still carries a '$'.
   */
  lemma FirstRangeKeepsUpperDollar(query: string, applied: seq<string>, parse: string -> PriceBounds)
    requires |applied| > 0 && applied[0] == PriceRanges[0]
    ensures SearchRequest(query, applied, parse).minPrice == parse("20 - $100").min
    ensures SearchRequest(query, applied, parse).maxPrice == parse("20 - $100").max
  {
    assert PriceRanges[0] == "$20 - $100";
    StripDollarKeepsUpperDollar();
    assert '$' in applied[0];
    assert PriceFilter(applied, parse) == parse(StripDollar(applied[0]));
  }

  /** Removing every '$' (what the parse needs for both bounds to be numbers). */
  function StripAllDollars(s: string): (r: string)
    ensures '$' !in r
    ensures IsSubsequence(r, s)
    ensures forall i :: 0 <= i < |s| && s[i] != '$' ==> s[i] in r
    ensures forall c :: multiset(r)[c] == if c != '$' then multiset(s)[c] else 0
  {
    FilterCount(s, NotDollar);
    FilterIsSubsequence(s, NotDollar);
    FilterKeeps(s, NotDollar);
    Filter(s, NotDollar)
  }

  /** A label "$lo - $hi" loses exactly its two '$' signs, leaving "lo - hi". */
  lemma StripAllDollarsRange(lo: string, hi: string)
    requires '$' !in lo && '$' !in hi
    ensures StripAllDollars(['$'] + lo + " - " + ['$'] + hi) == lo + " - " + hi
  {
    var sep := " - ";
    assert forall i :: 0 <= i < |sep| ==> NotDollar(sep[i]);
    var a := ['$'] + lo;
    var b := a + sep;
    var c := b + ['$'];
    FilterSingleton('$', NotDollar);
    FilterKeepsAll(lo, NotDollar);
    FilterAppend(['$'], lo, NotDollar);
    assert Filter(a, NotDollar) == lo;
    FilterKeepsAll(sep, NotDollar);
    FilterAppend(a, sep, NotDollar);
    assert Filter(b, NotDollar) == lo + sep;
    FilterAppend(b, ['$'], NotDollar);
    assert Filter(c, NotDollar) == lo + sep;
    FilterKeepsAll(hi, NotDollar);
    FilterAppend(c, hi, NotDollar);
  }

  /** With every '$' removed, both bounds of each range label are plain digits. */
  lemma StripAllDollarsLabels()
    ensures StripAllDollars(PriceRanges[0]) == "20 - 100"
    ensures StripAllDollars(PriceRanges[1]) == "100 - 200"
  {
    assert PriceRanges[0] == ['$'] + "20" + " - " + ['$'] + "100";
    assert "20" + " - " + "100" == "20 - 100";
    assert PriceRanges[1] == ['$'] + "100" + " - " + ['$'] + "200";
    assert "100" + " - " + "200" == "100 - 200";
    StripAllDollarsRange("20", "100");
    StripAllDollarsRange("100", "200");
  }
}
