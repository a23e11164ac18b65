/**
 * `getProducts`' query parameters: every filter that is present and truthy
 * becomes one key/value pair, in a fixed key order.
 */
module ProductQuery {
  import opened Wrappers
  import opened Seqs
  import opened Text
  import opened Catalog

  /** `ProductFilters`: every field optional; None is `undefined`. */
  datatype ProductFilters = ProductFilters(
    category: Option<string>,
    search: Option<string>,
    minPrice: Option<JsNumber>,
    maxPrice: Option<JsNumber>,
    page: Option<JsNumber>,
    limit: Option<JsNumber>)

  /** The order in which `getProducts` appends its parameters. */
  const QueryKeys: seq<string> := ["category", "search", "minPrice", "maxPrice", "page", "limit"]

  /** A string field is truthy when present and non-empty. */
  predicate TruthyText(v: Option<string>)
  {
    v.Some? && v.value != ""
  }

  /** A number field is truthy when present, not NaN and not zero. */
  predicate TruthyNumber(v: Option<JsNumber>)
  {
    v.Some? && v.value.Num? && v.value.value != 0
  }

  function TextParam(v: Option<string>): Option<string>
  {
    if TruthyText(v) then v else None
  }

  function NumberParam(v: Option<JsNumber>): Option<string>
  {
    if TruthyNumber(v) then Some(IntToString(v.value.value)) else None
  }

  /**
   * The value `getProducts` sends under `key`, if it sends one: a string
   * filter as it is, a number filter as its `toString()`; a falsy filter
   * (absent, "", 0 or NaN) sends nothing.
   */
  function SentValue(p: ProductFilters, key: string): (r: Option<string>)
    ensures key !in QueryKeys ==> r.None?
    ensures key == "category" ==> (r.Some? <==> TruthyText(p.category)) && (r.Some? ==> r == p.category)
    ensures key == "search" ==> (r.Some? <==> TruthyText(p.search)) && (r.Some? ==> r == p.search)
    ensures key == "minPrice" ==>
      (r.Some? <==> TruthyNumber(p.minPrice)) && (r.Some? ==> r.value == IntToString(p.minPrice.value.value))
    ensures key == "maxPrice" ==>
      (r.Some? <==> TruthyNumber(p.maxPrice)) && (r.Some? ==> r.value == IntToString(p.maxPrice.value.value))
    ensures key == "page" ==>
      (r.Some? <==> TruthyNumber(p.page)) && (r.Some? ==> r.value == IntToString(p.page.value.value))
    ensures key == "limit" ==>
      (r.Some? <==> TruthyNumber(p.limit)) && (r.Some? ==> r.value == IntToString(p.limit.value.value))
  {
    if key == "category" then TextParam(p.category)
    else if key == "search" then TextParam(p.search)
    else if key == "minPrice" then NumberParam(p.minPrice)
    else if key == "maxPrice" then NumberParam(p.maxPrice)
    else if key == "page" then NumberParam(p.page)
    else if key == "limit" then NumberParam(p.limit)
    else None
  }

  /** The keys of a parameter list, in order. */
  function KeysOf(q: seq<(string, string)>): seq<string>
  {
    seq(|q|, i requires 0 <= i < |q| => q[i].0)
  }

  /** The keys of two lists appended are the keys of each, in order. */
  lemma KeysOfAppend(a: seq<(string, string)>, b: seq<(string, string)>)
    ensures KeysOf(a + b) == KeysOf(a) + KeysOf(b)
  {
  }

  /** The pair the `k`-th conditional append contributes: none, or the key with its sent value. */
  function Entry(p: ProductFilters, k: nat): seq<(string, string)>
    requires k < |QueryKeys|
  {
    match SentValue(p, QueryKeys[k])
    case None => []
    case Some(v) => [(QueryKeys[k], v)]
  }

  /** The parameter list after the first `k` conditional appends. */
  function Prefix(p: ProductFilters, k: nat): seq<(string, string)>
    requires k <= |QueryKeys|
  {
    if k == 0 then [] else Prefix(p, k - 1) + Entry(p, k - 1)
  }

  /** After `k` appends the keys are an ordered pick from the first `k` keys. */
  lemma {:induction false} PrefixKeysOrdered(p: ProductFilters, k: nat)
    requires k <= |QueryKeys|
    ensures IsSubsequence(KeysOf(Prefix(p, k)), QueryKeys[..k])
  {
    if k == 0 {
      assert KeysOf([]) == [];
    } else {
      PrefixKeysOrdered(p, k - 1);
      var q := Prefix(p, k - 1);
      KeysOfAppend(q, Entry(p, k - 1));
      assert QueryKeys[..k] == QueryKeys[..k - 1] + [QueryKeys[k - 1]];
      if Entry(p, k - 1) == [] {
        assert KeysOf(Prefix(p, k)) == KeysOf(q);
        SubsequenceExtend(KeysOf(q), QueryKeys[..k - 1], QueryKeys[k - 1]);
      } else {
        assert KeysOf(Entry(p, k - 1)) == [QueryKeys[k - 1]];
        SubsequenceSnoc(KeysOf(q), QueryKeys[..k - 1], QueryKeys[k - 1]);
      }
    }
  }

  /** After `k` appends every pair carries the value `SentValue` gives its key. */
  lemma {:induction false} PrefixValues(p: ProductFilters, k: nat)
    requires k <= |QueryKeys|
    ensures forall i :: 0 <= i < |Prefix(p, k)| ==> SentValue(p, Prefix(p, k)[i].0) == Some(Prefix(p, k)[i].1)
  {
    if k > 0 {
      PrefixValues(p, k - 1);
      var q := Prefix(p, k - 1);
      var r := Prefix(p, k);
      forall i | 0 <= i < |r| ensures SentValue(p, r[i].0) == Some(r[i].1) {
        if i < |q| {
          assert r[i] == q[i];
        }
      }
    }
  }

  /** After `k` appends every one of the first `k` keys that has a value is present. */
  lemma {:induction false} PrefixHasSent(p: ProductFilters, k: nat)
    requires k <= |QueryKeys|
    ensures forall j :: 0 <= j < k && SentValue(p, QueryKeys[j]).Some? ==> QueryKeys[j] in KeysOf(Prefix(p, k))
  {
    if k > 0 {
      PrefixHasSent(p, k - 1);
      var q := Prefix(p, k - 1);
      KeysOfAppend(q, Entry(p, k - 1));
      if SentValue(p, QueryKeys[k - 1]).Some? {
        assert KeysOf(Entry(p, k - 1)) == [QueryKeys[k - 1]];
      }
    }
  }

  /**
   * One `if (value) queryParams.append(key, value)` of `getProducts`, for the
   * `k`-th key: appends the pair when the filter sends a value.
   */
  method AppendIfSent(ghost p: ProductFilters, q: seq<(string, string)>, k: nat, value: Option<string>)
    returns (r: seq<(string, string)>)
    requires k < |QueryKeys| && q == Prefix(p, k) && value == SentValue(p, QueryKeys[k])
    ensures r == Prefix(p, k + 1)
    ensures value.None? ==> r == q
    ensures value.Some? ==> r == q + [(QueryKeys[k], value.value)]
  {
    if value.Some? {
      r := q + [(QueryKeys[k], value.value)];
    } else {
      r := q;
      assert Entry(p, k) == [];
    }
  }

  /** What `SentValue` gives each key, by its place in the key order. */
  lemma SentValuesInOrder(p: ProductFilters)
    ensures SentValue(p, QueryKeys[0]) == TextParam(p.category)
    ensures SentValue(p, QueryKeys[1]) == TextParam(p.search)
    ensures SentValue(p, QueryKeys[2]) == NumberParam(p.minPrice)
    ensures SentValue(p, QueryKeys[3]) == NumberParam(p.maxPrice)
    ensures SentValue(p, QueryKeys[4]) == NumberParam(p.page)
    ensures SentValue(p, QueryKeys[5]) == NumberParam(p.limit)
  {
  }

  /** All six appends done: the list is ordered, duplicate-free, correct and complete. */
  lemma PrefixComplete(p: ProductFilters)
    ensures IsSubsequence(KeysOf(Prefix(p, 6)), QueryKeys) && Distinct(KeysOf(Prefix(p, 6)))
    ensures forall i :: 0 <= i < |Prefix(p, 6)| ==> SentValue(p, Prefix(p, 6)[i].0) == Some(Prefix(p, 6)[i].1)
    ensures forall k :: SentValue(p, k).Some? ==> k in KeysOf(Prefix(p, 6))
  {
    var q := Prefix(p, 6);
    PrefixKeysOrdered(p, 6);
    PrefixValues(p, 6);
    PrefixHasSent(p, 6);
    assert QueryKeys[..6] == QueryKeys;
    SubsequenceDistinct(KeysOf(q), QueryKeys);
    forall k | SentValue(p, k).Some? ensures k in KeysOf(q) {
      var j :| 0 <= j < |QueryKeys| && QueryKeys[j] == k;
    }
  }

  /** The six `if (...) queryParams.append(...)` statements of `getProducts`, in order. */
  method AppendAll(p: ProductFilters) returns (q: seq<(string, string)>)
    ensures q == Prefix(p, 6)
  {
    SentValuesInOrder(p);
    q := AppendIfSent(p, [], 0, TextParam(p.category));
    q := AppendIfSent(p, q, 1, TextParam(p.search));
    q := AppendIfSent(p, q, 2, NumberParam(p.minPrice));
    q := AppendIfSent(p, q, 3, NumberParam(p.maxPrice));
    q := AppendIfSent(p, q, 4, NumberParam(p.page));
    q := AppendIfSent(p, q, 5, NumberParam(p.limit));
  }

  /**
   * `getProducts`' URLSearchParams: no filters send nothing; otherwise each
   * key appears at most once, in the order category, search, minPrice,
   * maxPrice, page, limit, carrying exactly the value `SentValue` gives it,
   * and every key with a value is sent.
   */
  method BuildQueryParams(params: Option<ProductFilters>) returns (q: seq<(string, string)>)
    ensures params.None? ==> q == []
    ensures IsSubsequence(KeysOf(q), QueryKeys) && Distinct(KeysOf(q))
    ensures params.Some? ==> forall i :: 0 <= i < |q| ==> SentValue(params.value, q[i].0) == Some(q[i].1)
    ensures params.Some? ==> forall k :: SentValue(params.value, k).Some? ==> k in KeysOf(q)
  {
    q := [];
    assert KeysOf(q) == [];
    if params.None? {
      return;
    }
    q := AppendAll(params.value);
    PrefixComplete(params.value);
  }
}
