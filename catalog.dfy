/**
 * The paginated fetches of the product and brand listings. The HTTP client is
 * replaced by a page supplier: `pages[n - 1]` is the response to the request
 * for page `n`, and every page past the end of `pages` is an empty
 * successful response. Each fetch also returns the requests it issued.
 */
module Catalog {
  import opened Wrappers
  import opened Json
  import opened Sequences
  import opened Config

  /** A listing response: HTTP status, raw body text and the decoded `data` array. */
  datatype Page = Page(status: int, body: string, data: seq<Value>)

  /** One GET of a listing endpoint: URL, the two auth headers and the query parameters. */
  datatype Request = Request(endpoint: string, authClient: string, authToken: string,
                             limit: int, page: int, includeParam: Option<string>)

  datatype FetchError =
    | MissingConfig(keys: seq<string>)   // checked before any request
    | ApiError(status: int, body: string) // a non-200 response
    | BadRecord(fault: Fault)             // a brand record the loop cannot index

  const BrandPageSize: int := 250

  function StoreBase(config: map<string, string>): string {
    "https://api.bigcommerce.com/stores/" + ConfigValue(config, "store_hash") + "/v3"
  }

  /** The sub-resources requested with each product page. */
  function IncludeParams(includeVariants: bool): (params: seq<string>)
    ensures "categories" !in params
    ensures "images" in params && "primary_image" in params && "custom_fields" in params
    ensures ("variants" in params) == includeVariants
    ensures ("options" in params) == includeVariants
    ensures ("modifiers" in params) == includeVariants
    ensures |params| == if includeVariants then 6 else 3
  {
    ["images", "primary_image", "custom_fields"] + (if includeVariants then ["variants", "options", "modifiers"] else [])
  }

  /** Every product request, with the page number left at 0. */
  function ProductTemplate(config: map<string, string>, pageSize: int, includeVariants: bool): Request {
    Request(StoreBase(config) + "/catalog/products", ConfigValue(config, "client_id"),
            ConfigValue(config, "access_token"), pageSize, 0, Some(Join(",", IncludeParams(includeVariants))))
  }

  /** Every brand request, with the page number left at 0. */
  function BrandTemplate(config: map<string, string>): Request {
    Request(StoreBase(config) + "/catalog/brands", ConfigValue(config, "client_id"),
            ConfigValue(config, "access_token"), BrandPageSize, 0, None)
  }

  /** The requests for pages 1 to `n`, in order. */
  function Pages(template: Request, n: nat): seq<Request> {
    if n == 0 then [] else Pages(template, n - 1) + [template.(page := n)]
  }

  /** Request m of the first n is the request for page m. */
  lemma {:induction false} PagesAt(template: Request, n: nat, m: nat)
    requires 1 <= m <= n
    ensures |Pages(template, n)| == n
    ensures Pages(template, n)[m - 1] == template.(page := m)
  {
    if m < n {
      PagesAt(template, n - 1, m);
    } else if n > 1 {
      PagesAt(template, n - 1, n - 1);
    }
  }

  /** The response to page `n` (pages are numbered from 1). */
  function PageAt(pages: seq<Page>, n: int): Page {
    if 1 <= n <= |pages| then pages[n - 1] else Page(200, "", [])
  }

  /** The records of pages 1 to `n`, concatenated. */
  function DataUpTo(pages: seq<Page>, n: nat): seq<Value> {
    if n == 0 then [] else DataUpTo(pages, n - 1) + PageAt(pages, n).data
  }

  /** All records the supplier holds. */
  function AllData(pages: seq<Page>): seq<Value> {
    DataUpTo(pages, |pages|)
  }

  /** Python's `s[:m]`. */
  function SliceTo<T>(s: seq<T>, m: int): (r: seq<T>)
    ensures StartsWith(s, r)
    ensures m >= 0 ==> |r| == if m < |s| then m else |s|
  {
    if m >= |s| then s
    else if m >= 0 then s[..m]
    else if |s| + m >= 0 then s[..|s| + m]
    else []
  }

  // ---------------------------------------------------------------- products

  /** A product page after which the loop asks for the next page. */
  predicate ProductPageContinues(pg: Page, pageSize: int) {
    pg.status == 200 && pg.data != [] && |pg.data| >= pageSize
  }

  /** Whether `fetch_products` requests page `n`: fewer than `maxItems` records so far and every earlier page full. */
  predicate ProductPageRequested(pages: seq<Page>, pageSize: int, maxItems: int, n: nat) {
    n >= 1 &&
    |DataUpTo(pages, n - 1)| < maxItems &&
    forall i :: 1 <= i < n ==> ProductPageContinues(PageAt(pages, i), pageSize)
  }

  /** The outcome once pages 1 to `n` were requested. */
  function ProductOutcome(pages: seq<Page>, n: nat, maxItems: int): Result<seq<Value>, FetchError> {
    if n >= 1 && PageAt(pages, n).status != 200 then Failure(ApiError(PageAt(pages, n).status, PageAt(pages, n).body))
    else Success(SliceTo(DataUpTo(pages, n), maxItems))
  }

  /**
   * The pagination loop of `fetch_products` run from page `page` with the
   * records `acc` collected so far: the outcome and the number of the last
   * page requested.
   */
  function ProductRun(pages: seq<Page>, pageSize: int, maxItems: int, page: nat, acc: seq<Value>)
    : (Result<seq<Value>, FetchError>, nat)
    requires page >= 1
    decreases maxItems - |acc|
  {
    if |acc| >= maxItems then (Success(SliceTo(acc, maxItems)), page - 1)
    else
      var response := PageAt(pages, page);
      if response.status != 200 then (Failure(ApiError(response.status, response.body)), page)
      else if response.data == [] then (Success(SliceTo(acc, maxItems)), page)
      else if |response.data| < pageSize then (Success(SliceTo(acc + response.data, maxItems)), page)
      else ProductRun(pages, pageSize, maxItems, page + 1, acc + response.data)
  }

  /**
   * `fetch_products`: check the configuration, then paginate. A missing key
   * fails the fetch before any request is issued.
   */
  method FetchProducts(env: Credentials, overrides: map<string, string>, pages: seq<Page>,
                       maxItems: int, pageSize: int, includeVariants: bool)
    returns (result: Result<seq<Value>, FetchError>, requests: seq<Request>)
    ensures var config := Merged(env, overrides);
            MissingKeys(config) != [] ==> result == Failure(MissingConfig(MissingKeys(config))) && requests == []
    ensures var config := Merged(env, overrides);
            MissingKeys(config) == [] ==>
              && requests == Pages(ProductTemplate(config, pageSize, includeVariants), |requests|)
              && (forall n :: 1 <= n <= |requests| ==> ProductPageRequested(pages, pageSize, maxItems, n))
              && !ProductPageRequested(pages, pageSize, maxItems, |requests| + 1)
              && result == ProductOutcome(pages, |requests|, maxItems)
  {
    var config := GetConfig(env, overrides);
    var missing := MissingKeys(config);
    if missing != [] {
      return Failure(MissingConfig(missing)), [];
    }
    result, requests := PaginateProducts(config, pages, maxItems, pageSize, includeVariants);
    ProductRunMeaning(pages, pageSize, maxItems, 1, []);
  }

  /**
   * The pagination loop of `fetch_products`: request pages 1, 2, ... until a
   * page is empty or shorter than `pageSize`, or `maxItems` records are
   * collected; the first non-200 page fails the whole fetch.
   */
  method PaginateProducts(config: map<string, string>, pages: seq<Page>,
                          maxItems: int, pageSize: int, includeVariants: bool)
    returns (result: Result<seq<Value>, FetchError>, requests: seq<Request>)
    ensures requests == Pages(ProductTemplate(config, pageSize, includeVariants), |requests|)
    ensures (result, |requests|) == ProductRun(pages, pageSize, maxItems, 1, [])
  {
    var template := ProductTemplate(config, pageSize, includeVariants);
    var allProducts: seq<Value> := [];
    var page := 1;
    requests := [];
    while |allProducts| < maxItems
      invariant page >= 1 && |requests| == page - 1
      invariant requests == Pages(template, page - 1)
      invariant ProductRun(pages, pageSize, maxItems, page, allProducts) == ProductRun(pages, pageSize, maxItems, 1, [])
      decreases maxItems - |allProducts|
    {
      requests := requests + [template.(page := page)];
      var response := PageAt(pages, page);
      if response.status != 200 {
        return Failure(ApiError(response.status, response.body)), requests;
      }
      var data := response.data;
      if data == [] {
        break;
      }
      allProducts := allProducts + data;
      if |data| < pageSize {
        break;
      }
      page := page + 1;
    }
    result := Success(SliceTo(allProducts, maxItems));
  }

  /**
   * The loop's outcome, characterised: pages 1 to n are exactly the pages
   * requested, and the result is the outcome of requesting them.
   */
  lemma {:induction false} ProductRunMeaning(pages: seq<Page>, pageSize: int, maxItems: int, page: nat, acc: seq<Value>)
    requires page >= 1 && acc == DataUpTo(pages, page - 1)
    requires forall i :: 1 <= i < page ==> ProductPageContinues(PageAt(pages, i), pageSize)
    requires page == 1 || ProductPageRequested(pages, pageSize, maxItems, page - 1)
    ensures var (outcome, n) := ProductRun(pages, pageSize, maxItems, page, acc);
            && n + 1 >= page
            && (forall m :: 1 <= m <= n ==> ProductPageRequested(pages, pageSize, maxItems, m))
            && !ProductPageRequested(pages, pageSize, maxItems, n + 1)
            && outcome == ProductOutcome(pages, n, maxItems)
    decreases maxItems - |acc|
  {
    if |acc| >= maxItems {
      ProductFilledAt(pages, pageSize, maxItems, page - 1);
    } else {
      assert ProductPageRequested(pages, pageSize, maxItems, page);
      var response := PageAt(pages, page);
      if response.status != 200 || response.data == [] || |response.data| < pageSize {
        assert response.data == [] ==> acc + response.data == acc;
        ProductStopsAt(pages, pageSize, maxItems, page);
      } else {
        ProductRunMeaning(pages, pageSize, maxItems, page + 1, acc + response.data);
      }
    }
  }

  /** Pagination that stops at a requested page that does not continue has requested exactly pages 1 to n. */
  lemma ProductStopsAt(pages: seq<Page>, pageSize: int, maxItems: int, n: nat)
    requires ProductPageRequested(pages, pageSize, maxItems, n)
    requires !ProductPageContinues(PageAt(pages, n), pageSize)
    ensures forall m :: 1 <= m <= n ==> ProductPageRequested(pages, pageSize, maxItems, m)
    ensures !ProductPageRequested(pages, pageSize, maxItems, n + 1)
  {
    ProductRequestedDownward(pages, pageSize, maxItems, n);
  }

  /** Pagination that has collected `maxItems` records after page n has requested exactly pages 1 to n. */
  lemma ProductFilledAt(pages: seq<Page>, pageSize: int, maxItems: int, n: nat)
    requires n == 0 || ProductPageRequested(pages, pageSize, maxItems, n)
    requires |DataUpTo(pages, n)| >= maxItems
    ensures forall m :: 1 <= m <= n ==> ProductPageRequested(pages, pageSize, maxItems, m)
    ensures !ProductPageRequested(pages, pageSize, maxItems, n + 1)
  {
    if n > 0 {
      ProductRequestedDownward(pages, pageSize, maxItems, n);
    }
  }

  /** Every page before a requested page was requested too. */
  lemma ProductRequestedDownward(pages: seq<Page>, pageSize: int, maxItems: int, m: nat)
    requires ProductPageRequested(pages, pageSize, maxItems, m)
    ensures forall n :: 1 <= n <= m ==> ProductPageRequested(pages, pageSize, maxItems, n)
  {
    forall n | 1 <= n <= m ensures ProductPageRequested(pages, pageSize, maxItems, n) {
      DataUpToPrefix(pages, n - 1, m - 1);
    }
  }

  /** DataUpTo grows by extension. */
  lemma {:induction false} DataUpToPrefix(pages: seq<Page>, n: nat, m: nat)
    requires n <= m
    ensures StartsWith(DataUpTo(pages, m), DataUpTo(pages, n))
    decreases m - n
  {
    if n < m {
      DataUpToPrefix(pages, n, m - 1);
    }
  }

  /** Pages past the end of the supplier contribute no records. */
  lemma {:induction false} DataUpToPastEnd(pages: seq<Page>, n: nat)
    requires n >= |pages|
    ensures DataUpTo(pages, n) == AllData(pages)
    decreases n
  {
    if n > |pages| {
      DataUpToPastEnd(pages, n - 1);
    }
  }

  /**
   * A successful product fetch returns at most `maxItems` records, and they
   * are the first records of the concatenated pages.
   */
  lemma ProductOutcomeBounds(pages: seq<Page>, pageSize: int, maxItems: int, n: nat)
    requires n == 0 || ProductPageRequested(pages, pageSize, maxItems, n)
    requires ProductOutcome(pages, n, maxItems).Success?
    ensures |ProductOutcome(pages, n, maxItems).value| <= if maxItems < 0 then 0 else maxItems
    ensures StartsWith(AllData(pages), ProductOutcome(pages, n, maxItems).value)
  {
    var r := ProductOutcome(pages, n, maxItems).value;
    if n <= |pages| {
      DataUpToPrefix(pages, n, |pages|);
    } else {
      DataUpToPastEnd(pages, n);
    }
  }

  /**
   * When pagination stops after page `n`, page `n` was empty, shorter than a
   * full page or a failure, or the records so far reached `maxItems`.
   */
  lemma ProductStopReason(pages: seq<Page>, pageSize: int, maxItems: int, n: nat)
    requires ProductPageRequested(pages, pageSize, maxItems, n)
    requires !ProductPageRequested(pages, pageSize, maxItems, n + 1)
    ensures var pg := PageAt(pages, n);
            pg.status != 200 || pg.data == [] || |pg.data| < pageSize || |DataUpTo(pages, n)| >= maxItems
  {
  }

  /** A non-positive `maxItems` issues no request and returns no records. */
  lemma NoRequestsWithoutRoom(pages: seq<Page>, pageSize: int, maxItems: int)
    requires maxItems <= 0
    ensures !ProductPageRequested(pages, pageSize, maxItems, 1)
    ensures ProductOutcome(pages, 0, maxItems) == Success([])
  {
  }

  /** The defaults of `fetch_products`, which the export and download routes rely on. */
  const DefaultMaxItems: int := 2000
  const DefaultPageSize: int := 250

  /** `n` full pages hold at least `n * pageSize` records. */
  lemma {:induction false} FullPagesData(pages: seq<Page>, pageSize: int, n: nat)
    requires forall i :: 1 <= i <= n ==> ProductPageContinues(PageAt(pages, i), pageSize)
    ensures |DataUpTo(pages, n)| >= n * pageSize
  {
    if n > 0 {
      FullPagesData(pages, pageSize, n - 1);
    }
  }

  /** A requested page `n` follows `n - 1` full pages that have not yet reached `maxItems`. */
  lemma RequestedPagesBound(pages: seq<Page>, pageSize: int, maxItems: int, n: nat)
    requires ProductPageRequested(pages, pageSize, maxItems, n)
    ensures (n - 1) * pageSize < maxItems
  {
    FullPagesData(pages, pageSize, n - 1);
  }

  /** With the defaults, `fetch_products` requests at most 8 pages. */
  lemma DefaultRequestsAtMostEight(pages: seq<Page>, n: nat)
    requires ProductPageRequested(pages, DefaultPageSize, DefaultMaxItems, n)
    ensures n <= 8
  {
    RequestedPagesBound(pages, DefaultPageSize, DefaultMaxItems, n);
  }

  // ------------------------------------------------------------------ brands

  function BrandKey(brand: Value): Result<Value, Fault> {
    if brand.Obj? then HashKey(Lookup(brand.members, "id", Null)) else Failure(AttributeError)
  }

  function BrandName(brand: Value): Value {
    if brand.Obj? then Lookup(brand.members, "name", Str("")) else Null
  }

  /** `brand_map[brand.get("id")] = brand.get("name", "")` */
  function AddBrand(table: map<Value, Value>, brand: Value): Result<map<Value, Value>, Fault> {
    var key :- BrandKey(brand);
    Success(table[key := BrandName(brand)])
  }

  /** The brand map built from a sequence of brand records, in order. */
  function BrandTable(brands: seq<Value>): Result<map<Value, Value>, Fault> {
    if brands == [] then Success(map[])
    else
      var table :- BrandTable(brands[..|brands| - 1]);
      AddBrand(table, brands[|brands| - 1])
  }

  /** Building the map fails iff some record is not a dict or has an unhashable id. */
  lemma {:induction false} BrandTableSucceeds(brands: seq<Value>)
    ensures BrandTable(brands).Success? <==> forall i :: 0 <= i < |brands| ==> BrandKey(brands[i]).Success?
  {
    if brands != [] {
      var init := brands[..|brands| - 1];
      BrandTableSucceeds(init);
      assert forall i :: 0 <= i < |init| ==> init[i] == brands[i];
    }
  }

  /** The map's keys are exactly the keys of the records. */
  lemma {:induction false} BrandTableKeys(brands: seq<Value>, k: Value)
    requires BrandTable(brands).Success?
    ensures k in BrandTable(brands).value <==>
              exists i :: 0 <= i < |brands| && BrandKey(brands[i]) == Success(k)
  {
    if brands != [] {
      var init := brands[..|brands| - 1];
      var last := brands[|brands| - 1];
      BrandTableKeys(init, k);
      var t := BrandTable(init).value;
      var lastKey := BrandKey(last);
      assert lastKey.Success?;
      assert BrandTable(brands).value == t[lastKey.value := BrandName(last)];
      if k == lastKey.value {
        assert BrandKey(brands[|brands| - 1]) == Success(k);
      } else {
        if exists i :: 0 <= i < |brands| && BrandKey(brands[i]) == Success(k) {
          var i :| 0 <= i < |brands| && BrandKey(brands[i]) == Success(k);
          assert BrandKey(brands[|brands| - 1]) == lastKey;
          assert i != |brands| - 1;
          assert init[i] == brands[i];
        }
        if k in t {
          var i :| 0 <= i < |init| && BrandKey(init[i]) == Success(k);
          assert brands[i] == init[i];
        }
      }
    }
  }

  /** Last write wins: a key maps to the name of the last record carrying it. */
  lemma {:induction false} BrandTableLastWins(brands: seq<Value>, i: nat)
    requires BrandTable(brands).Success?
    requires i < |brands|
    requires forall j :: i < j < |brands| ==> BrandKey(brands[j]) != BrandKey(brands[i])
    ensures BrandKey(brands[i]).Success?
    ensures BrandKey(brands[i]).value in BrandTable(brands).value
    ensures BrandTable(brands).value[BrandKey(brands[i]).value] == BrandName(brands[i])
  {
    var init := brands[..|brands| - 1];
    var last := brands[|brands| - 1];
    BrandTableSucceeds(brands);
    assert BrandKey(brands[i]).Success?;
    var t := BrandTable(init).value;
    var lastKey := BrandKey(last);
    assert lastKey.Success?;
    assert BrandTable(brands).value == t[lastKey.value := BrandName(last)];
    if i < |brands| - 1 {
      assert init[i] == brands[i];
      forall j | i < j < |init| ensures BrandKey(init[j]) != BrandKey(init[i]) {
        assert init[j] == brands[j];
      }
      BrandTableLastWins(init, i);
      assert BrandKey(last) != BrandKey(brands[i]);
    }
  }

  /** A brand page after which the loop asks for the next page. */
  predicate BrandPageContinues(pg: Page) {
    pg.status == 200 && pg.data != [] && |pg.data| >= BrandPageSize &&
    forall k :: 0 <= k < |pg.data| ==> BrandKey(pg.data[k]).Success?
  }

  predicate BrandPageRequested(pages: seq<Page>, n: nat) {
    n >= 1 && forall i :: 1 <= i < n ==> BrandPageContinues(PageAt(pages, i))
  }

  function BrandOutcome(pages: seq<Page>, n: nat): Result<map<Value, Value>, FetchError> {
    if PageAt(pages, n).status != 200 then Failure(ApiError(PageAt(pages, n).status, PageAt(pages, n).body))
    else match BrandTable(DataUpTo(pages, n))
         case Success(table) => Success(table)
         case Failure(fault) => Failure(BadRecord(fault))
  }

  /** Once the brand map fails, later records do not change the failure. */
  lemma {:induction false} BrandTableFailurePersists(brands: seq<Value>, more: seq<Value>)
    requires BrandTable(brands).Failure?
    ensures BrandTable(brands + more) == BrandTable(brands)
    decreases |more|
  {
    if more != [] {
      var s := brands + more;
      assert s[..|s| - 1] == brands + more[..|more| - 1];
      BrandTableFailurePersists(brands, more[..|more| - 1]);
    } else {
      assert brands + more == brands;
    }
  }

  /** The `for brand in data` loop of `fetch_brand_map`: the map after adding a page of records, in order. */
  function WithBrands(table: map<Value, Value>, data: seq<Value>): Result<map<Value, Value>, Fault>
    decreases |data|
  {
    if data == [] then Success(table)
    else
      var next :- AddBrand(table, data[0]);
      WithBrands(next, data[1..])
  }

  /** Adding a page to the map of the records so far gives the map of all records, page included. */
  lemma {:induction false} WithBrandsTable(prefix: seq<Value>, data: seq<Value>, table: map<Value, Value>)
    requires BrandTable(prefix) == Success(table)
    ensures WithBrands(table, data) == BrandTable(prefix + data)
    decreases |data|
  {
    if data != [] {
      var longer := prefix + [data[0]];
      assert longer[..|longer| - 1] == prefix;
      assert longer + data[1..] == prefix + data;
      var step := AddBrand(table, data[0]);
      if step.Success? {
        WithBrandsTable(longer, data[1..], step.value);
      } else {
        BrandTableFailurePersists(longer, data[1..]);
      }
    } else {
      assert prefix + data == prefix;
    }
  }

  /** The `for brand in data` loop of `fetch_brand_map`: add one page of brands to the map. */
  method AddBrands(brandMap: map<Value, Value>, data: seq<Value>) returns (result: Result<map<Value, Value>, Fault>)
    ensures result == WithBrands(brandMap, data)
  {
    var table := brandMap;
    var k := 0;
    while k < |data|
      invariant 0 <= k <= |data|
      invariant WithBrands(table, data[k..]) == WithBrands(brandMap, data)
    {
      assert data[k..][1..] == data[k + 1..];
      var key := BrandKey(data[k]);
      if key.Failure? {
        return Failure(key.error);
      }
      table := table[key.value := BrandName(data[k])];
      k := k + 1;
    }
    result := Success(table);
  }

  /**
   * The pagination loop of `fetch_brand_map` run from page `page` with the
   * map `table` built so far: the outcome and the number of the last page
   * requested.
   */
  function BrandRun(pages: seq<Page>, page: nat, table: map<Value, Value>): (Result<map<Value, Value>, FetchError>, nat)
    requires page >= 1
    decreases |pages| + 1 - page
  {
    var response := PageAt(pages, page);
    if response.status != 200 then (Failure(ApiError(response.status, response.body)), page)
    else if response.data == [] then (Success(table), page)
    else match WithBrands(table, response.data)
         case Failure(fault) => (Failure(BadRecord(fault)), page)
         case Success(next) =>
           if |response.data| < BrandPageSize then (Success(next), page)
           else BrandRun(pages, page + 1, next)
  }

  /**
   * `fetch_brand_map`: check the configuration, then paginate. A missing key
   * fails the fetch before any request is issued.
   */
  method FetchBrandMap(env: Credentials, overrides: map<string, string>, pages: seq<Page>)
    returns (result: Result<map<Value, Value>, FetchError>, requests: seq<Request>)
    ensures var config := Merged(env, overrides);
            MissingKeys(config) != [] ==> result == Failure(MissingConfig(MissingKeys(config))) && requests == []
    ensures var config := Merged(env, overrides);
            MissingKeys(config) == [] ==>
              && |requests| >= 1
              && requests == Pages(BrandTemplate(config), |requests|)
              && BrandPageRequested(pages, |requests|)
              && !BrandPageContinues(PageAt(pages, |requests|))
              && result == BrandOutcome(pages, |requests|)
  {
    var config := GetConfig(env, overrides);
    var missing := MissingKeys(config);
    if missing != [] {
      return Failure(MissingConfig(missing)), [];
    }
    result, requests := PaginateBrands(config, pages);
    BrandRunMeaning(pages, 1, map[]);
  }

  /**
   * The pagination loop of `fetch_brand_map`: request pages of 250 brands
   * until a page is empty or short, adding every brand to the map; a non-200
   * page or an unindexable brand fails the whole fetch.
   */
  method PaginateBrands(config: map<string, string>, pages: seq<Page>)
    returns (result: Result<map<Value, Value>, FetchError>, requests: seq<Request>)
    ensures requests == Pages(BrandTemplate(config), |requests|)
    ensures (result, |requests|) == BrandRun(pages, 1, map[])
  {
    var template := BrandTemplate(config);
    requests := [];
    var brandMap: map<Value, Value> := map[];
    var page := 1;
    while true
      invariant 1 <= page <= |pages| + 1 && |requests| == page - 1
      invariant requests == Pages(template, page - 1)
      invariant BrandRun(pages, page, brandMap) == BrandRun(pages, 1, map[])
      decreases |pages| + 1 - page
    {
      requests := requests + [template.(page := page)];
      var response := PageAt(pages, page);
      if response.status != 200 {
        return Failure(ApiError(response.status, response.body)), requests;
      }
      var data := response.data;
      if data == [] {
        return Success(brandMap), requests;
      }
      var added := AddBrands(brandMap, data);
      if added.Failure? {
        return Failure(BadRecord(added.error)), requests;
      }
      brandMap := added.value;
      if |data| < BrandPageSize {
        return Success(brandMap), requests;
      }
      page := page + 1;
    }
  }

  /** Adding records to a well-formed brand map succeeds iff every added record is indexable. */
  lemma BrandKeysConcat(init: seq<Value>, more: seq<Value>)
    requires BrandTable(init).Success?
    ensures BrandTable(init + more).Success? <==> forall k :: 0 <= k < |more| ==> BrandKey(more[k]).Success?
  {
    BrandTableSucceeds(init);
    BrandTableSucceeds(init + more);
    assert forall k :: 0 <= k < |more| ==> (init + more)[|init| + k] == more[k];
    assert forall i :: 0 <= i < |init| ==> (init + more)[i] == init[i];
  }

  /**
   * The loop's outcome, characterised: the last page requested is the first
   * page that does not continue, and the result is the outcome of
   * requesting pages 1 to that page.
   */
  lemma {:induction false} BrandRunMeaning(pages: seq<Page>, page: nat, table: map<Value, Value>)
    requires BrandPageRequested(pages, page) && BrandTable(DataUpTo(pages, page - 1)) == Success(table)
    ensures BrandRun(pages, page, table).1 >= page
    ensures BrandPageRequested(pages, BrandRun(pages, page, table).1)
    ensures !BrandPageContinues(PageAt(pages, BrandRun(pages, page, table).1))
    ensures BrandRun(pages, page, table).0 == BrandOutcome(pages, BrandRun(pages, page, table).1)
    decreases |pages| + 1 - page
  {
    if BrandPageContinues(PageAt(pages, page)) {
      BrandRunSteps(pages, page, table);
      BrandRequestedNext(pages, page);
      BrandRunMeaning(pages, page + 1, BrandTable(DataUpTo(pages, page)).value);
    } else {
      BrandRunStops(pages, page, table);
    }
  }

  /** After a requested page that continues, the next page is requested. */
  lemma BrandRequestedNext(pages: seq<Page>, page: nat)
    requires BrandPageRequested(pages, page) && BrandPageContinues(PageAt(pages, page))
    ensures BrandPageRequested(pages, page + 1)
  {
  }

  /** At a page that does not continue, the loop stops with the outcome of pages 1 to that page. */
  lemma BrandRunStops(pages: seq<Page>, page: nat, table: map<Value, Value>)
    requires page >= 1 && BrandTable(DataUpTo(pages, page - 1)) == Success(table)
    requires !BrandPageContinues(PageAt(pages, page))
    ensures BrandRun(pages, page, table) == (BrandOutcome(pages, page), page)
  {
    var response := PageAt(pages, page);
    WithBrandsTable(DataUpTo(pages, page - 1), response.data, table);
    BrandKeysConcat(DataUpTo(pages, page - 1), response.data);
    assert DataUpTo(pages, page) == DataUpTo(pages, page - 1) + response.data;
    if response.data == [] {
      assert DataUpTo(pages, page) == DataUpTo(pages, page - 1);
    }
  }

  /** At a page that continues, the loop goes on to the next page with the map of all records so far. */
  lemma BrandRunSteps(pages: seq<Page>, page: nat, table: map<Value, Value>)
    requires page >= 1 && BrandTable(DataUpTo(pages, page - 1)) == Success(table)
    requires BrandPageContinues(PageAt(pages, page))
    ensures page <= |pages| && BrandTable(DataUpTo(pages, page)).Success?
    ensures BrandRun(pages, page, table) == BrandRun(pages, page + 1, BrandTable(DataUpTo(pages, page)).value)
  {
    var response := PageAt(pages, page);
    WithBrandsTable(DataUpTo(pages, page - 1), response.data, table);
    BrandKeysConcat(DataUpTo(pages, page - 1), response.data);
  }
}
