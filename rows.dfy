/**
 * `build_csv_rows`: the header of friendly labels and one row of cell texts
 * per product, modelled as rows of strings (the CSV byte encoding is not
 * part of the model).
 */
module Rows {
  import opened Wrappers
  import opened Json
  import opened Sequences

  /** The exportable fields and their column labels (`FIELD_OPTIONS`). */
  const FieldOptions: map<string, string> := map[
    "id" := "Product ID",
    "name" := "Name",
    "sku" := "SKU",
    "price" := "Price",
    "sale_price" := "Sale Price",
    "retail_price" := "Retail Price",
    "map_price" := "MAP Price",
    "cost_price" := "Cost Price",
    "msrp" := "MSRP",
    "tax_class_id" := "Tax Class ID",
    "inventory_level" := "Inventory",
    "type" := "Type",
    "weight" := "Weight",
    "width" := "Width",
    "height" := "Height",
    "depth" := "Depth",
    "brand_id" := "Brand ID",
    "brand_name" := "Brand Name",
    "upc" := "UPC",
    "mpn" := "MPN",
    "gtin" := "GTIN",
    "bin_picking_number" := "Bin Picking Number",
    "categories" := "Categories",
    "category_ids" := "Category IDs",
    "primary_image_url" := "Primary Image URL",
    "thumbnail_url" := "Thumbnail URL",
    "image_urls" := "Image URLs",
    "is_visible" := "Is Visible",
    "is_featured" := "Is Featured",
    "is_free_shipping" := "Is Free Shipping",
    "availability" := "Availability",
    "availability_description" := "Availability Description",
    "condition" := "Condition",
    "description" := "Description",
    "warranty" := "Warranty",
    "search_keywords" := "Search Keywords",
    "custom_fields" := "Custom Fields",
    "date_created" := "Date Created",
    "date_modified" := "Date Modified",
    "date_last_imported" := "Date Last Imported",
    "total_sold" := "Total Sold",
    "reviews_rating_sum" := "Reviews Rating Sum",
    "reviews_count" := "Reviews Count",
    "variant_skus" := "Variant SKUs",
    "variant_prices" := "Variant Prices",
    "variants" := "Variants (JSON)",
    "custom_url" := "Custom URL"
  ]

  /** The fields with an extraction rule of their own; every other field reads the attribute of that name. */
  const SpecialFields: set<string> := {
    "primary_image_url", "thumbnail_url", "image_urls", "brand_name", "category_ids",
    "custom_fields", "variant_skus", "variant_prices", "variants", "custom_url"
  }

  /** `FIELD_OPTIONS.get(field, field)` */
  function Label(field: string): string {
    if field in FieldOptions then FieldOptions[field] else field
  }

  /** The header row: one label per requested field, in order, duplicates kept. */
  function Header(fields: seq<string>): (header: seq<string>)
    ensures |header| == |fields|
  {
    if fields == [] then [] else [Label(fields[0])] + Header(fields[1..])
  }

  /** Column i of the header is the label of field i, or the field's own name when it has none. */
  lemma {:induction false} HeaderLabels(fields: seq<string>, i: int)
    requires 0 <= i < |fields|
    ensures fields[i] in FieldOptions ==> Header(fields)[i] == FieldOptions[fields[i]]
    ensures fields[i] !in FieldOptions ==> Header(fields)[i] == fields[i]
  {
    if i > 0 {
      HeaderLabels(fields[1..], i - 1);
    }
  }

  // ---------------------------------------------------------- apply_domain

  predicate IsAbsoluteUrl(url: string) {
    StartsWith(url, "http://") || StartsWith(url, "https://")
  }

  /** `s.rstrip("/")` */
  function StripTrailingSlashes(s: string): (r: string)
    ensures StartsWith(s, r)
    ensures r == [] || r[|r| - 1] != '/'
    ensures forall i :: |r| <= i < |s| ==> s[i] == '/'
  {
    if s != [] && s[|s| - 1] == '/' then StripTrailingSlashes(s[..|s| - 1]) else s
  }

  /** `apply_domain`: prefix a relative custom URL with the store's domain. */
  function ApplyDomain(domain: string, url: string): (r: string)
    ensures EndsWith(r, url)
  {
    if domain == "" then url
    else if url == "" then ""
    else if IsAbsoluteUrl(url) then url
    else
      var domainClean := StripTrailingSlashes(domain);
      var path := if StartsWith(url, "/") then url else "/" + url;
      domainClean + path
  }

  /** No domain, no URL, or an absolute URL: the URL comes back unchanged. */
  lemma ApplyDomainKeeps(domain: string, url: string)
    requires domain == "" || url == "" || IsAbsoluteUrl(url)
    ensures ApplyDomain(domain, url) == url
  {
  }

  /**
   * Otherwise the result is the domain without its trailing slashes, one
   * slash, and the URL without the leading slash it may have had.
   */
  lemma ApplyDomainJoins(domain: string, url: string)
    requires domain != "" && url != "" && !IsAbsoluteUrl(url)
    ensures var path := if url[0] == '/' then url[1..] else url;
            ApplyDomain(domain, url) == StripTrailingSlashes(domain) + "/" + path
  {
    if url[0] == '/' {
      assert url == "/" + url[1..];
    }
  }

  /** With an absolute domain, prefixing twice is prefixing once. */
  lemma ApplyDomainIdempotent(domain: string, url: string)
    requires IsAbsoluteUrl(StripTrailingSlashes(domain))
    ensures ApplyDomain(domain, ApplyDomain(domain, url)) == ApplyDomain(domain, url)
  {
    var r := ApplyDomain(domain, url);
    var d := StripTrailingSlashes(domain);
    if url != "" && !IsAbsoluteUrl(url) {
      assert domain != "";
      var path := if StartsWith(url, "/") then url else "/" + url;
      assert r == d + path;
      assert r[..|d|] == d;
      if StartsWith(d, "http://") {
        assert r[..7] == d[..7];
      } else {
        assert r[..8] == d[..8];
      }
    }
  }

  /** A URL that does not start with `h` is relative. */
  lemma NotAbsolute(url: string)
    requires url != [] && url[0] != 'h'
    ensures !IsAbsoluteUrl(url)
  {
  }

  /** A relative path is appended to the domain, whose trailing slash is dropped. */
  lemma ApplyDomainPathExample()
    ensures ApplyDomain("https://shop.io/", "/p/1") == "https://shop.io/p/1"
  {
    var d := "https://shop.io/";
    assert d[..|d| - 1] == "https://shop.io";
    NotAbsolute("/p/1");
    assert StartsWith("/p/1", "/");
  }

  /** A path without a leading slash gets one. */
  lemma ApplyDomainBareExample()
    ensures ApplyDomain("https://shop.io", "p/1") == "https://shop.io/p/1"
  {
    NotAbsolute("p/1");
    assert !StartsWith("p/1", "/");
  }

  /** An absolute URL is kept as it is. */
  lemma ApplyDomainAbsoluteExample()
    ensures ApplyDomain("https://shop.io", "http://cdn.io/p") == "http://cdn.io/p"
  {
    assert StartsWith("http://cdn.io/p", "http://");
  }

  /** `apply_domain` applied to whatever the custom URL lookup produced. */
  function ApplyDomainValue(domain: string, url: Value): Result<Value, Fault> {
    if domain == "" then Success(url)
    else if !Truthy(url) then Success(Str(""))
    else if url.Str? then Success(Str(ApplyDomain(domain, url.s)))
    else Failure(AttributeError)
  }

  // ------------------------------------------------------- field extraction

  /** `d.get(key, default)` for each element, which must all be dicts. */
  function GetEach(xs: seq<Value>, key: string, default: Value): (r: Result<seq<Value>, Fault>)
    ensures r.Success? <==> forall k :: 0 <= k < |xs| ==> xs[k].Obj?
    ensures r.Success? ==> |r.value| == |xs| && forall k :: 0 <= k < |xs| ==> r.value[k] == Lookup(xs[k].members, key, default)
  {
    if xs == [] then Success([])
    else if !xs[0].Obj? then Failure(AttributeError)
    else
      var rest :- GetEach(xs[1..], key, default);
      Success([Lookup(xs[0].members, key, default)] + rest)
  }

  /** The elements that are not `None`. */
  function NonNull(xs: seq<Value>): (r: seq<Value>)
    ensures forall x :: x in r <==> x in xs && !x.Null?
  {
    if xs == [] then [] else (if xs[0].Null? then [] else [xs[0]]) + NonNull(xs[1..])
  }

  /** The truthy elements. */
  function TruthyOnly(xs: seq<Value>): (r: seq<Value>)
    ensures forall x :: x in r <==> x in xs && Truthy(x)
  {
    if xs == [] then [] else (if Truthy(xs[0]) then [xs[0]] else []) + TruthyOnly(xs[1..])
  }

  /** `NonNull` keeps the non-`None` elements in input order. */
  lemma {:induction false} NonNullSubsequence(xs: seq<Value>)
    ensures IsSubsequence(NonNull(xs), xs)
  {
    if xs != [] {
      var rest := NonNull(xs[1..]);
      NonNullSubsequence(xs[1..]);
      if xs[0].Null? {
        assert NonNull(xs) == rest;
      } else {
        assert NonNull(xs) == [xs[0]] + rest;
        assert ([xs[0]] + rest)[1..] == rest;
      }
    }
  }

  /** `NonNull` keeps every non-`None` element as often as it occurs, and no `None`. */
  lemma {:induction false} NonNullCounts(xs: seq<Value>)
    ensures forall x :: multiset(NonNull(xs))[x] == if x.Null? then 0 else multiset(xs)[x]
  {
    if xs != [] {
      var rest := NonNull(xs[1..]);
      NonNullCounts(xs[1..]);
      assert xs == [xs[0]] + xs[1..];
      assert multiset(xs) == multiset{xs[0]} + multiset(xs[1..]);
      if xs[0].Null? {
        assert NonNull(xs) == rest;
      } else {
        assert NonNull(xs) == [xs[0]] + rest;
        assert multiset(NonNull(xs)) == multiset{xs[0]} + multiset(rest);
      }
    }
  }

  /** `TruthyOnly` keeps the truthy elements in input order. */
  lemma {:induction false} TruthyOnlySubsequence(xs: seq<Value>)
    ensures IsSubsequence(TruthyOnly(xs), xs)
  {
    if xs != [] {
      var rest := TruthyOnly(xs[1..]);
      TruthyOnlySubsequence(xs[1..]);
      if !Truthy(xs[0]) {
        assert TruthyOnly(xs) == rest;
      } else {
        assert TruthyOnly(xs) == [xs[0]] + rest;
        assert ([xs[0]] + rest)[1..] == rest;
      }
    }
  }

  /** `TruthyOnly` keeps every truthy element as often as it occurs, and no falsy one. */
  lemma {:induction false} TruthyOnlyCounts(xs: seq<Value>)
    ensures forall x :: multiset(TruthyOnly(xs))[x] == if Truthy(x) then multiset(xs)[x] else 0
  {
    if xs != [] {
      var rest := TruthyOnly(xs[1..]);
      TruthyOnlyCounts(xs[1..]);
      assert xs == [xs[0]] + xs[1..];
      assert multiset(xs) == multiset{xs[0]} + multiset(xs[1..]);
      if !Truthy(xs[0]) {
        assert TruthyOnly(xs) == rest;
      } else {
        assert TruthyOnly(xs) == [xs[0]] + rest;
        assert multiset(TruthyOnly(xs)) == multiset{xs[0]} + multiset(rest);
      }
    }
  }

  /** `f"{name}: {value}" if name else value` */
  function CustomFieldPart(name: Value, value: Value): Value {
    if Truthy(name) then Str(ToStr(name) + ": " + ToStr(value)) else value
  }

  /** The part of each custom field entry, which must all be dicts. */
  function CustomFieldParts(cfs: seq<Value>): (r: Result<seq<Value>, Fault>)
    ensures r.Success? <==> forall k :: 0 <= k < |cfs| ==> cfs[k].Obj?
    ensures r.Success? ==>
              |r.value| == |cfs| &&
              forall k :: 0 <= k < |cfs| ==>
                r.value[k] == CustomFieldPart(Lookup(cfs[k].members, "name", Str("")), Lookup(cfs[k].members, "value", Str("")))
  {
    if cfs == [] then Success([])
    else if !cfs[0].Obj? then Failure(AttributeError)
    else
      var part := CustomFieldPart(Lookup(cfs[0].members, "name", Str("")), Lookup(cfs[0].members, "value", Str("")));
      var rest :- CustomFieldParts(cfs[1..]);
      Success([part] + rest)
  }

  /** `image_urls`: the `url_standard` of every non-null image, joined with ", ". */
  function ImageUrls(record: Value): Result<Value, Fault> {
    var raw :- Get(record, "images", Null);
    var images :- Iterate(OrEmptyList(raw));
    var urls :- GetEach(OrEmptyDicts(NonNull(images)), "url_standard", Str(""));
    var text :- JoinStrs(", ", urls);
    Success(Str(text))
  }

  /** `brand_name`: what the brand map holds for the product's `brand_id`, or "". */
  function BrandNameValue(record: Value, brands: map<Value, Value>): Result<Value, Fault> {
    var id :- Get(record, "brand_id", Null);
    var key :- HashKey(id);
    Success(if key in brands then brands[key] else Str(""))
  }

  /** `category_ids`: `str()` of every category id, joined with ", ". */
  function CategoryIds(record: Value): Result<Value, Fault> {
    var raw :- Get(record, "categories", Null);
    var categories :- Iterate(OrEmptyList(raw));
    Success(Str(Join(", ", ToStrs(categories))))
  }

  /** `custom_fields`: the `name: value` parts of the entries, joined with "; ". */
  function CustomFieldsText(record: Value): Result<Value, Fault> {
    var raw :- Get(record, "custom_fields", Null);
    var cfs :- Iterate(OrEmptyList(raw));
    var parts :- CustomFieldParts(cfs);
    var text :- JoinStrs("; ", parts);
    Success(Str(text))
  }

  /** `variant_skus`: the `sku` of every truthy variant, joined with ", ". */
  function VariantSkus(record: Value): Result<Value, Fault> {
    var raw :- Get(record, "variants", Null);
    var variants :- Iterate(OrEmptyList(raw));
    var skus :- GetEach(TruthyOnly(variants), "sku", Str(""));
    var text :- JoinStrs(", ", skus);
    Success(Str(text))
  }

  /** `variant_prices`: `str()` of the `price` of every truthy variant, joined with ", ". */
  function VariantPrices(record: Value): Result<Value, Fault> {
    var raw :- Get(record, "variants", Null);
    var variants :- Iterate(OrEmptyList(raw));
    var prices :- GetEach(TruthyOnly(variants), "price", Str(""));
    Success(Str(Join(", ", ToStrs(prices))))
  }

  /** `variants`: `str()` of the variant list, `[]` when there is none. */
  function VariantsText(record: Value): Result<Value, Fault> {
    var raw :- Get(record, "variants", Null);
    Success(Str(ToStr(OrEmptyList(raw))))
  }

  /** `custom_url`: the dict's `url`, else its `path`, through `apply_domain`. */
  function CustomUrlValue(record: Value, domain: string): Result<Value, Fault> {
    var raw :- Get(record, "custom_url", Null);
    var custom := OrEmptyDict(raw);
    var url :=
      if custom.Obj? then
        var u := Lookup(custom.members, "url", Str(""));
        var p := Lookup(custom.members, "path", Str(""));
        if Truthy(u) then u else if Truthy(p) then p else Str("")
      else Str(ToStr(custom));
    ApplyDomainValue(domain, url)
  }

  /** The value the dispatch of `build_csv_rows` computes for one field of one record. */
  function FieldValue(record: Value, image: Value, field: string, brands: map<Value, Value>, domain: string)
    : Result<Value, Fault>
  {
    if field == "primary_image_url" then Get(image, "url_standard", Str(""))
    else if field == "thumbnail_url" then Get(image, "url_thumbnail", Str(""))
    else if field == "image_urls" then ImageUrls(record)
    else if field == "brand_name" then BrandNameValue(record, brands)
    else if field == "category_ids" then CategoryIds(record)
    else if field == "custom_fields" then CustomFieldsText(record)
    else if field == "variant_skus" then VariantSkus(record)
    else if field == "variant_prices" then VariantPrices(record)
    else if field == "variants" then VariantsText(record)
    else if field == "custom_url" then CustomUrlValue(record, domain)
    else Get(record, field, Str(""))
  }

  /** The final coercion: a list is joined, a dict stringified (or its `url` taken for `custom_url`). */
  function Flatten(field: string, value: Value): Value {
    match value
    case List(items) => Str(Join(", ", ToStrs(items)))
    case Obj(ms) => if field == "custom_url" then Lookup(ms, "url", Str("")) else Str(ToStr(value))
    case _ => value
  }

  /** The text `csv.writer` writes for a cell: nothing for `None`, `str()` of anything else. */
  function CsvText(value: Value): string {
    match value
    case Null => ""
    case Str(s) => s
    case _ => ToStr(value)
  }

  /** The text of one cell, or the exception computing it raises. */
  function Cell(product: Value, field: string, brands: map<Value, Value>, domain: string): Result<string, Fault> {
    var record := OrEmptyDict(product);
    var image :- Get(record, "primary_image", Null);
    var value :- FieldValue(record, OrEmptyDict(image), field, brands, domain);
    Success(CsvText(Flatten(field, value)))
  }

  /**
   * The cell computation of `build_csv_rows` as a function value. The row
   * and table definitions below take it as a parameter, so that facts about
   * their shape are stated once for any cell computation.
   */
  function Cells(brands: map<Value, Value>, domain: string): (Value, string) -> Result<string, Fault> {
    (product, field) => Cell(product, field, brands, domain)
  }

  /** One data row: the cells of the fields, in order, or the exception of the first cell that raises. */
  function Row(cells: (Value, string) -> Result<string, Fault>, product: Value, fields: seq<string>)
    : Result<seq<string>, Fault>
    decreases |fields|
  {
    if fields == [] then Success([])
    else
      var init :- Row(cells, product, fields[..|fields| - 1]);
      var text :- cells(product, fields[|fields| - 1]);
      Success(init + [text])
  }

  /** The header row, then one row per product, or the exception of the first row that raises. */
  function Table(cells: (Value, string) -> Result<string, Fault>, products: seq<Value>, fields: seq<string>)
    : Result<seq<seq<string>>, Fault>
    decreases |products|
  {
    if products == [] then Success([Header(fields)])
    else
      var init :- Table(cells, products[..|products| - 1], fields);
      var row :- Row(cells, products[|products| - 1], fields);
      Success(init + [row])
  }

  /** What `build_csv_rows` produces: the table of the product cells. */
  function CsvRows(products: seq<Value>, fields: seq<string>, brands: map<Value, Value>, domain: string)
    : Result<seq<seq<string>>, Fault>
  {
    Table(Cells(brands, domain), products, fields)
  }

  /** Every cell of the product's row can be computed. */
  predicate RowOk(cells: (Value, string) -> Result<string, Fault>, product: Value, fields: seq<string>) {
    forall j :: 0 <= j < |fields| ==> cells(product, fields[j]).Success?
  }

  /** Field j is the first field of the product's row whose cell fails. */
  predicate FirstFailingField(cells: (Value, string) -> Result<string, Fault>, product: Value, fields: seq<string>, j: int) {
    && 0 <= j < |fields|
    && cells(product, fields[j]).Failure?
    && forall b :: 0 <= b < j ==> cells(product, fields[b]).Success?
  }

  /** Cell (i, j) is the first cell, in row order, that fails. */
  predicate FirstFailure(cells: (Value, string) -> Result<string, Fault>, products: seq<Value>, fields: seq<string>, i: int, j: int) {
    && 0 <= i < |products|
    && (forall a :: 0 <= a < i ==> RowOk(cells, products[a], fields))
    && FirstFailingField(cells, products[i], fields, j)
  }

  /** Extending the fields by one adds that field's cell to a row that succeeded so far. */
  lemma RowSnoc(cells: (Value, string) -> Result<string, Fault>, product: Value, fields: seq<string>, j: nat)
    requires j < |fields|
    ensures Row(cells, product, fields[..j + 1]) ==
              (var init :- Row(cells, product, fields[..j]); var text :- cells(product, fields[j]); Success(init + [text]))
  {
    assert fields[..j + 1][..j] == fields[..j];
  }

  /** A row that failed on some prefix of the fields fails with the same exception. */
  lemma {:induction false} RowFailurePersists(cells: (Value, string) -> Result<string, Fault>, product: Value, fields: seq<string>, j: nat)
    requires j <= |fields| && Row(cells, product, fields[..j]).Failure?
    ensures Row(cells, product, fields) == Row(cells, product, fields[..j])
    decreases |fields| - j
  {
    if j < |fields| {
      RowSnoc(cells, product, fields, j);
      RowFailurePersists(cells, product, fields, j + 1);
    } else {
      assert fields[..j] == fields;
    }
  }

  /** The row for one product: computed cell by cell, stopping at the first exception. */
  method BuildRow(cells: (Value, string) -> Result<string, Fault>, product: Value, fields: seq<string>)
    returns (result: Result<seq<string>, Fault>)
    ensures result == Row(cells, product, fields)
  {
    var row: seq<string> := [];
    var j := 0;
    while j < |fields|
      invariant 0 <= j <= |fields|
      invariant Row(cells, product, fields[..j]) == Success(row)
    {
      RowSnoc(cells, product, fields, j);
      var text := cells(product, fields[j]);
      if text.Failure? {
        RowFailurePersists(cells, product, fields, j + 1);
        return Failure(text.error);
      }
      row := row + [text.value];
      j := j + 1;
    }
    assert fields[..j] == fields;
    result := Success(row);
  }

  /** Extending the products by one adds that product's row to a table that succeeded so far. */
  lemma TableSnoc(cells: (Value, string) -> Result<string, Fault>, products: seq<Value>, fields: seq<string>, i: nat)
    requires i < |products|
    ensures Table(cells, products[..i + 1], fields) ==
              (var init :- Table(cells, products[..i], fields);
               var row :- Row(cells, products[i], fields);
               Success(init + [row]))
  {
    assert products[..i + 1][..i] == products[..i];
  }

  /** A table that failed on some prefix of the products fails with the same exception. */
  lemma {:induction false} TableFailurePersists(cells: (Value, string) -> Result<string, Fault>, products: seq<Value>, fields: seq<string>, i: nat)
    requires i <= |products| && Table(cells, products[..i], fields).Failure?
    ensures Table(cells, products, fields) == Table(cells, products[..i], fields)
    decreases |products| - i
  {
    if i < |products| {
      TableSnoc(cells, products, fields, i);
      TableFailurePersists(cells, products, fields, i + 1);
    } else {
      assert products[..i] == products;
    }
  }

  /**
   * `build_csv_rows`: the header row, then one row per product with one cell
   * per field; the first cell that raises aborts the whole build.
   */
  method BuildCsvRows(products: seq<Value>, fields: seq<string>, brands: map<Value, Value>, domain: string)
    returns (result: Result<seq<seq<string>>, Fault>)
    ensures result == CsvRows(products, fields, brands, domain)
  {
    var cells := Cells(brands, domain);
    var rows := [Header(fields)];
    var i := 0;
    while i < |products|
      invariant 0 <= i <= |products|
      invariant Table(cells, products[..i], fields) == Success(rows)
    {
      TableSnoc(cells, products, fields, i);
      var row := BuildRow(cells, products[i], fields);
      if row.Failure? {
        TableFailurePersists(cells, products, fields, i + 1);
        return Failure(row.error);
      }
      rows := rows + [row.value];
      i := i + 1;
    }
    assert products[..i] == products;
    result := Success(rows);
  }

  /** A row succeeds exactly when every cell does, and then holds the cells' texts in field order. */
  lemma {:induction false} RowCells(cells: (Value, string) -> Result<string, Fault>, product: Value, fields: seq<string>)
    ensures Row(cells, product, fields).Success? <==> RowOk(cells, product, fields)
    ensures Row(cells, product, fields).Success? ==>
              |Row(cells, product, fields).value| == |fields| &&
              forall j :: 0 <= j < |fields| ==> Row(cells, product, fields).value[j] == cells(product, fields[j]).value
    decreases |fields|
  {
    if fields != [] {
      var init := fields[..|fields| - 1];
      RowCells(cells, product, init);
      assert forall j :: 0 <= j < |init| ==> init[j] == fields[j];
      if RowOk(cells, product, fields) {
        assert RowOk(cells, product, init);
      }
    }
  }

  /** A row that fails raises the exception of its first failing cell. */
  lemma {:induction false} RowFailure(cells: (Value, string) -> Result<string, Fault>, product: Value, fields: seq<string>)
    requires Row(cells, product, fields).Failure?
    ensures exists j :: FirstFailingField(cells, product, fields, j) &&
                        Row(cells, product, fields).error == cells(product, fields[j]).error
    decreases |fields|
  {
    var init := fields[..|fields| - 1];
    assert forall j :: 0 <= j < |init| ==> init[j] == fields[j];
    if Row(cells, product, init).Failure? {
      RowFailure(cells, product, init);
      var j :| FirstFailingField(cells, product, init, j) && Row(cells, product, init).error == cells(product, init[j]).error;
      assert FirstFailingField(cells, product, fields, j);
    } else {
      RowCells(cells, product, init);
      assert FirstFailingField(cells, product, fields, |fields| - 1);
    }
  }

  /** A table succeeds exactly when every row does; row i + 1 is then the row of product i. */
  lemma {:induction false} TableShape(cells: (Value, string) -> Result<string, Fault>, products: seq<Value>, fields: seq<string>)
    ensures Table(cells, products, fields).Success? <==>
              forall i :: 0 <= i < |products| ==> Row(cells, products[i], fields).Success?
    ensures Table(cells, products, fields).Success? ==>
              var rows := Table(cells, products, fields).value;
              && |rows| == |products| + 1
              && rows[0] == Header(fields)
              && forall i :: 0 <= i < |products| ==> rows[i + 1] == Row(cells, products[i], fields).value
    decreases |products|
  {
    if products != [] {
      var init := products[..|products| - 1];
      TableShape(cells, init, fields);
      assert forall i :: 0 <= i < |init| ==> init[i] == products[i];
    }
  }

  /** A table that fails raises the exception of the first failing cell in row order. */
  lemma {:induction false} TableFailure(cells: (Value, string) -> Result<string, Fault>, products: seq<Value>, fields: seq<string>)
    requires Table(cells, products, fields).Failure?
    ensures exists i, j :: FirstFailure(cells, products, fields, i, j) &&
                           Table(cells, products, fields).error == cells(products[i], fields[j]).error
    decreases |products|
  {
    var init := products[..|products| - 1];
    var last := products[|products| - 1];
    assert forall i :: 0 <= i < |init| ==> init[i] == products[i];
    if Table(cells, init, fields).Failure? {
      TableFailure(cells, init, fields);
      var i, j :| FirstFailure(cells, init, fields, i, j) && Table(cells, init, fields).error == cells(init[i], fields[j]).error;
      assert FirstFailure(cells, products, fields, i, j);
    } else {
      TableShape(cells, init, fields);
      forall a | 0 <= a < |init|
        ensures RowOk(cells, products[a], fields)
      {
        RowCells(cells, products[a], fields);
      }
      RowFailure(cells, last, fields);
      var j :| FirstFailingField(cells, last, fields, j) && Row(cells, last, fields).error == cells(last, fields[j]).error;
      assert FirstFailure(cells, products, fields, |products| - 1, j);
    }
  }

  /**
   * A successful build has the header, then one row per product, each with
   * one cell per field holding that cell's text; every cell succeeded.
   */
  lemma CsvRowsCell(products: seq<Value>, fields: seq<string>, brands: map<Value, Value>, domain: string, i: int, j: int)
    requires CsvRows(products, fields, brands, domain).Success?
    requires 0 <= i < |products| && 0 <= j < |fields|
    ensures var rows := CsvRows(products, fields, brands, domain).value;
            && |rows| == |products| + 1
            && rows[0] == Header(fields)
            && |rows[i + 1]| == |fields|
            && Cell(products[i], fields[j], brands, domain).Success?
            && rows[i + 1][j] == Cell(products[i], fields[j], brands, domain).value
  {
    TableShape(Cells(brands, domain), products, fields);
    RowCells(Cells(brands, domain), products[i], fields);
  }

  /** A failed build raises the exception of the first cell, in row order, that fails. */
  lemma CsvRowsFailure(products: seq<Value>, fields: seq<string>, brands: map<Value, Value>, domain: string)
    requires CsvRows(products, fields, brands, domain).Failure?
    ensures exists i, j :: FirstFailure(Cells(brands, domain), products, fields, i, j) &&
                           CsvRows(products, fields, brands, domain).error == Cell(products[i], fields[j], brands, domain).error
  {
    TableFailure(Cells(brands, domain), products, fields);
  }

  // ----------------------------------------------------------------- lemmas

  /** A plain field the record does not have yields an empty cell. */
  lemma AbsentFieldIsEmpty(members: seq<(string, Value)>, field: string, brands: map<Value, Value>, domain: string)
    requires field !in SpecialFields
    requires forall i :: 0 <= i < |members| ==> members[i].0 != field
    ensures Cell(Obj(members), field, brands, domain) == Success("")
  {
    LookupAbsent(members, field, Str(""));
  }

  /**
   * Every cell of an empty product: "" for every field, except `variants`,
   * which shows the empty list `[]`, and `brand_name`, which shows the name
   * of a brand without an id when the map has one.
   */
  lemma EmptyProductCells(product: Value, field: string, brands: map<Value, Value>, domain: string)
    requires !Truthy(product)
    ensures Cell(product, field, brands, domain) ==
              Success(if field == "variants" then "[]"
                      else if field == "brand_name" && Null in brands then CsvText(Flatten(field, brands[Null]))
                      else "")
  {
    assert OrEmptyDict(product) == Obj([]);
    EmptyRecordValue(field, brands, domain);
  }

  /** The value each field extracts from an empty record. */
  lemma EmptyRecordValue(field: string, brands: map<Value, Value>, domain: string)
    ensures FieldValue(Obj([]), Obj([]), field, brands, domain) ==
              Success(if field == "variants" then Str("[]")
                      else if field == "brand_name" then (if Null in brands then brands[Null] else Str(""))
                      else Str(""))
  {
    var e := Obj([]);
    if field == "image_urls" {
      assert ImageUrls(e) == Success(Str(""));
    } else if field == "category_ids" {
      assert CategoryIds(e) == Success(Str(""));
    } else if field == "custom_fields" {
      assert CustomFieldsText(e) == Success(Str(""));
    } else if field == "variant_skus" {
      assert VariantSkus(e) == Success(Str(""));
    } else if field == "variant_prices" {
      assert VariantPrices(e) == Success(Str(""));
    } else if field == "variants" {
      assert ToStr(List([])) == "[]";
    } else if field == "custom_url" {
      assert CustomUrlValue(e, domain) == Success(Str(""));
    }
  }

  /** `brand_name` shows the name the brand map holds for the product's brand id, and "" for an unknown id. */
  lemma BrandNameCell(product: Value, id: int, brands: map<Value, Value>, domain: string)
    requires product.Obj? && Lookup(product.members, "brand_id", Null) == Int(id)
    ensures Cell(product, "brand_name", brands, domain) ==
              Success(if Int(id) in brands then CsvText(Flatten("brand_name", brands[Int(id)])) else "")
  {
    assert product.members != [];
  }

  lemma BrandNameExample(domain: string)
    ensures Cell(Obj([("id", Int(1)), ("brand_id", Int(7))]), "brand_name", map[Int(7) := Str("Acme")], domain) == Success("Acme")
    ensures Cell(Obj([("id", Int(1)), ("brand_id", Int(7))]), "brand_name", map[Int(8) := Str("Acme")], domain) == Success("")
  {
    var product := Obj([("id", Int(1)), ("brand_id", Int(7))]);
    assert Lookup(product.members, "brand_id", Null) == Int(7);
    BrandNameCell(product, 7, map[Int(7) := Str("Acme")], domain);
    BrandNameCell(product, 7, map[Int(8) := Str("Acme")], domain);
  }

  /**
   * `custom_url` shows the dict's `url`, or its `path` when the url is empty,
   * passed through `apply_domain`.
   */
  lemma CustomUrlCell(product: Value, custom: seq<(string, Value)>, url: string, path: string,
                      brands: map<Value, Value>, domain: string)
    requires product.Obj? && Lookup(product.members, "custom_url", Null) == Obj(custom)
    requires Lookup(custom, "url", Str("")) == Str(url) && Lookup(custom, "path", Str("")) == Str(path)
    ensures Cell(product, "custom_url", brands, domain) == Success(ApplyDomain(domain, if url != "" then url else path))
  {
    assert product.members != [];
    CustomUrlDispatch(product, OrEmptyDict(Lookup(product.members, "primary_image", Null)), brands, domain);
    CustomUrlPick(product, custom, url, path, domain);
  }

  /** The custom URL dict's `url`, else its `path`, goes through `apply_domain`. */
  lemma CustomUrlPick(product: Value, custom: seq<(string, Value)>, url: string, path: string, domain: string)
    requires product.Obj? && Lookup(product.members, "custom_url", Null) == Obj(custom)
    requires Lookup(custom, "url", Str("")) == Str(url) && Lookup(custom, "path", Str("")) == Str(path)
    ensures CustomUrlValue(product, domain) == Success(Str(ApplyDomain(domain, if url != "" then url else path)))
  {
    if url == "" && path == "" {
      ApplyDomainKeeps(domain, "");
    } else if domain == "" {
      ApplyDomainKeeps(domain, if url != "" then url else path);
    }
  }

  /** The dispatch sends `custom_url` to its own extraction. */
  lemma CustomUrlDispatch(record: Value, image: Value, brands: map<Value, Value>, domain: string)
    ensures FieldValue(record, image, "custom_url", brands, domain) == CustomUrlValue(record, domain)
  {
  }

  /** A relative custom URL is prefixed with the domain. */
  lemma CustomUrlExample()
    ensures Cell(Obj([("custom_url", Obj([("url", Str("/p/1")), ("path", Str(""))]))]), "custom_url", map[], "https://shop.io/")
            == Success("https://shop.io/p/1")
  {
    var custom := [("url", Str("/p/1")), ("path", Str(""))];
    assert Lookup(custom, "url", Str("")) == Str("/p/1");
    assert Lookup(custom, "path", Str("")) == Str("");
    CustomUrlCell(Obj([("custom_url", Obj(custom))]), custom, "/p/1", "", map[], "https://shop.io/");
    ApplyDomainPathExample();
  }

  /** `primary_image_url` and `thumbnail_url` show the primary image's `url_standard` and `url_thumbnail`. */
  lemma PrimaryImageCells(product: Value, image: seq<(string, Value)>, standard: string, thumbnail: string,
                          brands: map<Value, Value>, domain: string)
    requires product.Obj? && Lookup(product.members, "primary_image", Null) == Obj(image)
    requires Lookup(image, "url_standard", Str("")) == Str(standard)
    requires Lookup(image, "url_thumbnail", Str("")) == Str(thumbnail)
    ensures Cell(product, "primary_image_url", brands, domain) == Success(standard)
    ensures Cell(product, "thumbnail_url", brands, domain) == Success(thumbnail)
  {
    assert OrEmptyDict(Obj(image)) == Obj(image) by {
      if image == [] {
        assert Lookup(image, "url_standard", Str("")) == Str("");
      }
    }
  }

  /** Without a primary image both image columns are empty. */
  lemma NoPrimaryImageCells(product: Value, brands: map<Value, Value>, domain: string)
    requires product.Obj? && !Truthy(Lookup(product.members, "primary_image", Null))
    ensures Cell(product, "primary_image_url", brands, domain) == Success("")
    ensures Cell(product, "thumbnail_url", brands, domain) == Success("")
  {
  }

  /** A field whose extraction yields the string `text` shows `text`. */
  lemma TextCell(product: Value, field: string, text: string, brands: map<Value, Value>, domain: string)
    requires product.Obj?
    requires FieldValue(product, OrEmptyDict(Lookup(product.members, "primary_image", Null)), field, brands, domain)
             == Success(Str(text))
    ensures Cell(product, field, brands, domain) == Success(text)
  {
  }

  /** `image_urls` shows the `url_standard` of every image that is not `None`, joined with ", ". */
  lemma ImageUrlsCell(product: Value, images: seq<Value>, urls: seq<string>, brands: map<Value, Value>, domain: string)
    requires product.Obj? && Lookup(product.members, "images", Null) == List(images)
    requires |urls| == |NonNull(images)|
    requires forall k :: 0 <= k < |urls| ==>
               OrEmptyDict(NonNull(images)[k]).Obj? &&
               Lookup(OrEmptyDict(NonNull(images)[k]).members, "url_standard", Str("")) == Str(urls[k])
    ensures Cell(product, "image_urls", brands, domain) == Success(Join(", ", urls))
  {
    assert ImageUrls(product) == Success(Str(Join(", ", urls))) by {
      var got := GetEach(OrEmptyDicts(NonNull(images)), "url_standard", Str(""));
      JoinStrsOfStrings(", ", got.value, urls);
    }
    var image := OrEmptyDict(Lookup(product.members, "primary_image", Null));
    assert FieldValue(product, image, "image_urls", brands, domain) == ImageUrls(product);
    TextCell(product, "image_urls", Join(", ", urls), brands, domain);
  }

  /** `category_ids` shows `str()` of every category id, joined with ", ". */
  lemma CategoryIdsCell(product: Value, categories: seq<Value>, brands: map<Value, Value>, domain: string)
    requires product.Obj? && Lookup(product.members, "categories", Null) == List(categories)
    ensures Cell(product, "category_ids", brands, domain) == Success(Join(", ", ToStrs(categories)))
  {
    assert CategoryIds(product) == Success(Str(Join(", ", ToStrs(categories))));
    var image := OrEmptyDict(Lookup(product.members, "primary_image", Null));
    assert FieldValue(product, image, "category_ids", brands, domain) == CategoryIds(product);
    TextCell(product, "category_ids", Join(", ", ToStrs(categories)), brands, domain);
  }

  /**
   * `custom_fields` shows `name: value` for each entry, or the bare value when
   * the name is empty, joined with "; ".
   */
  lemma CustomFieldsCell(product: Value, cfs: seq<Value>, names: seq<string>, values: seq<string>, parts: seq<string>,
                         brands: map<Value, Value>, domain: string)
    requires product.Obj? && Lookup(product.members, "custom_fields", Null) == List(cfs)
    requires |names| == |cfs| && |values| == |cfs| && |parts| == |cfs|
    requires forall k :: 0 <= k < |cfs| ==>
               cfs[k].Obj? &&
               Lookup(cfs[k].members, "name", Str("")) == Str(names[k]) &&
               Lookup(cfs[k].members, "value", Str("")) == Str(values[k])
    requires forall k :: 0 <= k < |cfs| ==> parts[k] == if names[k] != "" then names[k] + ": " + values[k] else values[k]
    ensures Cell(product, "custom_fields", brands, domain) == Success(Join("; ", parts))
  {
    CustomFieldPartsOf(cfs, names, values, parts);
    CustomFieldsTextCell(product, Join("; ", parts), brands, domain);
  }

  /** The `custom_fields` cell shows the text its extraction yields. */
  lemma CustomFieldsTextCell(product: Value, text: string, brands: map<Value, Value>, domain: string)
    requires product.Obj? && CustomFieldsText(product) == Success(Str(text))
    ensures Cell(product, "custom_fields", brands, domain) == Success(text)
  {
    var image := OrEmptyDict(Lookup(product.members, "primary_image", Null));
    assert FieldValue(product, image, "custom_fields", brands, domain) == CustomFieldsText(product);
    TextCell(product, "custom_fields", text, brands, domain);
  }

  /** The parts of well-formed custom field entries joined with "; ". */
  lemma CustomFieldPartsOf(cfs: seq<Value>, names: seq<string>, values: seq<string>, parts: seq<string>)
    requires |names| == |cfs| && |values| == |cfs| && |parts| == |cfs|
    requires forall k :: 0 <= k < |cfs| ==>
               cfs[k].Obj? &&
               Lookup(cfs[k].members, "name", Str("")) == Str(names[k]) &&
               Lookup(cfs[k].members, "value", Str("")) == Str(values[k])
    requires forall k :: 0 <= k < |cfs| ==> parts[k] == if names[k] != "" then names[k] + ": " + values[k] else values[k]
    ensures CustomFieldParts(cfs).Success?
    ensures JoinStrs("; ", CustomFieldParts(cfs).value) == Success(Join("; ", parts))
  {
    var got := CustomFieldParts(cfs);
    forall k | 0 <= k < |cfs| ensures got.value[k] == Str(parts[k]) {
      assert got.value[k] == CustomFieldPart(Str(names[k]), Str(values[k]));
    }
    JoinStrsOfStrings("; ", got.value, parts);
  }

  /** `variant_skus` shows the `sku` of every truthy variant, joined with ", ". */
  lemma VariantSkusCell(product: Value, variants: seq<Value>, skus: seq<string>, brands: map<Value, Value>, domain: string)
    requires product.Obj? && Lookup(product.members, "variants", Null) == List(variants)
    requires |skus| == |TruthyOnly(variants)|
    requires forall k :: 0 <= k < |skus| ==>
               TruthyOnly(variants)[k].Obj? && Lookup(TruthyOnly(variants)[k].members, "sku", Str("")) == Str(skus[k])
    ensures Cell(product, "variant_skus", brands, domain) == Success(Join(", ", skus))
  {
    assert VariantSkus(product) == Success(Str(Join(", ", skus))) by {
      var got := GetEach(TruthyOnly(variants), "sku", Str(""));
      JoinStrsOfStrings(", ", got.value, skus);
    }
    VariantSkusTextCell(product, Join(", ", skus), brands, domain);
  }

  /** The `variant_skus` cell shows the text its extraction yields. */
  lemma VariantSkusTextCell(product: Value, text: string, brands: map<Value, Value>, domain: string)
    requires product.Obj? && VariantSkus(product) == Success(Str(text))
    ensures Cell(product, "variant_skus", brands, domain) == Success(text)
  {
    var image := OrEmptyDict(Lookup(product.members, "primary_image", Null));
    assert FieldValue(product, image, "variant_skus", brands, domain) == VariantSkus(product);
    TextCell(product, "variant_skus", text, brands, domain);
  }

  /** `variant_prices` shows `str()` of the `price` of every truthy variant, joined with ", ". */
  lemma VariantPricesCell(product: Value, variants: seq<Value>, prices: seq<Value>, brands: map<Value, Value>, domain: string)
    requires product.Obj? && Lookup(product.members, "variants", Null) == List(variants)
    requires |prices| == |TruthyOnly(variants)|
    requires forall k :: 0 <= k < |prices| ==>
               TruthyOnly(variants)[k].Obj? && Lookup(TruthyOnly(variants)[k].members, "price", Str("")) == prices[k]
    ensures Cell(product, "variant_prices", brands, domain) == Success(Join(", ", ToStrs(prices)))
  {
    assert VariantPrices(product) == Success(Str(Join(", ", ToStrs(prices)))) by {
      assert GetEach(TruthyOnly(variants), "price", Str("")).value == prices;
    }
    VariantPricesTextCell(product, Join(", ", ToStrs(prices)), brands, domain);
  }

  /** The `variant_prices` cell shows the text its extraction yields. */
  lemma VariantPricesTextCell(product: Value, text: string, brands: map<Value, Value>, domain: string)
    requires product.Obj? && VariantPrices(product) == Success(Str(text))
    ensures Cell(product, "variant_prices", brands, domain) == Success(text)
  {
    var image := OrEmptyDict(Lookup(product.members, "primary_image", Null));
    assert FieldValue(product, image, "variant_prices", brands, domain) == VariantPrices(product);
    TextCell(product, "variant_prices", text, brands, domain);
  }

  /** `variants` shows `str()` of the variant list, and `[]` when there is none. */
  lemma VariantsCell(product: Value, raw: Value, brands: map<Value, Value>, domain: string)
    requires product.Obj? && Lookup(product.members, "variants", Null) == raw
    ensures Cell(product, "variants", brands, domain) == Success(if Truthy(raw) then ToStr(raw) else "[]")
  {
    assert ToStr(List([])) == "[]";
    assert FieldValue(product, OrEmptyDict(Lookup(product.members, "primary_image", Null)), "variants", brands, domain)
           == Success(Str(ToStr(OrEmptyList(raw))));
  }

  /**
   * A field without its own rule shows the product's value for it: a list is
   * joined with ", ", a dict is stringified, `None` is empty.
   */
  lemma PlainFieldCell(product: Value, field: string, value: Value, brands: map<Value, Value>, domain: string)
    requires field !in SpecialFields
    requires product.Obj? && Lookup(product.members, field, Str("")) == value
    ensures value.List? ==> Cell(product, field, brands, domain) == Success(Join(", ", ToStrs(value.items)))
    ensures value.Obj? ==> Cell(product, field, brands, domain) == Success(ToStr(value))
    ensures value.Str? ==> Cell(product, field, brands, domain) == Success(value.s)
    ensures value.Null? ==> Cell(product, field, brands, domain) == Success("")
  {
    assert FieldValue(product, OrEmptyDict(Lookup(product.members, "primary_image", Null)), field, brands, domain)
           == Success(value);
  }

  /**
   * A product with a named custom field and one without a name shows
   * `name: value; note`.
   */
  lemma CustomFieldsTwoEntries(product: Value, name: string, value: string, note: string,
                               brands: map<Value, Value>, domain: string)
    requires product.Obj?
    requires Lookup(product.members, "custom_fields", Null) ==
             List([Obj([("name", Str(name)), ("value", Str(value))]), Obj([("value", Str(note))])])
    requires name != ""
    ensures Cell(product, "custom_fields", brands, domain) == Success(name + ": " + value + "; " + note)
  {
    var named := Obj([("name", Str(name)), ("value", Str(value))]);
    var bare := Obj([("value", Str(note))]);
    assert Lookup(named.members, "value", Str("")) == Str(value);
    assert Lookup(bare.members, "name", Str("")) == Str("");
    CustomFieldsCell(product, [named, bare], [name, ""], [value, note], [name + ": " + value, note], brands, domain);
    assert Join("; ", [name + ": " + value, note]) == name + ": " + value + "; " + note;
  }
}
