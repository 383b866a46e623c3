# BigCommerce product exporter — verified model of the export pipeline

This project models, in Dafny, the export pipeline of a small web tool that
exports a BigCommerce store's product catalog as CSV (`app.py`). The pipeline
has five parts:

- **Configuration** (`Config`). The store hash, client id and access token are
  environment defaults. Non-empty per-request overrides replace them key by
  key. The fetchers refuse to start when a merged value is empty. The export
  and download routes choose between form credentials and the session's saved
  credentials.
- **Paginated fetches** (`Catalog`). `fetch_products` reads product pages until
  a page is empty or short, or `max_items` records are collected, then cuts the
  result to `max_items`. `fetch_brand_map` reads brand pages of 250 and builds
  an id → name map in which the last record for an id wins. Any non-200 page
  fails the whole fetch. The HTTP client is replaced by a page supplier:
  `pages[n - 1]` is the response to page `n`, and every page past the end is
  empty. The brand loop (`while True`) has no page cap of its own. It ends in
  the model because the supplier is finite and its pages past the end are
  empty. A listing that kept returning 250 valid brands would loop forever,
  and the model cannot express that. Each fetch also returns the requests it issued: endpoint, auth
  headers, `limit`, `page` and `include`.
- **Filter** (`ProductFilter`). `filter_products` drops unavailable or hidden
  products and keeps the order of the rest.
- **Rows** (`Rows`). `build_csv_rows` produces the header of friendly labels
  (`FIELD_OPTIONS`), then one row per product, with one cell per requested
  field from the per-field extraction rules, including `apply_domain` for
  `custom_url`. Rows are produced as `seq<seq<string>>`, not CSV bytes.
- **Joining the halves** (`Export`): the brand map that was fetched is what the
  `brand_name` column shows.

Products are decoded JSON values (`Json.Value`: null, bool, int, string, list,
and dict as an ordered member list). A record of the wrong shape makes the
Python code raise. The model states those cases as
`Failure(AttributeError)` or `Failure(TypeError)` instead of excluding them by
a precondition:

- `.get` on a non-dict raises AttributeError;
- joining non-strings, iterating a non-iterable, or using an unhashable brand
  id raises TypeError.

The Python operations the pipeline relies on are written out in `Json`:

- truthiness and `x or {}`;
- `dict.get`;
- iteration over a list, a string or a dict;
- dict-key hashing, where `True` is `1` and `False` is `0`;
- `str()` and `repr()`;
- ASCII `lower()`;
- `str.join`.

The configuration, pagination, filter and row-building loops of the source
are `method`s with loop invariants. Each is proved equal to a functional
specification:

- `GetConfig` to `Merged`;
- `PaginateProducts` to `ProductRun`, a recursive run of the same loop, and
  its requests to `Pages(ProductTemplate(…), n)`;
- `PaginateBrands` to `BrandRun`, and the inner `for` loop `AddBrands` to
  `WithBrands`;
- `FilterProducts` to `Survivors`;
- `BuildRow` and `BuildCsvRows` to `Row`, `Table` and `CsvRows`.

The per-field extraction rules of `build_csv_rows` are functions: the
generator expressions and the small `for cf in custom_fields` loop become
recursive functions over the list (`GetEach`, `CustomFieldParts`). Cell-level
lemmas state what each column shows for a well-formed product.

The lemmas then prove what the source promises about each specification.
For the fetches, `ProductRunMeaning` and `BrandRunMeaning` tie the loop-shaped
runs to independent descriptions. Those descriptions say which pages get
requested (`ProductPageRequested`, `BrandPageRequested`) and what the outcome
of requesting pages 1 to n is (`ProductOutcome`, `BrandOutcome`). The outcome
is defined from the concatenated records (`DataUpTo`) and from `BrandTable`,
the brand map of a sequence of records.

Four behaviours of the code that a reader might not expect:

- **Credential precedence is all-or-nothing.** If any credential field of the
  form is filled, the session's saved credentials are ignored for every key. A
  key the form leaves blank falls back to the environment default, not to the
  session; there is no per-key chain of form, then session, then
  environment. See `Config.OverridePrecedence`.
- **`variants` of a product without variants shows `[]`**, because the source
  renders `str(variants or [])`. See `Rows.EmptyProductCells`.
- **`brand_name` of a product without a `brand_id`** looks up the key `None`.
  It therefore shows the name of a brand record without an id, if the brand
  listing had one. See `Rows.EmptyProductCells`.
- **`variant_skus` and `variant_prices` skip every falsy variant** (`if
  variant`): an empty dict is skipped too, not just null.

## Model

| member | source | states |
|---|---|---|
| Config.Merged | app.py:94-105 | every required key is present; a non-empty override wins; a key with no non-empty override is a required key holding its default; no other keys; only required keys can be empty |
| Config.GetConfig | app.py:94-105 | the in-place override loop yields exactly `Merged(env, overrides)` |
| Config.EmptyAmong | app.py:116 | lists exactly the keys whose value is empty, as a subsequence in key order |
| Config.MissingKeys | app.py:116-121 | the missing list holds exactly the required keys with an empty value, in configuration order |
| Config.MissingAfterMerge | app.py:94-121 | a key is reported missing iff it is required, its default is empty and it has no non-empty override |
| Config.FormOverride | app.py:396-402 | the override holds exactly the non-empty form credentials |
| Config.ExportOverride | app.py:396-406 | a non-empty form override is used and saved to the session; otherwise the saved credentials are used and the session is unchanged |
| Config.DownloadOverride | app.py:452-460 | the download route picks the same override as the export route, without saving it |
| Config.OverridePrecedence | app.py:396-406 | per required key: with any form credential, the form value, else the default; with none, the saved value, else the default |
| Catalog.IncludeParams | app.py:131-135 | never `categories`; always images, primary_image and custom_fields; variants, options and modifiers iff requested |
| Catalog.SliceTo | app.py:159 | Python `s[:m]` is a prefix of `s` of length `min(m, len s)` for `m >= 0` |
| Catalog.PagesAt | app.py:124-143 | request m of the first n is the listing's request with `page` m: same endpoint, auth headers, `limit` and `include` |
| Catalog.FetchProducts | app.py:108-159 | a missing key fails with exactly the missing keys and issues no request; otherwise the requests are pages 1 to n of the product request, page n is the first page that stops the loop, and the result is the outcome of requesting pages 1 to n |
| Catalog.PaginateProducts | app.py:137-159 | the loop yields the outcome and the last page number of the run `ProductRun`, having requested exactly pages 1 to that page |
| Catalog.ProductRunMeaning | app.py:139-159 | the run requests exactly the pages that `ProductPageRequested` allows: earlier pages full and fewer than `max_items` records so far; its result is the API error of a non-200 last page, else the first `max_items` records of pages 1 to n |
| Catalog.ProductStopsAt | app.py:145-157 | after a requested page that is non-200, empty or short, every earlier page was requested and the next one is not |
| Catalog.ProductFilledAt | app.py:139 | once `max_items` records are collected after page n, pages 1 to n were requested and page n + 1 is not |
| Catalog.ProductRequestedDownward | app.py:139-157 | when page m is requested, every earlier page was requested |
| Catalog.DataUpToPrefix | app.py:154 | the accumulated records only grow by extension |
| Catalog.DataUpToPastEnd | app.py:150-153 | pages past the end of the supplier add no records |
| Catalog.ProductOutcomeBounds | app.py:139-159 | a successful fetch has at most `max(0, max_items)` records and is a prefix of all the supplier's records |
| Catalog.ProductStopReason | app.py:139-157 | pagination stops only after a non-200, empty or short page, or once `max_items` is reached |
| Catalog.NoRequestsWithoutRoom | app.py:139 | a non-positive `max_items` requests nothing and returns an empty list |
| Catalog.FullPagesData | app.py:154-157 | n full pages hold at least n times `page_size` records |
| Catalog.RequestedPagesBound | app.py:139-157 | a requested page n follows n - 1 full pages, so (n - 1) times `page_size` is below `max_items` |
| Catalog.DefaultRequestsAtMostEight | app.py:108-110 | with the defaults `max_items=2000` and `page_size=250`, at most 8 product pages are requested |
| Catalog.BrandTableSucceeds | app.py:210-211 | building the brand map fails iff some brand record is not a dict or has an unhashable id |
| Catalog.BrandTableKeys | app.py:210-211 | the map's keys are exactly the ids of the brand records |
| Catalog.BrandTableLastWins | app.py:210-211 | an id maps to the name of the last record with that id |
| Catalog.BrandTableFailurePersists | app.py:210-211 | after a bad record, later records do not change the failure |
| Catalog.WithBrandsTable | app.py:210-211 | adding a page's records to the map of the records so far gives the map of all records, page included, or the first record's fault |
| Catalog.AddBrands | app.py:210-211 | the per-page loop yields exactly `WithBrands` of the map so far and the page |
| Catalog.BrandKeysConcat | app.py:210-211 | adding records to a well-formed map succeeds iff every added record is a dict with a hashable id |
| Catalog.FetchBrandMap | app.py:180-215 | a missing key fails with the missing keys and no request; otherwise at least one request, the requests are brand pages 1 to n with limit 250, page n is the first page that stops the loop, and the result is the outcome of requesting pages 1 to n |
| Catalog.PaginateBrands | app.py:197-215 | the loop yields the outcome and the last page number of the run `BrandRun`, having requested exactly pages 1 to that page |
| Catalog.BrandRunMeaning | app.py:197-215 | the run's last page n is the first page that is non-200, empty, short (under 250) or holds a bad record; the result is the API error of a non-200 page n, else the brand map of pages 1 to n or the fault of its first bad record |
| Catalog.BrandRequestedNext | app.py:197-215 | after a requested page that continues, the next page is requested |
| Catalog.BrandRunStops | app.py:200-213 | at a page that does not continue, the run ends there with that page's outcome |
| Catalog.BrandRunSteps | app.py:209-214 | at a page that continues, the run goes on to the next page with the map of all records so far |
| ProductFilter.FilterProducts | app.py:162-177 | succeeds iff every entry is a dict or falsy (else AttributeError), and then returns exactly the survivors |
| ProductFilter.SurvivorsAppend | app.py:168-176 | filtering distributes over concatenation |
| ProductFilter.SurvivorsCons | app.py:168-176 | an entry followed by more entries: the entry, if kept, then the survivors of the rest |
| ProductFilter.SurvivorsSnoc | app.py:168-176 | one more entry appends it to the survivors exactly when it is kept, and keeps the all-records invariant when it is a dict or falsy |
| ProductFilter.SurvivorsSubsequence | app.py:162-177 | the output is an order-preserving subsequence of the input with falsy entries replaced by `{}` |
| ProductFilter.SurvivorsMembers | app.py:168-176 | a record is in the output iff it comes from an input entry that is not dropped |
| ProductFilter.SurvivorsAreKept | app.py:168-176 | every output record is a dict that the same filter keeps again |
| ProductFilter.FilterIdempotent | app.py:162-177 | filtering twice with the same flags equals filtering once |
| ProductFilter.IncludeAllKeepsEverything | app.py:172-176 | with both flags set nothing is dropped |
| ProductFilter.FalseAvailabilityIsUnavailable | app.py:170-173 | any product whose `availability` is the boolean `False` reads as "false" and is dropped |
| ProductFilter.ThreeProductScenario | app.py:162-177 | a hidden, a disabled and a normal product leave only the normal one when neither flag is set |
| Rows.Header | app.py:238 | the header has one column per field |
| Rows.HeaderLabels | app.py:238 | column i is `FIELD_OPTIONS[field_i]`, or the field itself when it has no label; duplicates are kept |
| Rows.StripTrailingSlashes | app.py:232 | `rstrip("/")` gives a prefix with no trailing slash, and only slashes were removed |
| Rows.ApplyDomain | app.py:225-234 | the result always ends with the URL |
| Rows.ApplyDomainKeeps | app.py:226-231 | an empty domain, an empty URL or an `http://`/`https://` URL returns the URL unchanged |
| Rows.ApplyDomainJoins | app.py:232-234 | otherwise: the domain without trailing slashes, one `/`, then the URL without its leading slash |
| Rows.ApplyDomainIdempotent | app.py:225-234 | with an absolute domain, prefixing twice equals prefixing once |
| Rows.ApplyDomainPathExample | app.py:225-234 | (`https://shop.io/`, `/p/1`) gives `https://shop.io/p/1` |
| Rows.ApplyDomainBareExample | app.py:225-234 | (`https://shop.io`, `p/1`) gives `https://shop.io/p/1` |
| Rows.ApplyDomainAbsoluteExample | app.py:225-234 | an absolute URL passes through untouched |
| Rows.GetEach | app.py:249-273 | `.get` on each element succeeds iff all are dicts; element k of the result is `xs[k].get(key, default)` |
| Rows.NonNull | app.py:251 | keeps exactly the elements that are not `None` |
| Rows.NonNullSubsequence | app.py:251 | the kept elements stay in input order |
| Rows.NonNullCounts | app.py:251 | each non-`None` value is kept as often as it occurs; `None` never is |
| Rows.TruthyOnly | app.py:266-273 | keeps exactly the truthy elements |
| Rows.TruthyOnlySubsequence | app.py:266-273 | the kept elements stay in input order |
| Rows.TruthyOnlyCounts | app.py:266-273 | each truthy value is kept as often as it occurs; a falsy one never is |
| Rows.CustomFieldParts | app.py:259-264 | the parts succeed iff every entry is a dict (a `None` entry raises AttributeError); part k is `f"{name}: {value}"` when the name is truthy, else the bare value |
| Rows.RowSnoc | app.py:243-291 | one more field appends that field's cell to a row that succeeded so far |
| Rows.RowFailurePersists | app.py:243-291 | a row that failed on some prefix fails with the same exception |
| Rows.BuildRow | app.py:242-291 | the inner loop yields exactly the row specification |
| Rows.TableSnoc | app.py:240-292 | one more product appends its row to a table that succeeded so far |
| Rows.TableFailurePersists | app.py:240-292 | a table that failed on some prefix of the products fails with the same exception |
| Rows.BuildCsvRows | app.py:218-294 | the nested loops yield exactly the header followed by the product rows, or the first exception |
| Rows.RowCells | app.py:242-291 | a row succeeds iff every cell does, and then has one cell per field, in order, each holding that field's text |
| Rows.RowFailure | app.py:242-291 | a failing row raises the exception of its first failing cell |
| Rows.TableShape | app.py:238-292 | a table succeeds iff every row does; it then has the header and one row per product, row i+1 being product i's row |
| Rows.TableFailure | app.py:240-292 | a failing table raises the exception of the first failing cell in row order |
| Rows.CsvRowsCell | app.py:238-292 | in a successful build: one row per product plus the header, each row `len(fields)` long, and cell (i, j) is field j's text for product i |
| Rows.CsvRowsFailure | app.py:240-292 | a failed build raises the exception of the first failing cell in row order |
| Rows.AbsentFieldIsEmpty | app.py:285-286 | a field without its own rule that the product lacks yields "" |
| Rows.EmptyProductCells | app.py:240-291 | a falsy product yields "" in every column, except `variants` ("[]") and `brand_name` (the name of a brand without an id, if any) |
| Rows.EmptyRecordValue | app.py:243-286 | the value each field rule extracts from an empty record |
| Rows.BrandNameCell | app.py:252-254 | for any product whose `brand_id` is an int, `brand_name` is the brand map's name for it, else "" |
| Rows.BrandNameExample | app.py:252-254 | `{"id": 1, "brand_id": 7}` with map `{7: "Acme"}` gives "Acme"; with `{8: "Acme"}` it gives "" |
| Rows.CustomUrlCell | app.py:240-290 | for any product whose `custom_url` is a dict with string `url` and `path`, the cell is `apply_domain` of the url, or of the path when the url is empty |
| Rows.CustomUrlPick | app.py:277-290 | the `custom_url` rule picks the dict's `url`, else its `path`, and passes it through `apply_domain` |
| Rows.CustomUrlExample | app.py:277-290 | a relative custom URL is prefixed with the domain |
| Rows.PrimaryImageCells | app.py:244-248 | `primary_image_url` and `thumbnail_url` show the primary image's `url_standard` and `url_thumbnail` |
| Rows.NoPrimaryImageCells | app.py:244-248 | without a primary image both columns are empty |
| Rows.ImageUrlsCell | app.py:249-251 | `image_urls` shows the `url_standard` of every image that is not `None` (a falsy image gives ""), joined with ", " |
| Rows.CategoryIdsCell | app.py:255-257 | `category_ids` shows `str()` of every category id, joined with ", " |
| Rows.CustomFieldsCell | app.py:258-265 | `custom_fields` shows `name: value` per entry, or the bare value when the name is empty, joined with "; " |
| Rows.CustomFieldPartsOf | app.py:259-265 | for well-formed entries the parts succeed and join to the `name: value` texts |
| Rows.CustomFieldsTwoEntries | app.py:258-265 | an entry with a name and an entry without one show `name: value; note` |
| Rows.VariantSkusCell | app.py:266-268 | `variant_skus` shows the `sku` of every truthy variant, joined with ", " |
| Rows.VariantPricesCell | app.py:269-273 | `variant_prices` shows `str()` of the `price` of every truthy variant, joined with ", " |
| Rows.VariantsCell | app.py:274-276 | `variants` shows `str()` of the variant list, and `[]` when it is missing or empty |
| Rows.PlainFieldCell | app.py:285-290 | a field without its own rule shows the product's value: a list joined with ", ", a dict as `str()`, a string as is, `None` as "" |
| Export.BrandNameFromBrandRecords | app.py:210-211 | any product whose int `brand_id` a fetched brand record carries shows the name of the last such record |
| Export.UnknownBrandIsEmpty | app.py:210-211 | any product whose int `brand_id` no brand record carries shows an empty brand name |

## Left out

- Flask routes, templates, redirects and the parsing of form or query
  arguments are not modelled (`strip()`, the `on`/`1` flags, splitting the
  field list). Only the credential choice of the export and download routes
  is lifted into `Config.ExportOverride` and `Config.DownloadOverride`.
- The end-to-end composition of fetch, filter, brand map and rows is not
  modelled; each step is modelled and proved on its own.
- Firebase initialization, Firestore reads and writes, and ID-token
  verification are foreign SDK calls and are left out.
- `requests.get`, its timeout and JSON decoding are replaced by the page
  supplier; the `data` array is given already decoded.
- The constant `Accept` and `Content-Type` headers are not part of `Request`.
- `os.getenv` is replaced by the `env` parameter of `Config.Merged`.
- Exception messages are not modelled. A `RuntimeError` becomes
  `MissingConfig(keys)` (the keys the message lists) or
  `ApiError(status, body)`.
- Byte-level CSV writing by `csv.writer` is library behaviour and is left
  out. This covers quoting, `\r\n` terminators and the `csv.reader` preview.
  Rows are modelled as strings, with `None` written as "" and any other
  non-string written as its `str()`.
- Floating-point values are not part of `Json.Value`.
- `repr` of a string inside a list or dict is shown as `'…'` without escaping
  and without Python's choice of double quotes.
- `lower()` is modelled on ASCII letters only. That is exact for matching the
  ASCII words of the unavailable set.
- Each Python dict is an ordered member list with distinct keys, as decoded
  JSON objects are; `Json.Lookup` takes the first binding.
- Config.GetConfig: applies the overrides in an arbitrary order rather than
  Python's insertion order. The result is the same because the keys are
  distinct.
- Config.MissingKeys: scans the three required keys rather than every
  configuration item. `Config.Merged` proves that only required keys can be
  empty; since they keep their first-inserted positions, the two lists are
  equal.
- Rows.ApplyDomain: its own contract states only that the result ends with
  the URL. The full behaviour is stated by `Rows.ApplyDomainKeeps` and
  `Rows.ApplyDomainJoins`.
- Rows.Header: its own contract states the length only. The labels are stated
  by `Rows.HeaderLabels`, whose proof keeps the 47-entry label map out of the
  row proofs.
- `fetch_products` is modelled with `max_items` and `page_size` as
  parameters. The defaults the routes rely on (2000 and 250) are the
  constants `Catalog.DefaultMaxItems` and `Catalog.DefaultPageSize`. The
  default `custom_domain=""` of `build_csv_rows` is not a separate constant:
  both routes pass the domain explicitly, and `Rows.ApplyDomainKeeps` covers
  the empty domain.
- Rows.CustomFieldParts: the `for cf in custom_fields` loop that appends to
  `parts` is a recursive function over the entries, like the generator
  expressions of the other field rules. It builds a fresh local list, so no
  state outside the cell is lost.
- Rows.BuildRow takes the per-cell computation as a function value
  (`Rows.Cells`), so the row and table proofs are independent of the field
  rules. `Rows.CsvRowsCell` ties them back to `Rows.Cell`.
