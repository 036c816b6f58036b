# tap-bigcommerce in Dafny

A model of the API access layer of tap-bigcommerce, a Singer tap that extracts orders, products, customers and coupons from the BigCommerce REST API. The model also covers the bookmark logic and the client built on that layer. Each property below is proved by Dafny.

The parts, one module each:

- **JsonValues** (`Json.dfy`) holds the decoded JSON values.
  - A dict is an insertion-ordered sequence of fields.
  - `Pending(url)` stands for a dispatched sub-resource fetch, which is a `Future` in the source.
- **Transforms** (`Transforms.dfy`) models the four recursive walks of `bigcommerce.py` as functions:
  - `filter_excluded_paths` and `transform_dates`;
  - `unpack_nested_resources` and `resolve_resources`.
- **RateLimits** (`RateLimits.dfy`) models `_response_hook` and `_update_rate_limit` as a function `Observe` on the session counters. It also holds:
  - the page-size clamp of `resource`;
  - the pause rule of `resource`.
- **Paginator** (`Paginator.dfy`) models the `while True` loop of `resource`.
  - The HTTP exchange is an input: one `Attempt` per pass of the loop.
  - What the loop does is a sequence of `Event`s: page requests, sleeps in milliseconds, and emitted rows.
  - `Step` is one pass of the loop. `Run` is the whole loop, and `ResourceRun` is a complete `resource` call.
- **BigcommerceApi** (`BigcommerceApi.dfy`) models the class `Bigcommerce`.
  - Its fields are `request_count`, `rate_limit` and `results_per_page`.
  - Its methods `ResponseHook`, `MakeUrl`, `ResetSession` and `Resource` are proved to do what the functions above say.
  - `Resource` is a `while` loop with its invariants.
- **Streams** (`Streams.dfy`) models the class `Stream`.
  - It has the "newer than" test and the session and state bookmarks.
  - `sync` is a loop over the records its query returns, proved against the reference functions `Selected` and `Tracked`.
- **StreamMetadata** (`Metadata.dfy`) models `load_field_metadata` as a recursive walk of the schema. It is proved to meet a description of each breadcrumb it writes.
- **TapClient** (`Client.dfy`) models the client:
  - the decorators `parse_date_string_arguments`, a loop that rewrites the arguments, and `validate`;
  - the day windows of `iterdates`;
  - the query of each entity;
  - the per-window `resource` calls of `customers`;
  - the class `BigCommerce` with its `authorized` flag and its `api` wrapper.

Places where the code does something other than what a reader of its documentation would expect. The model follows the code in each case:

- `_response_hook` overwrites the rate-limit record wholesale whenever the reset header is present. It does not merge the new record with the old one.
- `requests_need` is `results_per_page * sub_resources`. With the quota still unknown, the page-size clamp of `orders` divides `None` and raises `TypeError` before any request.
- `error_count` is reset at the start of every page. The `try` wraps the whole emission of the page, so an exception ends that page's emission after one count. The "more than 3 errors" escalation is never reached. The loop then goes on to its short-page test.
- A 429 raised while a page's rows are being emitted re-requests the same page. The rows already yielded from it are yielded again.
- A page whose `data` is not a list is not refused. A dict yields its keys as rows and a string its characters. A number, a boolean or None makes `for row in data` raise `TypeError`: the handler for a failed row sleeps ten seconds, and then `len(data)` raises `TypeError` out of the loop.
- `iterdates` clamps a window to `utcnow` only when less than a whole day has elapsed. Otherwise the part of the last day up to `utcnow` gets no window.
- The decorator `parse_date_string_arguments` runs before `validate`. A bookmark that is already a datetime is therefore refused as a non-string before `validate` can accept it, and `validate`'s datetime check can never fail.

## Model

| member | source | states |
|---|---|---|
| JsonValues.Get | tap_bigcommerce/bigcommerce.py:132-133 | `d[key]` is found iff the key is present, and then it is the value of a field with that key |
| JsonValues.NoPendingIffNoUrls | tap_bigcommerce/bigcommerce.py:146-163 | a value holds no pending handle iff it has no pending url |
| Transforms.FilterItemsPointwise | tap_bigcommerce/bigcommerce.py:87-88 | filtering a list keeps its length and order, and each element is filtered with the list's own path |
| Transforms.FilterFieldsGet | tap_bigcommerce/bigcommerce.py:80-86 | an entry survives iff its full key path is not excluded, and a surviving entry holds its filtered original value |
| Transforms.FilterKeepsKeyIff | tap_bigcommerce/bigcommerce.py:82-85 | a key is in the filtered dict iff it was in the dict and its path is not excluded |
| Transforms.FilterIsClean | tap_bigcommerce/bigcommerce.py:79-92 | the filtered value holds no excluded path at any depth |
| Transforms.FilterCleanIsIdentity | tap_bigcommerce/bigcommerce.py:79-92 | a value that has no excluded path is returned unchanged |
| Transforms.FilterIdempotent | tap_bigcommerce/bigcommerce.py:73-92 | filtering twice with the same paths equals filtering once |
| Transforms.FilterMatchesExactly | tests/unittests/test_api.py:60-86 | matching is exact: excluding `('products','configurable_fields')` drops the nested entry and keeps a top-level `configurable_fields` |
| Transforms.TransformKeepsKind | tap_bigcommerce/bigcommerce.py:100-114 | `transform_dates` keeps the kind of every node, and returns scalars unchanged |
| Transforms.TransformItemsPointwise | tap_bigcommerce/bigcommerce.py:111-112 | a transformed list keeps its length and order |
| Transforms.TransformFieldsPointwise | tap_bigcommerce/bigcommerce.py:101-110 | every key is carried over in place. A value changes only when its key is a date field, it is not None or `""`, and the parser accepts it; otherwise the original value is kept and transformed recursively |
| Transforms.TransformWithoutDateFields | tap_bigcommerce/bigcommerce.py:95-116 | with no date fields the transform is the identity |
| Transforms.TransformIdempotent | tap_bigcommerce/bigcommerce.py:95-116 | when the normaliser maps its own output to itself, transforming twice equals transforming once |
| Transforms.TransformKeepsClean | tap_bigcommerce/bigcommerce.py:404-408 | normalising dates keeps a filtered row free of excluded paths |
| Transforms.TransformKeepsResolved | tap_bigcommerce/bigcommerce.py:404-408 | normalising dates introduces no pending handle |
| Transforms.FilterKeepsResolved | tap_bigcommerce/bigcommerce.py:404-408 | filtering introduces no pending handle |
| Transforms.UnpackWithoutLinksIsFilter | tap_bigcommerce/bigcommerce.py:126-141 | without resource links, unpacking is exactly the path filter |
| Transforms.UnpackFieldsGet | tap_bigcommerce/bigcommerce.py:129-137 | an entry is kept iff its path is not excluded. A kept resource link becomes the pending fetch of its url, and any other kept value is unpacked recursively |
| Transforms.ResolveOkIff | tap_bigcommerce/bigcommerce.py:151-153 | resolution succeeds iff the fetch of every pending handle succeeds |
| Transforms.ResolveErrorIsFetchError | tap_bigcommerce/bigcommerce.py:151-153 | a failed resolution raises the exception of one of the handles' own fetches |
| Transforms.ResolveIsComplete | tap_bigcommerce/bigcommerce.py:146-163 | after a successful resolution no pending handle remains anywhere |
| Transforms.ResolveResolvedIsIdentity | tap_bigcommerce/bigcommerce.py:154-163 | a value without handles resolves to itself |
| Transforms.ResolveIdempotent | tap_bigcommerce/bigcommerce.py:146-163 | resolving a resolved value changes nothing |
| Transforms.UnpackThenResolveIsInline | tap_bigcommerce/bigcommerce.py:119-163 | `resolve_resources(unpack(row))` equals a one-pass walk that replaces every link with its getter's data and drops excluded entries. When unpacking raises, the one-pass walk fails too |
| Transforms.ProcessedRowIsClean | tap_bigcommerce/bigcommerce.py:403-408 | an emitted row is fully resolved and holds no excluded path |
| RateLimits.ParseRateLimitReadsFourHeaders | tap_bigcommerce/bigcommerce.py:289-303 | the record is built iff all four headers are present; it holds exactly their values, and no other header affects it |
| RateLimits.ResponseDataClassifies | tap_bigcommerce/bigcommerce.py:279-287 | 200 gives the body, 204 gives `[]`, 429 raises the rate-limit exception, and any other status raises `HTTPError` |
| RateLimits.ObserveOverwrites | tap_bigcommerce/bigcommerce.py:274-277 | every response adds one to `request_count`. The record is replaced by the headers' record when the reset header is present, and kept otherwise |
| RateLimits.RecordIsNotMonotone | tap_bigcommerce/bigcommerce.py:276-277 | because the record is overwritten, a later response can raise `requests_remaining` |
| RateLimits.SafePageSizeBounds | tap_bigcommerce/bigcommerce.py:355-361 | the page size never grows and is unchanged without sub-resources. With sub-resources it is `min(current, quota // sub - 5)`, so a page's sub-requests fit the quota with the margin to spare |
| RateLimits.SafePageSizeForOrders | tap_bigcommerce/bigcommerce.py:355-361 | a quota of 150 with 3 sub-resources and the default of 50 gives pages of 45 |
| Paginator.EndpointFor | tap_bigcommerce/bigcommerce.py:186-228 | an unknown name gets version 3, its own name as path and no sub-resources; only `orders` has sub-resources |
| Paginator.PrepareClamps | tap_bigcommerce/bigcommerce.py:338-363 | preparation raises iff the endpoint is `orders` and the record is unknown. Otherwise the page size never grows, changes only for `orders`, and `requests_need` is page size times sub-resources |
| Paginator.TimeUrl | tap_bigcommerce/bigcommerce.py:245-270 | the authorisation url of a store is `https://api.bigcommerce.com/stores/<hash>/v2/time` |
| Paginator.JoinedAppend | tap_bigcommerce/bigcommerce.py:310-311 | the joined segments of `a + b` are those of `a`, then those of `b` |
| Paginator.EmitPageIsProcessedPrefix | tap_bigcommerce/bigcommerce.py:402-428 | the emitted rows are the processed prefix of the page. Emission ends early exactly at the first row that raised, and with its exception |
| Paginator.EmitPageAllRowsOk | tap_bigcommerce/bigcommerce.py:402-408 | when no row raises, the whole page is emitted |
| Paginator.RetryAfterEvents | tap_bigcommerce/bigcommerce.py:377-386 | a 429 retries the page iff the window is known, after a sleep of the window plus one second; with the window unknown it raises `TypeError` |
| Paginator.IteratedLength | tap_bigcommerce/bigcommerce.py:402-433 | `for row in data` and `len(data)` agree: a value can be iterated iff it has a length, which is its number of rows, and otherwise both raise `TypeError` |
| Paginator.AfterFetchControl | tap_bigcommerce/bigcommerce.py:398-433 | a v3 body without `.get`, or a link without a url, is fatal. A 429 on a row retries the page iff the window is known. A failed row is followed by the ten-second sleep. Otherwise the test `len(data) < results_per_page` decides, and a `data` without a length raises `TypeError` |
| Paginator.AfterFetchPauses | tap_bigcommerce/bigcommerce.py:388-396 | after a successful page request, the request counter restarts iff fewer than one request would be left for the page's sub-requests; the record itself is kept |
| Paginator.StepEvents | tap_bigcommerce/bigcommerce.py:365-376 | every pass first requests exactly one page, with the loop's page number and page size |
| Paginator.StepOnFailedRequest | tap_bigcommerce/bigcommerce.py:375-386 | a 429 on the page request retries the page iff the window is known; any other failure of the request is fatal |
| Paginator.StepRetrySleeps | tap_bigcommerce/bigcommerce.py:377-418 | a pass retries its page only after sleeping the window plus one second |
| Paginator.WorkLength | tap_bigcommerce/bigcommerce.py:398-400 | unpacking keeps a list page's length, and passes a `data` without a length through unchanged, whose iteration then raises at once |
| Paginator.EmitKeysOrCharacters | tap_bigcommerce/bigcommerce.py:402-408 | a dict `data` emits all its keys and a string `data` all its characters, as string rows, one per unit of `len(data)` |
| Paginator.StepOnFetchedPage | tap_bigcommerce/bigcommerce.py:398-433 | a fetched list page ends the loop iff it is short, whether it was emitted whole or up to a failed row. A v3 body without `.get` is fatal. A number, boolean or None as `data` emits nothing, sleeps ten seconds, and then `len(data)` raises `TypeError` |
| Paginator.StepOnKeysOrCharacters | tap_bigcommerce/bigcommerce.py:398-433 | a dict or string `data` emits its keys or characters as rows, and the break test counts them |
| Paginator.StepPauses | tap_bigcommerce/bigcommerce.py:388-396 | the request counter restarts iff `requests_remaining - requests_need < 1`, and then the second event of the pass is a sleep of `ms_until_reset` |
| Paginator.StepDoneNeedsShortPage | tap_bigcommerce/bigcommerce.py:430-433 | the loop ends normally only on a page that was fetched, parsed and found short |
| Paginator.RunStep | tap_bigcommerce/bigcommerce.py:366-433 | one unfolding of the loop: a retry requests the same page number again, and an advance requests the next one |
| Paginator.RunPagesProgress | tap_bigcommerce/bigcommerce.py:365-386 | the page numbers requested start at the next page (page 1 in `resource`), and each one repeats its predecessor or is the next; there is at most one request per attempt |
| Paginator.RunNeverDoneWithoutPageSize | tap_bigcommerce/bigcommerce.py:432-433 | with a page size of zero or less the loop never ends normally |
| Paginator.StepQueries | tap_bigcommerce/bigcommerce.py:370-376 | a pass sends the caller's parameters, except `page` and `limit`, exactly once |
| Paginator.RunQueries | tap_bigcommerce/bigcommerce.py:366-376 | every page request of the loop carries the caller's parameters |
| Paginator.ResourceQueries | tap_bigcommerce/bigcommerce.py:337-376 | every page request of a `resource` call carries its parameters, and the page size never grows |
| Paginator.RunEmitsCleanRows | tap_bigcommerce/bigcommerce.py:400-408 | every row the loop emits is fully resolved and holds no excluded path |
| Paginator.PlainPagesRun | tap_bigcommerce/bigcommerce.py:365-433 | for version-2 pages of numbers without rate-limit headers, fetched while the record is unknown: full pages followed by a short one give one request per page, for consecutive page numbers, with every row emitted; then the loop ends |
| Paginator.ThreePagesOfCoupons | tap_bigcommerce/bigcommerce.py:365-433 | coupon pages of 50, 50 and 23 rows give requests for pages 1, 2 and 3 and 123 rows, then the loop ends |
| Paginator.RetryThenShortPage | tap_bigcommerce/bigcommerce.py:377-396 | a 429 with a 30 s window and then a short page: the page is requested twice, 31 s apart; the second request waits until the window resets; then the loop ends |
| Paginator.RetryOnCoupons | tap_bigcommerce/bigcommerce.py:377-433 | coupons with a 429 and then a page of three rows: page 1 is requested twice, three rows come out, and the loop ends |
| BigcommerceApi.Bigcommerce.constructor | tap_bigcommerce/bigcommerce.py:237-245 | the credentials are kept; the counters start empty and the page size starts at 50 |
| BigcommerceApi.Bigcommerce.ResponseHook | tap_bigcommerce/bigcommerce.py:274-287 | the hook updates the instance's counters and returns the data exactly as `Observe` says, leaving the page size alone |
| BigcommerceApi.Bigcommerce.MakeUrl | tap_bigcommerce/bigcommerce.py:305-312 | the loop builds the versioned base url, then each segment after a slash, in order |
| BigcommerceApi.Bigcommerce.ResetSession | tap_bigcommerce/bigcommerce.py:249-272 | the counter restarts, and the `time` request goes through the hook |
| BigcommerceApi.Bigcommerce.Configure | tap_bigcommerce/bigcommerce.py:337-363 | the page-size field is clamped as `Prepare` says, and the counters are unchanged |
| BigcommerceApi.Bigcommerce.Loop | tap_bigcommerce/bigcommerce.py:365-433 | the `while` loop produces the events, end and counters of `Run` |
| BigcommerceApi.Bigcommerce.Resource | tap_bigcommerce/bigcommerce.py:337-433 | `resource(name, params)` is the preparation, then the loop, and the page size only ever shrinks |
| Streams.StrGreaterTransitive | tap_bigcommerce/streams.py:46 | Python's string `>` is transitive (and irreflexive, asymmetric and total on distinct strings, by the lemmas beside it) |
| Streams.DatesCompareAsInstants | tap_bigcommerce/streams.py:42-44 | for a date key the comparison is that of the parsed instants, whatever the texts' formats |
| Streams.UnparseableDateRaises | tap_bigcommerce/streams.py:42-44 | a date key whose value or bookmark does not parse raises |
| Streams.NewerIrreflexive | tap_bigcommerce/streams.py:36-46 | nothing is newer than itself, and a missing value is never newer |
| Streams.NewerAsymmetric | tap_bigcommerce/streams.py:36-46 | when a value is newer than a bookmark, the reverse comparison is False and does not raise |
| Streams.NewerTransitive | tap_bigcommerce/streams.py:36-46 | newer than something newer is newer |
| Streams.WriteThenGet | tap_bigcommerce/streams.py:55-65 | a written bookmark reads back, and no other bookmark changes |
| Streams.NextSessionIsMax | tap_bigcommerce/streams.py:48-53 | the session bookmark becomes the value or stays, is initialised by the first value, and never becomes older |
| Streams.NextBookmarksAdvances | tap_bigcommerce/streams.py:55-65 | the stored bookmark never moves backwards, moves only to the session bookmark, and the other streams' and keys' bookmarks are untouched |
| Streams.SelectedExactly | tap_bigcommerce/streams.py:137-144 | an incremental sync yields exactly the records whose replication value is strictly newer than the start bookmark |
| Streams.SelectedAppend | tap_bigcommerce/streams.py:137-153 | the selection over consecutive batches of records is the concatenation of their selections |
| Streams.TrackedAdvances | tap_bigcommerce/streams.py:137-153 | over a whole sync the stored bookmark stays or moves to something strictly newer, and no other bookmark changes |
| Streams.Stream.UpdateSessionBookmarkIfOld | tap_bigcommerce/streams.py:48-53 | the session bookmark and the exception are those of `NextSession` |
| Streams.Stream.UpdateBookmarkIfOld | tap_bigcommerce/streams.py:55-65 | the state and the exception are those of `NextBookmarks` |
| Streams.Stream.SyncRecord | tap_bigcommerce/streams.py:138-153 | a record is yielded iff it is selected, and only then are the bookmarks moved; an exception is swallowed |
| Streams.Stream.SyncRecords | tap_bigcommerce/streams.py:137-153 | the loop yields `Selected` of the records, in order, and leaves the bookmarks `Tracked` describes |
| Streams.Stream.Sync | tap_bigcommerce/streams.py:128-166 | INCREMENTAL reads the start bookmark from the state, then yields and tracks as above. FULL_TABLE yields every record and changes nothing. Any other method raises and changes no bookmark |
| StreamMetadata.LoadFieldMetadataDescribed | tap_bigcommerce/streams.py:70-96 | the walk succeeds iff every object it reaches has `properties`. It then writes exactly the breadcrumbs of the fields below `parent`, each with its inclusion, and leaves every other entry as it was |
| StreamMetadata.LoadPropertiesDescribed | tap_bigcommerce/streams.py:72-90 | the same, for the properties of an object from the `i`-th on |
| StreamMetadata.BelowPropsStep | tap_bigcommerce/streams.py:80-90 | breadcrumbs extend by `('properties', name)` for objects |
| StreamMetadata.BelowItems | tap_bigcommerce/streams.py:92-94 | breadcrumbs extend by `('items',)` for arrays |
| StreamMetadata.TopLevelInclusion | tap_bigcommerce/streams.py:73-78 | a field is `automatic` iff it is top-level and is a key property or the replication key; every other field is `available` |
| TapClient.ParseDateStringArguments | tap_bigcommerce/client.py:42-51 | the loop that rewrites the arguments in place computes `ParseArgs` |
| TapClient.ParseArgsOkIff | tap_bigcommerce/client.py:43-49 | the decorator succeeds iff every designated argument is a string that parses |
| TapClient.ParseArgsConverts | tap_bigcommerce/client.py:43-51 | a successful decorator passes every argument on in order, converting exactly the designated ones |
| TapClient.ParseArgsFirstError | tap_bigcommerce/client.py:45-50 | a failing decorator raises the exception of the first designated argument that is not a parsable string |
| TapClient.LookupParsed | tap_bigcommerce/client.py:43-51 | after the decorator, an argument is present iff it was before, and its value is the converted original value |
| TapClient.ValidateAdmits | tap_bigcommerce/client.py:13-29 | `validate` passes the arguments on unchanged iff a given replication key is `date_modified` or `id` and a given bookmark is a datetime. The replication key is checked first |
| TapClient.BookmarkOfAccepts | tap_bigcommerce/client.py:13-94 | the decorated methods run iff the arguments are exactly a valid replication key and a bookmark string that parses, and they then work from the parsed bookmark |
| TapClient.DatetimeBookmarkRefused | tap_bigcommerce/client.py:42-54 | a bookmark that is already a datetime is refused by the outer decorator as a non-string |
| TapClient.ParsedBookmarkIsDatetime | tap_bigcommerce/client.py:17-54 | after the outer decorator, `validate`'s bookmark check cannot fail |
| TapClient.WindowsContiguous | tap_bigcommerce/client.py:86-90 | consecutive windows meet, and each window but the last is a whole day |
| TapClient.WindowsIncreasing | tap_bigcommerce/client.py:88 | window starts strictly increase |
| TapClient.WindowsLeaveRemainder | tap_bigcommerce/client.py:87-90 | with at least a day elapsed the windows cover the whole days from the start, and the part of the last day before `utcnow` is left out |
| TapClient.OneWindowForLessThanADay | tap_bigcommerce/client.py:87-90 | with less than a day elapsed there is one window, from the start to `utcnow` |
| TapClient.ThreeAndAHalfDays | tap_bigcommerce/client.py:86-90 | three and a half days give three whole-day windows |
| TapClient.QueriesKeepTheirKeys | tap_bigcommerce/client.py:94-131 | no entity query sets `page` or `limit`, so each page request carries its query unchanged |
| TapClient.OrdersAndProductsFromBookmark | tap_bigcommerce/client.py:94-111 | every page request of `orders` and `products` asks for changes since the bookmark, in ascending order of change |
| TapClient.CustomersRunStops | tap_bigcommerce/client.py:121-126 | once a window's call has not ended normally, later windows change nothing |
| TapClient.CustomersInWindowOrder | tap_bigcommerce/client.py:121-125 | `customers` queries the windows in order, each page request bounded by its own window's `min_date_modified` and `max_date_modified` |
| TapClient.CustomersEmitWindowByWindow | tap_bigcommerce/client.py:121-126 | the rows `customers` yields are those of the earlier windows, then those of the last window's call |
| TapClient.DecoratedBookmark | tap_bigcommerce/client.py:92-94 | running the decorator stack gives `BookmarkOf` |
| TapClient.AuthorizationOutcome | tap_bigcommerce/bigcommerce.py:249-287 | authorisation succeeds iff the `time` request comes back 200 or 204 and, when it carries the reset header, all four headers. It counts one request and keeps the record those headers give |
| TapClient.OrdersNeedTheQuota | tap_bigcommerce/bigcommerce.py:355-361 | when authorisation carried no rate-limit headers, `orders` raises `TypeError` before any request |
| TapClient.QueryWindows | tap_bigcommerce/client.py:121-126 | the loop over the windows produces what `CustomersRun` says |
| TapClient.BigCommerce.constructor | tap_bigcommerce/client.py:59-71 | the credentials are kept, `authorized` is False and there is no wrapper yet |
| TapClient.BigCommerce.ResetSession | tap_bigcommerce/client.py:74-84 | `authorized` is True iff the new wrapper's authorisation succeeded, and the wrapper then replaces the old one. On failure the flag is cleared, the old wrapper stays, and the exception is raised again |
| TapClient.BigCommerce.IterDates | tap_bigcommerce/client.py:86-90 | a naive start raises `TypeError` at `utcnow - start_date`; an aware one gives the loop's windows, `Windows(start, utcnow)` |
| TapClient.BigCommerce.Orders | tap_bigcommerce/client.py:92-100 | a refused argument raises before any request. Otherwise the wrapper's `resource('orders', ...)` call runs from the parsed bookmark, or `AttributeError` is raised without a wrapper |
| TapClient.BigCommerce.Products | tap_bigcommerce/client.py:102-111 | the same, for `products` and its query |
| TapClient.BigCommerce.Customers | tap_bigcommerce/client.py:113-126 | the same, with one `customers` call per day window from the bookmark; a naive bookmark raises `TypeError` in `iterdates` before any request, while `orders` and `products` accept it |
| TapClient.BigCommerce.Coupons | tap_bigcommerce/client.py:128-131 | a single `resource('coupons')` call with no parameters |

## Left out

- HTTP transport, `FuturesSession` and the worker threads behind the sub-resource fetches. The response to each request is an input (`Attempt`), and a future is a `Pending(url)` node resolved through that input.
- `time.sleep` and logging. Sleeps are recorded as events, in milliseconds.
- Date parsing and formatting (`strptime_to_utc`, `strftime`, `dateutil.parser.parse`, `isoformat`, `str()` of a datetime). These are parameters: a partial parser and total formatters. `singer.utils.now()` is the constant `utcnow` given to the constructor.
- Floating point. Numbers in bodies are integers, and the divisions by 1000 of the sleeps are exact millisecond values.
- Streams.IsBookmarkOld: only number-with-number and string-with-string comparisons are modelled. Any other pair of Python values (booleans, lists, mixed types) is treated as raising `TypeError`.
- Streams.Stream.Sync: the records of the query are given as a sequence. An exception raised by the client's generator itself is not modelled, and nor is the generator's laziness: the records are not interleaved with the bookmark updates of the consumer.
- Paginator.SubGet: the response hook of a sub-resource request runs in a worker thread of `FuturesSession` when that response arrives. Only its classification of the response is modelled, not its effect on the counters. The counters of `Run` therefore count page requests only, and the rate-limit record is the one the page response left. The source also counts each sub-request, and the last sub-response carrying the reset header replaces the record, in an order the code does not determine. For example, a sub-response with a 60000 ms window makes the source sleep 61 s after a 429 on a row, where the model uses the page's window.
- Paginator.AfterFetchControl: a 429 on a row retries after the window of the record the page response left, not one set by a sub-response (see Paginator.SubGet).
- BigcommerceApi.Bigcommerce.Loop: its counters are those of `Run`, which leave out the hook effects of sub-requests (see Paginator.SubGet).
- BigcommerceApi.Bigcommerce.Resource: the same as Bigcommerce.Loop.
- TapClient.BigCommerce.Orders: the wrapper's counters after the call leave out the sub-requests of the order pages (see Paginator.SubGet). The same holds for any row of `products`, `customers` or `coupons` that carries a resource link.
- RateLimits.ParseRateLimitReadsFourHeaders: header values are decoded numbers (`nat`). The `int()` of a header value is not modelled: its `ValueError` on a non-numeric value, which the hook raises before it looks at the status and so ahead of a 429, and negative values. Header names are exact map keys, while requests looks them up case-insensitively, so an all-lowercase `x-rate-limit-time-reset-ms` would be found by the source and missed by the model.
- TapClient.BigCommerce.IterDates: time zone offsets are not modelled. An aware datetime is its moment, and `isoformat` of a window bound is a function of that moment, so a bound's printed offset is not modelled.
- TapClient.BindArgs: only calls by keyword are modelled, as `Stream.sync` makes them (tap_bigcommerce/streams.py:133-136). A positional call such as `orders('id', '2020-01-01')` skips both decorators, which look only at keyword arguments, and fails at `bookmark.isoformat()` on a string.
- Paginator.Run: the loop ends when the given attempts run out (`Exhausted`). It cannot model a server that never returns a short page.
- TapClient.BigCommerce.Customers: the store's answers are a function from a window to that window's attempts.
- `get_bookmark`, `load_schema`, `load_metadata` and `is_selected` of `Stream` are outside the model, apart from the bookmark read that `sync` does.
- `tap_bigcommerce/__init__.py`, `sync.py`, `discover.py` and `utilities.py` (the CLI, catalog and Singer I/O) are not part of this model.
