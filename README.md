# dpla_fetch: paginated fetching from the DPLA search API

This project models `dpla_fetch` from `dpla_utils.py` and proves properties of
the model. `dpla_fetch` pulls `count` records from the items or collections
search endpoint of the Digital Public Library of America (dp.la), 500 records
per page, and joins the pages' `docs` arrays into one list.

The model has four parts, one module each, and a small `Wrappers` module
holding `Option` and `Result`:

- `Pagination`: the page plan. There are `count div 500` full pages of 500,
  then one page of `count mod 500` when that remainder is not zero. Python 2's
  `/` on non-negative ints is floor division, which is Dafny's `/` on `nat`.
- `Payloads`: the query parameters. The api key goes in first, then every
  caller filter is copied in (`BuildPayload`, a loop over the filter keys). Before
  each request the same dict gets `page` and `page_size` overwritten (`Repage`).
- `Responses`: a page response with an optional `docs` field, and the joining
  of the pages' records (`CombineResults`, the nested append loop).
- `DplaUtils`: the two endpoint constants, the endpoint choice, and the
  sending loop, which reuses one payload dict and stops at the first failure
  (`RequestFullPages`, `RequestPages`). It also holds `DplaFetch` itself.

The HTTP call `send_request` is the function parameter `respond: (url,
payload) -> Result<Response, Error>`. A failure stands for the exception that
`send_request` raises, which `dpla_fetch` does not catch. Records are opaque:
they are a type parameter `D`. Besides its result, `DplaFetch` returns the
list of requests it sent (`trace`). Every method is proved against a pure
specification: `BasePayload` for `BuildPayload`, `Flatten` for
`CombineResults`, and for the request loops and `DplaFetch` the functions
`PlannedRequests` (the requests the plan calls for), `FetchOutcome` (the
result) and `StoppedAtFailure` (what was sent before a failure). The lemmas state the properties of those functions.

## Model

| member | source | states |
|---|---|---|
| `Pagination.RequestCountIsCeiling` | dpla_utils.py:86-88 | the number of requests, `count div 500` plus one for a non-zero remainder, is ceil(count / 500): the least k with 500·k ≥ count, equal to (count + 499) div 500 |
| `Pagination.PlanLength` | dpla_utils.py:103-113 | the plan has one page per request, and is empty exactly when count is 0 |
| `Pagination.PlanPages` | dpla_utils.py:102-111 | pages are numbered 1..k in order; full pages have size 500; a remainder page is last, numbered `count div 500 + 1`, with size `count mod 500`; every size is between 1 and 500 |
| `Pagination.PlanCoversCount` | dpla_utils.py:86-111 | the sizes of all planned pages add up to exactly `count` |
| `Pagination.PlanFor1200` | dpla_utils.py:73-74 | 1200 records: pages 1 and 2 of 500, then page 3 of 200 |
| `Pagination.PlanFor500` | dpla_utils.py:86-113 | 500 records: a single page of 500 and no remainder page |
| `Payloads.BuildPayload` | dpla_utils.py:91-94 | copying the filters key by key into a dict that holds only the api key yields the map union of the api key and all filters |
| `Payloads.BasePayloadContents` | dpla_utils.py:91-94 | for filters Python can pass (none named `api_key`, `count` or `search_type`), the base payload has exactly the keys `api_key` and the filter keys, every filter value verbatim, and the api key's value |
| `Payloads.RepageContents` | dpla_utils.py:104-111 | setting the pagination fields adds only `page` and `page_size`, with the page's values, and changes no other key |
| `Payloads.RepageForgetsPreviousPage` | dpla_utils.py:103-105 | reusing the dict across requests leaves nothing from the earlier page behind |
| `Payloads.RepageInEitherOrder` | dpla_utils.py:110-111 | writing `page` before `page_size` (remainder request) gives the same payload as the other order (full pages) |
| `Responses.CombineResults` | dpla_utils.py:115-119 | the nested append loop returns the pages' `docs` joined in page order, a missing `docs` read as empty |
| `Responses.FlattenLength` | dpla_utils.py:115-119 | the result has as many records as all pages together |
| `Responses.FlattenAt` | dpla_utils.py:115-119 | record j of page i is at position (records of pages before i) + j: page order and order within a page are both kept |
| `Responses.FlattenMembers` | dpla_utils.py:115-119 | a record is in the result if and only if it is in some page's `docs` |
| `Responses.MissingDocsAddNothing` | dpla_utils.py:117 | a response without `docs` adds no records and raises nothing: removing it leaves the result unchanged |
| `DplaUtils.Endpoint` | dpla_utils.py:97-100 | the endpoint is the collections URL exactly when the search type is "collections", and the items URL otherwise |
| `DplaUtils.PlannedPageAt` | dpla_utils.py:102-111 | planned request j carries the base payload repaged for full page j + 1, or for the remainder page when j is `count div 500` |
| `DplaUtils.FullPageRequest` | dpla_utils.py:103-105 | overwriting `page_size` then `page` of the reused dict for page i gives exactly planned request i - 1 |
| `DplaUtils.RemainderRequest` | dpla_utils.py:109-111 | overwriting `page` with `page_count + 1`, then `page_size` with the remainder, of the dict left by the full pages gives exactly the last planned request |
| `DplaUtils.FailureStopsFetch` | dpla_utils.py:103-113 | a request that fails after answered ones makes the whole fetch fail, with exactly the requests up to the failing one sent |
| `DplaUtils.RequestFullPages` | dpla_utils.py:101-108 | the full-page loop sends the first `count div 500` planned requests in order and collects their answers, or stops at the first failure; it leaves the dict repaged for the last page and `page_count` at `count div 500` |
| `DplaUtils.RequestPages` | dpla_utils.py:101-113 | all planned requests are sent in order and answered, or sending stops right after the first failing one and the fetch fails |
| `DplaUtils.DplaFetch` | dpla_utils.py:49-121 | for filters Python can pass, the result is the joined records of the answers to exactly the planned requests, sent in order; or, if one request fails, the failure with no records, having sent the planned requests up to and including that one |
| `DplaUtils.RequestsIssued` | dpla_utils.py:86-113 | the fetch plans ceil(count / 500) requests |
| `DplaUtils.ZeroCountFetchesNothing` | dpla_utils.py:86-121 | count 0 sends no request and returns the empty list |
| `DplaUtils.PageNumbersAndSizes` | dpla_utils.py:102-111 | request i asks for page i + 1; the full-page requests ask for 500 records; the remainder request is last, with page `count div 500 + 1` and page size `count mod 500` |
| `DplaUtils.PageSizesSumToCount` | dpla_utils.py:86-111 | the `page_size` values of all requests add up to `count` |
| `DplaUtils.RequestPayloads` | dpla_utils.py:91-111 | for filters Python can pass, every request goes to the endpoint of the search type; its keys are `api_key`, `page`, `page_size` and the filter keys, and no others; every filter other than `page`/`page_size` is sent verbatim; the api key is always sent with the caller's value |
| `DplaUtils.FetchResultLength` | dpla_utils.py:115-121 | a successful fetch returns as many records as the answers' `docs` hold together |
| `DplaUtils.FetchAtMostCount` | dpla_utils.py:49-121 | if the server answers every planned request with at most its `page_size` records, the fetch succeeds and returns at most `count` records; the source never truncates, so the bound rests on the server |
| `DplaUtils.FetchFailsIffARequestFails` | dpla_utils.py:103-113 | the fetch fails if and only if some planned request fails |

## Left out

- `send_request` (dpla_utils.py:21-46) is not modelled beyond the `respond` parameter. The HTTP GET, JSON decoding and the `requests` library are external. A `Failure` stands for any exception that comes out of `send_request`: the one raised at line 46, or one that line 45 does not catch, such as a JSON decoding error from `response.json()` at line 44 in older `requests` releases. The model does not tell these apart; all are `RequestFailed`.
- A reply whose `docs` is not a list is outside `Response`, and the model has none of these cases. In the source, all of them arise only after every request has been sent:
  - a reply that is not a JSON object raises AttributeError at line 117;
  - a `docs` that is `null`, a number or a boolean raises TypeError at line 118;
  - a `docs` that is a string or an object raises nothing: line 118 iterates over its characters or its keys, and line 119 appends each one as a record.
- Filters named `api_key`, `count` or `search_type` cannot reach the body of `dpla_fetch`: Python binds them to the named parameters of line 49 or raises before line 91. `DplaFetch`, `Payloads.BasePayloadContents` and `DplaUtils.RequestPayloads` require `KeywordFilters(kwargs)`, which says exactly this. `BasePayload`, `BuildPayload` and `PlannedRequests` still accept any map, including ones the source never receives.
- `connect_to_mongodb` (dpla_utils.py:124-131) is a database driver call plus printing, with no logic to verify.
- The response fields other than `docs` are not modelled, because the fetcher does not read them. Records are an opaque type parameter.
- A negative `count` is excluded by the type `nat`. With Python's `%` and `/` it would give odd plans, such as a single request of size 499 for -1.
- Python 3 true division at line 88 is not modelled. The module runs under Python 2, where `/` on ints floors.
- The default `search_type='items'` is not a default parameter here. Any value other than "collections" selects the items endpoint, so the default behaves like "items" (`DplaUtils.Endpoint`).
- Query values are strings or integers (`Value`). The filters are passed through unchanged, so other Python value types would behave the same way.
- The local `page_size = 500` at line 86 is never read. The loop writes the literal 500, and so does the model.
- The order of iteration over `kwargs` is left open. The copy loop picks an arbitrary remaining key. The keys are distinct, so the order cannot change the result.
- The source is one function. In the model its request loop is split into `RequestFullPages` (the full-page loop) and `RequestPages` (the remainder request), and `DplaFetch` calls both. The statements and their order are the source's.
