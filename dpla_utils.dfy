/** `dpla_fetch`: fetch `count` records from the items or collections search
    endpoint, one request per planned page, and join the pages' records.
    The HTTP call is the function parameter `respond`, which either answers
    with a page response or fails. */
module DplaUtils {

  import opened Wrappers
  import opened Pagination
  import opened Payloads
  import opened Responses

  const CollectionsUrl: string := "http://api.dp.la/v2/collections"
  const ItemsUrl: string := "http://api.dp.la/v2/items"

  /** The one failure `send_request` reports, whatever the cause. */
  datatype Error = RequestFailed

  /** One request as sent: the endpoint and the query parameters. */
  datatype Request = Request(url: string, payload: Payload)

  /** The transport: a GET of `url` with `payload` as the query string. */
  type Transport<D> = (string, Payload) -> Result<Response<D>, Error>

  /** The endpoint for a resource kind: collections only for exactly
      "collections", items for every other kind. */
  function Endpoint(searchType: string): (url: string)
    ensures url == CollectionsUrl || url == ItemsUrl
    ensures url == CollectionsUrl <==> searchType == "collections"
  {
    if searchType == "collections" then CollectionsUrl else ItemsUrl
  }

  /** One request per page of `plan`, in order, all to `url`, each with
      `base` repaged for its page. */
  function PagedRequests(url: string, base: Payload, plan: seq<Page>): seq<Request>
  {
    seq(|plan|, i requires 0 <= i < |plan| => Request(url, Repage(base, plan[i])))
  }

  /** The requests the page plan calls for, in order. */
  function PlannedRequests(apiKey: string, count: nat, searchType: string, kwargs: Payload): seq<Request>
  {
    PagedRequests(Endpoint(searchType), BasePayload(apiKey, kwargs), PagePlan(count))
  }

  /** Every one of `requests` gets an answer. */
  predicate Answered<D>(respond: Transport<D>, requests: seq<Request>)
  {
    forall i :: 0 <= i < |requests| ==> respond(requests[i].url, requests[i].payload).Success?
  }

  /** The answers to requests that all get one, in request order. */
  function Answers<D>(respond: Transport<D>, requests: seq<Request>): seq<Response<D>>
    requires Answered(respond, requests)
  {
    seq(|requests|, i requires 0 <= i < |requests| => respond(requests[i].url, requests[i].payload).value)
  }

  /** What `dpla_fetch` returns: the joined records when every planned
      request is answered, and the failure, with no records, otherwise. */
  function FetchOutcome<D>(respond: Transport<D>, apiKey: string, count: nat, searchType: string, kwargs: Payload)
    : Result<seq<D>, Error>
  {
    var requests := PlannedRequests(apiKey, count, searchType, kwargs);
    if Answered(respond, requests) then Success(Flatten(Answers(respond, requests))) else Failure(RequestFailed)
  }

  /** `sent` is the planned requests up to and including the first one that
      fails: the fetch stops there. */
  predicate StoppedAtFailure<D>(respond: Transport<D>, sent: seq<Request>, planned: seq<Request>)
  {
    && 0 < |sent| <= |planned|
    && sent == planned[..|sent|]
    && Answered(respond, sent[..|sent| - 1])
    && respond(sent[|sent| - 1].url, sent[|sent| - 1].payload).Failure?
  }

  /** The sum of the `page_size` values of `requests`. */
  function SizesRequested(requests: seq<Request>): int
  {
    if requests == [] then 0
    else
      var size := if PageSizeField in requests[0].payload && requests[0].payload[PageSizeField].Int?
                  then requests[0].payload[PageSizeField].number else 0;
      size + SizesRequested(requests[1..])
  }

  /** Request `j` of the plan, written out: a full page for `j` below
      `count div 500`, the remainder page at `count div 500`. */
  lemma PlannedPageAt(url: string, base: Payload, count: nat, j: nat)
    requires j < RequestCount(count)
    ensures |PagedRequests(url, base, PagePlan(count))| == RequestCount(count)
    ensures PagedRequests(url, base, PagePlan(count))[j] ==
      Request(url, Repage(base,
        if j < FullPages(count) then Page(j + 1, PageSize) else Page(FullPages(count) + 1, FinalPageSize(count))))
  {
    PlanLength(count);
  }

  /** The payload dict after the requests for pages 1 to `pages` have
      been sent: unchanged if none were, repaged for the last one otherwise. */
  function PayloadAfter(base: Payload, pages: nat): Payload
  {
    if pages == 0 then base else Repage(base, Page(pages, PageSize))
  }

  /** Overwriting `page_size` and then `page` of the reused dict for full
      page `i` yields planned request `i - 1`. */
  lemma FullPageRequest(url: string, base: Payload, count: nat, i: nat)
    requires 1 <= i <= FullPages(count)
    ensures i - 1 < |PagedRequests(url, base, PagePlan(count))|
    ensures PayloadAfter(base, i - 1)[PageSizeField := Int(500)][PageField := Int(i)] == PayloadAfter(base, i)
    ensures PagedRequests(url, base, PagePlan(count))[i - 1] == Request(url, PayloadAfter(base, i))
  {
    if i > 1 {
      RepageForgetsPreviousPage(base, Page(i - 1, PageSize), Page(i, PageSize));
    }
    PlannedPageAt(url, base, count, i - 1);
  }

  /** Overwriting `page` and then `page_size` of the dict left by the full
      pages yields the last planned request, the remainder page. */
  lemma RemainderRequest(url: string, base: Payload, count: nat)
    requires FinalPageSize(count) != 0
    ensures |PagedRequests(url, base, PagePlan(count))| == FullPages(count) + 1
    ensures PagedRequests(url, base, PagePlan(count))[FullPages(count)] ==
      Request(url, PayloadAfter(base, FullPages(count))[PageField := Int(FullPages(count) + 1)]
                                                       [PageSizeField := Int(FinalPageSize(count))])
  {
    var last := Page(FullPages(count) + 1, FinalPageSize(count));
    RepageInEitherOrder(PayloadAfter(base, FullPages(count)), last);
    if FullPages(count) > 0 {
      RepageForgetsPreviousPage(base, Page(FullPages(count), PageSize), last);
    }
    PlannedPageAt(url, base, count, FullPages(count));
  }

  /** An answered request after an answered prefix extends the prefix and
      its answers by one. */
  lemma AnsweredStep<D>(respond: Transport<D>, planned: seq<Request>, k: nat)
    requires k < |planned| && Answered(respond, planned[..k])
    requires respond(planned[k].url, planned[k].payload).Success?
    ensures planned[..k] + [planned[k]] == planned[..k + 1]
    ensures Answered(respond, planned[..k + 1])
    ensures Answers(respond, planned[..k + 1]) ==
      Answers(respond, planned[..k]) + [respond(planned[k].url, planned[k].payload).value]
  {
    assert planned[..k] + [planned[k]] == planned[..k + 1];
  }

  /** A failing request after an answered prefix ends the fetch with the
      failure, having sent exactly the prefix and the failing request. */
  lemma FailureStopsFetch<D>(respond: Transport<D>, planned: seq<Request>, k: nat)
    requires k < |planned| && Answered(respond, planned[..k])
    requires respond(planned[k].url, planned[k].payload).Failure?
    ensures !Answered(respond, planned)
    ensures StoppedAtFailure(respond, planned[..k] + [planned[k]], planned)
  {
    var sent := planned[..k] + [planned[k]];
    assert sent == planned[..k + 1];
    assert sent[..|sent| - 1] == planned[..k];
  }

  /** Sends the full-page requests for `count` records in order, reusing one
      payload dict, and collects the responses; stops at the first request
      that fails. Also gives back the dict and the last page number sent,
      which the remainder request reuses. */
  method RequestFullPages<D>(respond: Transport<D>, url: string, base: Payload, count: nat)
    returns (outcome: Result<seq<Response<D>>, Error>, trace: seq<Request>, payload: Payload, pageCount: nat)
    ensures var planned := PagedRequests(url, base, PagePlan(count));
      outcome.Success? ==>
        && FullPages(count) <= |planned|
        && trace == planned[..FullPages(count)]
        && Answered(respond, trace) && outcome.value == Answers(respond, trace)
        && payload == PayloadAfter(base, FullPages(count)) && pageCount == FullPages(count)
    ensures var planned := PagedRequests(url, base, PagePlan(count));
      outcome.Failure? ==> StoppedAtFailure(respond, trace, planned) && !Answered(respond, planned)
  {
    var numPages := count / 500;
    payload := base;

    ghost var planned := PagedRequests(url, base, PagePlan(count));
    PlanLength(count);
    var jsonDics: seq<Response<D>> := [];
    pageCount := 0;
    trace := [];
    for i := 1 to numPages + 1
      invariant pageCount == i - 1
      invariant trace == planned[..i - 1]
      invariant Answered(respond, trace)
      invariant jsonDics == Answers(respond, trace)
      invariant payload == PayloadAfter(base, i - 1)
    {
      payload := payload[PageSizeField := Int(500)];
      payload := payload[PageField := Int(i)];
      FullPageRequest(url, base, count, i);
      var response := respond(url, payload);
      if response.Failure? {
        FailureStopsFetch(respond, planned, i - 1);
        return Failure(response.error), trace + [Request(url, payload)], payload, pageCount;
      }
      AnsweredStep(respond, planned, i - 1);
      trace := trace + [Request(url, payload)];
      jsonDics := jsonDics + [response.value];
      pageCount := i;
    }
    outcome := Success(jsonDics);
  }

  /** Sends the page requests for `count` records in order: the full pages,
      then the remainder page when the remainder is not zero; stops at the
      first request that fails. `trace` is the list of requests sent. */
  method RequestPages<D>(respond: Transport<D>, url: string, base: Payload, count: nat)
    returns (outcome: Result<seq<Response<D>>, Error>, trace: seq<Request>)
    ensures var planned := PagedRequests(url, base, PagePlan(count));
      outcome.Success? ==> trace == planned && Answered(respond, planned) && outcome.value == Answers(respond, planned)
    ensures var planned := PagedRequests(url, base, PagePlan(count));
      outcome.Failure? ==> StoppedAtFailure(respond, trace, planned) && !Answered(respond, planned)
  {
    var finalPageSize := count % 500;
    var numPages := count / 500;
    ghost var planned := PagedRequests(url, base, PagePlan(count));

    var payload, pageCount;
    outcome, trace, payload, pageCount := RequestFullPages(respond, url, base, count);
    if outcome.Failure? {
      return;
    }
    var jsonDics := outcome.value;
    if finalPageSize != 0 {
      payload := payload[PageField := Int(pageCount + 1)];
      payload := payload[PageSizeField := Int(finalPageSize)];
      RemainderRequest(url, base, count);
      var response := respond(url, payload);
      if response.Failure? {
        FailureStopsFetch(respond, planned, numPages);
        return Failure(response.error), trace + [Request(url, payload)];
      }
      AnsweredStep(respond, planned, numPages);
      assert planned[..numPages + 1] == planned;
      trace := trace + [Request(url, payload)];
      jsonDics := jsonDics + [response.value];
    } else {
      PlanLength(count);
      assert planned[..numPages] == planned;
    }
    outcome := Success(jsonDics);
  }

  /** Fetches `count` records: builds the payload, picks the endpoint, sends
      the page requests and joins their records; a failed request fails the
      whole fetch. `trace` is the list of requests sent. */
  method DplaFetch<D>(apiKey: string, count: nat, searchType: string, kwargs: Payload, respond: Transport<D>)
    returns (result: Result<seq<D>, Error>, trace: seq<Request>)
    requires KeywordFilters(kwargs)
    ensures result == FetchOutcome(respond, apiKey, count, searchType, kwargs)
    ensures result.Success? ==> trace == PlannedRequests(apiKey, count, searchType, kwargs)
    ensures result.Failure? ==> StoppedAtFailure(respond, trace, PlannedRequests(apiKey, count, searchType, kwargs))
  {
    var payload := BuildPayload(apiKey, kwargs);

    var url := if searchType == "collections" then CollectionsUrl else ItemsUrl;

    var jsonDics;
    jsonDics, trace := RequestPages(respond, url, payload, count);
    if jsonDics.Failure? {
      assert jsonDics.error == RequestFailed by {
        match jsonDics.error { case RequestFailed => }
      }
      return Failure(jsonDics.error), trace;
    }

    var dplaResults := CombineResults(jsonDics.value);
    result := Success(dplaResults);
  }

  /** The fetch plans ceil(count / 500) requests. */
  lemma RequestsIssued(apiKey: string, count: nat, searchType: string, kwargs: Payload)
    ensures |PlannedRequests(apiKey, count, searchType, kwargs)| == RequestCount(count)
    ensures |PlannedRequests(apiKey, count, searchType, kwargs)| == (count + PageSize - 1) / PageSize
  {
    PlanLength(count);
    RequestCountIsCeiling(count);
  }

  /** Asking for no records sends nothing and returns no records. */
  lemma ZeroCountFetchesNothing<D>(respond: Transport<D>, apiKey: string, searchType: string, kwargs: Payload)
    ensures PlannedRequests(apiKey, 0, searchType, kwargs) == []
    ensures FetchOutcome(respond, apiKey, 0, searchType, kwargs) == Success([])
  {
    PlanLength(0);
  }

  /** Request `i` asks for page `i + 1`; the full pages ask for 500 records
      and the remainder request, last, for `count mod 500`. */
  lemma PageNumbersAndSizes(apiKey: string, count: nat, searchType: string, kwargs: Payload)
    ensures var requests := PlannedRequests(apiKey, count, searchType, kwargs);
      && (forall i :: 0 <= i < |requests| ==> requests[i].payload[PageField] == Int(i + 1))
      && (forall i :: 0 <= i < |requests| && i < FullPages(count) ==>
            requests[i].payload[PageSizeField] == Int(PageSize))
      && (FinalPageSize(count) != 0 ==>
            |requests| == FullPages(count) + 1 &&
            requests[FullPages(count)].payload[PageField] == Int(FullPages(count) + 1) &&
            requests[FullPages(count)].payload[PageSizeField] == Int(FinalPageSize(count)))
  {
    PlanPages(count);
  }

  /** A request list whose `page_size` values are, one for one, the sizes
      of a plan asks for as many records as the plan. */
  lemma {:induction false} SizesRequestedMatchPlan(requests: seq<Request>, plan: seq<Page>)
    requires |requests| == |plan|
    requires forall i :: 0 <= i < |requests| ==>
      PageSizeField in requests[i].payload && requests[i].payload[PageSizeField] == Int(plan[i].size)
    ensures SizesRequested(requests) == TotalSize(plan)
  {
    if requests != [] {
      SizesRequestedMatchPlan(requests[1..], plan[1..]);
    }
  }

  /** The `page_size` values of all requests add up to `count`. */
  lemma PageSizesSumToCount(apiKey: string, count: nat, searchType: string, kwargs: Payload)
    ensures SizesRequested(PlannedRequests(apiKey, count, searchType, kwargs)) == count
  {
    SizesRequestedMatchPlan(PlannedRequests(apiKey, count, searchType, kwargs), PagePlan(count));
    PlanCoversCount(count);
  }

  /** Every request goes to the endpoint of the resource kind and carries
      the base payload with only `page` and `page_size` added or replaced:
      the api key and every other filter, verbatim, and no other key. */
  lemma RequestPayloads(apiKey: string, count: nat, searchType: string, kwargs: Payload)
    requires KeywordFilters(kwargs)
    ensures forall r :: r in PlannedRequests(apiKey, count, searchType, kwargs) ==>
      && r.url == Endpoint(searchType)
      && r.payload.Keys == Reserved() + kwargs.Keys
      && (forall k :: k in kwargs && k != PageField && k != PageSizeField ==> r.payload[k] == kwargs[k])
      && r.payload[ApiKeyField] == Str(apiKey)
  {
    var base := BasePayload(apiKey, kwargs);
    BasePayloadContents(apiKey, kwargs);
    forall r | r in PlannedRequests(apiKey, count, searchType, kwargs)
      ensures r.url == Endpoint(searchType)
      ensures r.payload.Keys == Reserved() + kwargs.Keys
      ensures forall k :: k in kwargs && k != PageField && k != PageSizeField ==> r.payload[k] == kwargs[k]
      ensures r.payload[ApiKeyField] == Str(apiKey)
    {
      var i :| 0 <= i < |PlannedRequests(apiKey, count, searchType, kwargs)|
        && PlannedRequests(apiKey, count, searchType, kwargs)[i] == r;
      RepageContents(base, PagePlan(count)[i]);
    }
  }

  /** A successful fetch returns as many records as the answers hold, page
      by page in request order. */
  lemma FetchResultLength<D>(respond: Transport<D>, apiKey: string, count: nat, searchType: string, kwargs: Payload)
    requires FetchOutcome(respond, apiKey, count, searchType, kwargs).Success?
    ensures var requests := PlannedRequests(apiKey, count, searchType, kwargs);
      Answered(respond, requests) &&
      |FetchOutcome(respond, apiKey, count, searchType, kwargs).value| == TotalDocs(Answers(respond, requests))
  {
    FlattenLength(Answers(respond, PlannedRequests(apiKey, count, searchType, kwargs)));
  }

  /** The server honours request `r`: it answers, with no more records
      than the request's `page_size`. */
  predicate HonoursPageSize<D>(respond: Transport<D>, r: Request)
  {
    && respond(r.url, r.payload).Success?
    && PageSizeField in r.payload && r.payload[PageSizeField].Int?
    && |DocsOf(respond(r.url, r.payload).value)| <= r.payload[PageSizeField].number
  }

  /** Answers that each stay within their request's `page_size` hold no
      more records than the requests asked for together. */
  lemma {:induction false} AnswersWithinPageSizes<D>(respond: Transport<D>, requests: seq<Request>)
    requires forall i :: 0 <= i < |requests| ==> HonoursPageSize(respond, requests[i])
    ensures Answered(respond, requests)
    ensures TotalDocs(Answers(respond, requests)) <= SizesRequested(requests)
  {
    if requests != [] {
      AnswersWithinPageSizes(respond, requests[1..]);
      assert Answers(respond, requests)[1..] == Answers(respond, requests[1..]);
    }
  }

  /** When the server honours every `page_size`, the fetch returns at most
      `count` records. The fetcher itself never truncates, so the bound rests
      on the server. */
  lemma FetchAtMostCount<D>(respond: Transport<D>, apiKey: string, count: nat, searchType: string, kwargs: Payload)
    requires forall r :: r in PlannedRequests(apiKey, count, searchType, kwargs) ==> HonoursPageSize(respond, r)
    ensures FetchOutcome(respond, apiKey, count, searchType, kwargs).Success?
    ensures |FetchOutcome(respond, apiKey, count, searchType, kwargs).value| <= count
  {
    var requests := PlannedRequests(apiKey, count, searchType, kwargs);
    assert forall i :: 0 <= i < |requests| ==> HonoursPageSize(respond, requests[i]) by {
      forall i | 0 <= i < |requests| ensures HonoursPageSize(respond, requests[i]) {
        assert requests[i] in requests;
      }
    }
    AnswersWithinPageSizes(respond, requests);
    FlattenLength(Answers(respond, requests));
    PageSizesSumToCount(apiKey, count, searchType, kwargs);
  }

  /** The fetch fails exactly when some planned request fails. */
  lemma FetchFailsIffARequestFails<D>(respond: Transport<D>, apiKey: string, count: nat, searchType: string, kwargs: Payload)
    ensures var requests := PlannedRequests(apiKey, count, searchType, kwargs);
      FetchOutcome(respond, apiKey, count, searchType, kwargs).Failure? <==>
      exists i :: 0 <= i < |requests| && respond(requests[i].url, requests[i].payload).Failure?
  {
  }
}
