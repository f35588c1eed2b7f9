/** The query parameters of `dpla_fetch`: the api key, the caller's filters
    copied over it, and the two pagination fields overwritten before each
    request. */
module Payloads {

  import opened Pagination

  /** A query-string value: the api key and filters are strings, the
      pagination fields integers. */
  datatype Value = Str(text: string) | Int(number: int)

  type Payload = map<string, Value>

  const ApiKeyField: string := "api_key"
  const PageField: string := "page"
  const PageSizeField: string := "page_size"

  /** The keys the fetcher itself writes. */
  function Reserved(): set<string>
  {
    {ApiKeyField, PageField, PageSizeField}
  }

  /** The named parameters of `dpla_fetch`. Python binds a keyword argument
      with one of these names to the parameter (or raises before the body
      runs), so no filter in `**kwargs` ever has such a name. */
  function ParameterNames(): set<string>
  {
    {ApiKeyField, "count", "search_type"}
  }

  /** `kwargs` is a map Python can pass as `**kwargs` to `dpla_fetch`. */
  predicate KeywordFilters(kwargs: Payload)
  {
    forall k :: k in kwargs ==> k !in ParameterNames()
  }

  /** The payload before pagination: the api key first, then every caller
      filter copied in. For the filters Python can pass the two never share
      a key; on any other map the copied filter would be the value kept. */
  function BasePayload(apiKey: string, kwargs: Payload): Payload
  {
    map[ApiKeyField := Str(apiKey)] + kwargs
  }

  /** The payload with `page_size` and `page` set for one page. */
  function Repage(payload: Payload, page: Page): Payload
  {
    payload[PageSizeField := Int(page.size)][PageField := Int(page.number)]
  }

  /** The base payload holds the api key and every filter, verbatim, and
      nothing else. */
  lemma BasePayloadContents(apiKey: string, kwargs: Payload)
    requires KeywordFilters(kwargs)
    ensures BasePayload(apiKey, kwargs).Keys == {ApiKeyField} + kwargs.Keys
    ensures forall k :: k in kwargs ==> BasePayload(apiKey, kwargs)[k] == kwargs[k]
    ensures BasePayload(apiKey, kwargs)[ApiKeyField] == Str(apiKey)
  {
  }

  /** Repaging adds only the two pagination keys, with the page's values, and
      leaves every other key and value as it was. */
  lemma RepageContents(payload: Payload, page: Page)
    ensures Repage(payload, page).Keys == payload.Keys + {PageField, PageSizeField}
    ensures Repage(payload, page)[PageField] == Int(page.number)
    ensures Repage(payload, page)[PageSizeField] == Int(page.size)
    ensures forall k :: k in payload && k != PageField && k != PageSizeField ==>
      Repage(payload, page)[k] == payload[k]
  {
  }

  /** Reusing one dict across requests leaves nothing behind: repaging an
      already repaged payload is the same as repaging the original. */
  lemma RepageForgetsPreviousPage(payload: Payload, previous: Page, page: Page)
    ensures Repage(Repage(payload, previous), page) == Repage(payload, page)
  {
  }

  /** Setting `page` before `page_size` (as the remainder request does)
      gives the same payload as setting them the other way round. */
  lemma RepageInEitherOrder(payload: Payload, page: Page)
    ensures payload[PageField := Int(page.number)][PageSizeField := Int(page.size)] == Repage(payload, page)
  {
  }

  /** Builds the base payload as the source does: a fresh dict with the api
      key, then each filter copied in, one key at a time. */
  method BuildPayload(apiKey: string, kwargs: Payload) returns (payload: Payload)
    ensures payload == BasePayload(apiKey, kwargs)
  {
    payload := map[ApiKeyField := Str(apiKey)];
    var remaining := kwargs.Keys;
    while remaining != {}
      invariant remaining <= kwargs.Keys
      invariant payload == map[ApiKeyField := Str(apiKey)] + (map k | k in kwargs.Keys - remaining :: kwargs[k])
      decreases remaining
    {
      var key :| key in remaining;
      payload := payload[key := kwargs[key]];
      remaining := remaining - {key};
    }
    assert (map k | k in kwargs.Keys - remaining :: kwargs[k]) == kwargs;
  }
}
