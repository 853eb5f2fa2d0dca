/**
 * The page fetch helpers: the HTTP method names, the convenience calls
 * that delegate to `fetch`, and how `fetch` picks its own response out of
 * the page's event stream by the `x-e2e-fetch-id` request header.
 */
module FetchExt {
  import opened Wrappers
  import opened Decimal
  import opened Failures

  datatype Method = GET | POST | PUT | PATCH | DELETE

  /** `Method::as_str`: the method name as sent on the wire. */
  function AsStr(m: Method): (s: string)
    ensures |s| >= 3
    ensures forall i :: 0 <= i < |s| ==> 'A' <= s[i] <= 'Z'
  {
    match m
    case GET => "GET"
    case POST => "POST"
    case PUT => "PUT"
    case PATCH => "PATCH"
    case DELETE => "DELETE"
  }

  /** Each method goes out under its own name. */
  lemma MethodNames()
    ensures AsStr(GET) == "GET" && AsStr(POST) == "POST" && AsStr(PUT) == "PUT"
    ensures AsStr(PATCH) == "PATCH" && AsStr(DELETE) == "DELETE"
  {
  }

  /** The five methods go out under five different names. */
  lemma AsStrInjective(a: Method, b: Method)
    requires AsStr(a) == AsStr(b)
    ensures a == b
  {
  }

  /** The arguments a convenience method passes to `fetch`. */
  datatype FetchCall<S> = FetchCall(verb: Method, url: string, body: Option<S>)

  function Get(url: string): (c: FetchCall<()>)
    ensures c.verb == GET && AsStr(c.verb) == "GET" && c.url == url && c.body.None?
  {
    FetchCall(GET, url, None)
  }

  function Post<S>(url: string, body: S): (c: FetchCall<S>)
    ensures c.verb == POST && AsStr(c.verb) == "POST" && c.url == url && c.body == Some(body)
  {
    FetchCall(POST, url, Some(body))
  }

  function Put<S>(url: string, body: S): (c: FetchCall<S>)
    ensures c.verb == PUT && AsStr(c.verb) == "PUT" && c.url == url && c.body == Some(body)
  {
    FetchCall(PUT, url, Some(body))
  }

  function Patch<S>(url: string, body: S): (c: FetchCall<S>)
    ensures c.verb == PATCH && AsStr(c.verb) == "PATCH" && c.url == url && c.body == Some(body)
  {
    FetchCall(PATCH, url, Some(body))
  }

  function Delete(url: string): (c: FetchCall<()>)
    ensures c.verb == DELETE && AsStr(c.verb) == "DELETE" && c.url == url && c.body.None?
  {
    FetchCall(DELETE, url, None)
  }

  /** A response seen by the page: the headers of its request, if they can be read, and its status. */
  datatype Response = Response(requestHeaders: Result<map<string, string>, Error>, status: nat)

  /** A page event: a response, or any other kind of event. */
  datatype Event = ResponseEvent(response: Response) | OtherEvent(kind: string)

  const FetchIdHeader: string := "x-e2e-fetch-id"

  /** The fetch id a response's request carried: readable headers, the header present, and a valid `u32`. */
  function HeaderFetchId(r: Response): (id: Option<u32>)
    ensures id.Some? <==>
      && r.requestHeaders.Ok?
      && FetchIdHeader in r.requestHeaders.value
      && ParseU32(r.requestHeaders.value[FetchIdHeader]).Some?
    ensures id.Some? ==> id == ParseU32(r.requestHeaders.value[FetchIdHeader])
  {
    match r.requestHeaders
    case Err(_) => None
    case Ok(headers) => if FetchIdHeader in headers then ParseU32(headers[FetchIdHeader]) else None
  }

  /**
   * The `filter_map` of `fetch`: errors are passed on, the response whose
   * request carried this fetch's id is kept, and every other event is
   * dropped.
   */
  function KeepEvent(fetchId: u32, ev: Result<Event, Error>): (r: Option<Result<Response, Error>>)
    ensures ev.Err? ==> r == Some(Err(ev.error))
    ensures r.Some? && r.value.Ok? <==>
      ev.Ok? && ev.value.ResponseEvent? && HeaderFetchId(ev.value.response) == Some(fetchId)
    ensures r.Some? && r.value.Ok? ==> r.value.value == ev.value.response
    ensures r.None? <==> ev.Ok? && !(ev.value.ResponseEvent? && HeaderFetchId(ev.value.response) == Some(fetchId))
  {
    match ev
    case Err(err) => Some(Err(err))
    case Ok(ResponseEvent(response)) =>
      if HeaderFetchId(response) == Some(fetchId) then Some(Ok(response)) else None
    case Ok(_) => None
  }

  /** The page sends the id as its decimal text, so the response to this very fetch is kept. */
  lemma OwnResponseKept(fetchId: u32, r: Response)
    requires r.requestHeaders.Ok? && FetchIdHeader in r.requestHeaders.value
    requires r.requestHeaders.value[FetchIdHeader] == NatToString(fetchId as nat)
    ensures KeepEvent(fetchId, Ok(ResponseEvent(r))) == Some(Ok(r))
  {
    ParseU32RoundTrip(fetchId);
  }

  /** A response to a fetch with a different id is dropped. */
  lemma OtherResponseDropped(fetchId: u32, otherId: u32, r: Response)
    requires otherId != fetchId
    requires r.requestHeaders.Ok? && FetchIdHeader in r.requestHeaders.value
    requires r.requestHeaders.value[FetchIdHeader] == NatToString(otherId as nat)
    ensures KeepEvent(fetchId, Ok(ResponseEvent(r))) == None
  {
    ParseU32RoundTrip(otherId);
  }

  /** How `fetch` can fail once the request is out. */
  datatype FetchError = NotFound | EventError(error: Error)

  /** `Display for NotFound`; an event error shows as itself. */
  function FetchErrorText(e: FetchError): (s: string)
    ensures e.NotFound? ==> s == "NotFound"
    ensures e.EventError? ==> s == ErrorText(e.error, false)
  {
    match e
    case NotFound => "NotFound"
    case EventError(err) => ErrorText(err, false)
  }

  function Settle(kept: Result<Response, Error>): Result<Response, FetchError> {
    match kept
    case Ok(r) => Ok(r)
    case Err(err) => Err(EventError(err))
  }

  /**
   * `response_stream.next().await.ok_or(NotFound)??` over the events the
   * page produces: the first event the filter keeps decides the result; if
   * the stream ends with nothing kept, the result is `NotFound`.
   */
  function NextKept(fetchId: u32, events: seq<Result<Event, Error>>): (r: Result<Response, FetchError>)
    ensures r == Err(NotFound) <==> forall i :: 0 <= i < |events| ==> KeepEvent(fetchId, events[i]).None?
    ensures forall i ::
      (&& 0 <= i < |events|
       && KeepEvent(fetchId, events[i]).Some?
       && (forall j :: 0 <= j < i ==> KeepEvent(fetchId, events[j]).None?))
      ==> r == Settle(KeepEvent(fetchId, events[i]).value)
  {
    if events == [] then Err(NotFound)
    else match KeepEvent(fetchId, events[0])
      case Some(kept) => Settle(kept)
      case None =>
        var r := NextKept(fetchId, events[1..]);
        assert forall i :: 1 <= i < |events| ==> events[1..][i - 1] == events[i];
        r
  }
}
