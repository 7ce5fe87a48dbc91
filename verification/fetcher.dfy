/** `get_item_details`: argument guards, request shaping and the
    classification of what the single GET produced. The network call and
    the JSON parser are not executed here: their outcome is the `Reply`
    the caller passes in. */
module Fetcher {
  import opened Wrappers
  import opened Json

  const BaseUrl := "https://api.mercadolibre.com"
  const ItemsPath := "/items/"
  const ClientQuery := "?client_id="
  const UserAgentHeader := "User-Agent"
  const UserAgent := "MeliItemFetcherApp/1.0"

  /** The one GET the tool sends. */
  datatype Request = Request(url: string, headers: map<string, string>)

  /** What `requests.get` and `response.json()` produced for the request.
      `TransportFailure` is any `RequestException` raised by the call itself;
      `Response` carries the final status, the raw body text and the parser's
      verdict on that body (`None` when it is not JSON). */
  datatype Reply =
    | TransportFailure(cause: string)
    | Response(status: int, body: string, decoded: Option<Value>)

  /** Why no document came back. The source prints a different diagnostic
      for each and returns `None` for all of them. */
  datatype FetchError =
    | MissingItemId
    | MissingClientId
    | TransportError(cause: string)
    | HttpStatusError(status: int, body: string)
    | DecodeError(body: string)

  /** The request that went out, if any, and what the call returned. */
  datatype Fetch = Fetch(sent: Option<Request>, result: Result<Value, FetchError>)

  /** Python truthiness of the optional credential: `None` and `""` are false. */
  predicate Present(credential: Option<string>) {
    credential.Some? && credential.value != ""
  }

  /** `f"{BASE_URL}/items/{item_id}?client_id={client_id}"`: plain
      concatenation, nothing is escaped. */
  function ItemUrl(itemId: string, clientId: string): string {
    BaseUrl + ItemsPath + itemId + ClientQuery + clientId
  }

  /** The request for one item: its URL and the single identifying header. */
  function ItemRequest(itemId: string, clientId: string): (r: Request)
    ensures r.url == ItemUrl(itemId, clientId)
    ensures r.headers.Keys == {UserAgentHeader} && r.headers[UserAgentHeader] == UserAgent
  {
    Request(ItemUrl(itemId, clientId), map[UserAgentHeader := UserAgent])
  }

  /** Position of the first `c` in `s`. */
  function FirstIndex(s: string, c: char): (r: Option<nat>)
    ensures r.None? ==> c !in s
    ensures r.Some? ==> r.value < |s| && s[r.value] == c && c !in s[..r.value]
  {
    if s == [] then None
    else if s[0] == c then Some(0)
    else match FirstIndex(s[1..], c)
      case None => None
      case Some(k) =>
        assert s[..k + 1] == [s[0]] + s[1..][..k];
        Some(k + 1)
  }

  /** Reads an item URL back into its item id and credential, splitting
      at the first `?`. */
  function ParseItemUrl(url: string): Option<(string, string)> {
    var head := BaseUrl + ItemsPath;
    if |url| < |head| || url[..|head|] != head then None
    else
      var rest := url[|head|..];
      match FirstIndex(rest, '?')
      case None => None
      case Some(q) =>
        var query := rest[q..];
        if |query| < |ClientQuery| || query[..|ClientQuery|] != ClientQuery then None
        else Some((rest[..q], query[|ClientQuery|..]))
  }

  /** For an item id without `?` and any credential, splitting the URL at
      its first `?` recovers both parts. */
  lemma ItemUrlRoundTrip(itemId: string, clientId: string)
    requires '?' !in itemId
    ensures ParseItemUrl(ItemUrl(itemId, clientId)) == Some((itemId, clientId))
  {
    var head := BaseUrl + ItemsPath;
    var url := ItemUrl(itemId, clientId);
    var rest := itemId + ClientQuery + clientId;
    assert url == head + rest;
    assert url[..|head|] == head && url[|head|..] == rest;
    assert rest[..|itemId|] == itemId;
    assert rest[|itemId|] == '?';
    var q := FirstIndex(rest, '?');
    assert q.Some? && q.value == |itemId|;
    assert rest[|itemId|..] == ClientQuery + clientId;
  }

  /** Without escaping, the URL does not determine its parts: an item id
      carrying its own `?client_id=` collides with a different credential. */
  lemma ItemUrlAmbiguous()
    ensures ItemUrl("MLB1?client_id=a", "b") == ItemUrl("MLB1", "a?client_id=b")
  {
  }

  /** `response.raise_for_status()` raises for client and server errors,
      statuses 400 through 599, and for nothing else. */
  predicate ErrorStatus(status: int) {
    400 <= status < 600
  }

  /** The try-block once the request is sent: a transport failure, then an
      HTTP error status (checked before the body is decoded), then the
      decoder's verdict. */
  function Classify(reply: Reply): (r: Result<Value, FetchError>)
    ensures r.Success? <==> reply.Response? && !ErrorStatus(reply.status) && reply.decoded.Some?
    ensures r.Success? ==> r.value == reply.decoded.value
    ensures reply.TransportFailure? ==> r == Failure(TransportError(reply.cause))
    ensures reply.Response? && ErrorStatus(reply.status) ==>
              r == Failure(HttpStatusError(reply.status, reply.body))
    ensures reply.Response? && !ErrorStatus(reply.status) && reply.decoded.None? ==>
              r == Failure(DecodeError(reply.body))
  {
    match reply
    case TransportFailure(cause) => Failure(TransportError(cause))
    case Response(status, body, decoded) =>
      if ErrorStatus(status) then Failure(HttpStatusError(status, body))
      else match decoded
        case None => Failure(DecodeError(body))
        case Some(doc) => Success(doc)
  }

  /** An error status is reported the same whatever the body would decode to. */
  lemma ErrorStatusIgnoresBody(status: int, body: string, d1: Option<Value>, d2: Option<Value>)
    requires ErrorStatus(status)
    ensures Classify(Response(status, body, d1)) == Classify(Response(status, body, d2))
    ensures Classify(Response(status, body, d1)).Failure?
  {
  }

  /** `get_item_details(item_id, client_id)`. The guards run first and stop
      the call with no request sent; otherwise exactly one request goes out
      and its reply is classified. */
  function GetItemDetails(itemId: string, clientId: Option<string>, reply: Reply): (f: Fetch)
    ensures f.sent.None? <==> itemId == [] || !Present(clientId)
    ensures itemId == [] ==> f.result == Failure(MissingItemId)
    ensures itemId != [] && !Present(clientId) ==> f.result == Failure(MissingClientId)
    ensures f.sent.Some? ==>
              f.sent.value == ItemRequest(itemId, clientId.value) && f.result == Classify(reply)
    ensures f.result.Success? ==>
              f.sent.Some? && reply.Response? && !ErrorStatus(reply.status) &&
              reply.decoded == Some(f.result.value)
  {
    if itemId == [] then Fetch(None, Failure(MissingItemId))
    else if !Present(clientId) then Fetch(None, Failure(MissingClientId))
    else Fetch(Some(ItemRequest(itemId, clientId.value)), Classify(reply))
  }

  /** When a guard stops the call, the network is never consulted: the
      outcome is the same whatever the reply would have been. */
  lemma GuardsPrecedeNetwork(itemId: string, clientId: Option<string>, r1: Reply, r2: Reply)
    requires itemId == [] || !Present(clientId)
    ensures GetItemDetails(itemId, clientId, r1) == GetItemDetails(itemId, clientId, r2)
    ensures GetItemDetails(itemId, clientId, r1).result.Failure?
  {
  }

  /** A 404 with body `{"message":"not found"}` is an HTTP error carrying
      that status and body, and no document. */
  lemma NotFoundExample(d: Option<Value>)
    ensures
      var body := "{\"message\":\"not found\"}";
      GetItemDetails("MLB1", Some("42"), Response(404, body, d)).result ==
        Failure(HttpStatusError(404, body))
  {
  }

  /** A 200 whose body is not JSON is a decode error carrying that exact body. */
  lemma NonJsonBodyExample()
    ensures GetItemDetails("MLB1", Some("42"), Response(200, "<html>", None)).result ==
              Failure(DecodeError("<html>"))
  {
  }
}
