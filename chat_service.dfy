/** The chat transport the session uses: one POST per utterance, or a canned
    reply when no endpoint is configured. `fetch` is an oracle: its outcome is
    a parameter, and the request the service would send is part of the
    result so that "no request was made" can be stated. */
module ChatService {
  import opened Wrappers
  import opened Text
  import opened ChatTypes

  type Headers = map<string, string>

  /** The service's fixed configuration (constructor argument). */
  datatype ChatServiceConfig = ChatServiceConfig(
    apiEndpoint: Option<string>,
    apiKey: Option<string>,
    headers: Option<Headers>)

  /** `JSON.stringify({ message: text })` */
  datatype ChatBody = ChatBody(message: string)

  /** `verb` is the request method. */
  datatype HttpRequest = HttpRequest(url: string, verb: string, headers: Headers, body: ChatBody)

  /** What `fetch` and `response.json()` come to: a rejected fetch, or a
      status with a body that parses (`Some`) or does not (`None`). */
  datatype FetchResult = NetworkFailure | Response(status: int, body: Option<ChatResponse>)

  /** Why the returned promise rejects. */
  datatype TransportError = NetworkError | HttpStatus(status: int) | MalformedBody

  /** The request sent (if any) and how the call settles. */
  datatype Exchange = Exchange(request: Option<HttpRequest>, outcome: Result<ChatResponse, TransportError>)

  const CONTENT_TYPE: string := "Content-Type"
  const AUTHORIZATION: string := "Authorization"
  const JSON_TYPE: string := "application/json"

  /** A present, non-empty string option: JavaScript truthiness of a string. */
  predicate Given(s: Option<string>) {
    s.Some? && s.value != ""
  }

  /** `response.ok` */
  predicate IsOk(status: int) {
    200 <= status <= 299
  }

  /** The header object of the request: `Content-Type` first, then
      `Authorization` when an api key is set, then the configured headers,
      each spread overriding the keys before it. */
  function RequestHeaders(cfg: ChatServiceConfig): (h: Headers)
    ensures CONTENT_TYPE in h
    ensures AUTHORIZATION in h <==> Given(cfg.apiKey) || (cfg.headers.Some? && AUTHORIZATION in cfg.headers.value)
    ensures cfg.headers.Some? ==> forall k :: k in cfg.headers.value ==> k in h && h[k] == cfg.headers.value[k]
    ensures cfg.headers.None? || CONTENT_TYPE !in cfg.headers.value ==> h[CONTENT_TYPE] == JSON_TYPE
    ensures Given(cfg.apiKey) && (cfg.headers.None? || AUTHORIZATION !in cfg.headers.value)
            ==> h[AUTHORIZATION] == "Bearer " + cfg.apiKey.value
    ensures forall k :: k in h ==> k == CONTENT_TYPE || k == AUTHORIZATION || (cfg.headers.Some? && k in cfg.headers.value)
  {
    var base := map[CONTENT_TYPE := JSON_TYPE];
    var withAuth := if Given(cfg.apiKey) then base[AUTHORIZATION := "Bearer " + cfg.apiKey.value] else base;
    if cfg.headers.Some? then withAuth + cfg.headers.value else withAuth
  }

  /** The two products of the canned "dress" reply. */
  const MOCK_PRODUCTS: seq<Product> := [
    Product("1", "Printed Top With Zipper Front And Gold Sequin", "46,250.00 \U{20BA}", "/public/fab-icon.png", None),
    Product("2", "Halter Neck Ruffled Maxi Dress With Gold Accessory", "98,050.00 TL", "/public/fab-icon.png", None)
  ]

  const DRESS_REPLY: string := "Here are some dress options you might like:"

  /** The text of the canned reply to anything but a dress request. */
  function DemoText(text: string): string {
    "This is a demo response for \"" + text + "\". In production, this would come from your API."
  }

  /** `getMockResponse`: products when the lower-cased text mentions
      "dress", otherwise a demo text quoting the input. */
  function MockResponse(text: string): ChatResponse {
    if Contains(AsciiLower(text), "dress") then ChatResponse(DRESS_REPLY, Some(MOCK_PRODUCTS), false)
    else ChatResponse(DemoText(text), None, false)
  }

  /** The canned reply carries the two mock products and the dress text iff
      the lower-cased text contains "dress"; otherwise it has none and its text quotes the input verbatim.
      It never asks for a follow-up. */
  lemma MockReplyShape(text: string)
    ensures var r := MockResponse(text);
      && (r.products.Some? <==> Contains(AsciiLower(text), "dress"))
      && (r.products.Some? ==> |r.products.value| == 2)
      && (Contains(AsciiLower(text), "dress") ==> r.products == Some(MOCK_PRODUCTS) && r.text == DRESS_REPLY)
      && (!Contains(AsciiLower(text), "dress") ==> Contains(r.text, text))
      && !r.shouldSendFollowUp
  {
    if !Contains(AsciiLower(text), "dress") {
      ContainsInside("This is a demo response for \"", text, "\". In production, this would come from your API.");
    }
  }

  /** The request `sendMessage` builds for an endpoint. */
  function BuildRequest(cfg: ChatServiceConfig, text: string): (req: HttpRequest)
    requires Given(cfg.apiEndpoint)
    ensures req.url == cfg.apiEndpoint.value && req.verb == "POST"
    ensures req.body == ChatBody(text)
    ensures req.headers == RequestHeaders(cfg)
  {
    HttpRequest(cfg.apiEndpoint.value, "POST", RequestHeaders(cfg), ChatBody(text))
  }

  /** `ChatService.sendMessage`. */
  function SendMessage(cfg: ChatServiceConfig, text: string, fetched: FetchResult): Exchange {
    if !Given(cfg.apiEndpoint) then Exchange(None, Success(MockResponse(text)))
    else
      var req := BuildRequest(cfg, text);
      match fetched
      case NetworkFailure => Exchange(Some(req), Failure(NetworkError))
      case Response(status, body) =>
        if !IsOk(status) then Exchange(Some(req), Failure(HttpStatus(status)))
        else if body.None? then Exchange(Some(req), Failure(MalformedBody))
        else Exchange(Some(req), Success(body.value))
  }

  /** Without an endpoint no request is made and the canned reply is returned,
      whatever the network would have done. */
  lemma NoEndpointMeansMock(cfg: ChatServiceConfig, text: string, fetched: FetchResult)
    requires !Given(cfg.apiEndpoint)
    ensures SendMessage(cfg, text, fetched) == Exchange(None, Success(MockResponse(text)))
  {
  }

  /** With an endpoint exactly one request is made; the call succeeds iff the
      status is 2xx and the body parses, and then yields the parsed body as it
      is. A network failure, a non-2xx status and an unparseable body all
      reject; none of them is turned into a reply. */
  lemma EndpointExchange(cfg: ChatServiceConfig, text: string, fetched: FetchResult)
    requires Given(cfg.apiEndpoint)
    ensures var x := SendMessage(cfg, text, fetched);
      && x.request == Some(BuildRequest(cfg, text))
      && (x.outcome.Success? <==> fetched.Response? && IsOk(fetched.status) && fetched.body.Some?)
      && (x.outcome.Success? ==> x.outcome.value == fetched.body.value)
      && (fetched.NetworkFailure? ==> x.outcome == Failure(NetworkError))
      && (fetched.Response? && !IsOk(fetched.status) ==> x.outcome == Failure(HttpStatus(fetched.status)))
  {
  }
}
