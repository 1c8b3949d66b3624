/** The proxy-capable transport: a singleton whose setters configure the
    endpoint, headers and CORS proxy, and whose `sendMessage` posts an
    analytics-style payload and normalises the reply by `response_type`.
    `fetch`, the browser environment and `Math.random` are parameters. */
module ApiService {
  import opened Wrappers
  import opened Text
  import Js
  import opened ChatTypes

  type Headers = map<string, string>

  const CONTENT_TYPE: string := "Content-Type"
  const ORIGIN: string := "Origin"
  const DEFAULT_PROXY: string := "https://cors-anywhere-tbdr.vercel.app/?url="

  const PRODUCTS_TEXT: string := "Here are some products you might like:"
  const THANKS_TEXT: string := "Thank you for your message. How else can I help you?"
  const GREETING_TEXT: string := "Hello, how can I help you today?"

  /** The fallback products shown for a product-carousel reply. */
  const SAMPLE_PRODUCTS: seq<Product> := [
    Product("1", "Printed Top With Zipper Front And Gold Sequin", "46,250.00 \U{20BA}",
            "https://placehold.co/400x500/white/333?text=Product+1", Some("#product1")),
    Product("2", "Printed Top With Zipper Front And Gold Sequin", "46,250.00 \U{20BA}",
            "https://placehold.co/400x500/green/white?text=Product+2", Some("#product2")),
    Product("3", "Evening Gown With Embellishments", "75,000.00 \U{20BA}",
            "https://placehold.co/400x500/navy/white?text=Product+3", Some("#product3")),
    Product("4", "Casual Summer Dress", "35,500.00 \U{20BA}",
            "https://placehold.co/400x500/pink/333?text=Product+4", Some("#product4")),
    Product("5", "Elegant Cocktail Dress", "52,750.00 \U{20BA}",
            "https://placehold.co/400x500/black/white?text=Product+5", Some("#product5"))
  ]

  // ---------------------------------------------------------------------------
  // encodeURIComponent

  /** The characters `encodeURIComponent` leaves as they are. */
  predicate IsUnreserved(c: char) {
    || ('A' <= c <= 'Z') || ('a' <= c <= 'z') || ('0' <= c <= '9')
    || c == '-' || c == '_' || c == '.' || c == '!' || c == '~' || c == '*'
    || c == '\'' || c == '(' || c == ')'
  }

  /** The UTF-8 encoding of one Unicode scalar value. */
  function Utf8(c: char): (bytes: seq<nat>)
    ensures 1 <= |bytes| <= 4
    ensures forall i :: 0 <= i < |bytes| ==> bytes[i] < 256
  {
    var n := c as int;
    if n < 0x80 then [n]
    else if n < 0x800 then [0xC0 + n / 0x40, 0x80 + n % 0x40]
    else if n < 0x10000 then [0xE0 + n / 0x1000, 0x80 + (n / 0x40) % 0x40, 0x80 + n % 0x40]
    else [0xF0 + n / 0x40000, 0x80 + (n / 0x1000) % 0x40, 0x80 + (n / 0x40) % 0x40, 0x80 + n % 0x40]
  }

  function HexDigit(d: nat): (c: char)
    requires d < 16
    ensures IsUnreserved(c)
  {
    "0123456789ABCDEF"[d]
  }

  /** `%XX` for every byte, upper-case hex. */
  function PercentBytes(bytes: seq<nat>): (r: string)
    requires forall i :: 0 <= i < |bytes| ==> bytes[i] < 256
    ensures |r| == 3 * |bytes|
    ensures forall i :: 0 <= i < |r| ==> IsUnreserved(r[i]) || r[i] == '%'
  {
    if bytes == [] then ""
    else ['%', HexDigit(bytes[0] / 16), HexDigit(bytes[0] % 16)] + PercentBytes(bytes[1..])
  }

  /** `encodeURIComponent`: unreserved characters are copied, every other
      character becomes the percent-escapes of its UTF-8 bytes. The result
      holds only unreserved characters and `%`, so it cannot end the query
      parameter it is put in (no `&`, `#`, `?`, `/`, `=`). */
  function EncodeURIComponent(s: string): (r: string)
    ensures forall i :: 0 <= i < |r| ==> IsUnreserved(r[i]) || r[i] == '%'
    ensures |r| >= |s|
  {
    if s == [] then ""
    else (if IsUnreserved(s[0]) then [s[0]] else PercentBytes(Utf8(s[0]))) + EncodeURIComponent(s[1..])
  }

  /** A string of unreserved characters is encoded as itself. */
  lemma {:induction false} EncodeUnreservedIsIdentity(s: string)
    requires forall i :: 0 <= i < |s| ==> IsUnreserved(s[i])
    ensures EncodeURIComponent(s) == s
  {
    if s != [] {
      EncodeUnreservedIsIdentity(s[1..]);
    }
  }

  // ---------------------------------------------------------------------------
  // User-agent classification

  /** `getOperatingSystem`: the first of Windows, Mac, Linux, Android, iOS
      that the user agent mentions. */
  function OperatingSystem(ua: string): (os: string)
    ensures os in {"Windows", "macOS", "Linux", "Android", "iOS", "Unknown"}
  {
    if Contains(ua, "Windows") then "Windows"
    else if Contains(ua, "Mac") then "macOS"
    else if Contains(ua, "Linux") then "Linux"
    else if Contains(ua, "Android") then "Android"
    else if Contains(ua, "iOS") then "iOS"
    else "Unknown"
  }

  /** The order of the tests decides: each answer is given exactly when its
      name occurs and no earlier name does, so an Android user agent (which
      always mentions Linux) is reported as Linux, never as Android. */
  lemma OperatingSystemPriority(ua: string)
    ensures Contains(ua, "Linux") ==> OperatingSystem(ua) != "Android"
    ensures OperatingSystem(ua) == "Android" ==> Contains(ua, "Android") && !Contains(ua, "Linux") && !Contains(ua, "Mac") && !Contains(ua, "Windows")
    ensures OperatingSystem(ua) == "Unknown" <==>
              !Contains(ua, "Windows") && !Contains(ua, "Mac") && !Contains(ua, "Linux") && !Contains(ua, "Android") && !Contains(ua, "iOS")
    ensures Contains(ua, "Windows") <==> OperatingSystem(ua) == "Windows"
    ensures OperatingSystem(ua) == "macOS" <==> !Contains(ua, "Windows") && Contains(ua, "Mac")
    ensures OperatingSystem(ua) == "Linux" <==>
              !Contains(ua, "Windows") && !Contains(ua, "Mac") && Contains(ua, "Linux")
    ensures OperatingSystem(ua) == "Android" <==>
              !Contains(ua, "Windows") && !Contains(ua, "Mac") && !Contains(ua, "Linux") && Contains(ua, "Android")
    ensures OperatingSystem(ua) == "iOS" <==>
              !Contains(ua, "Windows") && !Contains(ua, "Mac") && !Contains(ua, "Linux") && !Contains(ua, "Android")
              && Contains(ua, "iOS")
  {
  }

  /** Some pattern of the list occurs in `s`. */
  predicate ContainsAny(s: string, patterns: seq<string>) {
    exists i :: 0 <= i < |patterns| && Contains(s, patterns[i])
  }

  /** `windows\sce`: "windows", one whitespace character, "ce". */
  predicate ContainsWindowsCe(s: string)
    decreases |s|
  {
    (|s| >= 10 && "windows" <= s && IsJsWhitespace(s[7]) && s[8..10] == "ce")
    || (s != [] && ContainsWindowsCe(s[1..]))
  }

  const TABLET_PATTERNS: seq<string> := ["tablet", "ipad", "playbook", "silk"]
  const MOBILE_PATTERNS: seq<string> :=
    ["mobile", "iphone", "ipod", "android", "blackberry", "opera", "mini", "palm", "smartphone", "iemobile"]

  /** `/tablet|ipad|playbook|silk/i` */
  predicate IsTabletAgent(ua: string) {
    ContainsAny(AsciiLower(ua), TABLET_PATTERNS)
  }

  /** `/mobile|iphone|...|windows\sce|palm|smartphone|iemobile/i` */
  predicate IsMobileAgent(ua: string) {
    ContainsAny(AsciiLower(ua), MOBILE_PATTERNS) || ContainsWindowsCe(AsciiLower(ua))
  }

  /** `getDeviceType` */
  function DeviceType(ua: string): string {
    if IsTabletAgent(ua) then "Tablet"
    else if IsMobileAgent(ua) then "Mobile"
    else "Desktop"
  }

  /** The tablet pattern wins over the mobile one, the match ignores case,
      and "Desktop" is what is left. */
  lemma DeviceTypeClassification(ua: string)
    ensures IsTabletAgent(ua) ==> DeviceType(ua) == "Tablet"
    ensures DeviceType(ua) == "Mobile" <==> !IsTabletAgent(ua) && IsMobileAgent(ua)
    ensures DeviceType(ua) == "Desktop" <==> !IsTabletAgent(ua) && !IsMobileAgent(ua)
    ensures DeviceType(AsciiLower(ua)) == DeviceType(ua)
  {
    var l := AsciiLower(ua);
    assert AsciiLower(l) == l;
  }

  /** Any user agent that mentions an iPad is a tablet, whatever else it
      says (an iPad agent also says "Mobile"). */
  lemma IPadIsTablet(a: string, b: string)
    ensures DeviceType(a + "iPad" + b) == "Tablet"
  {
    var l := AsciiLower(a + "iPad" + b);
    assert l == AsciiLower(a) + "ipad" + AsciiLower(b);
    ContainsInside(AsciiLower(a), "ipad", AsciiLower(b));
    assert Contains(l, TABLET_PATTERNS[1]);
  }

  // ---------------------------------------------------------------------------
  // Requests and replies

  /** What the page provides: `navigator.userAgent`, the screen size,
      `window.location.origin` and the clock. */
  datatype Environment = Environment(userAgent: string, screenWidth: nat, screenHeight: nat, origin: string, now: nat)

  /** The analytics-style payload `sendMessage` posts. `rawTimestamp` is the
      instant the ISO text denotes. */
  datatype ApiRequestBody = ApiRequestBody(
    eventType: string,
    buttonLabel: Option<string>,
    userAgent: string,
    screenResolution: string,
    operatingSystem: string,
    deviceType: string,
    userText: string,
    rawTimestamp: nat,
    rawSessionId: string,
    rawMessage: string)

  /** `verb` is the request method. */
  datatype ApiRequest = ApiRequest(url: string, verb: string, headers: Headers, body: ApiRequestBody)

  /** A body that parsed: `null`, or an object with a `response_type` and
      possibly a text. */
  datatype ParsedBody = NullBody | Body(responseType: Js.Value, text: Option<string>)

  /** `fetch` rejected, or a status with a body that parses (`Some`) or not. */
  datatype ApiFetchResult = NetworkFailure | Response(status: int, body: Option<ParsedBody>)

  datatype ApiResponse = ApiResponse(responseType: Js.Value, text: string, products: Option<seq<Product>>)

  /** `BodyIsNull` is the TypeError of reading `response_type` of `null`. */
  datatype ApiError = NetworkError | HttpStatus(status: int) | MalformedJson | BodyIsNull

  datatype ApiExchange = ApiExchange(request: Option<ApiRequest>, outcome: Result<ApiResponse, ApiError>)

  predicate IsOk(status: int) {
    200 <= status <= 299
  }

  /** The normalisation of a parsed reply: `response_type || 0` is kept, and
      text and products are fixed by whether it is exactly the number 1. */
  function Normalise(responseType: Js.Value): ApiResponse {
    var rt := Js.Or(responseType, Js.Num(0));
    ApiResponse(rt,
                if rt == Js.Num(1) then PRODUCTS_TEXT else THANKS_TEXT,
                if rt == Js.Num(1) then Some(SAMPLE_PRODUCTS) else None)
  }

  /** Products are the sample products iff the type is exactly 1, otherwise
      there are none; a falsy type becomes 0; the text is one of two fixed
      strings, whatever the server wrote. */
  lemma NormaliseContract(v: Js.Value)
    ensures var r := Normalise(v);
      && (r.products == Some(SAMPLE_PRODUCTS) <==> r.responseType == Js.Num(1))
      && (r.products.None? <==> r.responseType != Js.Num(1))
      && (Js.Truthy(v) ==> r.responseType == v)
      && (!Js.Truthy(v) ==> r.responseType == Js.Num(0))
      && (r.text == PRODUCTS_TEXT <==> r.responseType == Js.Num(1))
      && (r.text == PRODUCTS_TEXT || r.text == THANKS_TEXT)
  {
  }

  /** The string "1" is truthy but not the number 1: it is kept as the type
      and still gets the plain text reply. */
  lemma StringOneIsNotCarousel()
    ensures Normalise(Js.Str("1")) == ApiResponse(Js.Str("1"), THANKS_TEXT, None)
  {
  }

  /** `ApiService`: the endpoint, CORS proxy, headers and proxy flag, set
      through setters. */
  class ApiService {
    var apiUrl: string
    var corsProxyUrl: string
    var headers: Headers
    var useProxy: bool

    /** `Content-Type` is always among the headers. */
    ghost predicate Valid()
      reads this
    {
      CONTENT_TYPE in headers
    }

    constructor ()
      ensures Valid()
      ensures apiUrl == "" && corsProxyUrl == DEFAULT_PROXY && !useProxy
      ensures headers == map[CONTENT_TYPE := "application/json"]
    {
      apiUrl := "";
      corsProxyUrl := DEFAULT_PROXY;
      headers := map[CONTENT_TYPE := "application/json"];
      useProxy := false;
    }

    method SetApiUrl(url: string)
      requires Valid()
      modifies this
      ensures Valid()
      ensures apiUrl == url
      ensures corsProxyUrl == old(corsProxyUrl) && headers == old(headers) && useProxy == old(useProxy)
    {
      apiUrl := url;
    }

    /** `setHeaders`: the given keys take the given values and every other
        existing key keeps its value; `Content-Type` is never lost. */
    method SetHeaders(newHeaders: Headers)
      requires Valid()
      modifies this
      ensures Valid()
      ensures headers == old(headers) + newHeaders
      ensures forall k :: k in newHeaders ==> headers[k] == newHeaders[k]
      ensures forall k :: k in old(headers) && k !in newHeaders ==> k in headers && headers[k] == old(headers)[k]
      ensures headers.Keys == old(headers).Keys + newHeaders.Keys
      ensures apiUrl == old(apiUrl) && corsProxyUrl == old(corsProxyUrl) && useProxy == old(useProxy)
    {
      headers := headers + newHeaders;
    }

    method SetCorsProxy(proxyUrl: string)
      requires Valid()
      modifies this
      ensures Valid()
      ensures corsProxyUrl == proxyUrl
      ensures apiUrl == old(apiUrl) && headers == old(headers) && useProxy == old(useProxy)
    {
      corsProxyUrl := proxyUrl;
    }

    method SetUseProxy(flag: bool)
      requires Valid()
      modifies this
      ensures Valid()
      ensures useProxy == flag
      ensures apiUrl == old(apiUrl) && headers == old(headers) && corsProxyUrl == old(corsProxyUrl)
    {
      useProxy := flag;
    }

    /** `getRequestUrl`: the proxy prefix and the encoded target when the
        proxy is on and has a URL, else the target unchanged. */
    function RequestUrl(url: string): (r: string)
      reads this
      ensures useProxy && corsProxyUrl != "" ==>
                corsProxyUrl <= r && r[|corsProxyUrl|..] == EncodeURIComponent(url)
      ensures !(useProxy && corsProxyUrl != "") ==> r == url
    {
      if useProxy && corsProxyUrl != "" then corsProxyUrl + EncodeURIComponent(url) else url
    }

    /** The request headers: the configured ones, plus `Origin` only when the
        proxy is on. */
    function RequestHeaders(origin: string): (h: Headers)
      reads this
      ensures useProxy ==> ORIGIN in h && h[ORIGIN] == origin
      ensures !useProxy ==> h == headers
      ensures forall k :: k in headers && k != ORIGIN ==> k in h && h[k] == headers[k]
      ensures h.Keys <= headers.Keys + {ORIGIN}
      ensures Valid() ==> CONTENT_TYPE in h
    {
      if useProxy then headers[ORIGIN := origin] else headers
    }

    /** The payload posted for one message. */
    function RequestBody(text: string, buttonLabel: Option<string>, env: Environment): ApiRequestBody {
      ApiRequestBody(
        "send_message",
        if buttonLabel.Some? && buttonLabel.value != "" then buttonLabel else None,
        env.userAgent,
        NatToString(env.screenWidth) + "x" + NatToString(env.screenHeight),
        OperatingSystem(env.userAgent),
        DeviceType(env.userAgent),
        text,
        env.now,
        "session_" + NatToString(env.now),
        text)
    }

    /** `sendMessage`. With an API URL: one POST to the (possibly proxied)
        URL, rejected on a network error, a non-2xx status, unparseable JSON
        or a `null` body, otherwise the normalised reply. Without one: the
        canned reply `useProducts` (the coin `Math.random() < 0.5`) picks. */
    function SendMessage(text: string, buttonLabel: Option<string>, env: Environment,
                         fetched: ApiFetchResult, useProducts: bool): (x: ApiExchange)
      reads this
      ensures apiUrl == "" ==> x.request.None?
      ensures apiUrl == "" ==> x.outcome == Success(
                if useProducts then ApiResponse(Js.Num(1), PRODUCTS_TEXT, Some(SAMPLE_PRODUCTS))
                else ApiResponse(Js.Num(0), GREETING_TEXT, None))
      ensures apiUrl != "" ==> x.request.Some?
                               && x.request.value.url == RequestUrl(apiUrl)
                               && x.request.value.verb == "POST"
                               && x.request.value.headers == RequestHeaders(env.origin)
                               && x.request.value.body.userText == text
      ensures Valid() && apiUrl != "" ==> CONTENT_TYPE in x.request.value.headers
      ensures apiUrl != "" ==>
                (x.outcome.Success? <==>
                   fetched.Response? && IsOk(fetched.status) && fetched.body.Some? && fetched.body.value.Body?)
      ensures apiUrl != "" && x.outcome.Success? ==> x.outcome.value == Normalise(fetched.body.value.responseType)
      ensures apiUrl != "" && fetched.NetworkFailure? ==> x.outcome == Failure(NetworkError)
      ensures apiUrl != "" && fetched.Response? && !IsOk(fetched.status) ==> x.outcome == Failure(HttpStatus(fetched.status))
      ensures apiUrl != "" && fetched.Response? && IsOk(fetched.status) && fetched.body.None? ==> x.outcome == Failure(MalformedJson)
      ensures apiUrl != "" && fetched.Response? && IsOk(fetched.status) && fetched.body == Some(NullBody)
              ==> x.outcome == Failure(BodyIsNull)
    {
      if apiUrl != "" then
        var req := ApiRequest(RequestUrl(apiUrl), "POST", RequestHeaders(env.origin), RequestBody(text, buttonLabel, env));
        match fetched
        case NetworkFailure => ApiExchange(Some(req), Failure(NetworkError))
        case Response(status, body) =>
          if !IsOk(status) then ApiExchange(Some(req), Failure(HttpStatus(status)))
          else match body
            case None => ApiExchange(Some(req), Failure(MalformedJson))
            case Some(NullBody) => ApiExchange(Some(req), Failure(BodyIsNull))
            case Some(Body(rt, _)) => ApiExchange(Some(req), Success(Normalise(rt)))
      else
        ApiExchange(None, Success(
          if useProducts then ApiResponse(Js.Num(1), PRODUCTS_TEXT, Some(SAMPLE_PRODUCTS))
          else ApiResponse(Js.Num(0), GREETING_TEXT, None)))
    }
  }

  /** Whatever text the server sends is ignored by the normalisation. */
  lemma ServerTextIgnored(s: ApiService, text: string, buttonLabel: Option<string>, env: Environment,
                          status: int, rt: Js.Value, t1: Option<string>, t2: Option<string>, coin: bool)
    ensures s.SendMessage(text, buttonLabel, env, Response(status, Some(Body(rt, t1))), coin)
         == s.SendMessage(text, buttonLabel, env, Response(status, Some(Body(rt, t2))), coin)
  {
  }
}
