/**
 * The FoodData Central client: an API key read from the environment, an HTTP session
 * that exists only once the client is initialised with a key, and the requests the
 * client builds. The network is a parameter: each request method is given the reply the
 * API would send, and returns the requests it actually sent.
 */
module UsdaClient {
  import opened Wrappers
  import opened Fields
  import opened Text

  const BaseUrl: string := "https://api.nal.usda.gov/fdc/v1"
  const TimeoutSeconds: int := 30
  const UserAgent: string := "USDA-Nutrition-MCP/1.0.0"

  /** The largest page size the client asks the API for. */
  const PageSizeCap: int := 200

  /** The most ids one multiple-foods request may carry. */
  const MaxMultipleFoods: nat := 20

  const NotConfiguredError: string := "USDA client not configured - missing API key"
  const TooManyFoodsError: string := "Maximum 20 foods can be requested at once"

  /** The configured HTTP session: base URL, timeout in seconds and default headers. */
  datatype Session = Session(baseUrl: string, timeout: int, headers: seq<(string, string)>)

  function SessionFor(baseUrl: string, apiKey: string): Session {
    Session(baseUrl, TimeoutSeconds,
      [("X-Api-Key", apiKey), ("Content-Type", "application/json"), ("User-Agent", UserAgent)])
  }

  datatype HttpMethod = HttpGet | HttpPost

  /** What a request carries: a JSON body, or query parameters. */
  datatype Payload =
    | SearchJson(query: string, pageSize: int, pageNumber: Option<int>, dataType: Option<seq<string>>)
    | FoodsJson(fdcIds: seq<int>, format: Option<string>)
      /** `{"format": format}`, or `{}` when `format` is None. */
    | FormatParams(format: Option<string>)
    | HealthParams(query: string, pageSize: int)

  datatype Request = Request(verb: HttpMethod, endpoint: string, payload: Payload)

  /** What the API does with a request: a response with a status and a decoded body, or a transport failure. */
  datatype Reply<J> = Response(status: int, json: J) | TransportError(message: string)

  /** The text of the exception `_make_request` raises for a reply, or the decoded body. */
  function Outcome<J>(reply: Reply<J>): (r: Result<J, string>)
    ensures r.Success? <==> reply.Response? && 200 <= reply.status < 300
  {
    match reply
    case TransportError(m) => Failure(m)
    case Response(status, json) =>
      if 200 <= status < 300 then Success(json) else Failure("USDA API error: " + IntToString(status))
  }

  /** `min(page_size, 200)`; a None page size makes `min` raise `TypeError`, whose text is the error. */
  function ClampPageSize(pageSize: Option<int>): (r: Result<int, string>)
    ensures r.Success? <==> pageSize.Some?
    ensures r.Success? ==> r.value <= PageSizeCap && (r.value == pageSize.value || r.value == PageSizeCap)
    ensures r.Success? && pageSize.value <= PageSizeCap ==> r.value == pageSize.value
  {
    match pageSize
    case None => Failure("'<' not supported between instances of 'int' and 'NoneType'")
    case Some(n) => Success(if PageSizeCap < n then PageSizeCap else n)
  }

  class UsdaClient {
    var apiKey: Option<string>
    var baseUrl: string
    var session: Option<Session>

    /** `USDAClient()`: `envKey` is what `FDC_API_KEY` holds in the environment. */
    constructor(envKey: Option<string>)
      ensures apiKey == envKey && baseUrl == BaseUrl && session == None
    {
      apiKey := envKey;
      baseUrl := BaseUrl;
      session := None;
    }

    /** Creates the HTTP session, unless there is no key. */
    method Initialize()
      modifies this
      ensures apiKey == old(apiKey) && baseUrl == old(baseUrl)
      ensures session == if StrTruthy(apiKey) then Some(SessionFor(baseUrl, apiKey.value)) else old(session)
    {
      if !StrTruthy(apiKey) {
        return;
      }
      session := Some(SessionFor(baseUrl, apiKey.value));
    }

    /** `bool(self.api_key and self.client)` */
    predicate IsConfigured()
      reads this
    {
      StrTruthy(apiKey) && session.Some?
    }

    /** Whether the API answers a one-result search with status 200; `status` is its reply, None if it raised. */
    method HealthCheck(status: Option<int>) returns (ok: bool, sent: seq<Request>)
      ensures !IsConfigured() ==> !ok && sent == []
      ensures IsConfigured() ==> sent == [Request(HttpGet, "/foods/search", HealthParams("apple", 1))]
      ensures ok <==> IsConfigured() && status == Some(200)
    {
      if !IsConfigured() {
        return false, [];
      }
      sent := [Request(HttpGet, "/foods/search", HealthParams("apple", 1))];
      ok := status.Some? && status.value == 200;
    }

    /** Sends `req`, unless the client is not configured, and decodes or rejects the reply. */
    method MakeRequest<J>(req: Request, reply: Reply<J>) returns (r: Result<J, string>, sent: seq<Request>)
      ensures !IsConfigured() ==> r == Failure(NotConfiguredError) && sent == []
      ensures IsConfigured() ==> r == Outcome(reply) && sent == [req]
    {
      if !IsConfigured() {
        return Failure(NotConfiguredError), [];
      }
      sent := [req];
      r := Outcome(reply);
    }

    /**
     * A `/foods/search` POST: the page size capped at 200, the page number as given, and
     * the data types only when the list is non-empty.
     */
    method SearchFoods<J>(query: string, dataType: Option<seq<string>>, pageSize: Option<int>, pageNumber: Option<int>, reply: Reply<J>)
      returns (r: Result<J, string>, sent: seq<Request>)
      ensures ClampPageSize(pageSize).Failure? ==> r == Failure(ClampPageSize(pageSize).error) && sent == []
      ensures ClampPageSize(pageSize).Success? && !IsConfigured() ==> r == Failure(NotConfiguredError) && sent == []
      ensures ClampPageSize(pageSize).Success? && IsConfigured() ==>
        r == Outcome(reply)
        && |sent| == 1 && sent[0].verb == HttpPost && sent[0].endpoint == "/foods/search"
        && sent[0].payload.SearchJson?
        && sent[0].payload.query == query
        && sent[0].payload.pageSize == ClampPageSize(pageSize).value
        && sent[0].payload.pageNumber == pageNumber
        && (sent[0].payload.dataType.Some? <==> SeqTruthy(dataType))
        && (sent[0].payload.dataType.Some? ==> sent[0].payload.dataType == dataType)
    {
      var clamped := ClampPageSize(pageSize);
      if clamped.Failure? {
        return Failure(clamped.error), [];
      }
      var searchData := SearchJson(query, clamped.value, pageNumber, None);
      if SeqTruthy(dataType) {
        searchData := searchData.(dataType := dataType);
      }
      r, sent := MakeRequest(Request(HttpPost, "/foods/search", searchData), reply);
    }

    /** A `/food/{id}` GET, with the format parameter only when the format is non-empty. */
    method GetFoodDetails<J>(fdcId: int, format: Option<string>, reply: Reply<J>)
      returns (r: Result<J, string>, sent: seq<Request>)
      ensures !IsConfigured() ==> r == Failure(NotConfiguredError) && sent == []
      ensures IsConfigured() ==>
        r == Outcome(reply)
        && sent == [Request(HttpGet, "/food/" + IntToString(fdcId), FormatParams(if StrTruthy(format) then format else None))]
    {
      var params := if StrTruthy(format) then FormatParams(format) else FormatParams(None);
      r, sent := MakeRequest(Request(HttpGet, "/food/" + IntToString(fdcId), params), reply);
    }

    /** A `/foods` POST for up to 20 ids; more are refused before anything is sent. */
    method GetMultipleFoods<J>(fdcIds: seq<int>, format: Option<string>, reply: Reply<J>)
      returns (r: Result<J, string>, sent: seq<Request>)
      ensures |fdcIds| > MaxMultipleFoods ==> r == Failure(TooManyFoodsError) && sent == []
      ensures |fdcIds| <= MaxMultipleFoods && !IsConfigured() ==> r == Failure(NotConfiguredError) && sent == []
      ensures |fdcIds| <= MaxMultipleFoods && IsConfigured() ==>
        r == Outcome(reply) && sent == [Request(HttpPost, "/foods", FoodsJson(fdcIds, format))]
    {
      if |fdcIds| > 20 {
        return Failure(TooManyFoodsError), [];
      }
      r, sent := MakeRequest(Request(HttpPost, "/foods", FoodsJson(fdcIds, format)), reply);
    }
  }

  /** A client built and initialised from the environment is configured exactly when the key is non-empty. */
  method StartClient(envKey: Option<string>) returns (c: UsdaClient)
    ensures fresh(c)
    ensures c.IsConfigured() <==> StrTruthy(envKey)
    ensures c.IsConfigured() ==> c.session == Some(SessionFor(BaseUrl, envKey.value))
  {
    c := new UsdaClient(envKey);
    c.Initialize();
  }
}
