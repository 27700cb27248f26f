/** The browser's API client (src/utils/api.ts): `apiCall` builds the fetch
    arguments and classifies what `fetch` and `response.json()` do into the
    parsed body or an `ApiError`; the `api.*` wrappers fix each endpoint's
    method, path and body. `fetch` is an oracle from the request to its
    outcome. Bodies are carried as the JSON value given to `JSON.stringify`. */
module ApiClient {
  import opened Js
  import opened JsonData

  type Headers = map<string, string>

  /** The `options` a wrapper passes (`RequestInit`); absent members are `None`. */
  datatype RequestInit = RequestInit(httpMethod: Option<string>, headers: Option<Headers>, body: Option<Json>)

  /** The two arguments `fetch` receives. */
  datatype FetchRequest = FetchRequest(url: string, httpMethod: Option<string>, headers: Headers, body: Option<Json>)

  /** What `response.json()` does: resolve with the parsed body, or reject (a SyntaxError). */
  datatype Body = Parsed(data: Json) | Unparsable(message: string)

  /** What awaiting `fetch(...)` does: reject with some value, or resolve to a response. */
  datatype FetchOutcome = Rejected(thrown: Thrown) | Responded(ok: bool, status: int, body: Body)

  /** `class ApiError extends Error { status?, response? }` */
  datatype ApiError = ApiError(message: string, status: Option<int>, response: Option<Json>)

  type ApiResult = Result<Json, ApiError>

  const JsonContentType: Headers := map["Content-Type" := "application/json"]
  const NetworkErrorPrefix := "Network error: "

  /** `process.env.NEXT_PUBLIC_API_URL || ''` */
  function BaseUrl(nextPublicApiUrl: Option<string>): string
  {
    if TruthyString(nextPublicApiUrl) then nextPublicApiUrl.value else ""
  }

  /** The arguments of the `fetch` call: the URL is the base followed by the
      endpoint; `{ headers: { 'Content-Type': ..., ...options.headers }, ...options }`
      gives the JSON content type when the caller passes no headers, and the
      caller's own `headers`, replacing the merged object, when it does. */
  function FetchArguments(base: string, endpoint: string, options: RequestInit): (r: FetchRequest)
    ensures r.url == base + endpoint
    ensures r.httpMethod == options.httpMethod && r.body == options.body
    ensures options.headers.None? ==> r.headers == JsonContentType
    ensures options.headers.Some? ==> r.headers == options.headers.value
  {
    var merged := JsonContentType + (if options.headers.Some? then options.headers.value else map[]);
    FetchRequest(base + endpoint, options.httpMethod,
                 if options.headers.Some? then options.headers.value else merged,
                 options.body)
  }

  /** The message of a non-`ok` response: `data.error || \`HTTP error! status: ${status}\``. */
  function HttpErrorMessage(data: Json, status: int): string
    requires !data.JNull?
  {
    var e := Member(data, "error");
    if TruthyAccess(e) then StringOf(e.value) else "HTTP error! status: " + IntToDecimal(status)
  }

  /** `apiCall(endpoint, options)`. */
  function ApiCall(base: string, endpoint: string, options: RequestInit, fetch: FetchRequest -> FetchOutcome): (r: ApiResult)
    ensures var o := fetch(FetchArguments(base, endpoint, options));
      && (r.Success? <==> o.Responded? && o.ok && o.body.Parsed?)
      && (r.Success? ==> r.value == o.body.data)
      && (r.Failure? && r.error.status.Some? <==> o.Responded? && !o.ok && o.body.Parsed? && !o.body.data.JNull?)
      && (r.Failure? && r.error.status.Some? ==>
            r.error == ApiError(HttpErrorMessage(o.body.data, o.status), Some(o.status), Some(o.body.data)))
      && (r.Failure? && r.error.status.None? ==>
            NetworkErrorPrefix <= r.error.message && r.error.response.None?)
      && (o.Rejected? ==> r == Failure(ApiError(NetworkErrorPrefix + MessageOr(o.thrown, "Unknown error"), None, None)))
      && (o.Responded? && o.body.Unparsable? ==> r == Failure(ApiError(NetworkErrorPrefix + o.body.message, None, None)))
      && (o.Responded? && !o.ok && o.body == Parsed(JNull) ==>
            r == Failure(ApiError(NetworkErrorPrefix + NullPropertyMessage("error"), None, None)))
  {
    match fetch(FetchArguments(base, endpoint, options))
    case Rejected(t) => Failure(ApiError(NetworkErrorPrefix + MessageOr(t, "Unknown error"), None, None))
    case Responded(ok, status, body) =>
      match body
      case Unparsable(m) => Failure(ApiError(NetworkErrorPrefix + m, None, None))
      case Parsed(data) =>
        if ok then Success(data)
        // Reading `data.error` of a null body throws a TypeError, which is wrapped.
        else if data.JNull? then Failure(ApiError(NetworkErrorPrefix + NullPropertyMessage("error"), None, None))
        else Failure(ApiError(HttpErrorMessage(data, status), Some(status), Some(data)))
  }

  /** One `api.*` wrapper call: the endpoint and the options it hands to `apiCall`. */
  datatype Call = Call(endpoint: string, options: RequestInit)

  function Invoke(base: string, c: Call, fetch: FetchRequest -> FetchOutcome): ApiResult
  {
    ApiCall(base, c.endpoint, c.options, fetch)
  }

  function Post(endpoint: string, body: Option<Json>): Call
  {
    Call(endpoint, RequestInit(Some("POST"), None, body))
  }

  function StoreUuid(): Call
  {
    Post("/api/storeUUID", None)
  }

  function GenerateQuestions(topic: string, uuid: string): Call
  {
    Post("/api/generateQuestions", Some(JObj(map["topic" := JStr(topic), "uuid" := JStr(uuid)])))
  }

  function GenerateYoutubeQuestions(uuid: string): Call
  {
    Post("/api/generateYoutubeQuestions", Some(JObj(map["uuid" := JStr(uuid)])))
  }

  function GenerateUrlQuestions(url: string, uuid: string): Call
  {
    Post("/api/generateUrlQuestions", Some(JObj(map["url" := JStr(url), "uuid" := JStr(uuid)])))
  }

  function GetYoutubeTranscript(youtubeUrl: string, uuid: string): Call
  {
    Post("/api/getYoutubeTranscript", Some(JObj(map["youtubeUrl" := JStr(youtubeUrl), "uuid" := JStr(uuid)])))
  }

  function StoreUserAnswers(sessionId: string, answers: Json): Call
  {
    Post("/api/storeUserAnswers", Some(JObj(map["sessionId" := JStr(sessionId), "answers" := answers])))
  }

  function GetUserAnswers(sessionId: string): Call
  {
    Call("/api/getUserAnswers?sessionId=" + sessionId, RequestInit(None, None, None))
  }

  function GetQuestions(sessionId: string): Call
  {
    Call("/api/getQuestions?sessionId=" + sessionId, RequestInit(None, None, None))
  }

  /** What `fetch` receives from each wrapper with an empty base URL: every
      wrapper sends the JSON content type, the POST wrappers their fixed body
      keys, and the two readers a GET (no method) with the key in the query. */
  lemma WrapperRequests(s: string, t: string, answers: Json)
    ensures FetchArguments("", StoreUuid().endpoint, StoreUuid().options)
         == FetchRequest("/api/storeUUID", Some("POST"), JsonContentType, None)
    ensures FetchArguments("", GenerateQuestions(s, t).endpoint, GenerateQuestions(s, t).options)
         == FetchRequest("/api/generateQuestions", Some("POST"), JsonContentType,
                         Some(JObj(map["topic" := JStr(s), "uuid" := JStr(t)])))
    ensures FetchArguments("", GenerateYoutubeQuestions(t).endpoint, GenerateYoutubeQuestions(t).options)
         == FetchRequest("/api/generateYoutubeQuestions", Some("POST"), JsonContentType, Some(JObj(map["uuid" := JStr(t)])))
    ensures FetchArguments("", GenerateUrlQuestions(s, t).endpoint, GenerateUrlQuestions(s, t).options)
         == FetchRequest("/api/generateUrlQuestions", Some("POST"), JsonContentType,
                         Some(JObj(map["url" := JStr(s), "uuid" := JStr(t)])))
    ensures FetchArguments("", GetYoutubeTranscript(s, t).endpoint, GetYoutubeTranscript(s, t).options)
         == FetchRequest("/api/getYoutubeTranscript", Some("POST"), JsonContentType,
                         Some(JObj(map["youtubeUrl" := JStr(s), "uuid" := JStr(t)])))
    ensures FetchArguments("", StoreUserAnswers(s, answers).endpoint, StoreUserAnswers(s, answers).options)
         == FetchRequest("/api/storeUserAnswers", Some("POST"), JsonContentType,
                         Some(JObj(map["sessionId" := JStr(s), "answers" := answers])))
    ensures FetchArguments("", GetUserAnswers(s).endpoint, GetUserAnswers(s).options)
         == FetchRequest("/api/getUserAnswers?sessionId=" + s, None, JsonContentType, None)
    ensures FetchArguments("", GetQuestions(s).endpoint, GetQuestions(s).options)
         == FetchRequest("/api/getQuestions?sessionId=" + s, None, JsonContentType, None)
  {
  }
}
