/**
 * The shared HTTP client: one transport instance with a fixed base address,
 * timeout and JSON content type, a pass-through request interceptor, and a
 * response interceptor that passes successes through and turns every failure
 * into one uniform `ApiError` shape.
 */
module HttpClient {
  import opened Wrappers
  import opened JsValues

  /** A JSON payload, as carried by `details`, request bodies and response bodies. */
  datatype Json =
    | JNull
    | JBool(b: bool)
    | JNumber(n: int)
    | JString(s: string)
    | JArray(items: seq<Json>)
    | JObject(fields: seq<(string, Json)>)

  /** The body a failed call may carry, with the fields the normaliser reads. */
  datatype ErrorBody = ErrorBody(message: Option<string>, code: Option<string>, details: Option<Json>)

  /** `error.response`: the status and (optional) body of a non-2xx answer. */
  datatype ErrorResponse = ErrorResponse(status: int, data: Option<ErrorBody>)

  /** A transport error: always a message; a response only when the server answered. */
  datatype AxiosError = AxiosError(message: string, response: Option<ErrorResponse>)

  /** The uniform error shape every caller sees. */
  datatype ApiError = ApiError(message: string, code: string, status: int, details: Option<Json>)

  const UnknownErrorCode: string := "UNKNOWN_ERROR"
  const DefaultStatus: int := 500

  /** `error.response?.data` */
  function Body(e: AxiosError): Option<ErrorBody> {
    if e.response.Some? then e.response.value.data else None
  }

  /** `error.response?.data?.message` */
  function ServerMessage(e: AxiosError): Option<string> {
    if Body(e).Some? then Body(e).value.message else None
  }

  /** `error.response?.data?.code` */
  function ServerCode(e: AxiosError): Option<string> {
    if Body(e).Some? then Body(e).value.code else None
  }

  /** `error.response?.status` */
  function ServerStatus(e: AxiosError): Option<int> {
    if e.response.Some? then Some(e.response.value.status) else None
  }

  /**
   * The response interceptor's failure branch: server-supplied fields win when
   * truthy, and fall back to the transport message, the unknown code and 500.
   */
  function Normalise(e: AxiosError): (r: ApiError)
    ensures TruthyString(ServerMessage(e)) ==> r.message == ServerMessage(e).value
    ensures !TruthyString(ServerMessage(e)) ==> r.message == e.message
    ensures r.code != ""
    ensures TruthyString(ServerCode(e)) ==> r.code == ServerCode(e).value
    ensures r.code == UnknownErrorCode <==> !TruthyString(ServerCode(e)) || ServerCode(e) == Some(UnknownErrorCode)
    ensures r.status != 0
    ensures TruthyNumber(ServerStatus(e)) ==> r.status == ServerStatus(e).value
    ensures r.status == DefaultStatus <==> !TruthyNumber(ServerStatus(e)) || ServerStatus(e) == Some(DefaultStatus)
    ensures r.details.Some? <==> Body(e).Some? && Body(e).value.details.Some?
    ensures r.details.Some? ==> r.details == Body(e).value.details
    ensures e.response.None? ==> r == ApiError(e.message, UnknownErrorCode, DefaultStatus, None)
  {
    ApiError(
      OrString(ServerMessage(e), e.message),
      OrString(ServerCode(e), UnknownErrorCode),
      OrNumber(ServerStatus(e), DefaultStatus),
      if Body(e).Some? then Body(e).value.details else None)
  }

  /** A failed call whose server answered with the given error as its status and body. */
  function ServerSent(a: ApiError, transportMessage: string): AxiosError {
    AxiosError(transportMessage, Some(ErrorResponse(a.status, Some(ErrorBody(Some(a.message), Some(a.code), a.details)))))
  }

  /**
   * An error the server reports in the `ApiError` shape itself comes out of
   * the normaliser unchanged, provided none of its fields is falsy.
   */
  lemma NormaliseRecoversServerError(a: ApiError, transportMessage: string)
    requires a.message != "" && a.code != "" && a.status != 0
    ensures Normalise(ServerSent(a, transportMessage)) == a
  {
  }

  /** Normalising is idempotent: re-sending a normalised error yields it again. */
  lemma NormaliseIdempotent(e: AxiosError, transportMessage: string)
    requires Normalise(e).message != "" || transportMessage == ""
    ensures Normalise(ServerSent(Normalise(e), transportMessage)) == Normalise(e)
  {
  }

  // ---- interceptors ----

  /** What a promise settles to: a value, or a rejection reason. */
  datatype Reason = Transport(transportError: AxiosError) | Normalised(apiError: ApiError)
  datatype Settled<T> = Fulfilled(value: T) | Rejected(reason: Reason)

  datatype RequestConfig = RequestConfig(verb: string, url: string, data: Option<Json>)
  datatype HttpResponse = HttpResponse(status: int, data: Json)

  /** The request interceptor's success branch: `(config) => config`. */
  function OnRequest(config: RequestConfig): (r: Settled<RequestConfig>)
    ensures r == Fulfilled(config)
  {
    Fulfilled(config)
  }

  /** The request interceptor's failure branch: `(error) => Promise.reject(error)`. */
  function OnRequestError(reason: Reason): (r: Settled<RequestConfig>)
    ensures r == Rejected(reason)
  {
    Rejected(reason)
  }

  /** The response interceptor's success branch: `(response) => response`. */
  function OnResponse(response: HttpResponse): (r: Settled<HttpResponse>)
    ensures r == Fulfilled(response)
  {
    Fulfilled(response)
  }

  /**
   * The fields the failure branch reads: a transport error's own, and for an
   * already normalised error only its `message` (it has no `response`).
   */
  function AsAxiosError(reason: Reason): (e: AxiosError)
    ensures reason.Transport? ==> e == reason.transportError
    ensures reason.Normalised? ==> e.response.None?
  {
    match reason
    case Transport(error) => error
    case Normalised(error) => AxiosError(error.message, None)
  }

  /** The response interceptor's failure branch: it always rejects, with the normalised error. */
  function OnResponseError(reason: Reason): (r: Settled<HttpResponse>)
    ensures r.Rejected? && r.reason.Normalised?
    ensures reason.Transport? ==> r.reason.apiError == Normalise(reason.transportError)
  {
    Rejected(Normalised(Normalise(AsAxiosError(reason))))
  }

  /** The two handler pairs the module registers. */
  datatype Handler =
    | PassThrough       // value => value, error => Promise.reject(error)
    | NormaliseErrors   // value => value, error => Promise.reject(normalised error)

  /**
   * `promise.then(onFulfilled, onRejected)` with one registered handler pair:
   * both success branches are identities, and a failure goes to the pair's
   * failure branch.
   */
  function Apply<T>(h: Handler, s: Settled<T>): (r: Settled<T>)
    ensures s.Fulfilled? ==> r == s
    ensures h == PassThrough ==> r == s
    ensures h == NormaliseErrors && s.Rejected? ==> r == Rejected(Normalised(Normalise(AsAxiosError(s.reason))))
  {
    match (h, s)
    case (_, Fulfilled(_)) => s
    case (PassThrough, Rejected(reason)) => Rejected(OnRequestError(reason).reason)
    case (NormaliseErrors, Rejected(reason)) => Rejected(OnResponseError(reason).reason)
  }

  /** Each handler pair, applied to a settled request or response, is the pair of functions it names. */
  lemma HandlerPairs(config: RequestConfig, response: HttpResponse, reason: Reason)
    ensures Apply(PassThrough, Fulfilled(config)) == OnRequest(config)
    ensures Apply(PassThrough, Settled<RequestConfig>.Rejected(reason)) == OnRequestError(reason)
    ensures Apply(NormaliseErrors, Fulfilled(response)) == OnResponse(response)
    ensures Apply(NormaliseErrors, Settled<HttpResponse>.Rejected(reason)) == OnResponseError(reason)
  {
  }

  /** The handlers applied one after another, in registration order; no handler turns a failure into a success. */
  function Chain<T>(hs: seq<Handler>, s: Settled<T>): (r: Settled<T>)
    ensures s.Rejected? ==> r.Rejected?
    decreases |hs|
  {
    if hs == [] then s else Chain(hs[1..], Apply(hs[0], s))
  }

  /** Handlers never turn a success into anything else. */
  lemma {:induction false} ChainKeepsSuccess<T>(hs: seq<Handler>, v: T)
    ensures Chain(hs, Fulfilled(v)) == Fulfilled(v)
    decreases |hs|
  {
    if hs != [] {
      ChainKeepsSuccess(hs[1..], v);
    }
  }

  /** A chain of pass-through handlers is the identity. */
  lemma {:induction false} ChainPassThrough<T>(hs: seq<Handler>, s: Settled<T>)
    requires forall i :: 0 <= i < |hs| ==> hs[i] == PassThrough
    ensures Chain(hs, s) == s
    decreases |hs|
  {
    if hs != [] {
      ChainPassThrough(hs[1..], s);
    }
  }

  /** Once a normalising handler is in the chain, every failure reaches the caller normalised. */
  lemma {:induction false} ChainNormalisesFailures<T>(hs: seq<Handler>, s: Settled<T>)
    requires NormaliseErrors in hs
    requires s.Rejected?
    ensures Chain(hs, s).Rejected? && Chain(hs, s).reason.Normalised?
    decreases |hs|
  {
    var next := Apply(hs[0], s);
    if hs[0] == NormaliseErrors {
      if hs[1..] != [] && NormaliseErrors in hs[1..] {
        ChainNormalisesFailures(hs[1..], next);
      } else {
        ChainKeepsNormalised(hs[1..], next);
      }
    } else {
      assert NormaliseErrors in hs[1..];
      ChainNormalisesFailures(hs[1..], next);
    }
  }

  /** A rejection that is already normalised stays a normalised rejection. */
  lemma {:induction false} ChainKeepsNormalised<T>(hs: seq<Handler>, s: Settled<T>)
    requires s.Rejected? && s.reason.Normalised?
    ensures Chain(hs, s).Rejected? && Chain(hs, s).reason.Normalised?
    decreases |hs|
  {
    if hs != [] {
      ChainKeepsNormalised(hs[1..], Apply(hs[0], s));
    }
  }

  /** The shared transport instance and the interceptor lists registration appends to. */
  class AxiosInstance {
    const baseURL: string
    const timeout: nat
    const headers: seq<(string, string)>
    var requestHandlers: seq<Handler>
    var responseHandlers: seq<Handler>

    /** `axios.create({ baseURL, timeout, headers: { 'Content-Type': 'application/json' } })` */
    constructor (baseURL: string, timeout: nat)
      ensures this.baseURL == baseURL && this.timeout == timeout
      ensures headers == [("Content-Type", "application/json")]
      ensures requestHandlers == [] && responseHandlers == []
    {
      this.baseURL := baseURL;
      this.timeout := timeout;
      headers := [("Content-Type", "application/json")];
      requestHandlers := [];
      responseHandlers := [];
    }

    /** `interceptors.request.use(...)`: appends a handler pair and returns its position. */
    method UseRequest(h: Handler) returns (id: nat)
      modifies this
      ensures requestHandlers == old(requestHandlers) + [h]
      ensures responseHandlers == old(responseHandlers)
      ensures id == |old(requestHandlers)|
    {
      id := |requestHandlers|;
      requestHandlers := requestHandlers + [h];
    }

    /** `interceptors.response.use(...)`: appends a handler pair and returns its position. */
    method UseResponse(h: Handler) returns (id: nat)
      modifies this
      ensures responseHandlers == old(responseHandlers) + [h]
      ensures requestHandlers == old(requestHandlers)
      ensures id == |old(responseHandlers)|
    {
      id := |responseHandlers|;
      responseHandlers := responseHandlers + [h];
    }

    /** What a caller's promise settles to once the transport has settled `s`. */
    function Deliver(s: Settled<HttpResponse>): (r: Settled<HttpResponse>)
      reads this
      ensures s.Fulfilled? ==> r == s
      ensures NormaliseErrors in responseHandlers && s.Rejected? ==> r.Rejected? && r.reason.Normalised?
      ensures responseHandlers == [NormaliseErrors] && s.Rejected? && s.reason.Transport? ==>
                r == Rejected(Normalised(Normalise(s.reason.transportError)))
    {
      if s.Fulfilled? then
        ChainKeepsSuccess(responseHandlers, s.value);
        Chain(responseHandlers, s)
      else if NormaliseErrors in responseHandlers then
        ChainNormalisesFailures(responseHandlers, s);
        Chain(responseHandlers, s)
      else
        Chain(responseHandlers, s)
    }
  }

  /** The module's initialisation: create the instance and register both interceptors. */
  method CreateClient(baseURL: string, timeout: nat) returns (client: AxiosInstance)
    ensures fresh(client)
    ensures client.baseURL == baseURL && client.timeout == timeout
    ensures client.headers == [("Content-Type", "application/json")]
    ensures client.requestHandlers == [PassThrough]
    ensures client.responseHandlers == [NormaliseErrors]
  {
    client := new AxiosInstance(baseURL, timeout);
    var _ := client.UseRequest(PassThrough);
    var _ := client.UseResponse(NormaliseErrors);
  }

  /**
   * After initialisation, callers see a successful response unchanged and a
   * transport failure as exactly its normalised error.
   */
  lemma ConfiguredDelivery(response: HttpResponse, e: AxiosError)
    ensures Chain([NormaliseErrors], Fulfilled(response)) == Fulfilled(response)
    ensures Chain([NormaliseErrors], Settled<HttpResponse>.Rejected(Transport(e))) == Rejected(Normalised(Normalise(e)))
    ensures Chain<RequestConfig>([PassThrough], Fulfilled(RequestConfig("GET", "/", None))) == Fulfilled(RequestConfig("GET", "/", None))
  {
  }

  // ---- the three failure kinds of a transport call ----

  /** A timeout: no response, so the transport message, the unknown code and 500. */
  lemma TimeoutNormalised()
    ensures Normalise(AxiosError("timeout of 10000ms exceeded", None))
         == ApiError("timeout of 10000ms exceeded", UnknownErrorCode, DefaultStatus, None)
  {
  }

  /** A 404 whose body names a message and a code keeps both, and its status. */
  lemma NotFoundNormalised()
    ensures Normalise(AxiosError("Request failed with status code 404",
                        Some(ErrorResponse(404, Some(ErrorBody(Some("Not found"), Some("NOT_FOUND"), None))))))
         == ApiError("Not found", "NOT_FOUND", 404, None)
  {
  }

  /** An answer with status 0 and an empty message falls back on every field. */
  lemma FalsyFieldsFallBack(transportMessage: string, details: Option<Json>)
    ensures Normalise(AxiosError(transportMessage, Some(ErrorResponse(0, Some(ErrorBody(Some(""), Some(""), details))))))
         == ApiError(transportMessage, UnknownErrorCode, DefaultStatus, details)
  {
  }
}
