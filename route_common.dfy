/**
 * What the three route handlers share: the environment keys that select a
 * provider, the outcome of a call to an upstream service, the response
 * they send, and the mapping of a thrown value to a 500 response.
 */
module RouteCommon {
  import opened Wrappers
  import opened Types
  import opened Runtime

  /** The provider keys read from `process.env`. */
  datatype Env = Env(
    finnhubKey: Option<string>,
    alphaVantageKey: Option<string>,
    newsApiKey: Option<string>,
    openAiKey: Option<string>)

  /** A key counts as set when it is defined and not empty. */
  predicate Configured(key: Option<string>)
  {
    key.Some? && key.value != ""
  }

  /**
   * One `fetch` to an upstream service: it rejects, or it answers with an
   * `ok` flag and a body that either decodes to `B` or makes decoding throw
   * with the given message.
   */
  datatype Upstream<B> = NetworkFailure(message: string) | Reply(ok: bool, body: Result<B, string>)

  /** A value caught by a handler's outer `catch`. */
  datatype Thrown = ErrorObject(message: string) | OtherValue

  /** A handler's answer: the HTTP status and the JSON envelope. */
  datatype HttpResponse<T> = HttpResponse(status: nat, body: ApiResponse<T>)

  /** A query parameter that `searchParams.get` returns as null or as the empty string. */
  predicate MissingParam(p: Option<string>)
  {
    p.None? || p.value == ""
  }

  function BadRequest<T>(message: string): (r: HttpResponse<T>)
    ensures r.status == 400 && r.body == ApiResponse(false, None, Some(message))
  {
    HttpResponse(400, ApiResponse(false, None, Some(message)))
  }

  function Ok<T>(data: T): (r: HttpResponse<T>)
    ensures r.status == 200 && r.body == ApiResponse(true, Some(data), None)
  {
    HttpResponse(200, ApiResponse(true, Some(data), None))
  }

  /** The outer `catch`: status 500 with the error's message, or a generic one for a non-Error value. */
  function ServerError<T>(e: Thrown): (r: HttpResponse<T>)
    ensures r.status == 500 && !r.body.success && r.body.data.None? && r.body.error.Some?
    ensures e.ErrorObject? ==> r.body.error.value == e.message
    ensures e.OtherValue? ==> r.body.error.value == "Internal server error"
  {
    var message := match e
      case ErrorObject(m) => m
      case OtherValue => "Internal server error";
    HttpResponse(500, ApiResponse(false, None, Some(message)))
  }

  /** `['positive', 'negative', 'neutral'][Math.floor(draw * 3)]`: each label takes a third of [0, 1). */
  function PickSentiment(draw: Draw): (s: SentimentType)
    ensures s == Positive <==> draw < 1.0 / 3.0
    ensures s == Negative <==> 1.0 / 3.0 <= draw < 2.0 / 3.0
    ensures s == Neutral <==> 2.0 / 3.0 <= draw
  {
    var index := (draw * 3.0).Floor;
    [Positive, Negative, Neutral][index]
  }
}
