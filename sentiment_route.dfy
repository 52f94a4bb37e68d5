/**
 * POST /api/sentiment with body {symbol, text}: an OpenAI analysis when its
 * key is set, otherwise a generated one; any OpenAI failure also falls back
 * to the generated analysis.
 */
module SentimentRoute {
  import opened Wrappers
  import opened Types
  import opened Runtime
  import opened RouteCommon
  import ApiClient

  /**
   * The five `Math.random()` draws of one mock analysis, in call order: the
   * label, then one score candidate per label (all three are computed), then
   * the confidence.
   */
  datatype MockDraws = MockDraws(pick: Draw, positive: Draw, negative: Draw, neutral: Draw, confidence: Draw)

  /** The score candidate for a label, from the draw reserved for it. */
  function MockScore(kind: SentimentType, draws: MockDraws): real
  {
    match kind
    case Positive => draws.positive as real * 0.5 + 0.5
    case Negative => draws.negative as real * -0.5 - 0.5
    case Neutral => (draws.neutral as real - 0.5) * 0.4
  }

  /**
   * `generateMockSentiment`: a random label, a score on that label's side
   * ([0.5, 1) positive, (-1, -0.5] negative, [-0.2, 0.2) neutral), a
   * confidence in [0.7, 1), and a summary naming the label and the symbol.
   * The text is not looked at.
   */
  function GenerateMockSentiment(symbol: string, text: string, draws: MockDraws, now: int): (d: SentimentData)
    ensures d.symbol == symbol && d.timestamp == now
    ensures d.sentiment == PickSentiment(draws.pick)
    ensures d.sentiment == Positive ==> 0.5 <= d.score < 1.0
    ensures d.sentiment == Negative ==> -1.0 < d.score <= -0.5
    ensures d.sentiment == Neutral ==> -0.2 <= d.score < 0.2
    ensures 0.7 <= d.confidence < 1.0
    ensures d.summary == "Mock analysis: " + SentimentName(d.sentiment) + " sentiment detected for " + symbol
    ensures InDocumentedRange(d)
  {
    var picked := PickSentiment(draws.pick);
    SentimentData(symbol, picked, MockScore(picked, draws), draws.confidence as real * 0.3 + 0.7,
                  "Mock analysis: " + SentimentName(picked) + " sentiment detected for " + symbol, now)
  }

  /** The fields of the model's JSON answer once parsed. */
  datatype OpenAiVerdict = OpenAiVerdict(sentiment: SentimentType, score: real, confidence: real, summary: string)

  /**
   * One chat-completion call: the SDK throws, or it answers with the first
   * choice's content (possibly missing) and what parsing that content
   * yields (or the message it throws with).
   */
  datatype OpenAiReply = ApiFailure(message: string) | Completion(content: Option<string>, parsed: Result<OpenAiVerdict, string>)

  /** `analyzeSentimentWithOpenAI`: fails without a key, on an SDK error, on an empty answer or on an unparsable one. */
  function AnalyzeSentimentWithOpenAI(key: Option<string>, reply: OpenAiReply, symbol: string, now: int)
    : (r: Result<SentimentData, string>)
    ensures !Configured(key) ==> r == Failure("OpenAI API key not configured")
    ensures Configured(key) && reply.Completion? && (reply.content.None? || reply.content.value == "") ==>
      r == Failure("No response from OpenAI")
    ensures r.Success? <==>
      Configured(key) && reply.Completion? && reply.content.Some? && reply.content.value != "" && reply.parsed.Success?
    ensures r.Success? ==>
      var v := reply.parsed.value;
      r.value == SentimentData(symbol, v.sentiment, v.score, v.confidence, v.summary, now)
  {
    if !Configured(key) then Failure("OpenAI API key not configured")
    else match reply
      case ApiFailure(m) => Failure(m)
      case Completion(content, parsed) =>
        if content.None? || content.value == "" then Failure("No response from OpenAI")
        else match parsed
          case Failure(m) => Failure(m)
          case Success(v) => Success(SentimentData(symbol, v.sentiment, v.score, v.confidence, v.summary, now))
  }

  /** The model's numbers are passed on unchecked: a score of 5 comes back as 5. */
  lemma OpenAiScoreUnchecked()
    ensures var r := AnalyzeSentimentWithOpenAI(Some("key"), Completion(Some("{}"), Success(OpenAiVerdict(Positive, 5.0, 0.9, ""))), "AAPL", 0);
      r.Success? && !InDocumentedRange(r.value)
  {
  }

  /** The request body: `request.json()` throws, or yields the two fields (each possibly missing). */
  datatype RequestBody = Malformed(thrown: Thrown) | Fields(symbol: Option<string>, text: Option<string>)

  /** The analysis chosen by the inner `try`: OpenAI when configured and successful, the mock otherwise. */
  function ProviderSentiment(symbol: string, text: string, env: Env, openAi: OpenAiReply, draws: MockDraws, now: int)
    : (d: SentimentData)
    ensures d.symbol == symbol
  {
    var mock := GenerateMockSentiment(symbol, text, draws, now);
    if Configured(env.openAiKey) then
      match AnalyzeSentimentWithOpenAI(env.openAiKey, openAi, symbol, now)
      case Success(d) => d
      case Failure(_) => mock
    else mock
  }

  /**
   * The handler: 500 when the body cannot be read, 400 when the symbol or
   * the text is missing or empty, otherwise 200 with an analysis for the
   * symbol exactly as sent.
   */
  function Post(body: RequestBody, env: Env, openAi: OpenAiReply, draws: MockDraws, now: int): (r: HttpResponse<SentimentData>)
    ensures body.Malformed? ==> r == ServerError(body.thrown)
    ensures r.status == 400 <==> body.Fields? && (MissingParam(body.symbol) || MissingParam(body.text))
    ensures r.status == 400 ==> r.body == ApiResponse(false, None, Some("Symbol and text are required"))
    ensures body.Fields? && r.status != 400 ==>
      r.status == 200 && r.body.success && r.body.error.None? && r.body.data.Some? &&
      r.body.data.value.symbol == body.symbol.value
    ensures body.Fields? && !MissingParam(body.symbol) && !MissingParam(body.text) ==>
      r.body.data == Some(ProviderSentiment(body.symbol.value, body.text.value, env, openAi, draws, now))
  {
    match body
    case Malformed(e) => ServerError(e)
    case Fields(symbol, text) =>
      if MissingParam(symbol) || MissingParam(text) then BadRequest("Symbol and text are required")
      else Ok(ProviderSentiment(symbol.value, text.value, env, openAi, draws, now))
  }

  /** Without a key, or when OpenAI fails, the mock answers; otherwise OpenAI's result does. */
  lemma SentimentPrecedence(symbol: string, text: string, env: Env, openAi: OpenAiReply, draws: MockDraws, now: int)
    ensures var d := ProviderSentiment(symbol, text, env, openAi, draws, now);
      var ai := AnalyzeSentimentWithOpenAI(env.openAiKey, openAi, symbol, now);
      var mock := GenerateMockSentiment(symbol, text, draws, now);
      (!Configured(env.openAiKey) ==> d == mock) &&
      (ai.Success? ==> d == ai.value) &&
      (ai.Failure? ==> d == mock)
  {
  }

  /** Seen through the API client: a complete request is always answered with the chosen analysis of that symbol. */
  lemma ClientAlwaysGetsAnalysis(symbol: string, text: string, env: Env, openAi: OpenAiReply, draws: MockDraws, now: int)
    requires symbol != "" && text != ""
    ensures var response := Post(Fields(Some(symbol), Some(text)), env, openAi, draws, now);
      var outcome := ApiClient.AnalyzeSentiment(symbol, text, response).outcome;
      outcome == Success(ProviderSentiment(symbol, text, env, openAi, draws, now)) && outcome.value.symbol == symbol
  {
  }

  /**
   * An empty text is sent as is and refused by the handler with a 400; the
   * caller sees axios's status error, not the handler's "Symbol and text
   * are required".
   */
  lemma EmptyTextRefusedByHandler(symbol: string, env: Env, openAi: OpenAiReply, draws: MockDraws, now: int)
    ensures var response := Post(Fields(Some(symbol), Some("")), env, openAi, draws, now);
      var call := ApiClient.AnalyzeSentiment(symbol, "", response);
      response.body.error == Some("Symbol and text are required") &&
      call.request == ApiClient.Post("/sentiment", symbol, "") &&
      call.outcome == Failure("Request failed with status code 400")
  {
    ApiClient.StatusMessages();
  }
}
