/**
 * The `analyze-mood` edge function (supabase/functions/analyze-mood/index.ts):
 * one request in, one response out. The environment's API key, the request's
 * parsed JSON body, the AI gateway's reply and `JSON.parse` are inputs, so
 * the handler is a pure function of them.
 */
module AnalyzeMood {
  import opened Wrappers

  /** A thrown value: an `Error` with its message, or anything else. */
  datatype Thrown = ErrorObj(message: string) | NonError

  /** The fields the handler destructures from the request body. */
  datatype Body = Body(imageBase64: Option<string>, userInput: Option<string>, analysisType: Option<string>)

  /**
   * An incoming request. `body` is what `await req.json()` produced, or
   * what it threw (a body that is not JSON, or `null`, which cannot be
   * destructured).
   */
  datatype Request = Request(httpMethod: string, body: Result<Body, Thrown>)

  /** The three instructions; their wording is not reproduced. */
  datatype Prompt = FacialPrompt | JournalPrompt | ChatPrompt

  /** One chat-completion message sent to the gateway. */
  datatype ChatMessage =
    | System(prompt: Prompt)
    | UserText(text: Option<string>)
    | UserImage(caption: string, imageUrl: string)

  const ImageCaption := "Please analyze this person's facial expression and determine their emotional state."
  const ImagePrefix := "data:image/jpeg;base64,"

  const MissingKeyMessage := "LOVABLE_API_KEY is not configured"
  const InvalidTypeMessage := "Invalid analysis type"
  const RateLimitMessage := "Rate limit exceeded. Please try again in a moment."
  const CreditsMessage := "AI credits exhausted. Please add funds."
  const UpstreamFailedMessage := "AI analysis failed"
  const DefaultErrorMessage := "Analysis failed"

  /**
   * The gateway's reply: its HTTP status, and what reading its JSON body
   * gave — the first choice's message content (`None` when that path is
   * missing), or what the read threw.
   */
  datatype Upstream = Upstream(status: int, content: Result<Option<string>, Thrown>)

  /** `response.ok`. */
  predicate IsOk(status: int) {
    200 <= status <= 299
  }

  /** What the handler sends back as the analysis: the parsed JSON, or `{response: content}`. */
  datatype Analysis<J> = Parsed(json: J) | Fallback(response: Option<string>)

  datatype ResponseBody<J> = NullBody | ErrorBody(error: string) | ResultBody(result: Analysis<J>)

  /** The CORS headers alone, or the CORS headers plus a JSON content type. */
  datatype Headers = Cors | CorsJson

  datatype Response<J> = Response(status: int, body: ResponseBody<J>, headers: Headers)

  /** A template literal's rendering of an optional string. */
  function Interpolate(s: Option<string>): (r: string)
    ensures s.Some? ==> r == s.value
    ensures s.None? ==> r == "undefined"
  {
    if s.Some? then s.value else "undefined"
  }

  /**
   * The analysis-type dispatch: each of "facial", "journal" and "chat"
   * selects its own system instruction and user message; any other type,
   * or none, is an error.
   */
  function Messages(body: Body): (r: Result<seq<ChatMessage>, Thrown>)
    ensures body.analysisType == Some("facial") ==>
              r == Ok([System(FacialPrompt), UserImage(ImageCaption, ImagePrefix + Interpolate(body.imageBase64))])
    ensures body.analysisType == Some("journal") ==> r == Ok([System(JournalPrompt), UserText(body.userInput)])
    ensures body.analysisType == Some("chat") ==> r == Ok([System(ChatPrompt), UserText(body.userInput)])
    ensures r.Err? <==> body.analysisType !in {Some("facial"), Some("journal"), Some("chat")}
    ensures r.Err? ==> r.error == ErrorObj(InvalidTypeMessage)
  {
    match body.analysisType
    case Some("facial") =>
      Ok([System(FacialPrompt), UserImage(ImageCaption, ImagePrefix + Interpolate(body.imageBase64))])
    case Some("journal") => Ok([System(JournalPrompt), UserText(body.userInput)])
    case Some("chat") => Ok([System(ChatPrompt), UserText(body.userInput)])
    case _ => Err(ErrorObj(InvalidTypeMessage))
  }

  /** The message list is the same for every type it accepts in shape: an instruction, then the user's turn. */
  lemma MessagesShape(body: Body)
    requires Messages(body).Ok?
    ensures |Messages(body).value| == 2 && Messages(body).value[0].System?
    ensures Messages(body).value[1].UserImage? <==> body.analysisType == Some("facial")
  {
  }

  /** `!LOVABLE_API_KEY`: the key is unset or empty. */
  predicate KeyMissing(apiKey: Option<string>) {
    apiKey.None? || apiKey.value == ""
  }

  /** The first index of `c` in `s`. */
  function FirstIndex(s: string, c: char): (r: Option<nat>)
    ensures r.Some? ==> r.value < |s| && s[r.value] == c && forall k :: 0 <= k < r.value ==> s[k] != c
    ensures r.None? ==> forall k :: 0 <= k < |s| ==> s[k] != c
  {
    if |s| == 0 then None
    else if s[0] == c then Some(0)
    else
      var r := FirstIndex(s[1..], c);
      if r.Some? then Some(r.value + 1) else None
  }

  /** The last index of `c` in `s`. */
  function LastIndex(s: string, c: char): (r: Option<nat>)
    ensures r.Some? ==> r.value < |s| && s[r.value] == c && forall k :: r.value < k < |s| ==> s[k] != c
    ensures r.None? ==> forall k :: 0 <= k < |s| ==> s[k] != c
  {
    if |s| == 0 then None
    else if s[|s| - 1] == c then Some(|s| - 1)
    else LastIndex(s[..|s| - 1], c)
  }

  /**
   * The bounds of the match of `/\{[\s\S]*\}/`: the leftmost '{' and the
   * rightmost '}' after it. There is a match exactly when some '{' comes
   * before some '}'; the match starts at the first '{' and ends at the last
   * '}' of the whole text.
   */
  function BraceSpan(s: string): (r: Option<(nat, nat)>)
    ensures r.Some? ==>
              && r.value.0 < r.value.1 < |s|
              && s[r.value.0] == '{' && s[r.value.1] == '}'
              && (forall k :: 0 <= k < r.value.0 ==> s[k] != '{')
              && (forall k :: r.value.1 < k < |s| ==> s[k] != '}')
    ensures r.None? <==> !exists i, j :: 0 <= i < j < |s| && s[i] == '{' && s[j] == '}'
  {
    var first := FirstIndex(s, '{');
    var last := LastIndex(s, '}');
    if first.Some? && last.Some? && first.value < last.value then Some((first.value, last.value)) else None
  }

  /** A match is the widest brace-delimited part of the text: it contains every other one. */
  lemma BraceSpanWidest(s: string, i: nat, j: nat)
    requires i < j < |s| && s[i] == '{' && s[j] == '}'
    ensures BraceSpan(s).Some?
    ensures BraceSpan(s).value.0 <= i && j <= BraceSpan(s).value.1
  {
    var r := BraceSpan(s);
    assert r.Some?;
    assert s[i] == '{';
    assert s[j] == '}';
  }

  /**
   * The `try` around extraction: a missing content makes `content.match`
   * throw, and the handler falls back; text with no brace span, or whose
   * span does not parse, falls back to `{response: content}`; otherwise the
   * parsed span is the analysis.
   */
  function Extract<J>(content: Option<string>, parse: string -> Option<J>): (a: Analysis<J>)
    ensures a.Fallback? ==> a.response == content
    ensures a.Parsed? <==> content.Some? && BraceSpan(content.value).Some?
                            && parse(content.value[BraceSpan(content.value).value.0 .. BraceSpan(content.value).value.1 + 1]).Some?
    ensures a.Parsed? ==>
              a == Parsed(parse(content.value[BraceSpan(content.value).value.0 .. BraceSpan(content.value).value.1 + 1]).value)
  {
    if content.None? then Fallback(None)
    else
      match BraceSpan(content.value)
      case None => Fallback(content)
      case Some((i, j)) =>
        match parse(content.value[i..j + 1])
        case None => Fallback(content)
        case Some(v) => Parsed(v)
  }

  /** A reply with no braces at all is always passed through as `{response: content}`. */
  lemma NoBracesFallsBack<J>(text: string, parse: string -> Option<J>)
    requires forall k :: 0 <= k < |text| ==> text[k] != '{'
    ensures Extract(Some(text), parse) == Fallback(Some(text))
  {
    assert BraceSpan(text).None?;
  }

  /** The error envelope: status 500 with the Error's message, or the default one. */
  function ErrorReply<J>(t: Thrown): (r: Response<J>)
    ensures r.status == 500 && r.headers == CorsJson && r.body.ErrorBody?
    ensures r.body.error == (if t.ErrorObj? then t.message else DefaultErrorMessage)
  {
    Response(500, ErrorBody(if t.ErrorObj? then t.message else DefaultErrorMessage), CorsJson)
  }

  /**
   * The messages the handler sends to the gateway, or `None` when it
   * answers without calling it.
   */
  function Outgoing(req: Request, apiKey: Option<string>): (r: Option<seq<ChatMessage>>)
    ensures r.Some? <==> req.httpMethod != "OPTIONS" && req.body.Ok? && !KeyMissing(apiKey)
                         && Messages(req.body.value).Ok?
    ensures r.Some? ==> r.value == Messages(req.body.value).value
  {
    if req.httpMethod == "OPTIONS" || req.body.Err? || KeyMissing(apiKey) then None
    else
      match Messages(req.body.value)
      case Ok(ms) => Some(ms)
      case Err(_) => None
  }

  /**
   * What the gateway's reply becomes: 429 and 402 are passed on with their
   * own messages, every other failing status is a 500 "AI analysis
   * failed", and a successful one is the extracted analysis with status 200.
   */
  function FromUpstream<J>(u: Upstream, parse: string -> Option<J>): (r: Response<J>)
    ensures r.headers == CorsJson
    ensures u.status == 429 ==> r == Response(429, ErrorBody(RateLimitMessage), CorsJson)
    ensures u.status == 402 ==> r == Response(402, ErrorBody(CreditsMessage), CorsJson)
    ensures !IsOk(u.status) && u.status != 429 && u.status != 402 ==>
              r == Response(500, ErrorBody(UpstreamFailedMessage), CorsJson)
    ensures IsOk(u.status) && u.content.Ok? ==> r == Response(200, ResultBody(Extract(u.content.value, parse)), CorsJson)
    ensures IsOk(u.status) && u.content.Err? ==> r == ErrorReply(u.content.error)
  {
    if !IsOk(u.status) then
      if u.status == 429 then Response(429, ErrorBody(RateLimitMessage), CorsJson)
      else if u.status == 402 then Response(402, ErrorBody(CreditsMessage), CorsJson)
      else ErrorReply(ErrorObj(UpstreamFailedMessage))
    else
      match u.content
      case Ok(content) => Response(200, ResultBody(Extract(content, parse)), CorsJson)
      case Err(t) => ErrorReply(t)
  }

  /**
   * The handler. `upstream` is what the gateway call gave (or what the call
   * threw); it is only consulted when `Outgoing` sends something.
   */
  function Handle<J>(req: Request, apiKey: Option<string>, upstream: Result<Upstream, Thrown>,
                     parse: string -> Option<J>): (r: Response<J>)
    ensures req.httpMethod == "OPTIONS" ==> r == Response(200, NullBody, Cors)
    ensures req.httpMethod != "OPTIONS" ==> r.headers == CorsJson
    ensures req.httpMethod != "OPTIONS" && req.body.Err? ==> r == ErrorReply(req.body.error)
    ensures req.httpMethod != "OPTIONS" && req.body.Ok? && KeyMissing(apiKey) ==>
              r == Response(500, ErrorBody(MissingKeyMessage), CorsJson)
    ensures req.httpMethod != "OPTIONS" && req.body.Ok? && !KeyMissing(apiKey) && Messages(req.body.value).Err? ==>
              r == Response(500, ErrorBody(InvalidTypeMessage), CorsJson)
    ensures Outgoing(req, apiKey).Some? ==>
              r == (if upstream.Err? then ErrorReply(upstream.error) else FromUpstream(upstream.value, parse))
  {
    if req.httpMethod == "OPTIONS" then Response(200, NullBody, Cors)
    else if req.body.Err? then ErrorReply(req.body.error)
    else if KeyMissing(apiKey) then ErrorReply(ErrorObj(MissingKeyMessage))
    else
      match Messages(req.body.value)
      case Err(t) => ErrorReply(t)
      case Ok(_) =>
        match upstream
        case Err(t) => ErrorReply(t)
        case Ok(u) => FromUpstream(u, parse)
  }

  /** Only the four statuses the handler writes can come back. */
  lemma HandleStatuses<J>(req: Request, apiKey: Option<string>, upstream: Result<Upstream, Thrown>,
                          parse: string -> Option<J>)
    ensures Handle(req, apiKey, upstream, parse).status in {200, 402, 429, 500}
    ensures Handle(req, apiKey, upstream, parse).status == 500 ==> Handle(req, apiKey, upstream, parse).body.ErrorBody?
    ensures Handle(req, apiKey, upstream, parse).status == 200 ==> !Handle(req, apiKey, upstream, parse).body.ErrorBody?
  {
    var r := Handle(req, apiKey, upstream, parse);
    if req.httpMethod != "OPTIONS" && Outgoing(req, apiKey).Some? && upstream.Ok? {
      var u := upstream.value;
      if IsOk(u.status) && u.content.Ok? {
        assert r.status == 200;
      }
    }
  }

  /**
   * A request that sends nothing to the gateway (a preflight, a bad body,
   * a missing key, an unknown type) gets the same answer whatever the
   * gateway would have said: no analysis is performed for it.
   */
  lemma NoCallNoDependence<J>(req: Request, apiKey: Option<string>, u1: Result<Upstream, Thrown>,
                              u2: Result<Upstream, Thrown>, parse: string -> Option<J>)
    requires Outgoing(req, apiKey).None?
    ensures Handle(req, apiKey, u1, parse) == Handle(req, apiKey, u2, parse)
  {
    if req.httpMethod != "OPTIONS" && req.body.Ok? && !KeyMissing(apiKey) {
      assert Messages(req.body.value).Err?;
    }
  }
}
