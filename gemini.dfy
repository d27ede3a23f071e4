/**
 * The completion call to the Gemini generateContent endpoint: model
 * defaulting, the request it sends, and how it reads the answer. The HTTP
 * round trip itself is a parameter (`transport`).
 */
module Gemini {
  import opened Wrappers

  datatype Part = Part(text: string)

  /** One turn of the request; `role` is "user" or "model". */
  datatype Message = Message(role: string, parts: seq<Part>)

  datatype GeminiRequest = GeminiRequest(contents: seq<Message>)

  datatype Content = Content(parts: seq<Part>, role: string)

  datatype Candidate = Candidate(content: Content)

  datatype GeminiResponse = GeminiResponse(candidates: seq<Candidate>)

  /** The POST request: endpoint URL, the `X-goog-api-key` header and the JSON body. */
  datatype HttpCall = HttpCall(url: string, apiKey: string, body: GeminiRequest)

  /**
   * What the transport yields for a call: a failure before any status was
   * read, or a status with the raw body and the outcome of decoding it.
   */
  datatype Exchange =
    | TransportFailed(reason: string)
    | Received(status: int, body: string, decoded: Result<GeminiResponse, string>)

  const DefaultModel := "gemini-1.5-flash"
  const EndpointPrefix := "https://generativelanguage.googleapis.com/v1beta/models/"
  const EndpointSuffix := ":generateContent"
  const StatusErrorPrefix := "Gemini error: "
  const NoCandidatesError := "No candidates or parts returned"

  /** An empty model name selects the provider default. */
  function ResolveModel(model: string): (m: string)
    ensures m != ""
    ensures model != "" ==> m == model
    ensures model == "" ==> m == DefaultModel
  {
    if model == "" then DefaultModel else model
  }

  /** The generateContent URL for a model. */
  function Endpoint(model: string): string
  {
    EndpointPrefix + model + EndpointSuffix
  }

  /** The model an endpoint URL names, if it has the generateContent shape. */
  function EndpointModel(url: string): (r: Option<string>)
    ensures r.Some? ==> Endpoint(r.value) == url
  {
    var p, s := |EndpointPrefix|, |EndpointSuffix|;
    if |url| >= p + s && url[..p] == EndpointPrefix && url[|url| - s..] == EndpointSuffix then
      assert url == url[..p] + url[p..|url| - s] + url[|url| - s..];
      Some(url[p..|url| - s])
    else
      None
  }

  /** The URL names exactly the model it was built from. */
  lemma EndpointRoundTrip(model: string)
    ensures EndpointModel(Endpoint(model)) == Some(model)
  {
  }

  /** Distinct models are sent to distinct URLs. */
  lemma EndpointInjective(a: string, b: string)
    requires Endpoint(a) == Endpoint(b)
    ensures a == b
  {
    EndpointRoundTrip(a);
    EndpointRoundTrip(b);
  }

  /**
   * The request sent for `messages` and `model`. `http.NewRequest` yields no
   * request when the URL does not parse (a model name with a bad escape such
   * as "%zz", or a control character); `parses` is Go's URL parser's verdict.
   */
  function BuildCall(messages: seq<Message>, model: string, apiKey: string, parses: string -> bool): (call: Option<HttpCall>)
    ensures call.Some? <==> parses(Endpoint(ResolveModel(model)))
    ensures call.Some? ==> call.value.body.contents == messages
    ensures call.Some? ==> call.value.apiKey == apiKey
    ensures call.Some? ==> EndpointModel(call.value.url) == Some(ResolveModel(model))
  {
    var url := Endpoint(ResolveModel(model));
    if parses(url) then
      EndpointRoundTrip(ResolveModel(model));
      Some(HttpCall(url, apiKey, GeminiRequest(messages)))
    else
      None
  }

  /** The text of part 0 of candidate 0, when there is one. */
  function FirstText(resp: GeminiResponse): Option<string>
  {
    if |resp.candidates| > 0 && |resp.candidates[0].content.parts| > 0 then
      Some(resp.candidates[0].content.parts[0].text)
    else
      None
  }

  /** Success exactly when the transport answered 200 with a decodable first part. */
  ghost predicate Answerable(ex: Exchange)
  {
    ex.Received? && ex.status == 200 && ex.decoded.Ok? && FirstText(ex.decoded.value).Some?
  }

  /**
   * How a transport outcome becomes the completion: transport errors pass
   * through, a status other than 200 is an error quoting the body, an
   * undecodable body is the decoder's error, an answer without a first part
   * is an error, and otherwise the text of that first part is the result.
   */
  function Interpret(ex: Exchange): (r: Result<string, string>)
    ensures ex.TransportFailed? ==> r == Err(ex.reason)
    ensures ex.Received? && ex.status != 200 ==> r == Err(StatusErrorPrefix + ex.body)
    ensures ex.Received? && ex.status == 200 && ex.decoded.Err? ==> r == Err(ex.decoded.error)
    ensures r.Ok? <==> Answerable(ex)
    ensures r.Ok? ==> Some(r.value) == FirstText(ex.decoded.value)
  {
    match ex
    case TransportFailed(reason) => Err(reason)
    case Received(status, body, decoded) =>
      if status != 200 then Err(StatusErrorPrefix + body)
      else
        match decoded
        case Err(e) => Err(e)
        case Ok(resp) =>
          if |resp.candidates| == 0 || |resp.candidates[0].content.parts| == 0 then Err(NoCandidatesError)
          else Ok(resp.candidates[0].content.parts[0].text)
  }

  /** A non-200 answer is an error whose message ends with the whole response body. */
  lemma StatusErrorQuotesBody(status: int, body: string, decoded: Result<GeminiResponse, string>)
    requires status != 200
    ensures var r := Interpret(Received(status, body, decoded));
            r.Err? && |r.error| >= |body| && r.error[|r.error| - |body|..] == body
  {
  }

  /** Zero candidates, or a first candidate without parts, is never a success. */
  lemma EmptyAnswerFails(body: string, resp: GeminiResponse)
    requires |resp.candidates| == 0 || |resp.candidates[0].content.parts| == 0
    ensures Interpret(Received(200, body, Ok(resp))) == Err(NoCandidatesError)
  {
  }

  /**
   * Only the first part of the first candidate matters: answers that agree
   * on it give the same completion, whatever else they carry. Its text is
   * not checked, so an empty first part is a successful empty completion.
   */
  lemma OnlyFirstPartCounts(b1: string, r1: GeminiResponse, b2: string, r2: GeminiResponse)
    requires FirstText(r1) == FirstText(r2)
    ensures Interpret(Received(200, b1, Ok(r1))) == Interpret(Received(200, b2, Ok(r2)))
  {
  }

  /**
   * How a completion call ends: it returns a text or an error, or it panics
   * when setting a header on the nil request left by an unparsable URL.
   */
  datatype Outcome = Returned(result: Result<string, string>) | Panicked

  /** GetGeminiCompletion: build the call, hand it to the transport, interpret the outcome. */
  function GetGeminiCompletion(
    messages: seq<Message>, model: string, apiKey: string,
    parses: string -> bool, transport: HttpCall -> Exchange): (r: Outcome)
    ensures r.Panicked? <==> !parses(Endpoint(ResolveModel(model)))
    ensures r.Returned? ==>
              var ex := transport(BuildCall(messages, model, apiKey, parses).value);
              && (r.result.Ok? <==> Answerable(ex))
              && (r.result.Ok? ==> Some(r.result.value) == FirstText(ex.decoded.value))
              && (ex.TransportFailed? ==> r.result == Err(ex.reason))
  {
    match BuildCall(messages, model, apiKey, parses)
    case None => Panicked
    case Some(call) => Returned(Interpret(transport(call)))
  }
}
