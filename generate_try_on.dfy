/** The server-side relay: a stateless decision from the incoming request,
    the presence of the service key and what the endpoint did, to one HTTP
    response. */
module RelayHandler {
  import opened Common
  import opened Text
  import opened Types
  import opened GenAi

  /** The JSON body as the handler destructures it, or the message of the
      error thrown while reading it. */
  datatype RequestBody =
    | Body(personImage: Option<string>, clothingImage: Option<string>)
    | Unreadable(message: Option<string>)

  datatype Request = Request(httpMethod: string, body: RequestBody)

  datatype ResponseBody = PlainText(text: string) | JsonResult(result: string) | JsonError(error: string)

  datatype Response = Response(status: nat, body: ResponseBody)

  const MethodNotAllowedText: string := "Method Not Allowed"
  const MissingImagesError: string := "Missing images"
  const ConfigurationError: string := "Server configuration error"
  const NoImageError: string := "No image generated"
  const TrafficError: string := "Traffic is high. Please wait 1 minute and try again."
  const GenericError: string := "Failed to generate try-on image."

  /** The message of the catch block: the traffic notice when the error
      mentions 429, otherwise the generic failure. */
  function ErrorMessage(message: Option<string>): (m: string)
    ensures m == TrafficError <==> message.Some? && Contains(message.value, "429")
    ensures m == TrafficError || m == GenericError
  {
    if message.Some? && Contains(message.value, "429") then TrafficError else GenericError
  }

  /** The response sent once the endpoint has answered: the first image of the
      first candidate, whatever its finish reason, or the no-image error. */
  function RespondToGeneration(response: GenerateContentResponse): (r: Response)
    ensures r.status == 200 <==> FirstCandidateImage(response).Some?
    ensures r.status == 200 ==> r.body == JsonResult(PngDataUriPrefix + FirstCandidateImage(response).value)
    ensures r.status != 200 ==> r == Response(500, JsonError(NoImageError))
  {
    match FirstCandidateImage(response)
      case Some(data) => Response(200, JsonResult(PngDataUriPrefix + data))
      case None => Response(500, JsonError(NoImageError))
  }

  /** `handler`: method check, then the body, then the key, then the call. */
  function Handle(request: Request, apiKey: Option<string>, remote: RemoteCall): (r: Response)
    ensures r.status == 405 <==> request.httpMethod != "POST"
    ensures r.status == 405 ==> r.body == PlainText(MethodNotAllowedText)
    ensures r.status == 400 <==>
              request.httpMethod == "POST" && request.body.Body? &&
              (!Truthy(request.body.personImage) || !Truthy(request.body.clothingImage))
    ensures r.status == 400 ==> r.body == JsonError(MissingImagesError)
    ensures r.status == 200 <==> r.body.JsonResult?
    ensures r.status == 200 ==>
              request.httpMethod == "POST" && request.body.Body? && Truthy(apiKey) &&
              remote.Responded? && FirstCandidateImage(remote.response).Some? &&
              r.body.result == PngDataUriPrefix + FirstCandidateImage(remote.response).value
    ensures r.status in {200, 400, 405, 500}
    ensures r.status == 500 ==>
              r.body in {JsonError(ConfigurationError), JsonError(NoImageError), JsonError(TrafficError), JsonError(GenericError)}
    ensures request.httpMethod == "POST" && request.body.Unreadable? ==>
              r == Response(500, JsonError(ErrorMessage(request.body.message)))
    ensures request.httpMethod == "POST" && request.body.Body? &&
            Truthy(request.body.personImage) && Truthy(request.body.clothingImage) ==>
              if !Truthy(apiKey) then r == Response(500, JsonError(ConfigurationError))
              else if remote.Threw? then r == Response(500, JsonError(ErrorMessage(remote.message)))
              else r == RespondToGeneration(remote.response)
  {
    if request.httpMethod != "POST" then Response(405, PlainText(MethodNotAllowedText))
    else match request.body
      case Unreadable(message) => Response(500, JsonError(ErrorMessage(message)))
      case Body(personImage, clothingImage) =>
        if !Truthy(personImage) || !Truthy(clothingImage) then Response(400, JsonError(MissingImagesError))
        else if !Truthy(apiKey) then Response(500, JsonError(ConfigurationError))
        else match remote
          case Threw(message) => Response(500, JsonError(ErrorMessage(message)))
          case Responded(response) => RespondToGeneration(response)
  }

  /** Without a key the handler answers with the configuration error, whatever
      the endpoint would have done: no call is made. */
  lemma MissingKeySkipsCall(request: Request, apiKey: Option<string>, remote1: RemoteCall, remote2: RemoteCall)
    requires request.httpMethod == "POST" && request.body.Body?
    requires Truthy(request.body.personImage) && Truthy(request.body.clothingImage)
    requires !Truthy(apiKey)
    ensures Handle(request, apiKey, remote1) == Handle(request, apiKey, remote2)
            == Response(500, JsonError(ConfigurationError))
  {
  }

  /** A rate-limit error from the endpoint is still reported with status 500. */
  lemma RateLimitIsServerError(request: Request, apiKey: Option<string>, message: string)
    requires request.httpMethod == "POST" && request.body.Body?
    requires Truthy(request.body.personImage) && Truthy(request.body.clothingImage)
    requires Truthy(apiKey)
    requires Contains(message, "429")
    ensures Handle(request, apiKey, Threw(Some(message))) == Response(500, JsonError(TrafficError))
  {
  }

  /** Unlike the browser client, the relay does not look at the finish reason:
      a first candidate stopped for safety that still carries an image is a success. */
  lemma SafetyStopStillSucceeds(request: Request, apiKey: Option<string>, response: GenerateContentResponse,
                                 k: nat)
    requires request.httpMethod == "POST" && request.body.Body?
    requires Truthy(request.body.personImage) && Truthy(request.body.clothingImage)
    requires Truthy(apiKey)
    requires FirstCandidate(response).Some?
    requires FirstCandidate(response).value.finishReason == Some("SAFETY")
    requires k < |PartsOf(FirstCandidate(response).value)|
    requires HasImage(PartsOf(FirstCandidate(response).value)[k])
    ensures Handle(request, apiKey, Responded(response)).status == 200
  {
  }

  /** A keyed request with both images whose first candidate carries an image
      is answered with 200 and that image as a PNG data URI. */
  lemma FirstImageSucceeds(request: Request, apiKey: Option<string>, response: GenerateContentResponse)
    requires request.httpMethod == "POST" && request.body.Body?
    requires Truthy(request.body.personImage) && Truthy(request.body.clothingImage)
    requires Truthy(apiKey)
    requires FirstCandidateImage(response).Some?
    ensures Handle(request, apiKey, Responded(response))
            == Response(200, JsonResult(PngDataUriPrefix + FirstCandidateImage(response).value))
  {
  }

  /** A response without candidates, or with an empty list of them, is the
      no-image error. */
  lemma NoCandidatesNoImage(request: Request, apiKey: Option<string>, candidates: Option<seq<Candidate>>)
    requires request.httpMethod == "POST" && request.body.Body?
    requires Truthy(request.body.personImage) && Truthy(request.body.clothingImage)
    requires Truthy(apiKey)
    requires candidates.None? || candidates == Some([])
    ensures Handle(request, apiKey, Responded(GenerateContentResponse(candidates)))
            == Response(500, JsonError(NoImageError))
  {
  }

  /** A body that cannot be read, or an endpoint error not mentioning 429, is
      reported as the generic failure. */
  lemma OtherErrorsAreGeneric(request: Request, apiKey: Option<string>, message: Option<string>)
    requires request.httpMethod == "POST"
    requires request.body.Unreadable? ==> request.body.message == message
    requires request.body.Body? ==>
               Truthy(request.body.personImage) && Truthy(request.body.clothingImage) && Truthy(apiKey)
    requires message.None? || !Contains(message.value, "429")
    ensures Handle(request, apiKey, Threw(message)) == Response(500, JsonError(GenericError))
  {
  }

  /** Only the first candidate is read: an image in a later candidate is not found. */
  lemma LaterCandidatesIgnored(request: Request, apiKey: Option<string>, first: Candidate, rest: seq<Candidate>)
    requires request.httpMethod == "POST" && request.body.Body?
    requires Truthy(request.body.personImage) && Truthy(request.body.clothingImage)
    requires Truthy(apiKey)
    requires forall k :: 0 <= k < |PartsOf(first)| ==> !HasImage(PartsOf(first)[k])
    ensures Handle(request, apiKey, Responded(GenerateContentResponse(Some([first] + rest))))
            == Response(500, JsonError(NoImageError))
  {
  }
}
