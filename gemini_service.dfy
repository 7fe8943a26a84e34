/** The browser-side try-on client: image downsizing arithmetic, the input
    guard, data-URI header stripping, the request it sends, extraction of the
    generated image from the response, and the classification of failures
    into user-facing messages. */
module GeminiService {
  import opened Common
  import opened Text
  import opened Types
  import opened GenAi

  /** The longest side, in pixels, of an image sent to the model. */
  const DefaultMaxDimension: nat := 800

  /** Media type declared for both uploaded images. */
  const JpegMimeType: string := "image/jpeg"

  /** The finish reason that marks a safety refusal. */
  const SafetyFinishReason: string := "SAFETY"

  // The messages are written in short pieces so that the verifier can check
  // each piece for status-code digits on its own.
  const MissingImagesMessage: string := "Images are missing base64 data."
  const SafetyMessage: string :=
    "The AI blocked this request " + "for safety reasons. " + "Please try a different photo "
    + "(avoid revealing clothing " + "or complex poses)."
  const NoImageMessage: string :=
    "No image generated. " + "The model might be busy " + "or the input was filtered."
  const PermissionDeniedMessage: string :=
    "Permission Denied. " + "API Key issue or " + "Model access restricted."
  const RateLimitMessage: string :=
    "Too many requests. " + "The free plan has limits " + "on image generation. "
    + "Please wait 30 seconds " + "and try again."
  const OverloadedMessage: string :=
    "The AI service is currently " + "overloaded. " + "Please try again in a moment."
  const DefaultFailureMessage: string := "Failed to generate " + "try-on image."

  // ---------------------------------------------------------------------------
  // Downsizing arithmetic

  /** r is p/q rounded to the nearest integer, halves rounded up (what
      `Math.round` does on a non-negative quotient): r - 1/2 <= p/q < r + 1/2. */
  predicate IsRoundedQuotient(r: int, p: int, q: int)
  {
    q > 0 && 2 * q * r <= 2 * p + q < 2 * q * r + 2 * q
  }

  /** `Math.round(p / q)` on natural numbers, in exact integer arithmetic. */
  function RoundDiv(p: nat, q: nat): (r: nat)
    requires q > 0
    ensures IsRoundedQuotient(r, p, q)
  {
    (2 * p + q) / (2 * q)
  }

  /** Cancelling a positive factor from both sides of a strict inequality. */
  lemma ScaledBelow(a: int, b: int, c: int)
    requires c > 0 && c * a < c * b
    ensures a < b
  {
  }

  /** A rounded quotient never exceeds a bound the exact quotient respects. */
  lemma RoundedQuotientAtMost(r: int, p: int, q: int, m: int)
    requires IsRoundedQuotient(r, p, q) && p <= q * m
    ensures r <= m
  {
    calc {
      2 * q * r;
    <= 2 * p + q;
    <= 2 * q * m + q;
    <  2 * q * m + 2 * q;
    == 2 * q * (m + 1);
    }
    ScaledBelow(r, m + 1, 2 * q);
  }

  /** The shorter side scaled so that the longer side becomes m, rounded:
      `Math.round(side * m / longer)`, which never exceeds m. */
  function ScaledSide(side: nat, longer: nat, m: nat): (r: nat)
    requires side <= longer && longer > 0
    ensures IsRoundedQuotient(r, side * m, longer)
    ensures r <= m
  {
    var p := side * m;
    assert p <= longer * m;
    RoundedQuotientAtMost(RoundDiv(p, longer), p, longer, m);
    RoundDiv(p, longer)
  }

  /** The target size computed by `resizeImage` from the decoded image's size:
      the longer side is brought down to maxDimension with the other side
      scaled in proportion and rounded; a square image counts as portrait;
      an image that already fits is left alone. */
  method ResizeImage(imgWidth: nat, imgHeight: nat, maxDimension: nat) returns (width: nat, height: nat)
    ensures (width, height) == (imgWidth, imgHeight) <==> imgWidth <= maxDimension && imgHeight <= maxDimension
    ensures width <= maxDimension && height <= maxDimension
    ensures imgWidth > imgHeight && imgWidth > maxDimension ==>
              width == maxDimension && IsRoundedQuotient(height, imgHeight * maxDimension, imgWidth)
    ensures imgWidth <= imgHeight && imgHeight > maxDimension ==>
              height == maxDimension && IsRoundedQuotient(width, imgWidth * maxDimension, imgHeight)
  {
    width := imgWidth;
    height := imgHeight;
    if width > height {
      if width > maxDimension {
        height := ScaledSide(height, width, maxDimension);
        width := maxDimension;
      }
    } else {
      if height > maxDimension {
        width := ScaledSide(width, height, maxDimension);
        height := maxDimension;
      }
    }
  }

  /** A 1200×1600 portrait photo is sent at 600×800. */
  method ResizePortraitExample() returns (width: nat, height: nat)
    ensures width == 600 && height == 800
  {
    width, height := ResizeImage(1200, 1600, DefaultMaxDimension);
  }

  // ---------------------------------------------------------------------------
  // The request

  /** `dataUri.split(',')[1]`: the field after the first comma, or nothing
      (`undefined`) when there is no comma. */
  function StripHeader(dataUri: string): (payload: Option<string>)
    ensures payload.None? <==> ',' !in dataUri
    ensures payload.Some? ==> ',' !in payload.value
  {
    var fields := Split(dataUri, ',');
    if |fields| >= 2 then Some(fields[1])
    else
      assert Join(fields, ',') == dataUri by { JoinSplit(dataUri, ','); }
      None
  }

  /** Stripping a data URI `header,payload` yields exactly its payload. */
  lemma StripDataUriHeader(header: string, payload: string)
    requires ',' !in header && ',' !in payload
    ensures StripHeader(header + "," + payload) == Some(payload)
  {
    SplitJoin([header, payload], ',');
    assert Join([header, payload], ',') == header + "," + payload;
  }

  /** One part of the request sent to the endpoint. */
  datatype RequestPart = TextPart(text: string) | InlineDataPart(mimeType: string, data: Option<string>)

  /** The request parts: the instruction, then the person, then the garment. */
  function BuildRequestParts(prompt: string, resizedPerson: string, resizedClothing: string): seq<RequestPart>
  {
    [ TextPart(prompt),
      InlineDataPart(JpegMimeType, StripHeader(resizedPerson)),
      InlineDataPart(JpegMimeType, StripHeader(resizedClothing)) ]
  }

  /** The request carries the instruction text first, then the bare payloads of
      the two re-encoded images in the order person, garment, both as JPEG. */
  lemma RequestCarriesPayloads(prompt: string, personHeader: string, personPayload: string,
                               clothingHeader: string, clothingPayload: string)
    requires ',' !in personHeader && ',' !in personPayload
    requires ',' !in clothingHeader && ',' !in clothingPayload
    ensures BuildRequestParts(prompt, personHeader + "," + personPayload, clothingHeader + "," + clothingPayload)
            == [ TextPart(prompt),
                 InlineDataPart("image/jpeg", Some(personPayload)),
                 InlineDataPart("image/jpeg", Some(clothingPayload)) ]
  {
    StripDataUriHeader(personHeader, personPayload);
    StripDataUriHeader(clothingHeader, clothingPayload);
  }

  // ---------------------------------------------------------------------------
  // Reading the response

  /** The first candidate exists and stopped for safety reasons. */
  predicate SafetyStopped(response: GenerateContentResponse)
  {
    FirstCandidate(response).Some? && FirstCandidate(response).value.finishReason == Some(SafetyFinishReason)
  }

  /** What the code after the call produces from a response: the generated
      image as a data URI, or the message of the error it throws. */
  function ExtractTryOnImage(response: GenerateContentResponse): (r: Result<string, string>)
    ensures r == Failure(SafetyMessage) <==> SafetyStopped(response)
    ensures r.Success? <==> !SafetyStopped(response) && FirstCandidateImage(response).Some?
    ensures r.Success? ==> r.value == PngDataUriPrefix + FirstCandidateImage(response).value
    ensures r.Failure? ==> r.error == SafetyMessage || r.error == NoImageMessage
  {
    match FirstCandidate(response)
      case None => Failure(NoImageMessage)
      case Some(c) =>
        if c.finishReason == Some(SafetyFinishReason) then Failure(SafetyMessage)
        else match FirstImageData(PartsOf(c))
          case Some(data) => Success(PngDataUriPrefix + data)
          case None => Failure(NoImageMessage)
  }

  /** The `for…of` scan over the parts of the first candidate, returning at the
      first part with an image payload. */
  method ScanParts(parts: seq<Part>) returns (data: Option<string>)
    ensures data == FirstImageData(parts)
  {
    var i := 0;
    while i < |parts|
      invariant 0 <= i <= |parts|
      invariant forall j :: 0 <= j < i ==> !HasImage(parts[j])
    {
      if HasImage(parts[i]) {
        FirstImageOfPrefix(parts, i);
        return Some(ImageData(parts[i]));
      }
      i := i + 1;
    }
    return None;
  }

  // ---------------------------------------------------------------------------
  // Failure classification

  /** The message mentions none of the status codes the classifier looks for. */
  predicate FreeOfStatusCodes(message: string)
  {
    !Contains(message, "403") && !Contains(message, "429") && !Contains(message, "503")
  }

  /** Neither of the digits that start the status codes occurs in s. */
  predicate NoStatusDigit(s: string)
  {
    '4' !in s && '5' !in s
  }

  /** A message without those digits mentions no status code. */
  lemma NoStatusDigitFree(m: string)
    requires NoStatusDigit(m)
    ensures FreeOfStatusCodes(m)
  {
    NotContainedWithoutHead(m, "403");
    NotContainedWithoutHead(m, "429");
    NotContainedWithoutHead(m, "503");
  }

  lemma SafetyMessageFree() ensures NoStatusDigit(SafetyMessage)
  {
    assert NoStatusDigit("The AI blocked this request ");
    assert NoStatusDigit("for safety reasons. ");
    assert NoStatusDigit("Please try a different photo ");
    assert NoStatusDigit("(avoid revealing clothing ");
    assert NoStatusDigit("or complex poses).");
  }

  lemma NoImageMessageFree() ensures NoStatusDigit(NoImageMessage)
  {
    assert NoStatusDigit("No image generated. ");
    assert NoStatusDigit("The model might be busy ");
    assert NoStatusDigit("or the input was filtered.");
  }

  lemma PermissionDeniedMessageFree() ensures NoStatusDigit(PermissionDeniedMessage)
  {
    assert NoStatusDigit("Permission Denied. ");
    assert NoStatusDigit("API Key issue or ");
    assert NoStatusDigit("Model access restricted.");
  }

  lemma RateLimitMessageFree() ensures NoStatusDigit(RateLimitMessage)
  {
    assert NoStatusDigit("Too many requests. ");
    assert NoStatusDigit("The free plan has limits ");
    assert NoStatusDigit("on image generation. ");
    assert NoStatusDigit("Please wait 30 seconds ");
    assert NoStatusDigit("and try again.");
  }

  lemma OverloadedMessageFree() ensures NoStatusDigit(OverloadedMessage)
  {
    assert NoStatusDigit("The AI service is currently ");
    assert NoStatusDigit("overloaded. ");
    assert NoStatusDigit("Please try again in a moment.");
  }

  lemma DefaultFailureMessageFree() ensures NoStatusDigit(DefaultFailureMessage)
  {
    assert NoStatusDigit("Failed to generate ");
    assert NoStatusDigit("try-on image.");
  }

  /** None of the client's own messages mentions a status code, so none of them
      is rewritten when it passes through the classifier. */
  lemma ClientMessagesCarryNoStatusCode()
    ensures FreeOfStatusCodes(SafetyMessage) && FreeOfStatusCodes(NoImageMessage)
    ensures FreeOfStatusCodes(PermissionDeniedMessage) && FreeOfStatusCodes(RateLimitMessage)
    ensures FreeOfStatusCodes(OverloadedMessage) && FreeOfStatusCodes(DefaultFailureMessage)
  {
    SafetyMessageFree();
    NoStatusDigitFree(SafetyMessage);
    NoImageMessageFree();
    NoStatusDigitFree(NoImageMessage);
    PermissionDeniedMessageFree();
    NoStatusDigitFree(PermissionDeniedMessage);
    RateLimitMessageFree();
    NoStatusDigitFree(RateLimitMessage);
    OverloadedMessageFree();
    NoStatusDigitFree(OverloadedMessage);
    DefaultFailureMessageFree();
    NoStatusDigitFree(DefaultFailureMessage);
  }

  /** The catch block: an error message is matched against 403, then 429,
      then 503; anything else keeps its own message, or the generic one when
      it has none. */
  function ClassifyError(message: Option<string>): (r: string)
    ensures r != ""
    ensures FreeOfStatusCodes(r)
    ensures message.Some? && Contains(message.value, "403") ==> r == PermissionDeniedMessage
    ensures message.Some? && !Contains(message.value, "403") && Contains(message.value, "429") ==> r == RateLimitMessage
    ensures message.Some? && !Contains(message.value, "403") && !Contains(message.value, "429")
              && Contains(message.value, "503")
            ==> r == OverloadedMessage
    ensures message.None? ==> r == DefaultFailureMessage
    ensures message.Some? && FreeOfStatusCodes(message.value) ==>
              r == (if message.value == "" then DefaultFailureMessage else message.value)
  {
    ClientMessagesCarryNoStatusCode();
    if message.Some? && Contains(message.value, "403") then PermissionDeniedMessage
    else if message.Some? && Contains(message.value, "429") then RateLimitMessage
    else if message.Some? && Contains(message.value, "503") then OverloadedMessage
    else OrElse(message, DefaultFailureMessage)
  }

  /** Classifying an already classified message changes nothing. */
  lemma ClassifyIdempotent(message: Option<string>)
    ensures ClassifyError(Some(ClassifyError(message))) == ClassifyError(message)
  {
  }

  // ---------------------------------------------------------------------------
  // The whole call

  /** The outcome of `generateTryOnImage`: the missing-input error is thrown
      before the `try`, so it is never classified; everything thrown inside
      goes through the classifier. */
  function TryOnOutcome(person: ImageUpload, clothing: ImageUpload, remote: RemoteCall): Result<string, string>
  {
    if !HasBase64(person) || !HasBase64(clothing) then Failure(MissingImagesMessage)
    else match remote
      case Threw(message) => Failure(ClassifyError(message))
      case Responded(response) =>
        match ExtractTryOnImage(response)
          case Success(url) => Success(url)
          case Failure(message) => Failure(ClassifyError(Some(message)))
  }

  /** `generateTryOnImage`: checks both inputs, sends the request built from
      the two re-encoded images (the canvas output, given here), and turns the
      endpoint's answer into a data URI or an error message. `sent` is the
      request that went out, or nothing when no call was made. */
  method GenerateTryOnImage(person: ImageUpload, clothing: ImageUpload, prompt: string,
                            resizedPerson: string, resizedClothing: string, remote: RemoteCall)
    returns (sent: Option<seq<RequestPart>>, r: Result<string, string>)
    ensures sent.None? <==> !HasBase64(person) || !HasBase64(clothing)
    ensures sent.None? ==> r == Failure(MissingImagesMessage)
    ensures sent.Some? ==> sent.value == BuildRequestParts(prompt, resizedPerson, resizedClothing)
    ensures r == TryOnOutcome(person, clothing, remote)
  {
    if !HasBase64(person) || !HasBase64(clothing) {
      return None, Failure(MissingImagesMessage);
    }
    sent := Some(BuildRequestParts(prompt, resizedPerson, resizedClothing));
    match remote {
      case Threw(message) =>
        r := Failure(ClassifyError(message));
      case Responded(response) =>
        var thrown: string := NoImageMessage;
        var candidate := FirstCandidate(response);
        if candidate.Some? {
          if candidate.value.finishReason == Some(SafetyFinishReason) {
            return sent, Failure(ClassifyError(Some(SafetyMessage)));
          }
          var data := ScanParts(PartsOf(candidate.value));
          if data.Some? {
            return sent, Success(PngDataUriPrefix + data.value);
          }
        }
        r := Failure(ClassifyError(Some(thrown)));
    }
  }

  // ---------------------------------------------------------------------------
  // Properties of the whole call

  /** A response is never rewritten by the classifier: with both inputs present,
      the outcome is exactly what the extraction produced. */
  lemma ResponseOutcomeUnclassified(person: ImageUpload, clothing: ImageUpload, response: GenerateContentResponse)
    requires HasBase64(person) && HasBase64(clothing)
    ensures TryOnOutcome(person, clothing, Responded(response)) == ExtractTryOnImage(response)
  {
    ClientMessagesCarryNoStatusCode();
  }

  /** A safety refusal of the first candidate wins even when that candidate also carries an image. */
  lemma SafetyRefusalWins(person: ImageUpload, clothing: ImageUpload, response: GenerateContentResponse)
    requires HasBase64(person) && HasBase64(clothing)
    requires SafetyStopped(response)
    ensures TryOnOutcome(person, clothing, Responded(response)) == Failure(SafetyMessage)
  {
    ResponseOutcomeUnclassified(person, clothing, response);
  }

  /** No candidates, or a first candidate with only text, gives the no-image error. */
  lemma NoImageGivesEmptyGeneration(person: ImageUpload, clothing: ImageUpload, response: GenerateContentResponse)
    requires HasBase64(person) && HasBase64(clothing)
    requires !SafetyStopped(response)
    requires FirstCandidateImage(response).None?
    ensures TryOnOutcome(person, clothing, Responded(response)) == Failure(NoImageMessage)
  {
    ResponseOutcomeUnclassified(person, clothing, response);
  }

  /** A missing input fails before any call: the outcome does not depend on what the endpoint would do. */
  lemma MissingInputFailsFast(person: ImageUpload, clothing: ImageUpload, remote: RemoteCall)
    requires !HasBase64(person) || !HasBase64(clothing)
    ensures TryOnOutcome(person, clothing, remote) == Failure(MissingImagesMessage)
  {
  }

  /** Every failure carries a non-empty message. */
  lemma FailureMessageNonEmpty(person: ImageUpload, clothing: ImageUpload, remote: RemoteCall)
    ensures TryOnOutcome(person, clothing, remote).Failure? ==> TryOnOutcome(person, clothing, remote).error != ""
  {
  }
}
