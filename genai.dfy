/** The shape of a response of the generation endpoint, as far as the
    application reads it, and the first-candidate image search that both the
    browser client and the relay perform on it. Every level is optional. */
module GenAi {
  import opened Common
  import opened Types

  datatype InlineData = InlineData(mimeType: Option<string>, data: Option<string>)
  datatype Part = Part(text: Option<string>, inlineData: Option<InlineData>)
  datatype Content = Content(parts: Option<seq<Part>>)
  datatype Candidate = Candidate(finishReason: Option<string>, content: Option<Content>)
  datatype GenerateContentResponse = GenerateContentResponse(candidates: Option<seq<Candidate>>)

  /** What the call to the endpoint did: answered, or threw an error whose
      `message` may be missing. */
  datatype RemoteCall = Responded(response: GenerateContentResponse) | Threw(message: Option<string>)

  /** Every generated image is handed back as a PNG data URI with this header. */
  const PngDataUriPrefix: string := "data:image/png;base64,"

  /** `part.inlineData && part.inlineData.data`: the part carries a non-empty image payload. */
  predicate HasImage(p: Part)
  {
    p.inlineData.Some? && Truthy(p.inlineData.value.data)
  }

  /** The payload of a part that carries one. */
  function ImageData(p: Part): string
    requires HasImage(p)
  {
    p.inlineData.value.data.value
  }

  /** `candidates[0]`, when the list is present and non-empty. */
  function FirstCandidate(response: GenerateContentResponse): (c: Option<Candidate>)
    ensures c.Some? <==> response.candidates.Some? && |response.candidates.value| > 0
    ensures c.Some? ==> c.value == response.candidates.value[0]
  {
    match response.candidates
      case None => None
      case Some(cs) => if |cs| > 0 then Some(cs[0]) else None
  }

  /** The parts a `for…of` over `candidate.content.parts` visits: none when either level is absent. */
  function PartsOf(c: Candidate): seq<Part>
  {
    if c.content.Some? && c.content.value.parts.Some? then c.content.value.parts.value else []
  }

  /** The first image payload among the parts, scanning in order. */
  function FirstImageData(parts: seq<Part>): (r: Option<string>)
    ensures r.None? <==> forall k :: 0 <= k < |parts| ==> !HasImage(parts[k])
    ensures r.Some? ==> exists k :: 0 <= k < |parts| && HasImage(parts[k]) && r.value == ImageData(parts[k]) &&
                          forall j :: 0 <= j < k ==> !HasImage(parts[j])
    decreases |parts|
  {
    if |parts| == 0 then None
    else if HasImage(parts[0]) then Some(ImageData(parts[0]))
    else
      var r := FirstImageData(parts[1..]);
      assert r.Some? ==> exists k :: 1 <= k < |parts| && HasImage(parts[k]) && r.value == ImageData(parts[k]) &&
                          forall j :: 0 <= j < k ==> !HasImage(parts[j]) by {
        if r.Some? {
          var k :| 0 <= k < |parts| - 1 && HasImage(parts[1..][k]) && r.value == ImageData(parts[1..][k]) &&
                   forall j :: 0 <= j < k ==> !HasImage(parts[1..][j]);
          assert forall j :: 1 <= j < k + 1 ==> !HasImage(parts[j]) by {
            forall j | 1 <= j < k + 1 ensures !HasImage(parts[j]) { assert parts[j] == parts[1..][j - 1]; }
          }
        }
      }
      r
  }

  /** The image the first candidate carries, ignoring its finish reason. */
  function FirstCandidateImage(response: GenerateContentResponse): Option<string>
  {
    match FirstCandidate(response)
      case None => None
      case Some(c) => FirstImageData(PartsOf(c))
  }

  /** A response whose first candidate carries an image reports exactly the first payload of that candidate. */
  lemma {:induction false} FirstImageOfPrefix(parts: seq<Part>, k: nat)
    requires k < |parts| && HasImage(parts[k])
    requires forall j :: 0 <= j < k ==> !HasImage(parts[j])
    ensures FirstImageData(parts) == Some(ImageData(parts[k]))
    decreases k
  {
    if k > 0 {
      assert !HasImage(parts[0]);
      FirstImageOfPrefix(parts[1..], k - 1);
    }
  }
}
