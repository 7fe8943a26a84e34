# Virtual try-on: a verified model of the request pipeline and page state

This project models, in Dafny, the decision and data logic of a small
virtual try-on web application. A user uploads a photo of themselves and
picks a garment from a catalog; the application sends both images and a fixed
instruction to an external image-generation model and shows the generated
picture, or an error message. Four pieces are modelled:

- **The browser client** (`services/geminiService.ts`, module `GeminiService`):
  the target-size arithmetic of `resizeImage` (the longer side is brought down
  to 800 pixels, never up), the check that both images are present before any
  call, stripping the data-URI header with `split(',')[1]`, the order of the
  request parts, reading the generated image out of the first candidate
  (safety refusals first), and the catch block that rewrites error messages
  mentioning 403, 429 or 503.
- **The relay endpoint** (`api/generate-try-on.ts`, module `RelayHandler`): a
  pure function from the request, the presence of the service key and what the
  model endpoint did, to a status code and a JSON (or plain-text) body.
- **The page** (`App.tsx`, module `App`): a class `TryOnApp` whose fields are
  the two image slots, the generation result and the current view, and whose
  methods are the handlers (`handleGenerate` in its two phases, `handleReset`,
  the view switches, the gallery selection).
- **The catalog** (`components/ClothingGallery.tsx`, module `ClothingGallery`):
  the seeded list of twelve dresses, delete/edit/add as list functions, price
  normalisation, submit validation, and a class `Gallery` for the screen's
  state (items, form, item being edited, modal open or closed).

Shared pieces: `Common` (Option, Result), `Text` (`startsWith`, `includes`,
`split`, decimal rendering of numbers), `Types` (the records of `types.ts`)
and `GenAi` (the shape of the model endpoint's response, every level optional,
and the first-candidate image search that client and relay share).

Things outside the program are parameters: what the model endpoint did
(`RemoteCall`: a response, or a thrown error with an optional message), the
re-encoded images produced by the canvas, the prompt text, the user's answer
to the delete confirmation, `Date.now()`, file contents read as data URLs,
the list found in local storage, and the type and data URL of a fetched
catalog picture.

Where the repository's design description and its code differ, the model
follows the code:

- only `candidates[0]` is examined, never later candidates;
- an image that cannot be decoded does not produce a normalisation error:
  `resizeImage` has no error handler, so its promise never settles;
- the relay answers a rate-limit error with status 500 (and its own
  "Traffic is high" text), not with a rate-limit status;
- failures are told apart by substrings of the error message, not by
  structured codes, and the relay does not check the safety finish reason.

## Model

| member | source | states |
|---|---|---|
| `Text.Split` | services/geminiService.ts:66-67 | `split` on one separator yields at least one field and no field contains the separator |
| `Text.JoinSplit` | services/geminiService.ts:66-67 | joining the fields of a split with the separator gives back the original string |
| `Text.SplitJoin` | services/geminiService.ts:66-67 | splitting a join of separator-free fields gives back those fields |
| `Text.NatToString` | components/ClothingGallery.tsx:13-16 | the decimal rendering of a number is a non-empty string of digits with no leading zero (only 0 itself starts with 0); with the round trip this is the canonical rendering |
| `Text.ParseNatToString` | components/ClothingGallery.tsx:13-16 | reading back the decimal rendering of n gives n |
| `Text.NatToStringInjective` | components/ClothingGallery.tsx:13 | different numbers render as different strings |
| `Types.OrElse` | App.tsx:106 | `a \|\| b` on an optional string: a when present and non-empty, b otherwise |
| `GenAi.FirstCandidate` | services/geminiService.ts:123-124 | `candidates[0]` exactly when the list is present and non-empty |
| `GenAi.FirstImageData` | services/geminiService.ts:131-137 | nothing iff no part has a non-empty inline payload; otherwise the payload of the first part that has one |
| `GenAi.FirstImageOfPrefix` | services/geminiService.ts:132-136 | when part k is the first with a payload, the search returns exactly that payload |
| `GeminiService.RoundDiv` | services/geminiService.ts:24 | `Math.round(p/q)` for naturals is the integer r with r - 1/2 <= p/q < r + 1/2 |
| `GeminiService.ScaledSide` | services/geminiService.ts:24-30 | the shorter side scaled to the new longer side is the rounded quotient and never exceeds the limit |
| `GeminiService.ResizeImage` | services/geminiService.ts:14-32 | the size is unchanged iff both sides fit; both results are at most maxDimension; a landscape image gets width maxDimension and its height scaled and rounded; otherwise (square included) height maxDimension and width scaled and rounded |
| `GeminiService.ResizePortraitExample` | services/geminiService.ts:27-31 | a 1200×1600 image with the default limit of 800 becomes 600×800 |
| `GeminiService.StripHeader` | services/geminiService.ts:66-67 | `split(',')[1]` is absent iff the string has no comma, and never contains a comma |
| `GeminiService.StripDataUriHeader` | services/geminiService.ts:66-67 | stripping `header,payload` yields exactly the payload |
| `GeminiService.RequestCarriesPayloads` | services/geminiService.ts:73-105 | the request is the instruction, then the person's payload, then the garment's payload, both as image/jpeg |
| `GeminiService.ExtractTryOnImage` | services/geminiService.ts:122-140 | the safety error iff the first candidate stopped for safety, even with an image; success iff not refused and the first candidate has an image, giving the PNG data URI of the first payload; otherwise the no-image error |
| `GeminiService.ScanParts` | services/geminiService.ts:131-137 | the `for…of` loop with early return computes the first-payload search |
| `GeminiService.ClientMessagesCarryNoStatusCode` | services/geminiService.ts:145-157 | none of the client's fixed messages contains 403, 429 or 503 |
| `GeminiService.ClassifyError` | services/geminiService.ts:142-157 | 403 before 429 before 503; otherwise the message itself, or the generic text when it is absent or empty; the result is never empty and never mentions a status code |
| `GeminiService.ClassifyIdempotent` | services/geminiService.ts:145-157 | classifying an already classified message changes nothing |
| `GeminiService.GenerateTryOnImage` | services/geminiService.ts:52-158 | no request is sent iff an image lacks its payload, and then the missing-images error is returned unclassified; otherwise the request sent is the three parts and the result is the pipeline outcome |
| `GeminiService.ResponseOutcomeUnclassified` | services/geminiService.ts:122-157 | with both inputs, the outcome of any response is exactly what extraction gives: the safety and no-image errors pass the classifier unchanged |
| `GeminiService.SafetyRefusalWins` | services/geminiService.ts:126-129 | a safety refusal of the first candidate yields the safety error whatever the candidate carries |
| `GeminiService.NoImageGivesEmptyGeneration` | services/geminiService.ts:123-140 | no candidates, no content or no image part yields the no-image error |
| `GeminiService.MissingInputFailsFast` | services/geminiService.ts:56-58 | a missing payload yields the missing-images error whatever the endpoint would do |
| `GeminiService.FailureMessageNonEmpty` | services/geminiService.ts:52-158 | every failure of the client carries a non-empty message |
| `RelayHandler.ErrorMessage` | api/generate-try-on.ts:122-125 | the traffic notice iff the error message contains 429; the only other result is the generic failure |
| `RelayHandler.RespondToGeneration` | api/generate-try-on.ts:97-117 | 200 with the PNG data URI of the first candidate's first payload iff there is one, else 500 "No image generated" |
| `RelayHandler.Handle` | api/generate-try-on.ts:14-131 | 405 iff not POST (plain text); 400 "Missing images" iff POST with a readable body lacking an image; an unreadable body gets 500 with the catch block's message; with both images, no key gives 500 "Server configuration error", a thrown error gives 500 with the catch block's message, and an answer gives exactly `RespondToGeneration`'s response; 200 iff the body is a result; every status is 200, 400, 405 or 500 |
| `RelayHandler.MissingKeySkipsCall` | api/generate-try-on.ts:29-36 | without a key the answer is the 500 configuration error whatever the endpoint would have done |
| `RelayHandler.RateLimitIsServerError` | api/generate-try-on.ts:119-130 | an error mentioning 429 gives status 500 with the traffic notice |
| `RelayHandler.SafetyStopStillSucceeds` | api/generate-try-on.ts:98-112 | a first candidate stopped for safety that carries an image still gives 200 |
| `RelayHandler.FirstImageSucceeds` | api/generate-try-on.ts:98-112 | a keyed POST with both images whose first candidate carries an image gets 200 with that image as a PNG data URI |
| `RelayHandler.NoCandidatesNoImage` | api/generate-try-on.ts:98-117 | a response with no candidates or an empty list of them gets 500 "No image generated" |
| `RelayHandler.OtherErrorsAreGeneric` | api/generate-try-on.ts:119-130 | an unreadable body or an endpoint error not mentioning 429 gets 500 "Failed to generate try-on image." |
| `RelayHandler.LaterCandidatesIgnored` | api/generate-try-on.ts:98-117 | when the first candidate has no image, images in later candidates are not used: 500 "No image generated" |
| `ClothingGallery.InitialItems` | components/ClothingGallery.tsx:12-17 | twelve items; item i has id dress-(i+1), picture /red-dress.jpg and price $(150+10i); the first is the signature dress, the others numbered evening gowns |
| `ClothingGallery.InitialIdsDistinct` | components/ClothingGallery.tsx:13 | the seeded ids are pairwise distinct |
| `ClothingGallery.CustomIdNotSeeded` | components/ClothingGallery.tsx:102 | an added item's id never equals a seeded id |
| `ClothingGallery.RemoveItem` | components/ClothingGallery.tsx:68 | the filtered list holds exactly the items whose id differs, and is no longer |
| `ClothingGallery.RemoveItemAppend` | components/ClothingGallery.tsx:68 | filtering a concatenation is concatenating the filtered parts, so order is kept |
| `ClothingGallery.RemoveAbsentId` | components/ClothingGallery.tsx:68 | deleting an id no item has leaves the list unchanged |
| `ClothingGallery.RemoveKeepsDistinct` | components/ClothingGallery.tsx:68 | deleting keeps ids distinct |
| `ClothingGallery.PrependDistinct` | components/ClothingGallery.tsx:107 | adding an item with a fresh id in front keeps ids distinct |
| `ClothingGallery.UpdateItem` | components/ClothingGallery.tsx:94-98 | same length and ids in the same order; items with the edited id get the new title, price and picture; all others unchanged |
| `ClothingGallery.UpdateKeepsDistinct` | components/ClothingGallery.tsx:94-98 | editing keeps ids distinct |
| `ClothingGallery.UpdateIdempotent` | components/ClothingGallery.tsx:94-98 | applying the same edit twice equals applying it once |
| `ClothingGallery.NormalizePrice` | components/ClothingGallery.tsx:96-104 | the result starts with `$`; it is the price itself iff that starts with `$`, else `$` followed by it |
| `ClothingGallery.NormalizePriceIdempotent` | components/ClothingGallery.tsx:96-104 | normalising twice equals normalising once |
| `ClothingGallery.ImageSource` | components/ClothingGallery.tsx:87-90 | the new file's data URL when a file was chosen, else the existing preview |
| `ClothingGallery.Gallery.constructor` | components/ClothingGallery.tsx:26-43 | the saved list if any, else the seeded one; modal closed, form empty |
| `ClothingGallery.Gallery.OpenAddModal` | components/ClothingGallery.tsx:144 | opens the modal and changes nothing else |
| `ClothingGallery.Gallery.CloseModal` | components/ClothingGallery.tsx:46-51 | closing empties the form and forgets the edited item, list unchanged |
| `ClothingGallery.Gallery.HandleEditClick` | components/ClothingGallery.tsx:53-63 | the form is filled from the item with no file, the item is remembered and the modal opens |
| `ClothingGallery.Gallery.HandleDeleteClick` | components/ClothingGallery.tsx:65-70 | a confirmed delete filters the id out; a declined one changes nothing |
| `ClothingGallery.Gallery.SetTitle` | components/ClothingGallery.tsx:264 | only the form's title changes |
| `ClothingGallery.Gallery.SetPrice` | components/ClothingGallery.tsx:276 | only the form's price changes |
| `ClothingGallery.Gallery.ChooseFile` | components/ClothingGallery.tsx:233-238 | the form keeps the file and shows it through the new object URL |
| `ClothingGallery.Gallery.HandleSubmit` | components/ClothingGallery.tsx:81-111 | an incomplete form changes nothing; otherwise the edited item is updated in place, or a new custom item goes in front, with the normalised price and the chosen picture, and the modal closes with the form emptied |
| `App.SettledResult` | App.tsx:97-107 | a settled result is not loading and holds exactly one of image and error: the image URL, or the failure's message, or "Something went wrong during the try-on process." when that message is empty |
| `App.TryOnErrorShownVerbatim` | App.tsx:102-107 | a client failure is shown with its own message, never the page's fallback text |
| `App.TryOnApp.constructor` | App.tsx:80-88 | both slots empty, idle result, home view |
| `App.TryOnApp.IsReadyToGenerate` | App.tsx:117 | ready iff both images have a payload and nothing is loading |
| `App.TryOnApp.StartGenerate` | App.tsx:90-93 | without both payloads nothing changes; otherwise loading starts, the error is cleared and the previous image kept |
| `App.TryOnApp.FinishGenerate` | App.tsx:95-108 | the result becomes the settled form of the client's outcome |
| `App.TryOnApp.HandleGenerate` | App.tsx:90-109 | without both payloads nothing is sent or changed; otherwise the client's request goes out and the page shows the settled pipeline outcome; an image and an error are never shown together |
| `App.TryOnApp.HandleReset` | App.tsx:111-115 | both slots emptied, result idle, not ready to generate |
| `App.TryOnApp.SetPersonImage` | App.tsx:197-202 | the person slot takes the uploader's value, nothing else changes |
| `App.TryOnApp.OpenGallery` | App.tsx:218 | the gallery view opens, nothing else changes |
| `App.TryOnApp.BackToHome` | App.tsx:122 | the home view returns, nothing else changes |
| `App.TryOnApp.SelectGalleryItem` | App.tsx:123-138 | the clothing slot holds the fetched picture (preset file, item's picture as preview, its data URL, its type) and the home view returns |

## Left out

- Canvas drawing, JPEG re-encoding at quality 0.7 and the fallback to the original data URI when no 2D context exists: the re-encoded images are parameters of `GenerateTryOnImage` and `HandleGenerate`; only the size arithmetic is modelled.
- An image that fails to decode: `resizeImage` then never settles, which has no outcome to model.
- GeminiService.ResizeImage: computes in exact rational arithmetic; JavaScript divides and rounds in IEEE-754 doubles, which may differ for very large sizes.
- The generation SDK and its network calls, the model name, safety thresholds, aspect ratio and temperature settings: the call's outcome is the `RemoteCall` parameter.
- The prompt texts: opaque configuration, taken as the `prompt` parameter.
- The ordering of asynchronous steps: `StartGenerate` and `FinishGenerate` are separate methods so that other handlers may run between them, but no in-flight token or cancellation exists in the code and none is modelled.
- `fetch`, `Blob`, `FileReader`, `URL.createObjectURL`, `Date.now()`, `confirm()`: their results are parameters; a failed file read in `handleSubmit` is not modelled.
- Saving the catalog to local storage after every change; only reading it at mount is modelled (the constructor's parameter).
- RelayHandler.Handle: JSON body fields are strings or absent; a non-string value is not modelled, nor are response headers.
- ClothingGallery.Gallery.SetTitle: requires an open modal, since the form's inputs exist only then (likewise `SetPrice` and `ChooseFile`).
- The image uploader's file reading and clear button, the help modal, the result modal, buttons, layout and styling, the unused `AppStep` enumeration and console logging.
