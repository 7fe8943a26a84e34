/** The try-on page: the two image slots, the generation result, the current
    view, and the handlers that change them. */
module App {
  import opened Common
  import opened Types
  import opened GenAi
  import GeminiService
  import ClothingGallery

  datatype View = HomeView | GalleryView

  /** An empty image slot. */
  const InitialImageState: ImageUpload := ImageUpload(None, None, None, "")

  /** No image, not loading, no error. */
  const IdleResult: GenerationResult := GenerationResult(None, false, None)

  const FallbackErrorMessage: string := "Something went wrong during the try-on process."

  /** The result shown once a request has settled: the generated image, or
      the error message (a generic one when the error had none). */
  function SettledResult(outcome: Result<string, string>): (r: GenerationResult)
    ensures !r.loading
    ensures r.imageUrl.Some? <==> outcome.Success?
    ensures r.error.Some? <==> outcome.Failure?
    ensures outcome.Success? ==> r.imageUrl == Some(outcome.value)
    ensures outcome.Failure? ==> r.error.value != ""
    ensures outcome.Failure? && outcome.error != "" ==> r.error == Some(outcome.error)
    ensures outcome.Failure? && outcome.error == "" ==> r.error == Some(FallbackErrorMessage)
  {
    match outcome
      case Success(url) => GenerationResult(Some(url), false, None)
      case Failure(message) => GenerationResult(None, false, Some(OrElse(Some(message), FallbackErrorMessage)))
  }

  /** The client never fails without a message, so the page's generic fallback
      message is never what a try-on shows. */
  lemma TryOnErrorShownVerbatim(person: ImageUpload, clothing: ImageUpload, remote: RemoteCall)
    requires GeminiService.TryOnOutcome(person, clothing, remote).Failure?
    ensures SettledResult(GeminiService.TryOnOutcome(person, clothing, remote)).error
            == Some(GeminiService.TryOnOutcome(person, clothing, remote).error)
  {
    GeminiService.FailureMessageNonEmpty(person, clothing, remote);
  }

  class TryOnApp {
    var personImage: ImageUpload
    var clothingImage: ImageUpload
    var result: GenerationResult
    var currentView: View

    /** A generated image and an error are never shown together. */
    predicate Valid()
      reads this
    {
      !(result.imageUrl.Some? && result.error.Some?)
    }

    constructor ()
      ensures Valid()
      ensures personImage == InitialImageState && clothingImage == InitialImageState
      ensures result == IdleResult && currentView == HomeView
    {
      personImage := InitialImageState;
      clothingImage := InitialImageState;
      result := IdleResult;
      currentView := HomeView;
    }

    /** `isReadyToGenerate`: both images are loaded and no request is in flight. */
    function IsReadyToGenerate(): (ready: bool)
      reads this
      ensures ready ==> !result.loading
      ensures ready <==> HasBase64(personImage) && HasBase64(clothingImage) && !result.loading
    {
      HasBase64(personImage) && HasBase64(clothingImage) && !result.loading
    }

    /** The first phase of `handleGenerate`: without both images nothing
        happens; otherwise the page starts loading, clears the error and keeps
        any previous image. */
    method StartGenerate() returns (started: bool)
      requires Valid()
      modifies this
      ensures Valid()
      ensures started <==> HasBase64(personImage) && HasBase64(clothingImage)
      ensures !started ==> result == old(result)
      ensures started ==> result == GenerationResult(old(result).imageUrl, true, None)
      ensures personImage == old(personImage) && clothingImage == old(clothingImage)
      ensures currentView == old(currentView)
    {
      if !HasBase64(personImage) || !HasBase64(clothingImage) {
        return false;
      }
      result := result.(loading := true, error := None);
      started := true;
    }

    /** The second phase of `handleGenerate`, once the client has settled. */
    method FinishGenerate(outcome: Result<string, string>)
      requires Valid()
      modifies this
      ensures Valid()
      ensures result == SettledResult(outcome)
      ensures personImage == old(personImage) && clothingImage == old(clothingImage)
      ensures currentView == old(currentView)
    {
      match outcome {
        case Success(url) =>
          result := GenerationResult(Some(url), false, None);
        case Failure(message) =>
          result := GenerationResult(None, false, Some(if message != "" then message else FallbackErrorMessage));
      }
    }

    /** `handleGenerate` run to completion: the client is called with the two
        slots (the re-encoded images and the endpoint's behaviour are given),
        and its outcome is shown. `sent` is the request that went out. */
    method HandleGenerate(prompt: string, resizedPerson: string, resizedClothing: string, remote: RemoteCall)
      returns (sent: Option<seq<GeminiService.RequestPart>>)
      requires Valid()
      modifies this
      ensures Valid()
      ensures !(HasBase64(old(personImage)) && HasBase64(old(clothingImage))) ==>
                sent.None? && result == old(result)
      ensures HasBase64(old(personImage)) && HasBase64(old(clothingImage)) ==>
                sent == Some(GeminiService.BuildRequestParts(prompt, resizedPerson, resizedClothing)) &&
                result == SettledResult(GeminiService.TryOnOutcome(old(personImage), old(clothingImage), remote))
      ensures personImage == old(personImage) && clothingImage == old(clothingImage)
      ensures currentView == old(currentView)
    {
      var started := StartGenerate();
      if !started {
        return None;
      }
      var outcome;
      sent, outcome := GeminiService.GenerateTryOnImage(personImage, clothingImage, prompt,
                                                        resizedPerson, resizedClothing, remote);
      FinishGenerate(outcome);
    }

    /** `handleReset`: both slots emptied and the result cleared. */
    method HandleReset()
      requires Valid()
      modifies this
      ensures Valid()
      ensures personImage == InitialImageState && clothingImage == InitialImageState
      ensures result == IdleResult && !IsReadyToGenerate()
      ensures currentView == old(currentView)
    {
      personImage := InitialImageState;
      clothingImage := InitialImageState;
      result := IdleResult;
    }

    /** The uploader's change callback for the person slot (a new photo, or the cleared slot). */
    method SetPersonImage(upload: ImageUpload)
      requires Valid()
      modifies this
      ensures Valid()
      ensures personImage == upload
      ensures clothingImage == old(clothingImage) && result == old(result) && currentView == old(currentView)
    {
      personImage := upload;
    }

    /** "Browse Collection" and "Change Outfit" open the gallery. */
    method OpenGallery()
      requires Valid()
      modifies this
      ensures Valid() && currentView == GalleryView
      ensures personImage == old(personImage) && clothingImage == old(clothingImage) && result == old(result)
    {
      currentView := GalleryView;
    }

    /** The gallery's back button. */
    method BackToHome()
      requires Valid()
      modifies this
      ensures Valid() && currentView == HomeView
      ensures personImage == old(personImage) && clothingImage == old(clothingImage) && result == old(result)
    {
      currentView := HomeView;
    }

    /** Choosing an outfit in the gallery: the picture, fetched and read as a
        data URL (`blobType` and `dataUrl` are what the browser produced),
        fills the clothing slot and the page returns home. */
    method SelectGalleryItem(item: ClothingGallery.ClothingItem, blobType: string, dataUrl: string)
      requires Valid()
      modifies this
      ensures Valid() && currentView == HomeView
      ensures clothingImage == ImageUpload(Some(FileRef("preset.jpg", blobType)), Some(item.src), Some(dataUrl), blobType)
      ensures personImage == old(personImage) && result == old(result)
    {
      clothingImage := ImageUpload(Some(FileRef("preset.jpg", blobType)), Some(item.src), Some(dataUrl), blobType);
      currentView := HomeView;
    }
  }
}
