/** The records shared by the application, the uploader and the client. */
module Types {
  import opened Common

  /** A browser `File` handle: only its name and media type matter here. */
  datatype FileRef = FileRef(name: string, mimeType: string)

  /** An uploaded image slot; `base64` holds the whole data URI read from the file. */
  datatype ImageUpload = ImageUpload(
    file: Option<FileRef>,
    previewUrl: Option<string>,
    base64: Option<string>,
    mimeType: string)

  /** What the page shows about the last try-on request. */
  datatype GenerationResult = GenerationResult(
    imageUrl: Option<string>,
    loading: bool,
    error: Option<string>)

  /** A JavaScript string value that may be null or undefined is truthy:
      present and not the empty string. */
  predicate Truthy(v: Option<string>)
  {
    v.Some? && v.value != ""
  }

  /** `!!img.base64`: the slot holds a non-empty encoded image. */
  predicate HasBase64(img: ImageUpload)
  {
    Truthy(img.base64)
  }

  /** `a || b` on an optional string: a when it is truthy, otherwise b. */
  function OrElse(a: Option<string>, b: string): (r: string)
    ensures a.Some? && a.value != "" ==> r == a.value
    ensures (a.None? || a.value == "") ==> r == b
  {
    if Truthy(a) then a.value else b
  }
}
