/**
 * The check both the register page and the profile page make on a chosen picture before
 * reading it: a MIME type starting with "image/", then a size limit in bytes.
 */
module ImageFile {
  import opened Common
  import opened Text

  /** A chosen file: its MIME type and its size in bytes. */
  datatype File = File(mimeType: string, size: int)

  /** The register page's limit: 5 MB. */
  const REGISTER_MAX_BYTES := 5 * 1024 * 1024

  /** The profile page's limit: 2 MB. */
  const PROFILE_MAX_BYTES := 2 * 1024 * 1024

  datatype ImageCheck = NoFile | NotAnImage | TooLarge | Readable

  /** `files?.[0]` absent, then the type test, then the size test. */
  function CheckImage(file: Option<File>, maxBytes: int): (r: ImageCheck)
    ensures r == NoFile <==> file.None?
    ensures r == NotAnImage <==> file.Some? && !StartsWith(file.value.mimeType, "image/")
    ensures r == TooLarge <==> file.Some? && StartsWith(file.value.mimeType, "image/") && file.value.size > maxBytes
    ensures r == Readable <==> file.Some? && StartsWith(file.value.mimeType, "image/") && file.value.size <= maxBytes
  {
    if file.None? then NoFile
    else if !StartsWith(file.value.mimeType, "image/") then NotAnImage
    else if file.value.size > maxBytes then TooLarge
    else Readable
  }

  /** The limit itself is accepted and one byte more is not; the type is tested first. */
  lemma CheckImageLimits(mimeType: string, maxBytes: int)
    ensures StartsWith(mimeType, "image/") ==> CheckImage(Some(File(mimeType, maxBytes)), maxBytes) == Readable
    ensures StartsWith(mimeType, "image/") ==> CheckImage(Some(File(mimeType, maxBytes + 1)), maxBytes) == TooLarge
    ensures !StartsWith(mimeType, "image/") ==> CheckImage(Some(File(mimeType, maxBytes + 1)), maxBytes) == NotAnImage
    ensures REGISTER_MAX_BYTES == 5242880 && PROFILE_MAX_BYTES == 2097152
  {
  }
}
