/**
 * The checks both dashboard tools apply to a selected file, in their order:
 * a file must be present, its media type must start with "image/", and its
 * size must not exceed 5 MiB.
 */
module FileChecks {
  import opened Wrappers

  /** What the browser reports about a selected file. */
  datatype File = File(name: string, mediaType: string, size: nat)

  /** `5 * 1024 * 1024` bytes. */
  const MaxImageBytes: nat := 5 * 1024 * 1024

  datatype Verdict = NoFile | WrongType | TooLarge | Accepted(file: File)

  predicate IsImageType(mediaType: string) { "image/" <= mediaType }

  /** The first check that fails decides the verdict. */
  function Check(file: Option<File>): (v: Verdict)
    ensures v == NoFile <==> file.None?
    ensures v == WrongType <==> file.Some? && !IsImageType(file.value.mediaType)
    ensures v == TooLarge <==>
      file.Some? && IsImageType(file.value.mediaType) && file.value.size > 5_242_880
    ensures v.Accepted? <==>
      file.Some? && IsImageType(file.value.mediaType) && file.value.size <= 5_242_880
    ensures v.Accepted? ==> v.file == file.value
  {
    match file
    case None => NoFile
    case Some(f) =>
      if !IsImageType(f.mediaType) then WrongType
      else if f.size > MaxImageBytes then TooLarge
      else Accepted(f)
  }

  /** The message shown for a rejected file. */
  function Message(v: Verdict): (m: string)
    requires !v.Accepted?
    ensures m != ""
  {
    match v
    case NoFile => "No file selected"
    case WrongType => "Please select a valid image file (jpg, png, etc.)"
    case TooLarge => "File size must be less than 5 MB"
  }
}
