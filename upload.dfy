/**
 * The client-side image check shared by the menu-item image upload and the
 * logo upload: a MIME type matching `^image\/(jpg|jpeg|png|gif|webp)$`,
 * then a size of at most 5 MiB, tested in that order.
 */
module Upload {
  import opened Wrappers

  const MaxImageBytes := 5 * 1024 * 1024
  const ImageSubtypes := {"jpg", "jpeg", "png", "gif", "webp"}
  const ImageTypes := {"image/jpg", "image/jpeg", "image/png", "image/gif", "image/webp"}

  const UnsupportedTypeText := "يرجى اختيار صورة بصيغة JPG, PNG, GIF أو WebP"
  const TooLargeText := "حجم الصورة يجب أن يكون أقل من 5 ميجابايت"

  /** A chosen file: its MIME type and size in bytes. */
  datatype File = File(mime: string, size: int)

  datatype ImageError = UnsupportedType | TooLarge

  /** The anchored pattern, read literally: `image/` followed by exactly one allowed subtype. */
  predicate MatchesImagePattern(mime: string)
  {
    "image/" <= mime && mime[6..] in ImageSubtypes
  }

  /** The pattern accepts exactly the five listed MIME types. */
  lemma ImagePatternIsTypeList(mime: string)
    ensures MatchesImagePattern(mime) <==> mime in ImageTypes
  {
    if MatchesImagePattern(mime) {
      var sub := mime[6..];
      assert mime == "image/" + sub by { assert mime == mime[..6] + mime[6..]; }
      if sub == "jpg" { assert mime == "image/jpg"; }
      else if sub == "jpeg" { assert mime == "image/jpeg"; }
      else if sub == "png" { assert mime == "image/png"; }
      else if sub == "gif" { assert mime == "image/gif"; }
      else { assert mime == "image/webp"; }
    }
    if mime in ImageTypes {
      assert mime[..6] == "image/";
      if mime == "image/jpg" { assert mime[6..] == "jpg"; }
      else if mime == "image/jpeg" { assert mime[6..] == "jpeg"; }
      else if mime == "image/png" { assert mime[6..] == "png"; }
      else if mime == "image/gif" { assert mime[6..] == "gif"; }
      else { assert mime[6..] == "webp"; }
    }
  }

  /**
   * The check: a type outside the pattern is reported first, whatever the
   * size; an accepted type larger than 5 MiB is reported next; anything
   * else passes.
   */
  function CheckImage(f: File): (r: Option<ImageError>)
    ensures r == None <==> MatchesImagePattern(f.mime) && f.size <= MaxImageBytes
    ensures r == Some(UnsupportedType) <==> !MatchesImagePattern(f.mime)
    ensures r == Some(TooLarge) <==> MatchesImagePattern(f.mime) && f.size > 5242880
  {
    if !MatchesImagePattern(f.mime) then Some(UnsupportedType)
    else if f.size > MaxImageBytes then Some(TooLarge)
    else None
  }

  function ImageErrorText(e: ImageError): string
  {
    match e
    case UnsupportedType => UnsupportedTypeText
    case TooLarge => TooLargeText
  }
}
