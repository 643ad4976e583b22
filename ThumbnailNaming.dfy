/** The pure rules of the thumbnail upload handler: which image types are
    accepted, where the file extension comes from, and how the stored file
    and its URL are named. */
module ThumbnailNaming {
  import opened Results
  import opened Tubely
  import GoStrings
  import Base64Url

  const Jpeg: string := "image/jpeg"
  const Png: string := "image/png"

  /** The whitelist: the parsed media type must be exactly JPEG or PNG.
      The parse error itself is ignored, so a failed parse only rejects
      through the "" it yields. */
  predicate AcceptedImageType(parsed: MediaType)
    ensures AcceptedImageType(parsed) ==> "image/" <= parsed.base && '/' in parsed.base
  {
    parsed.base == Jpeg || parsed.base == Png
  }

  lemma UnparsedTypeRejected(parsed: MediaType)
    requires parsed.base == ""
    ensures !AcceptedImageType(parsed)
  {
  }

  /** `strings.SplitAfter(mediaType, "/")[1]` on the RAW header: the text
      after its first '/', up to and including a second '/' if there is
      one. Without any '/', index 1 is out of range. */
  function Extension(contentType: string): (ext: Option<string>)
    ensures ext.None? <==> '/' !in contentType
    ensures ext.Some? ==>
              contentType[..GoStrings.Index(contentType, '/') + 1] + ext.value <= contentType
  {
    var parts := GoStrings.SplitAfter(contentType, '/');
    if |parts| < 2 then None
    else
      var i := GoStrings.Index(contentType, '/');
      var rest := contentType[i + 1..];
      assert contentType == contentType[..i + 1] + rest;
      SplitAfterHeadIsPrefix(rest, '/');
      Some(parts[1])
  }

  /** The first part of `SplitAfter` is where the string starts. */
  lemma SplitAfterHeadIsPrefix(s: string, sep: char)
    ensures GoStrings.SplitAfter(s, sep)[0] <= s
  {
  }

  /** A header of the form "type/subtype" gives the subtype. */
  lemma {:induction false} ExtensionOfSimpleType(top: string, sub: string)
    requires '/' !in top && '/' !in sub
    ensures Extension(top + "/" + sub) == Some(sub)
  {
    assert top + "/" + sub == top + ['/'] + sub;
    GoStrings.SplitAtFirst(top, '/', sub);
    GoStrings.SplitFree(sub, '/');
  }

  /** A second '/' in the raw header (in a parameter, say) cuts the
      extension there and keeps that '/'. */
  lemma {:induction false} ExtensionStopsAtSecondSlash(top: string, sub: string, rest: string)
    requires '/' !in top && '/' !in sub
    ensures Extension(top + "/" + sub + "/" + rest) == Some(sub + "/")
  {
    assert top + "/" + sub + "/" + rest == top + ['/'] + (sub + ['/'] + rest);
    GoStrings.SplitAtFirst(top, '/', sub + ['/'] + rest);
    GoStrings.SplitAtFirst(sub, '/', rest);
  }

  lemma ExtensionExamples()
    ensures Extension("image/png") == Some("png")
    ensures Extension("image/jpeg") == Some("jpeg")
  {
    assert "image/png" == "image" + "/" + "png";
    assert "image/jpeg" == "image" + "/" + "jpeg";
    ExtensionOfSimpleType("image", "png");
    ExtensionOfSimpleType("image", "jpeg");
  }

  /** The random part of the file name: 32 random bytes in unpadded
      URL-safe base64. */
  function RandomName(randomBytes: seq<Base64Url.Byte>): (name: string)
    requires |randomBytes| == 32
    ensures |name| == 43
    ensures forall k :: 0 <= k < |name| ==> Base64Url.IsSymbol(name[k])
  {
    Base64Url.ThirtyTwoBytes(randomBytes);
    Base64Url.Encode(randomBytes)
  }

  /** `fmt.Sprintf("%v.%s", randName, extension[1])`. */
  function FileName(randomName: string, ext: string): (name: string)
    ensures |name| == |randomName| + 1 + |ext|
    ensures name[..|randomName|] == randomName && name[|randomName|] == '.' && name[|randomName| + 1..] == ext
  {
    randomName + "." + ext
  }

  /** The random name and the extension can be read back from the file
      name: the first '.' follows the random name, which has none. */
  lemma {:induction false} FileNameLayout(randomBytes: seq<Base64Url.Byte>, ext: string)
    requires |randomBytes| == 32
    ensures var name := FileName(RandomName(randomBytes), ext);
            GoStrings.Index(name, '.') == 43 &&
            name[..43] == RandomName(randomBytes) && name[44..] == ext
  {
    var r := RandomName(randomBytes);
    assert '.' !in r by {
      forall k | 0 <= k < |r| ensures r[k] != '.' {
        assert Base64Url.IsSymbol(r[k]);
      }
    }
    assert FileName(r, ext) == r + ['.'] + ext;
    GoStrings.IndexAfterFree(r, '.', ext);
  }

  const AssetsUrlPrefix: string := "http://localhost:8091/assets/"

  /** The thumbnail URL stored on the record. */
  function ThumbnailUrl(fileName: string): (url: string)
    ensures AssetsUrlPrefix <= url && url[|AssetsUrlPrefix|..] == fileName
  {
    AssetsUrlPrefix + fileName
  }
}
