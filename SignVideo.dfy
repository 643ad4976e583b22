/** The persisted video reference `"<bucket>,<key>"` and its expansion
    into a presigned playback URL (`dbVideoToSignedVideo`). */
module SignVideo {
  import opened Results
  import opened Tubely
  import GoStrings

  /** `fmt.Sprintf("%s,%s", bucket, key)`: the string stored in VideoURL. */
  function EncodeReference(bucket: string, key: string): (reference: string)
    ensures |reference| == |bucket| + 1 + |key| && reference[|bucket|] == ','
  {
    bucket + "," + key
  }

  /** Why a reference could not be split: a nil VideoURL dereferenced, or
      `parts[1]` out of range. Both are Go runtime panics. */
  datatype ReferenceError = NilReference | NoSeparator

  /** `strings.Split(*video.VideoURL, ",")` followed by `parts[0], parts[1]`.
      Parts after the second are ignored. */
  function DecodeReference(reference: Option<string>): (r: Result<(string, string), ReferenceError>)
    ensures reference.None? <==> r == Err(NilReference)
    ensures reference.Some? ==> (r == Err(NoSeparator) <==> ',' !in reference.value)
    ensures r.Ok? ==> ',' !in r.value.0 && ',' !in r.value.1
    ensures r.Ok? ==> EncodeReference(r.value.0, r.value.1) <= reference.value
  {
    match reference
    case None => Err(NilReference)
    case Some(s) =>
      var parts := GoStrings.Split(s, ',');
      if |parts| < 2 then Err(NoSeparator)
      else
        GoStrings.SplitPartsFree(s, ',');
        FirstTwoPartsArePrefix(s, ',');
        Ok((parts[0], parts[1]))
  }

  /** The first two parts of a split, with the separator between them, are
      where the string starts. */
  lemma FirstTwoPartsArePrefix(s: string, sep: char)
    requires |GoStrings.Split(s, sep)| >= 2
    ensures GoStrings.Split(s, sep)[0] + [sep] + GoStrings.Split(s, sep)[1] <= s
  {
    var parts := GoStrings.Split(s, sep);
    var i := GoStrings.Index(s, sep);
    GoStrings.SplitUnfold(s, sep);
    assert i < |s|;
    var rest := s[i + 1..];
    var j := GoStrings.Index(rest, sep);
    GoStrings.SplitUnfold(rest, sep);
    assert parts[1] == parts[1..][0] == rest[..j];
    JoinAround(s, i, j);
    assert s[..i + 1 + j] <= s;
  }

  /** Cutting `s` at position `i`, which holds `s[i]`, and taking `j`
      more characters gives back a prefix of `s`. */
  lemma JoinAround(s: string, i: nat, j: nat)
    requires i + 1 + j <= |s|
    ensures s[..i] + [s[i]] + s[i + 1..][..j] == s[..i + 1 + j]
  {
    var a := s[..i] + [s[i]] + s[i + 1..][..j];
    assert |a| == i + 1 + j;
    forall k | 0 <= k < |a|
      ensures a[k] == s[k]
    {
      if k > i {
        assert a[k] == s[i + 1..][..j][k - i - 1];
      }
    }
  }

  /** Round trip: splitting a stored reference gives back the bucket and
      key exactly when neither contains a comma. */
  lemma {:induction false} ReferenceRoundTrip(bucket: string, key: string)
    ensures DecodeReference(Some(EncodeReference(bucket, key))) == Ok((bucket, key))
            <==> ',' !in bucket && ',' !in key
  {
    if ',' !in bucket && ',' !in key {
      assert EncodeReference(bucket, key) == bucket + [','] + key;
      GoStrings.SplitAtFirst(bucket, ',', key);
      GoStrings.SplitFree(key, ',');
    }
  }

  /** A stored reference always has a comma, so decoding it never hits the
      out-of-range panic. */
  lemma EncodedReferenceSplits(bucket: string, key: string)
    ensures DecodeReference(Some(EncodeReference(bucket, key))).Ok?
  {
    var s := EncodeReference(bucket, key);
    assert s[|bucket|] == ',';
  }

  /** A key that itself contains a comma comes back cut at that comma. */
  lemma {:induction false} ReferenceTruncatesKey(bucket: string, key: string)
    requires ',' !in bucket && ',' in key
    ensures DecodeReference(Some(EncodeReference(bucket, key)))
            == Ok((bucket, key[..GoStrings.Index(key, ',')]))
    ensures |key[..GoStrings.Index(key, ',')]| < |key|
  {
    assert EncodeReference(bucket, key) == bucket + [','] + key;
    GoStrings.SplitAtFirst(bucket, ',', key);
    GoStrings.SplitUnfold(key, ',');
  }

  /** `10 * time.Minute`, in nanoseconds as Go's `time.Duration` counts. */
  const PresignExpiry: nat := 10 * 60 * 1000000000

  /** What `generatePresignedURL` returned. */
  datatype PresignResult = Presigned(url: string) | PresignFailed(err: string)

  /** `generatePresignedURL(client, bucket, key, expireTime)`, whose SDK call
      is not part of this model. */
  type Presigner = (string, string, nat) -> PresignResult

  /** What `dbVideoToSignedVideo` did. */
  datatype SignOutcome =
    | Signed(video: Video)                      // (video, nil)
    | SignFailed(video: Video, err: string)     // (database.Video{}, err)
    | SignPanicked(reason: ReferenceError)      // a runtime panic while splitting

  /** `dbVideoToSignedVideo`: the record is taken by value, its reference
      split, and a copy with the presigned URL in VideoURL returned. */
  function DbVideoToSignedVideo(video: Video, presign: Presigner): (r: SignOutcome)
    ensures r.SignPanicked? <==> DecodeReference(video.videoUrl).Err?
    ensures r.SignPanicked? ==> r.reason == DecodeReference(video.videoUrl).error
    ensures !r.SignPanicked? ==>
              var (bucket, key) := DecodeReference(video.videoUrl).value;
              (r.Signed? <==> presign(bucket, key, PresignExpiry).Presigned?) &&
              (r.Signed? ==> r.video.videoUrl == Some(presign(bucket, key, PresignExpiry).url))
    ensures r.Signed? ==> r.video.(videoUrl := video.videoUrl) == video
    ensures r.SignFailed? ==> r.video == EmptyVideo()
  {
    match DecodeReference(video.videoUrl)
    case Err(e) => SignPanicked(e)
    case Ok((bucket, key)) =>
      match presign(bucket, key, PresignExpiry)
      case PresignFailed(err) => SignFailed(EmptyVideo(), err)
      case Presigned(url) => Signed(video.(videoUrl := Some(url)))
  }

  /** Signing a record whose reference was stored by the upload handler
      asks the presigner for exactly that bucket and key, for ten minutes,
      and never panics. */
  lemma SignStoredReference(video: Video, bucket: string, key: string, presign: Presigner)
    requires ',' !in bucket && ',' !in key
    requires video.videoUrl == Some(EncodeReference(bucket, key))
    ensures DbVideoToSignedVideo(video, presign) ==
              match presign(bucket, key, PresignExpiry)
              case Presigned(url) => Signed(video.(videoUrl := Some(url)))
              case PresignFailed(err) => SignFailed(EmptyVideo(), err)
  {
    ReferenceRoundTrip(bucket, key);
  }
}
