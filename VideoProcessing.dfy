/** The pure decisions of the video upload handler: classifying the probed
    geometry, choosing the storage prefix, building the storage key and
    naming the fast-start output file. */
module VideoProcessing {
  import opened Results
  import GoStrings

  /** The fields read from the first stream of ffprobe's JSON output. */
  datatype Stream = Stream(width: int, height: int, ratio: string)

  /** What running ffprobe and unmarshalling its output produced. */
  datatype ProbeOutput =
    | ProbeRunFailed                      // the subprocess exited with an error
    | ProbeJsonInvalid                    // json.Unmarshal rejected its output
    | ProbeDecoded(streams: seq<Stream>)  // the decoded `streams` list

  /** Why no aspect ratio came back. `NoStreams` is the Go index panic on
      `p.Streams[0]`; the other two are returned errors. */
  datatype ProbeError = FfprobeFailed | UnmarshalFailed | NoStreams

  const Landscape: string := "16:9"
  const Portrait: string := "9:16"
  const OtherRatio: string := "other"

  /** Go's `%`, which truncates toward zero (Dafny's is Euclidean): the
      quotient is the magnitude's quotient with the dividend's sign, and the
      remainder takes the dividend's sign. */
  function GoRem(a: int, n: int): (r: int)
    requires n > 0
    ensures -n < r < n
    ensures a - r == (if a >= 0 then 1 else -1) * n * ((if a >= 0 then a else -a) / n)
    ensures a >= 0 ==> 0 <= r
    ensures a < 0 ==> r <= 0
    ensures a >= 0 ==> r == a % n
  {
    if a >= 0 then a % n else -((-a) % n)
  }

  /** The two remainders disagree on negative operands but agree on
      whether the remainder is zero, so the divisibility tests by 9 and 16
      carry over. */
  lemma GoRemZero(a: int, n: int)
    requires n == 9 || n == 16
    ensures GoRem(a, n) == 0 <==> a % n == 0
  {
    if n == 9 {
      assert GoRem(a, 9) == 0 <==> a % 9 == 0;
    } else {
      assert GoRem(a, 16) == 0 <==> a % 16 == 0;
    }
  }

  /** The decision at the end of `getVideoAspectRatio` for one stream: a
      declared ratio of exactly "16:9" or "9:16" wins, then landscape
      divisibility is tested before portrait divisibility. */
  function ClassifyStream(s: Stream): (r: string)
    ensures r == Landscape || r == Portrait || r == OtherRatio
    ensures s.ratio == Landscape || s.ratio == Portrait ==> r == s.ratio
  {
    if s.ratio == Landscape || s.ratio == Portrait then s.ratio
    else if GoRem(s.width, 16) == 0 && GoRem(s.height, 9) == 0 then Landscape
    else if GoRem(s.width, 9) == 0 && GoRem(s.height, 16) == 0 then Portrait
    else OtherRatio
  }

  /** `getVideoAspectRatio` after the subprocess: only the first stream is
      looked at, and every failure is an error, never a classification. */
  function GetVideoAspectRatio(p: ProbeOutput): (r: Result<string, ProbeError>)
    ensures r.Ok? <==> p.ProbeDecoded? && |p.streams| > 0
    ensures r.Ok? ==> r.value == Landscape || r.value == Portrait || r.value == OtherRatio
    ensures r.Ok? ==> r.value == ClassifyStream(p.streams[0])
    ensures p.ProbeRunFailed? ==> r == Err(FfprobeFailed)
    ensures p.ProbeJsonInvalid? ==> r == Err(UnmarshalFailed)
    ensures p.ProbeDecoded? && |p.streams| == 0 ==> r == Err(NoStreams)
  {
    match p
    case ProbeRunFailed => Err(FfprobeFailed)
    case ProbeJsonInvalid => Err(UnmarshalFailed)
    case ProbeDecoded(streams) =>
      if |streams| == 0 then Err(NoStreams) else Ok(ClassifyStream(streams[0]))
  }

  /** Without a declared 16:9 or 9:16 ratio the result is decided by
      divisibility alone, landscape first. */
  lemma {:induction false} FallbackClassification(s: Stream)
    requires s.ratio != Landscape && s.ratio != Portrait
    ensures ClassifyStream(s) == Landscape <==> s.width % 16 == 0 && s.height % 9 == 0
    ensures ClassifyStream(s) == Portrait <==>
              !(s.width % 16 == 0 && s.height % 9 == 0) && s.width % 9 == 0 && s.height % 16 == 0
    ensures ClassifyStream(s) == OtherRatio <==>
              !(s.width % 16 == 0 && s.height % 9 == 0) && !(s.width % 9 == 0 && s.height % 16 == 0)
  {
    GoRemZero(s.width, 16);
    GoRemZero(s.height, 9);
    GoRemZero(s.width, 9);
    GoRemZero(s.height, 16);
  }

  /** Worked cases: declared ratios, the divisibility fallback, a
      non-standard size, and dimensions divisible both ways (a square
      144x144 and a stream without dimensions) landing on landscape. */
  lemma ClassificationExamples()
    ensures ClassifyStream(Stream(1920, 1080, "16:9")) == Landscape
    ensures ClassifyStream(Stream(1080, 1920, "9:16")) == Portrait
    ensures ClassifyStream(Stream(1000, 999, "")) == OtherRatio
    ensures ClassifyStream(Stream(1920, 1080, "")) == Landscape
    ensures ClassifyStream(Stream(1080, 1920, "")) == Portrait
    ensures ClassifyStream(Stream(144, 144, "1:1")) == Landscape
    ensures ClassifyStream(Stream(0, 0, "")) == Landscape
    ensures ClassifyStream(Stream(640, 480, "16:9")) == Landscape
  {
  }

  const LandscapePrefix: string := "landscape"
  const PortraitPrefix: string := "portrait"
  const OtherPrefix: string := "other"

  /** The storage prefix chosen from the aspect ratio: the two recognised
      ratios get their own prefixes and everything else is "other". */
  function RatioPrefix(aspectRatio: string): (prefix: string)
    ensures prefix == LandscapePrefix || prefix == PortraitPrefix || prefix == OtherPrefix
    ensures prefix == LandscapePrefix <==> aspectRatio == Landscape
    ensures prefix == PortraitPrefix <==> aspectRatio == Portrait
    ensures '/' !in prefix && ',' !in prefix
  {
    if aspectRatio == Landscape then LandscapePrefix
    else if aspectRatio == Portrait then PortraitPrefix
    else OtherPrefix
  }

  /** The object key `"<prefix>/<video id text>.mp4"`. */
  function VideoKey(prefix: string, videoIdText: string): (key: string)
    ensures |key| == |prefix| + |videoIdText| + 5 && key[|prefix|] == '/'
  {
    prefix + "/" + videoIdText + ".mp4"
  }

  /** The key can be taken apart again: its first path segment is the
      prefix and the rest is the video ID with ".mp4". */
  lemma {:induction false} VideoKeyLayout(prefix: string, videoIdText: string)
    requires '/' !in prefix && '/' !in videoIdText
    ensures GoStrings.Split(VideoKey(prefix, videoIdText), '/') == [prefix, videoIdText + ".mp4"]
  {
    var tail := videoIdText + ".mp4";
    assert '/' !in tail by {
      assert forall k :: 0 <= k < |tail| ==> tail[k] != '/' by {
        forall k | 0 <= k < |tail| ensures tail[k] != '/' {
          if k >= |videoIdText| { assert tail[k] == ".mp4"[k - |videoIdText|]; }
        }
      }
    }
    assert VideoKey(prefix, videoIdText) == prefix + ['/'] + tail;
    GoStrings.SplitAtFirst(prefix, '/', tail);
    GoStrings.SplitFree(tail, '/');
  }

  /** Distinct videos never share a key, and neither do two classes of
      the same video. */
  lemma VideoKeyInjective(p1: string, id1: string, p2: string, id2: string)
    requires '/' !in p1 && '/' !in id1 && '/' !in p2 && '/' !in id2
    requires VideoKey(p1, id1) == VideoKey(p2, id2)
    ensures p1 == p2 && id1 == id2
  {
    VideoKeyLayout(p1, id1);
    VideoKeyLayout(p2, id2);
    assert id1 + ".mp4" == id2 + ".mp4";
    assert id1 == (id1 + ".mp4")[..|id1|];
    assert id2 == (id2 + ".mp4")[..|id2|];
  }

  /** The suffix the remuxer's output path gets. */
  const ProcessingSuffix: string := ".processing"

  /** `processVideoForFastStart`'s output path: the input path extended,
      so it starts with the input path and is never the input itself. */
  function FastStartPath(filePath: string): (out: string)
    ensures |out| == |filePath| + |ProcessingSuffix|
    ensures out[..|filePath|] == filePath
    ensures out != filePath
  {
    filePath + ProcessingSuffix
  }

  /** `processVideoForFastStart`: ffmpeg's success is an input; on success
      the output path is returned, otherwise nothing. */
  function ProcessVideoForFastStart(filePath: string, ffmpegSucceeded: bool): (r: Option<string>)
    ensures r.Some? <==> ffmpegSucceeded
    ensures r.Some? ==> r.value == FastStartPath(filePath)
  {
    if ffmpegSucceeded then Some(FastStartPath(filePath)) else None
  }
}
