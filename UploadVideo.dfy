/** `handlerUploadVideo` as a specification: the request and the answers of
    the outside world decide the first check that fails, and that one stage
    decides the response, the calls made and the state left behind. */
module UploadVideo {
  import opened Results
  import opened Tubely
  import opened VideoProcessing
  import opened SignVideo
  import GoStrings

  /** The request once routing and multipart parsing are done: the path's
      video ID as text and as parsed by `uuid.Parse`, the bearer token's
      verdict, and the "video" form file if there is one. */
  datatype VideoRequestFields = VideoRequest(
    videoIdText: string,
    videoId: Option<Uuid>,
    auth: Auth,
    file: Option<FilePart>)

  /** The characters `uuid.Parse` accepts: hex digits, hyphens, the braces
      of "{...}" and the letters and colon of a "urn:uuid:" prefix, in
      either case. */
  predicate UuidChar(c: char)
  {
    '0' <= c <= '9' || 'a' <= c <= 'f' || 'A' <= c <= 'F' || c in "-{}:uUrRnNiI"
  }

  /** An ID text that parsed holds only characters `uuid.Parse` accepts. */
  predicate IdTextParsed(rq: VideoRequestFields)
  {
    rq.videoId.Some? ==> forall k :: 0 <= k < |rq.videoIdText| ==> UuidChar(rq.videoIdText[k])
  }

  /** The requests the router can hand over: `videoId` is parsed from
      `videoIdText`. */
  type VideoRequest = rq: VideoRequestFields | IdTextParsed(rq)
    witness VideoRequest("", None, NoToken, None)

  /** A parsed ID text has neither a comma nor a slash, so it can sit in a
      storage key and in a stored reference. */
  lemma ParsedIdTextIsPlain(rq: VideoRequest)
    requires rq.videoId.Some?
    ensures ',' !in rq.videoIdText && '/' !in rq.videoIdText
  {
    forall k | 0 <= k < |rq.videoIdText|
      ensures rq.videoIdText[k] != ',' && rq.videoIdText[k] != '/'
    {
      assert UuidChar(rq.videoIdText[k]);
    }
  }

  /** The answers the outside world gives this upload: the temporary file
      `os.CreateTemp` made (or none), whether copying the body into it
      worked, what ffprobe produced, whether ffmpeg, opening its output,
      `PutObject` and `UpdateVideo` succeeded, and the presigner. */
  datatype VideoWorld = VideoWorld(
    tempPath: Option<string>,
    copied: bool,
    probe: ProbeOutput,
    remuxed: bool,
    outputOpened: bool,
    putOk: bool,
    updateOk: bool,
    presign: Presigner)

  /** The only accepted container type. */
  const Mp4Type: string := "video/mp4"

  /** The point where the handler stopped: a failed check, or `Uploaded`. */
  datatype VideoStage =
    | InvalidVideoId | TokenMissing | TokenInvalid | VideoNotFound | NotOwner
    | MissingVideoPart | BadContentType | NotMp4
    | TempFileUnavailable | TempWriteFailed | ProbeFailed | ProbeNoStreams
    | RemuxFailed | OpenFailed | PutFailed | UpdateFailed | SigningFailed | Uploaded

  /** The checks made before anything is written anywhere. */
  predicate EarlyStage(stage: VideoStage)
  {
    stage.InvalidVideoId? || stage.TokenMissing? || stage.TokenInvalid? || stage.VideoNotFound? ||
    stage.NotOwner? || stage.MissingVideoPart? || stage.BadContentType? || stage.NotMp4?
  }

  /** The temporary file's path ("" when there is none). */
  function TempPath(w: VideoWorld): string
  {
    w.tempPath.GetOr("")
  }

  /** The aspect ratio ffprobe gave ("" when it gave none). */
  function ProbedRatio(w: VideoWorld): string
  {
    match GetVideoAspectRatio(w.probe)
    case Ok(ratio) => ratio
    case Err(_) => ""
  }

  /** The storage key of this upload. */
  function UploadKey(videoIdText: string, w: VideoWorld): string
  {
    VideoKey(RatioPrefix(ProbedRatio(w)), videoIdText)
  }

  /** The record as the handler rewrites it: the stored reference in
      VideoURL, nothing else changed. */
  function UploadedRecord(bucket: string, video: Video, key: string): Video
  {
    video.(videoUrl := Some(EncodeReference(bucket, key)))
  }

  /** The first check that fails, in the handler's order. The checks on
      the request come first; `ProcessingStage` takes over from the
      temporary file on. */
  function StageOf(bucket: string, s: State, rq: VideoRequest, w: VideoWorld): (stage: VideoStage)
    ensures !EarlyStage(stage) ==>
              rq.videoId.Some? && rq.videoId.value in s.db && rq.auth.Authenticated? &&
              s.db[rq.videoId.value].userId == rq.auth.userId && rq.file.Some? &&
              !rq.file.value.parsedType.failed && rq.file.value.parsedType.base == Mp4Type
  {
    if rq.videoId.None? then InvalidVideoId
    else if rq.auth.NoToken? then TokenMissing
    else if rq.auth.BadToken? then TokenInvalid
    else if rq.videoId.value !in s.db then VideoNotFound
    else if s.db[rq.videoId.value].userId != rq.auth.userId then NotOwner
    else if rq.file.None? then MissingVideoPart
    else if rq.file.value.parsedType.failed then BadContentType
    else if rq.file.value.parsedType.base != Mp4Type then NotMp4
    else ProcessingStage(bucket, s.db[rq.videoId.value], rq.videoIdText, w)
  }

  /** The first step from the temporary file on that fails, for the
      caller's record `video`. */
  function ProcessingStage(bucket: string, video: Video, videoIdText: string, w: VideoWorld): (stage: VideoStage)
    ensures !EarlyStage(stage)
  {
    if w.tempPath.None? then TempFileUnavailable
    else if !w.copied then TempWriteFailed
    else if GetVideoAspectRatio(w.probe) == Err(NoStreams) then ProbeNoStreams
    else if GetVideoAspectRatio(w.probe).Err? then ProbeFailed
    else if !w.remuxed then RemuxFailed
    else if !w.outputOpened then OpenFailed
    else if !w.putOk then PutFailed
    else if !w.updateOk then UpdateFailed
    else
      var record := UploadedRecord(bucket, video, UploadKey(videoIdText, w));
      if DbVideoToSignedVideo(record, w.presign).SignFailed? then SigningFailed
      else Uploaded
  }

  /** What the handler answers when it stops at `stage`. */
  function ResponseOf(stage: VideoStage): (r: Response)
    ensures r.ErrorResponse? ==> r.code == StatusBadRequest || r.code == StatusUnauthorized
    ensures r.NothingWritten? <==> stage.Uploaded?
  {
    match stage
    case InvalidVideoId => ErrorResponse(StatusBadRequest, "Invalid video ID")
    case TokenMissing => ErrorResponse(StatusUnauthorized, "Couldn't find JWT")
    case TokenInvalid => ErrorResponse(StatusUnauthorized, "Couldn't validate JWT")
    case VideoNotFound => ErrorResponse(StatusBadRequest, "Couldn't find video")
    case NotOwner => ErrorResponse(StatusUnauthorized, "User doesn't own video")
    case MissingVideoPart => ErrorResponse(StatusBadRequest, "Couldn't form a video")
    case BadContentType => ErrorResponse(StatusBadRequest, "Couldn't find content type")
    case NotMp4 => ErrorResponse(StatusBadRequest, "Wrong content type")
    case TempFileUnavailable => Panicked("invalid memory address or nil pointer dereference")
    case TempWriteFailed => ErrorResponse(StatusBadRequest, "Couldn't write video to file")
    case ProbeFailed => ErrorResponse(StatusBadRequest, "Couldn't check aspect ratio")
    case ProbeNoStreams => Panicked("index out of range [0] with length 0")
    case RemuxFailed => ErrorResponse(StatusBadRequest, "Couldn't process video")
    case OpenFailed => ErrorResponse(StatusBadRequest, "Couldn't open the new file")
    case PutFailed => ErrorResponse(StatusBadRequest, "Error uploading file to S3")
    case UpdateFailed => ErrorResponse(StatusBadRequest, "Error updating video data in db")
    case SigningFailed => ErrorResponse(StatusBadRequest, "Error generating signed link to video")
    case Uploaded => NothingWritten
  }

  /** Every external call the handler can make for the record `video`, in
      the order it makes them. */
  function Pipeline(bucket: string, video: Video, videoIdText: string, w: VideoWorld): (calls: seq<Effect>)
    ensures |calls| == 6
  {
    var tmp := TempPath(w);
    var key := UploadKey(videoIdText, w);
    EncodedReferenceSplits(bucket, key);
    var (signBucket, signKey) := DecodeReference(Some(EncodeReference(bucket, key))).value;
    [ WriteTemp(tmp),
      ProbeFile(tmp),
      RemuxFile(tmp, FastStartPath(tmp)),
      PutObject(bucket, key),
      UpdateRecord(video.id),
      PresignGet(signBucket, signKey, PresignExpiry) ]
  }

  /** How many of those calls were made before stopping at `stage`. */
  function CallsMade(stage: VideoStage): (n: nat)
    ensures n <= 6
    ensures n == 0 <==> EarlyStage(stage) || stage.TempFileUnavailable?
  {
    match stage
    case TempWriteFailed => 1
    case ProbeFailed | ProbeNoStreams => 2
    case RemuxFailed | OpenFailed => 3
    case PutFailed => 4
    case UpdateFailed => 5
    case SigningFailed | Uploaded => 6
    case _ => 0
  }

  /** Whether the object reached storage. */
  predicate Stored(stage: VideoStage)
  {
    stage.UpdateFailed? || stage.SigningFailed? || stage.Uploaded?
  }

  /** Whether the record was updated. */
  predicate Recorded(stage: VideoStage)
  {
    stage.SigningFailed? || stage.Uploaded?
  }

  /** The handler from the temporary file on, for the caller's record
      `video`: its response and the state it leaves. Temporary files are
      removed on every path that registered their removal; the remuxed file
      is only registered after it was opened. */
  function ProcessOutcome(bucket: string, s: State, video: Video, videoIdText: string, w: VideoWorld): (run: Run)
    requires WellKeyed(s.db)
    ensures WellKeyed(run.state.db)
  {
    var stage := ProcessingStage(bucket, video, videoIdText, w);
    var tmp := TempPath(w);
    var key := UploadKey(videoIdText, w);
    Run(
      ResponseOf(stage),
      State(
        if Recorded(stage) then UpdateVideo(s.db, UploadedRecord(bucket, video, key)) else s.db,
        if Stored(stage) then s.objects[(bucket, key) := StoredObject(Mp4Type, FastStartPath(tmp))]
        else s.objects,
        if stage.OpenFailed? then s.tempFiles + {FastStartPath(tmp)} else s.tempFiles,
        s.assets,
        s.effects + Pipeline(bucket, video, videoIdText, w)[..CallsMade(stage)]))
  }

  /** The whole handler: a request that fails a check is answered and
      nothing else happens; one that passes them is processed. */
  function Outcome(bucket: string, s: State, rq: VideoRequest, w: VideoWorld): (run: Run)
    requires WellKeyed(s.db)
    ensures WellKeyed(run.state.db)
  {
    var stage := StageOf(bucket, s, rq, w);
    if EarlyStage(stage) then Run(ResponseOf(stage), s)
    else ProcessOutcome(bucket, s, s.db[rq.videoId.value], rq.videoIdText, w)
  }

  /** What the temporary-file creator promises: a fresh path, whose
      ".processing" sibling does not exist either. */
  predicate FreshTemp(s: State, w: VideoWorld)
  {
    w.tempPath.Some? ==>
      w.tempPath.value !in s.tempFiles && FastStartPath(w.tempPath.value) !in s.tempFiles
  }

  /** An invalid ID, a missing or invalid token, an unknown video, a
      caller who does not own it, a missing file part or a content type
      other than video/mp4 is rejected before anything happens: no
      temporary file, no call, no change. */
  lemma EarlyRejectionChangesNothing(bucket: string, s: State, rq: VideoRequest, w: VideoWorld)
    requires WellKeyed(s.db)
    requires rq.videoId.None? || !rq.auth.Authenticated? || rq.videoId.value !in s.db ||
             s.db[rq.videoId.value].userId != rq.auth.userId || rq.file.None? ||
             rq.file.value.parsedType.failed || rq.file.value.parsedType.base != Mp4Type
    ensures Outcome(bucket, s, rq, w).state == s
    ensures Outcome(bucket, s, rq, w).response.ErrorResponse?
  {
  }

  /** A caller who is not the owner gets 401 and the record is untouched. */
  lemma NonOwnerRejected(bucket: string, s: State, rq: VideoRequest, w: VideoWorld)
    requires WellKeyed(s.db)
    requires rq.videoId.Some? && rq.auth.Authenticated? && rq.videoId.value in s.db
    requires s.db[rq.videoId.value].userId != rq.auth.userId
    ensures Outcome(bucket, s, rq, w).response == ErrorResponse(StatusUnauthorized, "User doesn't own video")
    ensures Outcome(bucket, s, rq, w).state.db[rq.videoId.value] == s.db[rq.videoId.value]
  {
  }

  /** What any upload leaves alone or only extends: no record appears or
      disappears, objects are only added or replaced, the assets directory
      is untouched, and the call log grows by at most the six pipeline
      calls. Nothing at all changes unless the caller owns an existing
      record. */
  lemma OutcomeFrame(bucket: string, s: State, rq: VideoRequest, w: VideoWorld)
    requires WellKeyed(s.db)
    ensures var run := Outcome(bucket, s, rq, w);
            run.state.db.Keys == s.db.Keys && s.objects.Keys <= run.state.objects.Keys &&
            run.state.assets == s.assets &&
            s.effects <= run.state.effects && |run.state.effects| <= |s.effects| + 6
    ensures Outcome(bucket, s, rq, w).state != s ==>
              rq.videoId.Some? && rq.auth.Authenticated? && rq.videoId.value in s.db &&
              s.db[rq.videoId.value].userId == rq.auth.userId
  {
    if !EarlyStage(StageOf(bucket, s, rq, w)) {
      var video := s.db[rq.videoId.value];
      assert video.id == rq.videoId.value;
      var stage := ProcessingStage(bucket, video, rq.videoIdText, w);
      var calls := Pipeline(bucket, video, rq.videoIdText, w);
      assert |calls[..CallsMade(stage)]| <= 6;
    }
  }

  /** The calls the handler makes are a prefix of its pipeline, appended
      to the log. */
  lemma CallsArePipelinePrefix(bucket: string, s: State, rq: VideoRequest, w: VideoWorld)
    requires WellKeyed(s.db)
    ensures var run := Outcome(bucket, s, rq, w);
            s.effects <= run.state.effects &&
            (EarlyStage(StageOf(bucket, s, rq, w)) ==> NewCalls(s, run) == []) &&
            (!EarlyStage(StageOf(bucket, s, rq, w)) ==>
               NewCalls(s, run) ==
                 Pipeline(bucket, s.db[rq.videoId.value], rq.videoIdText, w)[..CallsMade(StageOf(bucket, s, rq, w))])
  {
    var run := Outcome(bucket, s, rq, w);
    if EarlyStage(StageOf(bucket, s, rq, w)) {
      assert run.state.effects == s.effects;
    }
  }

  /** The object is put only after the probe classified the file and the
      remux and the opening of its output succeeded; the put is the fourth
      call, after the probe and the remux of the temporary file. */
  lemma {:induction false} PutOnlyAfterProcessing(bucket: string, s: State, rq: VideoRequest, w: VideoWorld)
    requires WellKeyed(s.db)
    ensures var calls := NewCalls(s, Outcome(bucket, s, rq, w));
            forall i :: 0 <= i < |calls| && calls[i].PutObject? ==>
              i == 3 && calls[1] == ProbeFile(TempPath(w)) &&
              calls[2] == RemuxFile(TempPath(w), FastStartPath(TempPath(w))) &&
              GetVideoAspectRatio(w.probe).Ok? && w.remuxed && w.outputOpened
  {
    var calls := NewCalls(s, Outcome(bucket, s, rq, w));
    CallsArePipelinePrefix(bucket, s, rq, w);
    var stage := StageOf(bucket, s, rq, w);
    if !EarlyStage(stage) {
      var all := Pipeline(bucket, s.db[rq.videoId.value], rq.videoIdText, w);
      PipelineShape(bucket, s.db[rq.videoId.value], rq.videoIdText, w);
      StageNeeds(bucket, s.db[rq.videoId.value], rq.videoIdText, w);
      forall i | 0 <= i < |calls| && calls[i].PutObject?
        ensures i == 3 && calls[1] == ProbeFile(TempPath(w)) &&
                calls[2] == RemuxFile(TempPath(w), FastStartPath(TempPath(w))) &&
                GetVideoAspectRatio(w.probe).Ok? && w.remuxed && w.outputOpened
      {
        assert calls[i] == all[i];
      }
    }
  }

  /** The record is updated only after the put succeeded, as the call
      right after the put. */
  lemma {:induction false} UpdateOnlyAfterPut(bucket: string, s: State, rq: VideoRequest, w: VideoWorld)
    requires WellKeyed(s.db)
    ensures var calls := NewCalls(s, Outcome(bucket, s, rq, w));
            forall i :: 0 <= i < |calls| && calls[i].UpdateRecord? ==>
              i == 4 && calls[3] == PutObject(bucket, UploadKey(rq.videoIdText, w)) && w.putOk
  {
    var calls := NewCalls(s, Outcome(bucket, s, rq, w));
    CallsArePipelinePrefix(bucket, s, rq, w);
    var stage := StageOf(bucket, s, rq, w);
    if !EarlyStage(stage) {
      var all := Pipeline(bucket, s.db[rq.videoId.value], rq.videoIdText, w);
      PipelineShape(bucket, s.db[rq.videoId.value], rq.videoIdText, w);
      StageNeeds(bucket, s.db[rq.videoId.value], rq.videoIdText, w);
      forall i | 0 <= i < |calls| && calls[i].UpdateRecord?
        ensures i == 4 && calls[3] == PutObject(bucket, UploadKey(rq.videoIdText, w)) && w.putOk
      {
        assert calls[i] == all[i];
      }
    }
  }

  /** What each stage past the temporary file says about the answers of
      the outside world. */
  lemma StageNeeds(bucket: string, video: Video, videoIdText: string, w: VideoWorld)
    ensures var stage := ProcessingStage(bucket, video, videoIdText, w);
            (CallsMade(stage) > 0 ==> w.tempPath.Some?) &&
            (CallsMade(stage) > 3 ==> w.tempPath.Some? && w.copied && GetVideoAspectRatio(w.probe).Ok? &&
                                      w.remuxed && w.outputOpened) &&
            (CallsMade(stage) > 4 ==> w.putOk) &&
            (Stored(stage) ==> CallsMade(stage) > 4) &&
            (Recorded(stage) ==> w.updateOk)
  {
  }

  /** When every step succeeds, the signing alone decides the stage. */
  lemma StageWhenAllSucceed(bucket: string, video: Video, videoIdText: string, w: VideoWorld)
    requires w.tempPath.Some? && w.copied && GetVideoAspectRatio(w.probe).Ok?
    requires w.remuxed && w.outputOpened && w.putOk && w.updateOk
    ensures ProcessingStage(bucket, video, videoIdText, w) ==
              if DbVideoToSignedVideo(UploadedRecord(bucket, video, UploadKey(videoIdText, w)), w.presign).SignFailed?
              then SigningFailed else Uploaded
  {
  }

  /** Where each kind of call sits in the pipeline. */
  lemma PipelineShape(bucket: string, video: Video, videoIdText: string, w: VideoWorld)
    ensures var calls := Pipeline(bucket, video, videoIdText, w);
            var tmp := TempPath(w);
            calls[1] == ProbeFile(tmp) && calls[2] == RemuxFile(tmp, FastStartPath(tmp)) &&
            calls[3] == PutObject(bucket, UploadKey(videoIdText, w)) &&
            forall i :: 0 <= i < |calls| ==> (calls[i].PutObject? <==> i == 3) && (calls[i].UpdateRecord? <==> i == 4)
  {
  }

  /** Neither the record nor storage changes unless the remux, the open
      and the put succeeded, and the record not unless its update did. */
  lemma StorageChangesOnlyAfterPut(bucket: string, s: State, rq: VideoRequest, w: VideoWorld)
    requires WellKeyed(s.db)
    ensures var run := Outcome(bucket, s, rq, w);
            (run.state.db != s.db ==> w.putOk && w.updateOk) &&
            (run.state.objects != s.objects ==> w.remuxed && w.outputOpened && w.putOk)
  {
    if !EarlyStage(StageOf(bucket, s, rq, w)) {
      StageNeeds(bucket, s.db[rq.videoId.value], rq.videoIdText, w);
    }
  }

  /** A failed probe or remux leaves the record and storage as they were. */
  lemma ProcessingFailureStoresNothing(bucket: string, s: State, rq: VideoRequest, w: VideoWorld)
    requires WellKeyed(s.db)
    requires GetVideoAspectRatio(w.probe).Err? || !w.remuxed
    ensures Outcome(bucket, s, rq, w).state.db == s.db
    ensures Outcome(bucket, s, rq, w).state.objects == s.objects
  {
    if !EarlyStage(StageOf(bucket, s, rq, w)) {
      StageNeeds(bucket, s.db[rq.videoId.value], rq.videoIdText, w);
    }
  }

  /** Temporary files: the uploaded copy never outlives the request; the
      remuxed copy does only when opening it failed, because its removal
      is registered after the open. */
  lemma TempFilesAfterUpload(bucket: string, s: State, rq: VideoRequest, w: VideoWorld)
    requires WellKeyed(s.db) && FreshTemp(s, w)
    ensures var after := Outcome(bucket, s, rq, w).state.tempFiles;
            after - s.tempFiles ==
              if StageOf(bucket, s, rq, w).OpenFailed? then {FastStartPath(TempPath(w))} else {}
    ensures TempPath(w) !in Outcome(bucket, s, rq, w).state.tempFiles || TempPath(w) in s.tempFiles
  {
    var tmp := TempPath(w);
    assert FastStartPath(tmp) != tmp;
    if !EarlyStage(StageOf(bucket, s, rq, w)) {
      StageNeeds(bucket, s.db[rq.videoId.value], rq.videoIdText, w);
    }
  }

  /** A stored key has no comma when the video ID text has none. */
  lemma KeyWithoutComma(prefix: string, videoIdText: string)
    requires ',' !in prefix && ',' !in videoIdText
    ensures ',' !in VideoKey(prefix, videoIdText)
  {
    var key := VideoKey(prefix, videoIdText);
    forall k | 0 <= k < |key| ensures key[k] != ',' {
      if k < |prefix| { assert key[k] == prefix[k]; }
      else if k == |prefix| { assert key[k] == '/'; }
      else if k < |prefix| + 1 + |videoIdText| { assert key[k] == videoIdText[k - |prefix| - 1]; }
      else { assert key[k] == ".mp4"[k - |prefix| - 1 - |videoIdText|]; }
    }
  }

  /** The key of an upload whose ID parsed has no comma, and splits at
      '/' into the class prefix and "<id>.mp4". */
  lemma UploadKeyLayout(rq: VideoRequest, w: VideoWorld)
    requires rq.videoId.Some?
    ensures ',' !in UploadKey(rq.videoIdText, w)
    ensures GoStrings.Split(UploadKey(rq.videoIdText, w), '/') ==
              [RatioPrefix(ProbedRatio(w)), rq.videoIdText + ".mp4"]
  {
    ParsedIdTextIsPlain(rq);
    KeyWithoutComma(RatioPrefix(ProbedRatio(w)), rq.videoIdText);
    VideoKeyLayout(RatioPrefix(ProbedRatio(w)), rq.videoIdText);
  }

  /** A stop before the put leaves the record and storage alone; only the
      calls made so far and, after a failed open, the remuxed file remain. */
  lemma StoppedBeforePut(bucket: string, s: State, video: Video, videoIdText: string, w: VideoWorld)
    requires WellKeyed(s.db)
    requires CallsMade(ProcessingStage(bucket, video, videoIdText, w)) <= 3
    ensures var stage := ProcessingStage(bucket, video, videoIdText, w);
            ProcessOutcome(bucket, s, video, videoIdText, w) ==
              Run(ResponseOf(stage),
                  s.(tempFiles := if stage.OpenFailed? then s.tempFiles + {FastStartPath(TempPath(w))} else s.tempFiles,
                     effects := s.effects + Pipeline(bucket, video, videoIdText, w)[..CallsMade(stage)]))
  {
    StageNeeds(bucket, video, videoIdText, w);
  }

  /** A failed put or update leaves the record alone and the temporary
      files removed; after a failed update the object stays stored. */
  lemma StoppedAtPutOrUpdate(bucket: string, s: State, video: Video, videoIdText: string, w: VideoWorld)
    requires WellKeyed(s.db)
    requires ProcessingStage(bucket, video, videoIdText, w) in {PutFailed, UpdateFailed}
    ensures var stage := ProcessingStage(bucket, video, videoIdText, w);
            var key := UploadKey(videoIdText, w);
            ProcessOutcome(bucket, s, video, videoIdText, w) ==
              Run(ResponseOf(stage),
                  s.(objects := if stage.UpdateFailed? then s.objects[(bucket, key) := StoredObject(Mp4Type, FastStartPath(TempPath(w)))]
                                else s.objects,
                     effects := s.effects + Pipeline(bucket, video, videoIdText, w)[..CallsMade(stage)]))
  {
  }

  /** What the handler leaves once every step succeeded: the record
      rewritten, the object stored, and the whole pipeline called. */
  lemma UploadedOutcome(bucket: string, s: State, video: Video, videoIdText: string, w: VideoWorld)
    requires WellKeyed(s.db)
    requires ProcessingStage(bucket, video, videoIdText, w).Uploaded?
    ensures var run := ProcessOutcome(bucket, s, video, videoIdText, w);
            var key := UploadKey(videoIdText, w);
            run.response == NothingWritten &&
            run.state.db == UpdateVideo(s.db, UploadedRecord(bucket, video, key)) &&
            run.state.objects == s.objects[(bucket, key) := StoredObject(Mp4Type, FastStartPath(TempPath(w)))] &&
            run.state.effects == s.effects + Pipeline(bucket, video, videoIdText, w)
  {
    var calls := Pipeline(bucket, video, videoIdText, w);
    assert Recorded(Uploaded) && Stored(Uploaded) && CallsMade(Uploaded) == 6;
    assert calls[..6] == calls;
  }

  /** With no comma in the bucket or the key, the presigner is asked for
      exactly the bucket and key the object was put under. */
  lemma PresignOfPlainReference(bucket: string, video: Video, videoIdText: string, w: VideoWorld)
    requires ',' !in bucket && ',' !in UploadKey(videoIdText, w)
    ensures Pipeline(bucket, video, videoIdText, w)[5] == PresignGet(bucket, UploadKey(videoIdText, w), PresignExpiry)
  {
    ReferenceRoundTrip(bucket, UploadKey(videoIdText, w));
  }

  /** A successful upload: the remuxed file is stored as video/mp4 under
      "<class>/<id>.mp4" with the class one of the three prefixes (any
      earlier object at that key is replaced, no second key appears); the
      record's VideoURL, and nothing else of it, becomes "<bucket>,<key>";
      and, when the
      bucket has no comma, that reference decodes back to the bucket and
      key and the presigner is asked for exactly them, for ten minutes. */
  lemma {:induction false} SuccessfulUpload(bucket: string, s: State, rq: VideoRequest, w: VideoWorld)
    requires WellKeyed(s.db)
    requires StageOf(bucket, s, rq, w).Uploaded?
    ensures var run := Outcome(bucket, s, rq, w);
            var id := rq.videoId.value;
            var key := UploadKey(rq.videoIdText, w);
            var prefix := RatioPrefix(ProbedRatio(w));
            run.response == NothingWritten &&
            key == prefix + "/" + rq.videoIdText + ".mp4" &&
            (prefix == LandscapePrefix || prefix == PortraitPrefix || prefix == OtherPrefix) &&
            run.state.objects.Keys == s.objects.Keys + {(bucket, key)} &&
            run.state.objects[(bucket, key)] == StoredObject(Mp4Type, FastStartPath(TempPath(w))) &&
            id in run.state.db &&
            run.state.db[id].videoUrl == Some(bucket + "," + key) &&
            run.state.db[id].(videoUrl := s.db[id].videoUrl) == s.db[id] &&
            (',' !in bucket ==>
               DecodeReference(run.state.db[id].videoUrl) == Ok((bucket, key)) &&
               NewCalls(s, run)[5] == PresignGet(bucket, key, PresignExpiry))
  {
    var run := Outcome(bucket, s, rq, w);
    var id := rq.videoId.value;
    var key := UploadKey(rq.videoIdText, w);
    assert run == ProcessOutcome(bucket, s, s.db[id], rq.videoIdText, w);
    UploadedOutcome(bucket, s, s.db[id], rq.videoIdText, w);
    if ',' !in bucket {
      UploadKeyLayout(rq, w);
      ReferenceRoundTrip(bucket, key);
      PresignOfPlainReference(bucket, s.db[id], rq.videoIdText, w);
      assert NewCalls(s, run) == Pipeline(bucket, s.db[id], rq.videoIdText, w);
    }
  }
}
