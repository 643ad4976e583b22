/** `handlerUploadThumbnail` as a specification, in the same form as the
    video handler's: the first failing check decides everything. */
module UploadThumbnail {
  import opened Results
  import opened Tubely
  import opened ThumbnailNaming
  import Base64Url

  /** The request: the path's video ID as parsed by `uuid.Parse`, the
      bearer token's verdict, whether `ParseMultipartForm` succeeded, and
      the "thumbnail" form file if there is one. */
  datatype ThumbnailRequest = ThumbnailRequest(
    videoId: Option<Uuid>,
    auth: Auth,
    formParsed: bool,
    file: Option<FilePart>)

  /** The outside world's answers: the 32 random bytes, and whether
      `os.Create`, the copy into the new file and `UpdateVideo` succeeded. */
  datatype ThumbnailWorld = ThumbnailWorld(
    randomBytes: seq<Base64Url.Byte>,
    created: bool,
    copied: bool,
    updateOk: bool)

  /** The point where the handler stopped: a failed check, or `Saved`. */
  datatype ThumbnailStage =
    | InvalidId | TokenMissing | TokenInvalid | FormUnparsable | MissingThumbnailPart
    | UnsupportedType | VideoNotFound | NotOwner | NoExtension
    | CreateFailed | WriteFailed | UpdateFailed | Saved

  /** The checks on the request, made before the file is named. */
  predicate RequestRejected(stage: ThumbnailStage)
  {
    stage.InvalidId? || stage.TokenMissing? || stage.TokenInvalid? || stage.FormUnparsable? ||
    stage.MissingThumbnailPart? || stage.UnsupportedType? || stage.VideoNotFound? || stage.NotOwner?
  }

  /** The stages reached before any file is created. */
  predicate EarlyStage(stage: ThumbnailStage)
  {
    RequestRejected(stage) || stage.NoExtension?
  }

  /** The name of the stored file, for the raw Content-Type header of the
      file part. */
  function AssetName(contentType: string, w: ThumbnailWorld): string
    requires |w.randomBytes| == 32
  {
    FileName(RandomName(w.randomBytes), Extension(contentType).GetOr(""))
  }

  /** The first check that fails, in the handler's order. The checks on
      the request come first; `SavingStage` takes over from the file
      extension on. */
  function StageOf(s: State, rq: ThumbnailRequest, w: ThumbnailWorld): (stage: ThumbnailStage)
    ensures !RequestRejected(stage) ==>
              rq.videoId.Some? && rq.auth.Authenticated? && rq.formParsed && rq.file.Some? &&
              AcceptedImageType(rq.file.value.parsedType) && rq.videoId.value in s.db &&
              s.db[rq.videoId.value].userId == rq.auth.userId
  {
    if rq.videoId.None? then InvalidId
    else if rq.auth.NoToken? then TokenMissing
    else if rq.auth.BadToken? then TokenInvalid
    else if !rq.formParsed then FormUnparsable
    else if rq.file.None? then MissingThumbnailPart
    else if !AcceptedImageType(rq.file.value.parsedType) then UnsupportedType
    else if rq.videoId.value !in s.db then VideoNotFound
    else if rq.auth.userId != s.db[rq.videoId.value].userId then NotOwner
    else SavingStage(rq.file.value.contentType, w)
  }

  /** The first step from the file extension on that fails. */
  function SavingStage(contentType: string, w: ThumbnailWorld): (stage: ThumbnailStage)
    ensures !RequestRejected(stage)
    ensures stage.NoExtension? <==> '/' !in contentType
    ensures stage.Saved? <==> '/' in contentType && w.created && w.copied && w.updateOk
  {
    if Extension(contentType).None? then NoExtension
    else if !w.created then CreateFailed
    else if !w.copied then WriteFailed
    else if !w.updateOk then UpdateFailed
    else Saved
  }

  /** The record as the handler rewrites it. */
  function ThumbnailRecord(video: Video, fileName: string): Video
  {
    video.(thumbnailUrl := Some(ThumbnailUrl(fileName)))
  }

  /** What the handler answers when it stops at `stage`; `saved` is the
      rewritten record sent back on success. */
  function ResponseOf(stage: ThumbnailStage, saved: Video): (r: Response)
    ensures r.ErrorResponse? ==> r.code == StatusBadRequest || r.code == StatusUnauthorized
    ensures r.JsonResponse? <==> stage.Saved?
  {
    match stage
    case InvalidId => ErrorResponse(StatusBadRequest, "Invalid ID")
    case TokenMissing => ErrorResponse(StatusUnauthorized, "Couldn't find JWT")
    case TokenInvalid => ErrorResponse(StatusUnauthorized, "Couldn't validate JWT")
    case FormUnparsable => ErrorResponse(StatusBadRequest, "Error parsing")
    case MissingThumbnailPart => ErrorResponse(StatusBadRequest, "Error forming file")
    case UnsupportedType => ErrorResponse(StatusBadRequest, "Please use jpeg or png")
    case VideoNotFound => ErrorResponse(StatusBadRequest, "Could't find video")
    case NotOwner => ErrorResponse(StatusUnauthorized, "Wrong userID for video")
    case NoExtension => Panicked("index out of range [1] with length 1")
    case CreateFailed => ErrorResponse(StatusBadRequest, "Error creating file")
    case WriteFailed => ErrorResponse(StatusBadRequest, "Error writing file")
    case UpdateFailed => ErrorResponse(StatusBadRequest, "Error updating video thumbnail")
    case Saved => JsonResponse(StatusOK, saved)
  }

  /** Every external call the handler can make for the record `video`, in
      order. */
  function Pipeline(video: Video, contentType: string, w: ThumbnailWorld): (calls: seq<Effect>)
    requires |w.randomBytes| == 32
    ensures |calls| == 3
  {
    var name := AssetName(contentType, w);
    [CreateAsset(name), WriteAsset(name), UpdateRecord(video.id)]
  }

  /** How many of those calls were made before stopping at `stage`. */
  function CallsMade(stage: ThumbnailStage): (n: nat)
    ensures n <= 3
    ensures n == 0 <==> EarlyStage(stage)
  {
    match stage
    case CreateFailed => 1
    case WriteFailed => 2
    case UpdateFailed | Saved => 3
    case _ => 0
  }

  /** Whether the asset file exists afterwards. */
  predicate FileCreated(stage: ThumbnailStage)
  {
    stage.WriteFailed? || stage.UpdateFailed? || stage.Saved?
  }

  /** The handler from the file extension on, for the caller's record
      `video` and the raw Content-Type header: its response and the state
      it leaves. A file that was created stays, even when writing into it
      failed. */
  function Save(s: State, video: Video, contentType: string, w: ThumbnailWorld): (run: Run)
    requires WellKeyed(s.db) && |w.randomBytes| == 32
    ensures WellKeyed(run.state.db)
    ensures video.id in s.db ==> run.state.db.Keys == s.db.Keys
    ensures run.state.objects == s.objects && run.state.tempFiles == s.tempFiles
    ensures s.assets <= run.state.assets && run.state.assets - s.assets <= {AssetName(contentType, w)}
    ensures s.effects <= run.state.effects && |run.state.effects| <= |s.effects| + 3
  {
    var stage := SavingStage(contentType, w);
    var name := AssetName(contentType, w);
    var saved := ThumbnailRecord(video, name);
    Run(
      ResponseOf(stage, saved),
      State(
        if stage.Saved? then UpdateVideo(s.db, saved) else s.db,
        s.objects,
        s.tempFiles,
        if FileCreated(stage) then s.assets + {name} else s.assets,
        s.effects + Pipeline(video, contentType, w)[..CallsMade(stage)]))
  }

  /** The whole handler: a request that fails a check is answered and
      nothing else happens; one that passes them goes on to `Save`. */
  function UploadThumbnail(s: State, rq: ThumbnailRequest, w: ThumbnailWorld): (run: Run)
    requires WellKeyed(s.db) && |w.randomBytes| == 32
    ensures WellKeyed(run.state.db) && run.state.db.Keys == s.db.Keys
    ensures run.state.objects == s.objects && run.state.tempFiles == s.tempFiles
    ensures s.assets <= run.state.assets && |run.state.assets - s.assets| <= 1
    ensures s.effects <= run.state.effects && |run.state.effects| <= |s.effects| + 3
  {
    var stage := StageOf(s, rq, w);
    if RequestRejected(stage) then Run(ResponseOf(stage, EmptyVideo()), s)
    else Save(s, s.db[rq.videoId.value], rq.file.value.contentType, w)
  }

  /** An unparsable ID is answered 400 before the token or the form is
      looked at, and nothing happens. */
  lemma InvalidIdRejectedFirst(s: State, rq: ThumbnailRequest, w: ThumbnailWorld)
    requires WellKeyed(s.db) && |w.randomBytes| == 32
    requires rq.videoId.None?
    ensures UploadThumbnail(s, rq, w) == Run(ErrorResponse(StatusBadRequest, "Invalid ID"), s)
  {
  }

  /** Only JPEG and PNG get past the type check; a type that did not parse
      (the "" it yields) does not. Nothing is created for the others. */
  lemma OnlyImagesStored(s: State, rq: ThumbnailRequest, w: ThumbnailWorld)
    requires WellKeyed(s.db) && |w.randomBytes| == 32
    ensures var run := UploadThumbnail(s, rq, w);
            (run.state.assets != s.assets || run.state.db != s.db || run.state.effects != s.effects) ==>
              rq.file.Some? && (rq.file.value.parsedType.base == Jpeg || rq.file.value.parsedType.base == Png)
    ensures rq.file.Some? && rq.file.value.parsedType.base == "" && rq.videoId.Some? &&
            rq.auth.Authenticated? && rq.formParsed ==>
              UploadThumbnail(s, rq, w) == Run(ErrorResponse(StatusBadRequest, "Please use jpeg or png"), s)
  {
  }

  /** A caller who does not own the video gets 401 before any file is
      created: nothing changes, ThumbnailURL included. */
  lemma NonOwnerRejected(s: State, rq: ThumbnailRequest, w: ThumbnailWorld)
    requires WellKeyed(s.db) && |w.randomBytes| == 32
    requires rq.videoId.Some? && rq.auth.Authenticated? && rq.formParsed && rq.file.Some?
    requires AcceptedImageType(rq.file.value.parsedType) && rq.videoId.value in s.db
    requires s.db[rq.videoId.value].userId != rq.auth.userId
    ensures UploadThumbnail(s, rq, w) == Run(ErrorResponse(StatusUnauthorized, "Wrong userID for video"), s)
  {
  }

  /** Only the owner of an existing record changes anything: every other
      request leaves the state as it was. */
  lemma OnlyOwnerChangesState(s: State, rq: ThumbnailRequest, w: ThumbnailWorld)
    requires WellKeyed(s.db) && |w.randomBytes| == 32
    ensures UploadThumbnail(s, rq, w).state != s ==>
              rq.videoId.Some? && rq.auth.Authenticated? && rq.videoId.value in s.db &&
              s.db[rq.videoId.value].userId == rq.auth.userId
  {
  }

  /** A part that passed the JPEG/PNG check has a '/' in its raw header,
      because the parsed type comes from that header: `extension[1]`
      always exists and the handler never panics. */
  lemma AcceptedPartHasExtension(s: State, rq: ThumbnailRequest, w: ThumbnailWorld)
    requires WellKeyed(s.db) && |w.randomBytes| == 32
    ensures !RequestRejected(StageOf(s, rq, w)) ==> Extension(rq.file.value.contentType).Some?
    ensures !UploadThumbnail(s, rq, w).response.Panicked?
  {
    if !RequestRejected(StageOf(s, rq, w)) {
      assert ParsedFromHeader(rq.file.value);
    }
  }

  /** The record is updated only after the file was created and written,
      and the update is the call that follows those two. */
  lemma {:induction false} UpdateOnlyAfterCopy(s: State, rq: ThumbnailRequest, w: ThumbnailWorld)
    requires WellKeyed(s.db) && |w.randomBytes| == 32
    ensures var run := UploadThumbnail(s, rq, w);
            var calls := NewCalls(s, run);
            s.effects <= run.state.effects &&
            (forall i :: 0 <= i < |calls| && calls[i].UpdateRecord? ==>
               i == 2 && rq.file.Some? &&
               calls[0] == CreateAsset(AssetName(rq.file.value.contentType, w)) &&
               calls[1] == WriteAsset(AssetName(rq.file.value.contentType, w)) && w.created && w.copied) &&
            (run.state.db != s.db ==> w.created && w.copied && w.updateOk)
  {
    var run := UploadThumbnail(s, rq, w);
    var stage := StageOf(s, rq, w);
    var calls := NewCalls(s, run);
    if RequestRejected(stage) {
      assert calls == [];
    } else {
      var all := Pipeline(s.db[rq.videoId.value], rq.file.value.contentType, w);
      assert calls == all[..CallsMade(stage)];
      forall i | 0 <= i < |calls| && calls[i].UpdateRecord?
        ensures i == 2 && w.created && w.copied
      {
        assert calls[i] == all[i];
      }
    }
  }

  /** A successful upload stores "<43 random symbols>.<extension>" in the
      assets directory and sets ThumbnailURL, and nothing else of the
      record, to that name under "http://localhost:8091/assets/"; the
      rewritten record is sent back. */
  lemma {:induction false} SuccessfulThumbnail(s: State, rq: ThumbnailRequest, w: ThumbnailWorld)
    requires WellKeyed(s.db) && |w.randomBytes| == 32
    requires StageOf(s, rq, w).Saved?
    ensures var run := UploadThumbnail(s, rq, w);
            var id := rq.videoId.value;
            var ext := Extension(rq.file.value.contentType).value;
            var name := AssetName(rq.file.value.contentType, w);
            name == FileName(RandomName(w.randomBytes), ext) &&
            |RandomName(w.randomBytes)| == 43 &&
            name[44..] == ext &&
            run.state.assets == s.assets + {name} &&
            id in run.state.db &&
            run.state.db[id].thumbnailUrl == Some("http://localhost:8091/assets/" + name) &&
            run.state.db[id].(thumbnailUrl := s.db[id].thumbnailUrl) == s.db[id] &&
            run.response == JsonResponse(StatusOK, run.state.db[id])
  {
    var id := rq.videoId.value;
    var contentType := rq.file.value.contentType;
    var name := AssetName(contentType, w);
    var saved := ThumbnailRecord(s.db[id], name);
    var run := UploadThumbnail(s, rq, w);
    assert SavingStage(contentType, w) == Saved;
    assert run == Save(s, s.db[id], contentType, w);
    assert run.state.db == UpdateVideo(s.db, saved);
    assert run.response == JsonResponse(StatusOK, saved);
    FileNameLayout(w.randomBytes, Extension(contentType).value);
  }
}
