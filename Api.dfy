/** The server's configuration object and the two upload handlers as
    step-by-step methods. Each method changes the fields in the order the
    handler does and is proved to end exactly where its specification
    function says. A removal Go defers is done by the method that
    registered it, after the method it hands over to has returned, on
    every path, panics included. */
module Api {
  import opened Results
  import opened Tubely
  import opened VideoProcessing
  import opened SignVideo
  import opened ThumbnailNaming
  import UploadVideo
  import UploadThumbnail
  import VideoSteps

  class ApiConfig {
    /** The S3 bucket every video goes to. */
    const s3Bucket: string
    /** The metadata store's video records. */
    var db: map<Uuid, Video>
    /** The bucket contents, by (bucket, key). */
    var objects: map<(string, string), StoredObject>
    /** Local temporary files that exist. */
    var tempFiles: set<string>
    /** Files in the assets directory. */
    var assets: set<string>
    /** The external calls made so far, in order. */
    var effects: seq<Effect>

    function Snapshot(): State
      reads this
    {
      State(db, objects, tempFiles, assets, effects)
    }

    constructor (bucket: string, records: map<Uuid, Video>)
      requires WellKeyed(records)
      ensures s3Bucket == bucket
      ensures Snapshot() == State(records, map[], {}, {}, [])
    {
      s3Bucket := bucket;
      db := records;
      objects := map[];
      tempFiles := {};
      assets := {};
      effects := [];
    }

    /** `handlerUploadVideo`: the checks on the request, then the upload.
        It ends where the stage-based outcome says. */
    method HandlerUploadVideo(rq: UploadVideo.VideoRequest, w: UploadVideo.VideoWorld) returns (resp: Response)
      requires WellKeyed(db)
      requires UploadVideo.FreshTemp(Snapshot(), w)
      modifies this
      ensures Run(resp, Snapshot()) == UploadVideo.Outcome(s3Bucket, old(Snapshot()), rq, w)
    {
      VideoSteps.UploadMeetsOutcome(s3Bucket, Snapshot(), rq, w);
      if rq.videoId.None? {
        return ErrorResponse(StatusBadRequest, "Invalid video ID");
      }
      var videoId := rq.videoId.value;
      if rq.auth.NoToken? {
        return ErrorResponse(StatusUnauthorized, "Couldn't find JWT");
      }
      if rq.auth.BadToken? {
        return ErrorResponse(StatusUnauthorized, "Couldn't validate JWT");
      }
      var userId := rq.auth.userId;
      if videoId !in db {
        return ErrorResponse(StatusBadRequest, "Couldn't find video");
      }
      var videoData := db[videoId];
      if videoData.userId != userId {
        return ErrorResponse(StatusUnauthorized, "User doesn't own video");
      }
      if rq.file.None? {
        return ErrorResponse(StatusBadRequest, "Couldn't form a video");
      }
      var videoCheck := rq.file.value.parsedType;
      if videoCheck.failed {
        return ErrorResponse(StatusBadRequest, "Couldn't find content type");
      }
      if videoCheck.base != UploadVideo.Mp4Type {
        return ErrorResponse(StatusBadRequest, "Wrong content type");
      }
      resp := ProcessUpload(videoData, rq.videoIdText, w);
    }

    /** The rest of `handlerUploadVideo`, for the caller's record `video`:
        the temporary copy of the upload, removed again on the way out,
        then `ConvertUpload`. */
    method ProcessUpload(video: Video, videoIdText: string, w: UploadVideo.VideoWorld) returns (resp: Response)
      requires WellKeyed(db)
      modifies this
      ensures Run(resp, Snapshot()) == VideoSteps.Process(s3Bucket, old(Snapshot()), video, videoIdText, w)
    {
      // os.CreateTemp; its error is ignored, and tempFile.Name() on the
      // nil file panics before any removal is deferred.
      if w.tempPath.None? {
        return Panicked("invalid memory address or nil pointer dereference");
      }
      var tempPath := w.tempPath.value;
      tempFiles := tempFiles + {tempPath};
      effects := effects + [WriteTemp(tempPath)];
      if !w.copied {
        resp := ErrorResponse(StatusBadRequest, "Couldn't write video to file");
      } else {
        resp := ConvertUpload(video, videoIdText, w);
      }
      // the deferred os.Remove of the temporary file
      tempFiles := tempFiles - {tempPath};
    }

    /** From the copied temporary file on: the probe, then `RemuxUpload`. */
    method ConvertUpload(video: Video, videoIdText: string, w: UploadVideo.VideoWorld) returns (resp: Response)
      requires WellKeyed(db) && w.tempPath.Some?
      modifies this
      ensures Run(resp, Snapshot()) == VideoSteps.Convert(s3Bucket, old(Snapshot()), video, videoIdText, w)
    {
      effects := effects + [ProbeFile(w.tempPath.value)];
      var aspectRatio := GetVideoAspectRatio(w.probe);
      if aspectRatio == Err(NoStreams) {
        return Panicked("index out of range [0] with length 0");
      }
      if aspectRatio.Err? {
        return ErrorResponse(StatusBadRequest, "Couldn't check aspect ratio");
      }
      resp := RemuxUpload(video, videoIdText, aspectRatio.value, w);
    }

    /** The remux and the opening of its output, then `PublishUpload`
        under the key for `aspectRatio`. The removal of the remuxed file is
        deferred only once it was opened. */
    method RemuxUpload(video: Video, videoIdText: string, aspectRatio: string, w: UploadVideo.VideoWorld)
      returns (resp: Response)
      requires WellKeyed(db) && w.tempPath.Some?
      modifies this
      ensures Run(resp, Snapshot()) == VideoSteps.Remux(s3Bucket, old(Snapshot()), video, videoIdText, aspectRatio, w)
    {
      var tempPath := w.tempPath.value;
      var ratio := RatioPrefix(aspectRatio);
      effects := effects + [RemuxFile(tempPath, FastStartPath(tempPath))];
      var newPath := ProcessVideoForFastStart(tempPath, w.remuxed);
      if newPath.None? {
        return ErrorResponse(StatusBadRequest, "Couldn't process video");
      }
      tempFiles := tempFiles + {newPath.value};
      if !w.outputOpened {
        return ErrorResponse(StatusBadRequest, "Couldn't open the new file");
      }
      var newVideoKey := VideoKey(ratio, videoIdText);
      resp := PublishUpload(video, newVideoKey, newPath.value, w);
      // the deferred os.Remove of the remuxed file
      tempFiles := tempFiles - {newPath.value};
    }

    /** The remuxed file at `newPath` is stored under `key`, then
        `RecordUpload`. */
    method PublishUpload(video: Video, key: string, newPath: string, w: UploadVideo.VideoWorld)
      returns (resp: Response)
      requires WellKeyed(db)
      modifies this
      ensures Run(resp, Snapshot()) == VideoSteps.Publish(s3Bucket, old(Snapshot()), video, key, newPath, w)
    {
      effects := effects + [PutObject(s3Bucket, key)];
      if !w.putOk {
        return ErrorResponse(StatusBadRequest, "Error uploading file to S3");
      }
      objects := objects[(s3Bucket, key) := StoredObject(UploadVideo.Mp4Type, newPath)];
      resp := RecordUpload(video, key, w);
    }

    /** The record points at the stored object, then `SignUpload`. */
    method RecordUpload(video: Video, key: string, w: UploadVideo.VideoWorld) returns (resp: Response)
      requires WellKeyed(db)
      modifies this
      ensures Run(resp, Snapshot()) == VideoSteps.Record(s3Bucket, old(Snapshot()), video, key, w)
    {
      var newUrl := EncodeReference(s3Bucket, key);
      var videoData := video.(videoUrl := Some(newUrl));
      effects := effects + [UpdateRecord(videoData.id)];
      if !w.updateOk {
        return ErrorResponse(StatusBadRequest, "Error updating video data in db");
      }
      db := UpdateVideo(db, videoData);
      EncodedReferenceSplits(s3Bucket, key);
      resp := SignUpload(videoData, w);
    }

    /** `dbVideoToSignedVideo` on the updated record; the signed copy is
        not written anywhere. */
    method SignUpload(videoData: Video, w: UploadVideo.VideoWorld) returns (resp: Response)
      requires videoData.videoUrl.Some? && ',' in videoData.videoUrl.value
      modifies this
      ensures Run(resp, Snapshot()) == VideoSteps.Sign(s3Bucket, old(Snapshot()), videoData, w)
    {
      var (bucket, signKey) := DecodeReference(videoData.videoUrl).value;
      effects := effects + [PresignGet(bucket, signKey, PresignExpiry)];
      var signed := DbVideoToSignedVideo(videoData, w.presign);
      if signed.SignFailed? {
        return ErrorResponse(StatusBadRequest, "Error generating signed link to video");
      }
      resp := NothingWritten;
    }

    /** `handlerUploadThumbnail`: the checks on the request, then the file. */
    method HandlerUploadThumbnail(rq: UploadThumbnail.ThumbnailRequest, w: UploadThumbnail.ThumbnailWorld)
      returns (resp: Response)
      requires WellKeyed(db) && |w.randomBytes| == 32
      modifies this
      ensures Run(resp, Snapshot()) == UploadThumbnail.UploadThumbnail(old(Snapshot()), rq, w)
    {
      if rq.videoId.None? {
        return ErrorResponse(StatusBadRequest, "Invalid ID");
      }
      var videoId := rq.videoId.value;
      if rq.auth.NoToken? {
        return ErrorResponse(StatusUnauthorized, "Couldn't find JWT");
      }
      if rq.auth.BadToken? {
        return ErrorResponse(StatusUnauthorized, "Couldn't validate JWT");
      }
      var userId := rq.auth.userId;
      if !rq.formParsed {
        return ErrorResponse(StatusBadRequest, "Error parsing");
      }
      if rq.file.None? {
        return ErrorResponse(StatusBadRequest, "Error forming file");
      }
      var mediaType := rq.file.value.contentType;
      if !AcceptedImageType(rq.file.value.parsedType) {
        return ErrorResponse(StatusBadRequest, "Please use jpeg or png");
      }
      if videoId !in db {
        return ErrorResponse(StatusBadRequest, "Could't find video");
      }
      var video := db[videoId];
      if userId != video.userId {
        return ErrorResponse(StatusUnauthorized, "Wrong userID for video");
      }
      resp := SaveThumbnail(video, mediaType, w);
    }

    /** The rest of `handlerUploadThumbnail`, for the caller's record
        `video` and the raw Content-Type header: the file is named, created
        and written, and the record points at it. */
    method SaveThumbnail(video: Video, mediaType: string, w: UploadThumbnail.ThumbnailWorld)
      returns (resp: Response)
      requires WellKeyed(db) && |w.randomBytes| == 32
      modifies this
      ensures Run(resp, Snapshot()) == UploadThumbnail.Save(old(Snapshot()), video, mediaType, w)
    {
      ghost var before := Snapshot();
      ghost var calls := UploadThumbnail.Pipeline(video, mediaType, w);
      ghost var stage := UploadThumbnail.SavingStage(mediaType, w);
      var extension := Extension(mediaType);
      if extension.None? {
        assert stage == UploadThumbnail.NoExtension;
        assert before.effects + calls[..0] == before.effects;
        return Panicked("index out of range [1] with length 1");
      }
      var randName := RandomName(w.randomBytes);
      var fileName := FileName(randName, extension.value);
      assert fileName == UploadThumbnail.AssetName(mediaType, w);

      effects := effects + [CreateAsset(fileName)];
      assert effects == before.effects + calls[..1];
      if !w.created {
        assert stage == UploadThumbnail.CreateFailed;
        return ErrorResponse(StatusBadRequest, "Error creating file");
      }
      assets := assets + {fileName};

      effects := effects + [WriteAsset(fileName)];
      assert effects == before.effects + calls[..2];
      if !w.copied {
        assert stage == UploadThumbnail.WriteFailed;
        return ErrorResponse(StatusBadRequest, "Error writing file");
      }

      var newThumbnailUrl := ThumbnailUrl(fileName);
      var updated := video.(thumbnailUrl := Some(newThumbnailUrl));
      effects := effects + [UpdateRecord(updated.id)];
      assert effects == before.effects + calls[..3];
      if !w.updateOk {
        assert stage == UploadThumbnail.UpdateFailed;
        return ErrorResponse(StatusBadRequest, "Error updating video thumbnail");
      }
      db := UpdateVideo(db, updated);
      assert stage == UploadThumbnail.Saved;
      resp := JsonResponse(StatusOK, updated);
    }
  }
}
