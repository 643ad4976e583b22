/** `handlerUploadVideo` step by step, from the temporary file on: each
    function is one stretch of the handler and hands the state it reached
    to the next, the way the `Api` methods do. The lemmas show that the
    steps end exactly where the stage-based `UploadVideo.Outcome` says. */
module VideoSteps {
  import opened Results
  import opened Tubely
  import opened VideoProcessing
  import opened SignVideo
  import opened UploadVideo

  /** The signing of the updated record's link. */
  function Sign(bucket: string, s: State, record: Video, w: VideoWorld): (run: Run)
    requires record.videoUrl.Some? && ',' in record.videoUrl.value
    ensures run.state == s.(effects := run.state.effects)
  {
    var (signBucket, signKey) := DecodeReference(record.videoUrl).value;
    var s1 := s.(effects := s.effects + [PresignGet(signBucket, signKey, PresignExpiry)]);
    if DbVideoToSignedVideo(record, w.presign).SignFailed? then Run(ResponseOf(SigningFailed), s1)
    else Run(ResponseOf(Uploaded), s1)
  }

  /** The record update, then `Sign`. */
  function Record(bucket: string, s: State, video: Video, key: string, w: VideoWorld): (run: Run)
    requires WellKeyed(s.db)
    ensures run.state == s.(db := run.state.db, effects := run.state.effects)
  {
    var record := UploadedRecord(bucket, video, key);
    var s1 := s.(effects := s.effects + [UpdateRecord(record.id)]);
    if !w.updateOk then Run(ResponseOf(UpdateFailed), s1)
    else
      EncodedReferenceSplits(bucket, key);
      Sign(bucket, s1.(db := UpdateVideo(s1.db, record)), record, w)
  }

  /** The put of the remuxed file at `newPath` under `key`, then `Record`. */
  function Publish(bucket: string, s: State, video: Video, key: string, newPath: string, w: VideoWorld): (run: Run)
    requires WellKeyed(s.db)
    ensures run.state.tempFiles == s.tempFiles && run.state.assets == s.assets
  {
    var s1 := s.(effects := s.effects + [PutObject(bucket, key)]);
    if !w.putOk then Run(ResponseOf(PutFailed), s1)
    else Record(bucket, s1.(objects := s1.objects[(bucket, key) := StoredObject(Mp4Type, newPath)]), video, key, w)
  }

  /** The remux and the opening of its output, then `Publish` under the
      key for the probed `aspectRatio`; the remuxed file's removal is
      deferred only once it was opened. */
  function Remux(bucket: string, s: State, video: Video, videoIdText: string, aspectRatio: string, w: VideoWorld): (run: Run)
    requires WellKeyed(s.db) && w.tempPath.Some?
    ensures run.state.assets == s.assets
    ensures run.state.tempFiles <= s.tempFiles + {FastStartPath(w.tempPath.value)}
  {
    var tmp := w.tempPath.value;
    var s1 := s.(effects := s.effects + [RemuxFile(tmp, FastStartPath(tmp))]);
    match ProcessVideoForFastStart(tmp, w.remuxed)
    case None => Run(ResponseOf(RemuxFailed), s1)
    case Some(newPath) =>
      var s2 := s1.(tempFiles := s1.tempFiles + {newPath});
      if !w.outputOpened then Run(ResponseOf(OpenFailed), s2)
      else
        var run := Publish(bucket, s2, video, VideoKey(RatioPrefix(aspectRatio), videoIdText), newPath, w);
        Run(run.response, run.state.(tempFiles := run.state.tempFiles - {newPath}))
  }

  /** The probe of the temporary file, then `Remux`. */
  function Convert(bucket: string, s: State, video: Video, videoIdText: string, w: VideoWorld): (run: Run)
    requires WellKeyed(s.db) && w.tempPath.Some?
    ensures run.state.assets == s.assets
    ensures run.state.tempFiles <= s.tempFiles + {FastStartPath(w.tempPath.value)}
  {
    var s1 := s.(effects := s.effects + [ProbeFile(w.tempPath.value)]);
    var aspectRatio := GetVideoAspectRatio(w.probe);
    if aspectRatio == Err(NoStreams) then Run(ResponseOf(ProbeNoStreams), s1)
    else if aspectRatio.Err? then Run(ResponseOf(ProbeFailed), s1)
    else Remux(bucket, s1, video, videoIdText, aspectRatio.value, w)
  }

  /** The temporary copy of the upload, removed again on the way out, and
      `Convert` once the copy was written. Without a temporary file the
      handler panics before any removal is deferred. */
  function Process(bucket: string, s: State, video: Video, videoIdText: string, w: VideoWorld): (run: Run)
    requires WellKeyed(s.db)
    ensures run.state.assets == s.assets
    ensures w.tempPath.Some? ==> w.tempPath.value !in run.state.tempFiles
    ensures w.tempPath.Some? ==> run.state.tempFiles <= s.tempFiles + {FastStartPath(w.tempPath.value)}
  {
    if w.tempPath.None? then Run(ResponseOf(TempFileUnavailable), s)
    else
      var tmp := w.tempPath.value;
      var s1 := s.(tempFiles := s.tempFiles + {tmp}, effects := s.effects + [WriteTemp(tmp)]);
      var run := if !w.copied then Run(ResponseOf(TempWriteFailed), s1)
                 else Convert(bucket, s1, video, videoIdText, w);
      Run(run.response, run.state.(tempFiles := run.state.tempFiles - {tmp}))
  }

  /** The whole handler: the checks on the request, then `Process`. */
  function Upload(bucket: string, s: State, rq: VideoRequest, w: VideoWorld): (run: Run)
    requires WellKeyed(s.db)
    ensures run.state.assets == s.assets
    ensures EarlyStage(StageOf(bucket, s, rq, w)) ==> run == Run(ResponseOf(StageOf(bucket, s, rq, w)), s)
    ensures w.tempPath.Some? && w.tempPath.value in run.state.tempFiles ==> w.tempPath.value in s.tempFiles
  {
    var stage := StageOf(bucket, s, rq, w);
    if EarlyStage(stage) then Run(ResponseOf(stage), s)
    else Process(bucket, s, s.db[rq.videoId.value], rq.videoIdText, w)
  }

  /** Once the remuxed file is open, `Publish` and the two deferred
      removals end where the stage-based outcome says. */
  predicate PublishMeets(bucket: string, s: State, video: Video, videoIdText: string, w: VideoWorld)
    requires WellKeyed(s.db) && w.tempPath.Some?
  {
    var tmp := w.tempPath.value;
    var newPath := FastStartPath(tmp);
    var ready := s.(tempFiles := s.tempFiles + {tmp} + {newPath},
                     effects := s.effects + Pipeline(bucket, video, videoIdText, w)[..3]);
    var run := Publish(bucket, ready, video, UploadKey(videoIdText, w), newPath, w);
    Run(run.response, run.state.(tempFiles := run.state.tempFiles - {newPath} - {tmp}))
      == ProcessOutcome(bucket, s, video, videoIdText, w)
  }

  lemma {:induction false} PublishMeetsOutcome(bucket: string, s: State, video: Video, videoIdText: string, w: VideoWorld)
    requires WellKeyed(s.db) && FreshTemp(s, w)
    requires w.tempPath.Some? && w.copied && GetVideoAspectRatio(w.probe).Ok? && w.remuxed && w.outputOpened
    ensures PublishMeets(bucket, s, video, videoIdText, w)
  {
    if !w.putOk {
      PutFailedMeetsOutcome(bucket, s, video, videoIdText, w);
    } else if !w.updateOk {
      UpdateFailedMeetsOutcome(bucket, s, video, videoIdText, w);
    } else {
      RecordedMeetsOutcome(bucket, s, video, videoIdText, w);
    }
  }

  /** Appending the calls that follow a prefix of `calls` one at a time
      extends the prefix. */
  lemma LogExtends(log: seq<Effect>, calls: seq<Effect>, n: nat, more: seq<Effect>)
    requires n + |more| <= |calls| && more == calls[n..n + |more|]
    ensures log + calls[..n] + more == log + calls[..n + |more|]
  {
  }

  /** A put and an update that both succeed store the object, update the
      record, sign its link, and answer as the signing went. */
  lemma PublishRecorded(bucket: string, s: State, video: Video, key: string, newPath: string, w: VideoWorld)
    requires WellKeyed(s.db) && w.putOk && w.updateOk
    ensures var run := Publish(bucket, s, video, key, newPath, w);
            var record := UploadedRecord(bucket, video, key);
            var (signBucket, signKey) := DecodeReference(Some(EncodeReference(bucket, key))).value;
            && run.response == ResponseOf(if DbVideoToSignedVideo(record, w.presign).SignFailed? then SigningFailed else Uploaded)
            && run.state.db == UpdateVideo(s.db, record)
            && run.state.objects == s.objects[(bucket, key) := StoredObject(Mp4Type, newPath)]
            && run.state.effects == s.effects + [PutObject(bucket, key), UpdateRecord(video.id), PresignGet(signBucket, signKey, PresignExpiry)]
  {
    EncodedReferenceSplits(bucket, key);
  }

  /** A failed put stops after the put; storage and the record are as before. */
  lemma {:induction false} PutFailedMeetsOutcome(bucket: string, s: State, video: Video, videoIdText: string, w: VideoWorld)
    requires WellKeyed(s.db) && FreshTemp(s, w)
    requires w.tempPath.Some? && w.copied && GetVideoAspectRatio(w.probe).Ok? && w.remuxed && w.outputOpened
    requires !w.putOk
    ensures PublishMeets(bucket, s, video, videoIdText, w)
  {
    StoppedAtPutOrUpdate(bucket, s, video, videoIdText, w);
    var tmp := w.tempPath.value;
    var newPath := FastStartPath(tmp);
    var calls := Pipeline(bucket, video, videoIdText, w);
    var ready := s.(tempFiles := s.tempFiles + {tmp} + {newPath}, effects := s.effects + calls[..3]);
    var run := Publish(bucket, ready, video, UploadKey(videoIdText, w), newPath, w);
    assert newPath != tmp;
    assert run.state.tempFiles - {newPath} - {tmp} == s.tempFiles;
    assert ProcessingStage(bucket, video, videoIdText, w) == PutFailed;
    assert run.state.effects == s.effects + calls[..4];
  }

  /** A failed update stops after the update; the object stays stored. */
  lemma {:induction false} UpdateFailedMeetsOutcome(bucket: string, s: State, video: Video, videoIdText: string, w: VideoWorld)
    requires WellKeyed(s.db) && FreshTemp(s, w)
    requires w.tempPath.Some? && w.copied && GetVideoAspectRatio(w.probe).Ok? && w.remuxed && w.outputOpened
    requires w.putOk && !w.updateOk
    ensures PublishMeets(bucket, s, video, videoIdText, w)
  {
    StoppedAtPutOrUpdate(bucket, s, video, videoIdText, w);
    var tmp := w.tempPath.value;
    var newPath := FastStartPath(tmp);
    var calls := Pipeline(bucket, video, videoIdText, w);
    var ready := s.(tempFiles := s.tempFiles + {tmp} + {newPath}, effects := s.effects + calls[..3]);
    var run := Publish(bucket, ready, video, UploadKey(videoIdText, w), newPath, w);
    assert newPath != tmp;
    assert run.state.tempFiles - {newPath} - {tmp} == s.tempFiles;
    assert ProcessingStage(bucket, video, videoIdText, w) == UpdateFailed;
    assert run.state.effects == s.effects + calls[..5];
  }

  /** A successful update is followed by the signing, whatever its verdict. */
  lemma {:induction false} RecordedMeetsOutcome(bucket: string, s: State, video: Video, videoIdText: string, w: VideoWorld)
    requires WellKeyed(s.db) && FreshTemp(s, w)
    requires w.tempPath.Some? && w.copied && GetVideoAspectRatio(w.probe).Ok? && w.remuxed && w.outputOpened
    requires w.putOk && w.updateOk
    ensures PublishMeets(bucket, s, video, videoIdText, w)
  {
    var tmp := w.tempPath.value;
    var newPath := FastStartPath(tmp);
    var calls := Pipeline(bucket, video, videoIdText, w);
    var ready := s.(tempFiles := s.tempFiles + {tmp} + {newPath}, effects := s.effects + calls[..3]);
    var run := Publish(bucket, ready, video, UploadKey(videoIdText, w), newPath, w);
    assert newPath != tmp;
    assert run.state.tempFiles - {newPath} - {tmp} == s.tempFiles;
    PublishRecorded(bucket, ready, video, UploadKey(videoIdText, w), newPath, w);
    LogExtends(s.effects, calls, 3, [calls[3], calls[4], calls[5]]);
    StageWhenAllSucceed(bucket, video, videoIdText, w);
  }

  /** Once the upload is copied, `Convert` and the removal of the
      temporary file end where the stage-based outcome says. */
  predicate ConvertMeets(bucket: string, s: State, video: Video, videoIdText: string, w: VideoWorld)
    requires WellKeyed(s.db) && w.tempPath.Some?
  {
    var tmp := w.tempPath.value;
    var copied := s.(tempFiles := s.tempFiles + {tmp}, effects := s.effects + [WriteTemp(tmp)]);
    var run := Convert(bucket, copied, video, videoIdText, w);
    Run(run.response, run.state.(tempFiles := run.state.tempFiles - {tmp}))
      == ProcessOutcome(bucket, s, video, videoIdText, w)
  }

  lemma {:induction false} ConvertMeetsOutcome(bucket: string, s: State, video: Video, videoIdText: string, w: VideoWorld)
    requires WellKeyed(s.db) && FreshTemp(s, w)
    requires w.tempPath.Some? && w.copied
    ensures ConvertMeets(bucket, s, video, videoIdText, w)
  {
    if GetVideoAspectRatio(w.probe).Err? {
      ProbeFailedMeetsOutcome(bucket, s, video, videoIdText, w);
    } else if !w.remuxed {
      RemuxFailedMeetsOutcome(bucket, s, video, videoIdText, w);
    } else if !w.outputOpened {
      OpenFailedMeetsOutcome(bucket, s, video, videoIdText, w);
    } else {
      ConvertPublishesMeetsOutcome(bucket, s, video, videoIdText, w);
    }
  }

  /** A failed probe stops after the probe. */
  lemma {:induction false} ProbeFailedMeetsOutcome(bucket: string, s: State, video: Video, videoIdText: string, w: VideoWorld)
    requires WellKeyed(s.db) && FreshTemp(s, w)
    requires w.tempPath.Some? && w.copied
    requires GetVideoAspectRatio(w.probe).Err?
    ensures ConvertMeets(bucket, s, video, videoIdText, w)
  {
    StoppedBeforePut(bucket, s, video, videoIdText, w);
    var tmp := w.tempPath.value;
    var calls := Pipeline(bucket, video, videoIdText, w);
    var stage := ProcessingStage(bucket, video, videoIdText, w);
    assert stage == ProbeNoStreams || stage == ProbeFailed;
    assert s.effects + [WriteTemp(tmp)] + [ProbeFile(tmp)] == s.effects + calls[..2];
  }

  /** A failed remux stops after the remux, before its output is
      registered for removal. */
  lemma {:induction false} RemuxFailedMeetsOutcome(bucket: string, s: State, video: Video, videoIdText: string, w: VideoWorld)
    requires WellKeyed(s.db) && FreshTemp(s, w)
    requires w.tempPath.Some? && w.copied
    requires GetVideoAspectRatio(w.probe).Ok? && !w.remuxed
    ensures ConvertMeets(bucket, s, video, videoIdText, w)
  {
    StoppedBeforePut(bucket, s, video, videoIdText, w);
    var tmp := w.tempPath.value;
    var calls := Pipeline(bucket, video, videoIdText, w);
    assert ProcessingStage(bucket, video, videoIdText, w) == RemuxFailed;
    assert s.effects + [WriteTemp(tmp)] + [ProbeFile(tmp)] + [RemuxFile(tmp, FastStartPath(tmp))] == s.effects + calls[..3];
  }

  /** An output that cannot be opened stops there and stays behind. */
  lemma {:induction false} OpenFailedMeetsOutcome(bucket: string, s: State, video: Video, videoIdText: string, w: VideoWorld)
    requires WellKeyed(s.db) && FreshTemp(s, w)
    requires w.tempPath.Some? && w.copied
    requires GetVideoAspectRatio(w.probe).Ok? && w.remuxed && !w.outputOpened
    ensures ConvertMeets(bucket, s, video, videoIdText, w)
  {
    StoppedBeforePut(bucket, s, video, videoIdText, w);
    var tmp := w.tempPath.value;
    var newPath := FastStartPath(tmp);
    var calls := Pipeline(bucket, video, videoIdText, w);
    assert newPath != tmp;
    assert ProcessingStage(bucket, video, videoIdText, w) == OpenFailed;
    assert s.effects + [WriteTemp(tmp)] + [ProbeFile(tmp)] + [RemuxFile(tmp, newPath)] == s.effects + calls[..3];
    assert s.tempFiles + {tmp} + {newPath} - {tmp} == s.tempFiles + {newPath};
  }

  /** A probe, remux and open that all succeed hand over to `Publish`. */
  lemma {:induction false} ConvertPublishesMeetsOutcome(bucket: string, s: State, video: Video, videoIdText: string, w: VideoWorld)
    requires WellKeyed(s.db) && FreshTemp(s, w)
    requires w.tempPath.Some? && w.copied
    requires GetVideoAspectRatio(w.probe).Ok? && w.remuxed && w.outputOpened
    ensures ConvertMeets(bucket, s, video, videoIdText, w)
  {
    var tmp := w.tempPath.value;
    var newPath := FastStartPath(tmp);
    var calls := Pipeline(bucket, video, videoIdText, w);
    assert s.effects + [WriteTemp(tmp)] + [ProbeFile(tmp)] + [RemuxFile(tmp, newPath)] == s.effects + calls[..3];
    assert s.tempFiles + {tmp} + {newPath} == s.tempFiles + {tmp} + {newPath};
    PublishMeetsOutcome(bucket, s, video, videoIdText, w);
    assert PublishMeets(bucket, s, video, videoIdText, w);
  }

  /** From the temporary file on, the steps end where the stage-based
      outcome says. */
  lemma {:induction false} ProcessMeetsOutcome(bucket: string, s: State, video: Video, videoIdText: string, w: VideoWorld)
    requires WellKeyed(s.db) && FreshTemp(s, w)
    ensures Process(bucket, s, video, videoIdText, w) == ProcessOutcome(bucket, s, video, videoIdText, w)
  {
    if w.tempPath.None? || !w.copied {
      StoppedBeforePut(bucket, s, video, videoIdText, w);
      if w.tempPath.Some? {
        var tmp := w.tempPath.value;
        assert s.tempFiles + {tmp} - {tmp} == s.tempFiles;
      }
    } else {
      ConvertMeetsOutcome(bucket, s, video, videoIdText, w);
      assert ConvertMeets(bucket, s, video, videoIdText, w);
    }
  }

  /** The handler, step by step, ends where the stage-based outcome says:
      every property proved of `UploadVideo.Outcome` holds of it. */
  lemma {:induction false} UploadMeetsOutcome(bucket: string, s: State, rq: VideoRequest, w: VideoWorld)
    requires WellKeyed(s.db) && FreshTemp(s, w)
    ensures Upload(bucket, s, rq, w) == Outcome(bucket, s, rq, w)
  {
    if !EarlyStage(StageOf(bucket, s, rq, w)) {
      ProcessMeetsOutcome(bucket, s, s.db[rq.videoId.value], rq.videoIdText, w);
    }
  }
}
