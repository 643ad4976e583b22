# Tubely upload core, modelled in Dafny

Tubely is a small video-hosting backend. This project models its two upload
handlers and the helper that turns a stored video reference into a playback
link:

- `handlerUploadVideo` checks the request in this order: video ID, bearer
  token, ownership, the "video" form part and its `video/mp4` content type.
  It then:
  1. copies the upload into a temporary file;
  2. classifies the first stream's geometry (`getVideoAspectRatio`);
  3. remuxes the file for fast start (`processVideoForFastStart`);
  4. puts the remuxed file into S3 under `"<class>/<video id>.mp4"`;
  5. stores `"<bucket>,<key>"` in the record's VideoURL;
  6. signs that reference (`dbVideoToSignedVideo`).
- `handlerUploadThumbnail` checks the request in this order: ID, token,
  multipart form, the "thumbnail" form part, the JPEG/PNG whitelist, the
  record and its owner. It then names the file
  `"<base64url of 32 random bytes>.<extension>"`, writes it to the assets
  directory and points ThumbnailURL at it.
- `dbVideoToSignedVideo` splits the stored reference at its commas and asks
  the presigner for a ten-minute link.

## How the model is built

- **Pure decisions.** The following are functions with their properties
  proved:
  - the aspect-ratio classification, the storage prefix and the key;
  - the fast-start path;
  - the reference format and its decoder;
  - the thumbnail's extension, random name and URL;
  - Go's `strings.Split`/`SplitAfter` and unpadded URL-safe base64 (with a
    decoder as the encoder's partner).
- **Handlers as specifications.** `UploadVideo.Outcome` and
  `UploadThumbnail.UploadThumbnail` give the handlers' results directly:
  - the request and the answers of the outside world decide the first check
    that fails;
  - that stage decides the response, the state left behind (records, stored
    objects, temporary and asset files) and the external calls made, which
    are a prefix of a fixed call list.
- **A second, stepwise specification.** `VideoSteps` describes the video
  handler step by step from the temporary file on. `VideoSteps.UploadMeetsOutcome`
  proves the two specifications equal.
- **Handlers as methods.** `Api.ApiConfig` is the server's configuration
  object, with the metadata store, the bucket, the local files and the call
  log as fields. Its methods run the handlers statement by statement. Each
  method is proved to end exactly where its specification function says, so
  every lemma about the specification holds of the methods.
- **The outside world.** Every answer from outside is an input:
  - a `VideoWorld` or `ThumbnailWorld` value carries whether the temporary
    file, copy, ffprobe, ffmpeg, open, put, update, file creation and write
    succeeded, the probe output and the random bytes;
  - the presigner is a function-valued parameter.

Where the code and the repository's own description of it differ, the model
follows the code:

- **Leaked remux output.** The remuxed `.processing` file is only
  registered for removal after `os.Open` succeeds. When the open fails, the
  file outlives the request (`UploadVideo.TempFilesAfterUpload`).
- **No streams panics.** A probe without streams is a runtime panic on
  `p.Streams[0]`, not a reported processing failure.
- **Failed temporary file panics.** A failed `os.CreateTemp` is not checked.
  `tempFile.Name()` on the nil file panics.
- **Lenient reference decoding.** The decoder takes the first two
  comma-separated parts. It accepts empty parts and silently drops
  everything after a second comma (`SignVideo.ReferenceTruncatesKey`). Only
  a reference without a comma, or a nil one, panics.
- **Empty success response.** A successful video upload returns without
  writing a response. The signed record is computed and dropped.
- **Thumbnail content type.** The thumbnail handler ignores
  `mime.ParseMediaType`'s error, so a rejected header is caught only through
  the "" it yields. It takes the extension from the raw header, not from the
  parsed type (`ThumbnailNaming.ExtensionStopsAtSecondSlash`).

## Model

| member | source | states |
|---|---|---|
| VideoProcessing.GoRem | handler_upload_video.go:164-168 | Go's `%` truncates toward zero: a - r is n times the truncated quotient (the magnitude's quotient with the dividend's sign), r has the dividend's sign and lies strictly between -n and n, and equals Dafny's remainder on non-negative operands |
| VideoProcessing.GoRemZero | handler_upload_video.go:164-168 | the divisibility tests by 16 and 9 give the same verdict under Go's and Dafny's remainder, negative dimensions included |
| VideoProcessing.ClassifyStream | handler_upload_video.go:160-171 | the class is one of "16:9", "9:16", "other", and a declared ratio of exactly "16:9" or "9:16" is returned as is |
| VideoProcessing.GetVideoAspectRatio | handler_upload_video.go:139-172 | a ratio comes back iff ffprobe ran, its JSON decoded and there is a stream; it is the first stream's class; a failed run and bad JSON are errors, no streams is the index panic |
| VideoProcessing.FallbackClassification | handler_upload_video.go:164-171 | without a declared ratio, landscape iff width%16 = 0 and height%9 = 0; portrait iff not that and width%9 = 0 and height%16 = 0; otherwise "other" |
| VideoProcessing.ClassificationExamples | handler_upload_video.go:160-171 | 1920x1080 and 1080x1920 classify by divisibility, 1000x999 is "other", and a square 144x144 or 0x0 stream falls on landscape because that test comes first |
| VideoProcessing.RatioPrefix | handler_upload_video.go:87-93 | "landscape" iff the ratio is "16:9", "portrait" iff it is "9:16", otherwise "other"; no prefix holds '/' or ',' |
| VideoProcessing.VideoKey | handler_upload_video.go:108 | the key is the prefix, a '/' right after it, the ID text and ".mp4" (five characters more than prefix and ID together) |
| VideoProcessing.VideoKeyLayout | handler_upload_video.go:108 | splitting the key at '/' gives back exactly the prefix and "<id>.mp4" |
| VideoProcessing.VideoKeyInjective | handler_upload_video.go:108 | two keys are equal only for the same prefix and the same video ID |
| VideoProcessing.FastStartPath | handler_upload_video.go:175 | the output path extends the input path by ".processing", so it is never the input path |
| VideoProcessing.ProcessVideoForFastStart | handler_upload_video.go:174-182 | a path comes back iff ffmpeg succeeded, and then it is the ".processing" path |
| GoStrings.Split | handler_sign_video.go:13 | `strings.Split` always gives at least one part, the empty string and a string without the separator included |
| GoStrings.SplitAfter | handler_upload_thumbnail.go:79 | `strings.SplitAfter` always gives at least one part |
| GoStrings.SplitPartsFree | handler_sign_video.go:13 | no part produced by `strings.Split` contains the separator |
| GoStrings.SplitCount | handler_sign_video.go:13 | `strings.Split` gives one more part than there are separators |
| GoStrings.JoinSplit | handler_sign_video.go:13 | joining the parts of a split with the separator gives back the string |
| GoStrings.SplitJoin | handler_sign_video.go:13 | splitting a join of separator-free parts gives back the parts |
| GoStrings.SplitAfterKeepsSeparators | handler_upload_thumbnail.go:79 | `strings.SplitAfter` gives as many parts as `Split`; each part but the last is the `Split` part followed by the separator, and the last parts are equal |
| SignVideo.EncodeReference | handler_upload_video.go:122 | the reference is the bucket, a ',' right after it, and the key: one character more than both together |
| SignVideo.DecodeReference | handler_sign_video.go:13-14 | a nil VideoURL and a reference without ',' are the two panics; decoded parts hold no ',', and "<bucket>,<key>" rebuilt from them is a prefix of the reference |
| SignVideo.ReferenceRoundTrip | handler_sign_video.go:13-14 | decoding "<bucket>,<key>" gives back exactly (bucket, key) iff neither holds a comma |
| SignVideo.ReferenceTruncatesKey | handler_sign_video.go:13-14 | a key with a comma comes back cut at its first comma, strictly shorter |
| SignVideo.EncodedReferenceSplits | handler_upload_video.go:122 | the reference the upload handler stores always decodes without a panic |
| SignVideo.DbVideoToSignedVideo | handler_sign_video.go:12-20 | panics exactly when the reference does not decode; otherwise signs iff the presigner does, for the decoded bucket and key and ten minutes; a signed copy differs from the record only in VideoURL, a failure gives the zero record |
| SignVideo.SignStoredReference | handler_sign_video.go:12-20 | for a comma-free bucket and key, the presigner is asked for exactly that bucket and key, and the result is the signed copy or the zero record with the error |
| Tubely.UpdateVideo | handler_upload_video.go:125 | the record replaces the one with its ID; every other record is kept, and the store stays keyed by ID |
| Tubely.EmptyVideo | handler_sign_video.go:17 | the zero record has no URLs and the nil ID |
| Base64Url.Encode | handler_upload_thumbnail.go:83 | the encoding has 4 symbols per 3 bytes plus one more than the bytes of a short last group, all from the URL-safe alphabet |
| Base64Url.DecodeEncode | handler_upload_thumbnail.go:83 | the strict decoder gives back the encoded bytes exactly |
| Base64Url.EncodeInjective | handler_upload_thumbnail.go:81-83 | different random bytes never give the same name |
| Base64Url.ThirtyTwoBytes | handler_upload_thumbnail.go:81-83 | 32 bytes encode to 43 symbols |
| ThumbnailNaming.AcceptedImageType | handler_upload_thumbnail.go:57-58 | an accepted parsed type starts with "image/", so it holds a '/' |
| ThumbnailNaming.UnparsedTypeRejected | handler_upload_thumbnail.go:57-58 | the "" a failed parse yields is not on the whitelist |
| ThumbnailNaming.Extension | handler_upload_thumbnail.go:79 | index 1 of `SplitAfter` exists iff the raw header has a '/'; the header up to and including its first '/', followed by the extension, is where the header starts |
| ThumbnailNaming.ExtensionOfSimpleType | handler_upload_thumbnail.go:79 | a header "type/subtype" gives the subtype |
| ThumbnailNaming.ExtensionStopsAtSecondSlash | handler_upload_thumbnail.go:79 | a second '/' in the raw header ends the extension, and the '/' is kept |
| ThumbnailNaming.ExtensionExamples | handler_upload_thumbnail.go:79 | "image/png" gives "png" and "image/jpeg" gives "jpeg" |
| ThumbnailNaming.RandomName | handler_upload_thumbnail.go:81-83 | the random name has 43 symbols, all URL-safe base64 |
| ThumbnailNaming.FileName | handler_upload_thumbnail.go:85 | the file name is the random name, a '.' right after it, and the extension |
| ThumbnailNaming.FileNameLayout | handler_upload_thumbnail.go:85 | the file name's first '.' sits right after the 43-symbol random name, and the extension follows it |
| ThumbnailNaming.ThumbnailUrl | handler_upload_thumbnail.go:99 | the URL is the file name under "http://localhost:8091/assets/" |
| UploadVideo.ParsedIdTextIsPlain | handler_upload_video.go:23-24 | an ID text that `uuid.Parse` accepted holds neither ',' nor '/' |
| UploadVideo.Outcome | handler_upload_video.go:19-137 | the stage-based handler: a rejected request changes nothing, otherwise `ProcessOutcome`; the store stays keyed by ID (its frame is `OutcomeFrame`) |
| UploadVideo.OutcomeFrame | handler_upload_video.go:19-137 | no record appears or disappears, objects are only added or replaced, assets are untouched, the call log grows by at most six calls, and nothing changes unless the caller owns an existing record |
| UploadVideo.ProcessOutcome | handler_upload_video.go:69-137 | the handler from the temporary file on: response, records, objects, temporary files and calls as decided by the stage reached; the store stays keyed by ID |
| UploadVideo.ProcessingStage | handler_upload_video.go:69-135 | the first step from the temporary file on that fails; never one of the request checks |
| UploadVideo.StageNeeds | handler_upload_video.go:69-129 | a stage that made a call had a temporary file; one that reached the put had a copied, classified, remuxed and opened file; one past the put had a successful put; a stored object needs five calls and an updated record a successful update |
| UploadVideo.StageWhenAllSucceed | handler_upload_video.go:125-135 | when every step up to the update succeeded, only the signing of the rewritten record decides between success and "Error generating signed link to video" |
| UploadVideo.Pipeline | handler_upload_video.go:69-135 | the handler's calls form a list of exactly six; where each kind of call sits in it is stated by `PipelineShape` |
| UploadVideo.PipelineShape | handler_upload_video.go:79-125 | the probe and the remux are of the temporary file, the put is the fourth call and is under the upload key, and the update is the fifth |
| UploadVideo.StageOf | handler_upload_video.go:23-67 | a request that gets past the checks has a parsed ID of an existing record owned by the caller, and a video part that parsed as video/mp4 |
| UploadVideo.ResponseOf | handler_upload_video.go:19-137 | every error is a 400 or a 401, and the handler writes nothing exactly when the upload succeeded |
| UploadVideo.EarlyRejectionChangesNothing | handler_upload_video.go:23-67 | a bad ID, missing or invalid token, unknown video, non-owner, missing part or non-mp4 type is answered with an error, and the state is left exactly as it was |
| UploadVideo.NonOwnerRejected | handler_upload_video.go:47-50 | a caller who does not own the video gets 401 "User doesn't own video" and the record is untouched |
| UploadVideo.CallsArePipelinePrefix | handler_upload_video.go:69-135 | calls are only appended to the log; they are none for a rejected request, and otherwise the first steps of write temp, probe, remux, put, update, presign, up to the stage reached |
| UploadVideo.PutOnlyAfterProcessing | handler_upload_video.go:79-119 | a put is only ever the fourth call, after the probe and remux of the temporary file, and only when the probe classified it and the remux and open succeeded |
| UploadVideo.UpdateOnlyAfterPut | handler_upload_video.go:110-129 | a record update is only ever the fifth call, right after a successful put to "<class>/<id>.mp4" |
| UploadVideo.StorageChangesOnlyAfterPut | handler_upload_video.go:95-129 | storage changes only after the remux, open and put all succeeded; the records change only when the put and the update both did |
| UploadVideo.ProcessingFailureStoresNothing | handler_upload_video.go:79-99 | a failed probe or remux leaves the records and storage as they were |
| UploadVideo.TempFilesAfterUpload | handler_upload_video.go:69-106 | the temporary copy never outlives the request; the only file left behind is the remuxed file, and only when opening it failed |
| UploadVideo.UploadKeyLayout | handler_upload_video.go:87-108 | the key of an upload whose ID parsed has no comma and splits at '/' into the class prefix and "<id>.mp4" |
| UploadVideo.KeyWithoutComma | handler_upload_video.go:108 | the key has no comma when the video ID text has none |
| UploadVideo.SuccessfulUpload | handler_upload_video.go:108-135 | on success: the remuxed file is stored as video/mp4 under "<class>/<id>.mp4" with one of the three classes, and no other key appears; VideoURL alone becomes "<bucket>,<key>"; for a comma-free bucket that reference decodes back and the presigner is asked for exactly it, for ten minutes |
| VideoSteps.Sign | handler_upload_video.go:131-135 | signing changes only the call log |
| VideoSteps.Record | handler_upload_video.go:122-129 | the record update changes only the records and the call log |
| VideoSteps.Publish | handler_upload_video.go:110-119 | the put leaves the temporary files and assets alone |
| VideoSteps.Remux | handler_upload_video.go:87-108 | the remux and the open leave the assets alone and add at most the ".processing" file to the temporary files |
| VideoSteps.Convert | handler_upload_video.go:79-108 | the probe and what follows leave the assets alone and add at most the ".processing" file |
| VideoSteps.Process | handler_upload_video.go:69-77 | the temporary copy never survives its deferred removal; at most the ".processing" file is added; assets are untouched |
| VideoSteps.Upload | handler_upload_video.go:19-137 | a request stopped by a check is answered with nothing changed; assets are untouched and the temporary copy does not survive the request |
| VideoSteps.PublishMeetsOutcome | handler_upload_video.go:105-137 | from an opened remux output on, the steps and the two deferred removals end at the stage-based outcome |
| VideoSteps.ConvertMeetsOutcome | handler_upload_video.go:79-137 | from the copied temporary file on, the steps and the removal of that file end at the stage-based outcome |
| VideoSteps.ProcessMeetsOutcome | handler_upload_video.go:69-137 | from the temporary file on, the steps end at the stage-based outcome, including the panic when no file was created |
| VideoSteps.UploadMeetsOutcome | handler_upload_video.go:19-137 | the stepwise handler and the stage-based outcome agree on every request and every answer of the outside world whose temporary path and its ".processing" sibling are new |
| Api.ApiConfig.HandlerUploadVideo | handler_upload_video.go:19-137 | the method's response and the fields it leaves equal `UploadVideo.Outcome` of the request on the state it started from |
| Api.ApiConfig.ProcessUpload | handler_upload_video.go:69-77 | the temporary copy and its deferred removal end where `VideoSteps.Process` says |
| Api.ApiConfig.ConvertUpload | handler_upload_video.go:79-83 | the probe and its two failure exits end where `VideoSteps.Convert` says |
| Api.ApiConfig.RemuxUpload | handler_upload_video.go:87-108 | the ratio prefix, the remux, the open, the key and the deferred removal of the output end where `VideoSteps.Remux` says |
| Api.ApiConfig.PublishUpload | handler_upload_video.go:110-119 | the put and its failure exit end where `VideoSteps.Publish` says |
| Api.ApiConfig.RecordUpload | handler_upload_video.go:122-129 | the reference, the record update and its failure exit end where `VideoSteps.Record` says |
| Api.ApiConfig.SignUpload | handler_upload_video.go:131-135 | signing the updated record ends where `VideoSteps.Sign` says |
| Api.ApiConfig.HandlerUploadThumbnail | handler_upload_thumbnail.go:18-78 | the method's response and the fields it leaves equal `UploadThumbnail.UploadThumbnail` of the request on the state it started from |
| Api.ApiConfig.SaveThumbnail | handler_upload_thumbnail.go:79-108 | naming, creating, writing and recording the file end where `UploadThumbnail.Save` says |
| UploadThumbnail.UploadThumbnail | handler_upload_thumbnail.go:18-109 | the stage-based handler: no record appears or disappears, objects and temporary files are untouched, at most one asset is added and at most three calls are made |
| UploadThumbnail.SavingStage | handler_upload_thumbnail.go:79-106 | a header without '/' is the index panic, which a part that passed the whitelist never reaches (`AcceptedPartHasExtension`); the thumbnail is saved iff the header has a '/' and creating, writing and updating all succeeded |
| UploadThumbnail.Save | handler_upload_thumbnail.go:79-108 | the handler from the extension on: objects and temporary files are untouched, the only asset added is the named file, at most three calls are made, and no record appears or disappears |
| UploadThumbnail.StageOf | handler_upload_thumbnail.go:19-78 | a request that gets past the checks has a parsed ID, a valid token, a parsed form, a JPEG or PNG part, and a record the caller owns |
| UploadThumbnail.ResponseOf | handler_upload_thumbnail.go:18-109 | every error is a 400 or a 401, and JSON with 200 is sent exactly when the thumbnail was saved |
| UploadThumbnail.InvalidIdRejectedFirst | handler_upload_thumbnail.go:19-24 | an unparsable ID gets 400 "Invalid ID" before anything else is looked at, and nothing changes |
| UploadThumbnail.OnlyImagesStored | handler_upload_thumbnail.go:55-61 | nothing is written, recorded or called unless the part's parsed type is image/jpeg or image/png; an unparsable type is answered "Please use jpeg or png" with no change |
| UploadThumbnail.NonOwnerRejected | handler_upload_thumbnail.go:69-78 | an authenticated request with a parsed form and a JPEG or PNG part, for an existing record the caller does not own, gets 401 "Wrong userID for video" and nothing changes |
| UploadThumbnail.OnlyOwnerChangesState | handler_upload_thumbnail.go:19-78 | any change to the state needs a parsed ID and a caller who owns that existing record |
| UploadThumbnail.AcceptedPartHasExtension | handler_upload_thumbnail.go:57-85 | a part that passed the JPEG/PNG check has a '/' in its raw header, so `extension[1]` exists and the handler never panics |
| UploadThumbnail.UpdateOnlyAfterCopy | handler_upload_thumbnail.go:87-106 | calls are only appended; a record update is only ever the third call, after the file was created and written under its name; the records change only when all three succeeded |
| UploadThumbnail.SuccessfulThumbnail | handler_upload_thumbnail.go:79-108 | on success the asset "<43 random symbols>.<extension>" is added, ThumbnailURL alone is set to its URL, and that record is sent back |

## Left out

- HTTP plumbing is not modelled: routing, `http.MaxBytesReader`'s 1 GiB
  limit, multipart parsing, response encoding and closing bodies and files.
  The request arrives already parsed.
- `auth.GetBearerToken` and `auth.ValidateJWT` are reduced to their verdict:
  no token, a bad token, or a user ID. The JWT library is not part of this
  model.
- `uuid.Parse` is reduced to "parsed or not", and to the characters an
  accepted text can hold: hex digits, '-', braces and the letters of a
  "urn:uuid:" prefix. The video handler keys the object by the ID text as
  the client sent it, and the model keeps that text.
- `mime.ParseMediaType` is reduced to its media type and whether it
  returned an error. Its grammar is not modelled. The one tie kept between
  a part's parsed type and its raw header is that a '/' in the parsed type
  comes from the header.
- The ffprobe and ffmpeg subprocesses are reduced to their results: the
  probe's decoded output (or a failure) and ffmpeg's success. JSON decoding
  and ffmpeg's partial output on failure are not modelled.
- File contents are not modelled: the bytes copied, the remuxed bytes and
  the uploaded body. `tempFile.Seek` has no effect on the model state. A
  stored object records its content type and the local file it came from.
- The S3 SDK is reduced to whether `PutObject` succeeded and a presigner
  function. The request context, the region and the URL format are not
  modelled.
- `crypto/rand` is reduced to the 32 bytes it produced. Its error is
  ignored in the source and here.
- `filepath.Join` with the assets root is not modelled. Assets are
  identified by their file name.
- Status codes are 400 and 401 as in the source. Go's `int64` form limit
  and the `fmt.Println` trace are not modelled.
- The metadata store's other columns are carried as one opaque field, which
  the handlers only copy.
- `Base64Url.Decode` is the strict decoder that serves as the encoder's
  partner. The handler never decodes names.
- `generatePresignedURL` (handler_sign_video.go:23-38) is a presigner
  parameter: the SDK it calls is not part of this model.
- Concurrency is not modelled. Each handler is one atomic step on the
  state. The Go handlers read the record (handler_upload_video.go:42,
  handler_upload_thumbnail.go:69) and later write the whole record back
  (handler_upload_video.go:125, handler_upload_thumbnail.go:102). A
  concurrent request that changes the other URL field in between is
  overwritten. "VideoURL alone changes" (`UploadVideo.SuccessfulUpload`) and
  "ThumbnailURL alone changes" (`UploadThumbnail.SuccessfulThumbnail`) hold
  only when no other request interleaves.
- VideoSteps.UploadMeetsOutcome: proved only when the temporary path and
  its ".processing" sibling are both new (`UploadVideo.FreshTemp`), and so
  is `Api.ApiConfig.HandlerUploadVideo`. `os.CreateTemp` guarantees a new
  path, but a ".processing" file leaked by an earlier failed open could
  share its name. In that case the stepwise handler, like the Go code,
  removes the older file too, while the stage-based outcome keeps it.
- Api.ApiConfig.HandlerUploadVideo: requires the same fresh temporary path
  and ".processing" sibling, for the same reason.
