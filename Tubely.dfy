/** What the upload handlers receive, the state they read and change, and
    what they answer: the video records of the metadata store, the objects
    in storage, the local temporary and asset files, and the ordered log of
    external calls. */
module Tubely {
  import opened Results

  /** A UUID in its canonical text form. */
  type Uuid = string

  /** The zero UUID, which an empty record carries. */
  const NilUuid: Uuid := "00000000-0000-0000-0000-000000000000"

  /** A video record. `details` stands for every other column (title,
      description, timestamps), which these handlers only copy. */
  datatype Video = Video(
    id: Uuid,
    userId: Uuid,
    thumbnailUrl: Option<string>,
    videoUrl: Option<string>,
    details: string)

  /** The zero record, Go's `database.Video{}`. */
  function EmptyVideo(): (v: Video)
    ensures v.videoUrl.None? && v.thumbnailUrl.None? && v.id == NilUuid
  {
    Video(NilUuid, NilUuid, None, None, "")
  }

  /** What an object in storage holds: its content type and the local file
      its bytes were read from. */
  datatype StoredObject = StoredObject(contentType: string, sourcePath: string)

  /** One call into the outside world, in the order it was made. */
  datatype Effect =
    | WriteTemp(path: string)                           // io.Copy into the temporary file
    | ProbeFile(path: string)                           // ffprobe
    | RemuxFile(input: string, output: string)          // ffmpeg fast-start remux
    | PutObject(bucket: string, key: string)            // S3 PutObject
    | UpdateRecord(id: Uuid)                            // db.UpdateVideo
    | PresignGet(bucket: string, key: string, expiry: nat) // S3 PresignGetObject
    | CreateAsset(name: string)                         // os.Create in the assets directory
    | WriteAsset(name: string)                          // io.Copy into that file

  /** The metadata store keys every record by its own ID. */
  predicate WellKeyed(db: map<Uuid, Video>)
  {
    forall id :: id in db ==> db[id].id == id
  }

  /** What the bearer token in the request came to: no token, a token
      that does not validate, or the user it names. */
  datatype Auth = NoToken | BadToken | Authenticated(userId: Uuid)

  /** `mime.ParseMediaType`'s media type and whether it also returned an
      error. It returns "" on most errors but the type itself when only a
      parameter is malformed. */
  datatype MediaType = MediaType(base: string, failed: bool)

  /** A multipart file part: its raw Content-Type header and how that
      header parses. */
  datatype FilePartFields = FilePart(contentType: string, parsedType: MediaType)

  /** `mime.ParseMediaType` reads the header's text before ';', trimmed
      and lower-cased. Neither step brings in a '/', so a '/' in the parsed
      type is one of the header's. */
  predicate ParsedFromHeader(part: FilePartFields)
  {
    '/' in part.parsedType.base ==> '/' in part.contentType
  }

  /** The file parts a request can carry: their parsed type comes from
      their own header. */
  type FilePart = part: FilePartFields | ParsedFromHeader(part)
    witness FilePart("", MediaType("", true))

  /** Everything the handlers can change. */
  datatype State = State(
    db: map<Uuid, Video>,
    objects: map<(string, string), StoredObject>,
    tempFiles: set<string>,
    assets: set<string>,
    effects: seq<Effect>)

  const StatusOK: int := 200
  const StatusBadRequest: int := 400
  const StatusUnauthorized: int := 401

  /** A handler's answer together with the state it leaves behind. */
  datatype Run = Run(response: Response, state: State)

  /** What a handler did with its response writer. */
  datatype Response =
    | ErrorResponse(code: int, message: string)  // respondWithError
    | JsonResponse(code: int, video: Video)      // respondWithJSON
    | NothingWritten                             // returned without writing
    | Panicked(reason: string)                   // a Go runtime panic

  /** The calls a handler made, after the ones made before it. */
  function NewCalls(s: State, run: Run): seq<Effect>
  {
    if |s.effects| <= |run.state.effects| then run.state.effects[|s.effects|..] else []
  }

  /** `db.UpdateVideo`: the record replaces the one with its ID. */
  function UpdateVideo(db: map<Uuid, Video>, video: Video): (db': map<Uuid, Video>)
    requires WellKeyed(db)
    ensures WellKeyed(db')
    ensures video.id in db' && db'[video.id] == video
    ensures forall id :: id != video.id ==> (id in db' <==> id in db)
    ensures forall id :: id in db && id != video.id ==> db'[id] == db[id]
  {
    db[video.id := video]
  }
}
