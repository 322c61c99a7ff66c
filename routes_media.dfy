/**
 * `backend/api/routes/media.py`: serving an image by name and uploading
 * one. The image directory is a map from file name to bytes; uploading
 * writes the file first and only then opens the transaction that records
 * the media row.
 */
module MediaRoutes {
  import opened Wrappers
  import opened Errors
  import opened Models
  import opened Store
  import opened UserCrud
  import opened MediaCrud
  import opened Identity
  import opened Responses
  import opened ServiceFunctions

  type Byte = x: int | 0 <= x < 256
  type Bytes = seq<Byte>

  /** What the handler reads from the request: `request.url.scheme` and `request.client.host`. */
  datatype Request = Request(scheme: string, clientHost: string)

  /** The uploaded file: its name and its content. */
  datatype UploadFile = UploadFile(filename: string, content: Bytes)

  /** The directory `backend/api/images`, which uploads write into in place. */
  class ImageDirectory {
    var files: map<string, Bytes>

    constructor ()
      ensures files == map[]
    {
      files := map[];
    }

    /** Opening `name` with mode `wb+` and writing `content`: creates or replaces the file. */
    method Write(name: string, content: Bytes)
      modifies this
      ensures files == old(files)[name := content]
    {
      files := files[name := content];
    }
  }

  /** `get_image`: the file's bytes, or `FileNotFoundError` naming the file. */
  function GetImage(files: map<string, Bytes>, fileName: string): (r: Result<Bytes, Error>)
    ensures r.Ok? <==> fileName in files
    ensures r.Ok? ==> r.value == files[fileName]
    ensures r.Err? ==> r.error == FileNotFoundError("File " + fileName + " not Found")
  {
    if fileName in files then Ok(files[fileName])
    else Err(FileNotFoundError("File " + fileName + " not Found"))
  }

  /**
   * `load_media`. A missing key is refused by the dependency before the
   * body runs, so nothing is written. The uploader recorded is the user
   * found before registration: a caller seen for the first time is
   * registered, but the media row gets no uploader.
   */
  function LoadMediaOutcome(d: Db, files: map<string, Bytes>, headers: Headers, request: Request,
                            file: UploadFile, pick: nat -> nat): (res: (Db, map<string, Bytes>, Reply))
    requires Valid(d)
    ensures Valid(res.0)
    ensures GetApiKey(headers).Err? ==> res == (d, files, Err(HttpError(Forbidden, ApiKeyMissing)))
    ensures GetApiKey(headers).Ok? ==>
      var key := GetApiKey(headers).value;
      && res.1 == files[file.filename := file.content]
      && res.2 == Ok(AddMediaResponse(d.nextMediaId))
      && d.nextMediaId !in d.media
      && res.0.media == d.media[d.nextMediaId := Media(d.nextMediaId, file.filename,
           if SelectUserByKey(d, key).Some? then Some(SelectUserByKey(d, key).value.id) else None,
           MediaLink(request.scheme, request.clientHost, file.filename))]
      && res.0.users == Resolve(d, key, pick).0.users
      && res.0.tweets == d.tweets && res.0.followers == d.followers && res.0.likes == d.likes
  {
    match GetApiKey(headers)
    case Err(e) => (d, files, Err(e))
    case Ok(key) =>
      var written := files[file.filename := file.content];
      var currUser := SelectUserByKey(d, key);
      var d1 := Resolve(d, key, pick).0;
      var (d2, mediaId) := AddMediaOutcome(d1, file.filename, currUser, request.scheme, request.clientHost);
      (d2, written, Ok(AddMediaResponse(mediaId.value)))
  }

  /** `load_media`. */
  method LoadMedia(session: Session, images: ImageDirectory, headers: Headers, request: Request,
                   file: UploadFile, pick: nat -> nat) returns (r: Reply)
    requires Valid(session.State())
    modifies session, images
    ensures (session.State(), images.files, r) ==
            LoadMediaOutcome(old(session.State()), old(images.files), headers, request, file, pick)
  {
    var apiKey := GetApiKey(headers);
    if apiKey.Err? {
      return Err(apiKey.error);
    }
    images.Write(file.filename, file.content);
    var currUser := SelectUserByKey(session.State(), apiKey.value);
    var _ := ResolveOrRegister(session, apiKey.value, pick);
    var mediaId := AddMedia(session, file.filename, currUser, request.scheme, request.clientHost);
    r := Ok(AddMediaResponse(mediaId.value));
  }

  /** An uploaded image is served under its own name, and the link stored for it names that file. */
  lemma UploadedImageIsServed(d: Db, files: map<string, Bytes>, headers: Headers, request: Request,
                              file: UploadFile, pick: nat -> nat)
    requires Valid(d) && GetApiKey(headers).Ok?
    ensures var res := LoadMediaOutcome(d, files, headers, request, file, pick);
      && d.nextMediaId in res.0.media
      && var link := res.0.media[d.nextMediaId].link;
      && LinkFileName(link, request.scheme, request.clientHost) == Some(file.filename)
      && GetImage(res.1, file.filename) == Ok(file.content)
  {
    LinkNamesItsFile(request.scheme, request.clientHost, file.filename);
  }

  /** Without a key nothing is written: the directory and the store are untouched. */
  lemma RefusedUploadWritesNothing(d: Db, files: map<string, Bytes>, headers: Headers, request: Request,
                                   file: UploadFile, pick: nat -> nat)
    requires Valid(d) && GetApiKey(headers).Err?
    ensures var res := LoadMediaOutcome(d, files, headers, request, file, pick);
      res.0 == d && res.1 == files && GetImage(res.1, file.filename) == GetImage(files, file.filename)
  {
  }

  /**
   * Two uploads under one name: the second file replaces the first on
   * disk, both media rows stay, and other files are untouched.
   */
  lemma ReuploadReplacesFile(d: Db, files: map<string, Bytes>, headers: Headers, request: Request,
                             first: UploadFile, second: UploadFile, pick: nat -> nat, pick': nat -> nat, other: string)
    requires Valid(d) && GetApiKey(headers).Ok?
    requires first.filename == second.filename && other != first.filename
    ensures var once := LoadMediaOutcome(d, files, headers, request, first, pick);
      var twice := LoadMediaOutcome(once.0, once.1, headers, request, second, pick');
      && GetImage(twice.1, second.filename) == Ok(second.content)
      && GetImage(twice.1, other) == GetImage(files, other)
      && d.nextMediaId in twice.0.media && d.nextMediaId + 1 in twice.0.media
      && twice.0.media[d.nextMediaId].fileName == twice.0.media[d.nextMediaId + 1].fileName
  {
    var once := LoadMediaOutcome(d, files, headers, request, first, pick);
    OneUpload(d, files, headers, request, first, pick);
    OneUpload(once.0, once.1, headers, request, second, pick');
  }

  /** One upload: the file is written, one row is added under the next id, the others stay. */
  lemma OneUpload(d: Db, files: map<string, Bytes>, headers: Headers, request: Request,
                  file: UploadFile, pick: nat -> nat)
    requires Valid(d) && GetApiKey(headers).Ok?
    ensures var res := LoadMediaOutcome(d, files, headers, request, file, pick);
      && res.1 == files[file.filename := file.content]
      && res.0.nextMediaId == d.nextMediaId + 1
      && d.nextMediaId in res.0.media && res.0.media[d.nextMediaId].fileName == file.filename
      && forall id :: id in d.media ==> id in res.0.media && res.0.media[id] == d.media[id]
  {
  }

  /** The first upload into empty tables replies `{"result": true, "media_id": 1}`. */
  lemma FirstUploadGetsMediaIdOne(files: map<string, Bytes>, headers: Headers, request: Request,
                                  file: UploadFile, pick: nat -> nat)
    requires GetApiKey(headers).Ok?
    ensures LoadMediaOutcome(Empty(), files, headers, request, file, pick).2 == Ok(AddMediaResponse(1))
  {
  }
}
