/**
 * The server half of `EasyS3Client` (index.ts): the upload policy checks, the
 * generated file name, the storage key and object URL, and the result handed back
 * to the browser. The AWS presigner and `crypto.randomUUID` are foreign calls; the
 * model takes the presigner as a function parameter and the random id as a plain
 * parameter. What `generateSignedURL` asks of its collaborators (one presign request,
 * one `signedURLCreated` call) is returned next to the result, so that callers can
 * state exactly which calls were made.
 */
module EasyS3 {
  import opened Wrappers
  import opened Strings

  /** Client-declared file metadata; `mimeType` is the source's `type` field. */
  datatype FileInfo = FileInfo(name: string, size: int, mimeType: string)

  /** The per-deployment policy; the `successCallbacks` member is modelled by the `created` trace of Issuance. */
  datatype UploadOptions = UploadOptions(
    expires: int,
    maxSize: int,
    types: seq<string>,
    bucket: string,
    metadata: map<string, string>,
    folder: string)

  /** The response to the browser; absent members are `undefined` in the source. */
  datatype S3Result = S3Result(
    success: bool,
    error: Option<string>,
    data: Option<string>,
    url: Option<string>,
    filename: Option<string>)

  /** The argument of the `signedURLCreated` callback. */
  datatype SignedURLOptions = SignedURLOptions(
    signedUrl: string,
    objectUrl: string,
    filename: string,
    folder: string,
    expiresIn: int,
    mimeType: string,
    size: int,
    originalName: string)

  /** The `PutObjectCommand` input that is handed to the presigner. */
  datatype PutObjectCommand = PutObjectCommand(
    bucket: string,
    key: string,
    contentType: string,
    contentLength: int,
    checksumSHA256: string,
    metadata: map<string, string>)

  /** One call `getSignedUrl(s3Client, command, { expiresIn })`. */
  datatype PresignRequest = PresignRequest(command: PutObjectCommand, expiresIn: int)

  /**
   * One run of `generateSignedURL`: the result it returns, the presign request it
   * made (if any) and the argument it passed to `signedURLCreated` (if it called it).
   */
  datatype Issuance = Issuance(
    result: S3Result,
    presigned: Option<PresignRequest>,
    created: Option<SignedURLOptions>)

  /** An `EasyS3Client`; the S3 SDK client it wraps is foreign, only its endpoint is read here. */
  datatype Client = Client(endpoint: string)

  /**
   * The form posted by the browser: the checksum and the `file` entry. The `file`
   * entry is JSON text in the source; `None` stands for text that `JSON.parse` rejects.
   */
  datatype UploadForm = UploadForm(checksum: string, file: Option<FileInfo>)

  const TooBigMessage := "The file is too big!"
  const WrongFormatMessage := "The format of the file is wrong!"
  const InvalidJsonMessage := "Invalid file JSON format"

  /** A failed result carrying only its error message. */
  function Failed(message: string): S3Result {
    S3Result(false, Some(message), None, None, None)
  }

  /** `fromFormData`: reads the checksum and file metadata, and throws on unparseable file JSON. */
  function FromFormData(form: UploadForm): (r: Outcome<(string, FileInfo)>)
    ensures r.Threw? <==> form.file.None?
    ensures r.Threw? ==> r.message == InvalidJsonMessage
    ensures r.Ok? ==> r.value.0 == form.checksum && r.value.1 == form.file.value
  {
    match form.file
    case None => Threw(InvalidJsonMessage)
    case Some(file) => Ok((form.checksum, file))
  }

  /**
   * The extension kept from the original name: a dot and the last dot-separated
   * piece when the name contains a dot, and nothing otherwise. Case is kept.
   * The result is the suffix of the name that starts at its last dot.
   */
  function Extension(name: string): (ext: string)
    ensures ext == "" <==> '.' !in name
    ensures ext != "" ==> ext[0] == '.' && '.' !in ext[1..] && EndsWith(name, ext)
  {
    var parts := Split(name, '.');
    var n := |parts|;
    SplitMany(name, '.');
    if n > 1 then
      assert name == Join(parts[..n - 1], '.') + ("." + parts[n - 1]);
      assert ("." + parts[n - 1])[1..] == parts[n - 1];
      "." + parts[n - 1]
    else ""
  }

  /** The object key in the bucket. */
  function StorageKey(folder: string, fileName: string): string {
    folder + "/" + fileName
  }

  /** The public URL handed back for the object: no separator is put between folder and file name. */
  function ObjectUrl(endpoint: string, bucket: string, folder: string, fileName: string): string {
    endpoint + "/" + bucket + "/" + folder + fileName
  }

  /**
   * `generateSignedURL`. The size check runs first and the type check second; each
   * returns before anything else is requested. On success exactly one presign request
   * and exactly one `signedURLCreated` call are made, and the result returns the same
   * signed URL, object URL and file name the callback was given.
   */
  function GenerateSignedURL(
    client: Client, file: FileInfo, checksum: string, options: UploadOptions,
    uuid: string, presign: PresignRequest -> string): (iss: Issuance)
    ensures iss.result.success <==> file.size <= options.maxSize && file.mimeType in options.types
    ensures file.size > options.maxSize ==> iss.result == Failed(TooBigMessage)
    ensures file.size <= options.maxSize && file.mimeType !in options.types ==>
      iss.result == Failed(WrongFormatMessage)
    ensures !iss.result.success ==> iss.presigned == None && iss.created == None
    ensures iss.result.success ==>
      && iss.presigned.Some? && iss.created.Some?
      && var req, ev := iss.presigned.value, iss.created.value;
      && ev.filename == uuid + Extension(file.name)
      && EndsWith(ev.filename, Extension(file.name))
      && req.command == PutObjectCommand(options.bucket, StorageKey(options.folder, ev.filename),
                                         file.mimeType, file.size, checksum, options.metadata)
      && req.expiresIn == options.expires
      && ev.signedUrl == presign(req)
      && ev.objectUrl == ObjectUrl(client.endpoint, options.bucket, options.folder, ev.filename)
      && ev.mimeType == file.mimeType && ev.size == file.size && ev.originalName == file.name
      && ev.expiresIn == options.expires && ev.folder == options.folder
      && iss.result == S3Result(true, None, Some(ev.signedUrl), Some(ev.objectUrl), Some(ev.filename))
  {
    if file.size > options.maxSize then
      Issuance(Failed(TooBigMessage), None, None)
    else if file.mimeType !in options.types then
      Issuance(Failed(WrongFormatMessage), None, None)
    else
      var extension := Extension(file.name);
      var fileName := uuid + extension;
      assert fileName[|fileName| - |extension|..] == extension;
      var command := PutObjectCommand(options.bucket, StorageKey(options.folder, fileName),
                                      file.mimeType, file.size, checksum, options.metadata);
      var request := PresignRequest(command, options.expires);
      var signedUrl := presign(request);
      var objectUrl := ObjectUrl(client.endpoint, options.bucket, options.folder, fileName);
      var event := SignedURLOptions(signedUrl, objectUrl, fileName, options.folder,
                                    options.expires, file.mimeType, file.size, file.name);
      Issuance(S3Result(true, None, Some(signedUrl), Some(objectUrl), Some(fileName)),
               Some(request), Some(event))
  }

  /** `handle`: parse the form, then issue; the JSON error propagates as a rejection. */
  function Handle(
    client: Client, form: UploadForm, options: UploadOptions,
    uuid: string, presign: PresignRequest -> string): (r: Outcome<Issuance>)
    ensures r.Threw? <==> form.file.None?
    ensures r.Threw? ==> r.message == InvalidJsonMessage
    ensures r.Ok? ==> r.value == GenerateSignedURL(client, form.file.value, form.checksum, options, uuid, presign)
  {
    match FromFormData(form)
    case Threw(m) => Threw(m)
    case Ok((checksum, file)) => Ok(GenerateSignedURL(client, file, checksum, options, uuid, presign))
  }

  /**
   * A random id without dots (what `randomUUID` produces: hex digits and hyphens)
   * followed by the extension has that same extension: the generated name keeps the
   * original extension, and a name without a dot yields a generated name without one.
   */
  lemma ExtensionPreserved(uuid: string, name: string)
    requires '.' !in uuid
    ensures Extension(uuid + Extension(name)) == Extension(name)
  {
    var ext := Extension(name);
    var s := uuid + ext;
    if ext == "" {
      assert s == uuid;
    } else {
      assert s[|uuid|] == '.';
      assert s[|s| - |ext|..] == ext;
      LastSeparatorSuffixUnique(s, Extension(s), ext, '.');
    }
  }

  /** The extension is the suffix that starts at the last dot of the name. */
  lemma ExtensionFromLastDot(name: string, i: nat)
    requires i < |name| && name[i] == '.' && '.' !in name[i + 1..]
    ensures Extension(name) == name[i..]
  {
    assert name[i..][1..] == name[i + 1..];
    LastSeparatorSuffixUnique(name, Extension(name), name[i..], '.');
  }

  /** With several dots the last piece wins. */
  lemma ExtensionLastPieceExample()
    ensures Extension("a.b.c") == ".c"
  {
    ExtensionFromLastDot("a.b.c", 3);
  }

  /** A trailing dot gives an extension that is the dot alone. */
  lemma ExtensionTrailingDotExample()
    ensures Extension("name.") == "."
  {
    ExtensionFromLastDot("name.", 4);
  }

  /** Case is kept. */
  lemma ExtensionKeepsCaseExample()
    ensures Extension("photo.PNG") == ".PNG"
  {
    ExtensionFromLastDot("photo.PNG", 5);
  }

  /**
   * The object URL never names the storage key under the bucket: the key puts a
   * slash between folder and file name and the URL does not, so the two paths differ
   * by exactly one character whatever the folder. Both end with the file name.
   */
  lemma ObjectUrlDiffersFromKey(endpoint: string, bucket: string, folder: string, fileName: string)
    ensures var prefix := endpoint + "/" + bucket + "/";
      && ObjectUrl(endpoint, bucket, folder, fileName) != prefix + StorageKey(folder, fileName)
      && |prefix + StorageKey(folder, fileName)| == |ObjectUrl(endpoint, bucket, folder, fileName)| + 1
    ensures EndsWith(ObjectUrl(endpoint, bucket, folder, fileName), fileName)
    ensures EndsWith(StorageKey(folder, fileName), "/" + fileName)
  {
    var url := ObjectUrl(endpoint, bucket, folder, fileName);
    var key := StorageKey(folder, fileName);
    assert url[|url| - |fileName|..] == fileName;
    assert key[|key| - |fileName| - 1..] == "/" + fileName;
  }
}
