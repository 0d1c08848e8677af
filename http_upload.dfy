/** What both upload routes share: multer's admission of the one optional file (extension
    allow-list and size limit), the services a handler calls, the record of those calls, the
    response shapes, and the first step of each handler (pin the stored file, then delete it). */
module HttpUpload {
  import opened Wrappers
  import opened Text
  import opened Records
  import opened NodePath
  import opened Pinning
  import BackendIpfs

  /** The `file` part of a multipart request, before multer stores it. */
  datatype IncomingFile = IncomingFile(originalName: string, size: nat)

  /** `req.file` once multer has stored the upload at a temporary path. */
  datatype StoredFile = StoredFile(originalName: string, path: string)

  /** multer's file filter: the original name's extension, lower-cased, is on the list. */
  predicate Allowed(allowList: seq<string>, originalName: string)
    ensures Allowed(allowList, originalName) && "" !in allowList ==> '.' in originalName
  {
    ToLower(Extname(originalName)) in allowList
  }

  /** A name `stem + ext`, with `ext` a `.` and no other `.`, passes exactly when its lower-cased
      `ext` is listed: the test ignores the stem and the extension's letter case. */
  lemma AllowedByExtension(allowList: seq<string>, stem: string, ext: string)
    requires stem != [] && ext != [] && ext[0] == '.'
    requires '.' !in ext[1..]
    requires '/' !in stem && '/' !in ext
    requires stem + ext != ".."
    ensures Allowed(allowList, stem + ext) <==> ToLower(ext) in allowList
  {
    ExtnameOfName(stem, ext);
  }

  /** A list without `""` refuses every name that has no `.`. */
  lemma RefusedWithoutExtension(allowList: seq<string>, name: string)
    requires "" !in allowList
    requires '.' !in name
    ensures !Allowed(allowList, name)
  {
    ExtnameWithoutDot(name);
    assert ToLower("") == "";
  }

  /** A list without `""` refuses a dot file such as `.png`, whose extension is empty. */
  lemma RefusedDotFile(allowList: seq<string>, rest: string)
    requires "" !in allowList
    requires '.' !in rest && '/' !in rest
    ensures !Allowed(allowList, "." + rest)
  {
    ExtnameOfDotFile(rest);
    assert ToLower("") == "";
  }

  /** What multer hands on: no file (none sent, or one the filter refused, which is dropped
      without an error), the stored file, or a `File too large` failure before the handler. */
  datatype Admission = NoFile | Stored(file: StoredFile) | TooLarge

  function Admit(allowList: seq<string>, limit: nat, upload: Option<IncomingFile>, tempPath: string): (a: Admission)
    ensures a.Stored? <==> upload.Some? && Allowed(allowList, upload.value.originalName) && upload.value.size <= limit
    ensures a.TooLarge? <==> upload.Some? && Allowed(allowList, upload.value.originalName) && upload.value.size > limit
    ensures a.Stored? ==> a.file == StoredFile(upload.value.originalName, tempPath)
  {
    match upload
    case None => NoFile
    case Some(f) =>
      if !Allowed(allowList, f.originalName) then NoFile
      else if f.size > limit then TooLarge
      else Stored(StoredFile(f.originalName, tempPath))
  }

  /** The outside world a handler talks to: `mime.getType`, the two Pinata endpoints and
      `fs.unlink` (which gives an error message when it fails). */
  datatype Backend = Backend(
    mimeType: string -> Option<string>,
    pinFile: seq<FormPart> -> PinReply,
    pinJson: Record -> PinReply,
    unlink: string -> Option<string>)

  /** One outside call a handler makes, in the order it makes them. */
  datatype Call = PinFileCall(form: seq<FormPart>) | UnlinkCall(path: string) | PinJsonCall(metadata: Record)

  datatype ResponseBody =
    | CommitUploaded(fileIpfsUri: string, metadataUri: string, metadataHttpUri: string)
    | WasteUploaded(metadataUri: string)
    | Failed(error: string)              // { success: false, error: error.message }
    | MulterFailure(message: string)     // multer's error, answered by Express's default handler

  datatype Response = Response(status: nat, body: ResponseBody)

  const TooLargeResponse: Response := Response(500, MulterFailure("File too large"))

  /** The canonical URI of the stored file (`""` without one), or the error that ends the
      handler: the file pin's, or `fs.unlink`'s. */
  function FileStage(file: Option<StoredFile>, env: Backend): (r: Result<string>)
    ensures file.None? ==> r == Ok("")
    ensures file.Some? && r.Ok? ==> StartsWith(r.value, IpfsPattern.Scheme)
    ensures file.Some? ==>
      var w := Wrap(env.pinFile(BackendIpfs.FileForm(file.value.path, env.mimeType(file.value.path))));
      (w.Err? ==> r == w) &&
      (w.Ok? && env.unlink(file.value.path).Some? ==> r == Err(env.unlink(file.value.path).value)) &&
      (w.Ok? && env.unlink(file.value.path).None? ==> r == w)
  {
    match file
    case None => Ok("")
    case Some(f) =>
      match Wrap(env.pinFile(BackendIpfs.FileForm(f.path, env.mimeType(f.path))))
      case Err(e) => Err(e)
      case Ok(uri) =>
        match env.unlink(f.path)
        case Some(e) => Err(e)
        case None => Ok(uri)
  }

  /** The calls the file step makes: none without a file; the pin, then the unlink if the pin
      succeeded. */
  function FileStageCalls(file: Option<StoredFile>, env: Backend): (calls: seq<Call>)
    ensures file.None? ==> calls == []
    ensures |calls| <= 2
    ensures file.Some? ==> |calls| > 0 && calls[0] == PinFileCall(BackendIpfs.FileForm(file.value.path, env.mimeType(file.value.path)))
    ensures file.Some? ==>
      var w := Wrap(env.pinFile(BackendIpfs.FileForm(file.value.path, env.mimeType(file.value.path))));
      (|calls| == 2 <==> w.Ok?) && (|calls| == 2 ==> calls[1] == UnlinkCall(file.value.path))
  {
    match file
    case None => []
    case Some(f) =>
      var form := BackendIpfs.FileForm(f.path, env.mimeType(f.path));
      [PinFileCall(form)] + (if Wrap(env.pinFile(form)).Ok? then [UnlinkCall(f.path)] else [])
  }

  /** A file pinned as `hash` and then deleted gives the URI `ipfs://hash`, after exactly the pin
      call and the unlink call. */
  lemma FileStagePinned(file: StoredFile, env: Backend, text: string, hash: string)
    requires env.pinFile(BackendIpfs.FileForm(file.path, env.mimeType(file.path))) == PinAnswer(true, text, PinJson(Some(hash)))
    requires env.unlink(file.path).None?
    ensures FileStage(Some(file), env) == Ok(IpfsPattern.Scheme + hash)
    ensures FileStageCalls(Some(file), env) ==
      [PinFileCall(BackendIpfs.FileForm(file.path, env.mimeType(file.path))), UnlinkCall(file.path)]
  {
    WrapHash(text, hash);
  }

  /** With a file: pin it, then delete the temporary copy; stop at the first failure. */
  method PinUploadedFile(file: Option<StoredFile>, env: Backend) returns (r: Result<string>, calls: seq<Call>)
    ensures r == FileStage(file, env)
    ensures calls == FileStageCalls(file, env)
  {
    calls := [];
    var fileIpfsUri := "";
    if file.Some? {
      var path := file.value.path;
      var pinned, form := BackendIpfs.UploadFile(path, env.mimeType(path), env.pinFile);
      calls := calls + [PinFileCall(form)];
      if pinned.Err? {
        r := Err(pinned.error);
        return;
      }
      fileIpfsUri := pinned.value;
      var unlinkError := env.unlink(path);
      calls := calls + [UnlinkCall(path)];
      if unlinkError.Some? {
        r := Err(unlinkError.value);
        return;
      }
    }
    r := Ok(fileIpfsUri);
  }
}
