/** `POST /commit`: pin an optional file, then a commit metadata record, and answer with the
    canonical and HTTP URIs. */
module CommitRoute {
  import opened Wrappers
  import opened Text
  import opened Records
  import opened IpfsPattern
  import opened Pinning
  import opened HttpUpload
  import NodePath
  import BackendIpfs

  const AllowList: seq<string> := [".png", ".jpg", ".jpeg", ".svg", ".zip", ".gif"]

  /** `limits.fileSize`: 5 MB. */
  const SizeLimit: nat := 5 * 1024 * 1024

  /** The text fields the handler reads from `req.body`. */
  datatype CommitFields = CommitFields(ownerAddress: string, contributor: string, message: string)

  /** `fileFilter` of this route. */
  predicate FileFilter(originalName: string)
    ensures FileFilter(originalName) ==> '.' in originalName
  {
    Allowed(AllowList, originalName)
  }

  /** The filter, for every name `stem + ext` whose `ext` is its extension: accepted exactly when
      the lower-cased extension is listed. */
  lemma FileFilterByExtension(stem: string, ext: string)
    requires stem != [] && ext != [] && ext[0] == '.'
    requires '.' !in ext[1..]
    requires '/' !in stem && '/' !in ext
    requires stem + ext != ".."
    ensures FileFilter(stem + ext) <==> ToLower(ext) in AllowList
  {
    AllowedByExtension(AllowList, stem, ext);
  }

  /** A name without an extension, or a dot file, is refused. */
  lemma FileFilterNeedsExtension(name: string, rest: string)
    requires '.' !in name
    requires '.' !in rest && '/' !in rest
    ensures !FileFilter(name)
    ensures !FileFilter("." + rest)
  {
    RefusedWithoutExtension(AllowList, name);
    RefusedDotFile(AllowList, rest);
  }

  /** The filter compares the lower-cased extension, so an upper-case image name passes. */
  lemma FilterAcceptsUpperCase()
    ensures FileFilter("X.PNG")
  {
    var stem, ext := "X", ".PNG";
    assert ext[1..] == "PNG";
    assert stem + ext == "X.PNG";
    assert ToLower(ext) == ".png";
    FileFilterByExtension(stem, ext);
  }

  /** A pdf, which the repository route takes, is refused here. */
  lemma FilterRejectsPdf()
    ensures !FileFilter("report.pdf")
  {
    var stem, ext := "report", ".pdf";
    assert ext[1..] == "pdf";
    assert stem + ext == "report.pdf";
    assert ToLower(ext) == ".pdf";
    assert forall a | a in AllowList :: a[2] != 'd';
    FileFilterByExtension(stem, ext);
  }

  /** The record pinned for a commit: its message, the file's URI as `image`, and exactly the
      attributes Created By, Contributor, Created At, in that order. */
  function CommitMetadata(fields: CommitFields, image: string, createdAt: string): (r: Record)
    ensures r.message == Some(fields.message) && r.image == Some(image)
    ensures r.name.None? && r.description.None?
    ensures r.attributes == Some([Attribute("Created By", fields.ownerAddress),
                                  Attribute("Contributor", fields.contributor),
                                  Attribute("Created At", createdAt)])
  {
    Record(None, None, Some(fields.message), Some(image), Some([
      Attribute("Created By", fields.ownerAddress),
      Attribute("Contributor", fields.contributor),
      Attribute("Created At", createdAt)]))
  }

  /** The handler's answer: 200 with the file URI, the metadata URI and the metadata URI on the
      public gateway exactly when the file stage and the metadata pin both succeed, and otherwise
      500 with the message of the first step that failed. */
  function HandleResponse(fields: CommitFields, file: Option<StoredFile>, createdAt: string, env: Backend): (r: Response)
    ensures r.status == 200 <==> r.body.CommitUploaded?
    ensures r.status != 200 ==> r.status == 500 && r.body.Failed?
    ensures r.status == 200 <==>
      FileStage(file, env).Ok? && Wrap(env.pinJson(CommitMetadata(fields, FileStage(file, env).value, createdAt))).Ok?
    ensures r.status == 200 ==>
      var m := Wrap(env.pinJson(CommitMetadata(fields, FileStage(file, env).value, createdAt))).value;
      r == Response(200, CommitUploaded(FileStage(file, env).value, m, BackendIpfs.PublicGateway + m[|Scheme|..]))
    ensures FileStage(file, env).Err? ==> r == Response(500, Failed(FileStage(file, env).error))
    ensures FileStage(file, env).Ok? && Wrap(env.pinJson(CommitMetadata(fields, FileStage(file, env).value, createdAt))).Err? ==>
      r == Response(500, Failed(Wrap(env.pinJson(CommitMetadata(fields, FileStage(file, env).value, createdAt))).error))
  {
    match FileStage(file, env)
    case Err(e) => Response(500, Failed(e))
    case Ok(fileIpfsUri) =>
      match Wrap(env.pinJson(CommitMetadata(fields, fileIpfsUri, createdAt)))
      case Err(e) => Response(500, Failed(e))
      case Ok(metadataUri) =>
        ReplaceFirstAtStart(Scheme, metadataUri[|Scheme|..], BackendIpfs.PublicGateway);
        assert Scheme + metadataUri[|Scheme|..] == metadataUri;
        Response(200, CommitUploaded(fileIpfsUri, metadataUri,
                                     ReplaceFirst(metadataUri, Scheme, BackendIpfs.PublicGateway)))
  }

  /** The outside calls the handler makes, in order. */
  function HandleCalls(fields: CommitFields, file: Option<StoredFile>, createdAt: string, env: Backend): (calls: seq<Call>)
    ensures |calls| <= 3
    ensures FileStage(file, env).Ok? ==>
      |calls| > 0 && calls[|calls| - 1] == PinJsonCall(CommitMetadata(fields, FileStage(file, env).value, createdAt))
  {
    FileStageCalls(file, env) +
      match FileStage(file, env)
      case Err(_) => []
      case Ok(fileIpfsUri) => [PinJsonCall(CommitMetadata(fields, fileIpfsUri, createdAt))]
  }

  /** The route handler, run after multer: pin the file if there is one and delete it, build and
      pin the metadata, answer with the URIs; any throw answers 500 with its message. */
  method Handle(fields: CommitFields, file: Option<StoredFile>, createdAt: string, env: Backend)
    returns (resp: Response, calls: seq<Call>)
    ensures resp == HandleResponse(fields, file, createdAt, env)
    ensures calls == HandleCalls(fields, file, createdAt, env)
  {
    var fileIpfsUri := "";
    var stage;
    stage, calls := PinUploadedFile(file, env);
    if stage.Err? {
      resp := Response(500, Failed(stage.error));
      return;
    }
    fileIpfsUri := stage.value;
    var metadata := CommitMetadata(fields, fileIpfsUri, createdAt);
    var uploaded := BackendIpfs.UploadMetadata(metadata, env.pinJson);
    calls := calls + [PinJsonCall(metadata)];
    if uploaded.Err? {
      resp := Response(500, Failed(uploaded.error));
      return;
    }
    var metadataUri := uploaded.value;
    var metadataHttpUri := ReplaceFirst(metadataUri, Scheme, BackendIpfs.PublicGateway);
    resp := Response(200, CommitUploaded(fileIpfsUri, metadataUri, metadataHttpUri));
  }

  /** The whole request: multer's admission, then the handler. */
  method Post(fields: CommitFields, upload: Option<IncomingFile>, tempPath: string, createdAt: string, env: Backend)
    returns (resp: Response, calls: seq<Call>)
    ensures Admit(AllowList, SizeLimit, upload, tempPath).TooLarge? ==> resp == TooLargeResponse && calls == []
    ensures Admit(AllowList, SizeLimit, upload, tempPath).NoFile? ==>
      resp == HandleResponse(fields, None, createdAt, env) && calls == HandleCalls(fields, None, createdAt, env)
    ensures Admit(AllowList, SizeLimit, upload, tempPath).Stored? ==>
      var file := Admit(AllowList, SizeLimit, upload, tempPath).file;
      resp == HandleResponse(fields, Some(file), createdAt, env) && calls == HandleCalls(fields, Some(file), createdAt, env)
  {
    match Admit(AllowList, SizeLimit, upload, tempPath) {
      case TooLarge =>
        resp, calls := TooLargeResponse, [];
      case NoFile =>
        resp, calls := Handle(fields, None, createdAt, env);
      case Stored(file) =>
        resp, calls := Handle(fields, Some(file), createdAt, env);
    }
  }

  /** Without a file nothing but the metadata is pinned, and its image is `""`; a file the filter
      refuses is treated as no file. */
  lemma NoFileMeansNoFilePin(fields: CommitFields, createdAt: string, env: Backend)
    ensures HandleCalls(fields, None, createdAt, env) == [PinJsonCall(CommitMetadata(fields, "", createdAt))]
    ensures CommitMetadata(fields, "", createdAt).image == Some("")
  {
  }

  /** With a pinned file the metadata's image is the file's canonical `ipfs://` URI. */
  lemma FileImageIsCanonical(fields: CommitFields, file: StoredFile, createdAt: string, env: Backend, text: string, hash: string)
    requires env.pinFile(BackendIpfs.FileForm(file.path, env.mimeType(file.path))) == PinAnswer(true, text, PinJson(Some(hash)))
    requires env.unlink(file.path).None?
    ensures HandleCalls(fields, Some(file), createdAt, env) ==
      [PinFileCall(BackendIpfs.FileForm(file.path, env.mimeType(file.path))), UnlinkCall(file.path),
       PinJsonCall(CommitMetadata(fields, Scheme + hash, createdAt))]
  {
    FileStagePinned(file, env, text, hash);
  }

  /** Only two answers are possible: 200 with the three URIs, the HTTP one being the metadata
      URI on the public gateway, or 500 with the error's message. */
  lemma ResponseShape(fields: CommitFields, file: Option<StoredFile>, createdAt: string, env: Backend)
    ensures var r := HandleResponse(fields, file, createdAt, env);
      (r.status == 200 && r.body.CommitUploaded? &&
       StartsWith(r.body.metadataUri, Scheme) &&
       r.body.metadataHttpUri == BackendIpfs.PublicGateway + r.body.metadataUri[|Scheme|..] &&
       (file.Some? ==> StartsWith(r.body.fileIpfsUri, Scheme)) &&
       (file.None? ==> r.body.fileIpfsUri == ""))
      || (r.status == 500 && r.body.Failed?)
  {
    var r := HandleResponse(fields, file, createdAt, env);
    if r.status == 200 {
      var u := r.body.metadataUri;
      assert u == Scheme + u[|Scheme|..];
      ReplaceFirstAtStart(Scheme, u[|Scheme|..], BackendIpfs.PublicGateway);
    }
  }

  /** A pin that answers non-ok makes the route answer 500 carrying the pin's body text. */
  lemma PinFailureIsReported(fields: CommitFields, createdAt: string, env: Backend, text: string, body: PinBody)
    requires env.pinJson(CommitMetadata(fields, "", createdAt)) == PinAnswer(false, text, body)
    ensures HandleResponse(fields, None, createdAt, env) == Response(500, Failed(text))
  {
  }
}
