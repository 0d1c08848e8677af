/** `POST /waste`: pin an optional file, then a waste-record metadata object that points at the
    file through the public gateway, and answer with the metadata's canonical URI. */
module RepoRoute {
  import opened Wrappers
  import opened Text
  import opened Records
  import opened IpfsPattern
  import opened Pinning
  import opened HttpUpload
  import NodePath
  import BackendIpfs

  /** The commit route's list plus `.pdf`. */
  const AllowList: seq<string> := [".png", ".jpg", ".jpeg", ".svg", ".zip", ".gif", ".pdf"]

  /** `limits.fileSize`: 2 MB. */
  const SizeLimit: nat := 2 * 1024 * 1024

  /** The text fields the handler reads from `req.body`. */
  datatype WasteFields = WasteFields(
    ownerAddress: string, name: string, wasteType: string,
    quantity: string, location: string, description: string)

  predicate FileFilter(originalName: string)
    ensures FileFilter(originalName) ==> '.' in originalName
  {
    Allowed(AllowList, originalName)
  }

  /** The filter, for every name `stem + ext` whose `ext` is its extension: accepted exactly when
      the lower-cased extension is listed. */
  lemma FileFilterByExtension(stem: string, ext: string)
    requires stem != [] && ext != [] && ext[0] == '.'
    requires '.' !in ext[1..]
    requires '/' !in stem && '/' !in ext
    requires stem + ext != ".."
    ensures FileFilter(stem + ext) <==> ToLower(ext) in AllowList
  {
    AllowedByExtension(AllowList, stem, ext);
  }

  /** A name without an extension, or a dot file, is refused. */
  lemma FileFilterNeedsExtension(name: string, rest: string)
    requires '.' !in name
    requires '.' !in rest && '/' !in rest
    ensures !FileFilter(name)
    ensures !FileFilter("." + rest)
  {
    RefusedWithoutExtension(AllowList, name);
    RefusedDotFile(AllowList, rest);
  }

  /** Unlike the commit route, this one takes a pdf, in any case. */
  lemma FilterAcceptsPdf()
    ensures FileFilter("report.PDF")
  {
    var stem, ext := "report", ".PDF";
    assert ext[1..] == "PDF";
    assert stem + ext == "report.PDF";
    assert ToLower(ext) == ".pdf";
    FileFilterByExtension(stem, ext);
  }

  /** An executable is still refused. */
  lemma FilterRejectsExecutable()
    ensures !FileFilter("setup.exe")
  {
    var stem, ext := "setup", ".exe";
    assert ext[1..] == "exe";
    assert stem + ext == "setup.exe";
    assert ToLower(ext) == ".exe";
    assert forall a | a in AllowList :: a[1] != 'e';
    FileFilterByExtension(stem, ext);
  }

  /** The HTTP form of the pinned file: its canonical URI with the scheme replaced by the
      public gateway, or `""` without a file. */
  function FileHttpUri(fileIpfsUri: string): (u: string)
    ensures fileIpfsUri == "" ==> u == ""
    ensures StartsWith(fileIpfsUri, Scheme) ==>
      u == BackendIpfs.PublicGateway + fileIpfsUri[|Scheme|..]
  {
    if StartsWith(fileIpfsUri, Scheme) then
      ReplaceFirstAtStart(Scheme, fileIpfsUri[|Scheme|..], BackendIpfs.PublicGateway);
      assert Scheme + fileIpfsUri[|Scheme|..] == fileIpfsUri;
      ReplaceFirst(fileIpfsUri, Scheme, BackendIpfs.PublicGateway)
    else
      ReplaceFirst(fileIpfsUri, Scheme, BackendIpfs.PublicGateway)
  }

  /** The record pinned for a waste entry: name, description, the file's HTTP URI as `image`,
      and exactly the attributes Owner, Waste Type, Quantity, Location, Created At. */
  function WasteMetadata(fields: WasteFields, image: string, createdAt: string): (r: Record)
    ensures r.name == Some(fields.name) && r.description == Some(fields.description)
    ensures r.image == Some(image) && r.message.None?
    ensures r.attributes == Some([Attribute("Owner", fields.ownerAddress),
                                  Attribute("Waste Type", fields.wasteType),
                                  Attribute("Quantity", fields.quantity),
                                  Attribute("Location", fields.location),
                                  Attribute("Created At", createdAt)])
  {
    Record(Some(fields.name), Some(fields.description), None, Some(image), Some([
      Attribute("Owner", fields.ownerAddress),
      Attribute("Waste Type", fields.wasteType),
      Attribute("Quantity", fields.quantity),
      Attribute("Location", fields.location),
      Attribute("Created At", createdAt)]))
  }

  function HandleResponse(fields: WasteFields, file: Option<StoredFile>, createdAt: string, env: Backend): (r: Response)
    ensures r.status == 200 <==> r.body.WasteUploaded?
    ensures r.status != 200 ==> r.status == 500 && r.body.Failed?
    ensures r.status == 200 ==> FileStage(file, env).Ok? && StartsWith(r.body.metadataUri, Scheme)
    ensures r.status == 200 <==>
      FileStage(file, env).Ok? &&
      Wrap(env.pinJson(WasteMetadata(fields, FileHttpUri(FileStage(file, env).value), createdAt))).Ok?
    ensures r.status == 200 ==>
      r == Response(200, WasteUploaded(
             Wrap(env.pinJson(WasteMetadata(fields, FileHttpUri(FileStage(file, env).value), createdAt))).value))
    ensures FileStage(file, env).Err? ==> r == Response(500, Failed(FileStage(file, env).error))
    ensures (FileStage(file, env).Ok? &&
             Wrap(env.pinJson(WasteMetadata(fields, FileHttpUri(FileStage(file, env).value), createdAt))).Err?) ==>
      r == Response(500, Failed(
             Wrap(env.pinJson(WasteMetadata(fields, FileHttpUri(FileStage(file, env).value), createdAt))).error))
  {
    match FileStage(file, env)
    case Err(e) => Response(500, Failed(e))
    case Ok(fileIpfsUri) =>
      match Wrap(env.pinJson(WasteMetadata(fields, FileHttpUri(fileIpfsUri), createdAt)))
      case Err(e) => Response(500, Failed(e))
      case Ok(metadataUri) => Response(200, WasteUploaded(metadataUri))
  }

  function HandleCalls(fields: WasteFields, file: Option<StoredFile>, createdAt: string, env: Backend): (calls: seq<Call>)
    ensures |calls| <= 3
    ensures FileStage(file, env).Ok? ==>
      |calls| > 0 && calls[|calls| - 1] == PinJsonCall(WasteMetadata(fields, FileHttpUri(FileStage(file, env).value), createdAt))
  {
    FileStageCalls(file, env) +
      match FileStage(file, env)
      case Err(_) => []
      case Ok(fileIpfsUri) => [PinJsonCall(WasteMetadata(fields, FileHttpUri(fileIpfsUri), createdAt))]
  }

  /** The route handler, run after multer. */
  method Handle(fields: WasteFields, file: Option<StoredFile>, createdAt: string, env: Backend)
    returns (resp: Response, calls: seq<Call>)
    ensures resp == HandleResponse(fields, file, createdAt, env)
    ensures calls == HandleCalls(fields, file, createdAt, env)
  {
    var stage;
    stage, calls := PinUploadedFile(file, env);
    if stage.Err? {
      resp := Response(500, Failed(stage.error));
      return;
    }
    var fileIpfsUri := stage.value;
    var fileHttpUri := "";
    if file.Some? {
      fileHttpUri := ReplaceFirst(fileIpfsUri, Scheme, BackendIpfs.PublicGateway);
    }
    var metadata := WasteMetadata(fields, fileHttpUri, createdAt);
    var uploaded := BackendIpfs.UploadMetadata(metadata, env.pinJson);
    calls := calls + [PinJsonCall(metadata)];
    if uploaded.Err? {
      resp := Response(500, Failed(uploaded.error));
      return;
    }
    resp := Response(200, WasteUploaded(uploaded.value));
  }

  /** The whole request: multer's admission, then the handler. */
  method Post(fields: WasteFields, upload: Option<IncomingFile>, tempPath: string, createdAt: string, env: Backend)
    returns (resp: Response, calls: seq<Call>)
    ensures Admit(AllowList, SizeLimit, upload, tempPath).TooLarge? ==> resp == TooLargeResponse && calls == []
    ensures Admit(AllowList, SizeLimit, upload, tempPath).NoFile? ==>
      resp == HandleResponse(fields, None, createdAt, env) && calls == HandleCalls(fields, None, createdAt, env)
    ensures Admit(AllowList, SizeLimit, upload, tempPath).Stored? ==>
      var file := Admit(AllowList, SizeLimit, upload, tempPath).file;
      resp == HandleResponse(fields, Some(file), createdAt, env) && calls == HandleCalls(fields, Some(file), createdAt, env)
  {
    match Admit(AllowList, SizeLimit, upload, tempPath) {
      case TooLarge =>
        resp, calls := TooLargeResponse, [];
      case NoFile =>
        resp, calls := Handle(fields, None, createdAt, env);
      case Stored(file) =>
        resp, calls := Handle(fields, Some(file), createdAt, env);
    }
  }

  /** The answer is 200 with the canonical metadata URI, or 500 with the error's message. */
  lemma ResponseShape(fields: WasteFields, file: Option<StoredFile>, createdAt: string, env: Backend)
    ensures var r := HandleResponse(fields, file, createdAt, env);
      (r.status == 200 && r.body.WasteUploaded? && StartsWith(r.body.metadataUri, Scheme))
      || (r.status == 500 && r.body.Failed?)
  {
  }

  /** The waste record names the file by its public-gateway URL, not its canonical URI:
      pinned as `hash`, the file's image is `https://ipfs.io/ipfs/<hash>`. */
  lemma ImageIsGatewayUrl(fields: WasteFields, file: StoredFile, createdAt: string, env: Backend, text: string, hash: string)
    requires env.pinFile(BackendIpfs.FileForm(file.path, env.mimeType(file.path))) == PinAnswer(true, text, PinJson(Some(hash)))
    requires env.unlink(file.path).None?
    ensures HandleCalls(fields, Some(file), createdAt, env) ==
      [PinFileCall(BackendIpfs.FileForm(file.path, env.mimeType(file.path))), UnlinkCall(file.path),
       PinJsonCall(WasteMetadata(fields, BackendIpfs.PublicGateway + hash, createdAt))]
  {
    FileStagePinned(file, env, text, hash);
    assert (Scheme + hash)[|Scheme|..] == hash;
  }

  /** A sent but refused file (an executable) is dropped: the record is pinned without an image,
      and the request answers 200 with the record's URI when that pin succeeds. */
  lemma RefusedFileStillPinsMetadata(fields: WasteFields, size: nat, tempPath: string, createdAt: string, env: Backend)
    ensures Admit(AllowList, SizeLimit, Some(IncomingFile("setup.exe", size)), tempPath) == NoFile
    ensures HandleCalls(fields, None, createdAt, env) == [PinJsonCall(WasteMetadata(fields, "", createdAt))]
    ensures var reply := env.pinJson(WasteMetadata(fields, "", createdAt));
      reply.PinAnswer? && reply.ok && reply.body.PinJson? && reply.body.ipfsHash.Some? ==>
      HandleResponse(fields, None, createdAt, env) == Response(200, WasteUploaded(Scheme + reply.body.ipfsHash.value))
  {
    FilterRejectsExecutable();
    var reply := env.pinJson(WasteMetadata(fields, "", createdAt));
    if reply.PinAnswer? && reply.ok && reply.body.PinJson? && reply.body.ipfsHash.Some? {
      WrapHash(reply.text, reply.body.ipfsHash.value);
    }
  }

  /** With a file pinned as `fileHash` and deleted, and the record naming it pinned as
      `metaHash`, the route answers 200 with `ipfs://metaHash` after three calls. */
  lemma PinnedFileAnswers200(fields: WasteFields, file: StoredFile, createdAt: string, env: Backend,
                             fileText: string, fileHash: string, metaText: string, metaHash: string)
    requires env.pinFile(BackendIpfs.FileForm(file.path, env.mimeType(file.path))) == PinAnswer(true, fileText, PinJson(Some(fileHash)))
    requires env.unlink(file.path).None?
    requires env.pinJson(WasteMetadata(fields, BackendIpfs.PublicGateway + fileHash, createdAt))
             == PinAnswer(true, metaText, PinJson(Some(metaHash)))
    ensures HandleResponse(fields, Some(file), createdAt, env) == Response(200, WasteUploaded(Scheme + metaHash))
    ensures |HandleCalls(fields, Some(file), createdAt, env)| == 3
  {
    ImageIsGatewayUrl(fields, file, createdAt, env, fileText, fileHash);
    WrapHash(metaText, metaHash);
  }

  /** A pin that answers ok without an `IpfsHash` still gives 200, with `ipfs://undefined`. */
  lemma PinWithoutHashAnswersUndefined(fields: WasteFields, createdAt: string, env: Backend, text: string)
    requires env.pinJson(WasteMetadata(fields, "", createdAt)) == PinAnswer(true, text, PinJson(None))
    ensures HandleResponse(fields, None, createdAt, env) == Response(200, WasteUploaded("ipfs://undefined"))
  {
  }

  /** End to end: a small png with any fields, both pins answering with a hash, gives 200
      and the metadata's `ipfs://` URI, after exactly a file pin, an unlink and a record pin. */
  lemma SmallPngUpload(fields: WasteFields, env: Backend, tempPath: string, createdAt: string,
                       fileText: string, fileHash: string, metaText: string, metaHash: string)
    requires env.pinFile(BackendIpfs.FileForm(tempPath, env.mimeType(tempPath))) == PinAnswer(true, fileText, PinJson(Some(fileHash)))
    requires env.unlink(tempPath).None?
    requires env.pinJson(WasteMetadata(fields, BackendIpfs.PublicGateway + fileHash, createdAt))
             == PinAnswer(true, metaText, PinJson(Some(metaHash)))
    ensures Admit(AllowList, SizeLimit, Some(IncomingFile("laptop.png", 1024)), tempPath)
            == Stored(StoredFile("laptop.png", tempPath))
    ensures HandleResponse(fields, Some(StoredFile("laptop.png", tempPath)), createdAt, env)
            == Response(200, WasteUploaded(Scheme + metaHash))
    ensures |HandleCalls(fields, Some(StoredFile("laptop.png", tempPath)), createdAt, env)| == 3
  {
    var stem, ext := "laptop", ".png";
    assert ext[1..] == "png";
    assert stem + ext == "laptop.png";
    assert ToLower(ext) == ".png";
    FileFilterByExtension(stem, ext);
    PinnedFileAnswers200(fields, StoredFile("laptop.png", tempPath), createdAt, env, fileText, fileHash, metaText, metaHash);
  }
}
