/** The backend's `utils/ipfs.js`: pinning a stored file and a metadata record, and the
    `ipfs://` to HTTP rewrite. */
module BackendIpfs {
  import opened Wrappers
  import opened Text
  import opened Records
  import opened IpfsPattern
  import opened NodePath
  import opened Pinning

  /** The public gateway the routes and `ipfsToHttp` rewrite canonical URIs to. */
  const PublicGateway: string := "https://ipfs.io/ipfs/"

  /** The form `uploadFileToIPFS(filePath)` posts, given what `mime.getType` says of the path. */
  function FileForm(filePath: string, mimeType: Option<string>): (parts: seq<FormPart>)
    ensures |parts| == 3 && parts[0].field == "file"
    ensures parts[0].value.FileStream? && parts[0].value.path == filePath
  {
    var fileName := Basename(filePath);
    [FormPart("file", FileStream(filePath, fileName, mimeType.GetOr("application/octet-stream"))),
     FormPart("pinataMetadata", PinataMetadata(fileName)),
     FormPart("pinataOptions", PinataOptions(1))]
  }

  /** The form-building half of `uploadFileToIPFS`: a fresh `FormData` with the file, its
      name and the CID-version option appended in that order. */
  method BuildFileForm(filePath: string, mimeType: Option<string>) returns (posted: seq<FormPart>)
    ensures posted == FileForm(filePath, mimeType)
  {
    var fileName := Basename(filePath);
    var fileType := mimeType.GetOr("application/octet-stream");
    var form := new FormData();
    var file := FormPart("file", FileStream(filePath, fileName, fileType));
    var name := FormPart("pinataMetadata", PinataMetadata(fileName));
    var options := FormPart("pinataOptions", PinataOptions(1));
    form.Append(file.field, file.value);
    form.Append(name.field, name.value);
    form.Append(options.field, options.value);
    posted := form.parts;
    assert posted == [file, name, options];
  }

  /** `uploadFileToIPFS`: post the form to `pinFileToIPFS`, and return the canonical URI of the
      pinned hash or rethrow. */
  method UploadFile(filePath: string, mimeType: Option<string>, pinFile: seq<FormPart> -> PinReply)
    returns (r: Result<string>, posted: seq<FormPart>)
    ensures posted == FileForm(filePath, mimeType)
    ensures r == Wrap(pinFile(posted))
    ensures r.Ok? ==> StartsWith(r.value, Scheme)
  {
    posted := BuildFileForm(filePath, mimeType);
    var reply := pinFile(posted);
    r := Wrap(reply);
  }

  /** `uploadMetadataToIPFS`: post the record to `pinJSONToIPFS` and return the canonical URI
      of the pinned hash, or rethrow. */
  method UploadMetadata(metadata: Record, pinJson: Record -> PinReply) returns (r: Result<string>)
    ensures r == Wrap(pinJson(metadata))
    ensures r.Ok? ==> StartsWith(r.value, Scheme)
    ensures pinJson(metadata).PinAnswer? && !pinJson(metadata).ok ==> r == Err(pinJson(metadata).text)
  {
    var reply := pinJson(metadata);
    r := Wrap(reply);
  }

  /** `ipfsToHttp(ipfsUri)`: `""` for an empty argument, else the first `ipfs://` replaced by the
      public gateway. */
  function IpfsToHttp(ipfsUri: string): (url: string)
    ensures ipfsUri == [] ==> url == []
    ensures StartsWith(ipfsUri, Scheme) ==> url == PublicGateway + ipfsUri[|Scheme|..]
    ensures !Contains(ipfsUri, Scheme) ==> url == ipfsUri
  {
    if ipfsUri == [] then "" else ReplaceFirst(ipfsUri, Scheme, PublicGateway)
  }

  /** A canonical URI becomes the public gateway URL of its content id; only the first
      `ipfs://` is replaced. */
  lemma IpfsToHttpCanonical(cid: string)
    ensures IpfsToHttp(Scheme + cid) == PublicGateway + cid
    ensures IpfsToHttp(Scheme + Scheme + cid) == PublicGateway + Scheme + cid
  {
    ReplaceFirstAtStart(Scheme, cid, PublicGateway);
    ReplaceFirstAtStart(Scheme, Scheme + cid, PublicGateway);
    assert Scheme + Scheme + cid == Scheme + (Scheme + cid);
  }

  /** A string without `ipfs://` is returned unchanged. */
  lemma IpfsToHttpNoScheme(s: string)
    requires forall j: nat :: !OccursAt(s, Scheme, j)
    ensures IpfsToHttp(s) == s
  {
    ReplaceFirstAbsent(s, Scheme, PublicGateway);
  }
}
