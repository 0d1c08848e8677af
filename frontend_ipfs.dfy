/** The frontend's `utils/ipfs.js`: pinning a file read from disk and a metadata value, with the
    metadata's type check. `gatewayUrl` there is the same expression as the backend's
    (`Pinning.GatewayUrl`). */
module FrontendIpfs {
  import opened Wrappers
  import opened Text
  import opened Records
  import opened IpfsPattern
  import opened NodePath
  import opened Pinning

  /** A JavaScript value as `uploadMetadataToIPFS` may receive it. */
  datatype JsValue =
    | JsUndefined
    | JsNull
    | JsBool(b: bool)
    | JsNumber(n: int)
    | JsString(s: string)
    | JsArray(items: seq<JsValue>)
    | JsObject(record: Record)

  /** JavaScript truthiness (`!v` is false). */
  predicate Truthy(v: JsValue) {
    match v
    case JsUndefined => false
    case JsNull => false
    case JsBool(b) => b
    case JsNumber(n) => n != 0
    case JsString(s) => s != []
    case _ => true
  }

  /** `typeof v`. */
  function TypeOf(v: JsValue): string {
    match v
    case JsUndefined => "undefined"
    case JsNull => "object"
    case JsBool(_) => "boolean"
    case JsNumber(_) => "number"
    case JsString(_) => "string"
    case JsArray(_) => "object"
    case JsObject(_) => "object"
  }

  /** The guard that refuses falsy and non-object metadata lets through exactly objects and
      arrays (`null` is an object to `typeof` but is falsy). */
  lemma GuardAdmitsObjectsOnly(v: JsValue)
    ensures (Truthy(v) && TypeOf(v) == "object") <==> v.JsArray? || v.JsObject?
  {
  }

  const NotAnObject: string := "Metadata must be an object"

  /** `uploadMetadataToIPFS`: reject a falsy or non-object value before any request; else post
      it to `pinJSONToIPFS` and return the canonical URI of the pinned hash, or rethrow. */
  method UploadMetadata(metadata: JsValue, pinJson: JsValue -> PinReply)
    returns (r: Result<string>, posted: Option<JsValue>)
    ensures !(metadata.JsArray? || metadata.JsObject?) ==> r == Err("Metadata must be an object") && posted == None
    ensures metadata.JsArray? || metadata.JsObject? ==> posted == Some(metadata) && r == Wrap(pinJson(metadata))
    ensures r.Ok? ==> StartsWith(r.value, Scheme)
  {
    GuardAdmitsObjectsOnly(metadata);
    if !Truthy(metadata) || TypeOf(metadata) != "object" {
      r := Err(NotAnObject);
      posted := None;
      return;
    }
    posted := Some(metadata);
    var reply := pinJson(metadata);
    r := Wrap(reply);
  }

  /** `uploadFileTOIPFS`: read the file (a read error is rethrown before any request), post it as
      the one `file` field of a form, and return the canonical URI of the pinned hash or rethrow. */
  method UploadFile(filePath: string, content: Result<seq<bv8>>, mimeType: Option<string>,
                    pinFile: seq<FormPart> -> PinReply)
    returns (r: Result<string>, posted: Option<seq<FormPart>>)
    ensures content.Err? ==> r == Err(content.error) && posted == None
    ensures content.Ok? ==>
      posted == Some([FormPart("file", FileBlob(content.value, Basename(filePath),
                                                 mimeType.GetOr("application/octet-stream")))])
    ensures content.Ok? ==> r == Wrap(pinFile(posted.value))
    ensures r.Ok? ==> StartsWith(r.value, Scheme)
  {
    if content.Err? {
      r := Err(content.error);
      posted := None;
      return;
    }
    var fileName := Basename(filePath);
    var fileType := mimeType.GetOr("application/octet-stream");
    var form := new FormData();
    form.Append("file", FileBlob(content.value, fileName, fileType));
    assert form.parts == [FormPart("file", FileBlob(content.value, fileName, fileType))];
    posted := Some(form.parts);
    var reply := pinFile(form.parts);
    r := Wrap(reply);
  }
}
