/** What the backend and frontend `utils/ipfs.js` share: the Pinata endpoints, the multipart
    form a file pin posts, the shape of a pin reply and how it becomes a canonical URI or an
    error, and `gatewayUrl`. */
module Pinning {
  import opened Wrappers
  import opened Text
  import opened IpfsPattern

  const PinataApi: string := "https://api.pinata.cloud/pinning"

  const PinataGateway: string := "https://gateway.pinata.cloud/ipfs/"

  /** `gatewayUrl(cidOrUri)`: the Pinata gateway followed by the argument with one leading
      `ipfs://` removed (`replace(/^ipfs:\/\//, "")`). */
  function GatewayUrl(cidOrUri: string): (url: string)
    ensures StartsWith(url, PinataGateway)
    ensures StartsWith(cidOrUri, Scheme) ==> url == PinataGateway + cidOrUri[|Scheme|..]
    ensures !StartsWith(cidOrUri, Scheme) ==> url == PinataGateway + cidOrUri
  {
    PinataGateway + StripPrefix(cidOrUri, Scheme)
  }

  /** The canonical and the bare form of a content id give the same gateway URL. */
  lemma GatewayUrlCanonicalOrBare(cid: string)
    requires !StartsWith(cid, Scheme)
    ensures GatewayUrl(Scheme + cid) == GatewayUrl(cid) == PinataGateway + cid
  {
    assert (Scheme + cid)[..|Scheme|] == Scheme;
    assert (Scheme + cid)[|Scheme|..] == cid;
  }

  /** The strip is anchored and happens once: an `ipfs://` that does not open the string, or a
      second one after the first, is left in place. */
  lemma GatewayUrlStripsOnlyLeading(s: string)
    requires !StartsWith(s, Scheme)
    ensures GatewayUrl(s) == PinataGateway + s
    ensures GatewayUrl(Scheme + s) == PinataGateway + s
    ensures GatewayUrl(Scheme + Scheme + s) == PinataGateway + Scheme + s
  {
    GatewayUrlCanonicalOrBare(s);
    var t := Scheme + s;
    assert (Scheme + t)[..|Scheme|] == Scheme;
    assert (Scheme + t)[|Scheme|..] == t;
    assert Scheme + Scheme + s == Scheme + t;
  }

  /* ---------------- Requests ---------------- */

  /** The value of one multipart form field. */
  datatype PartValue =
    | FileStream(path: string, filename: string, contentType: string)     // fs.createReadStream(path)
    | FileBlob(content: seq<bv8>, filename: string, contentType: string) // new File([content], …)
    | PinataMetadata(name: string)                                        // JSON.stringify({ name })
    | PinataOptions(cidVersion: nat)                                      // JSON.stringify({ cidVersion })

  datatype FormPart = FormPart(field: string, value: PartValue)

  /** A `FormData` under construction: `append` adds a field at the end. */
  class FormData {
    var parts: seq<FormPart>

    constructor ()
      ensures parts == []
    {
      parts := [];
    }

    method Append(field: string, value: PartValue)
      modifies this
      ensures parts == old(parts) + [FormPart(field, value)]
    {
      parts := parts + [FormPart(field, value)];
    }
  }

  /* ---------------- Replies ---------------- */

  /** What `res.json()` gives on a pin reply: the `IpfsHash` field (absent reads `undefined`),
      or a parse error. */
  datatype PinBody = PinJson(ipfsHash: Option<string>) | PinUnparsable(message: string)

  /** One call to a pinning endpoint: `fetch` throws, or answers with a status, the body text
      and the body as JSON. */
  datatype PinReply = PinThrown(message: string) | PinAnswer(ok: bool, text: string, body: PinBody)

  /** A non-ok reply fails with its body text; an ok one gives `ipfs://` followed by the reply's
      `IpfsHash`, read as text even when it is absent. */
  function Wrap(reply: PinReply): (r: Result<string>)
    ensures reply.PinAnswer? && !reply.ok ==> r == Err(reply.text)
    ensures reply.PinThrown? ==> r == Err(reply.message)
    ensures reply.PinAnswer? && reply.ok && reply.body.PinUnparsable? ==> r == Err(reply.body.message)
    ensures r.Ok? <==> reply.PinAnswer? && reply.ok && reply.body.PinJson?
    ensures r.Ok? ==> StartsWith(r.value, Scheme) && r.value[|Scheme|..] == reply.body.ipfsHash.GetOr("undefined")
  {
    match reply
    case PinThrown(m) => Err(m)
    case PinAnswer(ok, text, body) =>
      if !ok then Err(text)
      else match body
        case PinUnparsable(m) => Err(m)
        case PinJson(hash) => Ok(Scheme + hash.GetOr("undefined"))
  }

  /** A pinned hash comes back as exactly `ipfs://` followed by the hash. */
  lemma WrapHash(text: string, hash: string)
    ensures Wrap(PinAnswer(true, text, PinJson(Some(hash)))) == Ok(Scheme + hash)
  {
  }
}
