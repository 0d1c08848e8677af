/** What both frontend pages share for reading content back: the ordered gateway list, the
    `ipfs://` to HTTP rewrite, the shape of one gateway response, and first-success failover. */
module IpfsGateways {
  import opened Wrappers
  import opened Text
  import opened Records
  import opened IpfsPattern

  /** `GATEWAYS`, tried in this order. */
  const Gateways: seq<string> := [
    "https://ipfs.io/ipfs/",
    "https://cloudflare-ipfs.com/ipfs/",
    "https://gateway.pinata.cloud/ipfs/"
  ]

  /** The host parts of the gateways, each followed in `Gateways` by `/ipfs/`. */
  const GatewayHosts: seq<string> := [
    "https://ipfs.io",
    "https://cloudflare-ipfs.com",
    "https://gateway.pinata.cloud"
  ]

  /** `ipfsToHttp(ipfsUri, gw)`: the gateway followed by the URI with its first `ipfs://` removed. */
  function IpfsToHttp(ipfsUri: string, gw: string): (url: string)
    ensures StartsWith(url, gw)
    ensures StartsWith(ipfsUri, Scheme) ==> url == gw + ipfsUri[|Scheme|..]
  {
    gw + CidOf(ipfsUri)
  }

  /** `ipfsUri.replace("ipfs://", "")`, the content id the fetch loop appends to each gateway. */
  function CidOf(ipfsUri: string): (cid: string)
    ensures ipfsUri == [] ==> cid == []
    ensures StartsWith(ipfsUri, Scheme) ==> cid == ipfsUri[|Scheme|..]
  {
    if StartsWith(ipfsUri, Scheme) then
      assert ipfsUri == Scheme + ipfsUri[|Scheme|..];
      ReplaceFirstAtStart(Scheme, ipfsUri[|Scheme|..], "");
      ReplaceFirst(ipfsUri, Scheme, "")
    else
      ReplaceFirst(ipfsUri, Scheme, "")
  }

  /** What `res.json()` yields: a record, or a parse failure (it throws). */
  datatype Body = Json(record: Record) | Unparsable

  /** One `fetch(gw + cid)`: it throws, or answers with a status, an optional `content-type`
      header and a body. */
  datatype Outcome = NetworkError | Http(ok: bool, contentType: Option<string>, body: Body)

  /** The answer's `content-type` header, or `""` when it has none. */
  function ContentTypeOf(o: Outcome): string
    requires o.Http?
  {
    o.contentType.GetOr("")
  }

  predicate IsJsonType(contentType: string) {
    Contains(contentType, "application/json")
  }

  /** The record both pages synthesise for content that is not JSON. */
  function Attachment(cid: string, contentType: string): (r: Record)
    ensures r.image == Some(Scheme + cid)
    ensures r.attributes == Some([Attribute("Content-Type", contentType)])
    ensures r.name == Some("Attached File")
    ensures r.description == Some("This request contains a file attachment") && r.message.None?
  {
    Record(Some("Attached File"), Some("This request contains a file attachment"), None,
           Some(Scheme + cid), Some([Attribute("Content-Type", contentType)]))
  }

  /** The URL requested from each gateway, in order. */
  function Urls(cid: string): (urls: seq<string>)
    ensures |urls| == |Gateways|
    ensures forall i :: 0 <= i < |Gateways| ==> urls[i] == Gateways[i] + cid
  {
    seq(|Gateways|, i requires 0 <= i < |Gateways| => Gateways[i] + cid)
  }

  /** The index of the first attempt that produced a result, or `|tries|` when none did. */
  function FirstHit<T>(tries: seq<Option<T>>): (k: nat)
    ensures k <= |tries|
    ensures k < |tries| ==> tries[k].Some?
    ensures forall j :: 0 <= j < k ==> tries[j].None?
  {
    if tries == [] then 0
    else if tries[0].Some? then 0
    else 1 + FirstHit(tries[1..])
  }

  /** The URLs a loop that stops at attempt `k` has requested: all up to and including `k`. */
  function Consulted(urls: seq<string>, k: nat): (r: seq<string>)
    ensures |r| == if k < |urls| then k + 1 else |urls|
    ensures forall i :: 0 <= i < |r| ==> r[i] == urls[i]
  {
    if k < |urls| then urls[..k + 1] else urls
  }

  /** The first hit is at `k` exactly when attempt `k` produced a result and none before it did. */
  lemma {:induction false} FirstHitAt<T>(tries: seq<Option<T>>, k: nat)
    requires k < |tries| && tries[k].Some?
    requires forall j :: 0 <= j < k ==> tries[j].None?
    ensures FirstHit(tries) == k
  {
    if k > 0 {
      FirstHitAt(tries[1..], k - 1);
    }
  }

  /** With no result anywhere, the first hit is past the end. */
  lemma {:induction false} FirstHitNone<T>(tries: seq<Option<T>>)
    requires forall j :: 0 <= j < |tries| ==> tries[j].None?
    ensures FirstHit(tries) == |tries|
  {
    if tries != [] {
      FirstHitNone(tries[1..]);
    }
  }

  /** No gateway host contains an earlier `/ipfs/` segment, so the segment `Gateways[i]` ends
      with is the one the normaliser finds. */
  lemma GatewayShape(i: nat)
    requires i < |Gateways|
    ensures Gateways[i] == GatewayHosts[i] + Segment
    ensures forall j: nat :: !OccursAt(GatewayHosts[i] + "/ipfs", Segment, j)
  {
    var t := GatewayHosts[i] + "/ipfs";
    forall j: nat
      ensures !OccursAt(t, Segment, j)
    {
      SegmentNeedsSlashes(t, j);
    }
  }

  /** A gateway URL is never itself in canonical form. */
  lemma GatewayUrlNotCanonical(i: nat, cid: string)
    requires i < |Gateways|
    ensures !StartsWith(Gateways[i] + cid, Scheme)
  {
    var u := Gateways[i] + cid;
    assert Gateways[i][0] == 'h';
    assert u[..|Scheme|][0] == u[0] == Gateways[i][0];
  }

  lemma SegmentNeedsSlashes(t: string, j: nat)
    requires j + |Segment| <= |t| ==> t[j] != '/' || t[j + 5] != '/'
    ensures !OccursAt(t, Segment, j)
  {
    if j + |Segment| <= |t| {
      assert t[j..j + |Segment|][0] == t[j];
      assert t[j..j + |Segment|][5] == t[j + 5];
    }
  }
}
