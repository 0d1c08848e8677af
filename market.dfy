/** The community (market) page: the lenient normaliser, metadata fetch with gateway failover,
    the status of a request, the request/commit join and the metadata cache fill. */
module MarketPage {
  import opened Wrappers
  import opened Text
  import opened Records
  import opened IpfsPattern
  import opened IpfsGateways

  /* ---------------- Normaliser ---------------- */

  /** `normalizeToIpfsUri`: the canonical `ipfs://` URI, or `""` when the input is empty or
      not recognised. */
  function Normalize(input: string): (r: string)
    ensures r == [] || StartsWith(r, Scheme)
    ensures r == [] <==> FormOf(input).Empty? || FormOf(input).Unrecognised?
    ensures StartsWith(input, Scheme) ==> r == input
    ensures !StartsWith(input, Scheme) && CidMatch(input).Some? ==> r == Scheme + CidMatch(input).value.cid
    ensures !StartsWith(input, Scheme) && CidMatch(input).None? && HasHashPrefix(input) ==> r == Scheme + input
  {
    var f := FormOf(input);
    if f.Empty? || f.Unrecognised? then "" else CanonicalOf(input, f)
  }

  /** Normalising twice changes nothing. */
  lemma NormalizeIdempotent(input: string)
    ensures Normalize(Normalize(input)) == Normalize(input)
  {
    var r := Normalize(input);
    if r != [] {
      assert FormOf(r) == Canonical;
    }
  }

  /** An empty input, and one that is neither canonical, nor a gateway path, nor a bare hash,
      normalises to `""`. */
  lemma NormalizeRejects(input: string)
    requires input == [] || (!StartsWith(input, Scheme) && CidMatch(input).None? && !HasHashPrefix(input))
    ensures Normalize(input) == ""
  {
  }

  /** A gateway URL `host/ipfs/<cid>` (optionally followed by `/…`, `?…` or `#…`) and the bare
      hash `<cid>` normalise to the same `ipfs://<cid>`. */
  lemma GatewayUrlAndBareHashAgree(host: string, cid: string, rest: string)
    requires IsBareCid(cid)
    requires rest == [] || IsTerminator(rest[0])
    requires forall j: nat :: !OccursAt(host + "/ipfs", Segment, j)
    requires !StartsWith(host + Segment + cid + rest, Scheme)
    ensures Normalize(host + Segment + cid + rest) == Normalize(cid) == Scheme + cid
  {
    GatewayAndBareAgree(host, cid, rest);
  }

  /** The preview URL of a canonical URI normalises back to it, on every gateway, as long as its
      content id names no path: of `ipfs://<cid>/<path>` (or `?…`, `#…`) only `ipfs://<cid>`
      comes back, since the gateway pattern stops at the first `/`, `?` or `#`. */
  lemma PreviewUrlRoundTrip(i: nat, cid: string, rest: string)
    requires i < |Gateways|
    requires cid != [] && NoTerminator(cid)
    requires rest == [] || IsTerminator(rest[0])
    ensures Normalize(Scheme + cid + rest) == Scheme + cid + rest
    ensures Normalize(IpfsToHttp(Normalize(Scheme + cid + rest), Gateways[i])) == Scheme + cid
  {
    var uri := Scheme + cid + rest;
    assert StartsWith(uri, Scheme);
    assert uri[|Scheme|..] == cid + rest;
    GatewayShape(i);
    var host := GatewayHosts[i];
    var url := Gateways[i] + (cid + rest);
    assert IpfsToHttp(uri, Gateways[i]) == url;
    assert url == host + Segment + cid + rest;
    GatewayUrlNotCanonical(i, cid + rest);
    MatchInGatewayUrl(host, cid, rest);
  }

  /* ---------------- Metadata fetch ---------------- */

  /** The sentinel `fetchMetadata` returns when no gateway answered usably. */
  const Unavailable: Record := Placeholder("Metadata unavailable", "Failed to fetch")

  /** A non-empty `image` is replaced by its canonical form; nothing else changes. */
  function NormaliseImage(json: Record): (r: Record)
    ensures r.(image := json.image) == json
    ensures json.image.Some? && json.image.value != [] ==> r.image == Some(Normalize(json.image.value))
    ensures json.image.None? || json.image.value == [] ==> r == json
  {
    if json.image.Some? && json.image.value != [] then json.(image := Some(Normalize(json.image.value)))
    else json
  }

  /** What one gateway's response yields: `None` to move on to the next gateway (an exception,
      a non-ok status, or a JSON body that does not parse), else the record to return. */
  function Attempt(o: Outcome, cid: string): Option<Record>
  {
    match o
    case NetworkError => None
    case Http(ok, _, body) =>
      if !ok then None
      else if IsJsonType(ContentTypeOf(o)) then
        (match body
         case Unparsable => None
         case Json(json) => Some(NormaliseImage(json)))
      else Some(Attachment(cid, ContentTypeOf(o)))
  }

  /** What each gateway in turn would yield for `cid` on network `net`. */
  function Tries(net: string -> Outcome, cid: string): (t: seq<Option<Record>>)
    ensures |t| == |Gateways|
  {
    seq(|Gateways|, i requires 0 <= i < |Gateways| => Attempt(net(Gateways[i] + cid), cid))
  }

  /** The content id `fetchMetadata` derives from its argument. */
  function FetchCid(rawUri: string): string {
    CidOf(Normalize(rawUri))
  }

  /** The record the gateways give for `cid`: the first usable gateway's, or the sentinel. */
  function ResolveCid(net: string -> Outcome, cid: string): Record {
    var t := Tries(net, cid);
    var k := FirstHit(t);
    if k < |t| then t[k].value else Unavailable
  }

  /** The URLs requested for `cid`, in order: up to the first usable gateway. */
  function RequestedCid(net: string -> Outcome, cid: string): seq<string> {
    Consulted(Urls(cid), FirstHit(Tries(net, cid)))
  }

  /** The record `fetchMetadata(rawUri)` resolves to. */
  function Resolve(net: string -> Outcome, rawUri: string): Record {
    ResolveCid(net, FetchCid(rawUri))
  }

  /** The URLs `fetchMetadata(rawUri)` requests, in order. */
  function Requested(net: string -> Outcome, rawUri: string): seq<string> {
    RequestedCid(net, FetchCid(rawUri))
  }

  /** One turn of the gateway loop's `try` block: a throw, a non-ok status or an unparsable JSON
      body moves on (`None`); otherwise the response is classified. */
  method TryGateway(res: Outcome, cid: string) returns (hit: Option<Record>)
    ensures hit == Attempt(res, cid)
  {
    hit := None;
    match res {
      case NetworkError =>
      case Http(ok, _, body) =>
        if ok {
          var contentType := ContentTypeOf(res);
          if IsJsonType(contentType) {
            if body.Json? {
              hit := Some(NormaliseImage(body.record));
            }
          } else {
            hit := Some(Attachment(cid, contentType));
          }
        }
    }
  }

  /** `fetchMetadata`: derive the content id, then try the gateways in order. */
  method FetchMetadata(rawUri: string, net: string -> Outcome) returns (r: Record, requested: seq<string>)
    ensures r == Resolve(net, rawUri)
    ensures requested == Requested(net, rawUri)
  {
    var cid := FetchCid(rawUri);
    r, requested := FetchFromGateways(cid, net);
  }

  /** The gateway loop of `fetchMetadata`: return the first usable response's record at once, or
      the sentinel when none was usable. */
  method FetchFromGateways(cid: string, net: string -> Outcome) returns (r: Record, requested: seq<string>)
    ensures r == ResolveCid(net, cid)
    ensures requested == RequestedCid(net, cid)
  {
    requested := [];
    for i := 0 to |Gateways|
      invariant requested == Urls(cid)[..i]
      invariant forall j :: 0 <= j < i ==> Attempt(net(Gateways[j] + cid), cid).None?
    {
      var url := Gateways[i] + cid;
      UrlsStep(cid, i);
      requested := requested + [url];
      var hit := TryGateway(net(url), cid);
      if hit.Some? {
        ResolveCidAt(net, cid, i);
        r := hit.value;
        return;
      }
    }
    ResolveCidNone(net, cid);
    r := Unavailable;
  }

  lemma UrlsStep(cid: string, i: nat)
    requires i < |Gateways|
    ensures Urls(cid)[..i + 1] == Urls(cid)[..i] + [Gateways[i] + cid]
  {
  }

  /** First-success failover for a content id: when gateway `k` is the first usable one, its
      record is returned and exactly the gateways up to `k` are consulted. */
  lemma ResolveCidAt(net: string -> Outcome, cid: string, k: nat)
    requires k < |Gateways|
    requires Attempt(net(Gateways[k] + cid), cid).Some?
    requires forall j :: 0 <= j < k ==> Attempt(net(Gateways[j] + cid), cid).None?
    ensures ResolveCid(net, cid) == Attempt(net(Gateways[k] + cid), cid).value
    ensures RequestedCid(net, cid) == Urls(cid)[..k + 1]
  {
    var t := Tries(net, cid);
    assert forall j :: 0 <= j < |Gateways| ==> t[j] == Attempt(net(Gateways[j] + cid), cid);
    FirstHitAt(t, k);
    var c := Consulted(Urls(cid), k);
    assert c == Urls(cid)[..k + 1];
  }

  /** No gateway usable for a content id: the sentinel, after every gateway was tried. */
  lemma ResolveCidNone(net: string -> Outcome, cid: string)
    requires forall j :: 0 <= j < |Gateways| ==> Attempt(net(Gateways[j] + cid), cid).None?
    ensures ResolveCid(net, cid) == Unavailable
    ensures RequestedCid(net, cid) == Urls(cid)
  {
    var t := Tries(net, cid);
    assert forall j :: 0 <= j < |Gateways| ==> t[j] == Attempt(net(Gateways[j] + cid), cid);
    FirstHitNone(t);
  }

  /** First-success failover: when gateway `k` is the first usable one, its record is returned
      and exactly the gateways up to `k` are consulted. */
  lemma ResolveFirstSuccess(net: string -> Outcome, rawUri: string, k: nat)
    requires k < |Gateways|
    requires Tries(net, FetchCid(rawUri))[k].Some?
    requires forall j :: 0 <= j < k ==> Tries(net, FetchCid(rawUri))[j].None?
    ensures Resolve(net, rawUri) == Tries(net, FetchCid(rawUri))[k].value
    ensures Requested(net, rawUri) == Urls(FetchCid(rawUri))[..k + 1]
  {
    var cid := FetchCid(rawUri);
    FirstHitAt(Tries(net, cid), k);
    var c := Consulted(Urls(cid), k);
    assert c == Urls(cid)[..k + 1];
  }

  /** All gateways failing gives the sentinel record, after every gateway was tried. */
  lemma ResolveAllFail(net: string -> Outcome, rawUri: string)
    requires forall u :: u in Urls(FetchCid(rawUri)) ==> net(u).NetworkError? || (net(u).Http? && !net(u).ok)
    ensures Resolve(net, rawUri) == Placeholder("Metadata unavailable", "Failed to fetch")
    ensures Requested(net, rawUri) == Urls(FetchCid(rawUri))
  {
    var cid := FetchCid(rawUri);
    forall j | 0 <= j < |Gateways| ensures Attempt(net(Gateways[j] + cid), cid).None? {
      assert Urls(cid)[j] in Urls(cid);
    }
    ResolveCidNone(net, cid);
  }

  /** A first gateway answering ok with any non-JSON content type yields the attachment record
      that points at the requested content, whatever the body. */
  lemma ResolveNonJson(net: string -> Outcome, rawUri: string, contentType: string)
    requires net(Gateways[0] + FetchCid(rawUri)).Http?
    requires net(Gateways[0] + FetchCid(rawUri)).ok
    requires net(Gateways[0] + FetchCid(rawUri)).contentType.GetOr("") == contentType
    requires !IsJsonType(contentType)
    ensures Resolve(net, rawUri).image == Some(Scheme + FetchCid(rawUri))
    ensures Resolve(net, rawUri).attributes == Some([Attribute("Content-Type", contentType)])
    ensures Requested(net, rawUri) == [Gateways[0] + FetchCid(rawUri)]
  {
    var cid := FetchCid(rawUri);
    ResolveCidAt(net, cid, 0);
  }

  /** A first gateway answering ok with JSON yields the parsed record, its image normalised. */
  lemma ResolveJson(net: string -> Outcome, rawUri: string, json: Record)
    requires net(Gateways[0] + FetchCid(rawUri)).Http?
    requires net(Gateways[0] + FetchCid(rawUri)).ok
    requires IsJsonType(net(Gateways[0] + FetchCid(rawUri)).contentType.GetOr(""))
    requires net(Gateways[0] + FetchCid(rawUri)).body == Json(json)
    ensures Resolve(net, rawUri) == NormaliseImage(json)
  {
    var cid := FetchCid(rawUri);
    ResolveCidAt(net, cid, 0);
  }

  /** Failover to the last gateway: the first two fail, the third answers, and its record is
      returned after all three were consulted. */
  lemma ResolveLastGateway(net: string -> Outcome, rawUri: string)
    requires Attempt(net(Gateways[0] + FetchCid(rawUri)), FetchCid(rawUri)).None?
    requires Attempt(net(Gateways[1] + FetchCid(rawUri)), FetchCid(rawUri)).None?
    requires Attempt(net(Gateways[2] + FetchCid(rawUri)), FetchCid(rawUri)).Some?
    ensures Resolve(net, rawUri) == Attempt(net(Gateways[2] + FetchCid(rawUri)), FetchCid(rawUri)).value
    ensures Requested(net, rawUri) == Urls(FetchCid(rawUri))
  {
    ResolveCidLast(net, FetchCid(rawUri));
  }

  lemma ResolveCidLast(net: string -> Outcome, cid: string)
    requires Attempt(net(Gateways[0] + cid), cid).None?
    requires Attempt(net(Gateways[1] + cid), cid).None?
    requires Attempt(net(Gateways[2] + cid), cid).Some?
    ensures ResolveCid(net, cid) == Attempt(net(Gateways[2] + cid), cid).value
    ensures RequestedCid(net, cid) == Urls(cid)
  {
    ResolveCidAt(net, cid, 2);
    assert Urls(cid)[..3] == Urls(cid);
  }

  /** Fetching by any input form is fetching by its canonical URI. */
  lemma ResolveCanonicalInput(net: string -> Outcome, rawUri: string)
    ensures Resolve(net, Normalize(rawUri)) == Resolve(net, rawUri)
    ensures Requested(net, Normalize(rawUri)) == Requested(net, rawUri)
  {
    NormalizeIdempotent(rawUri);
  }

  /* ---------------- Status ---------------- */

  datatype Status = Status(caption: string, step: nat)

  /** `getStatus(commitCount)`: the step of the request's journey, one per commit up to three. */
  function GetStatus(commitCount: int): (s: Status)
    ensures s.step <= 3
    ensures commitCount >= 0 ==> s.step == if commitCount < 3 then commitCount else 3
    ensures commitCount <= 0 ==> s == Status("Request Created", 0)
    ensures commitCount == 1 ==> s == Status("Forwarded by Collector", 1)
    ensures commitCount == 2 ==> s == Status("Forwarded by Recycler", 2)
    ensures commitCount >= 3 ==> s == Status("Utilized by Company Hub", 3)
  {
    if commitCount >= 3 then Status("Utilized by Company Hub", 3)
    else if commitCount == 2 then Status("Forwarded by Recycler", 2)
    else if commitCount == 1 then Status("Forwarded by Collector", 1)
    else Status("Request Created", 0)
  }

  /** The step never goes back as commits accumulate. */
  lemma GetStatusMonotone(a: int, b: int)
    requires a <= b
    ensures GetStatus(a).step <= GetStatus(b).step
  {
  }

  /* ---------------- Request/commit join ---------------- */

  datatype RequestMinted = RequestMinted(id: string, to: string, tokenId: string, uri: string)

  datatype CommitMinted = CommitMinted(id: string, to: string, tokenId: string, requestId: string, uri: string)

  /** A request with the commits made against it. */
  datatype MergedRequest = MergedRequest(request: RequestMinted, commits: seq<CommitMinted>)

  /** The commits against request `rid`, in their original order. */
  function CommitsFor(commits: seq<CommitMinted>, rid: string): (r: seq<CommitMinted>)
    ensures |r| <= |commits|
    ensures forall i :: 0 <= i < |r| ==> r[i].requestId == rid
  {
    if commits == [] then []
    else
      var last := commits[|commits| - 1];
      CommitsFor(commits[..|commits| - 1], rid) + (if last.requestId == rid then [last] else [])
  }

  /** The request ids some commit mentions. */
  function RequestIds(commits: seq<CommitMinted>): set<string> {
    set c | c in commits :: c.requestId
  }

  /** `CommitsFor` holds exactly the commits with that request id. */
  lemma {:induction false} CommitsForMembers(commits: seq<CommitMinted>, rid: string, c: CommitMinted)
    ensures c in CommitsFor(commits, rid) <==> c in commits && c.requestId == rid
  {
    if commits != [] {
      var init := commits[..|commits| - 1];
      CommitsForMembers(init, rid, c);
      assert commits == init + [commits[|commits| - 1]];
    }
  }

  /** `CommitsFor` keeps order: the commits of a concatenation are those of each part in turn. */
  lemma {:induction false} CommitsForAppend(a: seq<CommitMinted>, b: seq<CommitMinted>, rid: string)
    ensures CommitsFor(a + b, rid) == CommitsFor(a, rid) + CommitsFor(b, rid)
  {
    if b != [] {
      var init := b[..|b| - 1];
      assert (a + b)[..|a + b| - 1] == a + init;
      CommitsForAppend(a, init, rid);
    } else {
      assert a + b == a;
    }
  }

  /** The `commitMap` loop: each request id some commit mentions maps to its commits, in order. */
  method GroupCommits(commits: seq<CommitMinted>) returns (commitMap: map<string, seq<CommitMinted>>)
    ensures commitMap.Keys == RequestIds(commits)
    ensures forall rid :: rid in commitMap ==> commitMap[rid] == CommitsFor(commits, rid)
  {
    commitMap := map[];
    for i := 0 to |commits|
      invariant commitMap.Keys == RequestIds(commits[..i])
      invariant forall rid :: rid in commitMap ==> commitMap[rid] == CommitsFor(commits[..i], rid)
    {
      var commit := commits[i];
      GroupStep(commits, i);
      if commit.requestId !in commitMap {
        NoCommitsFor(commits[..i], commit.requestId);
        commitMap := commitMap[commit.requestId := []];
      }
      commitMap := commitMap[commit.requestId := commitMap[commit.requestId] + [commit]];
    }
    assert commits[..|commits|] == commits;
  }

  /** The loop's step from the first `i` commits to the first `i + 1`. */
  lemma GroupStep(commits: seq<CommitMinted>, i: nat)
    requires i < |commits|
    ensures RequestIds(commits[..i + 1]) == RequestIds(commits[..i]) + {commits[i].requestId}
    ensures forall rid :: CommitsFor(commits[..i + 1], rid) ==
                         CommitsFor(commits[..i], rid) + (if commits[i].requestId == rid then [commits[i]] else [])
  {
    var prefix := commits[..i + 1];
    assert prefix[..i] == commits[..i] && prefix[i] == commits[i];
    assert prefix == commits[..i] + [commits[i]];
  }

  /** A request id no commit mentions has no commits. */
  lemma NoCommitsFor(commits: seq<CommitMinted>, rid: string)
    requires rid !in RequestIds(commits)
    ensures CommitsFor(commits, rid) == []
  {
    if CommitsFor(commits, rid) != [] {
      CommitsForMembers(commits, rid, CommitsFor(commits, rid)[0]);
    }
  }

  /** Each request paired with its token's commits, or with none when the token has no entry. */
  function Merge(requests: seq<RequestMinted>, commitMap: map<string, seq<CommitMinted>>): (merged: seq<MergedRequest>)
    ensures |merged| == |requests|
    ensures forall i :: 0 <= i < |requests| ==> merged[i].request == requests[i]
    ensures forall i :: 0 <= i < |requests| && requests[i].tokenId !in commitMap ==> merged[i].commits == []
  {
    seq(|requests|, i requires 0 <= i < |requests| =>
      MergedRequest(requests[i], if requests[i].tokenId in commitMap then commitMap[requests[i].tokenId] else []))
  }

  /** The join: the requests in their order, each with exactly the commits whose `requestId` is
      its `tokenId`, in commit order (none when there are none). */
  method JoinRequests(requests: seq<RequestMinted>, commits: seq<CommitMinted>) returns (merged: seq<MergedRequest>)
    ensures |merged| == |requests|
    ensures forall i :: 0 <= i < |requests| ==>
      merged[i].request == requests[i] && merged[i].commits == CommitsFor(commits, requests[i].tokenId)
  {
    var commitMap := GroupCommits(commits);
    merged := Merge(requests, commitMap);
    forall i | 0 <= i < |requests|
      ensures merged[i].commits == CommitsFor(commits, requests[i].tokenId)
    {
      var rid := requests[i].tokenId;
      if rid !in commitMap && CommitsFor(commits, rid) != [] {
        CommitsForMembers(commits, rid, CommitsFor(commits, rid)[0]);
      }
    }
  }

  /* ---------------- Metadata cache ---------------- */

  /** The sentinel the page stores when `fetchMetadata` throws. */
  const LoadFailed: Record := Placeholder("Unavailable", "Failed to load")

  /** The cache after the fill loop over `requests`, starting from `snapshot`: an entry per
      request id absent from `snapshot`, later requests with the same id overwriting earlier ones. */
  function Fill(snapshot: map<string, Record>, requests: seq<MergedRequest>, net: string -> Outcome): map<string, Record>
  {
    if requests == [] then snapshot
    else
      var prev := Fill(snapshot, requests[..|requests| - 1], net);
      var req := requests[|requests| - 1].request;
      if req.id in snapshot then prev else prev[req.id := Resolve(net, req.uri)]
  }

  /** The URIs the fill loop passes to `fetchMetadata`, in order. */
  function Fetched(snapshot: map<string, Record>, requests: seq<MergedRequest>): seq<string>
  {
    if requests == [] then []
    else
      var req := requests[|requests| - 1].request;
      Fetched(snapshot, requests[..|requests| - 1]) + (if req.id in snapshot then [] else [req.uri])
  }

  function Ids(requests: seq<MergedRequest>): set<string> {
    set r | r in requests :: r.request.id
  }

  /** The fill keeps every earlier entry and adds one for each request id. */
  lemma {:induction false} FillKeepsAndAdds(snapshot: map<string, Record>, requests: seq<MergedRequest>, net: string -> Outcome)
    ensures Fill(snapshot, requests, net).Keys == snapshot.Keys + Ids(requests)
    ensures forall id :: id in snapshot ==> Fill(snapshot, requests, net)[id] == snapshot[id]
  {
    if requests != [] {
      FillKeepsAndAdds(snapshot, requests[..|requests| - 1], net);
      FillStep(snapshot, requests, net);
      IdsLast(requests);
    }
  }

  /** One more request adds an entry for its id unless the id was in the snapshot. */
  lemma FillStep(snapshot: map<string, Record>, requests: seq<MergedRequest>, net: string -> Outcome)
    requires requests != []
    ensures var prev, id := Fill(snapshot, requests[..|requests| - 1], net), requests[|requests| - 1].request.id;
      Fill(snapshot, requests, net) == if id in snapshot then prev else prev[id := Resolve(net, requests[|requests| - 1].request.uri)]
  {
  }

  lemma FetchedStep(snapshot: map<string, Record>, requests: seq<MergedRequest>)
    requires requests != []
    ensures var req := requests[|requests| - 1].request;
      Fetched(snapshot, requests) ==
      Fetched(snapshot, requests[..|requests| - 1]) + (if req.id in snapshot then [] else [req.uri])
  {
  }

  lemma IdsLast(requests: seq<MergedRequest>)
    requires requests != []
    ensures Ids(requests) == Ids(requests[..|requests| - 1]) + {requests[|requests| - 1].request.id}
  {
    var init, last := requests[..|requests| - 1], requests[|requests| - 1];
    assert requests == init + [last];
    assert forall r :: r in requests <==> r in init || r == last;
  }

  /** A new id's entry is the metadata resolved for the last request carrying it. */
  lemma {:induction false} FillNewEntry(snapshot: map<string, Record>, requests: seq<MergedRequest>, net: string -> Outcome, i: nat)
    requires i < |requests|
    requires requests[i].request.id !in snapshot
    requires forall j :: i < j < |requests| ==> requests[j].request.id != requests[i].request.id
    ensures requests[i].request.id in Fill(snapshot, requests, net)
    ensures Fill(snapshot, requests, net)[requests[i].request.id] == Resolve(net, requests[i].request.uri)
  {
    var init := requests[..|requests| - 1];
    if i < |requests| - 1 {
      FillNewEntry(snapshot, init, net, i);
    }
  }

  /** Write-once: filling again after a fill fetches nothing. */
  lemma {:induction false} FillTwiceFetchesNothing(snapshot: map<string, Record>, requests: seq<MergedRequest>, net: string -> Outcome)
    ensures Fetched(Fill(snapshot, requests, net), requests) == []
  {
    FillKeepsAndAdds(snapshot, requests, net);
    NothingFetchedWhenCached(Fill(snapshot, requests, net), requests);
  }

  lemma {:induction false} NothingFetchedWhenCached(cache: map<string, Record>, requests: seq<MergedRequest>)
    requires Ids(requests) <= cache.Keys
    ensures Fetched(cache, requests) == []
  {
    if requests != [] {
      var init := requests[..|requests| - 1];
      assert requests[|requests| - 1] in requests;
      assert Ids(init) <= Ids(requests) by {
        forall id | id in Ids(init) ensures id in Ids(requests) {
          var r :| r in init && r.request.id == id;
          assert r in requests;
        }
      }
      NothingFetchedWhenCached(cache, init);
    }
  }

  /** The loop's step from the first `i` requests to the first `i + 1`. */
  lemma LoadStep(snapshot: map<string, Record>, requests: seq<MergedRequest>, net: string -> Outcome, i: nat)
    requires i < |requests|
    ensures Fill(snapshot, requests[..i + 1], net) ==
      if requests[i].request.id in snapshot then Fill(snapshot, requests[..i], net)
      else Fill(snapshot, requests[..i], net)[requests[i].request.id := Resolve(net, requests[i].request.uri)]
    ensures Fetched(snapshot, requests[..i + 1]) ==
      Fetched(snapshot, requests[..i]) + (if requests[i].request.id in snapshot then [] else [requests[i].request.uri])
  {
    var prefix := requests[..i + 1];
    assert prefix[..i] == requests[..i] && prefix[i] == requests[i];
    FillStep(snapshot, prefix, net);
    FetchedStep(snapshot, prefix);
  }

  /** The page's `metadataCache` state, keyed by request id. */
  class MetadataCache {
    var entries: map<string, Record>

    constructor ()
      ensures entries == map[]
    {
      entries := map[];
    }

    /** The fill loop: for each request whose id the cache held when the loop began, nothing;
        for any other, `fetchMetadata(req.uri)` and store its result under the id. */
    method LoadRequests(requests: seq<MergedRequest>, net: string -> Outcome) returns (fetched: seq<string>)
      modifies this
      ensures entries == Fill(old(entries), requests, net)
      ensures fetched == Fetched(old(entries), requests)
    {
      var snapshot := entries;
      fetched := [];
      for i := 0 to |requests|
        invariant entries == Fill(snapshot, requests[..i], net)
        invariant fetched == Fetched(snapshot, requests[..i])
      {
        var req := requests[i].request;
        LoadStep(snapshot, requests, net, i);
        if req.id !in snapshot {
          var meta, _ := FetchMetadata(req.uri, net);
          fetched := fetched + [req.uri];
          entries := entries[req.id := meta];
        }
      }
      assert requests[..|requests|] == requests;
    }

    /** The effect run when subgraph data arrives: join the commits to the requests, then fill
        the cache for their ids. */
    method OnData(requests: seq<RequestMinted>, commits: seq<CommitMinted>, net: string -> Outcome)
      returns (merged: seq<MergedRequest>, fetched: seq<string>)
      modifies this
      ensures |merged| == |requests|
      ensures forall i :: 0 <= i < |requests| ==>
        merged[i].request == requests[i] && merged[i].commits == CommitsFor(commits, requests[i].tokenId)
      ensures entries == Fill(old(entries), merged, net)
      ensures fetched == Fetched(old(entries), merged)
    {
      merged := JoinRequests(requests, commits);
      fetched := LoadRequests(merged, net);
    }
  }
}
