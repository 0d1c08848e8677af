/** The developer dashboard page: the throwing normaliser, metadata fetch with gateway failover,
    the metadata cache load, the owner filter and the image-preview test. */
module DashboardPage {
  import opened Wrappers
  import opened Text
  import opened Records
  import opened IpfsPattern
  import opened IpfsGateways
  import MarketPage

  /* ---------------- Normaliser ---------------- */

  /** `normalizeToIpfsUri`: `""` for an empty input, the canonical URI for a recognised one, and
      an `Error("Invalid IPFS input: " + input)` otherwise. */
  function Normalize(input: string): (r: Result<string>)
    ensures r.Ok? ==> r.value == [] || StartsWith(r.value, Scheme)
    ensures r.Err? <==> FormOf(input).Unrecognised?
    ensures r.Err? ==> r.error == "Invalid IPFS input: " + input
    ensures input == [] ==> r == Ok("")
    ensures StartsWith(input, Scheme) ==> r == Ok(input)
    ensures !StartsWith(input, Scheme) && CidMatch(input).Some? ==> r == Ok(Scheme + CidMatch(input).value.cid)
    ensures !StartsWith(input, Scheme) && CidMatch(input).None? && HasHashPrefix(input) ==> r == Ok(Scheme + input)
  {
    var f := FormOf(input);
    if f.Empty? then Ok("")
    else if f.Unrecognised? then Err("Invalid IPFS input: " + input)
    else Ok(CanonicalOf(input, f))
  }

  /** The two pages agree on every input the market page recognises (and on the empty one);
      where the market page gives `""` for a non-empty input, the dashboard throws. */
  lemma NormalizeAgreesWithMarket(input: string)
    ensures input == [] || MarketPage.Normalize(input) != [] ==> Normalize(input) == Ok(MarketPage.Normalize(input))
    ensures input != [] && MarketPage.Normalize(input) == [] ==> Normalize(input) == Err("Invalid IPFS input: " + input)
  {
  }

  /** Normalising a canonical result again gives it back unchanged. */
  lemma NormalizeIdempotent(input: string)
    requires Normalize(input).Ok?
    ensures Normalize(Normalize(input).value) == Normalize(input)
  {
    var r := Normalize(input).value;
    if r != [] {
      assert FormOf(r) == Canonical;
    }
  }

  /* ---------------- Metadata fetch ---------------- */

  /** A non-empty `image` is replaced by its canonical form; normalising it may fail. */
  function NormaliseImage(json: Record): (r: Result<Record>)
    ensures r.Ok? ==> r.value.(image := json.image) == json
    ensures r.Err? <==> json.image.Some? && json.image.value != [] && Normalize(json.image.value).Err?
    ensures r.Ok? && json.image.Some? && json.image.value != [] ==> r.value.image == Some(Normalize(json.image.value).value)
    ensures json.image.None? || json.image.value == [] ==> r == Ok(json)
  {
    if json.image.Some? && json.image.value != [] then
      match Normalize(json.image.value)
      case Ok(uri) => Ok(json.(image := Some(uri)))
      case Err(e) => Err(e)
    else Ok(json)
  }

  /** What one gateway's response yields; `None` to move on, which includes the throw of an
      image that cannot be normalised, caught by the loop's `catch`. */
  function Attempt(o: Outcome, cid: string): Option<Record>
  {
    match o
    case NetworkError => None
    case Http(ok, _, body) =>
      if !ok then None
      else if IsJsonType(ContentTypeOf(o)) then
        (match body
         case Unparsable => None
         case Json(json) =>
           match NormaliseImage(json)
           case Ok(r) => Some(r)
           case Err(_) => None)
      else Some(Attachment(cid, ContentTypeOf(o)))
  }

  function Tries(net: string -> Outcome, cid: string): (t: seq<Option<Record>>)
    ensures |t| == |Gateways|
  {
    seq(|Gateways|, i requires 0 <= i < |Gateways| => Attempt(net(Gateways[i] + cid), cid))
  }

  const AllFailed: string := "All IPFS gateways failed"

  /** What the gateway loop gives for `cid`: the first usable gateway's record, or the throw. */
  function ResolveCid(net: string -> Outcome, cid: string): Result<Record> {
    var t := Tries(net, cid);
    var k := FirstHit(t);
    if k < |t| then Ok(t[k].value) else Err(AllFailed)
  }

  /** The URLs the gateway loop requests for `cid`, in order: up to the first usable gateway. */
  function RequestedCid(net: string -> Outcome, cid: string): seq<string> {
    Consulted(Urls(cid), FirstHit(Tries(net, cid)))
  }

  /** What `fetchMetadata(rawUri)` returns or throws. */
  function Resolve(net: string -> Outcome, rawUri: string): Result<Record> {
    match Normalize(rawUri)
    case Err(e) => Err(e)
    case Ok(ipfsUri) => ResolveCid(net, CidOf(ipfsUri))
  }

  /** The URLs `fetchMetadata(rawUri)` requests, in order: none when the argument itself does
      not normalise. */
  function Requested(net: string -> Outcome, rawUri: string): seq<string> {
    match Normalize(rawUri)
    case Err(_) => []
    case Ok(ipfsUri) => RequestedCid(net, CidOf(ipfsUri))
  }

  /** One turn of the gateway loop's `try` block: a throw, a non-ok status, an unparsable JSON
      body or an image that cannot be normalised moves on (`None`); otherwise the response is
      classified. */
  method TryGateway(res: Outcome, cid: string) returns (hit: Option<Record>)
    ensures hit == Attempt(res, cid)
  {
    hit := None;
    match res {
      case NetworkError =>
      case Http(ok, _, body) =>
        if ok {
          var contentType := ContentTypeOf(res);
          if IsJsonType(contentType) {
            if body.Json? {
              var json := body.record;
              var image := json.image;
              var failed := false;
              if image.Some? && image.value != [] {
                var uri := Normalize(image.value);
                if uri.Ok? {
                  json := json.(image := Some(uri.value));
                } else {
                  failed := true;
                }
              }
              if !failed {
                hit := Some(json);
              }
            }
          } else {
            hit := Some(Attachment(cid, contentType));
          }
        }
    }
  }

  /** `fetchMetadata`: normalise (throwing on unrecognised input), then try the gateways. */
  method FetchMetadata(rawUri: string, net: string -> Outcome) returns (r: Result<Record>, requested: seq<string>)
    ensures r == Resolve(net, rawUri)
    ensures requested == Requested(net, rawUri)
  {
    var normalised := Normalize(rawUri);
    if normalised.Err? {
      r, requested := Err(normalised.error), [];
      return;
    }
    var cid := CidOf(normalised.value);
    r, requested := FetchFromGateways(cid, net);
  }

  /** The gateway loop of `fetchMetadata`: return the first usable response's record at once, or
      throw when none answered usably. */
  method FetchFromGateways(cid: string, net: string -> Outcome) returns (r: Result<Record>, requested: seq<string>)
    ensures r == ResolveCid(net, cid)
    ensures requested == RequestedCid(net, cid)
  {
    requested := [];
    ghost var t := Tries(net, cid);
    for i := 0 to |Gateways|
      invariant requested == Urls(cid)[..i]
      invariant forall j :: 0 <= j < i ==> t[j].None?
    {
      var url := Gateways[i] + cid;
      requested := requested + [url];
      var hit := TryGateway(net(url), cid);
      assert t[i] == hit;
      assert requested == Urls(cid)[..i + 1];
      if hit.Some? {
        FirstHitAt(t, i);
        r := Ok(hit.value);
        return;
      }
    }
    FirstHitNone(t);
    r := Err(AllFailed);
  }

  /** Every gateway failing makes `fetchMetadata` throw "All IPFS gateways failed", after all
      were tried. */
  lemma ResolveAllFail(net: string -> Outcome, rawUri: string)
    requires Normalize(rawUri).Ok?
    requires forall u :: u in Urls(CidOf(Normalize(rawUri).value)) ==> net(u).NetworkError? || (net(u).Http? && !net(u).ok)
    ensures Resolve(net, rawUri) == Err("All IPFS gateways failed")
    ensures Requested(net, rawUri) == Urls(CidOf(Normalize(rawUri).value))
  {
    ResolveCidAllFail(net, CidOf(Normalize(rawUri).value));
  }

  lemma ResolveCidAllFail(net: string -> Outcome, cid: string)
    requires forall u :: u in Urls(cid) ==> net(u).NetworkError? || (net(u).Http? && !net(u).ok)
    ensures ResolveCid(net, cid) == Err("All IPFS gateways failed")
    ensures RequestedCid(net, cid) == Urls(cid)
  {
    var t := Tries(net, cid);
    forall j | 0 <= j < |t| ensures t[j].None? {
      assert Urls(cid)[j] in Urls(cid);
    }
    FirstHitNone(t);
  }

  /** An unrecognised argument throws before any gateway is contacted. */
  lemma ResolveInvalidInput(net: string -> Outcome, rawUri: string)
    requires rawUri != [] && MarketPage.Normalize(rawUri) == []
    ensures Resolve(net, rawUri) == Err("Invalid IPFS input: " + rawUri)
    ensures Requested(net, rawUri) == []
  {
  }

  /** A JSON answer whose image cannot be normalised counts as a failed gateway: the next
      gateway is asked, and its usable answer is returned. */
  lemma ResolveSkipsBadImage(net: string -> Outcome, rawUri: string, json: Record)
    requires Normalize(rawUri).Ok?
    requires net(Gateways[0] + CidOf(Normalize(rawUri).value)) == Http(true, Some("application/json"), Json(json))
    requires json.image.Some? && json.image.value != [] && Normalize(json.image.value).Err?
    requires Attempt(net(Gateways[1] + CidOf(Normalize(rawUri).value)), CidOf(Normalize(rawUri).value)).Some?
    ensures Resolve(net, rawUri) == Ok(Attempt(net(Gateways[1] + CidOf(Normalize(rawUri).value)), CidOf(Normalize(rawUri).value)).value)
    ensures Requested(net, rawUri) == Urls(CidOf(Normalize(rawUri).value))[..2]
  {
    ResolveCidSkipsBadImage(net, CidOf(Normalize(rawUri).value), json);
  }

  lemma ResolveCidSkipsBadImage(net: string -> Outcome, cid: string, json: Record)
    requires net(Gateways[0] + cid) == Http(true, Some("application/json"), Json(json))
    requires json.image.Some? && json.image.value != [] && Normalize(json.image.value).Err?
    requires Attempt(net(Gateways[1] + cid), cid).Some?
    ensures ResolveCid(net, cid) == Ok(Attempt(net(Gateways[1] + cid), cid).value)
    ensures RequestedCid(net, cid) == Urls(cid)[..2]
  {
    var t := Tries(net, cid);
    assert IsJsonType("application/json") by {
      assert OccursAt("application/json", "application/json", 0);
    }
    assert t[0] == Attempt(net(Gateways[0] + cid), cid) == None;
    assert t[1] == Attempt(net(Gateways[1] + cid), cid);
    FirstHitAt(t, 1);
  }

  /* ---------------- Metadata cache ---------------- */

  datatype Request = Request(id: string, tokenId: string, to: string, uri: string)

  /** The sentinel stored when `fetchMetadata` throws. */
  const LoadFailed: Record := Placeholder("Metadata unavailable", "Failed to load metadata")

  /** The batch's fetch of one URI, with a failure replaced by the unavailable-metadata record. */
  function ResolveOrSentinel(net: string -> Outcome, uri: string): (r: Record)
    ensures Resolve(net, uri).Ok? ==> r == Resolve(net, uri).value
    ensures Resolve(net, uri).Err? ==> r == Placeholder("Metadata unavailable", "Failed to load metadata")
  {
    match Resolve(net, uri)
    case Ok(m) => m
    case Err(_) => LoadFailed
  }

  /** `newCache` after the batch over `items`: an entry per id absent from `snapshot`; when an id
      repeats, the later item's entry stands. */
  function NewEntries(snapshot: map<string, Record>, items: seq<Request>, net: string -> Outcome): (entries: map<string, Record>)
    ensures entries.Keys !! snapshot.Keys
  {
    if items == [] then map[]
    else
      var prev := NewEntries(snapshot, items[..|items| - 1], net);
      var item := items[|items| - 1];
      if item.id in snapshot then prev else prev[item.id := ResolveOrSentinel(net, item.uri)]
  }

  /** The URIs the batch passes to `fetchMetadata`, in order. */
  function Fetched(snapshot: map<string, Record>, items: seq<Request>): seq<string>
  {
    if items == [] then []
    else
      var item := items[|items| - 1];
      Fetched(snapshot, items[..|items| - 1]) + (if item.id in snapshot then [] else [item.uri])
  }

  function Ids(items: seq<Request>): set<string> {
    set item | item in items :: item.id
  }

  /** The batch produces an entry exactly for the ids not cached yet. */
  lemma {:induction false} NewEntriesKeys(snapshot: map<string, Record>, items: seq<Request>, net: string -> Outcome)
    ensures NewEntries(snapshot, items, net).Keys == Ids(items) - snapshot.Keys
  {
    if items != [] {
      var init, last := items[..|items| - 1], items[|items| - 1];
      NewEntriesKeys(snapshot, init, net);
      NewEntriesStep(snapshot, items, net);
      IdsLast(items);
    }
  }

  /** One more item adds an entry for its id unless it was cached. */
  lemma NewEntriesStep(snapshot: map<string, Record>, items: seq<Request>, net: string -> Outcome)
    requires items != []
    ensures var prev, last := NewEntries(snapshot, items[..|items| - 1], net), items[|items| - 1];
      NewEntries(snapshot, items, net) ==
      if last.id in snapshot then prev else prev[last.id := ResolveOrSentinel(net, last.uri)]
  {
  }

  lemma FetchedStep(snapshot: map<string, Record>, items: seq<Request>)
    requires items != []
    ensures var last := items[|items| - 1];
      Fetched(snapshot, items) == Fetched(snapshot, items[..|items| - 1]) + (if last.id in snapshot then [] else [last.uri])
  {
  }

  lemma IdsLast(items: seq<Request>)
    requires items != []
    ensures Ids(items) == Ids(items[..|items| - 1]) + {items[|items| - 1].id}
  {
    var init, last := items[..|items| - 1], items[|items| - 1];
    assert items == init + [last];
    assert forall item :: item in items <==> item in init || item == last;
  }

  /** A new id's entry is what fetching the last item with that id gave, or the sentinel when
      that fetch threw. */
  lemma {:induction false} NewEntryValue(snapshot: map<string, Record>, items: seq<Request>, net: string -> Outcome, i: nat)
    requires i < |items|
    requires items[i].id !in snapshot
    requires forall j :: i < j < |items| ==> items[j].id != items[i].id
    ensures items[i].id in NewEntries(snapshot, items, net)
    ensures NewEntries(snapshot, items, net)[items[i].id] ==
      match Resolve(net, items[i].uri)
      case Ok(m) => m
      case Err(_) => Placeholder("Metadata unavailable", "Failed to load metadata")
  {
    if i < |items| - 1 {
      NewEntryValue(snapshot, items[..|items| - 1], net, i);
    }
  }

  /** The merge `{ ...prev, ...newCache }` keeps every cached entry and adds the new ones. */
  lemma MergeKeepsCache(snapshot: map<string, Record>, items: seq<Request>, net: string -> Outcome)
    ensures (snapshot + NewEntries(snapshot, items, net)).Keys == snapshot.Keys + Ids(items)
    ensures forall id :: id in snapshot ==> (snapshot + NewEntries(snapshot, items, net))[id] == snapshot[id]
  {
    NewEntriesKeys(snapshot, items, net);
  }

  /** Write-once: once the batch's entries are merged in, the same batch fetches nothing and
      produces nothing. */
  lemma {:induction false} SecondLoadFetchesNothing(snapshot: map<string, Record>, items: seq<Request>, net: string -> Outcome)
    ensures Fetched(snapshot + NewEntries(snapshot, items, net), items) == []
    ensures NewEntries(snapshot + NewEntries(snapshot, items, net), items, net) == map[]
  {
    var cache := snapshot + NewEntries(snapshot, items, net);
    MergeKeepsCache(snapshot, items, net);
    NothingWhenCached(cache, items, net);
  }

  lemma {:induction false} NothingWhenCached(cache: map<string, Record>, items: seq<Request>, net: string -> Outcome)
    requires Ids(items) <= cache.Keys
    ensures Fetched(cache, items) == []
    ensures NewEntries(cache, items, net) == map[]
  {
    if items != [] {
      var init := items[..|items| - 1];
      assert items[|items| - 1] in items;
      assert Ids(init) <= Ids(items) by {
        forall id | id in Ids(init) ensures id in Ids(items) {
          var item :| item in init && item.id == id;
          assert item in items;
        }
      }
      NothingWhenCached(cache, init, net);
    }
  }

  /** The loop's step from the first `i` items to the first `i + 1`. */
  lemma LoadStep(snapshot: map<string, Record>, items: seq<Request>, net: string -> Outcome, i: nat)
    requires i < |items|
    ensures NewEntries(snapshot, items[..i + 1], net) ==
      if items[i].id in snapshot then NewEntries(snapshot, items[..i], net)
      else NewEntries(snapshot, items[..i], net)[items[i].id := ResolveOrSentinel(net, items[i].uri)]
    ensures Fetched(snapshot, items[..i + 1]) ==
      Fetched(snapshot, items[..i]) + (if items[i].id in snapshot then [] else [items[i].uri])
  {
    var prefix := items[..i + 1];
    assert prefix[..i] == items[..i] && prefix[i] == items[i];
    NewEntriesStep(snapshot, prefix, net);
    FetchedStep(snapshot, prefix);
  }

  /** One fetch of the batch: `fetchMetadata(uri)`, with a throw caught and replaced by the
      sentinel. */
  method FetchOrSentinel(uri: string, net: string -> Outcome) returns (meta: Record)
    ensures meta == ResolveOrSentinel(net, uri)
  {
    var r, _ := FetchMetadata(uri, net);
    match r {
      case Ok(m) => meta := m;
      case Err(_) => meta := LoadFailed;
    }
  }

  /** The page's `metadataCache` state, keyed by request id. */
  class MetadataCache {
    var entries: map<string, Record>

    constructor ()
      ensures entries == map[]
    {
      entries := map[];
    }

    /** `loadMetadata`: build `newCache` for the ids the cache lacked when the batch began (a
        throw stores the sentinel), then merge it in only when it holds at least one entry. */
    method LoadMetadata(items: seq<Request>, net: string -> Outcome) returns (updated: bool, fetched: seq<string>)
      modifies this
      ensures updated <==> NewEntries(old(entries), items, net) != map[]
      ensures updated ==> entries == old(entries) + NewEntries(old(entries), items, net)
      ensures !updated ==> entries == old(entries)
      ensures fetched == Fetched(old(entries), items)
    {
      var snapshot := entries;
      var newCache: map<string, Record> := map[];
      fetched := [];
      for i := 0 to |items|
        invariant newCache == NewEntries(snapshot, items[..i], net)
        invariant fetched == Fetched(snapshot, items[..i])
        invariant entries == snapshot
      {
        var item := items[i];
        LoadStep(snapshot, items, net, i);
        if item.id !in snapshot {
          var meta := FetchOrSentinel(item.uri, net);
          fetched := fetched + [item.uri];
          newCache := newCache[item.id := meta];
        }
      }
      assert items[..|items|] == items;
      updated := |newCache.Keys| > 0;
      if updated {
        entries := entries + newCache;
      } else {
        assert newCache == map[];
      }
    }
  }

  /* ---------------- Owner filter ---------------- */

  /** Two addresses are the same when they agree after lower-casing. */
  predicate SameAddress(a: string, b: string) {
    ToLower(a) == ToLower(b)
  }

  /** The requests minted to `address`, in their original order. */
  function OwnedBy(items: seq<Request>, address: string): (owned: seq<Request>)
    ensures |owned| <= |items|
    ensures forall i :: 0 <= i < |owned| ==> SameAddress(owned[i].to, address)
  {
    if items == [] then []
    else
      var last := items[|items| - 1];
      OwnedBy(items[..|items| - 1], address) + (if SameAddress(last.to, address) then [last] else [])
  }

  /** The displayed requests are exactly those minted to the connected address, ignoring case. */
  lemma {:induction false} OwnedByMembers(items: seq<Request>, address: string, item: Request)
    ensures item in OwnedBy(items, address) <==> item in items && SameAddress(item.to, address)
  {
    if items != [] {
      var init := items[..|items| - 1];
      OwnedByMembers(init, address, item);
      assert items == init + [items[|items| - 1]];
    }
  }

  /** The filter keeps order: filtering a concatenation filters each part in turn. */
  lemma {:induction false} OwnedByAppend(a: seq<Request>, b: seq<Request>, address: string)
    ensures OwnedBy(a + b, address) == OwnedBy(a, address) + OwnedBy(b, address)
  {
    if b != [] {
      var init := b[..|b| - 1];
      assert (a + b)[..|a + b| - 1] == a + init;
      OwnedByAppend(a, init, address);
    } else {
      assert a + b == a;
    }
  }

  /** Case does not matter: an address written in upper case selects the same requests. */
  lemma OwnedByIgnoresCase(items: seq<Request>, address: string)
    ensures OwnedBy(items, ToLower(address)) == OwnedBy(items, address)
  {
    ToLowerIdempotent(address);
    assert forall a :: SameAddress(a, ToLower(address)) == SameAddress(a, address);
  }

  /* ---------------- Image preview ---------------- */

  const ImageExtensions: seq<string> := [".png", ".jpg", ".jpeg", ".gif", ".webp", ".svg"]

  /** The URL ends, ignoring letter case, in one of the listed image extensions. */
  predicate IsImage(url: string)
    ensures IsImage(url) ==> |url| >= 4
  {
    exists i :: 0 <= i < |ImageExtensions| && EndsWith(ToLower(url), ImageExtensions[i])
  }

  /** A URL that ends in a listed extension, in any letter case, is an image preview. */
  lemma IsImageSuffix(stem: string, ext: string)
    requires ToLower(ext) in ImageExtensions
    ensures IsImage(stem + ext)
  {
    var u := stem + ext;
    var i :| 0 <= i < |ImageExtensions| && ImageExtensions[i] == ToLower(ext);
    assert ToLower(u)[|u| - |ext|..] == ToLower(ext);
  }

  /** Conversely, a preview URL splits as a stem followed by a suffix that lower-cases to a
      listed extension; with `IsImageSuffix` this makes the test exactly "ends, in any case, in a
      listed extension". */
  lemma IsImageHasExtension(url: string)
    requires IsImage(url)
    ensures exists k :: 0 <= k <= |url| && ToLower(url[k..]) in ImageExtensions
  {
    var i :| 0 <= i < |ImageExtensions| && EndsWith(ToLower(url), ImageExtensions[i]);
    var k := |url| - |ImageExtensions[i]|;
    assert ToLower(url[k..]) == ToLower(url)[k..];
  }

  /** Every listed extension ends in `g`, `f` or `p`, so a URL ending in anything else (a text
      file, an image name followed by a query) is never a preview. */
  lemma IsImageLastChar(url: string)
    requires IsImage(url)
    ensures |url| > 0 && LowerChar(url[|url| - 1]) in ['g', 'f', 'p']
  {
    var i :| 0 <= i < |ImageExtensions| && EndsWith(ToLower(url), ImageExtensions[i]);
    var e := ImageExtensions[i];
    assert e[|e| - 1] in ['g', 'f', 'p'];
    assert ToLower(url)[|url| - 1] == e[|e| - 1];
  }

  /** An upper-case `.JPEG` name is previewed. */
  lemma IsImageUpperCase()
    ensures IsImage("bafy/photo.JPEG")
  {
    assert ToLower(".JPEG") == ".jpeg";
    IsImageSuffix("bafy/photo", ".JPEG");
    assert "bafy/photo" + ".JPEG" == "bafy/photo.JPEG";
  }

  /** The extension must end the URL: an image name followed by a query is not previewed. */
  lemma IsImageRejectsQuery()
    ensures !IsImage("bafy/photo.png?download=1")
  {
    var u := "bafy/photo.png?download=1";
    assert LowerChar(u[|u| - 1]) == '1';
    if IsImage(u) {
      IsImageLastChar(u);
    }
  }

  lemma IsImageIgnoresCase(url: string)
    ensures IsImage(ToLower(url)) <==> IsImage(url)
  {
    ToLowerIdempotent(url);
  }
}
