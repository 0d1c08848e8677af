# CRX IPFS core, modelled in Dafny

CRX is a waste-tracking dApp. Waste requests and the commits that forward them are minted as
NFTs, and each token's metadata lives on IPFS. This project models the part of CRX that builds
and resolves IPFS references:

- the two variants of the identifier normaliser (`normalizeToIpfsUri`). The market page returns
  `""` for input it cannot read. The dashboard throws `Invalid IPFS input: …`;
- the gateway rewrites `ipfsToHttp` and `gatewayUrl`;
- `fetchMetadata` in both pages. It fails over across the three public gateways and classifies
  the content it gets as a JSON record or a synthetic "Attached File" record;
- the metadata caches of both pages, the market page's join of commits to requests, and
  `getStatus`;
- the dashboard's owner filter and image-preview test;
- the two Express upload routes, `POST /commit` and `POST /waste`. Each has a multer
  allow-list, a size limit, a metadata record, a success or 500 answer, and the order of its
  outside calls;
- the Pinata upload helpers of the backend and the frontend, which turn a pin reply into
  `ipfs://<hash>` or an error carrying the reply's text.

The network, the filesystem, `mime` and the clock are parameters. A gateway is a function
`net: string -> Outcome` from the URL fetched to what came back. A Pinata endpoint is a function
from the posted form or record to a `PinReply`. `fs.unlink`, `mime.getType` and
`fs.promises.readFile` are fields of a `Backend` record, or plain arguments. `new Date().toISOString()`
is a `createdAt` string. Methods that talk to the outside also return what they sent: the URLs
fetched, the form posted, or the call log. This lets contracts state "no later gateway is
consulted" and "no pin call is made".

Modules, one file each:

| file | module | models |
|---|---|---|
| wrappers.dfy | `Wrappers` | `Option`, `Result` |
| text.dfy | `Text` | `startsWith`, `indexOf`, `includes`, `replace` with a string pattern, an anchored strip, `toLowerCase` |
| node_path.dfy | `NodePath` | `path.basename`, `path.extname` |
| records.dfy | `Records` | the metadata record `{name, description, message, image, attributes}` |
| ipfs_pattern.dfy | `IpfsPattern` | the `/ipfs/<cid>` regex, the `Qm`/`bafy` test, the input forms both normalisers share |
| gateways.dfy | `IpfsGateways` | the gateway list, `ipfsToHttp`, gateway outcomes, the attachment record, first-success failover |
| market.dfy | `MarketPage` | crx_frontend/src/app/market/page.tsx |
| dashboard.dfy | `DashboardPage` | crx_frontend/src/app/dashboard/page.tsx |
| pinning.dfy | `Pinning` | `gatewayUrl`, `FormData`, pin replies and their wrapping |
| backend_ipfs.dfy | `BackendIpfs` | crx_backend/utils/ipfs.js |
| frontend_ipfs.dfy | `FrontendIpfs` | crx_frontend/src/utils/ipfs.js |
| http_upload.dfy | `HttpUpload` | multer's admission of a file, the response and call types, the file step of both routes |
| commit_route.dfy | `CommitRoute` | crx_backend/routes/commit.route.js |
| repo_route.dfy | `RepoRoute` | crx_backend/routes/repo.route.js |

The frontend's `gatewayUrl` (crx_frontend/src/utils/ipfs.js:67-68) has the same text as the
backend's, so both are modelled by `Pinning.GatewayUrl`.

Two behaviours of the code are worth stating outright:

- **A disallowed file is not rejected.** Both `fileFilter`s call `cb(null, false)`. Multer then
  drops the file without an error, and the handler still runs with no `req.file`. So the
  metadata record is pinned with an empty `image`, and when that pin succeeds the answer is 200
  (`RepoRoute.RefusedFileStillPinsMetadata`).
- **The market cache sentinel.** The market page's sentinel `{name: "Unavailable", description:
  "Failed to load"}` is written only when `fetchMetadata` throws. The market's `fetchMetadata`
  cannot throw on a string URI. Its normaliser returns instead of throwing, and everything that
  can throw inside the gateway loop is caught there. After all gateways fail it returns
  `{name: "Metadata unavailable", description: "Failed to fetch"}`. The model therefore stores
  `MarketPage.Resolve` for every id it fetches. `MarketPage.LoadFailed` records the sentinel but
  no path reaches it.

## Model

| member | source | states |
|---|---|---|
| Text.ToLower | crx_frontend/src/app/dashboard/page.tsx:247 | lower-casing keeps the length and lower-cases each character in place |
| Text.ToLowerIdempotent | crx_frontend/src/app/dashboard/page.tsx:247 | lower-casing twice is lower-casing once, which is what lets the owner filter ignore case |
| Text.ReplaceFirstAtStart | crx_frontend/src/app/market/page.tsx:72 | `replace` of a pattern the string starts with swaps exactly that prefix for the replacement |
| Text.ReplaceFirstAbsent | crx_frontend/src/app/market/page.tsx:72 | a string not containing the pattern is returned unchanged |
| Text.ReplaceFirstKeepsTail | crx_backend/utils/ipfs.js:91 | in `a + pat + b` where `pat` occurs nowhere before `|a|`, the result is `a + rep + b`: only the first occurrence is replaced, and later copies in `b` are kept |
| Text.IndexOf | crx_frontend/src/app/market/page.tsx:86 | the index found holds the pattern and no earlier index does; `None` means it occurs nowhere |
| Text.ReplaceFirst | crx_frontend/src/app/market/page.tsx:72 | a string starting with the pattern has that prefix swapped for the replacement; a string not containing it is unchanged; otherwise the length changes by the replacement's length minus the pattern's |
| Text.StripPrefix | crx_backend/utils/ipfs.js:85 | a string starting with the pattern loses exactly that prefix; any other string is unchanged |
| NodePath.LastIndexOfChar | crx_backend/utils/ipfs.js:22 | the index found holds the character and no later index does; `None` means it occurs nowhere |
| NodePath.Basename | crx_backend/utils/ipfs.js:22 | the base name is a suffix of the path with no `/`, and is the whole path when it has no `/` |
| NodePath.BasenameAfterSlash | crx_backend/utils/ipfs.js:22 | when the path has a `/`, the character just before the base name is a `/`, so the base name is everything after the last `/` |
| NodePath.Extname | crx_backend/routes/commit.route.js:22 | the extension is empty or is a suffix of the path that starts with its only `.` and has no `/`, and is shorter than the base name |
| NodePath.ExtnameOfBase | crx_backend/routes/commit.route.js:22 | the extension of a base name is empty, or a strictly shorter suffix of it starting with its only `.` |
| NodePath.ExtnameOfName | crx_backend/routes/commit.route.js:22 | for every name `stem + ext` with a non-empty stem, no `/`, and `ext` a `.` followed by no other `.`, the extension is exactly `ext` |
| NodePath.ExtnameWithoutDot | crx_backend/routes/commit.route.js:22 | a name without a `.` has the empty extension |
| NodePath.ExtnameOfDotFile | crx_backend/routes/commit.route.js:22 | a dot file `.` + rest, with no other `.` or `/`, has the empty extension |
| NodePath.ExtnameDotFileExample | crx_backend/routes/commit.route.js:22 | `.png` has no extension |
| NodePath.ExtnameNoDotExample | crx_backend/routes/commit.route.js:22 | `uploads/notes` has no extension |
| NodePath.ExtnamePhoto | crx_backend/routes/commit.route.js:22 | `photo.PNG` gives `.PNG`, case kept |
| NodePath.ExtnameArchive | crx_backend/routes/commit.route.js:22 | `archive.tar.zip` gives `.zip`: only the last `.` counts |
| Records.Placeholder | crx_frontend/src/app/market/page.tsx:103 | a sentinel record has just a name and a description |
| IpfsPattern.RunLength | crx_frontend/src/app/market/page.tsx:65 | the run `[^/?#]+` starting at an index is maximal: it has no `/`, `?` or `#`, and ends at the end or at one of them |
| IpfsPattern.FindFrom | crx_frontend/src/app/market/page.tsx:65 | the match found from an index is the leftmost one there, and its cid is the whole run after `/ipfs/` |
| IpfsPattern.CidMatch | crx_frontend/src/app/market/page.tsx:65 | `input.match(/\/ipfs\/([^/?#]+)/)`: the leftmost `/ipfs/` followed by a non-empty run, and its greedy capture; `None` when no index matches |
| IpfsPattern.NoMatchWithoutSlash | crx_frontend/src/app/market/page.tsx:65 | a string without `/`, `?` or `#` never matches the gateway pattern |
| IpfsPattern.MatchInGatewayUrl | crx_frontend/src/app/market/page.tsx:65 | in `host/ipfs/<cid><rest>` where rest starts with a terminator, the match is at the host's end and captures exactly the cid |
| IpfsPattern.FormOf | crx_frontend/src/app/market/page.tsx:62-67 | the input is classified, in the code's order, as empty, canonical, gateway path with the regex capture as its cid, `Qm`/`bafy` hash (only when the regex does not match), or unrecognised, each exactly when the code's tests say so |
| IpfsPattern.CanonicalOf | crx_frontend/src/app/market/page.tsx:64-67 | a canonical input is returned as it is, a gateway path gives `ipfs://` plus the capture, and a hash gives `ipfs://` plus the input; every result starts with `ipfs://` |
| IpfsPattern.GatewayAndBareAgree | crx_frontend/src/app/market/page.tsx:65-67 | a gateway URL `…/ipfs/<cid>` and the bare hash `<cid>` both give `ipfs://<cid>` |
| IpfsPattern.GatewayForm | crx_frontend/src/app/market/page.tsx:65-66 | any `host/ipfs/<cid><rest>` with a terminator-free cid and no earlier `/ipfs/` is a gateway path carrying exactly that cid |
| IpfsPattern.BareForm | crx_frontend/src/app/market/page.tsx:67 | a bare `Qm`/`bafy` cid with no `/`, `?` or `#` is classified as a bare hash |
| IpfsGateways.IpfsToHttp | crx_frontend/src/app/market/page.tsx:71-72 | the HTTP URL is the chosen gateway followed by the URI with its first `ipfs://` removed, so `ipfs://x` becomes `gw + x` |
| IpfsGateways.CidOf | crx_frontend/src/app/market/page.tsx:78 | the cid of `ipfs://x` is `x`, and an empty URI (normalisation failed) gives an empty cid |
| IpfsGateways.Attachment | crx_frontend/src/app/market/page.tsx:91-98 | a non-JSON response becomes the record named "Attached File", described as "This request contains a file attachment", with no message, image `ipfs://<cid>` and the single attribute `Content-Type` set to the observed type |
| IpfsGateways.Urls | crx_frontend/src/app/market/page.tsx:80-82 | the URLs tried are the gateways, in list order, each followed by the cid |
| IpfsGateways.FirstHit | crx_frontend/src/app/market/page.tsx:80-102 | the index chosen holds the first usable response: every earlier try failed |
| IpfsGateways.Consulted | crx_frontend/src/app/market/page.tsx:80-102 | the URLs consulted are the tried ones up to and including the first success, or all of them |
| IpfsGateways.FirstHitAt | crx_frontend/src/app/market/page.tsx:80-101 | the first hit is at `k` whenever attempt `k` succeeded and none before it did |
| IpfsGateways.FirstHitNone | crx_frontend/src/app/market/page.tsx:80-103 | with no successful attempt the first hit is past the end, so the loop falls through |
| IpfsGateways.GatewayShape | crx_frontend/src/app/market/page.tsx:56-60 | each gateway is a host followed by `/ipfs/`, and the host holds no `/ipfs/` of its own |
| IpfsGateways.GatewayUrlNotCanonical | crx_frontend/src/app/market/page.tsx:56-60 | a gateway URL never starts with `ipfs://` |
| MarketPage.Normalize | crx_frontend/src/app/market/page.tsx:62-69 | `""` exactly for empty or unrecognised input; a canonical input is returned as it is, a gateway path gives `ipfs://` plus the regex capture, a `Qm`/`bafy` hash gives `ipfs://` plus the input |
| MarketPage.NormalizeIdempotent | crx_frontend/src/app/market/page.tsx:62-69 | normalising the output again returns it unchanged |
| MarketPage.NormalizeRejects | crx_frontend/src/app/market/page.tsx:63-68 | empty input, and input that is neither canonical, nor a gateway path, nor a `Qm`/`bafy` hash, gives `""` |
| MarketPage.GatewayUrlAndBareHashAgree | crx_frontend/src/app/market/page.tsx:65-67 | `Normalize(host/ipfs/<cid><rest>) == Normalize(<cid>) == ipfs://<cid>` for a bare `Qm`/`bafy` cid |
| MarketPage.PreviewUrlRoundTrip | crx_frontend/src/app/market/page.tsx:121-122 | for every canonical URI `ipfs://<cid><rest>` with a non-empty cid free of `/`, `?` and `#` (rest empty or starting with `/`, `?` or `#`), it normalises to itself, and normalising its HTTP preview URL on any of the three gateways gives `ipfs://<cid>`: a path or query after the cid is not recovered |
| MarketPage.NormaliseImage | crx_frontend/src/app/market/page.tsx:88 | only `image` changes; a present non-empty image is replaced by its normal form, and an absent or empty one is left alone |
| MarketPage.FetchMetadata | crx_frontend/src/app/market/page.tsx:76-104 | returns `Resolve`, the first usable gateway's record or the unavailable sentinel, and fetches exactly `Requested`, the URLs up to that gateway |
| MarketPage.FetchFromGateways | crx_frontend/src/app/market/page.tsx:80-103 | the gateway loop for a content id returns the record of the first gateway whose attempt succeeds, or the sentinel, having fetched exactly the URLs up to it |
| MarketPage.TryGateway | crx_frontend/src/app/market/page.tsx:81-101 | one turn of the loop yields exactly `Attempt` of the response: nothing on a throw, a non-ok status or bad JSON, the record with its image normalised, or the attachment record |
| MarketPage.ResolveCidAt | crx_frontend/src/app/market/page.tsx:80-101 | when gateway k is the first whose attempt succeeds, that attempt's record is the result and gateways 0..k are the ones consulted |
| MarketPage.ResolveCidNone | crx_frontend/src/app/market/page.tsx:80-103 | when no attempt succeeds, the result is the sentinel after all three gateways were consulted |
| MarketPage.ResolveFirstSuccess | crx_frontend/src/app/market/page.tsx:80-101 | if gateway k is the first usable one, its record is returned and gateways 0..k are the only ones consulted |
| MarketPage.ResolveAllFail | crx_frontend/src/app/market/page.tsx:103 | when every gateway errors or answers non-ok, the result is `{Metadata unavailable, Failed to fetch}` after trying all three |
| MarketPage.ResolveNonJson | crx_frontend/src/app/market/page.tsx:92-98 | an ok non-JSON answer from the first gateway gives the attachment record with image `ipfs://<cid>` and the `Content-Type` attribute, and nothing more is fetched |
| MarketPage.ResolveJson | crx_frontend/src/app/market/page.tsx:86-90 | an ok JSON answer gives the parsed record with its image normalised |
| MarketPage.ResolveLastGateway | crx_frontend/src/app/market/page.tsx:80-101 | when the first two gateways fail and the third serves, the third gateway's record is returned after all three are consulted |
| MarketPage.ResolveCidLast | crx_frontend/src/app/market/page.tsx:80-101 | the same for a content id |
| MarketPage.ResolveCanonicalInput | crx_frontend/src/app/market/page.tsx:77-78 | fetching by an input or by its normal form fetches the same URLs and gives the same record |
| MarketPage.GetStatus | crx_frontend/src/app/market/page.tsx:108-113 | a count ≤ 0 gives "Request Created" (step 0), 1 gives "Forwarded by Collector" (1), 2 gives "Forwarded by Recycler" (2), and 3 or more give "Utilized by Company Hub" (3) |
| MarketPage.GetStatusMonotone | crx_frontend/src/app/market/page.tsx:108-113 | the step never decreases as the commit count grows |
| MarketPage.CommitsFor | crx_frontend/src/app/market/page.tsx:184-188 | a request's commit list is no longer than the commits and holds only commits whose `requestId` is the request |
| MarketPage.CommitsForMembers | crx_frontend/src/app/market/page.tsx:184-188 | a commit is in a request's list exactly when it is one of the commits and its `requestId` matches |
| MarketPage.CommitsForAppend | crx_frontend/src/app/market/page.tsx:184-188 | grouping keeps the commits' order: the list for a concatenation is the lists for the parts, in turn |
| MarketPage.GroupCommits | crx_frontend/src/app/market/page.tsx:184-188 | the `forEach` builds a map whose keys are exactly the `requestId`s present, each mapped to its commits in order |
| MarketPage.GroupStep | crx_frontend/src/app/market/page.tsx:185-188 | one more commit adds its `requestId` to the keys and appends the commit to that id's list only |
| MarketPage.NoCommitsFor | crx_frontend/src/app/market/page.tsx:186 | an id no commit mentions has no commits, so the `[]` the loop starts it with is right |
| MarketPage.Merge | crx_frontend/src/app/market/page.tsx:191-194 | the merged list has one entry per request, in order, carrying that request, and a request whose token has no map entry gets `[]` |
| MarketPage.JoinRequests | crx_frontend/src/app/market/page.tsx:184-194 | the merged list keeps the length and order of the requests, and each request gets exactly the commits whose `requestId` is its `tokenId`, in order, or `[]` |
| MarketPage.FillKeepsAndAdds | crx_frontend/src/app/market/page.tsx:199-209 | after the fill the cache holds every earlier entry unchanged plus one entry per request id |
| MarketPage.FillNewEntry | crx_frontend/src/app/market/page.tsx:199-203 | an id absent before the fill (its last occurrence) holds what `fetchMetadata` returned for its URI |
| MarketPage.FillTwiceFetchesNothing | crx_frontend/src/app/market/page.tsx:199-200 | a second fill with the same requests fetches nothing |
| MarketPage.NothingFetchedWhenCached | crx_frontend/src/app/market/page.tsx:199-200 | a fill where every id is cached fetches nothing |
| MarketPage.LoadStep | crx_frontend/src/app/market/page.tsx:199-210 | one more request adds (or overwrites) its id's entry with `Resolve` of its URI and fetches that URI, unless the id was cached when the fill began |
| MarketPage.MetadataCache.constructor | crx_frontend/src/app/market/page.tsx:173 | the cache starts empty |
| MarketPage.MetadataCache.LoadRequests | crx_frontend/src/app/market/page.tsx:199-211 | the cache becomes `Fill` of the snapshot, and exactly the URIs of the uncached ids are fetched, in order |
| MarketPage.MetadataCache.OnData | crx_frontend/src/app/market/page.tsx:180-212 | the effect: the join as in `JoinRequests`, then the fill over that list |
| DashboardPage.Normalize | crx_frontend/src/app/dashboard/page.tsx:41-52 | an error exactly for unrecognised input, with message `Invalid IPFS input: ` plus the input; `""` for empty input; a canonical input as it is, a gateway path as `ipfs://` plus the capture, a hash as `ipfs://` plus the input |
| DashboardPage.NormalizeAgreesWithMarket | crx_frontend/src/app/dashboard/page.tsx:41-52 | where the market version gives a URI (or the input is empty), the dashboard gives the same; otherwise it throws `Invalid IPFS input` |
| DashboardPage.NormalizeIdempotent | crx_frontend/src/app/dashboard/page.tsx:41-52 | normalising a normal form again returns it unchanged |
| DashboardPage.NormaliseImage | crx_frontend/src/app/dashboard/page.tsx:83-85 | only `image` changes; a present non-empty image is replaced by its normal form, and the step throws exactly when that image is unrecognised; an absent or empty image is left alone |
| DashboardPage.FetchMetadata | crx_frontend/src/app/dashboard/page.tsx:67-105 | returns or throws `Resolve`: the normaliser's error, the first usable record, or `All IPFS gateways failed`; fetches exactly `Requested` |
| DashboardPage.FetchFromGateways | crx_frontend/src/app/dashboard/page.tsx:71-104 | the gateway loop for a content id returns the first successful attempt's record, or throws `All IPFS gateways failed`, having fetched exactly the URLs up to it |
| DashboardPage.TryGateway | crx_frontend/src/app/dashboard/page.tsx:72-101 | one turn of the loop yields exactly `Attempt` of the response, counting an image that cannot be normalised as a failed gateway |
| DashboardPage.ResolveAllFail | crx_frontend/src/app/dashboard/page.tsx:104 | when every gateway fails, the call throws `All IPFS gateways failed` after trying all three |
| DashboardPage.ResolveCidAllFail | crx_frontend/src/app/dashboard/page.tsx:71-104 | the same for a content id |
| DashboardPage.ResolveInvalidInput | crx_frontend/src/app/dashboard/page.tsx:68 | unrecognised input throws `Invalid IPFS input: …` before any request |
| DashboardPage.ResolveSkipsBadImage | crx_frontend/src/app/dashboard/page.tsx:79-101 | a JSON answer whose image cannot be normalised counts as a failed gateway, and the next gateway's record is returned after two requests |
| DashboardPage.ResolveCidSkipsBadImage | crx_frontend/src/app/dashboard/page.tsx:79-101 | the same for a content id |
| DashboardPage.ResolveOrSentinel | crx_frontend/src/app/dashboard/page.tsx:196-203 | a failed fetch is absorbed as `{Metadata unavailable, Failed to load metadata}`; otherwise the fetched record is used |
| DashboardPage.NewEntries | crx_frontend/src/app/dashboard/page.tsx:191-206 | `newCache` never holds an id that was already cached |
| DashboardPage.NewEntriesKeys | crx_frontend/src/app/dashboard/page.tsx:191-206 | `newCache` holds exactly the ids of the batch that were absent from the cache |
| DashboardPage.NewEntryValue | crx_frontend/src/app/dashboard/page.tsx:194-203 | a new id's entry is its fetched record or the sentinel |
| DashboardPage.MergeKeepsCache | crx_frontend/src/app/dashboard/page.tsx:208-209 | the merge keeps every earlier entry unchanged and adds one entry per batch id |
| DashboardPage.SecondLoadFetchesNothing | crx_frontend/src/app/dashboard/page.tsx:195 | after a load, loading the same batch again fetches nothing and produces no entries |
| DashboardPage.NothingWhenCached | crx_frontend/src/app/dashboard/page.tsx:195 | a batch whose ids are all cached fetches nothing |
| DashboardPage.LoadStep | crx_frontend/src/app/dashboard/page.tsx:194-205 | one more item adds its id's entry, its fetched record or the sentinel, and fetches its URI, unless the id was cached |
| DashboardPage.FetchOrSentinel | crx_frontend/src/app/dashboard/page.tsx:196-203 | one fetch of the batch gives the fetched record, or the sentinel when `fetchMetadata` throws |
| DashboardPage.MetadataCache.constructor | crx_frontend/src/app/dashboard/page.tsx:180 | the cache starts empty |
| DashboardPage.MetadataCache.LoadMetadata | crx_frontend/src/app/dashboard/page.tsx:190-211 | the cache is updated exactly when new entries were produced, and then becomes the old cache plus the new entries; exactly the uncached URIs are fetched |
| DashboardPage.OwnedBy | crx_frontend/src/app/dashboard/page.tsx:245-248 | the filter keeps at most the given requests, each minted to the address, ignoring case |
| DashboardPage.OwnedByMembers | crx_frontend/src/app/dashboard/page.tsx:245-248 | a request is displayed exactly when its `to` equals the address, ignoring case |
| DashboardPage.OwnedByAppend | crx_frontend/src/app/dashboard/page.tsx:245-248 | the filter keeps the original order |
| DashboardPage.OwnedByIgnoresCase | crx_frontend/src/app/dashboard/page.tsx:247 | an address in any case selects the same requests as its lower-case form |
| DashboardPage.IsImage | crx_frontend/src/app/dashboard/page.tsx:120-122 | a preview URL has at least four characters |
| DashboardPage.IsImageHasExtension | crx_frontend/src/app/dashboard/page.tsx:120-122 | a preview URL ends in a suffix that lower-cases to a listed extension; with `IsImageSuffix`, a URL is a preview exactly when it ends, in any case, in a listed extension |
| DashboardPage.IsImageSuffix | crx_frontend/src/app/dashboard/page.tsx:120-122 | a URL ending in `.png`, `.jpg`, `.jpeg`, `.gif`, `.webp` or `.svg`, in any case, is a preview |
| DashboardPage.IsImageLastChar | crx_frontend/src/app/dashboard/page.tsx:122 | a preview URL ends in `g`, `f` or `p`, so the extension must end the URL |
| DashboardPage.IsImageUpperCase | crx_frontend/src/app/dashboard/page.tsx:122 | `bafy/photo.JPEG` is a preview |
| DashboardPage.IsImageRejectsQuery | crx_frontend/src/app/dashboard/page.tsx:122 | `bafy/photo.png?download=1` is not a preview: the extension must end the URL |
| DashboardPage.IsImageIgnoresCase | crx_frontend/src/app/dashboard/page.tsx:122 | the test ignores letter case |
| Pinning.GatewayUrl | crx_backend/utils/ipfs.js:84-85 | the URL is the Pinata gateway followed by the input with one leading `ipfs://` removed, or by the whole input when it has none |
| Pinning.GatewayUrlCanonicalOrBare | crx_frontend/src/utils/ipfs.js:67-68 | the canonical and the bare form of a cid map to the same Pinata URL |
| Pinning.GatewayUrlStripsOnlyLeading | crx_backend/utils/ipfs.js:85 | the strip is anchored: only one leading `ipfs://` is removed, and a later `ipfs://` is kept |
| Pinning.FormData.constructor | crx_backend/utils/ipfs.js:25 | a new form has no parts |
| Pinning.FormData.Append | crx_backend/utils/ipfs.js:27-34 | `append` adds one part at the end and leaves the others as they were |
| Pinning.Wrap | crx_backend/utils/ipfs.js:45-54 | a non-ok reply gives an error carrying the body text, a throw passes its message on, an ok reply whose body is not JSON gives the parse error, and an ok JSON reply gives `ipfs://` plus the returned `IpfsHash` (`undefined` when absent) |
| Pinning.WrapHash | crx_backend/utils/ipfs.js:49-51 | an ok reply with hash h gives exactly `ipfs://h` |
| BackendIpfs.FileForm | crx_backend/utils/ipfs.js:22-34 | the form has three parts, the first being the file stream under `file` |
| BackendIpfs.BuildFileForm | crx_backend/utils/ipfs.js:24-34 | the form built is exactly the three parts `FileForm` lists, in order |
| BackendIpfs.UploadFile | crx_backend/utils/ipfs.js:20-56 | posts exactly the three-part form and returns the wrapped reply, an `ipfs://` URI on success |
| BackendIpfs.UploadMetadata | crx_backend/utils/ipfs.js:59-81 | returns the wrapped reply; a non-ok reply becomes an error with its text |
| BackendIpfs.IpfsToHttp | crx_backend/utils/ipfs.js:89-92 | an empty URI gives `""`; `ipfs://x` gives `https://ipfs.io/ipfs/x`; a URI without `ipfs://` is returned unchanged |
| BackendIpfs.IpfsToHttpCanonical | crx_backend/utils/ipfs.js:91 | `ipfs://x` becomes `https://ipfs.io/ipfs/x`, and of a doubled scheme only the first copy is replaced |
| BackendIpfs.IpfsToHttpNoScheme | crx_backend/utils/ipfs.js:90-91 | a URI without `ipfs://` is returned unchanged |
| FrontendIpfs.GuardAdmitsObjectsOnly | crx_frontend/src/utils/ipfs.js:45 | the falsy-or-not-an-object guard lets through exactly objects and arrays |
| FrontendIpfs.UploadMetadata | crx_frontend/src/utils/ipfs.js:43-65 | non-object metadata is refused with `Metadata must be an object` and nothing is posted; otherwise the reply is wrapped |
| FrontendIpfs.UploadFile | crx_frontend/src/utils/ipfs.js:17-41 | a read error is rethrown with nothing posted; otherwise a one-part form holding the file's content is posted and the reply wrapped |
| HttpUpload.Allowed | crx_backend/routes/commit.route.js:20-23 | an accepted name has a `.` whenever the list has no empty entry |
| HttpUpload.AllowedByExtension | crx_backend/routes/commit.route.js:20-23 | for every name `stem + ext` whose extension is `ext`, the filter accepts exactly when the lower-cased `ext` is on the list, whatever the stem and the letter case |
| HttpUpload.RefusedWithoutExtension | crx_backend/routes/commit.route.js:20-23 | a name without a `.` is refused by any list without `""` |
| HttpUpload.RefusedDotFile | crx_backend/routes/commit.route.js:20-23 | a dot file such as `.png` is refused by any list without `""` |
| HttpUpload.Admit | crx_backend/routes/commit.route.js:17-25 | multer stores a file exactly when the filter accepts it and it is within the limit, fails with `File too large` exactly when it is accepted and over the limit, and otherwise hands on no file |
| HttpUpload.FileStage | crx_backend/routes/commit.route.js:33-40 | without a file the URI is `""`; with one, a failed pin gives that pin's error, a failed unlink after a good pin gives the unlink's message, and otherwise the result is the pin's `ipfs://` URI |
| HttpUpload.FileStageCalls | crx_backend/routes/commit.route.js:36-38 | without a file no call is made; with one, the first call is the pin of that file's form, and a second call, the unlink of its path, is made exactly when the pin succeeded |
| HttpUpload.FileStagePinned | crx_backend/routes/commit.route.js:36-38 | a file pinned as h, whatever the reply's body text, and then deleted gives `ipfs://h`, after exactly the pin and the unlink |
| HttpUpload.PinUploadedFile | crx_backend/routes/commit.route.js:33-40 | the file step pins the file and then deletes it, stopping at the first error |
| CommitRoute.FileFilter | crx_backend/routes/commit.route.js:20-23 | an accepted name has a `.` |
| CommitRoute.FileFilterByExtension | crx_backend/routes/commit.route.js:20-23 | for every name `stem + ext` whose extension is `ext`, accepted exactly when the lower-cased `ext` is one of `.png .jpg .jpeg .svg .zip .gif` |
| CommitRoute.FileFilterNeedsExtension | crx_backend/routes/commit.route.js:20-23 | a name without a `.`, and a dot file, are refused |
| CommitRoute.FilterAcceptsUpperCase | crx_backend/routes/commit.route.js:22 | `X.PNG` is accepted |
| CommitRoute.FilterRejectsPdf | crx_backend/routes/commit.route.js:21 | a pdf is refused on this route |
| CommitRoute.CommitMetadata | crx_backend/routes/commit.route.js:43-52 | the record has the message, the image given, and exactly Created By, Contributor, Created At, in that order |
| CommitRoute.HandleResponse | crx_backend/routes/commit.route.js:32-71 | the answer is 200 exactly when the file stage and the metadata pin both succeed, and is then `{fileIpfsUri, metadataUri, metadataHttpUri}` with the file stage's URI, the pin's `ipfs://` URI and that URI on `https://ipfs.io/ipfs/`; otherwise 500 with the message of the step that failed |
| CommitRoute.HandleCalls | crx_backend/routes/commit.route.js:36-55 | at most three calls; when the file stage succeeds, the last is the pin of the record naming its URI |
| CommitRoute.Handle | crx_backend/routes/commit.route.js:28-72 | the handler's answer and call log are those of the step-by-step reading of the route |
| CommitRoute.Post | crx_backend/routes/commit.route.js:17-28 | an oversized accepted file ends the request with `File too large` and no calls; otherwise the handler runs with the admitted file or none |
| CommitRoute.NoFileMeansNoFilePin | crx_backend/routes/commit.route.js:33-46 | with no file the only call is the metadata pin, with image `""` |
| CommitRoute.FileImageIsCanonical | crx_backend/routes/commit.route.js:36-46 | with a file pinned as h (any reply text), the calls are the file pin, the unlink and the pin of a record whose image is `ipfs://h` |
| CommitRoute.ResponseShape | crx_backend/routes/commit.route.js:56-71 | the answer is 200 with `metadataHttpUri` equal to the metadata URI with its scheme replaced by `https://ipfs.io/ipfs/`, or 500 with an error |
| CommitRoute.PinFailureIsReported | crx_backend/routes/commit.route.js:68-71 | a metadata pin answering non-ok gives 500 with the reply's text as the error |
| RepoRoute.FileFilter | crx_backend/routes/repo.route.js:19-23 | an accepted name has a `.` |
| RepoRoute.FileFilterByExtension | crx_backend/routes/repo.route.js:19-23 | for every name `stem + ext` whose extension is `ext`, accepted exactly when the lower-cased `ext` is one of `.png .jpg .jpeg .svg .zip .gif .pdf` |
| RepoRoute.FileFilterNeedsExtension | crx_backend/routes/repo.route.js:19-23 | a name without a `.`, and a dot file, are refused |
| RepoRoute.FilterAcceptsPdf | crx_backend/routes/repo.route.js:20-22 | a pdf is accepted, in any case |
| RepoRoute.FilterRejectsExecutable | crx_backend/routes/repo.route.js:20-22 | `setup.exe` is refused |
| RepoRoute.FileHttpUri | crx_backend/routes/repo.route.js:39 | no file gives `""`; `ipfs://x` gives `https://ipfs.io/ipfs/x` |
| RepoRoute.WasteMetadata | crx_backend/routes/repo.route.js:42-56 | the record has name, description, the image given, and exactly Owner, Waste Type, Quantity, Location, Created At, in that order |
| RepoRoute.HandleResponse | crx_backend/routes/repo.route.js:30-74 | the answer is 200 exactly when the file stage and the metadata pin both succeed, and then carries only the pin's `ipfs://` URI; otherwise 500 with the message of the step that failed |
| RepoRoute.PinWithoutHashAnswersUndefined | crx_backend/routes/repo.route.js:58-67 | an ok pin reply without `IpfsHash` still answers 200, with `ipfs://undefined` |
| RepoRoute.HandleCalls | crx_backend/routes/repo.route.js:34-58 | at most three calls; when the file stage succeeds, the last is the pin of the record whose image is the HTTP form of the file URI |
| RepoRoute.Handle | crx_backend/routes/repo.route.js:26-75 | the handler's answer and call log are those of the step-by-step reading of the route |
| RepoRoute.Post | crx_backend/routes/repo.route.js:16-26 | an oversized accepted file ends the request with `File too large` and no calls; otherwise the handler runs with the admitted file or none |
| RepoRoute.ResponseShape | crx_backend/routes/repo.route.js:64-74 | the answer is 200 carrying only the `ipfs://` metadata URI, or 500 with an error |
| RepoRoute.ImageIsGatewayUrl | crx_backend/routes/repo.route.js:31-45 | with a file pinned as h (any reply text), the record's image is `https://ipfs.io/ipfs/h` and not the canonical form |
| RepoRoute.RefusedFileStillPinsMetadata | crx_backend/routes/repo.route.js:19-23 | a refused `.exe` is dropped without error: only the record is pinned, with image `""`, and when that pin answers with hash h the route answers 200 with `ipfs://h` |
| RepoRoute.PinnedFileAnswers200 | crx_backend/routes/repo.route.js:34-66 | with the file pinned as h and deleted, and the record naming `https://ipfs.io/ipfs/h` pinned as m, whatever the two replies' texts, the answer is 200 with `ipfs://m` after three calls |
| RepoRoute.SmallPngUpload | crx_backend/routes/repo.route.js:26-67 | for any fields, a 1 KB `laptop.png` is stored, and with both pins answering with a hash the route returns 200 and `ipfs://<hash>` after exactly three calls |

## Left out

- Network I/O. `fetch`, the Pinata endpoints and the subgraph `request` are parameters that return abstract outcomes. HTTP headers, auth and the JWT are not modelled.
- `fetchIPFS` (crx_backend/utils/ipfs.js:94-104) is pure network code. It also passes the unresolved promise of the async `ipfsToHttp` as its URL.
- Concurrency. The dashboard's `Promise.all` and the market's async `forEach` are modelled as a sequential loop over the ids in list order. The market's condition reads the cache as it was when the effect started. When an id occurs twice, the later fetch's record wins.
- The React state update is modelled as one assignment of the cache field. Re-renders and the reads of stale state between them are not modelled.
- `toLowerCase` is modelled on ASCII letters only.
- `NodePath.Extname` does not model trailing `/` in a path. Multer's `originalname` never has one.
- `NodePath.Basename` does not model trailing `/` either: Node's `path.basename("a/b/")` is `b`, the model gives `""`. The paths passed to it are multer's temporary file paths, which never end in `/`.
- JSON bodies that are not objects (`null`, numbers) are not modelled. Record fields other than `name`, `description`, `message`, `image` and `attributes` are not modelled, nor are values that are not strings.
- `DashboardPage.OwnedBy`: the `address && data &&` guard (crx_frontend/src/app/dashboard/page.tsx:243), which renders nothing while no wallet is connected or no data has arrived, is markup and is not modelled; the filter is modelled for a given address.
- JavaScript prototype keys (`__proto__`, `constructor`) used as cache keys are not modelled.
- `MarketPage.MetadataCache.LoadRequests`: the market sentinel `{Unavailable, Failed to load}` is never stored, because the market's `fetchMetadata` cannot throw (see above).
- Form fields from `req.body` are strings. A missing field would be `undefined` in the record, and that case is not modelled.
- Temp-file naming by `Date.now()` is not modelled; the stored path is a parameter. `new Date().toISOString()` is a `createdAt` parameter. `console` logging is not modelled.
- Multer errors are answered by Express's default error handler. The model keeps only its status 500 and the message `File too large`, not its HTML body.
- `RepoRoute.Handle`: the `metadataHttpUri` that the route computes and never uses is not modelled.
- `mime.getType` and the `application/octet-stream` fallback are modelled only as an optional content type passed in. The form's header computation and the stream itself are not modelled.
- `RenderIPFSContent` markup and the progress-bar width, which is a float, are not modelled. Its preview URL and image test are modelled (`MarketPage.PreviewUrlRoundTrip`, `DashboardPage.IsImageSuffix`).
- The environment-variable checks made at module load are configuration and are not modelled.
