# vox bid adapter, modelled in Dafny

This project models the vox bid adapter of Prebid.js (`modules/voxBidAdapter.js`). The adapter connects the header-bidding auction to the vox (hybrid.ai) exchange. It has four parts:

- a **validity filter** (`isBidRequestValid`). It accepts a bid request for one of three placement variants: banner; in-image with an image URL; video with the mandatory video parameters.
- a **request builder** (`buildBidRequests`, `buildRequests`). It turns every bid request into a line item, with its price-floor query. It posts all line items in one JSON body to the exchange, together with the page URL and the GDPR consent, if any.
- a **response interpreter** (`interpretResponse`). It matches each bid of the exchange's answer with its line item by `bidId`, and copies the line item's placement, transaction id and place id onto it.
- a **canonical-bid constructor** (`buildBid`, `wrapBanner`, `wrapInImageBanner`). It makes the bid the auction consumes: a VIDEO bid that carries VAST, or a BANNER bid that carries markup.

Files:

- `js.dfy` (module `Js`): the JavaScript semantics the adapter relies on. Values are `JsVal`. It gives truthiness, `||`, property reads (`Get` for `?.` and for reads that cannot fail, `Read` for a `.` that throws on undefined/null), indexing, strict-mode property writes, and `===`. A thrown TypeError is the `Throw` completion.
- `vox_types.dfy` (module `VoxTypes`): the constants (endpoint, renderer URL, TTL 60, media-type names), the placement-to-media-type mapping and the records: bid request, bidder request, line item, payload, request descriptor, markup and canonical bid. It also holds the imported helpers as the `Imports` record.
- `vox_validity.dfy`, `vox_requests.dfy`, `vox_bid.dfy`, `vox_responses.dfy`: one module per part, in the order above.

Form. `isBidRequestValid`, `buildBidRequests` and the two templates are pure expressions and are written as functions. `buildBid` fills in its bid step by step. `buildRequests` adds `ga`/`cs` to its payload after building it. `interpretResponse` writes three fields onto each wire bid inside its map. These three are methods that update local records step by step. `interpretResponse` iterates with a loop. Each method is proved against predicates that say what its result is (`IsCanonicalBid`, `Interprets`, `BuildBidRequests`).

Helpers imported from libraries that are not part of this model are parameters. `getMediaTypeFromBid`, `hasVideoMandatoryParams`, `createRenderer` and `getCurrencyFromBidderRequest` are the function-valued fields of `Imports`. The bid's own `getFloor` is an optional function field of `BidRequest`. The model assumes that none of them throws and that `hasVideoMandatoryParams` returns a boolean. The media-type names `'banner'` and `'video'` are the values of the shared `BANNER`/`VIDEO` constants; `src/mediaTypes.js` is not part of this model.

What the code does where a defensive adapter might be expected to do otherwise:

- The interpreter throws on five kinds of input, and the model returns `Throw` for exactly these (`WireBids`, `Interpretable`, `BuildBidCompletes`):
  - a null or undefined server response, whose `body` cannot be read;
  - a null or primitive wire bid;
  - a wire bid whose `bidId` matches no line item, because `rawBid` is then undefined;
  - a wire bid without `content`;
  - a wire bid whose line item's placement is `'video'` and whose truthy `mediaTypes.video` has no `playerSize` or no `playerSize[0]`.
- The size of a video bid comes from `mediaTypes.video.playerSize[0]` of the **wire bid**. The interpreter copies no `mediaTypes` from the line item, and line items carry none. Otherwise the size comes from the response's `content`. There is no "nearest size" rule.

## Model

| member | source | states |
|---|---|---|
| `VoxValidity.IsBidRequestValid` | modules/voxBidAdapter.js:147-157 | throws exactly when the request has no params object; fails closed (false) when `placementId` or `placement` is falsy; false for an in-image placement without a truthy `imageUrl` and for a video placement without the mandatory video params; true only for one of the three placement names |
| `VoxValidity.ValidExactlyForKnownVariants` | modules/voxBidAdapter.js:151-155 | a request is valid iff it has a truthy placement id, names one of the three variants, the library's media type for it is that variant's media type (banner for banner and in-image, video for video), and the variant's extra requirement holds |
| `VoxRequests.FloorQuery` | modules/voxBidAdapter.js:22-25 | the floor query is an object with only a `currency` key; that currency is never falsy; it is the auction's currency when that is truthy, else `'USD'` |
| `VoxRequests.BuildBidRequests` | modules/voxBidAdapter.js:20-43 | builds a line item for every bid request, so as many items as requests; throws exactly when some request has no params object |
| `VoxRequests.LineItemsCopyBids` | modules/voxBidAdapter.js:20-43 | line item i comes from request i: bidId, transactionId, sizes and userId are copied; placement, placeId (from `placementId`) and imageUrl come from params; schain is `ortb2.source.ext.schain` verbatim; floorInfo is `{}` without `getFloor`, else `getFloor` applied to the floor query |
| `VoxRequests.BuildRequests` | modules/voxBidAdapter.js:166-190 | a POST to the fixed endpoint with JSON content type, carrying the page URL and exactly the line items; `cmp` iff a truthy consent object; no `ga`/`cs` without it; with it, `cs` is the consent string and `ga` is present exactly when `gdprApplies` is not undefined, holding its value; throws exactly when `refererInfo` is missing or a line item cannot be built |
| `VoxBid.BuildBid` | modules/voxBidAdapter.js:45-83 | completes exactly when the wire bid and its content exist (and, for a video placement with a video object, its first player size); the result is the canonical bid: requestId, cpm, currency and content from the wire bid; creativeId is `seanceId`, falling back to bidId; netRevenue true, ttl 60; advertiserDomains default `[]`; `'video'` gives VIDEO with `vastXml = content`, the size from `playerSize[0]` when a video object exists, and a renderer only for outstream; every other placement gives BANNER with the in-image or plain markup of the bid |
| `VoxBid.CanonicalBidWellFormed` | modules/voxBidAdapter.js:45-83 | every canonical bid has a supported media type, netRevenue, ttl 60, VAST exactly when video, markup exactly when banner, a renderer only when video, and truthy advertiser domains |
| `VoxBid.BannerMarkupEmbedsBid` | modules/voxBidAdapter.js:74-134 | the markup of a canonical BANNER bid, made by the templates `WrapInImageBanner` (`wrapInImageBanner`) and `WrapBanner` (`wrapBanner`), embeds the bid as it stood before `ad` was assigned: BANNER and without markup; the template is the in-image overlay exactly for an `'inImage'` placement and the ad place otherwise; it is keyed by the content's placeId |
| `VoxBid.CanonicalBidUnique` | modules/voxBidAdapter.js:45-83 | the canonical-bid relation is functional: one wire bid has exactly one canonical bid |
| `VoxResponses.WireBids` | modules/voxBidAdapter.js:200-202 | reading the body throws exactly when there is no response object; there are wire bids exactly when `body.bids` is an array, and they are its elements |
| `VoxResponses.EmptyResponsesMeanNoBids` | modules/voxBidAdapter.js:200-214 | `{}`, `{body: undefined}` and `{body: {}}` have no wire bids; `{body: {bids: []}}` has the empty list of wire bids |
| `VoxResponses.FirstMatch` | modules/voxBidAdapter.js:204-206 | finds the first line item whose bidId is `===` the wire bid's id, or reports that no line item has that id |
| `VoxResponses.InterpretResponse` | modules/voxBidAdapter.js:198-215 | throws without a response object; no bids (`[]`) when the body is falsy, has no `bids`, or `bids` is not an array; otherwise completes exactly when every wire bid can be interpreted, and then returns one canonical bid per wire bid in the same order, each built from the wire bid after its line item's placement, transactionId and placeId were written onto it |
| `VoxResponses.PlacementComesFromLineItem` | modules/voxBidAdapter.js:207-209 | the placement the exchange sends is overwritten: wire bids that differ only in `placement` are re-associated identically |
| `VoxResponses.InterpretedBidCorrelates` | modules/voxBidAdapter.js:203-210 | an interpreted bid has a matching line item; its requestId is that line item's bidId; its media type follows that line item's placement; it is well formed |
| `VoxResponses.CanonicalBidTracesToRequest` | modules/voxBidAdapter.js:20-43 | when the descriptor was built from some bid requests, the line item an interpreted bid matched is the one built from the request at the same position: the bid's requestId is that request's bidId, and its media type follows that request's placement |
| `VoxResponses.ValidRequestKeepsMediaType` | modules/voxBidAdapter.js:61-80 | for a valid request, the media type its line item's placement yields in `buildBid` is the media type the library reported for the request |

## Left out

- JSON transport. `JSON.stringify` of the payload and `JSON.parse` on its way back are treated as the identity, with `data` kept as a record. The wire-level effects are not modelled. For example, a `cs` key whose consent string is undefined is dropped from the JSON text, and an undefined array element becomes `null`.
- In-place updates. The interpreter writes `placement`, `transactionId` and `placeId` onto the response's own bid objects. The model makes these writes on a value. So the caller's response is not shown as changed, and no aliasing is modelled. One such alias: the renderer's reference to the bid that later receives it.
- Array properties. A write to an array's own properties such as `placement` leaves the array unchanged in the model. Every array wire bid still throws in `buildBid`, because arrays have no `content`.
- Number edge cases. Numbers are finite reals, so NaN, the infinities and negative zero are not modelled. The price is passed through untouched.
- `===` on objects. Two objects or arrays are never `===`. Only freshly parsed JSON and values of the server's answer are ever compared.
- Imported helpers. `getMediaTypeFromBid`, `hasVideoMandatoryParams`, `createRenderer`, `getCurrencyFromBidderRequest` and `getFloor` are parameters; their code is not part of this model.
- HTML text. The markup's HTML, `encodeURIComponent`, the `Date.now()` cache-buster and the iframe resizing script are not modelled. The markup is a record naming its template, the place id and the embedded bid.
- `registerBidder(spec)` and the auction registry it feeds are not modelled. Neither are its `code` (`'vox'`) and `gvlid` (206) fields. Its `supportedMediaTypes` appears only as the constant that `WellFormedBid` checks against.
