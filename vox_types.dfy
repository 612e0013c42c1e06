/** The records the vox adapter consumes and produces, its constants, and the
    library helpers it imports (whose code is not part of this model). */
module VoxTypes {
  import opened Js

  const SspEndpoint := "https://ssp.hybrid.ai/auction/prebid"
  const VideoRendererUrl := "https://acdn.adnxs.com/video/outstream/ANOutstreamVideo.js"
  const Ttl := 60

  /** The shared media-type names BANNER and VIDEO. */
  const Banner := "banner"
  const Video := "video"
  const SupportedMediaTypes := [Banner, Video]

  /** The media type a placement name is delivered as: video for `'video'`,
      banner for everything else. */
  function PlacementMediaType(placement: JsVal): string {
    if placement == Str("video") then Video else Banner
  }

  /** A canonical bid request as the auction hands it to the adapter. The
      fields are those the adapter reads; `getFloor` is the optional
      floor-query capability. */
  datatype BidRequest = BidRequest(
    bidId: JsVal,
    transactionId: JsVal,
    sizes: JsVal,
    userId: JsVal,
    mediaTypes: JsVal,
    ortb2: JsVal,
    params: JsVal,
    getFloor: Option<JsVal -> JsVal>)

  /** The context shared by all bid requests of one auction call. */
  datatype BidderRequest = BidderRequest(
    refererInfo: JsVal,
    gdprConsent: JsVal,
    ortb2: JsVal)

  /** One line item of the batched request, built from one bid request. */
  datatype LineItem = LineItem(
    floorInfo: JsVal,
    schain: JsVal,
    userId: JsVal,
    bidId: JsVal,
    transactionId: JsVal,
    sizes: JsVal,
    placement: JsVal,
    placeId: JsVal,
    imageUrl: JsVal)

  /** The body of the POST request; `ga` and `cs` are keys that may be absent. */
  datatype Payload = Payload(
    url: JsVal,
    cmp: bool,
    bidRequests: seq<LineItem>,
    ga: Option<JsVal>,
    cs: Option<JsVal>)

  datatype RequestOptions = RequestOptions(contentType: string)

  /** The request descriptor handed to the transport. */
  datatype ServerRequest = ServerRequest(
    httpMethod: string,
    url: string,
    data: Payload,
    options: RequestOptions)

  /** The two banner templates: a plain ad place, or an in-image overlay. */
  datatype Template = AdPlace | InImageOverlay

  /** Banner markup: a template that embeds a canonical bid and the
      creative's place id, for the exchange's renderer script to pick up. */
  datatype Markup = Markup(template: Template, placeId: JsVal, embedded: Bid)

  datatype Meta = Meta(advertiserDomains: JsVal)

  /** The canonical bid returned to the auction; the optional fields are
      keys that only some bids carry. */
  datatype Bid = Bid(
    requestId: JsVal,
    cpm: JsVal,
    width: JsVal,
    height: JsVal,
    creativeId: JsVal,
    currency: JsVal,
    netRevenue: bool,
    mediaType: string,
    ttl: int,
    content: JsVal,
    meta: Meta,
    vastXml: Option<JsVal>,
    renderer: Option<JsVal>,
    ad: Option<Markup>)

  /** The helpers the adapter imports from shared libraries, passed in as
      functions because their code is not part of this model. */
  datatype Imports = Imports(
    getMediaTypeFromBid: BidRequest -> JsVal,
    hasVideoMandatoryParams: JsVal -> bool,
    createRenderer: (Bid, string) -> JsVal,
    getCurrencyFromBidderRequest: BidderRequest -> JsVal)
}
