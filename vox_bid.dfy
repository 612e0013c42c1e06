/** `buildBid` and the banner templates: one wire bid, already re-associated
    with its line item, becomes one canonical bid. */
module VoxBid {
  import opened Js
  import opened VoxTypes

  /** The in-image template: an overlay keyed by the creative's place id,
      embedding the bid for the renderer script. The HTML text is not
      modelled. */
  function WrapInImageBanner(bid: Bid, bidData: JsVal): Markup {
    Markup(InImageOverlay, Get(Get(bidData, "content"), "placeId"), bid)
  }

  /** The plain banner template: an ad place keyed by the creative's place
      id, embedding the bid for the renderer script. */
  function WrapBanner(bid: Bid, bidData: JsVal): Markup {
    Markup(AdPlace, Get(Get(bidData, "content"), "placeId"), bid)
  }

  /** The video object a wire bid declares, `bidData.mediaTypes?.video`. */
  function VideoOf(bidData: JsVal): JsVal {
    Get(Get(bidData, "mediaTypes"), "video")
  }

  /** buildBid completes unless the wire bid or its content is missing, or a
      video bid declares a video object whose first player size is missing. */
  ghost predicate BuildBidCompletes(bidData: JsVal) {
    && !IsNullish(bidData)
    && !IsNullish(Get(bidData, "content"))
    && (Get(bidData, "placement") == Str("video") && Truthy(VideoOf(bidData)) ==>
          && !IsNullish(Get(VideoOf(bidData), "playerSize"))
          && !IsNullish(Index(Get(VideoOf(bidData), "playerSize"), 0)))
  }

  /** The fields every canonical bid takes the same way. */
  ghost predicate CommonFields(bidData: JsVal, b: Bid) {
    var content := Get(bidData, "content");
    && b.requestId == Get(bidData, "bidId")
    && b.cpm == Get(bidData, "price")
    && b.currency == Get(bidData, "currency")
    && b.creativeId == (if Truthy(Get(content, "seanceId")) then Get(content, "seanceId") else Get(bidData, "bidId"))
    && b.netRevenue
    && b.ttl == Ttl
    && b.content == content
    && b.meta.advertiserDomains ==
         (if Truthy(Get(bidData, "advertiserDomains")) then Get(bidData, "advertiserDomains") else Arr([]))
    && b.mediaType == PlacementMediaType(Get(bidData, "placement"))
  }

  /** A video bid: the content is the VAST document; size and renderer come
      from the declared video object when there is one (size from the first
      player size, a renderer only for outstream), else the size is the
      content's and there is no renderer. */
  ghost predicate VideoFields(lib: Imports, bidData: JsVal, b: Bid) {
    var content := Get(bidData, "content");
    var video := VideoOf(bidData);
    && b.vastXml == Some(content)
    && b.ad.None?
    && if Truthy(video) then
         var first := Index(Get(video, "playerSize"), 0);
         && b.width == Index(first, 0)
         && b.height == Index(first, 1)
         && b.renderer ==
              (if Get(video, "context") == Str("outstream")
               then Some(lib.createRenderer(b.(renderer := None), VideoRendererUrl))
               else None)
       else
         && b.width == Get(content, "width")
         && b.height == Get(content, "height")
         && b.renderer.None?
  }

  /** A banner bid: the content's size, and markup of the in-image template
      for an in-image placement and of the plain template otherwise, which
      embeds the bid as it stands without its markup. */
  ghost predicate BannerFields(bidData: JsVal, b: Bid) {
    var content := Get(bidData, "content");
    && b.width == Get(content, "width")
    && b.height == Get(content, "height")
    && b.vastXml.None?
    && b.renderer.None?
    && b.ad == Some(
         if Get(bidData, "placement") == Str("inImage")
         then WrapInImageBanner(b.(ad := None), bidData)
         else WrapBanner(b.(ad := None), bidData))
  }

  /** b is the canonical bid of the wire bid bidData. */
  ghost predicate IsCanonicalBid(lib: Imports, bidData: JsVal, b: Bid) {
    && CommonFields(bidData, b)
    && if Get(bidData, "placement") == Str("video") then VideoFields(lib, bidData, b) else BannerFields(bidData, b)
  }

  /** What every canonical bid satisfies: a net, 60-second bid of a
      supported media type carrying exactly the payload of that type (VAST
      for video, markup for banner), a renderer only when it is video, and
      advertiser domains that are never falsy. */
  ghost predicate WellFormedBid(b: Bid) {
    && b.mediaType in SupportedMediaTypes
    && b.netRevenue
    && b.ttl == Ttl
    && (b.vastXml.Some? <==> b.mediaType == Video)
    && (b.ad.Some? <==> b.mediaType == Banner)
    && (b.renderer.Some? ==> b.mediaType == Video)
    && Truthy(b.meta.advertiserDomains)
  }

  /** Builds the canonical bid field by field, as the adapter does: the fixed
      fields and defaults first, then the media type and payload by
      placement. */
  method BuildBid(lib: Imports, bidData: JsVal) returns (r: Completion<Bid>)
    ensures r.Normal? <==> BuildBidCompletes(bidData)
    ensures r.Normal? ==> IsCanonicalBid(lib, bidData, r.value)
  {
    var requestId :- Read(bidData, "bidId");
    var content := Get(bidData, "content");
    var width :- Read(content, "width");
    var bid := Bid(
      requestId := requestId,
      cpm := Get(bidData, "price"),
      width := width,
      height := Get(content, "height"),
      creativeId := Or(Get(content, "seanceId"), Get(bidData, "bidId")),
      currency := Get(bidData, "currency"),
      netRevenue := true,
      mediaType := Banner,
      ttl := Ttl,
      content := content,
      meta := Meta(advertiserDomains := Or(Get(bidData, "advertiserDomains"), Arr([]))),
      vastXml := None,
      renderer := None,
      ad := None);

    var placement := Get(bidData, "placement");
    if placement == Str("video") {
      bid := bid.(vastXml := Some(content));
      bid := bid.(mediaType := Video);
      var video := Get(Get(bidData, "mediaTypes"), "video");
      if Truthy(video) {
        var playerSize := Get(video, "playerSize");
        var first :- ReadIndex(playerSize, 0);
        var w :- ReadIndex(first, 0);
        bid := bid.(width := w);
        // the height read repeats the `video.playerSize[0]` reads that the width read already made
        bid := bid.(height := Index(first, 1));
        if Get(video, "context") == Str("outstream") {
          bid := bid.(renderer := Some(lib.createRenderer(bid, VideoRendererUrl)));
        }
      }
    } else if placement == Str("inImage") {
      bid := bid.(mediaType := Banner);
      bid := bid.(ad := Some(WrapInImageBanner(bid, bidData)));
    } else {
      bid := bid.(mediaType := Banner);
      bid := bid.(ad := Some(WrapBanner(bid, bidData)));
    }
    r := Normal(bid);
  }

  /** Every canonical bid is well formed. */
  lemma CanonicalBidWellFormed(lib: Imports, bidData: JsVal, b: Bid)
    requires IsCanonicalBid(lib, bidData, b)
    ensures WellFormedBid(b)
  {
  }

  /** The markup of a banner bid: it embeds the bid as it stood before its
      markup was assigned (a BANNER bid without `ad`), uses the overlay
      template exactly for an in-image placement and the ad-place template
      otherwise, and is keyed by the content's place id. */
  lemma BannerMarkupEmbedsBid(lib: Imports, bidData: JsVal, b: Bid)
    requires IsCanonicalBid(lib, bidData, b) && b.mediaType == Banner
    ensures b.ad.Some? && b.ad.value.embedded == b.(ad := None)
    ensures b.ad.value.embedded.mediaType == Banner && b.ad.value.embedded.ad.None?
    ensures b.ad.value.template == InImageOverlay <==> Get(bidData, "placement") == Str("inImage")
    ensures b.ad.value.template == AdPlace <==> Get(bidData, "placement") != Str("inImage")
    ensures b.ad.value.placeId == Get(Get(bidData, "content"), "placeId")
  {
  }

  /** The contract of BuildBid leaves no freedom: one wire bid has exactly one
      canonical bid. */
  lemma CanonicalBidUnique(lib: Imports, bidData: JsVal, b1: Bid, b2: Bid)
    requires IsCanonicalBid(lib, bidData, b1) && IsCanonicalBid(lib, bidData, b2)
    ensures b1 == b2
  {
  }
}
