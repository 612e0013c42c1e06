/** `spec.isBidRequestValid`: which bid requests the vox exchange accepts. */
module VoxValidity {
  import opened Js
  import opened VoxTypes

  /** The three placement variants the exchange serves. */
  datatype Placement = BannerPlacement | InImagePlacement | VideoPlacement

  /** The variant a `params.placement` value names, if any. */
  function PlacementOf(placement: JsVal): Option<Placement> {
    if placement == Str("banner") then Some(BannerPlacement)
    else if placement == Str("inImage") then Some(InImagePlacement)
    else if placement == Str("video") then Some(VideoPlacement)
    else None
  }

  /** The validity check. Reading `bid.params.placementId` throws when the
      request has no params object; otherwise the answer is a boolean. */
  function IsBidRequestValid(lib: Imports, bid: BidRequest): (r: Completion<bool>)
    ensures r.Throw? <==> IsNullish(bid.params)
    // fails closed: no placement id or no placement, no bid
    ensures !IsNullish(bid.params) && !Truthy(Get(bid.params, "placementId")) ==> r == Normal(false)
    ensures !IsNullish(bid.params) && !Truthy(Get(bid.params, "placement")) ==> r == Normal(false)
    // an in-image placement without an image URL is refused
    ensures Get(bid.params, "placement") == Str("inImage") && !Truthy(Get(bid.params, "imageUrl")) ==>
              r == Normal(false)
    // a video placement without the mandatory video parameters is refused
    ensures Get(bid.params, "placement") == Str("video") && !lib.hasVideoMandatoryParams(bid.mediaTypes) ==>
              r == Normal(false)
    // only the three known placement names are ever accepted
    ensures r == Normal(true) ==> PlacementOf(Get(bid.params, "placement")).Some?
  {
    if IsNullish(bid.params) then Throw
    else
      var params := bid.params;
      Normal(
        Truthy(Get(params, "placementId")) &&
        Truthy(Get(params, "placement")) &&
        (
          (lib.getMediaTypeFromBid(bid) == Str(Banner) && Get(params, "placement") == Str("banner")) ||
          (lib.getMediaTypeFromBid(bid) == Str(Banner) && Get(params, "placement") == Str("inImage") &&
           Truthy(Get(params, "imageUrl"))) ||
          (lib.getMediaTypeFromBid(bid) == Str(Video) && Get(params, "placement") == Str("video") &&
           lib.hasVideoMandatoryParams(bid.mediaTypes))
        ))
  }

  /** Validity, restated by variant: a request is valid exactly when it has a
      placement id, names one of the three variants, its media type is the
      one that variant is delivered as, and the variant's own requirement
      (an image URL, or the mandatory video parameters) holds. */
  lemma ValidExactlyForKnownVariants(lib: Imports, bid: BidRequest)
    requires !IsNullish(bid.params)
    ensures IsBidRequestValid(lib, bid) == Normal(true) <==>
      var p := PlacementOf(Get(bid.params, "placement"));
      && Truthy(Get(bid.params, "placementId"))
      && p.Some?
      && lib.getMediaTypeFromBid(bid) == Str(PlacementMediaType(Get(bid.params, "placement")))
      && (p.value == InImagePlacement ==> Truthy(Get(bid.params, "imageUrl")))
      && (p.value == VideoPlacement ==> lib.hasVideoMandatoryParams(bid.mediaTypes))
  {
  }
}
