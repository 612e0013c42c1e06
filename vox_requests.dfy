/** `buildBidRequests` and `spec.buildRequests`: one batched POST request
    carrying a line item per bid request, the floor of each, and the GDPR
    consent of the auction. */
module VoxRequests {
  import opened Js
  import opened VoxTypes

  /** The argument handed to `bid.getFloor`: `{currency: currency || 'USD'}`,
      where `currency` is the one the auction settles in. */
  function FloorQuery(lib: Imports, bidderRequest: BidderRequest): (q: JsVal)
    ensures q.Obj? && q.props.Keys == {"currency"}
    ensures Truthy(Get(q, "currency"))
    ensures var c := lib.getCurrencyFromBidderRequest(bidderRequest);
            Get(q, "currency") == if Truthy(c) then c else Str("USD")
  {
    Obj(map["currency" := Or(lib.getCurrencyFromBidderRequest(bidderRequest), Str("USD"))])
  }

  /** `floorInfo`: the empty object when the bid cannot be asked for a floor,
      otherwise whatever its floor query answers. */
  function FloorInfo(lib: Imports, bid: BidRequest, bidderRequest: BidderRequest): JsVal {
    match bid.getFloor
    case None => Obj(map[])
    case Some(getFloor) => getFloor(FloorQuery(lib, bidderRequest))
  }

  /** The line item for one bid request; reading `params.placement` throws
      when the request has no params object. */
  function LineItemOf(lib: Imports, bid: BidRequest, bidderRequest: BidderRequest): Completion<LineItem> {
    var floorInfo := FloorInfo(lib, bid, bidderRequest);
    var params := bid.params;
    if IsNullish(params) then Throw
    else
      Normal(LineItem(
        floorInfo := floorInfo,
        schain := Get(Get(Get(bid.ortb2, "source"), "ext"), "schain"),
        userId := bid.userId,
        bidId := bid.bidId,
        transactionId := bid.transactionId,
        sizes := bid.sizes,
        placement := Get(params, "placement"),
        placeId := Get(params, "placementId"),
        imageUrl := Get(params, "imageUrl")))
  }

  /** The line items of all bid requests, in order. */
  function BuildBidRequests(lib: Imports, bids: seq<BidRequest>, bidderRequest: BidderRequest)
    : (r: Completion<seq<LineItem>>)
    ensures r.Normal? <==> forall i :: 0 <= i < |bids| ==> !IsNullish(bids[i].params)
    ensures r.Normal? ==> |r.value| == |bids|
    decreases |bids|
  {
    if bids == [] then Normal([])
    else
      var head :- LineItemOf(lib, bids[0], bidderRequest);
      var tail :- BuildBidRequests(lib, bids[1..], bidderRequest);
      Normal([head] + tail)
  }

  /** Line item i is built from bid request i alone: ids, sizes and user ids
      are copied from the request, placement, place id and image URL from its
      params, the supply chain from `ortb2.source.ext.schain` verbatim, and
      the floor as `FloorInfo` says. */
  lemma {:induction false} LineItemsCopyBids(
    lib: Imports, bids: seq<BidRequest>, bidderRequest: BidderRequest, i: nat)
    requires BuildBidRequests(lib, bids, bidderRequest).Normal?
    requires i < |bids|
    ensures var item := BuildBidRequests(lib, bids, bidderRequest).value[i];
      && item.bidId == bids[i].bidId
      && item.transactionId == bids[i].transactionId
      && item.sizes == bids[i].sizes
      && item.userId == bids[i].userId
      && item.placement == Get(bids[i].params, "placement")
      && item.placeId == Get(bids[i].params, "placementId")
      && item.imageUrl == Get(bids[i].params, "imageUrl")
      && item.schain == Get(Get(Get(bids[i].ortb2, "source"), "ext"), "schain")
      && item.floorInfo == FloorInfo(lib, bids[i], bidderRequest)
    decreases |bids|
  {
    assert !IsNullish(bids[0].params);
    if i > 0 {
      assert bids[1..][i - 1] == bids[i];
      LineItemsCopyBids(lib, bids[1..], bidderRequest, i - 1);
    }
  }

  /** The request descriptor: the line items in one JSON body posted to the
      exchange, with the page URL and, when the auction carries a consent
      object, the consent signal (`cmp`), `gdprApplies` as `ga` when it is
      defined, and the consent string as `cs`. */
  method BuildRequests(lib: Imports, validBidRequests: seq<BidRequest>, bidderRequest: BidderRequest)
    returns (r: Completion<ServerRequest>)
    ensures r.Throw? <==>
      IsNullish(bidderRequest.refererInfo) || BuildBidRequests(lib, validBidRequests, bidderRequest).Throw?
    ensures r.Normal? ==>
      && r.value.httpMethod == "POST"
      && r.value.url == SspEndpoint
      && r.value.options.contentType == "application/json"
      && r.value.data.url == Get(bidderRequest.refererInfo, "page")
      && r.value.data.bidRequests == BuildBidRequests(lib, validBidRequests, bidderRequest).value
    ensures r.Normal? ==> (r.value.data.cmp <==> Truthy(bidderRequest.gdprConsent))
    ensures r.Normal? && !r.value.data.cmp ==> r.value.data.ga.None? && r.value.data.cs.None?
    ensures r.Normal? && r.value.data.cmp ==>
      var consent := bidderRequest.gdprConsent;
      && r.value.data.cs == Some(Get(consent, "consentString"))
      && (r.value.data.ga.Some? <==> Get(consent, "gdprApplies") != Undefined)
      && (r.value.data.ga.Some? ==> r.value.data.ga.value == Get(consent, "gdprApplies"))
  {
    var url :- Read(bidderRequest.refererInfo, "page");
    var items :- BuildBidRequests(lib, validBidRequests, bidderRequest);
    var payload := Payload(
      url := url,
      cmp := Truthy(bidderRequest.gdprConsent),
      bidRequests := items,
      ga := None,
      cs := None);

    if payload.cmp {
      var gdprApplies := Get(bidderRequest.gdprConsent, "gdprApplies");
      if gdprApplies != Undefined {
        payload := payload.(ga := Some(gdprApplies));
      }
      payload := payload.(cs := Some(Get(bidderRequest.gdprConsent, "consentString")));
    }

    r := Normal(ServerRequest(
      httpMethod := "POST",
      url := SspEndpoint,
      data := payload,
      options := RequestOptions(contentType := "application/json")));
  }
}
