/** `spec.interpretResponse`: each wire bid of the exchange's answer is
    matched with the line item of its `bidId`, takes that line item's
    placement, transaction id and place id, and becomes one canonical bid. */
module VoxResponses {
  import opened Js
  import opened VoxTypes
  import opened VoxRequests
  import opened VoxBid
  import opened VoxValidity

  /** The guard of the interpreter: the wire bids when the response has a
      truthy body whose truthy `bids` is an array, `None` otherwise.
      Reading `serverResponse.body` throws when there is no response object. */
  function WireBids(serverResponse: JsVal): (r: Completion<Option<seq<JsVal>>>)
    ensures r.Throw? <==> IsNullish(serverResponse)
    ensures r.Normal? ==>
      (r.value.Some? <==> Get(Get(serverResponse, "body"), "bids").Arr?)
    ensures r.Normal? && r.value.Some? ==>
      Get(Get(serverResponse, "body"), "bids") == Arr(r.value.value)
  {
    var body :- Read(serverResponse, "body");
    if Truthy(body) && Truthy(Get(body, "bids")) && Get(body, "bids").Arr? then
      Normal(Some(Get(body, "bids").items))
    else
      Normal(None)
  }

  /** The empty response object, a response without a body, an empty body
      and a body with no bids all mean that the exchange did not bid. */
  lemma EmptyResponsesMeanNoBids()
    ensures WireBids(Obj(map[])) == Normal(None)
    ensures WireBids(Obj(map["body" := Undefined])) == Normal(None)
    ensures WireBids(Obj(map["body" := Obj(map[])])) == Normal(None)
    ensures WireBids(Obj(map["body" := Obj(map["bids" := Arr([])])])) == Normal(Some([]))
  {
  }

  /** `bidRequests.find(item => item.bidId === id)`, as the position of the
      first line item whose bid id is id. */
  function FirstMatch(items: seq<LineItem>, id: JsVal): (k: Option<nat>)
    ensures k.Some? ==> k.value < |items| && StrictEquals(items[k.value].bidId, id)
    ensures k.Some? ==> forall j :: 0 <= j < k.value ==> !StrictEquals(items[j].bidId, id)
    ensures k.None? ==> forall j :: 0 <= j < |items| ==> !StrictEquals(items[j].bidId, id)
  {
    if items == [] then None
    else if StrictEquals(items[0].bidId, id) then Some(0)
    else
      match FirstMatch(items[1..], id)
      case None => None
      case Some(k) => Some(k + 1)
  }

  /** The wire bid after the interpreter has written its line item's
      placement, transaction id and place id onto it. Reading `bid.bidId`
      throws for a missing wire bid, reading `rawBid.placement` throws when no
      line item has the bid's id, and the writes throw on a primitive. */
  ghost function Reassociated(items: seq<LineItem>, w: JsVal): Completion<JsVal> {
    if IsNullish(w) then Throw
    else
      match FirstMatch(items, Get(w, "bidId"))
      case None => Throw
      case Some(k) =>
        var w1 :- Write(w, "placement", items[k].placement);
        var w2 :- Write(w1, "transactionId", items[k].transactionId);
        Write(w2, "placeId", items[k].placeId)
  }

  /** The interpreter gets through wire bid w. */
  ghost predicate Interpretable(items: seq<LineItem>, w: JsVal) {
    Reassociated(items, w).Normal? && BuildBidCompletes(Reassociated(items, w).value)
  }

  /** b is what the interpreter makes of wire bid w. */
  ghost predicate Interprets(lib: Imports, items: seq<LineItem>, w: JsVal, b: Bid) {
    Interpretable(items, w) && IsCanonicalBid(lib, Reassociated(items, w).value, b)
  }

  /** The interpreter. No bids when the response is empty or malformed;
      otherwise one canonical bid per wire bid, in order, each re-associated
      with its line item by bid id; it throws exactly when some wire bid
      cannot be interpreted (most notably, one whose id matches no line
      item). */
  method InterpretResponse(lib: Imports, serverResponse: JsVal, bidRequest: ServerRequest)
    returns (r: Completion<seq<Bid>>)
    ensures WireBids(serverResponse).Throw? ==> r.Throw?
    ensures WireBids(serverResponse) == Normal(None) ==> r == Normal([])
    ensures WireBids(serverResponse).Normal? && WireBids(serverResponse).value.Some? ==>
      var ws := WireBids(serverResponse).value.value;
      var items := bidRequest.data.bidRequests;
      && (r.Normal? <==> forall i :: 0 <= i < |ws| ==> Interpretable(items, ws[i]))
      && (r.Normal? ==> |r.value| == |ws|)
      && (r.Normal? ==> forall i :: 0 <= i < |ws| ==> Interprets(lib, items, ws[i], r.value[i]))
  {
    var bidRequests := bidRequest.data.bidRequests;
    var serverBody :- Read(serverResponse, "body");

    if !(Truthy(serverBody) && Truthy(Get(serverBody, "bids")) && Get(serverBody, "bids").Arr?) {
      return Normal([]);
    }
    var ws := Get(serverBody, "bids").items;
    var out: seq<Bid> := [];
    var i := 0;
    while i < |ws|
      invariant 0 <= i <= |ws|
      invariant |out| == i
      invariant forall j :: 0 <= j < i ==> Interprets(lib, bidRequests, ws[j], out[j])
    {
      var bid := ws[i];
      var bidId :- Read(bid, "bidId");
      var k := FirstMatch(bidRequests, bidId);
      if k.None? {
        // `rawBid` is undefined and reading its placement throws
        return Throw;
      }
      var rawBid := bidRequests[k.value];
      bid :- Write(bid, "placement", rawBid.placement);
      bid :- Write(bid, "transactionId", rawBid.transactionId);
      bid :- Write(bid, "placeId", rawBid.placeId);
      assert Reassociated(bidRequests, ws[i]) == Normal(bid);
      var canonical :- BuildBid(lib, bid);
      out := out + [canonical];
      i := i + 1;
    }
    return Normal(out);
  }

  /** The placement an interpreted bid is built for is its line item's, never
      one the exchange sent: a wire bid that differs only in its `placement`
      is interpreted the same way. */
  lemma PlacementComesFromLineItem(items: seq<LineItem>, props: map<string, JsVal>, p: JsVal)
    ensures Reassociated(items, Obj(props["placement" := p])) == Reassociated(items, Obj(props))
  {
    var w, w' := Obj(props), Obj(props["placement" := p]);
    assert Get(w', "bidId") == Get(w, "bidId");
    match FirstMatch(items, Get(w, "bidId"))
    case None =>
    case Some(k) =>
      assert props["placement" := p]["placement" := items[k].placement] == props["placement" := items[k].placement];
  }

  /** An interpreted bid is correlated with the first line item carrying its
      wire bid's id: its request id is that line item's bid id, and its media
      type is the one that line item's placement is delivered as. */
  lemma InterpretedBidCorrelates(lib: Imports, items: seq<LineItem>, w: JsVal, b: Bid)
    requires Interprets(lib, items, w, b)
    ensures FirstMatch(items, Get(w, "bidId")).Some?
    ensures var k := FirstMatch(items, Get(w, "bidId")).value;
      && b.requestId == items[k].bidId
      && b.mediaType == PlacementMediaType(items[k].placement)
    ensures WellFormedBid(b)
  {
  }

  /** The correlation invariant: when the descriptor was built from bids,
      the line item that a canonical bid was matched with is the one built
      from the bid request at the same position, so the bid's request id is
      that request's bid id and its media type follows that request's
      placement. */
  lemma CanonicalBidTracesToRequest(
    lib: Imports, bids: seq<BidRequest>, bidderRequest: BidderRequest, w: JsVal, b: Bid)
    requires BuildBidRequests(lib, bids, bidderRequest).Normal?
    requires Interprets(lib, BuildBidRequests(lib, bids, bidderRequest).value, w, b)
    ensures FirstMatch(BuildBidRequests(lib, bids, bidderRequest).value, Get(w, "bidId")).Some?
    ensures var k := FirstMatch(BuildBidRequests(lib, bids, bidderRequest).value, Get(w, "bidId")).value;
      && k < |bids|
      && b.requestId == bids[k].bidId
      && b.mediaType == PlacementMediaType(Get(bids[k].params, "placement"))
  {
    var items := BuildBidRequests(lib, bids, bidderRequest).value;
    InterpretedBidCorrelates(lib, items, w, b);
    var k := FirstMatch(items, Get(w, "bidId")).value;
    LineItemsCopyBids(lib, bids, bidderRequest, k);
  }

  /** A valid bid request keeps its media type through the round trip: its
      line item's placement is delivered as the media type the library
      reported for the request. */
  lemma ValidRequestKeepsMediaType(
    lib: Imports, bids: seq<BidRequest>, bidderRequest: BidderRequest, k: nat)
    requires BuildBidRequests(lib, bids, bidderRequest).Normal?
    requires k < |bids| && IsBidRequestValid(lib, bids[k]) == Normal(true)
    ensures Str(PlacementMediaType(BuildBidRequests(lib, bids, bidderRequest).value[k].placement))
            == lib.getMediaTypeFromBid(bids[k])
  {
    LineItemsCopyBids(lib, bids, bidderRequest, k);
  }
}
