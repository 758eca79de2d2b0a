/** An order record of the store (property/orders/models.py). */
module OrderModels {
  import opened Wrappers
  import opened Text

  /** The USPS tracking page; the tracking number is appended to it. */
  const TrackingUrlPrefix := "https://tools.usps.com/go/TrackConfirmAction?tLabels="

  datatype Order = Order(
    customerName: string,
    email: string,
    orderNumber: string,
    productsOrdered: seq<string>,
    status: string,
    trackingNumber: Option<string>)
  {
    /** `has_tracking`: a tracking number is present, even an empty one. */
    predicate HasTracking() {
      trackingNumber.Some?
    }

    /**
     * `get_tracking_url`: no URL when the tracking number is missing or empty; otherwise
     * the USPS page, from which the tracking number can be read back.
     */
    function TrackingUrl(): (url: Option<string>)
      ensures url.None? <==> (trackingNumber.None? || trackingNumber.value == "")
      ensures url.Some? ==> StartsWith(url.value, TrackingUrlPrefix)
      ensures url.Some? ==> url.value[|TrackingUrlPrefix|..] == trackingNumber.value
      ensures url.Some? ==> Contains(url.value, trackingNumber.value)
    {
      if trackingNumber.None? || trackingNumber.value == "" then None
      else
        ContainsSuffix(TrackingUrlPrefix, trackingNumber.value);
        Some(TrackingUrlPrefix + trackingNumber.value)
    }
  }

  /**
   * The two checks disagree on an empty tracking number: the order counts as tracked,
   * yet has no tracking URL.
   */
  lemma EmptyTrackingNumberHasNoUrl(o: Order)
    requires o.trackingNumber == Some("")
    ensures o.HasTracking() && o.TrackingUrl() == None
  {
  }
}
