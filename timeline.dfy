// The order page's event timeline: events are pushed oldest first and the
// list is shown reversed, so the newest event is at the top.

module Timeline {
  import opened Types
  import Negotiation

  /** What an event says. The first event quotes the listing price. */
  datatype EventKind =
    | OfferPlaced(price: real)     // the buyer made an offer
    | SellerRejected               // the seller rejected (a reason is set)
    | OrderCancelled               // seen by the seller, no reason set
    | BuyerCancelled               // seen by the buyer
    | SellerAccepted               // awaiting the buyer's payment
    | SellerCountered(price: real) // the seller's counter price

  /** An event; `highlight` marks the cancellation event. */
  datatype TimelineEvent = TimelineEvent(kind: EventKind, highlight: bool)

  /** The elements of `s` in the opposite order. */
  function Reverse<T>(s: seq<T>): (r: seq<T>)
    ensures |r| == |s|
    ensures forall i :: 0 <= i < |s| ==> r[i] == s[|s| - 1 - i]
  {
    if s == [] then [] else Reverse(s[1..]) + [s[0]]
  }

  /** Reversing twice gives the original order back. */
  lemma {:induction false} ReverseReverse<T>(s: seq<T>)
    ensures Reverse(Reverse(s)) == s
  {
    var r := Reverse(Reverse(s));
    forall i | 0 <= i < |s|
      ensures r[i] == s[i]
    {
      assert Reverse(s)[|s| - 1 - i] == s[i];
    }
  }

  /** The events shown for a status, newest first; none while drafting. */
  method BuildTimeline(status: TransactionStatus, role: UserRole, rejectReason: string, offerPrice: real)
    returns (displayEvents: seq<TimelineEvent>)
    ensures status == DraftOffer ==> displayEvents == []
    ensures status != DraftOffer ==>
      1 <= |displayEvents| <= 2 &&
      displayEvents[|displayEvents| - 1] == TimelineEvent(OfferPlaced(Negotiation.ListingPrice), false)
    ensures |displayEvents| == 2 <==> status in {Cancelled, PaymentPending, OfferCountered}
    ensures status == Cancelled && role == Buyer ==> displayEvents[0] == TimelineEvent(BuyerCancelled, true)
    ensures status == Cancelled && role == Seller && rejectReason != "" ==>
      displayEvents[0] == TimelineEvent(SellerRejected, true)
    ensures status == Cancelled && role == Seller && rejectReason == "" ==>
      displayEvents[0] == TimelineEvent(OrderCancelled, true)
    ensures status == PaymentPending ==> displayEvents[0] == TimelineEvent(SellerAccepted, false)
    ensures status == OfferCountered ==> displayEvents[0] == TimelineEvent(SellerCountered(offerPrice), false)
    ensures forall i :: 0 <= i < |displayEvents| ==>
      (displayEvents[i].highlight <==> i == 0 && status == Cancelled)
  {
    if status == DraftOffer {
      return [];
    }
    var events: seq<TimelineEvent> := [];
    events := events + [TimelineEvent(OfferPlaced(Negotiation.ListingPrice), false)];
    if status == Cancelled {
      var kind := if role == Seller then (if rejectReason != "" then SellerRejected else OrderCancelled)
                  else BuyerCancelled;
      events := events + [TimelineEvent(kind, true)];
    }
    if status == PaymentPending {
      events := events + [TimelineEvent(SellerAccepted, false)];
    }
    if status == OfferCountered {
      events := events + [TimelineEvent(SellerCountered(offerPrice), false)];
    }
    displayEvents := Reverse(events);
  }
}
