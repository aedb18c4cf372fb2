// The order page's component state as a mutable object. Each field is one
// piece of state the page updates through its setters; each method is one
// gesture, written as the page performs it (check what the rendered control
// and the handler check, then assign fields), and proved to move the object
// exactly as `Negotiation.Apply` moves the abstract order.

module Session {
  import opened Types
  import N = Negotiation

  class OrderDetail {
    var status: TransactionStatus
    var offerPrice: real
    var serviceMode: ServiceMode
    var handoverMethod: HandoverMethod
    var agreements: N.Agreements
    var counterPrice: real
    var rejectReason: string
    var modifyingPrice: real

    /** The abstract order these fields hold. */
    function State(): N.Order
      reads this
    {
      N.Order(status, offerPrice, serviceMode, handoverMethod, agreements,
              counterPrice, rejectReason, modifyingPrice)
    }

    ghost predicate Valid()
      reads this
    {
      N.Inv(State())
    }

    /** The page opens on a draft of the listing price under the WM service. */
    constructor ()
      ensures State() == N.Initial() && Valid()
    {
      status := DraftOffer;
      offerPrice := N.ListingPrice;
      serviceMode := Wm;
      handoverMethod := WmCenter;
      agreements := N.Agreements(false, false);
      modifyingPrice := 0.0;
      counterPrice := 0.0;
      rejectReason := "";
    }

    // -------------------------------------------------------------------
    // The draft form (shown only while the status is `draft_offer`)

    method EditOfferPrice(role: UserRole, price: real) returns (ok: bool)
      requires Valid()
      modifies this
      ensures Valid()
      ensures ok == N.Enabled(old(State()), role, N.EditOfferPrice(price))
      ensures State() == N.Apply(old(State()), role, N.EditOfferPrice(price))
      ensures ok ==> offerPrice == price
    {
      ok := status == DraftOffer;
      if ok {
        offerPrice := price;
      }
      N.ApplyPreservesInv(old(State()), role, N.EditOfferPrice(price));
    }

    /** Selecting a service mode; when it changes, the effect resets the
        handover method to match it. */
    method SelectServiceMode(role: UserRole, mode: ServiceMode) returns (ok: bool)
      requires Valid()
      modifies this
      ensures Valid()
      ensures ok == N.Enabled(old(State()), role, N.SelectServiceMode(mode))
      ensures State() == N.Apply(old(State()), role, N.SelectServiceMode(mode))
      ensures ok ==> serviceMode == mode
      ensures ok && mode == Direct ==> handoverMethod == SelfArranged
      ensures ok && old(serviceMode) == Direct && mode == Wm ==> handoverMethod == WmCenter
    {
      ok := status == DraftOffer;
      if ok && mode != serviceMode {
        serviceMode := mode;
        if serviceMode == Direct {
          handoverMethod := SelfArranged;
        } else {
          handoverMethod := WmCenter;
        }
      }
      N.ApplyPreservesInv(old(State()), role, N.SelectServiceMode(mode));
    }

    /** The office button is disabled under direct dealing. */
    method SelectHandover(role: UserRole, handover: HandoverMethod) returns (ok: bool)
      requires Valid()
      modifies this
      ensures Valid()
      ensures ok == N.Enabled(old(State()), role, N.SelectHandover(handover))
      ensures State() == N.Apply(old(State()), role, N.SelectHandover(handover))
      ensures ok <==> old(status) == DraftOffer && !(handover == WmCenter && old(serviceMode) == Direct)
    {
      ok := status == DraftOffer && !(handover == WmCenter && serviceMode == Direct);
      if ok {
        handoverMethod := handover;
      }
      N.ApplyPreservesInv(old(State()), role, N.SelectHandover(handover));
    }

    method ToggleTnc(role: UserRole) returns (ok: bool)
      requires Valid()
      modifies this
      ensures Valid()
      ensures ok == N.Enabled(old(State()), role, N.ToggleTnc)
      ensures State() == N.Apply(old(State()), role, N.ToggleTnc)
      ensures ok ==> agreements.tnc == !old(agreements.tnc)
    {
      ok := status == DraftOffer;
      if ok {
        agreements := agreements.(tnc := !agreements.tnc);
      }
      N.ApplyPreservesInv(old(State()), role, N.ToggleTnc);
    }

    method ToggleShipping(role: UserRole) returns (ok: bool)
      requires Valid()
      modifies this
      ensures Valid()
      ensures ok == N.Enabled(old(State()), role, N.ToggleShipping)
      ensures State() == N.Apply(old(State()), role, N.ToggleShipping)
      ensures ok ==> agreements.shipping == !old(agreements.shipping)
    {
      ok := status == DraftOffer;
      if ok {
        agreements := agreements.(shipping := !agreements.shipping);
      }
      N.ApplyPreservesInv(old(State()), role, N.ToggleShipping);
    }

    /** "Send offer": enabled for a draft with both boxes ticked and a
        positive price, whatever the role; changes only the status. */
    method SubmitOffer(role: UserRole) returns (ok: bool)
      requires Valid()
      modifies this
      ensures Valid()
      ensures ok == N.Enabled(old(State()), role, N.SubmitOffer)
      ensures State() == N.Apply(old(State()), role, N.SubmitOffer)
      ensures ok <==> old(status) == DraftOffer && old(agreements.tnc) && old(agreements.shipping) && old(offerPrice) > 0.0
      ensures ok ==> State() == old(State()).(status := OfferSubmitted)
    {
      var isValid := agreements.tnc && agreements.shipping && offerPrice > 0.0;
      ok := status == DraftOffer && isValid;
      if ok {
        status := OfferSubmitted;
      }
      N.ApplyPreservesInv(old(State()), role, N.SubmitOffer);
    }

    // -------------------------------------------------------------------
    // Buyer actions

    /** "Modify offer" opens the dialog with the current offer filled in. */
    method OpenModify(role: UserRole) returns (ok: bool)
      requires Valid()
      modifies this
      ensures Valid()
      ensures ok == N.Enabled(old(State()), role, N.OpenModify)
      ensures State() == N.Apply(old(State()), role, N.OpenModify)
      ensures ok ==> modifyingPrice == offerPrice
    {
      ok := role == Buyer && status == OfferSubmitted;
      if ok {
        modifyingPrice := offerPrice;
      }
      N.ApplyPreservesInv(old(State()), role, N.OpenModify);
    }

    method EditModifyingPrice(role: UserRole, price: real) returns (ok: bool)
      requires Valid()
      modifies this
      ensures Valid()
      ensures ok == N.Enabled(old(State()), role, N.EditModifyingPrice(price))
      ensures State() == N.Apply(old(State()), role, N.EditModifyingPrice(price))
    {
      ok := role == Buyer && status == OfferSubmitted;
      if ok {
        modifyingPrice := price;
      }
      N.ApplyPreservesInv(old(State()), role, N.EditModifyingPrice(price));
    }

    /** Confirming the modification raises the offer when the new price is
        strictly higher; the status never changes. */
    method ConfirmModify(role: UserRole) returns (ok: bool)
      requires Valid()
      modifies this
      ensures Valid()
      ensures ok == N.Enabled(old(State()), role, N.ConfirmModify)
      ensures State() == N.Apply(old(State()), role, N.ConfirmModify)
      ensures status == old(status) && offerPrice >= old(offerPrice)
      ensures ok ==> offerPrice == old(modifyingPrice) > old(offerPrice)
    {
      var isPriceValid := modifyingPrice > offerPrice;
      ok := role == Buyer && status == OfferSubmitted && isPriceValid;
      if ok {
        offerPrice := modifyingPrice;
      }
      N.ApplyPreservesInv(old(State()), role, N.ConfirmModify);
    }

    /** The buyer's cancel button shows for a submitted or countered offer. */
    method ConfirmCancel(role: UserRole) returns (ok: bool)
      requires Valid()
      modifies this
      ensures Valid()
      ensures ok == N.Enabled(old(State()), role, N.ConfirmCancel)
      ensures State() == N.Apply(old(State()), role, N.ConfirmCancel)
      ensures ok <==> role == Buyer && old(status) in {OfferSubmitted, OfferCountered}
      ensures ok ==> status == Cancelled
    {
      ok := role == Buyer && (status == OfferSubmitted || status == OfferCountered);
      if ok {
        status := Cancelled;
      }
      N.ApplyPreservesInv(old(State()), role, N.ConfirmCancel);
    }

    // -------------------------------------------------------------------
    // Seller actions

    method SellerAccept(role: UserRole) returns (ok: bool)
      requires Valid()
      modifies this
      ensures Valid()
      ensures ok == N.Enabled(old(State()), role, N.SellerAccept)
      ensures State() == N.Apply(old(State()), role, N.SellerAccept)
      ensures ok <==> role == Seller && old(status) == OfferSubmitted
      ensures ok ==> status == PaymentPending
    {
      ok := role == Seller && status == OfferSubmitted;
      if ok {
        status := PaymentPending;
      }
      N.ApplyPreservesInv(old(State()), role, N.SellerAccept);
    }

    /** "Counter" opens the dialog with the buyer's offer filled in. */
    method OpenCounter(role: UserRole) returns (ok: bool)
      requires Valid()
      modifies this
      ensures Valid()
      ensures ok == N.Enabled(old(State()), role, N.OpenCounter)
      ensures State() == N.Apply(old(State()), role, N.OpenCounter)
      ensures ok ==> counterPrice == offerPrice
    {
      ok := role == Seller && status == OfferSubmitted;
      if ok {
        counterPrice := offerPrice;
      }
      N.ApplyPreservesInv(old(State()), role, N.OpenCounter);
    }

    method EditCounterPrice(role: UserRole, price: real) returns (ok: bool)
      requires Valid()
      modifies this
      ensures Valid()
      ensures ok == N.Enabled(old(State()), role, N.EditCounterPrice(price))
      ensures State() == N.Apply(old(State()), role, N.EditCounterPrice(price))
    {
      ok := role == Seller && status == OfferSubmitted;
      if ok {
        counterPrice := price;
      }
      N.ApplyPreservesInv(old(State()), role, N.EditCounterPrice(price));
    }

    /** Sending a positive counter writes it into the offer slot. */
    method SellerCounter(role: UserRole) returns (ok: bool)
      requires Valid()
      modifies this
      ensures Valid()
      ensures ok == N.Enabled(old(State()), role, N.SellerCounter)
      ensures State() == N.Apply(old(State()), role, N.SellerCounter)
      ensures ok <==> role == Seller && old(status) == OfferSubmitted && old(counterPrice) > 0.0
      ensures ok ==> status == OfferCountered && offerPrice == old(counterPrice)
    {
      ok := role == Seller && status == OfferSubmitted && counterPrice > 0.0;
      if ok {
        offerPrice := counterPrice;
        status := OfferCountered;
      }
      N.ApplyPreservesInv(old(State()), role, N.SellerCounter);
    }

    /** Picking one of the radio-button reasons in the reject dialog. */
    method SelectRejectReason(role: UserRole, reason: string) returns (ok: bool)
      requires Valid()
      modifies this
      ensures Valid()
      ensures ok == N.Enabled(old(State()), role, N.SelectRejectReason(reason))
      ensures State() == N.Apply(old(State()), role, N.SelectRejectReason(reason))
      ensures ok ==> rejectReason == reason
    {
      ok := role == Seller && status == OfferSubmitted && reason in N.RejectReasons;
      if ok {
        rejectReason := reason;
      }
      N.ApplyPreservesInv(old(State()), role, N.SelectRejectReason(reason));
    }

    /** Rejecting is enabled once a reason is chosen. */
    method SellerReject(role: UserRole) returns (ok: bool)
      requires Valid()
      modifies this
      ensures Valid()
      ensures ok == N.Enabled(old(State()), role, N.SellerReject)
      ensures State() == N.Apply(old(State()), role, N.SellerReject)
      ensures ok <==> role == Seller && old(status) == OfferSubmitted && old(rejectReason) != ""
      ensures ok ==> status == Cancelled && rejectReason in N.RejectReasons
    {
      ok := role == Seller && status == OfferSubmitted && rejectReason != "";
      if ok {
        status := Cancelled;
      }
      N.ApplyPreservesInv(old(State()), role, N.SellerReject);
    }

    method RetractCounter(role: UserRole) returns (ok: bool)
      requires Valid()
      modifies this
      ensures Valid()
      ensures ok == N.Enabled(old(State()), role, N.RetractCounter)
      ensures State() == N.Apply(old(State()), role, N.RetractCounter)
      ensures ok <==> role == Seller && old(status) == OfferCountered
      ensures ok ==> status == Cancelled
    {
      ok := role == Seller && status == OfferCountered;
      if ok {
        status := Cancelled;
      }
      N.ApplyPreservesInv(old(State()), role, N.RetractCounter);
    }

    // -------------------------------------------------------------------
    // After cancellation

    /** "Offer again" shows for a cancelled order to either role and only
        resets the status; the old price, boxes and reason stay. */
    method ReOffer(role: UserRole) returns (ok: bool)
      requires Valid()
      modifies this
      ensures Valid()
      ensures ok == N.Enabled(old(State()), role, N.ReOffer)
      ensures State() == N.Apply(old(State()), role, N.ReOffer)
      ensures ok <==> old(status) == Cancelled
      ensures ok ==> State() == old(State()).(status := DraftOffer)
    {
      ok := status == Cancelled;
      if ok {
        status := DraftOffer;
      }
      N.ApplyPreservesInv(old(State()), role, N.ReOffer);
    }
  }
}
