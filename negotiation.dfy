// The offer negotiation of one order as a pure transition system.
//
// An `Order` holds what the order page keeps in component state; an
// `Action` is one user gesture (a form input, a button, a dialog's confirm
// button). The handlers themselves check almost nothing: an action takes
// effect only when the control that triggers it is rendered and enabled for
// the viewer's role and the current status, and only if the handler's own
// check passes. `Enabled` states exactly that condition; `Apply` performs the
// action when it holds and leaves the order unchanged otherwise.

module Negotiation {
  import opened Types

  /** The two check boxes of the draft form. */
  datatype Agreements = Agreements(tnc: bool, shipping: bool)

  /** The page's negotiation state. `offerPrice` is the single price slot,
      which a seller's counter overwrites. */
  datatype Order = Order(
    status: TransactionStatus,
    offerPrice: real,
    serviceMode: ServiceMode,
    handoverMethod: HandoverMethod,
    agreements: Agreements,
    counterPrice: real,
    rejectReason: string,
    modifyingPrice: real)

  /** List price of the product on the page; the draft offer starts here. */
  const ListingPrice: real := 250000.0

  /** The reasons the reject dialog offers as radio buttons. */
  const RejectReasons: seq<string> := ["價格過低", "商品已售出/保留", "暫時不想出售", "其他原因"]

  /** State when the page opens: a draft at the listing price that already
      satisfies the invariant. */
  function Initial(): (r: Order)
    ensures Inv(r)
    ensures r.status == DraftOffer && r.offerPrice == ListingPrice
  {
    Order(DraftOffer, ListingPrice, Wm, WmCenter, Agreements(false, false), 0.0, "", 0.0)
  }

  /** The handover method the service-mode effect installs: self-arranged
      exactly under direct dealing, the office otherwise. */
  function HandoverFor(m: ServiceMode): (r: HandoverMethod)
    ensures r == SelfArranged <==> m == Direct
    ensures r.WmCenter? <==> m.Wm?
  {
    if m == Direct then SelfArranged else WmCenter
  }

  /** One user gesture on the page. */
  datatype Action =
    | EditOfferPrice(price: real)          // draft form price input
    | SelectServiceMode(mode: ServiceMode) // draft form service-mode cards
    | SelectHandover(handover: HandoverMethod) // draft form handover buttons
    | ToggleTnc                            // terms check box
    | ToggleShipping                       // duties and shipping-risk check box
    | SubmitOffer                          // "send offer" in the bottom bar
    | OpenModify                           // "modify offer": opens the dialog seeded with the offer
    | EditModifyingPrice(price: real)      // modify dialog price input
    | ConfirmModify                        // modify dialog confirm
    | ConfirmCancel                        // buyer cancel dialog confirm
    | SellerAccept                         // accept dialog confirm
    | OpenCounter                          // "counter": opens the dialog seeded with the offer
    | EditCounterPrice(price: real)        // counter dialog price input
    | SellerCounter                        // counter dialog confirm
    | SelectRejectReason(reason: string)   // reject dialog radio buttons
    | SellerReject                         // reject dialog confirm
    | RetractCounter                       // retract dialog confirm
    | ReOffer                              // "offer again" in the bottom bar

  /** Whether the gesture's control is shown and enabled and the handler's own
      check passes. */
  predicate Enabled(o: Order, role: UserRole, a: Action)
    ensures Enabled(o, role, a) ==> o.status in {DraftOffer, OfferSubmitted, OfferCountered, Cancelled}
    ensures Enabled(o, role, a) && o.status == OfferCountered ==>
      (role == Buyer && a == ConfirmCancel) || (role == Seller && a == RetractCounter)
    ensures Enabled(o, role, a) && o.status == Cancelled ==> a == ReOffer
  {
    match a
    case EditOfferPrice(_) => o.status == DraftOffer
    case SelectServiceMode(_) => o.status == DraftOffer
    case SelectHandover(h) => o.status == DraftOffer && !(h == WmCenter && o.serviceMode == Direct)
    case ToggleTnc => o.status == DraftOffer
    case ToggleShipping => o.status == DraftOffer
    case SubmitOffer =>
      o.status == DraftOffer && o.agreements.tnc && o.agreements.shipping && o.offerPrice > 0.0
    case OpenModify => role == Buyer && o.status == OfferSubmitted
    case EditModifyingPrice(_) => role == Buyer && o.status == OfferSubmitted
    case ConfirmModify => role == Buyer && o.status == OfferSubmitted && o.modifyingPrice > o.offerPrice
    case ConfirmCancel => role == Buyer && (o.status == OfferSubmitted || o.status == OfferCountered)
    case SellerAccept => role == Seller && o.status == OfferSubmitted
    case OpenCounter => role == Seller && o.status == OfferSubmitted
    case EditCounterPrice(_) => role == Seller && o.status == OfferSubmitted
    case SellerCounter => role == Seller && o.status == OfferSubmitted && o.counterPrice > 0.0
    case SelectRejectReason(r) => role == Seller && o.status == OfferSubmitted && r in RejectReasons
    case SellerReject => role == Seller && o.status == OfferSubmitted && o.rejectReason != ""
    case RetractCounter => role == Seller && o.status == OfferCountered
    case ReOffer => o.status == Cancelled
  }

  /** The order after `role` performs `a`; a gesture that is not enabled
      changes nothing. */
  function Apply(o: Order, role: UserRole, a: Action): (r: Order)
    ensures r != o ==> Enabled(o, role, a)
    ensures r.status == o.status || StatusEdge(o.status, r.status)
  {
    if !Enabled(o, role, a) then o
    else
      match a
      case EditOfferPrice(p) => o.(offerPrice := p)
      case SelectServiceMode(m) =>
        // the effect runs only when the selected mode actually changes
        if m == o.serviceMode then o else o.(serviceMode := m, handoverMethod := HandoverFor(m))
      case SelectHandover(h) => o.(handoverMethod := h)
      case ToggleTnc => o.(agreements := o.agreements.(tnc := !o.agreements.tnc))
      case ToggleShipping => o.(agreements := o.agreements.(shipping := !o.agreements.shipping))
      case SubmitOffer => o.(status := OfferSubmitted)
      case OpenModify => o.(modifyingPrice := o.offerPrice)
      case EditModifyingPrice(p) => o.(modifyingPrice := p)
      case ConfirmModify => o.(offerPrice := o.modifyingPrice)
      case ConfirmCancel => o.(status := Cancelled)
      case SellerAccept => o.(status := PaymentPending)
      case OpenCounter => o.(counterPrice := o.offerPrice)
      case EditCounterPrice(p) => o.(counterPrice := p)
      case SellerCounter => o.(offerPrice := o.counterPrice, status := OfferCountered)
      case SelectRejectReason(r) => o.(rejectReason := r)
      case SellerReject => o.(status := Cancelled)
      case RetractCounter => o.(status := Cancelled)
      case ReOffer => o.(status := DraftOffer)
  }

  /** One gesture by one viewer. */
  datatype Step = Step(role: UserRole, action: Action)

  /** The order after a sequence of gestures. */
  function Run(o: Order, steps: seq<Step>): Order
    decreases |steps|
  {
    if steps == [] then o else Run(Apply(o, steps[0].role, steps[0].action), steps[1..])
  }

  /** What the page keeps true in every state its controls can reach. */
  predicate Inv(o: Order)
  {
    (o.serviceMode == Direct ==> o.handoverMethod == SelfArranged) &&
    (o.status != DraftOffer ==> o.offerPrice > 0.0) &&
    o.status in {DraftOffer, OfferSubmitted, OfferCountered, PaymentPending, Cancelled} &&
    (o.rejectReason == "" || o.rejectReason in RejectReasons)
  }

  /** The status changes the gestures can make. */
  predicate StatusEdge(from: TransactionStatus, to: TransactionStatus)
  {
    (from == DraftOffer && to == OfferSubmitted) ||
    (from == OfferSubmitted && (to == PaymentPending || to == OfferCountered || to == Cancelled)) ||
    (from == OfferCountered && to == Cancelled) ||
    (from == Cancelled && to == DraftOffer)
  }

  /** The button set of the sticky bottom bar. */
  datatype BottomBar =
    | SubmitBar(enabled: bool) // "send offer", enabled only for a complete draft
    | ModifyBar                // buyer: "modify offer"
    | SellerResponseBar        // seller: reject / counter / accept
    | RetractBar               // seller: "retract counter"
    | ReOfferBar               // "offer again"
    | WaitingBar               // a disabled "waiting for update" button

  /** The bottom bar for a viewer, chosen by the first matching branch. */
  function BottomBarFor(o: Order, role: UserRole): (r: BottomBar)
    ensures r.SubmitBar? <==> o.status == DraftOffer
    ensures r == SubmitBar(true) <==> Enabled(o, role, SubmitOffer)
    ensures r == ReOfferBar <==> o.status == Cancelled
    ensures r == WaitingBar <==>
      o.status != DraftOffer && o.status != OfferSubmitted && o.status != Cancelled &&
      (role == Buyer || o.status != OfferCountered)
  {
    if o.status == DraftOffer then
      SubmitBar(o.agreements.tnc && o.agreements.shipping && o.offerPrice > 0.0)
    else if role == Buyer && o.status == OfferSubmitted then ModifyBar
    else if role == Seller && o.status == OfferSubmitted then SellerResponseBar
    else if role == Seller && o.status == OfferCountered then RetractBar
    else if o.status == Cancelled then ReOfferBar
    else
      assert role == Buyer || role == Seller;
      WaitingBar
  }

  // ---------------------------------------------------------------------
  // The invariant

  /** Every gesture keeps the invariant. */
  lemma ApplyPreservesInv(o: Order, role: UserRole, a: Action)
    requires Inv(o)
    ensures Inv(Apply(o, role, a))
  {
  }

  /** Every sequence of gestures keeps the invariant. */
  lemma {:induction false} RunPreservesInv(o: Order, steps: seq<Step>)
    requires Inv(o)
    ensures Inv(Run(o, steps))
    decreases |steps|
  {
    if steps != [] {
      ApplyPreservesInv(o, steps[0].role, steps[0].action);
      RunPreservesInv(Apply(o, steps[0].role, steps[0].action), steps[1..]);
    }
  }

  /** So every state reached from the opening page keeps it: direct dealing
      is always self-arranged, a submitted offer is positive, and no status
      past `payment_pending` is ever reached. */
  lemma ReachableStatesSatisfyInv(steps: seq<Step>)
    ensures Inv(Run(Initial(), steps))
  {
    RunPreservesInv(Initial(), steps);
  }

  // ---------------------------------------------------------------------
  // The status graph

  /** A gesture either keeps the status or moves it along one edge of the
      table; only the buyer's cancel and the status-neutral submit and
      re-offer move it for a buyer, and only the seller's responses move it
      otherwise. */
  lemma StatusMovesAlongTable(o: Order, role: UserRole, a: Action)
    ensures Apply(o, role, a).status == o.status || StatusEdge(o.status, Apply(o, role, a).status)
    ensures Apply(o, role, a).status != o.status && role == Buyer ==>
      a in {SubmitOffer, ConfirmCancel, ReOffer}
    ensures Apply(o, role, a).status != o.status && role == Seller ==>
      a in {SubmitOffer, SellerAccept, SellerCounter, SellerReject, RetractCounter, ReOffer}
  {
  }

  /** Statuses from `payment_pending` on (apart from `cancelled`) have no
      gesture that changes anything. */
  lemma LaterStatusesAreFrozen(o: Order, role: UserRole, a: Action)
    requires o.status !in {DraftOffer, OfferSubmitted, OfferCountered, Cancelled}
    ensures Apply(o, role, a) == o
  {
  }

  // ---------------------------------------------------------------------
  // The draft form

  /** Selecting direct dealing forces self-arranged handover; selecting the
      WM service restores the office handover; selecting the current mode
      changes nothing. */
  lemma ServiceModeDrivesHandover(o: Order, role: UserRole, m: ServiceMode)
    requires o.status == DraftOffer
    ensures Apply(o, role, SelectServiceMode(m)).serviceMode == m
    ensures m != o.serviceMode ==>
      Apply(o, role, SelectServiceMode(m)) == o.(serviceMode := m, handoverMethod := HandoverFor(m))
    ensures m == o.serviceMode ==> Apply(o, role, SelectServiceMode(m)) == o
    ensures m == Direct ==> Apply(o, role, SelectServiceMode(m)).handoverMethod == SelfArranged || o.serviceMode == Direct
  {
  }

  /** The office handover button is disabled under direct dealing. */
  lemma OfficeHandoverDisabledUnderDirect(o: Order, role: UserRole)
    requires o.serviceMode == Direct
    ensures Apply(o, role, SelectHandover(WmCenter)) == o
  {
  }

  /** Submitting needs a draft with both agreements ticked and a positive
      price, is open to either role, and changes only the status. */
  lemma SubmitOfferSpec(o: Order, role: UserRole)
    ensures Apply(o, role, SubmitOffer) != o <==>
      o.status == DraftOffer && o.agreements.tnc && o.agreements.shipping && o.offerPrice > 0.0
    ensures Apply(o, role, SubmitOffer) != o ==> Apply(o, role, SubmitOffer) == o.(status := OfferSubmitted)
    ensures Apply(o, Buyer, SubmitOffer) == Apply(o, Seller, SubmitOffer)
  {
  }

  // ---------------------------------------------------------------------
  // Buyer actions

  /** Confirming a modification only ever raises the offer, never changes the
      status, and does something exactly for the buyer of a submitted offer
      whose new price is strictly higher. */
  lemma ConfirmModifySpec(o: Order, role: UserRole)
    ensures Apply(o, role, ConfirmModify).status == o.status
    ensures Apply(o, role, ConfirmModify).offerPrice >= o.offerPrice
    ensures Apply(o, role, ConfirmModify) != o <==>
      role == Buyer && o.status == OfferSubmitted && o.modifyingPrice > o.offerPrice
    ensures Apply(o, role, ConfirmModify) != o ==>
      Apply(o, role, ConfirmModify) == o.(offerPrice := o.modifyingPrice)
  {
  }

  /** The modify dialog opens with the current offer, so confirming it
      without editing is a no-op. */
  lemma UnchangedModifyIsNoOp(o: Order)
    requires o.status == OfferSubmitted
    ensures Apply(o, Buyer, OpenModify) == o.(modifyingPrice := o.offerPrice)
    ensures Apply(Apply(o, Buyer, OpenModify), Buyer, ConfirmModify) == Apply(o, Buyer, OpenModify)
  {
  }

  /** A lower new price is refused; a higher one replaces the offer. */
  lemma ModifyExamples(o: Order)
    requires o.status == OfferSubmitted && o.offerPrice == 100000.0
    ensures Apply(Apply(o, Buyer, EditModifyingPrice(90000.0)), Buyer, ConfirmModify).offerPrice == 100000.0
    ensures Apply(Apply(o, Buyer, EditModifyingPrice(150000.0)), Buyer, ConfirmModify).offerPrice == 150000.0
  {
  }

  /** The buyer may cancel a submitted or countered offer, nothing else. */
  lemma ConfirmCancelSpec(o: Order, role: UserRole)
    ensures Apply(o, role, ConfirmCancel) != o <==>
      role == Buyer && (o.status == OfferSubmitted || o.status == OfferCountered)
    ensures Apply(o, role, ConfirmCancel) != o ==> Apply(o, role, ConfirmCancel) == o.(status := Cancelled)
  {
  }

  /** A buyer facing a counter has no way to accept it: cancelling is the
      only gesture that changes anything. */
  lemma CounteredBuyerCanOnlyCancel(o: Order, a: Action)
    requires o.status == OfferCountered
    ensures Apply(o, Buyer, a) != o ==> a == ConfirmCancel && Apply(o, Buyer, a).status == Cancelled
  {
  }

  /** Re-offering from a cancelled order is open to either role and returns
      to the draft keeping price, agreements, mode, handover and reject
      reason; from any other status it is a no-op. */
  lemma ReOfferSpec(o: Order, role: UserRole)
    ensures o.status == Cancelled ==> Apply(o, role, ReOffer) == o.(status := DraftOffer)
    ensures o.status != Cancelled ==> Apply(o, role, ReOffer) == o
  {
  }

  // ---------------------------------------------------------------------
  // Seller actions

  /** From a submitted offer the seller accepts into `payment_pending`,
      counters a positive price into `offer_countered` (overwriting the
      offer), or rejects with a chosen reason into `cancelled`. */
  lemma SellerResponseSpec(o: Order)
    requires o.status == OfferSubmitted
    ensures Apply(o, Seller, SellerAccept) == o.(status := PaymentPending)
    ensures o.counterPrice > 0.0 ==>
      Apply(o, Seller, SellerCounter) == o.(offerPrice := o.counterPrice, status := OfferCountered)
    ensures o.counterPrice <= 0.0 ==> Apply(o, Seller, SellerCounter) == o
    ensures o.rejectReason != "" ==> Apply(o, Seller, SellerReject) == o.(status := Cancelled)
    ensures o.rejectReason == "" ==> Apply(o, Seller, SellerReject) == o
  {
  }

  /** The counter dialog opens with the current offer; sending it unchanged
      moves to `offer_countered` at the same price. */
  lemma SeededCounterKeepsPrice(o: Order)
    requires o.status == OfferSubmitted && o.offerPrice > 0.0
    ensures Apply(Apply(o, Seller, OpenCounter), Seller, SellerCounter) ==
      o.(counterPrice := o.offerPrice, status := OfferCountered)
  {
  }

  /** Only the seller can retract a counter, and only while it stands. */
  lemma RetractCounterSpec(o: Order, role: UserRole)
    ensures Apply(o, role, RetractCounter) != o <==> role == Seller && o.status == OfferCountered
    ensures Apply(o, role, RetractCounter) != o ==> Apply(o, role, RetractCounter) == o.(status := Cancelled)
  {
  }

  /** A buyer's accept, counter, reject or retract never does anything. */
  lemma SellerActionsNeedSeller(o: Order)
    ensures Apply(o, Buyer, SellerAccept) == o
    ensures Apply(o, Buyer, SellerCounter) == o
    ensures Apply(o, Buyer, SellerReject) == o
    ensures Apply(o, Buyer, RetractCounter) == o
  {
  }

  // ---------------------------------------------------------------------
  // The bottom bar

  /** The guards agree with the buttons the bottom bar renders. */
  lemma GuardsAgreeWithBottomBar(o: Order, role: UserRole)
    ensures Enabled(o, role, SubmitOffer) <==> BottomBarFor(o, role) == SubmitBar(true)
    ensures Enabled(o, role, OpenModify) <==> BottomBarFor(o, role) == ModifyBar
    ensures Enabled(o, role, SellerAccept) <==> BottomBarFor(o, role) == SellerResponseBar
    ensures Enabled(o, role, OpenCounter) <==> BottomBarFor(o, role) == SellerResponseBar
    ensures Enabled(o, role, RetractCounter) <==> BottomBarFor(o, role) == RetractBar
    ensures Enabled(o, role, ReOffer) <==> BottomBarFor(o, role) == ReOfferBar
    ensures forall p :: Enabled(o, role, EditModifyingPrice(p)) <==> BottomBarFor(o, role) == ModifyBar
    ensures Enabled(o, role, ConfirmModify) ==> BottomBarFor(o, role) == ModifyBar
    ensures forall p :: Enabled(o, role, EditCounterPrice(p)) <==> BottomBarFor(o, role) == SellerResponseBar
    ensures Enabled(o, role, SellerCounter) ==> BottomBarFor(o, role) == SellerResponseBar
    ensures forall reason :: reason in RejectReasons ==>
      (Enabled(o, role, SelectRejectReason(reason)) <==> BottomBarFor(o, role) == SellerResponseBar)
    ensures Enabled(o, role, SellerReject) ==> BottomBarFor(o, role) == SellerResponseBar
  {
  }

  /** While the bar only says "waiting", the one enabled gesture left is the
      buyer's cancel of a countered offer. */
  lemma WaitingBarLeavesOnlyCancel(o: Order, role: UserRole, a: Action)
    requires BottomBarFor(o, role) == WaitingBar && Enabled(o, role, a)
    ensures a == ConfirmCancel && role == Buyer && o.status == OfferCountered
  {
  }

  // ---------------------------------------------------------------------
  // A whole negotiation

  /** The buyer ticks both boxes and submits the listing price, raises it to
      260,000, and the seller accepts: the order waits for payment at 260,000. */
  lemma AcceptedAfterRaise()
    ensures Run(Initial(), [Step(Buyer, ToggleTnc), Step(Buyer, ToggleShipping), Step(Buyer, SubmitOffer),
                            Step(Buyer, OpenModify), Step(Buyer, EditModifyingPrice(260000.0)),
                            Step(Buyer, ConfirmModify), Step(Seller, SellerAccept)]).status == PaymentPending
    ensures Run(Initial(), [Step(Buyer, ToggleTnc), Step(Buyer, ToggleShipping), Step(Buyer, SubmitOffer),
                            Step(Buyer, OpenModify), Step(Buyer, EditModifyingPrice(260000.0)),
                            Step(Buyer, ConfirmModify), Step(Seller, SellerAccept)]).offerPrice == 260000.0
  {
  }
}
