# Order negotiation of the watch marketplace order page

This project models the order detail page of a watch-authentication
marketplace front end. It covers the part of the page that carries logic: how
a buyer and a seller negotiate a price for one watch. The model has four
pieces.

- **Stepper**: maps each of the 17 transaction statuses to one of seven
  progress stages (offer, payment, shipping, warehouse, authenticating,
  handover, completed) plus a failure flag. From that it derives each stepper
  dot's state (completed, active, failed, pending) and whether each connector
  line is coloured.
- **Fees**: the WM authentication fee is 2% of the price, kept between
  HK$1,500 and HK$5,000. The refundable deposit is 1% of the price. The draft
  form charges both up front only under the WM service mode, and the offer
  price is paid at handover.
- **Negotiation**: the page state and the effect of each gesture on it.
  The state is the status, offer price, service mode, handover method, the
  two agreement boxes, the counter price, the reject reason and the price
  being typed into the modify dialog. The gestures are submit, modify, cancel,
  accept, counter, reject, retract and re-offer, plus the form inputs behind
  them. The page's handlers check almost nothing themselves. A gesture takes
  effect only when its control is rendered and enabled for the viewer's role
  and the current status, and the handler's own check passes.
  `Negotiation.Enabled` states that condition. `Negotiation.Apply` is the step
  function, and `Negotiation.BottomBarFor` selects the buttons of the sticky
  bottom bar. `Session.OrderDetail` is the component state as a mutable object
  with one method per gesture. Each method is proved to move the object
  exactly as `Apply` does, and to keep the invariant `Negotiation.Inv`.
- **Timeline**: events are pushed oldest first and shown reversed, so the
  newest event is at the top.

Modules: `Types` (statuses, roles, service mode, handover method), `Stepper`,
`Fees`, `Negotiation`, `Session`, `Timeline`.

The model follows the code where the code and the intended design differ:

- Submitting is not tied to a role. The send button appears for any viewer of
  a draft.
- Re-offering is open to either role. It only resets the status to the draft.
  It keeps the old price, the ticked boxes, the service mode and the reject
  reason.
- The seller's counter overwrites the single offer-price slot. The buyer's
  previous offer is lost.
- A buyer facing a counter has no way to accept it. Cancelling is the only
  action left.
- The draft price input accepts any number. A non-positive price is possible
  while drafting, and it only blocks submission.
- The reject reason is stored when a radio button is picked, not when the
  rejection is confirmed. It survives later cycles.

## Model

| member | source | states |
|---|---|---|
| `Stepper.VisualStepInfo` | pages/OrderDetail.tsx:116-155 | the failure flag is set exactly for `auth_failed` and `cancelled`, and only ever on the authenticating or completed stage; the offer stage is exactly the three negotiation statuses and the completed stage exactly `completed`, `cancelled`, `refunded` |
| `Stepper.IndexOf` | pages/OrderDetail.tsx:161 | the result is -1 exactly when the element is absent, otherwise the position of its first occurrence |
| `Stepper.CurrentIndex` | pages/OrderDetail.tsx:159-161 | the current stage index is a valid position holding the status's stage |
| `Stepper.GetStepStatus` | pages/OrderDetail.tsx:158-169 | dots before the current index are completed, dots after it pending, the dot at it active or failed, and failed exactly for `auth_failed` / `cancelled` |
| `Stepper.ExactlyOneMarker` | pages/OrderDetail.tsx:158-169 | of the seven dots exactly one, the current one, is active or failed |
| `Stepper.IsLineColored` | pages/OrderDetail.tsx:496-497 | the connector after dot i is coloured iff i + 1 <= current index |
| `Stepper.StageFollowsStatusOrder` | pages/OrderDetail.tsx:116-155 | a status later in the enumeration never maps to an earlier stage |
| `Fees.CalculateFees` | pages/OrderDetail.tsx:193-198 | 1500 <= fee <= 5000, deposit = price / 100, fee = 1500 up to 75,000, 5000 from 250,000, price / 50 in between |
| `Fees.DraftPaymentPlan` | pages/OrderDetail.tsx:594-605 | the up-front payment is fee + deposit; under WM the fee is the quoted fee and the deposit 1% of the price, under direct dealing fee, deposit and up-front payment are all 0; the final payment is the offer price |
| `Fees.FeesMonotone` | pages/OrderDetail.tsx:1316-1318 | a higher price never has a lower fee or deposit |
| `Fees.UpfrontPaymentBounds` | pages/OrderDetail.tsx:596-605 | under WM the up-front payment lies in [1500, 5000] plus the 1% deposit; under direct dealing everything is paid at handover |
| `Fees.FeeExample` | pages/OrderDetail.tsx:193-198 | a price of 100,000 gives fee 2,000 and deposit 1,000; a price of 0 gives fee 1,500 and deposit 0 |
| `Negotiation.Initial` | pages/OrderDetail.tsx:51-81 | the opening state is a draft of the listing price and satisfies the invariant |
| `Negotiation.HandoverFor` | pages/OrderDetail.tsx:95-101 | the service-mode effect installs self-arranged handover exactly under direct dealing and the office exactly under WM |
| `Negotiation.Enabled` | pages/OrderDetail.tsx:1008-1106 | a gesture is enabled only in the draft, submitted, countered or cancelled statuses; on a countered offer only the buyer's cancel and the seller's retract are, on a cancelled one only re-offer |
| `Negotiation.Apply` | pages/OrderDetail.tsx:201-236 | a gesture changes the order only when it is enabled, and it keeps the status or moves it along one edge of the transition table |
| `Negotiation.BottomBarFor` | pages/OrderDetail.tsx:1008-1106 | the bar is the submit bar exactly for a draft, with its button enabled exactly when submitting is enabled; it offers re-offer exactly for a cancelled order; it shows only "waiting" exactly outside draft, submitted and cancelled, except for the seller of a countered offer |
| `Negotiation.ApplyPreservesInv` | pages/OrderDetail.tsx:201-236 | no gesture breaks the invariant: direct dealing is self-arranged, a non-draft offer is positive, no status past `payment_pending` (other than `cancelled`) is entered, a reject reason is one of the four offered |
| `Negotiation.RunPreservesInv` | pages/OrderDetail.tsx:201-236 | every sequence of gestures keeps the invariant |
| `Negotiation.ReachableStatesSatisfyInv` | pages/OrderDetail.tsx:95-101 | every state reached from the opening page satisfies the invariant, in particular direct dealing implies self-arranged handover |
| `Negotiation.StatusMovesAlongTable` | pages/OrderDetail.tsx:208-236 | a gesture keeps the status or follows one edge of the transition table; a buyer changes it only by submit, cancel or re-offer, a seller only by submit, accept, counter, reject, retract or re-offer |
| `Negotiation.LaterStatusesAreFrozen` | pages/OrderDetail.tsx:1098-1106 | from `payment_pending` and later statuses (except `cancelled`) no gesture changes anything |
| `Negotiation.ServiceModeDrivesHandover` | pages/OrderDetail.tsx:95-101 | selecting a new service mode sets it and resets the handover method (direct to self-arranged, WM to the office); selecting the current one changes nothing |
| `Negotiation.OfficeHandoverDisabledUnderDirect` | pages/OrderDetail.tsx:685-687 | the office handover cannot be chosen under direct dealing |
| `Negotiation.SubmitOfferSpec` | pages/OrderDetail.tsx:1012-1019 | submitting changes the order iff it is a draft with both agreements ticked and a positive price, then it changes only the status to `offer_submitted`, and it is the same for both roles |
| `Negotiation.ConfirmModifySpec` | pages/OrderDetail.tsx:201-206 | confirming a modification never changes the status, never lowers the offer, and changes the order iff a buyer raises a submitted offer strictly, replacing it by the new price |
| `Negotiation.UnchangedModifyIsNoOp` | pages/OrderDetail.tsx:1031-1034 | the modify dialog opens with the current offer, so confirming it unedited is a no-op |
| `Negotiation.ModifyExamples` | pages/OrderDetail.tsx:1391-1392 | raising 100,000 to 90,000 is refused; raising it to 150,000 is accepted |
| `Negotiation.ConfirmCancelSpec` | pages/OrderDetail.tsx:544 | cancel changes the order iff a buyer views a submitted or countered offer, and then only its status to `cancelled` |
| `Negotiation.CounteredBuyerCanOnlyCancel` | pages/OrderDetail.tsx:1028-1083 | a buyer facing a counter can only cancel |
| `Negotiation.ReOfferSpec` | pages/OrderDetail.tsx:1085-1096 | from `cancelled` re-offer, by either role, sets only the status to `draft_offer`; elsewhere it is a no-op |
| `Negotiation.SellerResponseSpec` | pages/OrderDetail.tsx:214-231 | from a submitted offer the seller's accept gives `payment_pending`; a positive counter overwrites the offer price and gives `offer_countered`; a reject with a chosen reason gives `cancelled`; without those inputs counter and reject do nothing |
| `Negotiation.SeededCounterKeepsPrice` | pages/OrderDetail.tsx:1054-1056 | the counter dialog opens with the buyer's offer; sending it unchanged counters at the same price |
| `Negotiation.RetractCounterSpec` | pages/OrderDetail.tsx:233-236 | retract changes the order iff a seller views a countered offer, then only its status to `cancelled` |
| `Negotiation.SellerActionsNeedSeller` | pages/OrderDetail.tsx:1044-1083 | accept, counter, reject and retract by a buyer never change anything |
| `Negotiation.GuardsAgreeWithBottomBar` | pages/OrderDetail.tsx:1008-1106 | submit, opening and editing the modify dialog, accept, opening and editing the counter dialog, picking one of the offered reject reasons, retract and re-offer are enabled exactly when the bottom bar renders the button behind them; confirming a modification, a counter or a rejection is enabled only under that same bar |
| `Negotiation.WaitingBarLeavesOnlyCancel` | pages/OrderDetail.tsx:1098-1106 | while the bar shows only "waiting", the only enabled gesture is the buyer's cancel of a countered offer |
| `Negotiation.AcceptedAfterRaise` | pages/OrderDetail.tsx:1012-1066 | tick both boxes, submit, raise to 260,000, seller accepts: the order awaits payment at 260,000 |
| `Session.OrderDetail.constructor` | pages/OrderDetail.tsx:51-81 | the page opens as `Negotiation.Initial()`: a WM draft of the listing price with office handover and no box ticked |
| `Session.OrderDetail.EditOfferPrice` | pages/OrderDetail.tsx:614-617 | the draft price input sets the offer price while drafting and matches `Apply` |
| `Session.OrderDetail.SelectServiceMode` | pages/OrderDetail.tsx:95-101 | selecting direct dealing forces self-arranged handover, switching back to WM restores the office; matches `Apply`, keeps the invariant |
| `Session.OrderDetail.SelectHandover` | pages/OrderDetail.tsx:685-721 | a handover choice is taken while drafting except the office under direct dealing |
| `Session.OrderDetail.ToggleTnc` | pages/OrderDetail.tsx:804 | flips the terms box while drafting |
| `Session.OrderDetail.ToggleShipping` | pages/OrderDetail.tsx:814 | flips the shipping-risk box while drafting |
| `Session.OrderDetail.SubmitOffer` | pages/OrderDetail.tsx:1012-1019 | succeeds iff draft, both boxes ticked and price positive; then only the status becomes `offer_submitted` |
| `Session.OrderDetail.OpenModify` | pages/OrderDetail.tsx:1028-1034 | for a buyer of a submitted offer, seeds the dialog price with the offer |
| `Session.OrderDetail.EditModifyingPrice` | pages/OrderDetail.tsx:1342-1345 | the dialog input sets the price being modified and matches `Apply` |
| `Session.OrderDetail.ConfirmModify` | pages/OrderDetail.tsx:201-206 | keeps the status, never lowers the offer, and on success the offer is the strictly higher dialog price |
| `Session.OrderDetail.ConfirmCancel` | pages/OrderDetail.tsx:208-211 | succeeds iff a buyer views a submitted or countered offer; the status becomes `cancelled` |
| `Session.OrderDetail.SellerAccept` | pages/OrderDetail.tsx:214-218 | succeeds iff a seller views a submitted offer; the status becomes `payment_pending` |
| `Session.OrderDetail.OpenCounter` | pages/OrderDetail.tsx:1053-1056 | for a seller of a submitted offer, seeds the counter price with the offer |
| `Session.OrderDetail.EditCounterPrice` | pages/OrderDetail.tsx:1189-1192 | the dialog input sets the counter price and matches `Apply` |
| `Session.OrderDetail.SellerCounter` | pages/OrderDetail.tsx:220-226 | succeeds iff a seller views a submitted offer with a positive counter; the offer price becomes the counter and the status `offer_countered` |
| `Session.OrderDetail.SelectRejectReason` | pages/OrderDetail.tsx:1240-1247 | a seller of a submitted offer picks one of the four reasons |
| `Session.OrderDetail.SellerReject` | pages/OrderDetail.tsx:228-231 | succeeds iff a seller views a submitted offer with a reason chosen; the status becomes `cancelled` |
| `Session.OrderDetail.RetractCounter` | pages/OrderDetail.tsx:233-236 | succeeds iff a seller views a countered offer; the status becomes `cancelled` |
| `Session.OrderDetail.ReOffer` | pages/OrderDetail.tsx:1085-1089 | succeeds iff the order is cancelled, for either role; only the status returns to `draft_offer` |
| `Timeline.Reverse` | pages/OrderDetail.tsx:966 | the result has the same length and holds element i at position n - 1 - i |
| `Timeline.ReverseReverse` | pages/OrderDetail.tsx:966 | reversing twice restores the order |
| `Timeline.BuildTimeline` | pages/OrderDetail.tsx:920-966 | no events while drafting; otherwise the oldest event, at the bottom, is the offer at the listing price; a second, newest, event at the top exists exactly for `cancelled` (who cancelled, or the seller's rejection), `payment_pending` (accepted) and `offer_countered` (the counter price); only the cancellation event is highlighted |

## Left out

- The developer simulator panel (pages/OrderDetail.tsx:1500-1569) is left out. It force-sets any status or role and bypasses every guard. So the role is not page state here: each gesture takes the viewer's role as a parameter.
- Transitions out of `payment_pending` and the later statuses are left out, because no handler on the page triggers them. Those statuses exist only for the stepper mapping.
- Dialog open and close flags are not modelled, nor are the dialogs' dismiss buttons. Each confirm gesture is guarded by the condition under which the button that opens its dialog is rendered.
- Prices are exact reals. The page uses IEEE doubles (`price * 0.02`, `price * 0.01`), and `Number(...)` input parsing with NaN coercion is outside the model: each price input receives an already parsed real.
- Presentation is left out: status-card titles, subtitles, icons and colours (pages/OrderDetail.tsx:241-458), the low-offer warning (:621), the fee-details toggle, and the submitted-offer summary (:826-907). That summary always labels the order WM service with office handover, even under direct dealing.
- Mouse-drag scrolling of the stepper and the scroll-to-top on mount are left out. They are DOM side effects.
- Timeline dates and title strings are left out. An event is modelled by its kind and price, and the `active` flag, always true, is dropped.
- `getVisualStepInfo`'s `default` branch is left out, because it is unreachable for a typed status. `getStepStatus`'s unused `stepId` parameter is dropped.
- The product page, home page, report card, price chart, routing and fixture data are not part of this model.
