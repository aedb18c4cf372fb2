// Shared vocabulary of the order page: transaction statuses, viewer roles
// and the two draft-form choices (service mode and handover method).

module Types {

  /** The seventeen transaction statuses, in the order the type declares them
      (draft, 01A, 01B, 02, 03A, 03B, 04, 05, 06, 06A, 07, 08A, 08B, 08C, 09, 10, 11). */
  datatype TransactionStatus =
    | DraftOffer
    | OfferSubmitted
    | OfferCountered
    | PaymentPending
    | ToShip
    | InTransit
    | WarehouseReceived
    | Authenticating
    | AuthPassed
    | AuthPassedDispute
    | AuthFailed
    | HandoverWm
    | HandoverSelf
    | HandoverSellerRetrieved
    | Completed
    | Cancelled
    | Refunded

  /** Who is looking at the order. */
  datatype UserRole = Buyer | Seller

  /** `wm`: the platform authenticates and charges fees; `direct`: the parties deal alone. */
  datatype ServiceMode = Wm | Direct

  /** `wm_center`: handover at the platform office; `self`: arranged by the parties. */
  datatype HandoverMethod = WmCenter | SelfArranged

  /** Position of a status in the declared enumeration. */
  function Ordinal(s: TransactionStatus): nat
  {
    match s
    case DraftOffer => 0
    case OfferSubmitted => 1
    case OfferCountered => 2
    case PaymentPending => 3
    case ToShip => 4
    case InTransit => 5
    case WarehouseReceived => 6
    case Authenticating => 7
    case AuthPassed => 8
    case AuthPassedDispute => 9
    case AuthFailed => 10
    case HandoverWm => 11
    case HandoverSelf => 12
    case HandoverSellerRetrieved => 13
    case Completed => 14
    case Cancelled => 15
    case Refunded => 16
  }
}
