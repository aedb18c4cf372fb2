// The seven-stage progress stepper of the order page: which stage a status
// belongs to, whether that stage is marked as failed, and the state of each
// stepper dot and connector line.

module Stepper {
  import opened Types

  /** The seven stepper stages (`offer` ... `completed`). */
  datatype Stage =
    | OfferStage
    | PaymentStage
    | ShippingStage
    | WarehouseStage
    | AuthenticatingStage
    | HandoverStage
    | CompletedStage

  /** What the status maps to: a stage and a failure flag. */
  datatype VisualStep = VisualStep(stage: Stage, failed: bool)

  /** The state a single stepper dot is drawn in. */
  datatype StepState = StepCompleted | StepActive | StepFailed | StepPending

  /** The stage order the stepper draws and looks positions up in. */
  const StageOrder: seq<Stage> :=
    [OfferStage, PaymentStage, ShippingStage, WarehouseStage,
     AuthenticatingStage, HandoverStage, CompletedStage]

  /** Number of dots on the stepper. */
  const StepCount: int := 7

  /** Maps a fine-grained status to its stepper stage and failure flag. */
  function VisualStepInfo(s: TransactionStatus): (r: VisualStep)
    ensures r.failed ==> r.stage == AuthenticatingStage || r.stage == CompletedStage
    ensures r.failed <==> s == AuthFailed || s == Cancelled
    ensures r.stage == OfferStage <==> s in {DraftOffer, OfferSubmitted, OfferCountered}
    ensures r.stage == CompletedStage <==> s in {Completed, Cancelled, Refunded}
  {
    match s
    case DraftOffer | OfferSubmitted | OfferCountered => VisualStep(OfferStage, false)
    case PaymentPending => VisualStep(PaymentStage, false)
    case ToShip | InTransit => VisualStep(ShippingStage, false)
    case WarehouseReceived => VisualStep(WarehouseStage, false)
    case Authenticating | AuthPassed | AuthPassedDispute => VisualStep(AuthenticatingStage, false)
    case AuthFailed => VisualStep(AuthenticatingStage, true)
    case HandoverWm | HandoverSelf | HandoverSellerRetrieved => VisualStep(HandoverStage, false)
    case Completed | Refunded => VisualStep(CompletedStage, false)
    case Cancelled => VisualStep(CompletedStage, true)
  }

  /** First position of `x` in `xs`, or -1 when it does not occur. */
  function IndexOf<T(==)>(xs: seq<T>, x: T): (r: int)
    ensures -1 <= r < |xs|
    ensures r == -1 <==> x !in xs
    ensures 0 <= r ==> xs[r] == x && forall j :: 0 <= j < r ==> xs[j] != x
  {
    if xs == [] then -1
    else if xs[0] == x then 0
    else
      var k := IndexOf(xs[1..], x);
      if k == -1 then -1 else k + 1
  }

  /** Position of the status's stage in the stage order. */
  function CurrentIndex(s: TransactionStatus): (c: nat)
    ensures c < |StageOrder| && StageOrder[c] == VisualStepInfo(s).stage
  {
    var st := VisualStepInfo(s).stage;
    assert StageOrder[StageRank(st)] == st;
    IndexOf(StageOrder, st)
  }

  /** State of the stepper dot at `index` while the order is in status `s`:
      dots before the current stage are completed, dots after it are pending,
      and the current one is failed exactly when the status is a failure. */
  function GetStepStatus(s: TransactionStatus, index: int): (r: StepState)
    ensures r == StepCompleted <==> index < CurrentIndex(s)
    ensures r == StepPending <==> index > CurrentIndex(s)
    ensures IsMarker(r) <==> index == CurrentIndex(s)
    ensures r == StepFailed <==> index == CurrentIndex(s) && (s == AuthFailed || s == Cancelled)
  {
    var info := VisualStepInfo(s);
    var currentIndex := IndexOf(StageOrder, info.stage);
    if index < currentIndex then StepCompleted
    else if index == currentIndex then (if info.failed then StepFailed else StepActive)
    else StepPending
  }

  /** The dot that marks where the order is: active or failed. */
  predicate IsMarker(st: StepState)
  {
    st == StepActive || st == StepFailed
  }

  /** Whether the connector line to the right of dot `idx` is coloured: exactly
      when the order has reached the stage after it. */
  predicate IsLineColored(s: TransactionStatus, idx: int)
    ensures IsLineColored(s, idx) <==> idx + 1 <= CurrentIndex(s)
  {
    var nextStepStatus := if idx < StepCount - 1 then GetStepStatus(s, idx + 1) else StepPending;
    idx < StepCount - 1 &&
    (nextStepStatus == StepCompleted || nextStepStatus == StepActive || nextStepStatus == StepFailed)
  }

  /** Across the whole stepper exactly one dot is active or failed. */
  lemma ExactlyOneMarker(s: TransactionStatus)
    ensures 0 <= CurrentIndex(s) < StepCount && IsMarker(GetStepStatus(s, CurrentIndex(s)))
    ensures forall i, j ::
              0 <= i < StepCount && 0 <= j < StepCount &&
              IsMarker(GetStepStatus(s, i)) && IsMarker(GetStepStatus(s, j))
              ==> i == j
  {
  }

  /** Stage index of the status at position `n` of the enumeration. */
  function OrdinalRank(n: nat): nat
  {
    if n <= 2 then 0
    else if n == 3 then 1
    else if n <= 5 then 2
    else if n == 6 then 3
    else if n <= 10 then 4
    else if n <= 13 then 5
    else 6
  }

  /** Position of a stage in `StageOrder`, by cases; together with
      `StageRankOfOrder` it shows the order lists every stage exactly once. */
  function StageRank(st: Stage): (r: nat)
    ensures r < |StageOrder| && StageOrder[r] == st
  {
    match st
    case OfferStage => 0
    case PaymentStage => 1
    case ShippingStage => 2
    case WarehouseStage => 3
    case AuthenticatingStage => 4
    case HandoverStage => 5
    case CompletedStage => 6
  }

  lemma StageRankOfOrder(i: nat)
    requires i < |StageOrder|
    ensures StageRank(StageOrder[i]) == i
  {
  }

  lemma StageRankFollowsOrdinal(s: TransactionStatus)
    ensures StageRank(VisualStepInfo(s).stage) == OrdinalRank(Ordinal(s))
  {
  }

  lemma CurrentIndexIsRank(s: TransactionStatus)
    ensures CurrentIndex(s) == OrdinalRank(Ordinal(s))
  {
    var c := CurrentIndex(s);
    StageRankOfOrder(c);
    assert c == StageRank(VisualStepInfo(s).stage);
    StageRankFollowsOrdinal(s);
  }

  /** Later statuses of the enumeration never sit at an earlier stage. */
  lemma StageFollowsStatusOrder(a: TransactionStatus, b: TransactionStatus)
    requires Ordinal(a) <= Ordinal(b)
    ensures CurrentIndex(a) <= CurrentIndex(b)
  {
    CurrentIndexIsRank(a);
    CurrentIndexIsRank(b);
  }
}
