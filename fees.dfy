// Fee arithmetic of the offer flow: the WM authentication fee (2% of the
// price, kept between HK$1,500 and HK$5,000), the refundable deposit (1%),
// and the payment plan the draft form shows. Amounts are exact reals.

module Fees {
  import opened Types

  const MinFee: real := 1500.0
  const MaxFee: real := 5000.0

  /** Service fee and deposit for one price. */
  datatype FeeQuote = FeeQuote(fee: real, deposit: real)

  /** What the draft form shows: the fee and deposit actually charged, the
      amount paid once the offer is accepted, and the balance paid at handover. */
  datatype PaymentPlan = PaymentPlan(fee: real, deposit: real, initialPayment: real, finalPayment: real)

  function Max(a: real, b: real): real { if a >= b then a else b }
  function Min(a: real, b: real): real { if a <= b then a else b }

  /** The fee is 2% of the price clamped to [1500, 5000]; the deposit is 1%. */
  function CalculateFees(price: real): (r: FeeQuote)
    ensures MinFee <= r.fee <= MaxFee
    ensures r.deposit * 100.0 == price
    ensures price <= 75000.0 ==> r.fee == MinFee
    ensures price >= 250000.0 ==> r.fee == MaxFee
    ensures 75000.0 <= price <= 250000.0 ==> r.fee * 50.0 == price
  {
    var rawFee := price * 0.02;
    var fee := Max(MinFee, Min(MaxFee, rawFee));
    var deposit := price * 0.01;
    FeeQuote(fee, deposit)
  }

  /** The draft-form breakdown: fee and deposit are due up front only under
      the WM service; the offer price itself is paid at handover. */
  function DraftPaymentPlan(offerPrice: real, mode: ServiceMode): (r: PaymentPlan)
    ensures r.finalPayment == offerPrice
    ensures r.initialPayment == r.fee + r.deposit
    ensures mode == Direct ==> r.fee == 0.0 && r.deposit == 0.0 && r.initialPayment == 0.0
    ensures mode == Wm ==> r.fee == CalculateFees(offerPrice).fee && r.deposit * 100.0 == offerPrice
  {
    var quote := CalculateFees(offerPrice);
    var effectiveFee := if mode == Wm then quote.fee else 0.0;
    var effectiveDeposit := if mode == Wm then quote.deposit else 0.0;
    PaymentPlan(effectiveFee, effectiveDeposit, effectiveFee + effectiveDeposit, offerPrice)
  }

  /** Raising a price never lowers its fee or its deposit (the modify-offer
      dialog compares the fees of the old and the new price). */
  lemma FeesMonotone(p: real, q: real)
    requires p <= q
    ensures CalculateFees(p).fee <= CalculateFees(q).fee
    ensures CalculateFees(p).deposit <= CalculateFees(q).deposit
  {
  }

  /** Under WM the amount due on acceptance lies between the fee bounds plus
      the 1% deposit; under direct dealing nothing is due until handover. */
  lemma UpfrontPaymentBounds(offerPrice: real, mode: ServiceMode)
    ensures mode == Wm ==>
      MinFee + offerPrice / 100.0 <= DraftPaymentPlan(offerPrice, mode).initialPayment <= MaxFee + offerPrice / 100.0
    ensures mode == Direct ==>
      DraftPaymentPlan(offerPrice, mode).initialPayment + DraftPaymentPlan(offerPrice, mode).finalPayment == offerPrice
  {
  }

  /** The worked example: an offer of HK$100,000 costs a fee of 2,000 and a deposit of 1,000. */
  lemma FeeExample()
    ensures CalculateFees(100000.0) == FeeQuote(2000.0, 1000.0)
    ensures CalculateFees(0.0) == FeeQuote(1500.0, 0.0)
  {
  }
}
