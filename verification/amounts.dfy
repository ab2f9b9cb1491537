/** The amount calculation of `printInvoice` (src/utils/invoiceGenerator.js):
    the four order amounts with missing values read as 0, the subtotal
    (`originalPrice`) taken from the plan's price table or rebuilt from the
    order's amounts, and the final total the customer pays. */
module Amounts {
  import opened Wrappers
  import opened Orders

  /** The resolved figures of one invoice, in cents. */
  datatype Breakdown = Breakdown(
    originalPrice: int,
    discountAmount: int,
    balanceAmount: int,
    handlingAmount: int,
    orderAmount: int,
    finalTotal: int)

  /** `plan && period && plan[period]`: the order has a plan whose price
      table holds a non-zero price under the order's (non-empty) period. */
  predicate HasPlanPrice(o: Order) {
    && o.plan.Some?
    && Present(o.period)
    && o.period.value in o.plan.value.prices
    && o.plan.value.prices[o.period.value] != 0
  }

  /** The subtotal: the plan price when there is one, else the amount paid
      plus everything that was taken off it. */
  function Resolve(o: Order): (b: Breakdown)
    ensures b.discountAmount == 0 <==> o.discountAmount.None? || o.discountAmount == Some(0)
    ensures b.balanceAmount == 0 <==> o.balanceAmount.None? || o.balanceAmount == Some(0)
    ensures b.handlingAmount == 0 <==> o.handlingAmount.None? || o.handlingAmount == Some(0)
    ensures b.orderAmount == 0 <==> o.totalAmount.None? || o.totalAmount == Some(0)
    ensures o.discountAmount.Some? ==> b.discountAmount == o.discountAmount.value
    ensures o.balanceAmount.Some? ==> b.balanceAmount == o.balanceAmount.value
    ensures o.handlingAmount.Some? ==> b.handlingAmount == o.handlingAmount.value
    ensures o.totalAmount.Some? ==> b.orderAmount == o.totalAmount.value
    ensures HasPlanPrice(o) ==> b.originalPrice == o.plan.value.prices[o.period.value] && b.originalPrice != 0
    ensures !HasPlanPrice(o) ==> b.originalPrice == b.orderAmount + b.discountAmount + b.balanceAmount
    ensures b.finalTotal - b.handlingAmount == b.orderAmount
  {
    var discount := AmountOrZero(o.discountAmount);
    var balance := AmountOrZero(o.balanceAmount);
    var handling := AmountOrZero(o.handlingAmount);
    var paid := AmountOrZero(o.totalAmount);
    var original := if HasPlanPrice(o) then o.plan.value.prices[o.period.value] else paid + discount + balance;
    Breakdown(original, discount, balance, handling, paid, paid + handling)
  }

  /** When the subtotal is rebuilt, the invoice adds up: the total is the
      subtotal less discount and balance, plus the handling fee. */
  lemma ReconstructedSubtotalReconciles(o: Order)
    requires !HasPlanPrice(o)
    ensures var b := Resolve(o);
      b.finalTotal == b.originalPrice - b.discountAmount - b.balanceAmount + b.handlingAmount
  {
  }

  /** With a plan price the same identity holds exactly when the plan price
      equals the amount paid plus discount and balance: nothing in the
      calculation enforces it. */
  lemma PlanSubtotalReconcilesIff(o: Order)
    requires HasPlanPrice(o)
    ensures var b := Resolve(o);
      b.finalTotal == b.originalPrice - b.discountAmount - b.balanceAmount + b.handlingAmount
      <==> o.plan.value.prices[o.period.value] == b.orderAmount + b.discountAmount + b.balanceAmount
  {
  }

  /** A zero plan price is not a price: the subtotal is rebuilt instead. */
  lemma ZeroPlanPriceIsRebuilt(o: Order)
    requires o.plan.Some? && o.period.Some? && o.period.value in o.plan.value.prices
    requires o.plan.value.prices[o.period.value] == 0
    ensures Resolve(o).originalPrice == AmountOrZero(o.totalAmount) + AmountOrZero(o.discountAmount) + AmountOrZero(o.balanceAmount)
  {
  }
}
