/** The order and user records `printInvoice` receives
    (src/utils/invoiceGenerator.js). They are loosely typed payloads: every
    field may be absent, so every field is an `Option`. Amounts and plan
    prices are integers in cents; timestamps are epoch seconds. */
module Orders {
  import opened Wrappers

  /** A subscription plan: its display name and its prices in cents, keyed
      by period code (`month_price`, `year_price`, ...). */
  datatype Plan = Plan(name: Option<string>, prices: map<string, int>)

  datatype Payment = Payment(name: Option<string>)

  datatype Order = Order(
    tradeNo: Option<string>,
    createdAt: Option<int>,
    paidAt: Option<int>,
    status: Option<int>,
    period: Option<string>,
    plan: Option<Plan>,
    totalAmount: Option<int>,
    discountAmount: Option<int>,
    balanceAmount: Option<int>,
    handlingAmount: Option<int>,
    payment: Option<Payment>)

  datatype User = User(email: Option<string>)

  /** JavaScript truthiness of an optional string: present and non-empty. */
  predicate Present(s: Option<string>) {
    s.Some? && s.value != ""
  }

  /** JavaScript truthiness of an optional number: present and non-zero. */
  predicate Nonzero(n: Option<int>) {
    n.Some? && n.value != 0
  }

  /** `s || fallback` on an optional string. */
  function TextOr(s: Option<string>, fallback: string): string {
    if Present(s) then s.value else fallback
  }

  /** `n || 0` on an optional amount: absent, null and 0 all give 0. */
  function AmountOrZero(n: Option<int>): int {
    if Nonzero(n) then n.value else 0
  }
}
