/** The invoice document `printInvoice` assembles
    (src/utils/invoiceGenerator.js), as a structured value in place of the
    HTML text: header, bill-to and invoice-number blocks, the single line
    item, the totals block, the optional paid stamp and the footer. */
module Invoice {
  import opened Wrappers
  import opened Money
  import opened Labels
  import opened Orders
  import opened Amounts

  // ---------------------------------------------------------------------
  // Header and line-item fields, with their fallbacks
  // ---------------------------------------------------------------------

  /** The configured site name, or "EZ-Theme" when none is configured. */
  function SiteName(configured: Option<string>): (name: string)
    ensures name != ""
    ensures Present(configured) ==> name == configured.value
    ensures !Present(configured) ==> name == "EZ-Theme"
  {
    TextOr(configured, "EZ-Theme")
  }

  /** `userInfo?.email || '-'`. */
  function UserEmail(user: Option<User>): (email: string)
    ensures email != ""
    ensures user.Some? && Present(user.value.email) ==> email == user.value.email.value
    ensures !(user.Some? && Present(user.value.email)) ==> email == "-"
  {
    match user
    case None => "-"
    case Some(u) => TextOr(u.email, "-")
  }

  /** `trade_no || '-'`. */
  function TradeNo(o: Order): (no: string)
    ensures no != ""
    ensures Present(o.tradeNo) ==> no == o.tradeNo.value
    ensures !Present(o.tradeNo) ==> no == "-"
  {
    TextOr(o.tradeNo, "-")
  }

  /** `formatDate`: a missing or zero timestamp is shown as "-"; any other
      is shown by `render`, which stands for the locale's date rendering. */
  function FormatDate(timestamp: Option<int>, render: int -> string): (date: string)
    ensures !Nonzero(timestamp) ==> date == "-"
    ensures Nonzero(timestamp) ==> date == render(timestamp.value)
  {
    if Nonzero(timestamp) then render(timestamp.value) else "-"
  }

  /** The invoice date: the payment time when there is one, else the
      creation time, else "-". */
  function InvoiceDate(o: Order, render: int -> string): (date: string)
    ensures Nonzero(o.paidAt) ==> date == render(o.paidAt.value)
    ensures !Nonzero(o.paidAt) && Nonzero(o.createdAt) ==> date == render(o.createdAt.value)
    ensures !Nonzero(o.paidAt) && !Nonzero(o.createdAt) ==> date == "-"
  {
    if Nonzero(o.paidAt) then FormatDate(o.paidAt, render) else FormatDate(o.createdAt, render)
  }

  const DepositTitle: Entry := Entry("wallet.deposit.title", "账户充值")

  /** The line item's description: the plan's name, else the top-up title
      for a deposit order, else "-". */
  function PlanName(o: Order, t: Option<Translator>): (name: string)
    ensures o.plan.Some? && Present(o.plan.value.name) ==> name == o.plan.value.name.value
    ensures !(o.plan.Some? && Present(o.plan.value.name)) && o.period == Some("deposit")
            ==> name == Translate(t, DepositTitle)
    ensures !(o.plan.Some? && Present(o.plan.value.name)) && o.period != Some("deposit") ==> name == "-"
  {
    if o.plan.Some? && Present(o.plan.value.name) then o.plan.value.name.value
    else if o.period == Some("deposit") then Translate(t, DepositTitle)
    else "-"
  }

  // ---------------------------------------------------------------------
  // Totals block
  // ---------------------------------------------------------------------

  datatype RowKind = Subtotal | Discount | BalanceUsed | HandlingFee | Total

  /** A row of the totals block: its kind, its label and its printed value. */
  datatype TotalsRow = TotalsRow(kind: RowKind, caption: string, value: string)

  /** The fixed position of each kind of row in the totals block. */
  function Rank(k: RowKind): nat {
    match k
    case Subtotal => 0
    case Discount => 1
    case BalanceUsed => 2
    case HandlingFee => 3
    case Total => 4
  }

  function RowEntry(k: RowKind): Entry {
    match k
    case Subtotal => Entry("invoice.subtotal", "Subtotal")
    case Discount => Entry("invoice.discount", "Discount")
    case BalanceUsed => Entry("invoice.balance_used", "Balance Used")
    case HandlingFee => Entry("invoice.handling_fee", "Handling Fee")
    case Total => Entry("invoice.total", "TOTAL")
  }

  /** Discount and balance rows are deductions and print with a leading
      minus sign; the other rows print their amount as it is. */
  predicate IsDeduction(k: RowKind) {
    k == Discount || k == BalanceUsed
  }

  /** The breakdown figure a row of kind `k` shows. */
  function Amount(b: Breakdown, k: RowKind): int {
    match k
    case Subtotal => b.originalPrice
    case Discount => b.discountAmount
    case BalanceUsed => b.balanceAmount
    case HandlingFee => b.handlingAmount
    case Total => b.finalTotal
  }

  /** The amount a reader should take from a row: deductions count negative. */
  function SignedAmount(b: Breakdown, k: RowKind): int {
    if IsDeduction(k) then -Amount(b, k) else Amount(b, k)
  }

  /** A row's printed value: `-${formatAmount(x)}` for a deduction,
      `${formatAmount(x)}` otherwise. */
  function Printed(amount: int, deduction: bool): string {
    (if deduction then "-" else "") + FormatAmount(Some(amount))
  }

  function Row(b: Breakdown, t: Option<Translator>, k: RowKind): (r: TotalsRow)
    ensures r.kind == k
  {
    TotalsRow(k, Translate(t, RowEntry(k)), Printed(Amount(b, k), IsDeduction(k)))
  }

  /** Kinds in strictly increasing rank: the fixed order, no kind twice. */
  predicate Increasing(kinds: seq<RowKind>) {
    forall i, j :: 0 <= i < j < |kinds| ==> Rank(kinds[i]) < Rank(kinds[j])
  }

  function Optional(wanted: bool, k: RowKind): (kinds: seq<RowKind>)
    ensures k in kinds <==> wanted
    ensures forall i :: 0 <= i < |kinds| ==> kinds[i] == k
  {
    if wanted then [k] else []
  }

  /** Subtotal, then each adjustment kind that is wanted, then Total. */
  function Arrange(discount: bool, balance: bool, handling: bool): seq<RowKind> {
    [Subtotal] + Optional(discount, Discount) + Optional(balance, BalanceUsed)
    + Optional(handling, HandlingFee) + [Total]
  }

  lemma ArrangeIncreasing(discount: bool, balance: bool, handling: bool)
    ensures Increasing(Arrange(discount, balance, handling))
  {
  }

  lemma ArrangeMembers(discount: bool, balance: bool, handling: bool)
    ensures var kinds := Arrange(discount, balance, handling);
      && 2 <= |kinds| <= 5
      && kinds[0] == Subtotal && kinds[|kinds| - 1] == Total
      && (Discount in kinds <==> discount)
      && (BalanceUsed in kinds <==> balance)
      && (HandlingFee in kinds <==> handling)
  {
  }

  /** The kinds of row the totals block shows, in order: Subtotal, then
      Discount, Balance Used and Handling Fee each only when its amount is
      positive, then Total. */
  function Layout(b: Breakdown): (kinds: seq<RowKind>)
    ensures 2 <= |kinds| <= 5
    ensures kinds[0] == Subtotal && kinds[|kinds| - 1] == Total
    ensures Increasing(kinds)
    ensures Discount in kinds <==> b.discountAmount > 0
    ensures BalanceUsed in kinds <==> b.balanceAmount > 0
    ensures HandlingFee in kinds <==> b.handlingAmount > 0
  {
    var discount, balance, handling := b.discountAmount > 0, b.balanceAmount > 0, b.handlingAmount > 0;
    ArrangeIncreasing(discount, balance, handling);
    ArrangeMembers(discount, balance, handling);
    Arrange(discount, balance, handling)
  }

  /** The totals block (lines 338-364): one row per kind of `Layout`, each
      with its own caption and printed value. */
  function BuildTotals(b: Breakdown, t: Option<Translator>): (rows: seq<TotalsRow>)
    ensures |rows| == |Layout(b)|
    ensures forall i :: 0 <= i < |rows| ==> rows[i] == Row(b, t, Layout(b)[i])
  {
    var kinds := Layout(b);
    seq(|kinds|, i requires 0 <= i < |kinds| => Row(b, t, kinds[i]))
  }

  // ---------------------------------------------------------------------
  // Reading the totals block back
  // ---------------------------------------------------------------------

  /** How a reader of the document takes a printed row value: a leading
      minus sign in front of the currency glyph marks a deduction. */
  function ReadRow(value: string): Option<int> {
    if |value| > 0 && value[0] == '-' then
      match ParseAmount(value[1..])
      case None => None
      case Some(v) => Some(-v)
    else ParseAmount(value)
  }

  /** A printed value reads back as its amount, negated for a deduction. */
  lemma ReadPrinted(amount: int, deduction: bool)
    ensures ReadRow(Printed(amount, deduction)) == Some(if deduction then -amount else amount)
  {
    var f := FormatAmount(Some(amount));
    FormatAmountRoundTrip(Some(amount));
    if deduction {
      assert Printed(amount, deduction)[1..] == f;
    } else {
      assert Printed(amount, deduction) == f;
    }
  }

  /** `read` takes every printed value back to its amount, negated for a
      deduction. */
  ghost predicate ReadsPrinted(read: string -> Option<int>) {
    forall amount: int, deduction: bool ::
      read(Printed(amount, deduction)) == Some(if deduction then -amount else amount)
  }

  /** `ReadRow` is such a reader: the printed column loses no cents and
      no sign. */
  lemma ReadRowReadsPrinted()
    ensures ReadsPrinted(ReadRow)
  {
    forall amount: int, deduction: bool
      ensures ReadRow(Printed(amount, deduction)) == Some(if deduction then -amount else amount)
    {
      ReadPrinted(amount, deduction);
    }
  }

  /** Every row reads back as its amount with the sign of its kind: only
      discount and balance read as the negation of their amount. */
  lemma RowReadsBack(read: string -> Option<int>, b: Breakdown, t: Option<Translator>, k: RowKind)
    requires ReadsPrinted(read)
    ensures read(Row(b, t, k).value) == Some(SignedAmount(b, k))
  {
    var amount, deduction := Amount(b, k), IsDeduction(k);
    assert Row(b, t, k).value == Printed(amount, deduction);
    assert read(Printed(amount, deduction)) == Some(if deduction then -amount else amount);
  }

  /** What `read` takes from each row of `rows`, in order. */
  function Readings(read: string -> Option<int>, rows: seq<TotalsRow>): (xs: seq<Option<int>>)
    ensures |xs| == |rows|
    ensures forall i :: 0 <= i < |rows| ==> xs[i] == read(rows[i].value)
  {
    seq(|rows|, i requires 0 <= i < |rows| => read(rows[i].value))
  }

  /** The sum of a sequence of readings, if every one of them reads. */
  function SumAll(xs: seq<Option<int>>): Option<int> {
    if |xs| == 0 then Some(0)
    else
      match (SumAll(xs[..|xs| - 1]), xs[|xs| - 1])
      case (Some(s), Some(v)) => Some(s + v)
      case _ => None
  }

  /** The totals column adds up for `read`: the rows above the last read as
      numbers that sum to what the last row reads as. */
  predicate AddsUpFor(read: string -> Option<int>, rows: seq<TotalsRow>) {
    var xs := Readings(read, rows);
    |xs| > 0 && SumAll(xs[..|xs| - 1]).Some? && SumAll(xs[..|xs| - 1]) == xs[|xs| - 1]
  }

  /** The totals column adds up as a reader of the document takes it. */
  predicate AddsUp(rows: seq<TotalsRow>) {
    AddsUpFor(ReadRow, rows)
  }

  /** The signed amounts of a sequence of row kinds, summed. */
  function SignedTotal(b: Breakdown, kinds: seq<RowKind>): int {
    if |kinds| == 0 then 0 else SignedTotal(b, kinds[..|kinds| - 1]) + SignedAmount(b, kinds[|kinds| - 1])
  }

  lemma {:induction false} SignedTotalConcat(b: Breakdown, x: seq<RowKind>, y: seq<RowKind>)
    ensures SignedTotal(b, x + y) == SignedTotal(b, x) + SignedTotal(b, y)
    decreases |y|
  {
    if |y| > 0 {
      assert (x + y)[..|x + y| - 1] == x + y[..|y| - 1];
      SignedTotalConcat(b, x, y[..|y| - 1]);
    } else {
      assert x + y == x;
    }
  }

  /** Readings that are each their kind's signed amount sum to the kinds'
      signed total. */
  lemma {:induction false} SumOfReadings(b: Breakdown, xs: seq<Option<int>>, kinds: seq<RowKind>)
    requires |xs| == |kinds|
    requires forall i :: 0 <= i < |xs| ==> xs[i] == Some(SignedAmount(b, kinds[i]))
    ensures SumAll(xs) == Some(SignedTotal(b, kinds))
    decreases |xs|
  {
    if |xs| > 0 {
      var n := |xs| - 1;
      assert forall i :: 0 <= i < n ==> xs[..n][i] == xs[i] && kinds[..n][i] == kinds[i];
      SumOfReadings(b, xs[..n], kinds[..n]);
    }
  }

  /** The part of an adjustment the totals block shows: its row appears
      only when the amount is positive (lines 343, 349, 355). */
  function Shown(amount: int): int {
    if amount > 0 then amount else 0
  }

  /** The part of an adjustment the block drops: a negative amount. */
  function Dropped(amount: int): int {
    amount - Shown(amount)
  }

  /** What the rows above Total add up to: the subtotal less the shown
      discount and balance, plus the shown handling fee. */
  function AboveTotal(b: Breakdown): int {
    b.originalPrice - Shown(b.discountAmount) - Shown(b.balanceAmount) + Shown(b.handlingAmount)
  }

  /** The kinds shown above Total carry `AboveTotal`: a negative
      adjustment contributes nothing, because its row is not shown. */
  lemma LayoutAboveTotal(b: Breakdown)
    ensures var kinds := Layout(b);
      SignedTotal(b, kinds[..|kinds| - 1]) == AboveTotal(b)
  {
    var kinds := Layout(b);
    var discount := Optional(b.discountAmount > 0, Discount);
    var balance := Optional(b.balanceAmount > 0, BalanceUsed);
    var handling := Optional(b.handlingAmount > 0, HandlingFee);
    assert kinds[..|kinds| - 1] == [Subtotal] + discount + balance + handling;
    SignedTotalConcat(b, [Subtotal] + discount + balance, handling);
    SignedTotalConcat(b, [Subtotal] + discount, balance);
    SignedTotalConcat(b, [Subtotal], discount);
    assert SignedTotal(b, [Subtotal]) == b.originalPrice;
    assert SignedTotal(b, discount) == -Shown(b.discountAmount);
    assert SignedTotal(b, balance) == -Shown(b.balanceAmount);
    assert SignedTotal(b, handling) == Shown(b.handlingAmount);
  }

  /** Every row of the block reads back as its kind's signed amount. */
  lemma TotalsReadBack(read: string -> Option<int>, b: Breakdown, t: Option<Translator>)
    requires ReadsPrinted(read)
    ensures var rows := BuildTotals(b, t);
      forall i :: 0 <= i < |rows| ==> read(rows[i].value) == Some(SignedAmount(b, Layout(b)[i]))
  {
    var rows := BuildTotals(b, t);
    forall i | 0 <= i < |rows|
      ensures read(rows[i].value) == Some(SignedAmount(b, Layout(b)[i]))
    {
      RowReadsBack(read, b, t, Layout(b)[i]);
    }
  }

  /** Readings of the kinds of `Layout` add up exactly when the total is
      what the rows above it carry. */
  lemma SumsUpIff(b: Breakdown, xs: seq<Option<int>>)
    requires |xs| == |Layout(b)|
    requires forall i :: 0 <= i < |xs| ==> xs[i] == Some(SignedAmount(b, Layout(b)[i]))
    ensures var n := |xs| - 1;
      (SumAll(xs[..n]).Some? && SumAll(xs[..n]) == xs[n]) <==> b.finalTotal == AboveTotal(b)
  {
    var kinds := Layout(b);
    var n := |xs| - 1;
    assert forall i :: 0 <= i < n ==> xs[..n][i] == xs[i] && kinds[..n][i] == kinds[i];
    SumOfReadings(b, xs[..n], kinds[..n]);
    LayoutAboveTotal(b);
  }

  /** Rows that read as the kinds of `Layout` add up exactly when the
      total is what the rows above it carry. */
  lemma RowsAddUpIff(read: string -> Option<int>, b: Breakdown, rows: seq<TotalsRow>)
    requires |rows| == |Layout(b)|
    requires forall i :: 0 <= i < |rows| ==> read(rows[i].value) == Some(SignedAmount(b, Layout(b)[i]))
    ensures AddsUpFor(read, rows) <==> b.finalTotal == AboveTotal(b)
  {
    SumsUpIff(b, Readings(read, rows));
  }

  /** For every breakdown, the printed totals column adds up exactly when
      Total = Subtotal - Discount - Balance + Handling counting only the
      adjustments the block shows. */
  lemma TotalsAddUpIffFor(read: string -> Option<int>, b: Breakdown, t: Option<Translator>)
    requires ReadsPrinted(read)
    ensures AddsUpFor(read, BuildTotals(b, t)) <==> b.finalTotal == AboveTotal(b)
  {
    TotalsReadBack(read, b, t);
    RowsAddUpIff(read, b, BuildTotals(b, t));
  }

  /** The same for the document's reader `ReadRow`. */
  lemma TotalsAddUpIff(b: Breakdown, t: Option<Translator>)
    ensures AddsUp(BuildTotals(b, t)) <==> b.finalTotal == AboveTotal(b)
  {
    ReadRowReadsPrinted();
    TotalsAddUpIffFor(ReadRow, b, t);
  }

  /** With no negative adjustment every adjustment is shown, so the column
      adds up exactly when the breakdown reconciles. */
  lemma NonNegativeTotalsAddUpIff(b: Breakdown, t: Option<Translator>)
    requires b.discountAmount >= 0 && b.balanceAmount >= 0 && b.handlingAmount >= 0
    ensures AddsUp(BuildTotals(b, t))
            <==> b.finalTotal == b.originalPrice - b.discountAmount - b.balanceAmount + b.handlingAmount
  {
    assert AboveTotal(b) == b.originalPrice - b.discountAmount - b.balanceAmount + b.handlingAmount;
    TotalsAddUpIff(b, t);
  }

  /** A breakdown that reconciles prints a column that adds up exactly
      when the dropped negative adjustments cancel out: a negative handling
      fee must be matched by negative discount and balance. */
  lemma ReconcilingTotalsAddUpIff(b: Breakdown, t: Option<Translator>)
    requires b.finalTotal == b.originalPrice - b.discountAmount - b.balanceAmount + b.handlingAmount
    ensures AddsUp(BuildTotals(b, t))
            <==> Dropped(b.handlingAmount) == Dropped(b.discountAmount) + Dropped(b.balanceAmount)
  {
    assert b.finalTotal - AboveTotal(b)
           == Dropped(b.handlingAmount) - Dropped(b.discountAmount) - Dropped(b.balanceAmount);
    TotalsAddUpIff(b, t);
  }

  /** An order without a usable plan price gets a totals column that adds
      up exactly when its dropped negative adjustments cancel out. */
  lemma RebuiltSubtotalAddsUpIff(o: Order, t: Option<Translator>)
    requires !HasPlanPrice(o)
    ensures var b := Resolve(o);
      AddsUp(BuildTotals(b, t))
      <==> Dropped(b.handlingAmount) == Dropped(b.discountAmount) + Dropped(b.balanceAmount)
  {
    ReconstructedSubtotalReconciles(o);
    ReconcilingTotalsAddUpIff(Resolve(o), t);
  }

  /** In particular it always adds up when no adjustment is negative. */
  lemma RebuiltSubtotalAddsUp(o: Order, t: Option<Translator>)
    requires !HasPlanPrice(o)
    requires AmountOrZero(o.discountAmount) >= 0 && AmountOrZero(o.balanceAmount) >= 0
    requires AmountOrZero(o.handlingAmount) >= 0
    ensures AddsUp(BuildTotals(Resolve(o), t))
  {
    RebuiltSubtotalAddsUpIff(o, t);
  }

  /** A top-up of 5000 with a handling fee of -100: the breakdown
      reconciles (4900 = 5000 + (-100)), but the fee's row is not shown, so
      the column prints 50.00 above a TOTAL of 49.00 and does not add up. */
  lemma NegativeHandlingExample(o: Order, t: Option<Translator>)
    requires o == Order(None, None, None, None, None, None, Some(5000), None, None, Some(-100), None)
    ensures var b := Resolve(o);
      && b.finalTotal == b.originalPrice - b.discountAmount - b.balanceAmount + b.handlingAmount
      && Layout(b) == [Subtotal, Total]
      && !AddsUp(BuildTotals(b, t))
  {
    var b := Resolve(o);
    assert b == Breakdown(5000, 0, 0, -100, 5000, 4900);
    assert Layout(b) == [Subtotal, Total] by {
      assert Arrange(false, false, false) == [Subtotal, Total];
    }
    ReconcilingTotalsAddUpIff(b, t);
  }

  /** With a plan price and no negative adjustment, the column adds up
      exactly when the plan price is the amount paid plus discount and
      balance. */
  lemma PlanSubtotalAddsUpIff(o: Order, t: Option<Translator>)
    requires HasPlanPrice(o)
    requires AmountOrZero(o.discountAmount) >= 0 && AmountOrZero(o.balanceAmount) >= 0
    requires AmountOrZero(o.handlingAmount) >= 0
    ensures AddsUp(BuildTotals(Resolve(o), t))
            <==> o.plan.value.prices[o.period.value]
                 == AmountOrZero(o.totalAmount) + AmountOrZero(o.discountAmount) + AmountOrZero(o.balanceAmount)
  {
    PlanSubtotalReconcilesIff(o);
    NonNegativeTotalsAddUpIff(Resolve(o), t);
  }

  // ---------------------------------------------------------------------
  // Paid stamp
  // ---------------------------------------------------------------------

  /** The payment-method line of the stamp: "Via: <method name>". */
  datatype Via = Via(caption: string, methodName: string)

  datatype Stamp = Stamp(notice: string, via: Option<Via>)

  /** Lines 369-373: a completed (3) or discounted (4) order is stamped
      paid, with the payment method's name when the order has one. */
  function BuildStamp(o: Order, t: Option<Translator>): (stamp: Option<Stamp>)
    ensures stamp.Some? <==> o.status == Some(3) || o.status == Some(4)
    ensures stamp.Some? ==> stamp.value.notice == Translate(t, Entry("invoice.paid_notice", "PAID"))
    ensures stamp.Some? ==> (stamp.value.via.Some? <==> o.payment.Some? && Present(o.payment.value.name))
    ensures stamp.Some? && stamp.value.via.Some? ==>
      stamp.value.via.value == Via(Translate(t, Entry("invoice.payment_method", "Via")), o.payment.value.name.value)
  {
    if o.status == Some(3) || o.status == Some(4) then
      var via := if o.payment.Some? && Present(o.payment.value.name)
        then Some(Via(Translate(t, Entry("invoice.payment_method", "Via")), o.payment.value.name.value))
        else None;
      Some(Stamp(Translate(t, Entry("invoice.paid_notice", "PAID")), via))
    else None
  }

  /** The paid rule agrees with the status table: an order is stamped
      exactly when its default status label is 已完成 (completed) or
      已折抵 (discounted). */
  lemma StampFollowsStatusLabel(o: Order, t: Option<Translator>)
    ensures BuildStamp(o, t).Some?
            <==> GetStatusText(o.status, None) == "已完成" || GetStatusText(o.status, None) == "已折抵"
  {
    if o.status.Some? && 0 <= o.status.value <= 4 {
      DefaultStatusLabelsIdentifyStatus(o.status, Some(3));
      DefaultStatusLabelsIdentifyStatus(o.status, Some(4));
      assert GetStatusText(Some(3), None) == "已完成";
      assert GetStatusText(Some(4), None) == "已折抵";
    } else {
      assert GetStatusText(o.status, None) == "未知状态";
    }
  }

  /** The line item's description is never empty without a translator, and
      a translator can change it only for a deposit order without a named
      plan, whose description is the translated top-up title. */
  lemma PlanNameTranslation(o: Order, t1: Option<Translator>, t2: Option<Translator>)
    ensures PlanName(o, None) != ""
    ensures (o.plan.Some? && Present(o.plan.value.name)) || o.period != Some("deposit")
            ==> PlanName(o, t1) == PlanName(o, t2)
  {
  }

  // ---------------------------------------------------------------------
  // The document
  // ---------------------------------------------------------------------

  /** A captioned field: "BILL TO" with the e-mail, "INVOICE NO" with the
      trade number, "DATE" with the invoice date. */
  datatype Field = Field(caption: string, text: string)

  /** The headers of the line-item table. */
  datatype Columns = Columns(description: string, period: string, quantity: string, amount: string)

  /** The single line item: the plan, its billing period, quantity 1 and
      the subtotal. */
  datatype LineItem = LineItem(description: string, period: string, quantity: nat, amount: string)

  datatype Footer = Footer(message: string, generatedBy: string)

  datatype InvoiceDoc = InvoiceDoc(
    pageTitle: string,
    siteName: string,
    heading: string,
    billTo: Field,
    invoiceNo: Field,
    invoiceDate: Field,
    columns: Columns,
    item: LineItem,
    totals: seq<TotalsRow>,
    stamp: Option<Stamp>,
    footer: Footer)

  const BillToCaption: Entry := Entry("invoice.bill_to", "BILL TO")
  const InvoiceNoCaption: Entry := Entry("invoice.invoice_no", "INVOICE NO")
  const DateCaption: Entry := Entry("invoice.invoice_date", "DATE")
  const DescriptionHeader: Entry := Entry("invoice.description", "DESCRIPTION")
  const PeriodHeader: Entry := Entry("invoice.period", "PERIOD")
  const QuantityHeader: Entry := Entry("invoice.qty", "QTY")
  const AmountHeader: Entry := Entry("invoice.amount", "AMOUNT")
  const FooterMessage: Entry := Entry("invoice.footer_text", "Thank you for your business!")

  /** `printInvoice` without the markup: every string the page shows, in
      place. `configuredSite` is the site name from the configuration, and
      `render` the locale's date rendering. */
  function BuildInvoice(o: Order, user: Option<User>, configuredSite: Option<string>,
                        t: Option<Translator>, render: int -> string): (doc: InvoiceDoc)
    ensures doc.totals == BuildTotals(Resolve(o), t)
    ensures doc.siteName == SiteName(configuredSite) && doc.heading == "INVOICE"
    ensures doc.stamp == BuildStamp(o, t)
    ensures doc.item.quantity == 1
    ensures doc.item.amount == doc.totals[0].value
    ensures ReadRow(doc.item.amount) == Some(Resolve(o).originalPrice)
    ensures doc.item.description == PlanName(o, t) && doc.item.period == FormatPeriod(o.period, t)
    ensures doc.stamp.Some? <==> o.status == Some(3) || o.status == Some(4)
    ensures doc.siteName != "" && doc.footer.generatedBy == "Generated by " + doc.siteName
    ensures doc.pageTitle == "Invoice - " + doc.invoiceNo.text
    ensures doc.billTo.text == UserEmail(user) && doc.invoiceNo.text == TradeNo(o)
    ensures doc.invoiceDate.text == InvoiceDate(o, render)
  {
    var site := SiteName(configuredSite);
    var tradeNo := TradeNo(o);
    var b := Resolve(o);
    var totals := BuildTotals(b, t);
    ReadPrinted(b.originalPrice, false);
    InvoiceDoc(
      "Invoice - " + tradeNo,
      site,
      "INVOICE",
      Field(Translate(t, BillToCaption), UserEmail(user)),
      Field(Translate(t, InvoiceNoCaption), tradeNo),
      Field(Translate(t, DateCaption), InvoiceDate(o, render)),
      Columns(Translate(t, DescriptionHeader), Translate(t, PeriodHeader),
              Translate(t, QuantityHeader), Translate(t, AmountHeader)),
      LineItem(PlanName(o, t), FormatPeriod(o.period, t), 1, totals[0].value),
      totals,
      BuildStamp(o, t),
      Footer(Translate(t, FooterMessage), "Generated by " + site))
  }

  /** Every row of the totals block is captioned with its kind's entry. */
  lemma TotalsCaptions(b: Breakdown, t: Option<Translator>)
    ensures var rows := BuildTotals(b, t);
      forall i :: 0 <= i < |rows| ==> rows[i].caption == Translate(t, RowEntry(rows[i].kind))
  {
    var rows := BuildTotals(b, t);
    forall i | 0 <= i < |rows|
      ensures rows[i].caption == Translate(t, RowEntry(rows[i].kind))
    {
      assert rows[i] == Row(b, t, Layout(b)[i]);
    }
  }

  /** A supplied translator is used verbatim for every caption of the page,
      with no fallback even when it answers with the empty string. */
  lemma TranslatorUsedVerbatim(o: Order, user: Option<User>, configuredSite: Option<string>,
                               f: Translator, render: int -> string)
    ensures var doc := BuildInvoice(o, user, configuredSite, Some(f), render);
      && doc.billTo.caption == f("invoice.bill_to")
      && doc.invoiceNo.caption == f("invoice.invoice_no")
      && doc.invoiceDate.caption == f("invoice.invoice_date")
      && doc.columns == Columns(f("invoice.description"), f("invoice.period"), f("invoice.qty"), f("invoice.amount"))
      && doc.footer.message == f("invoice.footer_text")
      && doc.totals[0].caption == f("invoice.subtotal")
      && doc.totals[|doc.totals| - 1].caption == f("invoice.total")
      && (forall i :: 0 <= i < |doc.totals| ==> doc.totals[i].caption == f(RowEntry(doc.totals[i].kind).key))
      && (doc.stamp.Some? ==> doc.stamp.value.notice == f("invoice.paid_notice"))
      && (doc.stamp.Some? && doc.stamp.value.via.Some? ==>
            doc.stamp.value.via.value.caption == f("invoice.payment_method"))
  {
    TotalsCaptions(Resolve(o), Some(f));
  }

  /** Without a translator the page shows the fixed English captions. */
  lemma DefaultCaptions(o: Order, user: Option<User>, configuredSite: Option<string>, render: int -> string)
    ensures var doc := BuildInvoice(o, user, configuredSite, None, render);
      && doc.billTo.caption == "BILL TO"
      && doc.invoiceNo.caption == "INVOICE NO"
      && doc.invoiceDate.caption == "DATE"
      && doc.columns == Columns("DESCRIPTION", "PERIOD", "QTY", "AMOUNT")
      && doc.footer.message == "Thank you for your business!"
      && doc.totals[0].caption == "Subtotal"
      && doc.totals[|doc.totals| - 1].caption == "TOTAL"
      && (forall i :: 0 <= i < |doc.totals| ==> doc.totals[i].caption == RowEntry(doc.totals[i].kind).fallback)
      && (doc.stamp.Some? ==> doc.stamp.value.notice == "PAID")
      && (doc.stamp.Some? && doc.stamp.value.via.Some? ==> doc.stamp.value.via.value.caption == "Via")
  {
    TotalsCaptions(Resolve(o), None);
  }

  /** Once an order is paid its invoice is dated by the payment alone: the
      creation time no longer matters. */
  lemma PaidDateIgnoresCreation(o: Order, createdAt: Option<int>, render: int -> string)
    requires Nonzero(o.paidAt)
    ensures InvoiceDate(o.(createdAt := createdAt), render) == InvoiceDate(o, render)
  {
  }

  // Printed values of the examples below, one per lemma to keep each small.

  lemma PrintedHundred(amount: int)
    requires amount == 10000
    ensures Printed(amount, false) == "¥100.00"
  {
    assert Printed(10000, false) == "¥100.00";
  }

  lemma PrintedTenOff(amount: int)
    requires amount == 1000
    ensures Printed(amount, true) == "-¥10.00"
  {
    assert Printed(1000, true) == "-¥10.00";
  }

  lemma PrintedNinety(amount: int)
    requires amount == 9000
    ensures Printed(amount, false) == "¥90.00"
  {
    assert Printed(9000, false) == "¥90.00";
  }

  lemma PrintedFiftyFive(amount: int)
    requires amount == 5500
    ensures Printed(amount, false) == "¥55.00"
  {
    assert Printed(5500, false) == "¥55.00";
  }

  lemma PrintedFiveOff(amount: int)
    requires amount == 500
    ensures Printed(amount, true) == "-¥5.00"
  {
    assert Printed(500, true) == "-¥5.00";
  }

  lemma PrintedFifty(amount: int)
    requires amount == 5000
    ensures Printed(amount, false) == "¥50.00"
  {
    assert Printed(5000, false) == "¥50.00";
  }

  /** A three-row block holds the rows of its three kinds. */
  lemma ThreeRows(b: Breakdown, t: Option<Translator>, k0: RowKind, k1: RowKind, k2: RowKind)
    requires Layout(b) == [k0, k1, k2]
    ensures BuildTotals(b, t) == [Row(b, t, k0), Row(b, t, k1), Row(b, t, k2)]
  {
    var rows := BuildTotals(b, t);
    assert |rows| == 3;
    assert rows[0] == Row(b, t, k0) && rows[1] == Row(b, t, k1) && rows[2] == Row(b, t, k2);
  }

  /** The rows of the monthly example below, as printed. */
  lemma MonthlyPlanRows(b: Breakdown)
    requires b == Breakdown(10000, 1000, 0, 0, 9000, 9000)
    ensures Row(b, None, Subtotal) == TotalsRow(Subtotal, "Subtotal", "¥100.00")
    ensures Row(b, None, Discount) == TotalsRow(Discount, "Discount", "-¥10.00")
    ensures Row(b, None, Total) == TotalsRow(Total, "TOTAL", "¥90.00")
  {
    PrintedHundred(b.originalPrice);
    PrintedTenOff(b.discountAmount);
    PrintedNinety(b.finalTotal);
  }

  /** The totals block of the monthly example below: no balance or
      handling row. */
  lemma MonthlyPlanTotals(b: Breakdown)
    requires b == Breakdown(10000, 1000, 0, 0, 9000, 9000)
    ensures BuildTotals(b, None) == [TotalsRow(Subtotal, "Subtotal", "¥100.00"),
                                     TotalsRow(Discount, "Discount", "-¥10.00"),
                                     TotalsRow(Total, "TOTAL", "¥90.00")]
  {
    assert Layout(b) == [Subtotal, Discount, Total] by {
      assert Arrange(true, false, false) == [Subtotal, Discount, Total];
    }
    ThreeRows(b, None, Subtotal, Discount, Total);
    MonthlyPlanRows(b);
  }

  /** A completed monthly order with a discount: subtotal from the plan,
      a discount row, no balance or handling row, and the paid stamp. */
  lemma MonthlyPlanExample(o: Order, render: int -> string)
    requires o == Order(None, None, None, Some(3), Some("month_price"),
                        Some(Plan(None, map["month_price" := 10000])),
                        Some(9000), Some(1000), Some(0), Some(0), None)
    ensures var doc := BuildInvoice(o, None, None, None, render);
      && Resolve(o) == Breakdown(10000, 1000, 0, 0, 9000, 9000)
      && doc.totals == [TotalsRow(Subtotal, "Subtotal", "¥100.00"),
                        TotalsRow(Discount, "Discount", "-¥10.00"),
                        TotalsRow(Total, "TOTAL", "¥90.00")]
      && doc.stamp == Some(Stamp("PAID", None))
  {
    assert HasPlanPrice(o);
    MonthlyPlanTotals(Resolve(o));
  }

  /** The rows of the top-up example below, as printed. */
  lemma DepositRows(b: Breakdown)
    requires b == Breakdown(5500, 0, 500, 0, 5000, 5000)
    ensures Row(b, None, Subtotal) == TotalsRow(Subtotal, "Subtotal", "¥55.00")
    ensures Row(b, None, BalanceUsed) == TotalsRow(BalanceUsed, "Balance Used", "-¥5.00")
    ensures Row(b, None, Total) == TotalsRow(Total, "TOTAL", "¥50.00")
  {
    PrintedFiftyFive(b.originalPrice);
    PrintedFiveOff(b.balanceAmount);
    PrintedFifty(b.finalTotal);
  }

  /** The totals block of the top-up example below: no discount or
      handling row. */
  lemma DepositTotals(b: Breakdown)
    requires b == Breakdown(5500, 0, 500, 0, 5000, 5000)
    ensures BuildTotals(b, None) == [TotalsRow(Subtotal, "Subtotal", "¥55.00"),
                                     TotalsRow(BalanceUsed, "Balance Used", "-¥5.00"),
                                     TotalsRow(Total, "TOTAL", "¥50.00")]
  {
    assert Layout(b) == [Subtotal, BalanceUsed, Total] by {
      assert Arrange(false, true, false) == [Subtotal, BalanceUsed, Total];
    }
    ThreeRows(b, None, Subtotal, BalanceUsed, Total);
    DepositRows(b);
  }

  /** A top-up order without a plan, part paid from the balance: the
      subtotal is rebuilt and the balance row shows the deduction. */
  lemma DepositTotalsExample(o: Order)
    requires o == Order(None, None, None, Some(9), Some("deposit"), None,
                        Some(5000), Some(0), Some(500), None, None)
    ensures Resolve(o) == Breakdown(5500, 0, 500, 0, 5000, 5000)
    ensures BuildTotals(Resolve(o), None) == [TotalsRow(Subtotal, "Subtotal", "¥55.00"),
                                             TotalsRow(BalanceUsed, "Balance Used", "-¥5.00"),
                                             TotalsRow(Total, "TOTAL", "¥50.00")]
  {
    DepositTotals(Resolve(o));
  }

  /** The same order's line item is the top-up, and its unknown status code
      leaves the invoice unstamped. */
  lemma DepositItemExample(render: int -> string)
    ensures var o := Order(None, None, None, Some(9), Some("deposit"), None,
                           Some(5000), Some(0), Some(500), None, None);
      var doc := BuildInvoice(o, None, None, None, render);
      && doc.item.description == "账户充值"
      && doc.item.period == "充值"
      && doc.stamp == None
  {
    DefaultPeriodLabels("deposit");
  }
}
