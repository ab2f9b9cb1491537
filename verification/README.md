# Invoice generator model

A Dafny model of the invoice generator in `src/utils/invoiceGenerator.js`.
`printInvoice` takes an order record, a user record and an optional i18n
function `t`. It derives the monetary breakdown and the display strings,
then writes an HTML page for the browser to print. The model keeps
everything up to the page:

- `formatAmount`, `formatPeriod`, `getStatusText` and the date fallback of
  `formatDate`.
- The data preparation: site name, e-mail, trade number, invoice date and
  plan name.
- The amount calculation: subtotal, discount, balance, handling fee, total.
- The totals block and its optional rows.
- The paid stamp.

The page itself is modelled as a structured `InvoiceDoc` value holding every
string the page shows, in place of the HTML text.

Modules:

- `Wrappers`: `Option`.
- `Orders`: the loosely typed order, plan, payment and user records, every
  field optional. Also JavaScript truthiness (`Present`, `Nonzero`) and the
  `x || 0` / `s || fallback` defaults.
- `Money`: `formatAmount` on integer cents, with a reader `ParseAmount` and
  the round trip between them.
- `Labels`: the translator, the period and status tables, `formatPeriod`
  and `getStatusText`.
- `Amounts`: the breakdown (`Resolve`) and when it reconciles.
- `Invoice`: the header fields, the totals block, the stamp and the whole
  document. It also holds a document reader (`ReadRow`) and the proof that
  the printed totals column adds up exactly when TOTAL equals the subtotal
  less the shown discount and balance plus the shown handling fee
  (`AboveTotal`). With no negative adjustment, that is exactly when the
  breakdown reconciles.

Amounts and plan prices are integers in cents. Timestamps are integers; the
locale's date rendering is the parameter `render`. The site name from the
configuration is the parameter `configuredSite`.

The model follows the code in these points:

- Without a translator, the period and status labels are the code's Chinese
  strings (月付, 待支付, ...), not English ones. The top-up title is 账户充值.
- A supplied translator is used verbatim: an empty answer is shown as empty.
  The only exceptions are the `||` chains of `formatPeriod` and
  `getStatusText`, where an empty answer falls through to the next
  alternative.
- The currency glyph is `¥`.
- The optional rows of the totals block are guarded by `> 0`, so a
  negative discount, balance or handling amount has no row. A negative
  handling fee still counts in TOTAL, which is paid + handling. A negative
  discount or balance still lowers the subtotal when it is rebuilt as
  paid + discount + balance, for an order without a plan price. The model
  keeps this: the rows above TOTAL carry the subtotal minus the shown
  discount and balance, plus the shown handling fee (`AboveTotal`), and
  TOTAL need not equal that sum.

## Model

| member | source | states |
|---|---|---|
| Money.FormatAmount | src/utils/invoiceGenerator.js:11-14 | The text starts with ¥, has at least one digit before the point and exactly two after it. It has a minus sign after the glyph exactly when the amount is negative. The whole units after the glyph and sign are digits with no leading zero (a lone 0 excepted). An absent amount prints as ¥0.00. |
| Money.FormatAmountRoundTrip | src/utils/invoiceGenerator.js:11-14 | Reading a formatted amount back gives the amount in cents, and 0 for an absent one: formatting loses no cent and no sign. |
| Money.Fixed2RoundTrip | src/utils/invoiceGenerator.js:13 | The two-decimal rendering of any integer number of cents, after the glyph, reads back as that number. |
| Money.DigitsValueOfNatText | src/utils/invoiceGenerator.js:13 | The decimal digits printed for the whole units denote exactly those units. |
| Money.FormatAmountSamples | src/utils/invoiceGenerator.js:11-14 | 10000 cents print as ¥100.00, 1234 as ¥12.34, and -5 as ¥-0.05, with the sign after the glyph. |
| Labels.FormatPeriod | src/utils/invoiceGenerator.js:34-47 | The label is never empty. A known period code with a non-empty label shows that label. Otherwise the code itself is shown when it is non-empty, else "-". |
| Labels.DefaultPeriodLabels | src/utils/invoiceGenerator.js:35-46 | Without a translator the nine codes show their fixed labels (月付 … 充值). Any other non-empty code shows as itself; an empty or absent code shows as "-". |
| Labels.UnknownPeriodIgnoresTranslation | src/utils/invoiceGenerator.js:46 | An absent or unknown period code is shown the same whatever translator is supplied. |
| Labels.GetStatusText | src/utils/invoiceGenerator.js:52-61 | Codes 0 to 4 show their label when it is non-empty. Every other case shows the unknown-status label. Without a translator the text is never empty. |
| Labels.DefaultStatusLabelsIdentifyStatus | src/utils/invoiceGenerator.js:53-60 | Without a translator the five status labels differ from each other and from the unknown-status label, so the label identifies the code. |
| Amounts.Resolve | src/utils/invoiceGenerator.js:91-108 | Each amount is the order's value, and 0 exactly when the value is absent or zero. The subtotal is the plan's non-zero price for the period when there is one, else paid + discount + balance. The total is paid + handling. |
| Amounts.ReconstructedSubtotalReconciles | src/utils/invoiceGenerator.js:83-108 | Without a plan price, total = subtotal - discount - balance + handling holds for every order. |
| Amounts.PlanSubtotalReconcilesIff | src/utils/invoiceGenerator.js:98-108 | With a plan price, that identity holds if and only if the plan price equals paid + discount + balance. |
| Amounts.ZeroPlanPriceIsRebuilt | src/utils/invoiceGenerator.js:99-105 | A zero plan price counts as no price: the subtotal is rebuilt from the order's amounts. |
| Invoice.SiteName | src/utils/invoiceGenerator.js:70 | The configured site name when it is non-empty, else "EZ-Theme". Never empty. |
| Invoice.UserEmail | src/utils/invoiceGenerator.js:74 | The user's e-mail when there is a user with a non-empty e-mail, else "-". |
| Invoice.TradeNo | src/utils/invoiceGenerator.js:75 | The trade number when it is non-empty, else "-". |
| Invoice.FormatDate | src/utils/invoiceGenerator.js:19-29 | A missing or zero timestamp shows as "-". Any other timestamp shows as the locale's rendering of it. |
| Invoice.InvoiceDate | src/utils/invoiceGenerator.js:76 | The rendered payment time when it is non-zero. Otherwise the rendered creation time when that is non-zero. Otherwise "-". |
| Invoice.PaidDateIgnoresCreation | src/utils/invoiceGenerator.js:76 | Once an order has a payment time, changing its creation time does not change the invoice date. |
| Invoice.PlanName | src/utils/invoiceGenerator.js:80 | The plan's non-empty name, else the top-up title for a deposit order, else "-". |
| Invoice.PlanNameTranslation | src/utils/invoiceGenerator.js:80 | Without a translator the plan name is never empty. The translator can change it only for a deposit order with no named plan. |
| Invoice.Layout | src/utils/invoiceGenerator.js:338-364 | The block starts with Subtotal and ends with Total, in the fixed order, with no kind twice. Discount, Balance Used and Handling Fee each appear exactly when their amount is positive. |
| Invoice.BuildTotals | src/utils/invoiceGenerator.js:338-364 | One row per kind of the layout, in order, with that kind's caption and printed value. |
| Invoice.TotalsCaptions | src/utils/invoiceGenerator.js:339-360 | Every row's caption is its kind's translation, or its English caption without a translator. |
| Invoice.ReadPrinted | src/utils/invoiceGenerator.js:340-363 | The reader takes a printed row value back to its amount, negated when it carries the deduction minus sign. |
| Invoice.ReadRowReadsPrinted | src/utils/invoiceGenerator.js:340-363 | The document reader reads every printed value, of every amount, correctly. |
| Invoice.RowReadsBack | src/utils/invoiceGenerator.js:339-363 | For any reader that reads printed values correctly, every row reads as its amount, and only the discount and balance rows read as the negation of their amount. |
| Invoice.TotalsReadBack | src/utils/invoiceGenerator.js:338-364 | For such a reader, every row of a built block reads as its kind's signed amount. |
| Invoice.LayoutAboveTotal | src/utils/invoiceGenerator.js:338-359 | For every breakdown, the rows above Total carry the subtotal minus the positive part of the discount and of the balance, plus the positive part of the handling fee. |
| Invoice.SumOfReadings | src/utils/invoiceGenerator.js:338-364 | Readings that each equal their kind's signed amount sum to the signed total of those kinds. |
| Invoice.RowsAddUpIff | src/utils/invoiceGenerator.js:338-364 | Rows that read as their kinds' signed amounts add up if and only if the total equals the amount the rows above it carry. |
| Invoice.TotalsAddUpIffFor | src/utils/invoiceGenerator.js:338-364 | For every breakdown and any reader that reads printed values correctly, the column adds up if and only if the total equals the amount the rows above it carry. |
| Invoice.TotalsAddUpIff | src/utils/invoiceGenerator.js:338-364 | The same for the document reader: the rows above TOTAL sum to TOTAL if and only if total = subtotal - shown discount - shown balance + shown handling fee. |
| Invoice.NonNegativeTotalsAddUpIff | src/utils/invoiceGenerator.js:338-364 | With no negative adjustment, the column adds up if and only if total = subtotal - discount - balance + handling. |
| Invoice.ReconcilingTotalsAddUpIff | src/utils/invoiceGenerator.js:338-364 | For a breakdown that reconciles, the column adds up if and only if the negative part of the handling fee equals the negative parts of discount and balance together. |
| Invoice.RebuiltSubtotalAddsUpIff | src/utils/invoiceGenerator.js:102-108 | For an order without a plan price, the column adds up if and only if the dropped negative handling fee equals the dropped negative discount and balance. |
| Invoice.RebuiltSubtotalAddsUp | src/utils/invoiceGenerator.js:102-108 | An order without a plan price always gets a totals column that adds up, given no negative adjustment. |
| Invoice.NegativeHandlingExample | src/utils/invoiceGenerator.js:355-363 | An order paying 5000 with a handling fee of -100 reconciles, shows only Subtotal and TOTAL, and its column does not add up. |
| Invoice.PlanSubtotalAddsUpIff | src/utils/invoiceGenerator.js:98-108 | With a plan price and given no negative adjustment, the column adds up if and only if the plan price equals paid + discount + balance. |
| Invoice.BuildStamp | src/utils/invoiceGenerator.js:369-373 | There is a stamp exactly for status 3 or 4. It carries the paid notice. It has a "Via" line exactly when the payment has a non-empty name, and that line shows the name. |
| Invoice.StampFollowsStatusLabel | src/utils/invoiceGenerator.js:52-61 | An invoice is stamped exactly when the status's default label is 已完成 or 已折抵. |
| Invoice.BuildInvoice | src/utils/invoiceGenerator.js:110-379 | The page shows the totals block of the resolved breakdown. The single line item has quantity 1 and its amount reads as the subtotal. It shows the plan name and period label. It carries the stamp of the order. The title is "Invoice - " and the trade number, the heading is INVOICE, and the page and footer name the site. It shows the e-mail, trade number and invoice date. |
| Invoice.TranslatorUsedVerbatim | src/utils/invoiceGenerator.js:294-377 | With a translator every caption of the page is the translator's answer for its key, with no fallback. This covers every totals row and the Via caption. |
| Invoice.DefaultCaptions | src/utils/invoiceGenerator.js:294-377 | Without a translator the page shows the fixed English captions (BILL TO, INVOICE NO, DATE, the column headers, every totals row's caption, PAID, Via, the footer text). |
| Invoice.MonthlyPlanExample | src/utils/invoiceGenerator.js:91-373 | The completed monthly order has this breakdown: subtotal 10000, discount 1000, total 9000. Its block is Subtotal ¥100.00, Discount -¥10.00, TOTAL ¥90.00, with the PAID stamp. |
| Invoice.DepositTotalsExample | src/utils/invoiceGenerator.js:91-364 | A top-up of 5000 with 500 from the balance rebuilds a subtotal of 5500. Its block is Subtotal ¥55.00, Balance Used -¥5.00, TOTAL ¥50.00. |
| Invoice.DepositItemExample | src/utils/invoiceGenerator.js:80-81 | The top-up's line item is 账户充值 / 充值. Its unknown status 9 leaves it unstamped. |

## Left out

- The HTML markup, the CSS and the print script are left out. So are `window.open`, `document.write` and the `alert` for a blocked pop-up: they are output plumbing, and the document is modelled as the structured value they would show.
- The `config` import is left out; the configured site name is the parameter `configuredSite`.
- The contents of the translation tables are left out; `t` is any function from key to text.
- `toLocaleDateString` is left out, and with it the conversion of seconds to a `Date`; the locale's rendering is the parameter `render`. Only the "-" fallback for a missing or zero timestamp is modelled.
- Money.FormatAmount: amounts are integers in cents, so the floating-point `amount / 100` and `toFixed(2)` are modelled as exact decimal division. Three JavaScript number effects are not modelled. Non-integer amounts are rounded. `amount / 100` is rounded to a double, which can change the printed cents from about 2^52 cents (7·10^15) up. From 10^23 cents (10^21 in whole units) `toFixed` uses exponential notation.
- Amounts.Resolve: `Math.round` on the plan price is the identity, because prices are integer cents. Amounts that arrive as strings or other non-numbers are not modelled.
- Amounts.Resolve: the sums at lines 104 and 108 are modelled as exact integer sums. As JavaScript doubles they round once a sum passes 2^53, and from about 2^52 cents `formatAmount` already prints an amount inexactly.
- Amounts.Resolve: the plan price is read as `plan[period]`, so any property of the plan can be read. A period of "name" would read the plan's name. The model reads prices only from the plan's price table.
- Labels.FormatPeriod: object-prototype keys such as "constructor" are not modelled. The code finds such keys in the period and status tables and gets a function back.
- Labels.GetStatusText: status codes are integers. A status given as a string ("3") would find its label in the code's table but would not be stamped (`=== 3`); that mixed case is not modelled.
- Labels.GetStatusText: the status text is computed at line 77 but never placed on the page, so the document does not hold it; it is modelled on its own.
- Idempotence of the formatting functions is not stated: they are pure, so it holds trivially.
