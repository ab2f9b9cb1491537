/** Display labels: the injected translation function and the two code
    tables of src/utils/invoiceGenerator.js, `formatPeriod` (period codes)
    and `getStatusText` (order status codes). */
module Labels {
  import opened Wrappers

  /** The i18n function `t`, from a translation key to display text. Its
      strings are not part of this model. */
  type Translator = string -> string

  /** One entry of a label table: the translation key asked of `t`, and the
      text used when no translator is supplied. */
  datatype Entry = Entry(key: string, fallback: string)

  /** `t ? t(key) : fallback`: a supplied translator is used verbatim, even
      when it answers with the empty string. */
  function Translate(t: Option<Translator>, e: Entry): string {
    match t
    case None => e.fallback
    case Some(f) => f(e.key)
  }

  /** The nine period codes and their labels. */
  const PeriodTable: map<string, Entry> := map[
    "month_price" := Entry("shop.plan.price_options.month", "月付"),
    "quarter_price" := Entry("shop.plan.price_options.quarter", "季付"),
    "half_year_price" := Entry("shop.plan.price_options.half_year", "半年付"),
    "year_price" := Entry("shop.plan.price_options.year", "年付"),
    "two_year_price" := Entry("shop.plan.price_options.two_year", "两年付"),
    "three_year_price" := Entry("shop.plan.price_options.three_year", "三年付"),
    "onetime_price" := Entry("shop.plan.price_options.onetime", "一次性"),
    "reset_price" := Entry("payment.period_types.reset_price", "重置流量包"),
    "deposit" := Entry("payment.period_types.deposit", "充值")
  ]

  /** The five order status codes and their labels. */
  const StatusTable: map<int, Entry> := map[
    0 := Entry("payment.status.pending", "待支付"),
    1 := Entry("payment.status.processing", "开通中"),
    2 := Entry("payment.status.cancelled", "已取消"),
    3 := Entry("payment.status.completed", "已完成"),
    4 := Entry("payment.status.discounted", "已折抵")
  ]

  const UnknownStatus: Entry := Entry("payment.status.unknown", "未知状态")

  /** `periodMap[period]`: the table's label for a known code, and the empty
      text (falsy, as `undefined` is) for any other code or none. */
  function PeriodLookup(period: Option<string>, t: Option<Translator>): string {
    if period.Some? && period.value in PeriodTable then Translate(t, PeriodTable[period.value]) else ""
  }

  /** `formatPeriod`: `periodMap[period] || period || '-'`. The label is never
      empty; it is the table's label for a known code when that label is
      non-empty, otherwise the code itself when there is one, otherwise "-". */
  function FormatPeriod(period: Option<string>, t: Option<Translator>): (text: string)
    ensures text != ""
    ensures period.Some? && period.value in PeriodTable && Translate(t, PeriodTable[period.value]) != ""
            ==> text == Translate(t, PeriodTable[period.value])
    ensures (period.None? || period.value !in PeriodTable || Translate(t, PeriodTable[period.value]) == "")
            ==> text == (if period.Some? && period.value != "" then period.value else "-")
  {
    var known := PeriodLookup(period, t);
    if known != "" then known
    else if period.Some? && period.value != "" then period.value
    else "-"
  }

  /** `statusMap[status]`: the table's label for codes 0 to 4, and the empty
      text for any other code or none. */
  function StatusLookup(status: Option<int>, t: Option<Translator>): string {
    if status.Some? && status.value in StatusTable then Translate(t, StatusTable[status.value]) else ""
  }

  /** `getStatusText`: the table's label for codes 0 to 4 when it is
      non-empty, and the unknown-status label for every other case. */
  function GetStatusText(status: Option<int>, t: Option<Translator>): (text: string)
    ensures status.Some? && 0 <= status.value <= 4 && Translate(t, StatusTable[status.value]) != ""
            ==> text == Translate(t, StatusTable[status.value])
    ensures (status.None? || !(0 <= status.value <= 4) || Translate(t, StatusTable[status.value]) == "")
            ==> text == Translate(t, UnknownStatus)
    ensures t.None? ==> text != ""
  {
    var known := StatusLookup(status, t);
    if known != "" then known else Translate(t, UnknownStatus)
  }

  /** Without a translator the nine known period codes get their fixed
      labels, and any other non-empty code is shown as itself. */
  lemma DefaultPeriodLabels(code: string)
    ensures code == "month_price" ==> FormatPeriod(Some(code), None) == "月付"
    ensures code == "quarter_price" ==> FormatPeriod(Some(code), None) == "季付"
    ensures code == "half_year_price" ==> FormatPeriod(Some(code), None) == "半年付"
    ensures code == "year_price" ==> FormatPeriod(Some(code), None) == "年付"
    ensures code == "two_year_price" ==> FormatPeriod(Some(code), None) == "两年付"
    ensures code == "three_year_price" ==> FormatPeriod(Some(code), None) == "三年付"
    ensures code == "onetime_price" ==> FormatPeriod(Some(code), None) == "一次性"
    ensures code == "reset_price" ==> FormatPeriod(Some(code), None) == "重置流量包"
    ensures code == "deposit" ==> FormatPeriod(Some(code), None) == "充值"
    ensures code !in PeriodTable && code != "" ==> FormatPeriod(Some(code), None) == code
    ensures FormatPeriod(Some(""), None) == "-" && FormatPeriod(None, None) == "-"
  {
  }

  /** An unknown period code is shown the same whatever the translator. */
  lemma UnknownPeriodIgnoresTranslation(period: Option<string>, t1: Option<Translator>, t2: Option<Translator>)
    requires period.None? || period.value !in PeriodTable
    ensures FormatPeriod(period, t1) == FormatPeriod(period, t2)
  {
  }

  /** Without a translator the five status labels are pairwise distinct and
      differ from the unknown-status label, so the label identifies the code. */
  lemma DefaultStatusLabelsIdentifyStatus(a: Option<int>, b: Option<int>)
    requires a.Some? && 0 <= a.value <= 4
    ensures GetStatusText(a, None) != GetStatusText(None, None)
    ensures GetStatusText(a, None) == GetStatusText(b, None) <==> a == b
  {
  }
}
