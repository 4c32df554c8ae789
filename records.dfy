/** The expense record as the client receives it, and the JavaScript number
    values that flow through the UI. Amounts are integer paise. */
module Records {
  import opened Wrappers

  /** A JavaScript number as far as this client can tell: `NaN` or a finite amount. */
  datatype Num = NaN | Finite(v: int)

  /** `parseFloat`, an injected foreign function: what it makes of a string. */
  type ParseFloat = string -> Num

  /** An expense from the data source. A missing or `null` amount is `None`.
      `meta` holds the other fields the listing returns with each row
      (`createdAt`, `updatedAt`, `owner`, `__typename`), by name. */
  datatype Expense = Expense(
    id: string,
    description: string,
    amount: Option<int>,
    category: string,
    date: string,
    meta: map<string, string>)

  /** `parseFloat(e.amount || 0)`: a missing (or zero) amount counts as 0. */
  function AmountOrZero(e: Expense): int
  {
    e.amount.GetOr(0)
  }

  /** `parseFloat(e.amount)` with no fallback: a missing amount is `NaN`. */
  function ParsedAmount(e: Expense): Num
  {
    match e.amount
    case Some(a) => Finite(a)
    case None => NaN
  }

  /** Sum of `AmountOrZero` over a list, from the front. */
  function SumAmounts(es: seq<Expense>): int
  {
    if |es| == 0 then 0 else AmountOrZero(es[0]) + SumAmounts(es[1..])
  }

  lemma {:induction false} SumAmountsAppend(es: seq<Expense>, fs: seq<Expense>)
    ensures SumAmounts(es + fs) == SumAmounts(es) + SumAmounts(fs)
  {
    if |es| > 0 {
      assert (es + fs)[1..] == es[1..] + fs;
      SumAmountsAppend(es[1..], fs);
    } else {
      assert es + fs == fs;
    }
  }
}
