/** The stand-alone expense form (ExpenseForm.jsx): submit validation, the
    record it posts, and the reset after a successful post. */
module ExpenseForm {
  import opened Wrappers
  import opened Text
  import opened Clock
  import opened Records

  /** `new Date(date).toISOString()`, an injected foreign function: `None`
      when the date is invalid, which makes `toISOString` throw. */
  type ToIso = string -> Option<string>

  /** The body posted to `/expenses`. */
  datatype NewExpense = NewExpense(description: string, amount: Num, category: string, date: string)

  /** How a submit ends. */
  datatype Submit =
    | Rejected          // the warning toast, nothing posted
    | Thrown            // `toISOString` threw before anything was posted
    | Posted(body: NewExpense)

  /** The guard of handleSubmit (ExpenseForm.jsx:63): an empty description,
      an empty amount or a parsed amount at or below 0. A `NaN` amount
      compares false with 0 and so gets through. */
  predicate Rejects(description: string, amount: string, parse: ParseFloat)
  {
    description == "" || amount == "" || (parse(amount).Finite? && parse(amount).v <= 0)
  }

  /** handleSubmit (ExpenseForm.jsx:61-75) on the current field values. */
  function HandleSubmit(
    description: string, amount: string, category: string, date: string,
    parse: ParseFloat, toIso: ToIso): (r: Submit)
    ensures r.Rejected? <==> Rejects(description, amount, parse)
    ensures r.Thrown? <==> !Rejects(description, amount, parse) && toIso(date).None?
    ensures r.Posted? ==>
      && r.body.description == description && r.body.description != ""
      && r.body.category == category
      && r.body.amount == parse(amount)
      && r.body.date == BeforeFirst(toIso(date).value, 'T')
      && 'T' !in r.body.date && r.body.date <= toIso(date).value
  {
    if Rejects(description, amount, parse) then Rejected
    else match toIso(date)
      case None => Thrown
      case Some(iso) =>
        BeforeFirstCharacterised(iso, 'T');
        Posted(NewExpense(description, parse(amount), category, BeforeFirst(iso, 'T')))
  }

  /** A posted amount is never 0 or negative; it is positive or `NaN`. */
  lemma PostedAmountPositiveOrNaN(
    description: string, amount: string, category: string, date: string,
    parse: ParseFloat, toIso: ToIso)
    ensures var r := HandleSubmit(description, amount, category, date, parse, toIso);
      r.Posted? ==> r.body.amount.NaN? || r.body.amount.v > 0
  {
  }

  /** The guard as written lets a `NaN` amount through: non-empty text that
      `parseFloat` cannot read is posted, as `NaN`, whenever the date is valid. */
  lemma NaNAmountGetsThrough(
    description: string, amount: string, category: string, date: string,
    parse: ParseFloat, toIso: ToIso)
    requires description != "" && amount != "" && parse(amount) == NaN && toIso(date).Some?
    ensures var r := HandleSubmit(description, amount, category, date, parse, toIso);
      r.Posted? && r.body.amount == NaN
  {
  }

  class Form {
    var description: string
    var amount: string
    var category: string
    var date: string

    /** The initial state: today's local date in `yyyy-MM-dd`. */
    constructor (now: Instant)
      ensures description == "" && amount == "" && category == "Food" && date == now.localDate
    {
      description := "";
      amount := "";
      category := "Food";
      date := now.localDate;
    }

    /** handleSubmit followed by the mutation's callbacks (ExpenseForm.jsx:40-58).
        `postOk` is whether the post succeeded; the reset on success reads
        the clock again at `later`. */
    method Submit(parse: ParseFloat, toIso: ToIso, postOk: bool, later: Instant)
      returns (r: Submit)
      modifies this
      ensures r == HandleSubmit(old(description), old(amount), old(category), old(date), parse, toIso)
      ensures r.Posted? && postOk ==>
        description == "" && amount == "" && category == "Food" && date == later.localDate
      ensures !(r.Posted? && postOk) ==>
        description == old(description) && amount == old(amount)
        && category == old(category) && date == old(date)
    {
      r := HandleSubmit(description, amount, category, date, parse, toIso);
      if r.Posted? && postOk {
        description := "";
        amount := "";
        date := later.localDate;
        category := "Food";
      }
    }
  }
}
