/** The expenses page (ExpensesPage.jsx): the add form and the in-row
    edit state machine. */
module ExpensesPage {
  import opened Wrappers
  import opened Text
  import opened Clock
  import opened Records

  /** The add form's fields, as the inputs hold them (strings). */
  datatype Draft = Draft(description: string, amount: string, category: string, date: string)

  const EMPTY_DRAFT := Draft("", "", "Food", "")

  /** The `name` attributes of the add form's inputs. */
  datatype FieldName = Description | Amount | Category | Date

  function FieldOf(d: Draft, name: FieldName): string
  {
    match name
    case Description => d.description
    case Amount => d.amount
    case Category => d.category
    case Date => d.date
  }

  /** `{ ...prev, [name]: value }` on the add form. */
  function WithField(d: Draft, name: FieldName, value: string): (r: Draft)
    ensures FieldOf(r, name) == value
    ensures forall other :: other != name ==> FieldOf(r, other) == FieldOf(d, other)
  {
    match name
    case Description => d.(description := value)
    case Amount => d.(amount := value)
    case Category => d.(category := value)
    case Date => d.(date := value)
  }

  /** `isNaN(parseFloat(x)) || parseFloat(x) <= 0` negated: a finite amount above 0. */
  predicate PositiveAmount(n: Num)
  {
    n.Finite? && n.v > 0
  }

  /** The input of the create mutation. */
  datatype CreateInput = CreateInput(description: string, amount: int, category: string, date: string)

  /** `expenseToCreate` (ExpensesPage.jsx:32-36): the amount parsed, an empty
      date replaced by the UTC day of `toISOString()`. */
  function ToCreate(d: Draft, amount: int, now: Instant): (c: CreateInput)
    ensures c.description == d.description && c.category == d.category && c.amount == amount
    ensures d.date != "" ==> c.date == d.date
    ensures d.date == "" ==> c.date == BeforeFirst(now.iso, 'T') && 'T' !in c.date && c.date <= now.iso
  {
    BeforeFirstCharacterised(now.iso, 'T');
    CreateInput(d.description, amount, d.category, if d.date != "" then d.date else BeforeFirst(now.iso, 'T'))
  }

  /** A field of the object being edited. */
  datatype Value = Text(s: string) | Number(n: Num)

  /** The input of the update mutation: only these five fields are sent,
      each as the edited object holds it (`None` for `undefined`). */
  datatype UpdateInput = UpdateInput(
    id: string, description: Option<Value>, amount: int, category: Option<Value>, date: Option<Value>)

  function Lookup(data: map<string, Value>, key: string): Option<Value>
  {
    if key in data then Some(data[key]) else None
  }

  /** `parseFloat` of an edited field: a number is itself, text is parsed,
      `undefined` is `NaN`. */
  function ParseValue(v: Option<Value>, parse: ParseFloat): Num
  {
    match v
    case None => NaN
    case Some(Number(n)) => n
    case Some(Text(s)) => parse(s)
  }

  /** The five fields the page reads and writes by name. */
  const EXPENSE_FIELDS: set<string> := {"id", "description", "amount", "category", "date"}

  /** `{ ...expense, amount: parseFloat(expense.amount) }`: every field of the
      row, the metadata included, with the amount parsed. */
  function EditCopy(e: Expense): (data: map<string, Value>)
    ensures data.Keys == e.meta.Keys + EXPENSE_FIELDS
    ensures data["amount"] == Number(ParsedAmount(e))
    ensures data["description"] == Text(e.description) && data["category"] == Text(e.category)
    ensures data["date"] == Text(e.date) && data["id"] == Text(e.id)
    ensures forall k :: k in e.meta && k !in EXPENSE_FIELDS ==> data[k] == Text(e.meta[k])
  {
    var spread := map k | k in e.meta :: Text(e.meta[k]);
    spread["id" := Text(e.id)]["description" := Text(e.description)]["amount" := Number(ParsedAmount(e))]
      ["category" := Text(e.category)]["date" := Text(e.date)]
  }

  /** The input handleSaveEdit sends for row `id` (ExpensesPage.jsx:75-76). */
  function ToUpdate(id: string, data: map<string, Value>, amount: int): (u: UpdateInput)
    ensures u.id == id && u.amount == amount
    ensures u.description == Lookup(data, "description")
    ensures u.category == Lookup(data, "category") && u.date == Lookup(data, "date")
  {
    UpdateInput(id, Lookup(data, "description"), amount, Lookup(data, "category"), Lookup(data, "date"))
  }

  /** Editing a row and saving it unchanged validates the row's own amount
      and sends the row's own fields back. */
  lemma EditThenSaveUnchanged(e: Expense, parse: ParseFloat)
    ensures ParseValue(Lookup(EditCopy(e), "amount"), parse) == ParsedAmount(e)
    ensures PositiveAmount(ParsedAmount(e)) <==> e.amount.Some? && e.amount.value > 0
    ensures e.amount.Some? ==>
      (ToUpdate(e.id, EditCopy(e), e.amount.value) ==
       UpdateInput(e.id, Some(Text(e.description)), e.amount.value, Some(Text(e.category)), Some(Text(e.date))))
  {
  }

  /** What the presentation layer is told (toasts in the client), and the
      calls back into the data refresh. */
  datatype Event =
    | InvalidAmount
    | ExpenseAdded
    | ExpenseUpdated
    | RefreshRequested
    | LimitExceededWarning
    | AddFailed(message: string)
    | UpdateFailed(message: string)

  /** The events after a successful mutation and the refresh that follows:
      a warning when the refresh reports the limit exceeded. */
  function AfterMutation(done: Event, refreshExceeded: bool): seq<Event>
  {
    [done, RefreshRequested] + (if refreshExceeded then [LimitExceededWarning] else [])
  }

  class Page {
    var newExpense: Draft
    var editingId: Option<string>
    var editingData: map<string, Value>

    constructor ()
      ensures newExpense == EMPTY_DRAFT && editingId == None && editingData == map[]
    {
      newExpense := EMPTY_DRAFT;
      editingId := None;
      editingData := map[];
    }

    /** handleInputChange (ExpensesPage.jsx:19-22). */
    method InputChange(name: FieldName, value: string)
      modifies this`newExpense
      ensures FieldOf(newExpense, name) == value
      ensures forall other :: other != name ==> FieldOf(newExpense, other) == FieldOf(old(newExpense), other)
    {
      newExpense := WithField(newExpense, name, value);
    }

    /** handleAddExpense (ExpensesPage.jsx:24-56). `parse` is `parseFloat`,
        `mutation` the outcome of the create call (`Err` with the message of
        the error thrown), `refreshExceeded` what the refresh returns. */
    method AddExpense(parse: ParseFloat, now: Instant, mutation: Result<(), string>, refreshExceeded: bool)
      returns (request: Option<CreateInput>, events: seq<Event>)
      modifies this`newExpense
      ensures !PositiveAmount(parse(old(newExpense).amount)) ==>
        request == None && events == [InvalidAmount] && newExpense == old(newExpense)
      ensures PositiveAmount(parse(old(newExpense).amount)) ==>
        request == Some(ToCreate(old(newExpense), parse(old(newExpense).amount).v, now))
      ensures PositiveAmount(parse(old(newExpense).amount)) && mutation.Ok? ==>
        newExpense == EMPTY_DRAFT && events == AfterMutation(ExpenseAdded, refreshExceeded)
      ensures PositiveAmount(parse(old(newExpense).amount)) && mutation.Err? ==>
        newExpense == old(newExpense) && events == [AddFailed(mutation.error)]
    {
      var amount := parse(newExpense.amount);
      if amount.NaN? || amount.v <= 0 {
        return None, [InvalidAmount];
      }
      var expenseToCreate := ToCreate(newExpense, amount.v, now);
      request := Some(expenseToCreate);
      if mutation.Err? {
        return request, [AddFailed(mutation.error)];
      }
      events := [ExpenseAdded];
      newExpense := EMPTY_DRAFT;
      events := events + [RefreshRequested];
      if refreshExceeded {
        events := events + [LimitExceededWarning];
      }
    }

    /** handleEditClick (ExpensesPage.jsx:58-61). */
    method EditClick(e: Expense)
      modifies this`editingId, this`editingData
      ensures editingId == Some(e.id)
      ensures editingData == EditCopy(e)
    {
      editingId := Some(e.id);
      editingData := EditCopy(e);
    }

    /** handleEditInputChange (ExpensesPage.jsx:63-66): one named field
        becomes the typed text. */
    method EditInputChange(name: string, value: string)
      modifies this`editingData
      ensures Lookup(editingData, name) == Some(Text(value))
      ensures forall key :: key != name ==> Lookup(editingData, key) == Lookup(old(editingData), key)
      ensures editingData.Keys == old(editingData).Keys + {name}
    {
      editingData := editingData[name := Text(value)];
    }

    /** handleSaveEdit (ExpensesPage.jsx:68-97) for row `id`. */
    method SaveEdit(id: string, parse: ParseFloat, mutation: Result<(), string>, refreshExceeded: bool)
      returns (request: Option<UpdateInput>, events: seq<Event>)
      modifies this`editingId, this`editingData
      ensures var amount := ParseValue(Lookup(old(editingData), "amount"), parse);
        && (!PositiveAmount(amount) ==>
              request == None && events == [InvalidAmount]
              && editingId == old(editingId) && editingData == old(editingData))
        && (PositiveAmount(amount) ==> request == Some(ToUpdate(id, old(editingData), amount.v)))
        && (PositiveAmount(amount) && mutation.Ok? ==>
              editingId == None && editingData == map[]
              && events == AfterMutation(ExpenseUpdated, refreshExceeded))
        && (PositiveAmount(amount) && mutation.Err? ==>
              editingId == old(editingId) && editingData == old(editingData)
              && events == [UpdateFailed(mutation.error)])
    {
      var amount := ParseValue(Lookup(editingData, "amount"), parse);
      if amount.NaN? || amount.v <= 0 {
        return None, [InvalidAmount];
      }
      var input := ToUpdate(id, editingData, amount.v);
      request := Some(input);
      if mutation.Err? {
        return request, [UpdateFailed(mutation.error)];
      }
      editingId := None;
      editingData := map[];
      events := [ExpenseUpdated, RefreshRequested];
      if refreshExceeded {
        events := events + [LimitExceededWarning];
      }
    }

    /** handleCancelEdit (ExpensesPage.jsx:99-102). */
    method CancelEdit()
      modifies this`editingId, this`editingData
      ensures editingId == None && editingData == map[]
    {
      editingId := None;
      editingData := map[];
    }
  }
}
