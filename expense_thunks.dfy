/** The async actions of the expense store, with the HTTP call reduced to its
    outcome: a response body or a failure with an optional server message.
    What each action computes from that outcome is modelled exactly: the
    request body it sends, the normalisation of the records it receives and
    the defaults it fills in. */
module ExpenseThunks {
  import opened Common

  /** An expense record as the server sends it; every field the client guards
      against being absent is optional. */
  datatype RawExpense = RawExpense(
    id: Option<string>,
    title: Option<string>,
    description: Option<string>,
    amount: Option<real>,
    category: string,
    date: string,
    note: Option<string>,
    receipt: Option<string>)

  /** An expense as the store keeps it: amount and title always present. */
  datatype Expense = Expense(
    id: Option<string>,
    title: string,
    description: Option<string>,
    amount: real,
    category: string,
    date: string,
    note: Option<string>,
    receipt: Option<string>)

  /** `normalizeExpense`: an absent amount becomes 0; the title falls back to
      the description and then to the empty string (an empty string counts as
      absent); every other field is copied. */
  function Normalize(e: RawExpense): (r: Expense)
    ensures r.amount == (if e.amount.Some? then e.amount.value else 0.0)
    ensures e.title.Some? && e.title.value != "" ==> r.title == e.title.value
    ensures (e.title.None? || e.title.value == "") ==> r.title == OrElse(e.description, "")
    ensures r.id == e.id && r.description == e.description && r.category == e.category
    ensures r.date == e.date && r.note == e.note && r.receipt == e.receipt
  {
    Expense(
      e.id,
      OrElse(e.title, OrElse(e.description, "")),
      e.description,
      if e.amount.Some? then e.amount.value else 0.0,
      e.category,
      e.date,
      e.note,
      e.receipt)
  }

  /** The record read back as the server would send it. */
  function AsRaw(e: Expense): RawExpense {
    RawExpense(e.id, Some(e.title), e.description, Some(e.amount), e.category, e.date,
               e.note, e.receipt)
  }

  /** Normalising a normalised record changes nothing, except that an empty
      title is refilled from the description. */
  lemma NormalizeIdempotent(e: Expense)
    requires e.title != "" || OrElse(e.description, "") == ""
    ensures Normalize(AsRaw(e)) == e
  {
  }

  /** `defaultExpenseListPayload` */
  const DefaultListPayload := ListPayload(1, 10, "", "", None, None, "", "", DateDesc)

  /** The fields a caller of `fetchExpenses` may supply; `None` is a field the
      caller left out (for `min` and `max`, `Some(None)` is an explicit null). */
  datatype PartialListPayload = PartialListPayload(
    page: Option<int>,
    limit: Option<int>,
    search: Option<string>,
    category: Option<string>,
    min: Option<Option<real>>,
    max: Option<Option<real>>,
    startDate: Option<string>,
    endDate: Option<string>,
    sort: Option<Sort>)

  const NoFields := PartialListPayload(None, None, None, None, None, None, None, None, None)

  function Pick<T>(o: Option<T>, d: T): T {
    if o.Some? then o.value else d
  }

  /** `{ ...defaultExpenseListPayload, ...(payload || {}) }`: every field the
      caller supplied overrides the default. */
  function RequestPayload(p: PartialListPayload): (r: ListPayload)
    ensures p.page.Some? ==> r.page == p.page.value
    ensures p.page.None? ==> r.page == 1
    ensures p.limit.Some? ==> r.limit == p.limit.value
    ensures p.limit.None? ==> r.limit == 10
    ensures p.search.Some? ==> r.search == p.search.value
    ensures p.search.None? ==> r.search == ""
    ensures p.category.Some? ==> r.category == p.category.value
    ensures p.category.None? ==> r.category == ""
    ensures p.min.Some? ==> r.min == p.min.value
    ensures p.min.None? ==> r.min.None?
    ensures p.max.Some? ==> r.max == p.max.value
    ensures p.max.None? ==> r.max.None?
    ensures p.startDate.Some? ==> r.startDate == p.startDate.value
    ensures p.startDate.None? ==> r.startDate == ""
    ensures p.endDate.Some? ==> r.endDate == p.endDate.value
    ensures p.endDate.None? ==> r.endDate == ""
    ensures p.sort.Some? ==> r.sort == p.sort.value
    ensures p.sort.None? ==> r.sort == DateDesc
  {
    var d := DefaultListPayload;
    ListPayload(
      Pick(p.page, d.page),
      Pick(p.limit, d.limit),
      Pick(p.search, d.search),
      Pick(p.category, d.category),
      Pick(p.min, d.min),
      Pick(p.max, d.max),
      Pick(p.startDate, d.startDate),
      Pick(p.endDate, d.endDate),
      Pick(p.sort, d.sort))
  }

  /** Every field of a payload, supplied. */
  function Supplied(q: ListPayload): PartialListPayload {
    PartialListPayload(Some(q.page), Some(q.limit), Some(q.search), Some(q.category),
                       Some(q.min), Some(q.max), Some(q.startDate), Some(q.endDate), Some(q.sort))
  }

  /** Supplying nothing asks for the default list; supplying everything asks
      for exactly what was supplied. */
  lemma RequestPayloadDefaults(q: ListPayload)
    ensures RequestPayload(NoFields) == DefaultListPayload
    ensures RequestPayload(Supplied(q)) == q
  {
  }

  /** The `data` object of a list response; `expenses` is `None` when the
      field is absent or not an array. */
  datatype ListData = ListData(
    count: Option<int>,
    page: Option<int>,
    limit: Option<int>,
    total: Option<int>,
    totalPages: Option<int>,
    expenses: Option<seq<RawExpense>>)

  /** What a successful `fetchExpenses` delivers to the store. */
  datatype ListResponse = ListResponse(
    count: int,
    page: int,
    limit: int,
    total: int,
    totalPages: int,
    expenses: seq<Expense>)

  /** A thunk's result: the fulfilled value, or the rejection message. */
  datatype ThunkResult<T> = Fulfilled(value: T) | Rejected(message: string)

  /** The message a thunk rejects with: the server's non-empty message, or the
      action's fallback. */
  function FailureMessage(message: Option<string>, fallback: string): (r: string)
    requires fallback != ""
    ensures r != ""
    ensures message.Some? && message.value != "" ==> r == message.value
    ensures message.None? || message.value == "" ==> r == fallback
  {
    OrElse(message, fallback)
  }

  /** The response of `fetchExpenses` built from the list data (`None` when
      `response.data.data` is absent): the list is normalised element by
      element, count and total default to its length, page and limit to the
      request's, totalPages to 1. */
  function ListResponseOf(data: Option<ListData>, request: ListPayload): (r: ListResponse)
    ensures var d := if data.Some? then data.value else ListData(None, None, None, None, None, None);
            var raw := if d.expenses.Some? then d.expenses.value else [];
            |r.expenses| == |raw|
            && (forall i :: 0 <= i < |raw| ==> r.expenses[i] == Normalize(raw[i]))
            && r.count == (if d.count.Some? then d.count.value else |raw|)
            && r.total == (if d.total.Some? then d.total.value else |raw|)
            && r.page == (if d.page.Some? then d.page.value else request.page)
            && r.limit == (if d.limit.Some? then d.limit.value else request.limit)
            && r.totalPages == (if d.totalPages.Some? then d.totalPages.value else 1)
  {
    var d := if data.Some? then data.value else ListData(None, None, None, None, None, None);
    var raw := if d.expenses.Some? then d.expenses.value else [];
    ListResponse(
      Pick(d.count, |raw|),
      Pick(d.page, request.page),
      Pick(d.limit, request.limit),
      Pick(d.total, |raw|),
      Pick(d.totalPages, 1),
      seq(|raw|, i requires 0 <= i < |raw| => Normalize(raw[i])))
  }

  /** A response with no list yields no expenses and a count and total of 0
      unless the server sent them. */
  lemma MissingListIsEmpty(d: ListData, request: ListPayload)
    requires d.expenses.None? && d.count.None? && d.total.None?
    ensures var r := ListResponseOf(Some(d), request);
            r.expenses == [] && r.count == 0 && r.total == 0
  {
  }

  /** `fetchExpenses` */
  function FetchExpenses(payload: PartialListPayload, outcome: ServiceOutcome<Option<ListData>>)
    : (r: ThunkResult<ListResponse>)
    ensures outcome.Responded? ==> r == Fulfilled(ListResponseOf(outcome.body, RequestPayload(payload)))
    ensures outcome.Failed? && outcome.message.Some? && outcome.message.value != "" ==>
              r == Rejected(outcome.message.value)
    ensures outcome.Failed? && (outcome.message.None? || outcome.message.value == "") ==>
              r == Rejected("Failed to fetch expenses")
  {
    match outcome
    case Responded(body) => Fulfilled(ListResponseOf(body, RequestPayload(payload)))
    case Failed(m) => Rejected(FailureMessage(m, "Failed to fetch expenses"))
  }

  /** The form fields `createExpense` and `updateExpense` receive. */
  datatype ExpenseForm = ExpenseForm(
    title: string,
    amount: string,
    category: string,
    date: string,
    note: string)

  /** The body sent to the create and update endpoints. */
  datatype ExpenseBody = ExpenseBody(
    description: string,
    amount: Num,
    category: string,
    date: string,
    note: string)

  /** The request body: the title is sent as the description, the amount is
      `Number(amount)`, the other fields are copied. */
  function BodyOf(form: ExpenseForm, number: string -> Num): (b: ExpenseBody)
    ensures b.description == form.title && b.amount == number(form.amount)
    ensures b.category == form.category && b.date == form.date && b.note == form.note
  {
    ExpenseBody(form.title, number(form.amount), form.category, form.date, form.note)
  }

  /** The three places the create endpoint may put the new record:
      `data.data.expense`, `data.expense`, or the body itself. */
  datatype CreatedBody = CreatedBody(nested: Option<RawExpense>, top: Option<RawExpense>, whole: RawExpense)

  /** The request `createExpense` sends, and its result. */
  function CreateExpense(form: ExpenseForm, number: string -> Num, outcome: ServiceOutcome<CreatedBody>)
    : (r: (ExpenseBody, ThunkResult<Expense>))
    ensures r.0 == BodyOf(form, number)
    ensures outcome.Responded? && outcome.body.nested.Some? ==>
              r.1 == Fulfilled(Normalize(outcome.body.nested.value))
    ensures outcome.Responded? && outcome.body.nested.None? && outcome.body.top.Some? ==>
              r.1 == Fulfilled(Normalize(outcome.body.top.value))
    ensures outcome.Responded? && outcome.body.nested.None? && outcome.body.top.None? ==>
              r.1 == Fulfilled(Normalize(outcome.body.whole))
    ensures outcome.Failed? && outcome.message.Some? && outcome.message.value != "" ==>
              r.1 == Rejected(outcome.message.value)
    ensures outcome.Failed? && (outcome.message.None? || outcome.message.value == "") ==>
              r.1 == Rejected("Failed to create expense")
  {
    var result := match outcome
      case Responded(b) =>
        Fulfilled(Normalize(if b.nested.Some? then b.nested.value
                            else if b.top.Some? then b.top.value
                            else b.whole))
      case Failed(m) => Rejected(FailureMessage(m, "Failed to create expense"));
    (BodyOf(form, number), result)
  }

  /** The four places the update endpoint may put the record:
      `data.data.expense`, `data.data`, `data.expense`, or the body itself. */
  datatype UpdatedBody = UpdatedBody(
    dataExpense: Option<RawExpense>,
    data: Option<RawExpense>,
    expense: Option<RawExpense>,
    whole: RawExpense)

  /** The id, request body and result of `updateExpense`. */
  function UpdateExpense(id: string, form: ExpenseForm, number: string -> Num,
                         outcome: ServiceOutcome<UpdatedBody>)
    : (r: (string, ExpenseBody, ThunkResult<Expense>))
    ensures r.0 == id && r.1 == BodyOf(form, number)
    ensures outcome.Responded? ==>
              var b := outcome.body;
              r.2 == Fulfilled(Normalize(
                if b.dataExpense.Some? then b.dataExpense.value
                else if b.data.Some? then b.data.value
                else if b.expense.Some? then b.expense.value
                else b.whole))
    ensures outcome.Failed? && outcome.message.Some? && outcome.message.value != "" ==>
              r.2 == Rejected(outcome.message.value)
    ensures outcome.Failed? && (outcome.message.None? || outcome.message.value == "") ==>
              r.2 == Rejected("Failed to update expense")
  {
    var result := match outcome
      case Responded(b) =>
        Fulfilled(Normalize(
          if b.dataExpense.Some? then b.dataExpense.value
          else if b.data.Some? then b.data.value
          else if b.expense.Some? then b.expense.value
          else b.whole))
      case Failed(m) => Rejected(FailureMessage(m, "Failed to update expense"));
    (id, BodyOf(form, number), result)
  }

  /** Creating and updating send the same body for the same form. */
  lemma CreateAndUpdateSendSameBody(id: string, form: ExpenseForm, number: string -> Num,
                                    c: ServiceOutcome<CreatedBody>, u: ServiceOutcome<UpdatedBody>)
    ensures CreateExpense(form, number, c).0 == UpdateExpense(id, form, number, u).1
  {
  }

  /** The two places the find-by-id endpoint may put the record. */
  datatype FoundBody = FoundBody(nested: Option<RawExpense>, top: Option<RawExpense>)

  /** `fetchExpenseById`: rejects with "Expense not found" when the response
      carries no record. */
  function FetchExpenseById(outcome: ServiceOutcome<FoundBody>): (r: ThunkResult<Expense>)
    ensures outcome.Responded? && outcome.body.nested.None? && outcome.body.top.None? ==>
              r == Rejected("Expense not found")
    ensures outcome.Responded? && outcome.body.nested.Some? ==>
              r == Fulfilled(Normalize(outcome.body.nested.value))
    ensures outcome.Responded? && outcome.body.nested.None? && outcome.body.top.Some? ==>
              r == Fulfilled(Normalize(outcome.body.top.value))
    ensures outcome.Failed? && outcome.message.Some? && outcome.message.value != "" ==>
              r == Rejected(outcome.message.value)
    ensures outcome.Failed? && (outcome.message.None? || outcome.message.value == "") ==>
              r == Rejected("Failed to fetch expense")
  {
    match outcome
    case Responded(b) =>
      if b.nested.Some? then Fulfilled(Normalize(b.nested.value))
      else if b.top.Some? then Fulfilled(Normalize(b.top.value))
      else Rejected("Expense not found")
    case Failed(m) => Rejected(FailureMessage(m, "Failed to fetch expense"))
  }

  /** `deleteExpense`: fulfils with the id it was given. */
  function DeleteExpense(id: string, outcome: ServiceOutcome<()>): (r: ThunkResult<string>)
    ensures outcome.Responded? <==> r == Fulfilled(id)
    ensures outcome.Failed? && outcome.message.Some? && outcome.message.value != "" ==>
              r == Rejected(outcome.message.value)
    ensures outcome.Failed? && (outcome.message.None? || outcome.message.value == "") ==>
              r == Rejected("Failed to delete expense")
  {
    match outcome
    case Responded(_) => Fulfilled(id)
    case Failed(m) => Rejected(FailureMessage(m, "Failed to delete expense"))
  }
}
