/** The budgets page: a server-paged list of monthly budgets whose page number
    lives in the address bar, a search box and a filter dialog that shape the
    list request, a create/edit form with ordered validation, and a delete
    that steps back a page when it empties the current one. */
module BudgetPage {
  import opened Common

  /** The sixteen categories a budget is split into. */
  const BudgetCategories: seq<string> := [
    "food", "groceries", "transport", "fuel", "rent", "utilities", "shopping",
    "entertainment", "subscriptions", "health", "education", "travel",
    "insurance", "emi", "investment", "others"]

  /** A budget as the server sends it; `categoryBudgets` lists the object's
      entries in their own order. */
  datatype BudgetRecord = BudgetRecord(
    id: string,
    month: real,
    year: real,
    totalBudget: real,
    totalSpent: real,
    remaining: real,
    percentageUsed: real,
    categoryBudgets: seq<(string, real)>)

  /** The filter dialog's fields, as typed. */
  datatype Filters = Filters(
    category: string,
    dateFrom: string,
    dateTo: string,
    minAmount: string,
    maxAmount: string)

  const DefaultFilters := Filters("All", "", "", "", "")

  /** The budget form's fields, as typed. */
  datatype BudgetForm = BudgetForm(
    month: string,
    year: string,
    totalBudget: string,
    category: string,
    categoryAmount: string)

  /** `getDefaultFormState`, with the current month and year (as text) given. */
  function DefaultForm(nowMonth: string, nowYear: string): BudgetForm {
    BudgetForm(nowMonth, nowYear, "", "others", "")
  }

  // ---------------------------------------------------------------------
  // Parsing the typed values

  /** `toNumberOrNull`: blank input and input that does not parse to a finite
      number give null; otherwise the parsed value of the trimmed text. */
  function ToNumberOrNull(value: string, number: string -> Num): (r: Option<real>)
    ensures r.None? <==> Trim(value) == "" || !number(Trim(value)).IsFinite()
    ensures r.Some? ==> number(Trim(value)) == Finite(r.value)
  {
    var trimmed := Trim(value);
    if trimmed == "" then None
    else
      var parsed := number(trimmed);
      if parsed.IsFinite() then Some(parsed.value) else None
  }

  /** Whitespace alone never becomes a bound, whatever the parser does. */
  lemma BlankIsNull(value: string, number: string -> Num)
    requires forall i :: 0 <= i < |value| ==> IsSpace(value[i])
    ensures ToNumberOrNull(value, number).None?
  {
    TrimSpec(value);
  }

  /** `Math.floor` */
  function Floor(x: real): int {
    x.Floor
  }

  /** The page as the code derives it from `Number(params.get("page"))`:
      `Math.floor(raw)` when raw is finite and positive, 1 otherwise. */
  function PageFromQueryAsWritten(raw: Num): int {
    if raw.IsFinite() && raw.Greater(0.0) then Floor(raw.value) else 1
  }

  /** A fractional page below 1, such as `?page=0.5`, passes the guard and
      floors to page 0. */
  lemma PageFromQueryAsWrittenGivesZero()
    ensures PageFromQueryAsWritten(Finite(0.5)) == 0
  {
  }

  /** The page from the query with the guard the floor needs: the floor of a
      finite value of at least 1, otherwise page 1. It is always at least 1,
      it agrees with the code on every input but a fraction in (0, 1), and it
      reads back any page number written as an integer. */
  function PageFromQuery(raw: Num): (p: int)
    ensures p >= 1
    ensures !(raw.IsFinite() && 0.0 < raw.value < 1.0) ==> p == PageFromQueryAsWritten(raw)
    ensures raw.IsFinite() && raw.value >= 1.0 && raw.value.Floor as real == raw.value ==> p as real == raw.value
  {
    if raw.IsFinite() && raw.value >= 1.0 then Floor(raw.value) else 1
  }

  // ---------------------------------------------------------------------
  // The list request

  /** `requestPayload`: the page from the address bar, ten rows, the trimmed
      search, the category ("" for "All", lower-cased otherwise), the amount
      bounds parsed, the dates as typed, newest first. */
  function RequestPayload(page: int, searchQuery: string, applied: Filters, lower: string -> string,
                          number: string -> Num): (r: ListPayload)
    ensures r.page == page && r.limit == 10 && r.sort == DateDesc
    ensures r.search == Trim(searchQuery)
    ensures applied.category == "All" ==> r.category == ""
    ensures applied.category != "All" ==> r.category == lower(applied.category)
    ensures r.min == ToNumberOrNull(applied.minAmount, number)
    ensures r.max == ToNumberOrNull(applied.maxAmount, number)
    ensures r.startDate == applied.dateFrom && r.endDate == applied.dateTo
  {
    ListPayload(
      page,
      10,
      Trim(searchQuery),
      if applied.category == "All" then "" else lower(applied.category),
      ToNumberOrNull(applied.minAmount, number),
      ToNumberOrNull(applied.maxAmount, number),
      applied.dateFrom,
      applied.dateTo,
      DateDesc)
  }

  /** `hasActiveFilters` */
  predicate HasActiveFilters(f: Filters) {
    f.category != "All" || f.dateFrom != "" || f.dateTo != "" || f.minAmount != "" || f.maxAmount != ""
  }

  /** The filters are active exactly when they differ from the defaults, and
      inactive filters add nothing to the request. */
  lemma ActiveFiltersSpec(f: Filters, page: int, searchQuery: string, lower: string -> string,
                          number: string -> Num)
    ensures HasActiveFilters(f) <==> f != DefaultFilters
    ensures !HasActiveFilters(f) ==>
              var r := RequestPayload(page, searchQuery, f, lower, number);
              r.category == "" && r.min.None? && r.max.None? && r.startDate == "" && r.endDate == ""
  {
    if !HasActiveFilters(f) {
      BlankIsNull(f.minAmount, number);
      BlankIsNull(f.maxAmount, number);
    }
  }

  // ---------------------------------------------------------------------
  // Page numbers

  /** The clamp effect: a page past the last one is replaced by the last page,
      or by page 1 when there are none. */
  function ClampPage(page: int, totalPages: int): (r: int)
    ensures page >= 1 ==> 1 <= r <= Max(page, Max(1, totalPages))
    ensures page >= 1 ==> r <= Max(1, totalPages)
    ensures page <= totalPages ==> r == page
    ensures page > totalPages ==> r == Max(1, totalPages)
  {
    if page > totalPages then Max(1, totalPages) else page
  }

  /** `onPageChange`: the requested page bounded to [1, max(1, totalPages)]. */
  function BoundedPage(next: int, totalPages: int): (r: int)
    ensures 1 <= r <= Max(1, totalPages)
    ensures 1 <= next <= totalPages ==> r == next
    ensures next < 1 ==> r == 1
    ensures next > Max(1, totalPages) ==> r == Max(1, totalPages)
  {
    Min(Max(next, 1), Max(1, totalPages))
  }

  /** The page shown after a delete: one page back when the deleted row was
      the only row of a page after the first, the same page otherwise. */
  function PageAfterDelete(page: int, rows: nat): (r: int)
    ensures r == page - 1 <==> page > 1 && rows == 1
    ensures !(page > 1 && rows == 1) ==> r == page
    ensures page >= 1 ==> r >= 1
  {
    if page > 1 && rows == 1 then page - 1 else page
  }

  /** `getProgressColor` */
  datatype ProgressColor = Red | Amber | Emerald

  /** Red from 100 percent, amber from 80 percent, emerald below that (and for
      a NaN percentage, which compares false). */
  function ProgressColorOf(percentage: Num): (c: ProgressColor)
    ensures c == Red <==> percentage.AtLeast(100.0)
    ensures c == Amber <==> percentage.AtLeast(80.0) && !percentage.AtLeast(100.0)
    ensures c == Emerald <==> !percentage.AtLeast(80.0)
  {
    if percentage.AtLeast(100.0) then Red
    else if percentage.AtLeast(80.0) then Amber
    else Emerald
  }

  /** The colour never improves as the percentage grows. */
  lemma ProgressColorMonotone(p: real, q: real)
    requires p <= q
    ensures ProgressColorOf(Finite(p)) == Red ==> ProgressColorOf(Finite(q)) == Red
    ensures ProgressColorOf(Finite(p)) == Amber ==> ProgressColorOf(Finite(q)) != Emerald
  {
  }

  // ---------------------------------------------------------------------
  // The budget form

  /** `Number(form.categoryAmount || 0)` */
  function CategoryAmountOf(form: BudgetForm, number: string -> Num): Num {
    if form.categoryAmount == "" then Finite(0.0) else number(form.categoryAmount)
  }

  /** The outcome of the submit checks: the first failed check's message, or
      the parsed values. */
  datatype BudgetCheck =
    | Rejected(message: string)
    | Accepted(month: Num, year: real, totalBudget: real)

  const MonthMessage := "Month must be between 1 and 12."
  const YearMessage := "Enter a valid year."
  const TotalMessage := "Total budget must be greater than 0."
  const CategoryMessage := "Category amount cannot be greater than total budget."

  predicate MonthFails(month: Num) { month.Less(1.0) || month.Greater(12.0) }
  predicate YearFails(year: Num) { !year.IsFinite() || year.Less(2000.0) }
  predicate TotalFails(total: Num) { !total.IsFinite() || !total.Greater(0.0) }

  /** The checks of `handleSubmitBudget`, in their order: month in 1..12,
      a finite year from 2000, a finite positive total, and a category amount
      no greater than the total. */
  function ValidateBudget(form: BudgetForm, number: string -> Num): (r: BudgetCheck)
    ensures var m := number(form.month);
            var y := number(form.year);
            var t := number(form.totalBudget);
            var c := CategoryAmountOf(form, number);
            (MonthFails(m) ==> r == Rejected(MonthMessage))
            && (!MonthFails(m) && YearFails(y) ==> r == Rejected(YearMessage))
            && (!MonthFails(m) && !YearFails(y) && TotalFails(t) ==> r == Rejected(TotalMessage))
            && ((!MonthFails(m) && !YearFails(y) && !TotalFails(t) && c.Greater(t.value))
                  ==> r == Rejected(CategoryMessage))
            && (r.Accepted? <==> !MonthFails(m) && !YearFails(y) && !TotalFails(t) && !c.Greater(t.value))
            && (r.Accepted? ==> r.month == m && Finite(r.year) == y && Finite(r.totalBudget) == t)
  {
    var month := number(form.month);
    var year := number(form.year);
    var total := number(form.totalBudget);
    var amount := CategoryAmountOf(form, number);
    if MonthFails(month) then Rejected(MonthMessage)
    else if YearFails(year) then Rejected(YearMessage)
    else if TotalFails(total) then Rejected(TotalMessage)
    else if amount.Greater(total.value) then Rejected(CategoryMessage)
    else Accepted(month, year.value, total.value)
  }

  /** What an accepted form guarantees: a year from 2000 and a positive total;
      a finite month lies in 1..12 (a NaN month is not caught, since every
      comparison with NaN is false). */
  lemma AcceptedBounds(form: BudgetForm, number: string -> Num)
    requires ValidateBudget(form, number).Accepted?
    ensures var r := ValidateBudget(form, number);
            r.year >= 2000.0 && r.totalBudget > 0.0
            && (r.month.IsFinite() ==> 1.0 <= r.month.value <= 12.0)
            && r.month != PosInf && r.month != NegInf
  {
  }

  /** Every category at 0. */
  function ZeroBudgets(cs: seq<string>): (m: map<string, Num>)
    ensures forall c :: c in m <==> c in cs
    ensures forall c :: c in m ==> m[c] == Finite(0.0)
  {
    map c | c in cs :: Finite(0.0)
  }

  /** The category split sent with a budget: every category at 0, except the
      chosen one, which gets the amount when it is positive and the chosen
      category is one of the sixteen. */
  function CategoryBudgets(category: string, amount: Num): map<string, Num> {
    var zero := ZeroBudgets(BudgetCategories);
    if amount.Greater(0.0) && category in BudgetCategories then zero[category := amount] else zero
  }

  /** `buildCategoryBudgets` */
  method BuildCategoryBudgets(form: BudgetForm, number: string -> Num) returns (m: map<string, Num>)
    ensures m == CategoryBudgets(form.category, CategoryAmountOf(form, number))
    ensures m.Keys == set c | c in BudgetCategories
  {
    m := map[];
    var i := 0;
    while i < |BudgetCategories|
      invariant 0 <= i <= |BudgetCategories|
      invariant m == ZeroBudgets(BudgetCategories[..i])
    {
      assert BudgetCategories[..i + 1] == BudgetCategories[..i] + [BudgetCategories[i]];
      m := m[BudgetCategories[i] := Finite(0.0)];
      i := i + 1;
    }
    assert BudgetCategories[..i] == BudgetCategories;
    var amount := CategoryAmountOf(form, number);
    if amount.Greater(0.0) && form.category in BudgetCategories {
      m := m[form.category := amount];
    }
  }

  /** Of an accepted form, every category budget sent is a finite amount
      between 0 and the total, and the chosen category gets the typed amount
      exactly when that amount is positive. */
  lemma CategoryBudgetsWithinTotal(form: BudgetForm, number: string -> Num)
    requires ValidateBudget(form, number).Accepted?
    ensures var t := ValidateBudget(form, number).totalBudget;
            var m := CategoryBudgets(form.category, CategoryAmountOf(form, number));
            (forall c :: c in m ==> m[c].IsFinite() && 0.0 <= m[c].value <= t)
            && (form.category in BudgetCategories ==>
                  (m[form.category] == CategoryAmountOf(form, number)
                   <== CategoryAmountOf(form, number).Greater(0.0)))
  {
  }

  /** The index of the entry `handleEdit` picks: the entries sorted by amount,
      largest first, by a stable sort, and the first taken; that is, the
      first entry holding the largest amount. */
  function HighestIndex(entries: seq<(string, real)>): (k: nat)
    requires entries != []
    ensures k < |entries|
    ensures forall i :: 0 <= i < |entries| ==> entries[i].1 <= entries[k].1
    ensures forall i :: 0 <= i < k ==> entries[i].1 < entries[k].1
  {
    if |entries| == 1 then 0
    else
      var front := entries[..|entries| - 1];
      var k := HighestIndex(front);
      assert forall i :: 0 <= i < |front| ==> front[i] == entries[i];
      if entries[|entries| - 1].1 > entries[k].1 then |entries| - 1 else k
  }

  /** The form opened on a budget for editing: its numbers as text, and the
      largest category with its amount; "others" and an empty amount when
      there is no category, an empty name or a zero amount. */
  function EditForm(b: BudgetRecord, show: real -> string): (f: BudgetForm)
    ensures f.month == show(b.month) && f.year == show(b.year) && f.totalBudget == show(b.totalBudget)
    ensures b.categoryBudgets == [] ==> f.category == "others" && f.categoryAmount == ""
    ensures b.categoryBudgets != [] ==>
              var top := b.categoryBudgets[HighestIndex(b.categoryBudgets)];
              (forall e :: e in b.categoryBudgets ==> e.1 <= top.1)
              && f.category == (if top.0 != "" then top.0 else "others")
              && f.categoryAmount == (if top.1 != 0.0 then show(top.1) else "")
  {
    var entries := b.categoryBudgets;
    var top := if entries == [] then ("", 0.0) else entries[HighestIndex(entries)];
    var category := if top.0 != "" then top.0 else "others";
    var amount := if top.1 != 0.0 then show(top.1) else "";
    BudgetForm(show(b.month), show(b.year), show(b.totalBudget), category, amount)
  }

  // ---------------------------------------------------------------------
  // Server responses

  /** The `data` object of a list response; `budgets` is `None` when absent or
      not an array, a number field is `None` when absent. */
  datatype BudgetListData = BudgetListData(
    budgets: Option<seq<BudgetRecord>>,
    total: Option<int>,
    totalPages: Option<int>,
    page: Option<int>,
    limit: Option<int>)

  /** The paging counters the page keeps. */
  datatype BudgetPagination = BudgetPagination(total: int, totalPages: int, page: int, limit: int)

  /** `Number(x || d)` for a number field: an absent field and a 0 both give
      the default. */
  function OrNumber(x: Option<int>, d: int): (r: int)
    ensures x.Some? && x.value != 0 ==> r == x.value
    ensures x.None? || x.value == 0 ==> r == d
  {
    if x.Some? && x.value != 0 then x.value else d
  }

  /** The counters read from a list response: total defaults to 0, the page
      count to 1 (so it is never 0), page and limit to the request's. */
  function PaginationOf(data: Option<BudgetListData>, request: ListPayload): (p: BudgetPagination)
    ensures p.totalPages != 0
    ensures data.None? ==> p == BudgetPagination(0, 1, request.page, request.limit)
    ensures data.Some? ==> p.total == OrNumber(data.value.total, 0) && p.totalPages == OrNumber(data.value.totalPages, 1)
                           && p.page == OrNumber(data.value.page, request.page)
                           && p.limit == OrNumber(data.value.limit, request.limit)
  {
    var d := if data.Some? then data.value else BudgetListData(None, None, None, None, None);
    BudgetPagination(OrNumber(d.total, 0), OrNumber(d.totalPages, 1), OrNumber(d.page, request.page),
                     OrNumber(d.limit, request.limit))
  }

  /** A create or an update request and its body. */
  datatype BudgetBody = BudgetBody(month: Num, year: real, totalBudget: real, categoryBudgets: map<string, Num>)
  datatype BudgetRequest = Create(body: BudgetBody) | Update(id: string, body: BudgetBody)

  datatype ModalMode = CreateMode | EditMode

  class BudgetPage {
    const lower: string -> string
    const number: string -> Num
    const show: real -> string

    var page: int
    var budgets: seq<BudgetRecord>
    var loading: bool
    var error: Option<string>
    var searchQuery: string
    var filters: Filters
    var appliedFilters: Filters
    var filterOpen: bool
    var pagination: BudgetPagination
    var modalOpen: bool
    var modalMode: ModalMode
    var submitting: bool
    var editingBudgetId: Option<string>
    var form: BudgetForm
    var viewOpen: bool
    var selectedBudget: Option<BudgetRecord>

    /** The page read from the address bar is at least 1. */
    predicate Valid()
      reads this
    {
      page >= 1
    }

    /** The page as first rendered, on the address bar's `page` value. */
    constructor (rawPage: Num, lower: string -> string, number: string -> Num, show: real -> string,
                 nowMonth: string, nowYear: string)
      ensures page == PageFromQuery(rawPage) && Valid()
      ensures !(rawPage.IsFinite() && 0.0 < rawPage.value < 1.0) ==> page == PageFromQueryAsWritten(rawPage)
      ensures budgets == [] && !loading && error.None? && searchQuery == ""
      ensures filters == DefaultFilters && appliedFilters == DefaultFilters && !filterOpen
      ensures pagination == BudgetPagination(0, 1, 1, 10)
      ensures !modalOpen && modalMode == CreateMode && !submitting && editingBudgetId.None?
      ensures form == DefaultForm(nowMonth, nowYear) && !viewOpen && selectedBudget.None?
      ensures this.lower == lower && this.number == number && this.show == show
    {
      this.lower := lower;
      this.number := number;
      this.show := show;
      page := PageFromQuery(rawPage);
      budgets := [];
      loading := false;
      error := None;
      searchQuery := "";
      filters := DefaultFilters;
      appliedFilters := DefaultFilters;
      filterOpen := false;
      pagination := BudgetPagination(0, 1, 1, 10);
      modalOpen := false;
      modalMode := CreateMode;
      submitting := false;
      editingBudgetId := None;
      form := DefaultForm(nowMonth, nowYear);
      viewOpen := false;
      selectedBudget := None;
    }

    /** The request for the current page, search and applied filters. */
    function Request(): ListPayload
      reads this
    {
      RequestPayload(page, searchQuery, appliedFilters, lower, number)
    }

    /** The page handed to the pagination bar, within [1, max(1, totalPages)]. */
    function ShownPage(): (p: int)
      reads this
      requires Valid()
      ensures 1 <= p <= Max(1, pagination.totalPages)
      ensures page <= pagination.totalPages ==> p == page
    {
      Min(page, Max(1, pagination.totalPages))
    }

    /** `setParams({ page: String(p) })`: the address bar is rewritten and the
        page read back from it. */
    method SetPageParam(p: int)
      requires p >= 1
      modifies this`page
      ensures page == p && Valid()
    {
      page := PageFromQuery(Finite(p as real));
    }

    /** `fetchBudgets(payload)`: on a response the list and the counters come
        from it; on a failure the list is emptied, the counters reset and the
        error set. Loading is over either way. */
    method FetchBudgets(payload: ListPayload, outcome: ServiceOutcome<Option<BudgetListData>>)
      modifies this`loading, this`error, this`budgets, this`pagination
      ensures !loading
      ensures outcome.Responded? ==>
                error.None?
                && budgets == (if outcome.body.Some? && outcome.body.value.budgets.Some?
                               then outcome.body.value.budgets.value else [])
                && pagination == PaginationOf(outcome.body, payload)
      ensures outcome.Failed? ==>
                error == Some(OrElse(outcome.message, "Failed to fetch budgets"))
                && budgets == [] && pagination == BudgetPagination(0, 1, payload.page, payload.limit)
      ensures pagination.totalPages != 0
    {
      loading := true;
      error := None;
      match outcome {
        case Responded(body) =>
          budgets := if body.Some? && body.value.budgets.Some? then body.value.budgets.value else [];
          pagination := PaginationOf(body, payload);
        case Failed(message) =>
          error := Some(OrElse(message, "Failed to fetch budgets"));
          budgets := [];
          pagination := BudgetPagination(0, 1, payload.page, payload.limit);
      }
      loading := false;
    }

    /** The clamp effect: a page past the last one is sent back into range. */
    method ClampEffect()
      requires Valid()
      modifies this`page
      ensures page == ClampPage(old(page), pagination.totalPages)
      ensures 1 <= page <= Max(1, pagination.totalPages) || page == old(page)
      ensures Valid()
    {
      if page > pagination.totalPages {
        SetPageParam(Max(1, pagination.totalPages));
      }
    }

    /** `onPageChange` */
    method OnPageChange(next: int)
      modifies this`page
      ensures page == BoundedPage(next, pagination.totalPages)
      ensures 1 <= page <= Max(1, pagination.totalPages) && Valid()
    {
      SetPageParam(BoundedPage(next, pagination.totalPages));
    }

    /** `goToFirstPage` */
    method GoToFirstPage()
      requires Valid()
      modifies this`page
      ensures page == 1
    {
      if page != 1 {
        SetPageParam(1);
      }
    }

    /** `handleSearchChange`: a new search starts from page 1. */
    method HandleSearchChange(value: string)
      requires Valid()
      modifies this`searchQuery, this`page
      ensures searchQuery == value && page == 1
      ensures Request().search == Trim(value) && Request().page == 1
    {
      searchQuery := value;
      GoToFirstPage();
    }

    /** The filter dialog's Apply button: the draft filters take effect and
        the list starts from page 1. */
    method ApplyFilters()
      requires Valid()
      modifies this`appliedFilters, this`filterOpen, this`page
      ensures appliedFilters == filters && !filterOpen && page == 1
    {
      appliedFilters := filters;
      filterOpen := false;
      GoToFirstPage();
    }

    /** The filter button: the dialog opens on the draft filters as left. */
    method OpenFilterDialog()
      modifies this`filterOpen
      ensures filterOpen
    {
      filterOpen := true;
    }

    /** The dialog's Cancel button and its close control: the dialog closes
        and the applied filters stay as they were; the draft is kept. */
    method CancelFilterDialog()
      modifies this`filterOpen
      ensures !filterOpen
    {
      filterOpen := false;
    }

    /** The Reset buttons (in the dialog, which it also closes, and beside
        the filter button): both the draft and the applied filters go back to
        the defaults, and the list starts from page 1. */
    method ResetFilters(closeDialog: bool)
      requires Valid()
      modifies this`filters, this`appliedFilters, this`filterOpen, this`page
      ensures filters == DefaultFilters && appliedFilters == DefaultFilters && page == 1
      ensures closeDialog ==> !filterOpen
      ensures !closeDialog ==> filterOpen == old(filterOpen)
      ensures !HasActiveFilters(appliedFilters)
    {
      filters := DefaultFilters;
      appliedFilters := DefaultFilters;
      if closeDialog {
        filterOpen := false;
      }
      GoToFirstPage();
    }

    /** `openCreateModal` */
    method OpenCreateModal(nowMonth: string, nowYear: string)
      modifies this`modalMode, this`editingBudgetId, this`form, this`modalOpen
      ensures modalMode == CreateMode && editingBudgetId.None? && modalOpen
      ensures form == DefaultForm(nowMonth, nowYear)
    {
      modalMode := CreateMode;
      editingBudgetId := None;
      form := DefaultForm(nowMonth, nowYear);
      modalOpen := true;
    }

    /** `closeBudgetModal`: ignored while a save is in flight. */
    method CloseBudgetModal(nowMonth: string, nowYear: string)
      modifies this`modalOpen, this`editingBudgetId, this`form
      ensures old(submitting) ==> modalOpen == old(modalOpen) && editingBudgetId == old(editingBudgetId)
                                  && form == old(form)
      ensures !old(submitting) ==> !modalOpen && editingBudgetId.None? && form == DefaultForm(nowMonth, nowYear)
    {
      if !submitting {
        modalOpen := false;
        editingBudgetId := None;
        form := DefaultForm(nowMonth, nowYear);
      }
    }

    /** `handleSubmitBudget`: the first failed check sets its message and
        nothing is sent; otherwise the budget is created, or updated when an
        existing budget is being edited, and on success the form closes and
        the list is to be fetched again (`refetch`). */
    method HandleSubmit(outcome: ServiceOutcome<()>, nowMonth: string, nowYear: string)
      returns (request: Option<BudgetRequest>, refetch: bool)
      modifies this`error, this`submitting, this`modalOpen, this`editingBudgetId, this`form
      ensures var check := ValidateBudget(old(form), number);
              (check.Rejected? ==>
                 request.None? && !refetch && error == Some(check.message)
                 && submitting == old(submitting) && modalOpen == old(modalOpen)
                 && editingBudgetId == old(editingBudgetId) && form == old(form))
              && (check.Accepted? ==>
                    var body := BudgetBody(check.month, check.year, check.totalBudget,
                                           CategoryBudgets(old(form).category, CategoryAmountOf(old(form), number)));
                    !submitting
                    && request == Some(if modalMode == EditMode && old(editingBudgetId).Some?
                                          && old(editingBudgetId).value != ""
                                       then Update(old(editingBudgetId).value, body) else Create(body))
                    && refetch == outcome.Responded?
                    && (outcome.Responded? ==>
                          error.None? && !modalOpen && editingBudgetId.None?
                          && form == DefaultForm(nowMonth, nowYear))
                    && (outcome.Failed? ==>
                          error == Some(OrElse(outcome.message, "Failed to save budget"))
                          && modalOpen == old(modalOpen) && editingBudgetId == old(editingBudgetId)
                          && form == old(form)))
    {
      var check := ValidateBudget(form, number);
      if check.Rejected? {
        error := Some(check.message);
        return None, false;
      }
      submitting := true;
      error := None;
      var categoryBudgets := BuildCategoryBudgets(form, number);
      var body := BudgetBody(check.month, check.year, check.totalBudget, categoryBudgets);
      if modalMode == EditMode && editingBudgetId.Some? && editingBudgetId.value != "" {
        request := Some(Update(editingBudgetId.value, body));
      } else {
        request := Some(Create(body));
      }
      match outcome {
        case Responded(_) =>
          // the handler's own `submitting` is the value it was rendered with,
          // false, so the form does close
          modalOpen := false;
          editingBudgetId := None;
          form := DefaultForm(nowMonth, nowYear);
          refetch := true;
        case Failed(message) =>
          error := Some(OrElse(message, "Failed to save budget"));
          refetch := false;
      }
      submitting := false;
    }

    /** `handleView`: shows the server's copy of the budget, or the row's own
        when the server sends none. */
    method HandleView(budget: BudgetRecord, outcome: ServiceOutcome<Option<BudgetRecord>>)
      modifies this`selectedBudget, this`viewOpen, this`error
      ensures outcome.Responded? ==>
                viewOpen && selectedBudget == Some(if outcome.body.Some? then outcome.body.value else budget)
                && error == old(error)
      ensures outcome.Failed? ==>
                error == Some(OrElse(outcome.message, "Failed to fetch budget details"))
                && viewOpen == old(viewOpen) && selectedBudget == old(selectedBudget)
    {
      match outcome {
        case Responded(found) =>
          selectedBudget := Some(if found.Some? then found.value else budget);
          viewOpen := true;
        case Failed(message) =>
          error := Some(OrElse(message, "Failed to fetch budget details"));
      }
    }

    /** `handleEdit`: the server's copy of the budget fills the form in edit
        mode; a response without a budget fails like a server error. */
    method HandleEdit(outcome: ServiceOutcome<Option<BudgetRecord>>)
      modifies this`modalMode, this`editingBudgetId, this`form, this`modalOpen, this`error
      ensures outcome.Responded? && outcome.body.Some? ==>
                var b := outcome.body.value;
                modalMode == EditMode && editingBudgetId == Some(b.id) && modalOpen
                && form == EditForm(b, show) && error == old(error)
      ensures outcome.Responded? && outcome.body.None? ==>
                error == Some("Failed to fetch budget details")
                && modalOpen == old(modalOpen) && form == old(form)
                && modalMode == old(modalMode) && editingBudgetId == old(editingBudgetId)
      ensures outcome.Failed? ==>
                error == Some(OrElse(outcome.message, "Failed to fetch budget details"))
                && modalOpen == old(modalOpen) && form == old(form)
                && modalMode == old(modalMode) && editingBudgetId == old(editingBudgetId)
    {
      match outcome {
        case Responded(found) =>
          if found.Some? {
            modalMode := EditMode;
            editingBudgetId := Some(found.value.id);
            form := EditForm(found.value, show);
            modalOpen := true;
          } else {
            // reading a field of the missing budget throws, with no server
            // message attached
            error := Some("Failed to fetch budget details");
          }
        case Failed(message) =>
          error := Some(OrElse(message, "Failed to fetch budget details"));
      }
    }

    /** `handleDelete`: nothing happens unless confirmed. After a successful
        delete the page steps back when the deleted row was alone on a later
        page (the new page then triggers the fetch); otherwise the same page
        is fetched again with the returned request. */
    method HandleDelete(confirmed: bool, outcome: ServiceOutcome<()>)
      returns (refetch: Option<ListPayload>)
      requires Valid()
      modifies this`error, this`page
      ensures !confirmed ==> refetch.None? && error == old(error) && page == old(page)
      ensures confirmed && outcome.Responded? ==>
                error.None? && page == PageAfterDelete(old(page), |budgets|)
                && (page == old(page) <==> refetch.Some?)
                && (refetch.Some? ==> refetch.value == Request())
      ensures confirmed && outcome.Failed? ==>
                refetch.None? && page == old(page)
                && error == Some(OrElse(outcome.message, "Failed to delete budget"))
      ensures Valid()
    {
      if !confirmed {
        return None;
      }
      error := None;
      match outcome {
        case Responded(_) =>
          var nextPage := PageAfterDelete(page, |budgets|);
          if nextPage != page {
            SetPageParam(nextPage);
            refetch := None;
          } else {
            refetch := Some(Request().(page := nextPage));
          }
        case Failed(message) =>
          error := Some(OrElse(message, "Failed to delete budget"));
          refetch := None;
      }
    }
  }
}
