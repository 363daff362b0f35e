/** The in-memory expenses page: a list of expenses with a search box,
    category and status filters, five expenses per page, a create/edit form,
    a confirmed delete and a direct delete by id. */
module ExpensePage {
  import opened Common
  import opened ListOps

  datatype Expense = Expense(
    id: int,
    description: string,
    category: string,
    amount: Num,
    date: string,
    status: string,
    billFile: Option<string>)

  function ExpenseId(e: Expense): int { e.id }

  /** The form's fields; `billFile` is the name of the chosen file. */
  datatype ExpenseForm = ExpenseForm(
    description: string,
    category: string,
    amount: string,
    date: string,
    billFile: Option<string>)

  const EmptyForm := ExpenseForm("", "Food & Groceries", "", "", None)

  /** An expense passes the filters when its lower-cased description contains
      the lower-cased query, and its category and status match the selected
      ones or the selection is the "All" entry. */
  predicate Shown(e: Expense, lower: string -> string, query: string, category: string, status: string) {
    Contains(lower(e.description), lower(query))
    && (category == "All Categories" || e.category == category)
    && (status == "All Status" || e.status == status)
  }

  /** `filteredExpenses` */
  function Filtered(xs: seq<Expense>, lower: string -> string, query: string, category: string,
                    status: string): seq<Expense> {
    Filter(xs, e => Shown(e, lower, query, category, status))
  }

  /** The filtered list holds exactly the expenses that pass the filters, in
      the list's order; with no query and the "All" entries selected it is
      the whole list. */
  lemma FilteredSpec(xs: seq<Expense>, lower: string -> string, query: string, category: string,
                     status: string)
    ensures forall e :: e in Filtered(xs, lower, query, category, status)
                        <==> e in xs && Shown(e, lower, query, category, status)
    ensures forall a, b :: xs == a + b ==>
              Filtered(xs, lower, query, category, status)
              == Filtered(a, lower, query, category, status) + Filtered(b, lower, query, category, status)
    ensures query == "" && lower("") == "" && category == "All Categories" && status == "All Status"
            ==> Filtered(xs, lower, query, category, status) == xs
  {
    forall a, b | xs == a + b
      ensures Filtered(xs, lower, query, category, status)
              == Filtered(a, lower, query, category, status) + Filtered(b, lower, query, category, status)
    {
      FilterAppend(a, b, e => Shown(e, lower, query, category, status));
    }
    if query == "" && lower("") == "" && category == "All Categories" && status == "All Status" {
      forall e | e in xs ensures Shown(e, lower, query, category, status) {
        ContainsEmpty(lower(e.description));
      }
      FilterKeepsAll(xs, e => Shown(e, lower, query, category, status));
    }
  }

  /** The form opened on an expense: its fields as text, and no file chosen. */
  function FormOf(e: Expense, show: Num -> string): (f: ExpenseForm)
    ensures f.description == e.description && f.category == e.category && f.date == e.date
    ensures f.amount == show(e.amount) && f.billFile.None?
  {
    ExpenseForm(e.description, e.category, show(e.amount), e.date, None)
  }

  /** An expense after the edit form is submitted: the form's fields replace
      the expense's, while its id and status stay and the bill file stays
      unless a new one was chosen. */
  function Edited(e: Expense, form: ExpenseForm, parseFloat: string -> Num): (r: Expense)
    ensures r.id == e.id && r.status == e.status
    ensures r.description == form.description && r.category == form.category && r.date == form.date
    ensures r.amount == parseFloat(form.amount)
    ensures form.billFile.None? || form.billFile.value == "" ==> r.billFile == e.billFile
    ensures form.billFile.Some? && form.billFile.value != "" ==> r.billFile == form.billFile
  {
    e.(description := form.description, category := form.category,
       amount := parseFloat(form.amount), date := form.date,
       billFile := OrElseOpt(form.billFile, e.billFile))
  }

  /** An expense created from the form: it starts out "Pending". */
  function NewExpense(id: int, form: ExpenseForm, parseFloat: string -> Num): (r: Expense)
    ensures r.id == id && r.status == "Pending"
    ensures r.description == form.description && r.category == form.category && r.date == form.date
    ensures r.amount == parseFloat(form.amount) && r.billFile == form.billFile
  {
    Expense(id, form.description, form.category, parseFloat(form.amount), form.date, "Pending",
            form.billFile)
  }

  /** The list after an edit of the expense with id `id`. */
  function ApplyEdit(xs: seq<Expense>, id: int, form: ExpenseForm, parseFloat: string -> Num): seq<Expense> {
    ReplaceWhere(xs, ExpenseId, id, e => Edited(e, form, parseFloat))
  }

  /** The edit touches only the expenses with that id; the ids of the list,
      and so their uniqueness, are unchanged. */
  lemma ApplyEditSpec(xs: seq<Expense>, id: int, form: ExpenseForm, parseFloat: string -> Num)
    ensures var r := ApplyEdit(xs, id, form, parseFloat);
            |r| == |xs|
            && (forall i :: 0 <= i < |xs| && xs[i].id != id ==> r[i] == xs[i])
            && (forall i :: 0 <= i < |xs| && xs[i].id == id ==> r[i] == Edited(xs[i], form, parseFloat))
            && Keys(r, ExpenseId) == Keys(xs, ExpenseId)
            && (UniqueKeys(xs, ExpenseId) ==> UniqueKeys(r, ExpenseId))
            && (forall y :: y in r && y.id != id ==> y in xs)
            && ApplyEdit(r, id, form, parseFloat) == r
  {
    var f := e => Edited(e, form, parseFloat);
    ReplaceWhereKeepsIds(xs, ExpenseId, id, f);
    if UniqueKeys(xs, ExpenseId) {
      ReplaceWhereKeepsUnique(xs, ExpenseId, id, f);
    }
  }

  /** The list after a create: the new expense, with the next id, in front. */
  function AddExpense(xs: seq<Expense>, form: ExpenseForm, parseFloat: string -> Num): (r: seq<Expense>)
    ensures |r| == |xs| + 1 && r[1..] == xs
  {
    [NewExpense(NextId(Keys(xs, ExpenseId)), form, parseFloat)] + xs
  }

  /** Every earlier expense is kept, the new one is "Pending" with an id no
      other expense carries, and on a non-empty list that id is what
      `Math.max(...ids) + 1` computes. */
  lemma AddExpenseSpec(xs: seq<Expense>, form: ExpenseForm, parseFloat: string -> Num)
    requires UniqueKeys(xs, ExpenseId)
    ensures var r := AddExpense(xs, form, parseFloat);
            r[0].status == "Pending"
            && (forall e :: e in xs ==> e.id != r[0].id)
            && UniqueKeys(r, ExpenseId)
            && (xs != [] ==>
                  var ids := Keys(xs, ExpenseId);
                  NextIdAsWritten(seq(|ids|, i requires 0 <= i < |ids| => Finite(ids[i] as real)))
                  == Finite(r[0].id as real))
  {
    var r := AddExpense(xs, form, parseFloat);
    PrependNextIdKeepsUnique(xs, ExpenseId, r[0]);
    if xs != [] {
      NextIdAsWrittenAgrees(Keys(xs, ExpenseId));
    }
  }

  class ExpensePage {
    const lower: string -> string
    const parseFloat: string -> Num
    const show: Num -> string

    var expenses: seq<Expense>
    var searchQuery: string
    var selectedCategory: string
    var selectedStatus: string
    var currentPage: int
    var isModalOpen: bool
    var editingExpense: Option<Expense>
    var form: ExpenseForm
    var deleteDialogOpen: bool
    var expenseToDelete: Option<Expense>

    /** The page number never drops below 1 and no two expenses share an id. */
    predicate Valid()
      reads this
    {
      currentPage >= 1 && UniqueKeys(expenses, ExpenseId)
    }

    /** The page as first shown, on the sample expenses. */
    constructor (initial: seq<Expense>, lower: string -> string, parseFloat: string -> Num,
                 show: Num -> string)
      requires UniqueKeys(initial, ExpenseId)
      ensures expenses == initial && searchQuery == "" && selectedCategory == "All Categories"
      ensures selectedStatus == "All Status" && currentPage == 1
      ensures !isModalOpen && editingExpense.None? && form == EmptyForm
      ensures !deleteDialogOpen && expenseToDelete.None?
      ensures this.lower == lower && this.parseFloat == parseFloat && this.show == show
      ensures Valid()
    {
      this.lower := lower;
      this.parseFloat := parseFloat;
      this.show := show;
      expenses := initial;
      searchQuery := "";
      selectedCategory := "All Categories";
      selectedStatus := "All Status";
      currentPage := 1;
      isModalOpen := false;
      editingExpense := None;
      form := EmptyForm;
      deleteDialogOpen := false;
      expenseToDelete := None;
    }

    function FilteredExpenses(): seq<Expense>
      reads this
    {
      Filtered(expenses, lower, searchQuery, selectedCategory, selectedStatus)
    }

    /** `Math.ceil(filteredExpenses.length / 5)` */
    function TotalPages(): nat
      reads this
    {
      PageCount(|FilteredExpenses()|)
    }

    /** The expenses on the current page. */
    function PaginatedExpenses(): seq<Expense>
      reads this
    {
      PageOf(FilteredExpenses(), currentPage)
    }

    /** The pagination bar's "Showing a to b of n" line; the bar is shown
        only when some expense passes the filters. On a page that holds rows,
        a to b are the positions, counted from 1, of the rows it shows. */
    function PaginationBar(): (r: Option<(int, int, nat)>)
      reads this
      ensures r.Some? <==> FilteredExpenses() != []
      ensures r.Some? ==> r.value.2 == |FilteredExpenses()| && r.value.2 >= 1
      ensures r.Some? ==> (r.value.0, r.value.1) == ShownRange(currentPage, |FilteredExpenses()|)
      ensures r.Some? && 1 <= currentPage <= TotalPages() ==>
                1 <= r.value.0 <= r.value.1 <= |FilteredExpenses()|
                && FilteredExpenses()[r.value.0 - 1..r.value.1] == PaginatedExpenses()
    {
      var n := |FilteredExpenses()|;
      RangeMatchesPage(FilteredExpenses(), currentPage);
      if n > 0 then
        var (a, b) := ShownRange(currentPage, n);
        Some((a, b, n))
      else None
    }

    /** Typing in the search box goes back to page 1. */
    method SetSearchQuery(q: string)
      requires Valid()
      modifies this`searchQuery, this`currentPage
      ensures searchQuery == q && currentPage == 1
      ensures Valid()
    {
      searchQuery := q;
      currentPage := 1;
    }

    /** Choosing a category goes back to page 1. */
    method SetCategory(c: string)
      requires Valid()
      modifies this`selectedCategory, this`currentPage
      ensures selectedCategory == c && currentPage == 1
      ensures Valid()
    {
      selectedCategory := c;
      currentPage := 1;
    }

    /** Choosing a status goes back to page 1. */
    method SetStatus(s: string)
      requires Valid()
      modifies this`selectedStatus, this`currentPage
      ensures selectedStatus == s && currentPage == 1
      ensures Valid()
    {
      selectedStatus := s;
      currentPage := 1;
    }

    /** `handleOpenModal`: on an expense, its fields fill the form;
        otherwise the form is empty. */
    method OpenModal(e: Option<Expense>)
      modifies this`editingExpense, this`form, this`isModalOpen
      ensures editingExpense == e && isModalOpen
      ensures e.Some? ==> form == FormOf(e.value, show)
      ensures e.None? ==> form == EmptyForm
    {
      editingExpense := e;
      if e.Some? {
        form := FormOf(e.value, show);
      } else {
        form := EmptyForm;
      }
      isModalOpen := true;
    }

    /** `handleCloseModal` */
    method CloseModal()
      modifies this`isModalOpen, this`editingExpense, this`form
      ensures !isModalOpen && editingExpense.None? && form == EmptyForm
    {
      isModalOpen := false;
      editingExpense := None;
      form := EmptyForm;
    }

    /** `handleSubmit`: edits the expense being edited or adds a new one,
        then closes the form. */
    method Submit()
      requires Valid()
      modifies this`expenses, this`isModalOpen, this`editingExpense, this`form
      ensures old(editingExpense).Some? ==>
                expenses == ApplyEdit(old(expenses), old(editingExpense).value.id, old(form), parseFloat)
      ensures old(editingExpense).None? ==> expenses == AddExpense(old(expenses), old(form), parseFloat)
      ensures !isModalOpen && editingExpense.None? && form == EmptyForm
      ensures Valid()
    {
      if editingExpense.Some? {
        ApplyEditSpec(expenses, editingExpense.value.id, form, parseFloat);
        expenses := ApplyEdit(expenses, editingExpense.value.id, form, parseFloat);
      } else {
        AddExpenseSpec(expenses, form, parseFloat);
        expenses := AddExpense(expenses, form, parseFloat);
      }
      CloseModal();
    }

    /** `handleDeleteClick` */
    method DeleteClick(e: Expense)
      modifies this`expenseToDelete, this`deleteDialogOpen
      ensures expenseToDelete == Some(e) && deleteDialogOpen
    {
      expenseToDelete := Some(e);
      deleteDialogOpen := true;
    }

    /** `handleConfirmDelete`: every expense with the chosen expense's id goes. */
    method ConfirmDelete()
      requires Valid()
      modifies this`expenses, this`deleteDialogOpen, this`expenseToDelete
      ensures old(expenseToDelete).Some? ==>
                expenses == RemoveById(old(expenses), ExpenseId, old(expenseToDelete).value.id)
      ensures old(expenseToDelete).None? ==> expenses == old(expenses)
      ensures !deleteDialogOpen && expenseToDelete.None?
      ensures Valid()
    {
      if expenseToDelete.Some? {
        RemoveByIdKeepsUnique(expenses, ExpenseId, expenseToDelete.value.id);
        expenses := RemoveById(expenses, ExpenseId, expenseToDelete.value.id);
      }
      deleteDialogOpen := false;
      expenseToDelete := None;
    }

    /** `handleDelete`: removes the expenses with the given id, without the
        dialog. */
    method Delete(id: int)
      requires Valid()
      modifies this`expenses
      ensures expenses == RemoveById(old(expenses), ExpenseId, id)
      ensures Valid()
    {
      RemoveByIdKeepsUnique(expenses, ExpenseId, id);
      expenses := RemoveById(expenses, ExpenseId, id);
    }

    /** `handleCancelDelete` */
    method CancelDelete()
      modifies this`deleteDialogOpen, this`expenseToDelete
      ensures !deleteDialogOpen && expenseToDelete.None?
    {
      deleteDialogOpen := false;
      expenseToDelete := None;
    }

    /** The Previous button: on the bar, disabled on page 1. */
    method PreviousClick()
      requires Valid()
      modifies this`currentPage
      ensures FilteredExpenses() != [] && old(currentPage) > 1 ==> currentPage == old(currentPage) - 1
      ensures FilteredExpenses() == [] || old(currentPage) == 1 ==> currentPage == old(currentPage)
      ensures Valid()
    {
      if FilteredExpenses() != [] && currentPage != 1 {
        currentPage := PreviousPage(currentPage);
      }
    }

    /** The Next button: on the bar, so only with at least one page, and
        disabled on the last page; it moves to
        `Math.min(page + 1, totalPages)`. */
    method NextClick()
      requires Valid()
      modifies this`currentPage
      ensures currentPage == if FilteredExpenses() != [] && NextEnabled(old(currentPage), TotalPages())
                             then NextPageAsWritten(old(currentPage), TotalPages()) else old(currentPage)
      ensures old(currentPage) < TotalPages() ==> currentPage == old(currentPage) + 1
      ensures FilteredExpenses() != [] && old(currentPage) > TotalPages() ==> currentPage == TotalPages()
      ensures 1 <= currentPage <= Max(old(currentPage), TotalPages())
      ensures Valid()
    {
      if FilteredExpenses() != [] && NextEnabled(currentPage, TotalPages()) {
        currentPage := NextPageAsWritten(currentPage, TotalPages());
      }
    }

    /** A numbered page button. */
    method GoToPage(p: int)
      requires Valid()
      requires 1 <= p <= TotalPages()
      modifies this`currentPage
      ensures currentPage == p && Valid()
      ensures PaginatedExpenses() != []
    {
      currentPage := p;
      PageOfSpec(FilteredExpenses(), p);
    }
  }
}
