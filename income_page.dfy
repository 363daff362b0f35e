/** The incomes page: an in-memory list of incomes with a search box, source
    and status filters, five incomes per page, a create/edit form and a
    confirmed delete. */
module IncomePage {
  import opened Common
  import opened ListOps

  datatype Income = Income(
    id: int,
    description: string,
    source: string,
    amount: Num,
    date: string,
    status: string,
    recurring: bool,
    receipt: Option<string>)

  function IncomeId(x: Income): int { x.id }

  /** The form's fields; `receipt` is the name of the chosen file. */
  datatype IncomeForm = IncomeForm(
    description: string,
    source: string,
    amount: string,
    date: string,
    recurring: bool,
    receipt: Option<string>)

  const EmptyForm := IncomeForm("", "Salary", "", "", false, None)

  /** The source filter's entries, "All Sources" first. */
  const Sources: seq<string> := ["All Sources", "Salary", "Freelance", "Rental", "Investments",
                                 "Side Income", "Refund", "Gift", "Bonus"]

  /** The form's source options: the filter's entries without "All Sources"
      (the page passes `Sources`). */
  function FormSources(sources: seq<string>): seq<string> {
    Filter(sources, IsSourceOption)
  }

  /** `s !== "All Sources"` */
  predicate IsSourceOption(s: string) {
    s != "All Sources"
  }

  /** The filter's list has the "All Sources" sentinel first and nowhere
      else: every other entry starts with another letter. */
  lemma SentinelOnlyFirst()
    ensures Sources != [] && Sources[0] == "All Sources"
    ensures forall i :: 1 <= i < |Sources| ==> Sources[i] != "All Sources"
  {
    forall i | 1 <= i < |Sources| ensures Sources[i] != "All Sources" {
      if i <= 4 {
        assert Sources[i][0] in {'S', 'F', 'R', 'I'};
      } else {
        assert Sources[i][0] in {'S', 'R', 'G', 'B'};
      }
    }
  }

  /** For a list shaped like `Sources` (see `SentinelOnlyFirst`), dropping
      the sentinel drops exactly the first entry, so the options are the
      other entries in the same order. */
  lemma FormSourcesAreTheRest(sources: seq<string>)
    requires sources != [] && sources[0] == "All Sources"
    requires forall i :: 1 <= i < |sources| ==> sources[i] != "All Sources"
    ensures FormSources(sources) == sources[1..]
    ensures "All Sources" !in FormSources(sources)
  {
    FilterDropsHead(sources, IsSourceOption);
  }

  /** An income passes the filters when its lower-cased description contains
      the lower-cased query, and its source and status match the selected
      ones or the selection is the "All" entry. */
  predicate Shown(x: Income, lower: string -> string, query: string, source: string, status: string) {
    Contains(lower(x.description), lower(query))
    && (source == "All Sources" || x.source == source)
    && (status == "All Status" || x.status == status)
  }

  /** `filteredIncomes` */
  function Filtered(xs: seq<Income>, lower: string -> string, query: string, source: string,
                    status: string): seq<Income> {
    Filter(xs, x => Shown(x, lower, query, source, status))
  }

  /** The filtered list holds exactly the incomes that pass the filters, in
      the list's order; with no query and the "All" entries selected it is
      the whole list. */
  lemma FilteredSpec(xs: seq<Income>, lower: string -> string, query: string, source: string,
                     status: string)
    ensures forall x :: x in Filtered(xs, lower, query, source, status)
                        <==> x in xs && Shown(x, lower, query, source, status)
    ensures forall a, b :: xs == a + b ==>
              Filtered(xs, lower, query, source, status)
              == Filtered(a, lower, query, source, status) + Filtered(b, lower, query, source, status)
    ensures query == "" && lower("") == "" && source == "All Sources" && status == "All Status"
            ==> Filtered(xs, lower, query, source, status) == xs
  {
    forall a, b | xs == a + b
      ensures Filtered(xs, lower, query, source, status)
              == Filtered(a, lower, query, source, status) + Filtered(b, lower, query, source, status)
    {
      FilterAppend(a, b, x => Shown(x, lower, query, source, status));
    }
    if query == "" && lower("") == "" && source == "All Sources" && status == "All Status" {
      forall x | x in xs ensures Shown(x, lower, query, source, status) {
        ContainsEmpty(lower(x.description));
      }
      FilterKeepsAll(xs, x => Shown(x, lower, query, source, status));
    }
  }

  /** The form opened on an income: its fields as text, and no file chosen. */
  function FormOf(x: Income, show: Num -> string): (f: IncomeForm)
    ensures f.description == x.description && f.source == x.source && f.date == x.date
    ensures f.amount == show(x.amount) && f.recurring == x.recurring && f.receipt.None?
  {
    IncomeForm(x.description, x.source, show(x.amount), x.date, x.recurring, None)
  }

  /** An income after the edit form is submitted: the form's fields replace
      the income's, while its id and status stay and the receipt stays
      unless a new file was chosen. */
  function Edited(x: Income, form: IncomeForm, parseFloat: string -> Num): (r: Income)
    ensures r.id == x.id && r.status == x.status
    ensures r.description == form.description && r.source == form.source && r.date == form.date
    ensures r.amount == parseFloat(form.amount) && r.recurring == form.recurring
    ensures form.receipt.None? || form.receipt.value == "" ==> r.receipt == x.receipt
    ensures form.receipt.Some? && form.receipt.value != "" ==> r.receipt == form.receipt
  {
    x.(description := form.description, source := form.source,
       amount := parseFloat(form.amount), date := form.date, recurring := form.recurring,
       receipt := OrElseOpt(form.receipt, x.receipt))
  }

  /** An income created from the form: it starts out "Pending". */
  function NewIncome(id: int, form: IncomeForm, parseFloat: string -> Num): (r: Income)
    ensures r.id == id && r.status == "Pending"
    ensures r.description == form.description && r.source == form.source && r.date == form.date
    ensures r.amount == parseFloat(form.amount) && r.recurring == form.recurring
    ensures r.receipt == form.receipt
  {
    Income(id, form.description, form.source, parseFloat(form.amount), form.date, "Pending",
           form.recurring, form.receipt)
  }

  /** The list after an edit of the income with id `id`. */
  function ApplyEdit(xs: seq<Income>, id: int, form: IncomeForm, parseFloat: string -> Num): seq<Income> {
    ReplaceWhere(xs, IncomeId, id, x => Edited(x, form, parseFloat))
  }

  /** The edit touches only the incomes with that id; the ids of the list,
      and so their uniqueness, are unchanged. */
  lemma ApplyEditSpec(xs: seq<Income>, id: int, form: IncomeForm, parseFloat: string -> Num)
    ensures var r := ApplyEdit(xs, id, form, parseFloat);
            |r| == |xs|
            && (forall i :: 0 <= i < |xs| && xs[i].id != id ==> r[i] == xs[i])
            && (forall i :: 0 <= i < |xs| && xs[i].id == id ==> r[i] == Edited(xs[i], form, parseFloat))
            && Keys(r, IncomeId) == Keys(xs, IncomeId)
            && (UniqueKeys(xs, IncomeId) ==> UniqueKeys(r, IncomeId))
            && (forall y :: y in r && y.id != id ==> y in xs)
            && ApplyEdit(r, id, form, parseFloat) == r
  {
    var f := x => Edited(x, form, parseFloat);
    ReplaceWhereKeepsIds(xs, IncomeId, id, f);
    if UniqueKeys(xs, IncomeId) {
      ReplaceWhereKeepsUnique(xs, IncomeId, id, f);
    }
  }

  /** The list after a create: the new income, with the next id, in front. */
  function AddIncome(xs: seq<Income>, form: IncomeForm, parseFloat: string -> Num): (r: seq<Income>)
    ensures |r| == |xs| + 1 && r[1..] == xs
  {
    [NewIncome(NextId(Keys(xs, IncomeId)), form, parseFloat)] + xs
  }

  /** Every earlier income is kept, the new one is "Pending", recurring as
      the form says, with an id no other income carries; on a non-empty list
      that id is what `Math.max(...ids) + 1` computes. */
  lemma AddIncomeSpec(xs: seq<Income>, form: IncomeForm, parseFloat: string -> Num)
    requires UniqueKeys(xs, IncomeId)
    ensures var r := AddIncome(xs, form, parseFloat);
            r[0].status == "Pending" && r[0].recurring == form.recurring
            && (forall x :: x in xs ==> x.id != r[0].id)
            && UniqueKeys(r, IncomeId)
            && (xs != [] ==>
                  var ids := Keys(xs, IncomeId);
                  NextIdAsWritten(seq(|ids|, i requires 0 <= i < |ids| => Finite(ids[i] as real)))
                  == Finite(r[0].id as real))
  {
    var r := AddIncome(xs, form, parseFloat);
    PrependNextIdKeepsUnique(xs, IncomeId, r[0]);
    if xs != [] {
      NextIdAsWrittenAgrees(Keys(xs, IncomeId));
    }
  }

  class IncomePage {
    const lower: string -> string
    const parseFloat: string -> Num
    const show: Num -> string

    var incomes: seq<Income>
    var searchQuery: string
    var selectedSource: string
    var selectedStatus: string
    var currentPage: int
    var isModalOpen: bool
    var editingIncome: Option<Income>
    var form: IncomeForm
    var deleteDialogOpen: bool
    var incomeToDelete: Option<Income>

    /** The page number never drops below 1 and no two incomes share an id. */
    predicate Valid()
      reads this
    {
      currentPage >= 1 && UniqueKeys(incomes, IncomeId)
    }

    /** The page as first shown, on the sample incomes. */
    constructor (initial: seq<Income>, lower: string -> string, parseFloat: string -> Num,
                 show: Num -> string)
      requires UniqueKeys(initial, IncomeId)
      ensures incomes == initial && searchQuery == "" && selectedSource == "All Sources"
      ensures selectedStatus == "All Status" && currentPage == 1
      ensures !isModalOpen && editingIncome.None? && form == EmptyForm
      ensures !deleteDialogOpen && incomeToDelete.None?
      ensures this.lower == lower && this.parseFloat == parseFloat && this.show == show
      ensures Valid()
    {
      this.lower := lower;
      this.parseFloat := parseFloat;
      this.show := show;
      incomes := initial;
      searchQuery := "";
      selectedSource := "All Sources";
      selectedStatus := "All Status";
      currentPage := 1;
      isModalOpen := false;
      editingIncome := None;
      form := EmptyForm;
      deleteDialogOpen := false;
      incomeToDelete := None;
    }

    function FilteredIncomes(): seq<Income>
      reads this
    {
      Filtered(incomes, lower, searchQuery, selectedSource, selectedStatus)
    }

    /** `Math.ceil(filteredIncomes.length / 5)` */
    function TotalPages(): nat
      reads this
    {
      PageCount(|FilteredIncomes()|)
    }

    /** The incomes on the current page. */
    function PaginatedIncomes(): seq<Income>
      reads this
    {
      PageOf(FilteredIncomes(), currentPage)
    }

    /** Typing in the search box goes back to page 1. */
    method SetSearchQuery(q: string)
      requires Valid()
      modifies this`searchQuery, this`currentPage
      ensures searchQuery == q && currentPage == 1
      ensures Valid()
    {
      searchQuery := q;
      currentPage := 1;
    }

    /** Choosing a source goes back to page 1. */
    method SetSource(s: string)
      requires Valid()
      modifies this`selectedSource, this`currentPage
      ensures selectedSource == s && currentPage == 1
      ensures Valid()
    {
      selectedSource := s;
      currentPage := 1;
    }

    /** Choosing a status goes back to page 1. */
    method SetStatus(s: string)
      requires Valid()
      modifies this`selectedStatus, this`currentPage
      ensures selectedStatus == s && currentPage == 1
      ensures Valid()
    {
      selectedStatus := s;
      currentPage := 1;
    }

    /** `handleOpenModal`: on an income, its fields fill the form; otherwise
        the form is empty. */
    method OpenModal(x: Option<Income>)
      modifies this`editingIncome, this`form, this`isModalOpen
      ensures editingIncome == x && isModalOpen
      ensures x.Some? ==> form == FormOf(x.value, show)
      ensures x.None? ==> form == EmptyForm
    {
      editingIncome := x;
      if x.Some? {
        form := FormOf(x.value, show);
      } else {
        form := EmptyForm;
      }
      isModalOpen := true;
    }

    /** `handleCloseModal` */
    method CloseModal()
      modifies this`isModalOpen, this`editingIncome, this`form
      ensures !isModalOpen && editingIncome.None? && form == EmptyForm
    {
      isModalOpen := false;
      editingIncome := None;
      form := EmptyForm;
    }

    /** `handleSubmit`: edits the income being edited or adds a new one, then
        closes the form. */
    method Submit()
      requires Valid()
      modifies this`incomes, this`isModalOpen, this`editingIncome, this`form
      ensures old(editingIncome).Some? ==>
                incomes == ApplyEdit(old(incomes), old(editingIncome).value.id, old(form), parseFloat)
      ensures old(editingIncome).None? ==> incomes == AddIncome(old(incomes), old(form), parseFloat)
      ensures !isModalOpen && editingIncome.None? && form == EmptyForm
      ensures Valid()
    {
      if editingIncome.Some? {
        ApplyEditSpec(incomes, editingIncome.value.id, form, parseFloat);
        incomes := ApplyEdit(incomes, editingIncome.value.id, form, parseFloat);
      } else {
        AddIncomeSpec(incomes, form, parseFloat);
        incomes := AddIncome(incomes, form, parseFloat);
      }
      CloseModal();
    }

    /** `handleDeleteClick` */
    method DeleteClick(x: Income)
      modifies this`incomeToDelete, this`deleteDialogOpen
      ensures incomeToDelete == Some(x) && deleteDialogOpen
    {
      incomeToDelete := Some(x);
      deleteDialogOpen := true;
    }

    /** `handleConfirmDelete`: every income with the chosen income's id goes. */
    method ConfirmDelete()
      requires Valid()
      modifies this`incomes, this`deleteDialogOpen, this`incomeToDelete
      ensures old(incomeToDelete).Some? ==>
                incomes == RemoveById(old(incomes), IncomeId, old(incomeToDelete).value.id)
      ensures old(incomeToDelete).None? ==> incomes == old(incomes)
      ensures !deleteDialogOpen && incomeToDelete.None?
      ensures Valid()
    {
      if incomeToDelete.Some? {
        RemoveByIdKeepsUnique(incomes, IncomeId, incomeToDelete.value.id);
        incomes := RemoveById(incomes, IncomeId, incomeToDelete.value.id);
      }
      deleteDialogOpen := false;
      incomeToDelete := None;
    }

    /** `handleCancelDelete` */
    method CancelDelete()
      modifies this`deleteDialogOpen, this`incomeToDelete
      ensures !deleteDialogOpen && incomeToDelete.None?
    {
      deleteDialogOpen := false;
      incomeToDelete := None;
    }

    /** The Previous button, disabled on page 1. */
    method PreviousClick()
      requires Valid()
      modifies this`currentPage
      ensures old(currentPage) > 1 ==> currentPage == old(currentPage) - 1
      ensures old(currentPage) == 1 ==> currentPage == 1
      ensures Valid()
    {
      if currentPage != 1 {
        currentPage := PreviousPage(currentPage);
      }
    }

    /** The Next button, disabled when the page number equals the page count.
        It runs the clamped `NextPage`, which differs from the page's own
        `Math.min(totalPages, page + 1)` only when nothing passes the filters
        (then it stays on page 1 instead of moving to page 0). */
    method NextClick()
      requires Valid()
      modifies this`currentPage
      ensures currentPage == if NextEnabled(old(currentPage), TotalPages())
                             then NextPage(old(currentPage), TotalPages()) else old(currentPage)
      ensures TotalPages() >= 1 ==>
                currentPage == if NextEnabled(old(currentPage), TotalPages())
                               then NextPageAsWritten(old(currentPage), TotalPages()) else old(currentPage)
      ensures old(currentPage) < TotalPages() ==> currentPage == old(currentPage) + 1
      ensures currentPage <= Max(old(currentPage), Max(1, TotalPages()))
      ensures Valid()
    {
      if NextEnabled(currentPage, TotalPages()) {
        currentPage := NextPage(currentPage, TotalPages());
      }
    }

    /** A numbered page button. */
    method GoToPage(p: int)
      requires Valid()
      requires 1 <= p <= TotalPages()
      modifies this`currentPage
      ensures currentPage == p && Valid()
      ensures PaginatedIncomes() != []
    {
      currentPage := p;
      PageOfSpec(FilteredIncomes(), p);
    }
  }
}
