/** The bills page: an in-memory list of bills with a search box, category and
    status filters, five bills per page, a create/edit form and a confirmed
    delete, plus the reminder shown next to each unpaid bill. */
module BillsPage {
  import opened Common
  import opened ListOps

  datatype Bill = Bill(
    id: int,
    name: string,
    category: string,
    amount: Num,
    dueDate: string,
    status: string,
    recurring: bool,
    reminderDays: Num,
    attachment: Option<string>)

  function BillId(b: Bill): int { b.id }

  /** The form's fields; `attachment` is the name of the chosen file. */
  datatype BillForm = BillForm(
    name: string,
    category: string,
    amount: string,
    dueDate: string,
    recurring: bool,
    reminderDays: string,
    attachment: Option<string>)

  const EmptyForm := BillForm("", "Utilities", "", "", true, "3", None)

  /** A bill passes the filters when its lower-cased name or category contains
      the lower-cased query, and its category and status match the selected
      ones or the selection is the "All" entry. */
  predicate Shown(b: Bill, lower: string -> string, query: string, category: string, status: string) {
    (Contains(lower(b.name), lower(query)) || Contains(lower(b.category), lower(query)))
    && (category == "All Categories" || b.category == category)
    && (status == "All Status" || b.status == status)
  }

  /** `filteredBills` */
  function Filtered(bills: seq<Bill>, lower: string -> string, query: string, category: string,
                    status: string): seq<Bill> {
    Filter(bills, b => Shown(b, lower, query, category, status))
  }

  /** The filtered list holds exactly the bills that pass the filters, in the
      list's order; with no query and the "All" entries selected it is the
      whole list. */
  lemma FilteredSpec(bills: seq<Bill>, lower: string -> string, query: string, category: string,
                     status: string)
    ensures forall b :: b in Filtered(bills, lower, query, category, status)
                        <==> b in bills && Shown(b, lower, query, category, status)
    ensures forall xs, ys :: bills == xs + ys ==>
              Filtered(bills, lower, query, category, status)
              == Filtered(xs, lower, query, category, status) + Filtered(ys, lower, query, category, status)
    ensures query == "" && lower("") == "" && category == "All Categories" && status == "All Status"
            ==> Filtered(bills, lower, query, category, status) == bills
  {
    forall xs, ys | bills == xs + ys
      ensures Filtered(bills, lower, query, category, status)
              == Filtered(xs, lower, query, category, status) + Filtered(ys, lower, query, category, status)
    {
      FilterAppend(xs, ys, b => Shown(b, lower, query, category, status));
    }
    if query == "" && lower("") == "" && category == "All Categories" && status == "All Status" {
      forall b | b in bills ensures Shown(b, lower, query, category, status) {
        ContainsEmpty(lower(b.name));
      }
      FilterKeepsAll(bills, b => Shown(b, lower, query, category, status));
    }
  }

  /** The form opened on a bill: its fields as text, and no file chosen. */
  function FormOf(b: Bill, show: Num -> string): (f: BillForm)
    ensures f.name == b.name && f.category == b.category && f.dueDate == b.dueDate
    ensures f.amount == show(b.amount) && f.reminderDays == show(b.reminderDays)
    ensures f.recurring == b.recurring && f.attachment.None?
  {
    BillForm(b.name, b.category, show(b.amount), b.dueDate, b.recurring, show(b.reminderDays), None)
  }

  /** A bill after the edit form is submitted: the form's fields replace the
      bill's, while its id and status stay and the attachment stays unless a
      new file was chosen. */
  function Edited(b: Bill, form: BillForm, parseFloat: string -> Num, parseInt: string -> Num): (r: Bill)
    ensures r.id == b.id && r.status == b.status
    ensures r.name == form.name && r.category == form.category && r.dueDate == form.dueDate
    ensures r.amount == parseFloat(form.amount) && r.reminderDays == parseInt(form.reminderDays)
    ensures r.recurring == form.recurring
    ensures form.attachment.None? || form.attachment.value == "" ==> r.attachment == b.attachment
    ensures form.attachment.Some? && form.attachment.value != "" ==> r.attachment == form.attachment
  {
    b.(name := form.name, category := form.category, amount := parseFloat(form.amount),
       dueDate := form.dueDate, recurring := form.recurring,
       reminderDays := parseInt(form.reminderDays),
       attachment := OrElseOpt(form.attachment, b.attachment))
  }

  /** A bill created from the form: it starts out "Unpaid". */
  function NewBill(id: int, form: BillForm, parseFloat: string -> Num, parseInt: string -> Num): (r: Bill)
    ensures r.id == id && r.status == "Unpaid"
    ensures r.name == form.name && r.category == form.category && r.dueDate == form.dueDate
    ensures r.amount == parseFloat(form.amount) && r.reminderDays == parseInt(form.reminderDays)
    ensures r.recurring == form.recurring && r.attachment == form.attachment
  {
    Bill(id, form.name, form.category, parseFloat(form.amount), form.dueDate, "Unpaid",
         form.recurring, parseInt(form.reminderDays), form.attachment)
  }

  /** The list after an edit of the bill with id `id`. */
  function ApplyEdit(bills: seq<Bill>, id: int, form: BillForm, parseFloat: string -> Num,
                     parseInt: string -> Num): seq<Bill> {
    ReplaceWhere(bills, BillId, id, b => Edited(b, form, parseFloat, parseInt))
  }

  /** The edit touches only the bills with that id; the ids of the list, and
      so their uniqueness, are unchanged. */
  lemma ApplyEditSpec(bills: seq<Bill>, id: int, form: BillForm, parseFloat: string -> Num,
                      parseInt: string -> Num)
    ensures var r := ApplyEdit(bills, id, form, parseFloat, parseInt);
            |r| == |bills|
            && (forall i :: 0 <= i < |bills| && bills[i].id != id ==> r[i] == bills[i])
            && (forall i :: 0 <= i < |bills| && bills[i].id == id ==> r[i] == Edited(bills[i], form, parseFloat, parseInt))
            && Keys(r, BillId) == Keys(bills, BillId)
            && (UniqueKeys(bills, BillId) ==> UniqueKeys(r, BillId))
            && (forall y :: y in r && y.id != id ==> y in bills)
            && ApplyEdit(r, id, form, parseFloat, parseInt) == r
  {
    var f := b => Edited(b, form, parseFloat, parseInt);
    ReplaceWhereKeepsIds(bills, BillId, id, f);
    if UniqueKeys(bills, BillId) {
      ReplaceWhereKeepsUnique(bills, BillId, id, f);
    }
  }

  /** The list after a create: the new bill, with the next id, in front. */
  function AddBill(bills: seq<Bill>, form: BillForm, parseFloat: string -> Num,
                   parseInt: string -> Num): (r: seq<Bill>)
    ensures |r| == |bills| + 1 && r[1..] == bills
  {
    [NewBill(NextId(Keys(bills, BillId)), form, parseFloat, parseInt)] + bills
  }

  /** Every earlier bill is kept, the new one is "Unpaid" with an id no other
      bill carries, and on a non-empty list that id is what
      `Math.max(...ids) + 1` computes. */
  lemma AddBillSpec(bills: seq<Bill>, form: BillForm, parseFloat: string -> Num, parseInt: string -> Num)
    requires UniqueKeys(bills, BillId)
    ensures var r := AddBill(bills, form, parseFloat, parseInt);
            r[0].status == "Unpaid"
            && (forall b :: b in bills ==> b.id != r[0].id)
            && UniqueKeys(r, BillId)
            && (bills != [] ==>
                  var ids := Keys(bills, BillId);
                  NextIdAsWritten(seq(|ids|, i requires 0 <= i < |ids| => Finite(ids[i] as real)))
                  == Finite(r[0].id as real))
  {
    var r := AddBill(bills, form, parseFloat, parseInt);
    PrependNextIdKeepsUnique(bills, BillId, r[0]);
    if bills != [] {
      NextIdAsWrittenAgrees(Keys(bills, BillId));
    }
  }

  datatype ReminderKind = Overdue | DueIn

  /** The reminder next to a bill: how many days it is overdue or due in,
      and whether it is urgent. */
  datatype Reminder = Reminder(kind: ReminderKind, days: nat, urgent: bool)

  /** `getReminderStatus`, with the days until the due date as input: none
      for a paid bill; overdue (and urgent) once the due date has passed;
      due within the bill's reminder window, urgent from one day before;
      none before the window opens. */
  function ReminderStatus(status: string, daysUntilDue: int, reminderDays: Num): (r: Option<Reminder>)
    ensures r.Some? <==> status != "Paid" && (daysUntilDue < 0 || reminderDays.AtLeast(daysUntilDue as real))
    ensures r.Some? ==> (r.value.urgent <==> daysUntilDue <= 1)
    ensures r.Some? ==> (r.value.kind == Overdue <==> daysUntilDue < 0)
    ensures r.Some? && daysUntilDue < 0 ==> r.value.days == -daysUntilDue
    ensures r.Some? && daysUntilDue >= 0 ==> r.value.days == daysUntilDue
  {
    if status == "Paid" then None
    else if daysUntilDue < 0 then Some(Reminder(Overdue, -daysUntilDue, true))
    else if reminderDays.AtLeast(daysUntilDue as real) then Some(Reminder(DueIn, daysUntilDue, daysUntilDue <= 1))
    else None
  }

  /** A bill whose reminder window is NaN (an unparsable form entry) is only
      ever flagged once it is overdue. */
  lemma NaNWindowOnlyOverdue(status: string, daysUntilDue: int)
    ensures ReminderStatus(status, daysUntilDue, NaN).Some? ==> daysUntilDue < 0
  {
  }

  class BillsPage {
    const lower: string -> string
    const parseFloat: string -> Num
    const parseInt: string -> Num
    const show: Num -> string

    var bills: seq<Bill>
    var searchQuery: string
    var selectedCategory: string
    var selectedStatus: string
    var currentPage: int
    var isModalOpen: bool
    var editingBill: Option<Bill>
    var form: BillForm
    var deleteDialogOpen: bool
    var billToDelete: Option<Bill>

    /** The page number never drops below 1 and no two bills share an id. */
    predicate Valid()
      reads this
    {
      currentPage >= 1 && UniqueKeys(bills, BillId)
    }

    /** The page as first shown, on the sample bills. */
    constructor (initial: seq<Bill>, lower: string -> string, parseFloat: string -> Num,
                 parseInt: string -> Num, show: Num -> string)
      requires UniqueKeys(initial, BillId)
      ensures bills == initial && searchQuery == "" && selectedCategory == "All Categories"
      ensures selectedStatus == "All Status" && currentPage == 1
      ensures !isModalOpen && editingBill.None? && form == EmptyForm
      ensures !deleteDialogOpen && billToDelete.None?
      ensures this.lower == lower && this.parseFloat == parseFloat
      ensures this.parseInt == parseInt && this.show == show
      ensures Valid()
    {
      this.lower := lower;
      this.parseFloat := parseFloat;
      this.parseInt := parseInt;
      this.show := show;
      bills := initial;
      searchQuery := "";
      selectedCategory := "All Categories";
      selectedStatus := "All Status";
      currentPage := 1;
      isModalOpen := false;
      editingBill := None;
      form := EmptyForm;
      deleteDialogOpen := false;
      billToDelete := None;
    }

    function FilteredBills(): seq<Bill>
      reads this
    {
      Filtered(bills, lower, searchQuery, selectedCategory, selectedStatus)
    }

    /** `Math.ceil(filteredBills.length / 5)` */
    function TotalPages(): nat
      reads this
    {
      PageCount(|FilteredBills()|)
    }

    /** The bills on the current page. */
    function PaginatedBills(): seq<Bill>
      reads this
    {
      PageOf(FilteredBills(), currentPage)
    }

    /** Typing in the search box goes back to page 1. */
    method SetSearchQuery(q: string)
      requires Valid()
      modifies this`searchQuery, this`currentPage
      ensures searchQuery == q && currentPage == 1
      ensures Valid()
    {
      searchQuery := q;
      currentPage := 1;
    }

    /** Choosing a category goes back to page 1. */
    method SetCategory(c: string)
      requires Valid()
      modifies this`selectedCategory, this`currentPage
      ensures selectedCategory == c && currentPage == 1
      ensures Valid()
    {
      selectedCategory := c;
      currentPage := 1;
    }

    /** Choosing a status goes back to page 1. */
    method SetStatus(s: string)
      requires Valid()
      modifies this`selectedStatus, this`currentPage
      ensures selectedStatus == s && currentPage == 1
      ensures Valid()
    {
      selectedStatus := s;
      currentPage := 1;
    }

    /** `handleOpenModal`: on a bill, its fields fill the form; otherwise the
        form is empty. */
    method OpenModal(bill: Option<Bill>)
      modifies this`editingBill, this`form, this`isModalOpen
      ensures editingBill == bill && isModalOpen
      ensures bill.Some? ==> form == FormOf(bill.value, show)
      ensures bill.None? ==> form == EmptyForm
    {
      editingBill := bill;
      if bill.Some? {
        form := FormOf(bill.value, show);
      } else {
        form := EmptyForm;
      }
      isModalOpen := true;
    }

    /** `handleCloseModal` */
    method CloseModal()
      modifies this`isModalOpen, this`editingBill, this`form
      ensures !isModalOpen && editingBill.None? && form == EmptyForm
    {
      isModalOpen := false;
      editingBill := None;
      form := EmptyForm;
    }

    /** `handleSubmit`: edits the bill being edited or adds a new one, then
        closes the form. */
    method Submit()
      requires Valid()
      modifies this`bills, this`isModalOpen, this`editingBill, this`form
      ensures old(editingBill).Some? ==>
                bills == ApplyEdit(old(bills), old(editingBill).value.id, old(form), parseFloat, parseInt)
      ensures old(editingBill).None? ==> bills == AddBill(old(bills), old(form), parseFloat, parseInt)
      ensures !isModalOpen && editingBill.None? && form == EmptyForm
      ensures Valid()
    {
      if editingBill.Some? {
        ApplyEditSpec(bills, editingBill.value.id, form, parseFloat, parseInt);
        bills := ApplyEdit(bills, editingBill.value.id, form, parseFloat, parseInt);
      } else {
        AddBillSpec(bills, form, parseFloat, parseInt);
        bills := AddBill(bills, form, parseFloat, parseInt);
      }
      CloseModal();
    }

    /** `handleDeleteClick` */
    method DeleteClick(b: Bill)
      modifies this`billToDelete, this`deleteDialogOpen
      ensures billToDelete == Some(b) && deleteDialogOpen
    {
      billToDelete := Some(b);
      deleteDialogOpen := true;
    }

    /** `handleConfirmDelete`: every bill with the chosen bill's id goes. */
    method ConfirmDelete()
      requires Valid()
      modifies this`bills, this`deleteDialogOpen, this`billToDelete
      ensures old(billToDelete).Some? ==> bills == RemoveById(old(bills), BillId, old(billToDelete).value.id)
      ensures old(billToDelete).None? ==> bills == old(bills)
      ensures !deleteDialogOpen && billToDelete.None?
      ensures Valid()
    {
      if billToDelete.Some? {
        RemoveByIdKeepsUnique(bills, BillId, billToDelete.value.id);
        bills := RemoveById(bills, BillId, billToDelete.value.id);
      }
      deleteDialogOpen := false;
      billToDelete := None;
    }

    /** `handleCancelDelete` */
    method CancelDelete()
      modifies this`deleteDialogOpen, this`billToDelete
      ensures !deleteDialogOpen && billToDelete.None?
    {
      deleteDialogOpen := false;
      billToDelete := None;
    }

    /** The Previous button, disabled on page 1. */
    method PreviousClick()
      requires Valid()
      modifies this`currentPage
      ensures old(currentPage) > 1 ==> currentPage == old(currentPage) - 1
      ensures old(currentPage) == 1 ==> currentPage == 1
      ensures Valid()
    {
      if currentPage != 1 {
        currentPage := PreviousPage(currentPage);
      }
    }

    /** The Next button, disabled when the page number equals the page count.
        It runs the clamped `NextPage`, which differs from the page's own
        `Math.min(totalPages, page + 1)` only when nothing passes the filters
        (then it stays on page 1 instead of moving to page 0). */
    method NextClick()
      requires Valid()
      modifies this`currentPage
      ensures currentPage == if NextEnabled(old(currentPage), TotalPages())
                             then NextPage(old(currentPage), TotalPages()) else old(currentPage)
      ensures TotalPages() >= 1 ==>
                currentPage == if NextEnabled(old(currentPage), TotalPages())
                               then NextPageAsWritten(old(currentPage), TotalPages()) else old(currentPage)
      ensures old(currentPage) < TotalPages() ==> currentPage == old(currentPage) + 1
      ensures currentPage <= Max(old(currentPage), Max(1, TotalPages()))
      ensures Valid()
    {
      if NextEnabled(currentPage, TotalPages()) {
        currentPage := NextPage(currentPage, TotalPages());
      }
    }

    /** A numbered page button. */
    method GoToPage(p: int)
      requires Valid()
      requires 1 <= p <= TotalPages()
      modifies this`currentPage
      ensures currentPage == p && Valid()
      ensures PaginatedBills() != []
    {
      currentPage := p;
      PageOfSpec(FilteredBills(), p);
    }
  }
}
