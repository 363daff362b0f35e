/** The expense store: the list of expenses, the request flags, the selected
    record, the last error and the server's pagination counters, changed in
    place by one method per action. */
module ExpenseSlice {
  import opened Common
  import opened ExpenseThunks

  /** The pagination counters the server reports. */
  datatype PageInfo = PageInfo(count: int, page: int, limit: int, total: int, totalPages: int)

  const InitialPageInfo := PageInfo(0, 1, 10, 0, 1)

  /** The error a rejected action stores: its message, or a generic one when
      it carries none. */
  function RejectionMessage(payload: Option<string>): (r: string)
    ensures r != ""
    ensures payload.Some? && payload.value != "" ==> r == payload.value
    ensures payload.None? || payload.value == "" ==> r == "Something went wrong"
  {
    OrElse(payload, "Something went wrong")
  }

  /** `expenses.map(e => e._id === updated._id ? updated : e)` */
  function Replaced(xs: seq<Expense>, updated: Expense): (r: seq<Expense>)
    ensures |r| == |xs|
    ensures forall i :: 0 <= i < |xs| ==>
              r[i] == (if xs[i].id == updated.id then updated else xs[i])
  {
    seq(|xs|, i requires 0 <= i < |xs| => if xs[i].id == updated.id then updated else xs[i])
  }

  /** `expenses.filter(e => e._id !== id)` */
  function WithoutId(xs: seq<Expense>, id: string): seq<Expense> {
    if xs == [] then []
    else (if xs[0].id == Some(id) then [] else [xs[0]]) + WithoutId(xs[1..], id)
  }

  /** Removal keeps exactly the records with another id, in their order: the
      result is the list with the matching records cut out. */
  lemma {:induction false} WithoutIdSpec(xs: seq<Expense>, id: string)
    ensures forall e :: e in WithoutId(xs, id) <==> e in xs && e.id != Some(id)
    ensures |WithoutId(xs, id)| <= |xs|
    ensures (forall e :: e in xs ==> e.id != Some(id)) ==> WithoutId(xs, id) == xs
  {
    if xs != [] {
      WithoutIdSpec(xs[1..], id);
      assert xs == [xs[0]] + xs[1..];
    }
  }

  /** Removal distributes over concatenation, so the records left keep their
      relative order. */
  lemma {:induction false} WithoutIdAppend(xs: seq<Expense>, ys: seq<Expense>, id: string)
    ensures WithoutId(xs + ys, id) == WithoutId(xs, id) + WithoutId(ys, id)
  {
    if xs == [] {
      assert xs + ys == ys;
    } else {
      assert (xs + ys)[0] == xs[0] && (xs + ys)[1..] == xs[1..] + ys;
      WithoutIdAppend(xs[1..], ys, id);
    }
  }

  /** Updating with a record replaces exactly the records sharing its id, and
      updating twice with the same record is updating once. */
  lemma ReplacedSpec(xs: seq<Expense>, updated: Expense)
    ensures forall e :: e in Replaced(xs, updated) && e != updated ==> e in xs && e.id != updated.id
    ensures Replaced(Replaced(xs, updated), updated) == Replaced(xs, updated)
    ensures (forall e :: e in xs ==> e.id != updated.id) ==> Replaced(xs, updated) == xs
  {
    var once := Replaced(xs, updated);
    forall e | e in once && e != updated ensures e in xs && e.id != updated.id {
      var i :| 0 <= i < |once| && once[i] == e;
    }
  }

  /** Deleting a freshly created record by its id restores the list it was
      prepended to. */
  lemma DeleteUndoesCreate(xs: seq<Expense>, created: Expense, id: string)
    requires created.id == Some(id)
    requires forall e :: e in xs ==> e.id != Some(id)
    ensures WithoutId([created] + xs, id) == xs
  {
    WithoutIdAppend([created], xs, id);
    WithoutIdSpec(xs, id);
  }

  class ExpenseStore {
    var expenses: seq<Expense>
    var loading: bool
    var submitting: bool
    var selectedExpenseLoading: bool
    var selectedExpense: Option<Expense>
    var error: Option<string>
    var pagination: PageInfo

    /** `initialState` */
    constructor ()
      ensures expenses == [] && !loading && !submitting && !selectedExpenseLoading
      ensures selectedExpense.None? && error.None?
      ensures pagination == PageInfo(0, 1, 10, 0, 1)
    {
      expenses := [];
      loading := false;
      submitting := false;
      selectedExpenseLoading := false;
      selectedExpense := None;
      error := None;
      pagination := InitialPageInfo;
    }

    /** `clearExpenseError` */
    method ClearExpenseError()
      modifies this`error
      ensures error.None?
    {
      error := None;
    }

    /** `clearSelectedExpense` */
    method ClearSelectedExpense()
      modifies this`selectedExpense
      ensures selectedExpense.None?
    {
      selectedExpense := None;
    }

    /** `createExpense.pending` */
    method CreatePending()
      modifies this`submitting, this`error
      ensures submitting && error.None?
    {
      submitting := true;
      error := None;
    }

    /** `createExpense.fulfilled`: the new record goes first, the total grows
      by one and the count follows the list. */
    method CreateFulfilled(created: Expense)
      modifies this`submitting, this`expenses, this`pagination
      ensures !submitting
      ensures expenses == [created] + old(expenses)
      ensures pagination == old(pagination).(total := old(pagination.total) + 1, count := |expenses|)
    {
      submitting := false;
      expenses := [created] + expenses;
      pagination := pagination.(total := pagination.total + 1);
      pagination := pagination.(count := |expenses|);
    }

    /** `createExpense.rejected` */
    method CreateRejected(payload: Option<string>)
      modifies this`submitting, this`error
      ensures !submitting && error == Some(RejectionMessage(payload))
    {
      submitting := false;
      error := Some(RejectionMessage(payload));
    }

    /** `fetchExpenses.pending` */
    method FetchPending()
      modifies this`loading, this`error
      ensures loading && error.None?
    {
      loading := true;
      error := None;
    }

    /** `fetchExpenses.fulfilled`: the list and all five counters come from
      the response. */
    method FetchFulfilled(response: ListResponse)
      modifies this`loading, this`expenses, this`pagination
      ensures !loading && expenses == response.expenses
      ensures pagination == PageInfo(response.count, response.page, response.limit,
                                     response.total, response.totalPages)
    {
      loading := false;
      expenses := response.expenses;
      pagination := PageInfo(response.count, response.page, response.limit,
                             response.total, response.totalPages);
    }

    /** `fetchExpenses.rejected` */
    method FetchRejected(payload: Option<string>)
      modifies this`loading, this`error
      ensures !loading && error == Some(RejectionMessage(payload))
    {
      loading := false;
      error := Some(RejectionMessage(payload));
    }

    /** `fetchExpenseById.pending` */
    method FetchByIdPending()
      modifies this`selectedExpenseLoading, this`error
      ensures selectedExpenseLoading && error.None?
    {
      selectedExpenseLoading := true;
      error := None;
    }

    /** `fetchExpenseById.fulfilled` */
    method FetchByIdFulfilled(found: Expense)
      modifies this`selectedExpenseLoading, this`selectedExpense
      ensures !selectedExpenseLoading && selectedExpense == Some(found)
    {
      selectedExpenseLoading := false;
      selectedExpense := Some(found);
    }

    /** `fetchExpenseById.rejected` */
    method FetchByIdRejected(payload: Option<string>)
      modifies this`selectedExpenseLoading, this`error
      ensures !selectedExpenseLoading && error == Some(RejectionMessage(payload))
    {
      selectedExpenseLoading := false;
      error := Some(RejectionMessage(payload));
    }

    /** `updateExpense.pending` */
    method UpdatePending()
      modifies this`submitting, this`error
      ensures submitting && error.None?
    {
      submitting := true;
      error := None;
    }

    /** `updateExpense.fulfilled`: every record with the updated record's id
      becomes that record, and it becomes the selection. */
    method UpdateFulfilled(updated: Expense)
      modifies this`submitting, this`expenses, this`selectedExpense
      ensures !submitting && selectedExpense == Some(updated)
      ensures |expenses| == |old(expenses)|
      ensures forall i :: 0 <= i < |expenses| ==>
                expenses[i] == (if old(expenses)[i].id == updated.id then updated else old(expenses)[i])
    {
      submitting := false;
      expenses := Replaced(expenses, updated);
      selectedExpense := Some(updated);
    }

    /** `updateExpense.rejected` */
    method UpdateRejected(payload: Option<string>)
      modifies this`submitting, this`error
      ensures !submitting && error == Some(RejectionMessage(payload))
    {
      submitting := false;
      error := Some(RejectionMessage(payload));
    }

    /** `deleteExpense.pending` */
    method DeletePending()
      modifies this`submitting, this`error
      ensures submitting && error.None?
    {
      submitting := true;
      error := None;
    }

    /** `deleteExpense.fulfilled`: the records with that id leave the list,
      the total drops by one without going below zero, the count follows the
      list, and the selection is cleared when it is the deleted record. */
    method DeleteFulfilled(id: string)
      modifies this`submitting, this`expenses, this`pagination, this`selectedExpense
      ensures !submitting
      ensures expenses == WithoutId(old(expenses), id)
      ensures forall e :: e in expenses <==> e in old(expenses) && e.id != Some(id)
      ensures pagination == old(pagination).(total := Max(0, old(pagination.total) - 1),
                                            count := |expenses|)
      ensures pagination.total >= 0
      ensures old(selectedExpense).Some? && old(selectedExpense).value.id == Some(id)
              ==> selectedExpense.None?
      ensures !(old(selectedExpense).Some? && old(selectedExpense).value.id == Some(id))
              ==> selectedExpense == old(selectedExpense)
    {
      submitting := false;
      WithoutIdSpec(expenses, id);
      expenses := WithoutId(expenses, id);
      pagination := pagination.(total := Max(0, pagination.total - 1));
      pagination := pagination.(count := |expenses|);
      if selectedExpense.Some? && selectedExpense.value.id == Some(id) {
        selectedExpense := None;
      }
    }

    /** `deleteExpense.rejected` */
    method DeleteRejected(payload: Option<string>)
      modifies this`submitting, this`error
      ensures !submitting && error == Some(RejectionMessage(payload))
    {
      submitting := false;
      error := Some(RejectionMessage(payload));
    }
  }
}
