# Personal expense, budget and bill tracker — a Dafny model

This project models the client-side core of a personal-finance web app. The
app is written in React and Redux. The model covers:

- **Stores.** The expense store (`ExpenseSlice`) and the thunks that shape
  the server's requests and responses (`ExpenseThunks`). The two
  authentication stores: the token-based one (`AuthSlice`) and the cookie
  one (`CookieAuthSlice`). The dashboard store (`DashboardSlice`).
- **In-memory list pages.** The bills, expenses and incomes pages
  (`BillsPage`, `ExpensePage`, `IncomePage`) filter, page and edit a list
  held in component state. They share the list operations of `ListOps`.
- **The server-paged budgets page** (`BudgetPage`). Its page number lives in
  the address bar. It has a search box, a filter dialog, a create/edit form
  with ordered checks, and a delete that steps back a page.
- **The pagination bar** (`Pagination`) and **the add/edit expense dialog**
  (`AddExpenseModal`).

State that the source updates in place (a Redux slice, a component's
`useState` hooks) is a Dafny `class`. Its fields are the state variables and
each handler or reducer case is a method with a `modifies` frame. Pure
helpers (filters, payload builders, validators, page arithmetic) are
functions, and lemmas relate them.

JavaScript numbers are the `Common.Num` datatype: a finite real, the two
infinities or NaN. Comparisons follow JavaScript's rules, so every comparison
with NaN is false. `Number`, `parseFloat`, `parseInt`, `toString` and
`toLowerCase` are function parameters, stored as `const` fields of the
page classes.

Each server call is a `ServiceOutcome`: a response body, or a failure that
carries the server's `message` when there is one. The current date is a
parameter.

## Model

| member | source | states |
|---|---|---|
| Common.OrElse | src/pages/expense/AddExpenseModal.tsx:67-72 | JavaScript's logical or on a possibly missing string: a non-empty `a` wins, a missing or empty one gives `b` |
| Common.OrElseOpt | src/pages/bills/index.tsx:114 | logical or when both sides may be missing: the result is one of them, `a` when it is a non-empty string, `b` otherwise |
| Common.TrimStart | src/pages/budget/index.tsx:74 | the suffix left after the leading whitespace; everything dropped is whitespace and the rest does not start with it |
| Common.TrimEnd | src/pages/budget/index.tsx:74 | the prefix left before the trailing whitespace; everything dropped is whitespace and the rest does not end with it |
| Common.TrimSpec | src/pages/expense/AddExpenseModal.tsx:87 | `trim()` gives "" exactly when every character is whitespace; otherwise the infix after the leading whitespace, with a non-space at each end |
| Common.ContainsAt | src/pages/bills/index.tsx:70-71 | `includes` holds exactly when some position of the text starts a copy of the searched text |
| Common.ContainsEmpty | src/pages/bills/index.tsx:70-71 | every text includes the empty search, so an empty query matches everything |
| Common.LexLessIrreflexive | src/pages/expense/AddExpenseModal.tsx:98 | the string `<` order used for dates is irreflexive: today's date is never after today |
| ExpenseThunks.Normalize | src/store/Thunks/expenseThunks.ts:55-59 | a missing amount becomes 0; an empty or missing title falls back to the description, then to ""; every other field is copied |
| ExpenseThunks.NormalizeIdempotent | src/store/Thunks/expenseThunks.ts:55-59 | normalizing an already normalized expense gives it back unchanged |
| ExpenseThunks.RequestPayload | src/store/Thunks/expenseThunks.ts:104-107 | each of the nine fields the caller supplies wins; each missing one takes its default (page 1, limit 10, "" for the texts, null bounds, newest first) |
| ExpenseThunks.RequestPayloadDefaults | src/store/Thunks/expenseThunks.ts:29-39 | no fields give exactly the default payload, and a fully supplied payload comes back unchanged |
| ExpenseThunks.FailureMessage | src/store/Thunks/expenseThunks.ts:85-87 | the server's message when it is non-empty; the fallback when it is absent or empty |
| ExpenseThunks.ListResponseOf | src/store/Thunks/expenseThunks.ts:110-122 | a missing list is []; missing counts default to the list's length or to the request's page and limit; the page count defaults to 1; every expense is normalized |
| ExpenseThunks.MissingListIsEmpty | src/store/Thunks/expenseThunks.ts:110-120 | a response with no list, count or total gives an empty list with count 0 and total 0 |
| ExpenseThunks.FetchExpenses | src/store/Thunks/expenseThunks.ts:96-129 | a response is fulfilled with the list built from it for the defaulted request; a failure is rejected with the server's non-empty message, else "Failed to fetch expenses" |
| ExpenseThunks.BodyOf | src/store/Thunks/expenseThunks.ts:72-78 | the body sent carries the form's title as the description and the parsed amount; category, date and note are copied |
| ExpenseThunks.CreateExpense | src/store/Thunks/expenseThunks.ts:64-90 | sends BodyOf(form); the created expense is the nested `data.expense`, then the top-level `expense`, then the whole body, normalized; a failure is rejected with the server's non-empty message, else "Failed to create expense" |
| ExpenseThunks.UpdateExpense | src/store/Thunks/expenseThunks.ts:150-175 | sends the id and BodyOf(form); the result is taken from the four places in order, normalized; a failure is rejected with the server's non-empty message, else "Failed to update expense" |
| ExpenseThunks.CreateAndUpdateSendSameBody | src/store/Thunks/expenseThunks.ts:72-78 | create and update send the same body for the same form |
| ExpenseThunks.FetchExpenseById | src/store/Thunks/expenseThunks.ts:131-148 | a response holding no expense is rejected with "Expense not found"; otherwise the expense is normalized, nested copy first; a failure is rejected with the server's non-empty message, else "Failed to fetch expense" |
| ExpenseThunks.DeleteExpense | src/store/Thunks/expenseThunks.ts:177-190 | fulfilled with the id exactly when the server responds; a failure is rejected with the server's non-empty message, else "Failed to delete expense" |
| ExpenseSlice.RejectionMessage | src/store/Slice/ExpenseSlice.ts:72-75 | the rejection payload when it is non-empty, "Something went wrong" otherwise |
| ExpenseSlice.Replaced | src/store/Slice/ExpenseSlice.ts:119-121 | same length; each expense with the updated id becomes the update and every other one is kept |
| ExpenseSlice.WithoutIdSpec | src/store/Slice/ExpenseSlice.ts:136-138 | an expense survives the delete exactly when it was there and has a different id; the list never grows; deleting an absent id changes nothing |
| ExpenseSlice.WithoutIdAppend | src/store/Slice/ExpenseSlice.ts:136-138 | the delete filter distributes over concatenation |
| ExpenseSlice.ReplacedSpec | src/store/Slice/ExpenseSlice.ts:119-121 | every expense other than the update came from the list and has a different id; applying the update twice is applying it once; an absent id changes nothing |
| ExpenseSlice.DeleteUndoesCreate | src/store/Slice/ExpenseSlice.ts:66-71 | deleting the id of an expense just put in front (whose id was new) gives the earlier list back |
| ExpenseSlice.ExpenseStore.constructor | src/store/Slice/ExpenseSlice.ts:31-45 | the initial state: no expenses, no flags, no selection, no error, page 1 of 1 with limit 10 |
| ExpenseSlice.ExpenseStore.ClearExpenseError | src/store/Slice/ExpenseSlice.ts:51-53 | the error is cleared |
| ExpenseSlice.ExpenseStore.ClearSelectedExpense | src/store/Slice/ExpenseSlice.ts:54-56 | the selection is cleared |
| ExpenseSlice.ExpenseStore.CreatePending | src/store/Slice/ExpenseSlice.ts:62-65 | submitting, error cleared |
| ExpenseSlice.ExpenseStore.CreateFulfilled | src/store/Slice/ExpenseSlice.ts:66-71 | the created expense goes in front; the total grows by one and the count is the list's length |
| ExpenseSlice.ExpenseStore.CreateRejected | src/store/Slice/ExpenseSlice.ts:72-75 | submitting ends and the error is the rejection message |
| ExpenseSlice.ExpenseStore.FetchPending | src/store/Slice/ExpenseSlice.ts:78-81 | loading, error cleared |
| ExpenseSlice.ExpenseStore.FetchFulfilled | src/store/Slice/ExpenseSlice.ts:82-92 | the list and all five counters come from the response |
| ExpenseSlice.ExpenseStore.FetchRejected | src/store/Slice/ExpenseSlice.ts:93-96 | loading ends and the error is the rejection message; the list is kept |
| ExpenseSlice.ExpenseStore.FetchByIdPending | src/store/Slice/ExpenseSlice.ts:99-102 | the selection is loading, error cleared |
| ExpenseSlice.ExpenseStore.FetchByIdFulfilled | src/store/Slice/ExpenseSlice.ts:103-106 | the fetched expense is selected |
| ExpenseSlice.ExpenseStore.FetchByIdRejected | src/store/Slice/ExpenseSlice.ts:107-110 | loading ends and the error is the rejection message |
| ExpenseSlice.ExpenseStore.UpdatePending | src/store/Slice/ExpenseSlice.ts:113-116 | submitting, error cleared |
| ExpenseSlice.ExpenseStore.UpdateFulfilled | src/store/Slice/ExpenseSlice.ts:117-123 | every expense with the updated id is replaced, the rest kept in place, and the update is selected |
| ExpenseSlice.ExpenseStore.UpdateRejected | src/store/Slice/ExpenseSlice.ts:124-127 | submitting ends and the error is the rejection message |
| ExpenseSlice.ExpenseStore.DeletePending | src/store/Slice/ExpenseSlice.ts:130-133 | submitting, error cleared |
| ExpenseSlice.ExpenseStore.DeleteFulfilled | src/store/Slice/ExpenseSlice.ts:134-144 | exactly the expenses with that id are gone; the total drops by one but never below 0; the count is the new length; the selection is cleared only when it has that id |
| ExpenseSlice.ExpenseStore.DeleteRejected | src/store/Slice/ExpenseSlice.ts:145-148 | submitting ends and the error is the rejection message |
| AuthSlice.AuthStore.constructor | src/store/Slice/authSlice.ts:12-17 | no user, not authenticated, loading until the first check, no error |
| AuthSlice.AuthStore.LoginPending | src/store/Slice/authSlice.ts:26-28 | loading; user and authentication unchanged |
| AuthSlice.AuthStore.LoginFulfilled | src/store/Slice/authSlice.ts:29-33 | the payload (`res.data.user`, possibly absent) is stored and the store is authenticated; loading ends; "authenticated implies a user" holds afterwards exactly when a user came back |
| AuthSlice.AuthStore.LoginRejected | src/store/Slice/authSlice.ts:34-38 | not authenticated, the error is the payload, and the previous user stays |
| AuthSlice.AuthStore.CheckAuthPending | src/store/Slice/authSlice.ts:41-43 | loading |
| AuthSlice.AuthStore.CheckAuthFulfilled | src/store/Slice/authSlice.ts:44-48 | the payload (`res.data.user`, possibly absent) is stored and the store is authenticated; loading ends; "authenticated implies a user" holds afterwards exactly when a user came back |
| AuthSlice.AuthStore.CheckAuthRejected | src/store/Slice/authSlice.ts:49-53 | no user, not authenticated, loading ends |
| AuthSlice.AuthStore.LogoutFulfilled | src/store/Slice/authSlice.ts:56-60 | no user, not authenticated, loading ends; "authenticated implies a user" holds again |
| CookieAuthSlice.TokenFor | src/store/authSlice.ts:33 | the cookie value is "user-token-" followed by the user's id, and only that |
| CookieAuthSlice.CookieAuthStore.constructor | src/store/authSlice.ts:16-20 | not authenticated, no user, not loading, with the browser's cookie as it is |
| CookieAuthSlice.CookieAuthStore.LoginStart | src/store/authSlice.ts:26-28 | loading |
| CookieAuthSlice.CookieAuthStore.LoginSuccess | src/store/authSlice.ts:29-34 | the user is stored and authenticated, and the cookie holds that user's token |
| CookieAuthSlice.CookieAuthStore.LoginFailure | src/store/authSlice.ts:35-39 | no user, not authenticated, loading ends; the cookie is untouched |
| CookieAuthSlice.CookieAuthStore.Logout | src/store/authSlice.ts:40-45 | no user, not authenticated, and the cookie is removed |
| CookieAuthSlice.CookieAuthStore.CheckAuth | src/store/authSlice.ts:46-54 | authenticated exactly when a non-empty cookie is present; without one the user is cleared; every handler keeps "authenticated implies a token" |
| DashboardSlice.DashboardStore.constructor | src/store/dashBoardSlice.ts:4-8 | no overview, not loading, no error |
| DashboardSlice.DashboardStore.FetchPending | src/store/dashBoardSlice.ts:16-19 | loading, error cleared, the stale overview kept |
| DashboardSlice.DashboardStore.FetchFulfilled | src/store/dashBoardSlice.ts:20-23 | the overview is stored and loading ends; an earlier error stays |
| DashboardSlice.DashboardStore.FetchRejected | src/store/dashBoardSlice.ts:24-27 | the error is the payload and loading ends; the overview is kept |
| Pagination.Run | src/components/Pagination.tsx:23-25 | the buttons for pages lo..hi, one per page, in order |
| Pagination.BuildPageItems | src/components/Pagination.tsx:10-33 | the loop that pushes buttons builds exactly PageItems(current, totalPages) |
| Pagination.FewPagesAllShown | src/components/Pagination.tsx:11-13 | with at most seven pages the bar is pages 1..totalPages in order, with no ellipsis |
| Pagination.ManyPagesShape | src/components/Pagination.tsx:15-32 | with more than seven pages the bar starts at page 1, ends at the last page and holds the current page; an ellipsis follows page 1 exactly when the window starts after page 2, and precedes the last page exactly when the window ends before the second-to-last |
| Pagination.NumbersInRange | src/components/Pagination.tsx:10-33 | for a current page in range the numbers shown are strictly increasing, all within 1..totalPages, and include the current page |
| Pagination.NumbersOfManyPages | src/components/Pagination.tsx:15-32 | with more than seven pages the numbers are 1, the window around the current page, and the last page |
| Pagination.EllipsisMarksGap | src/components/Pagination.tsx:19-29 | neighbouring page buttons are consecutive pages, and each ellipsis stands between two pages that are not, so no page is skipped silently |
| Pagination.ItemAt | src/components/Pagination.tsx:15-32 | the button at each position of a bar with more than seven pages |
| Pagination.CeilDivBounds | src/components/Pagination.tsx:41 | `Math.ceil(total / limit)` is the least page count whose pages hold `total` rows |
| Pagination.TotalPages | src/components/Pagination.tsx:41 | at least one page; for a positive total exactly enough pages to hold it; for a total of 0 or less exactly one page |
| Pagination.SafePage | src/components/Pagination.tsx:42 | the requested page clamped into 1..totalPages; a page in range is kept |
| Pagination.ResultRangeWithin | src/components/Pagination.tsx:46-47 | for a page in range of a bar with more than one page, "Showing X to Y" is a non-empty range within 1..total |
| Pagination.Render | src/components/Pagination.tsx:35-119 | nothing when there is at most one page; otherwise the clamped page, the "showing a to b" range of that page and its buttons, with Previous disabled on the first page and Next on the last; Previous sends the page before, Next the page after, and every numbered button a page in 1..totalPages, the current one among them |
| ListOps.Filter | src/pages/bills/index.tsx:69-75 | the kept elements are exactly those of the list that pass, with no new ones and no extra copies |
| ListOps.FilterAppend | src/pages/bills/index.tsx:69-75 | filtering distributes over concatenation, so the kept elements stay in their order |
| ListOps.FilterKeepsAll | src/pages/income/Income.tsx:407 | a filter every element passes changes nothing |
| ListOps.RemoveById | src/pages/bills/index.tsx:159 | no survivor has the id, every element with another id survives, and the list never grows |
| ListOps.RemoveAbsentId | src/pages/bills/index.tsx:159 | removing an id nobody carries changes nothing |
| ListOps.ReplaceWhere | src/pages/bills/index.tsx:112-116 | same length; elements with the id are replaced by f of themselves, the rest are kept in place |
| ListOps.ReplaceWhereKeepsIds | src/pages/bills/index.tsx:112-116 | an edit that keeps ids keeps the list's ids position by position and introduces nothing but edited elements; with an idempotent edit, replacing twice is replacing once |
| ListOps.MaxId | src/pages/bills/index.tsx:119 | the largest id of a non-empty list, and one of its ids |
| ListOps.NextId | src/pages/bills/index.tsx:119 | larger than every id; one more than the largest id of a non-empty list; 1 for an empty one |
| ListOps.Keys | src/pages/bills/index.tsx:119 | the ids of the list, position by position |
| ListOps.PrependNextIdKeepsUnique | src/pages/bills/index.tsx:118-129 | a record given the next id and put in front keeps every id unique |
| ListOps.FilterKeepsUnique | src/pages/bills/index.tsx:69-75 | filtering never makes two records share an id |
| ListOps.RemoveByIdKeepsUnique | src/pages/bills/index.tsx:157-163 | deleting never makes two records share an id |
| ListOps.ReplaceWhereKeepsUnique | src/pages/bills/index.tsx:111-116 | editing in place never makes two records share an id |
| ListOps.NextIdAsWrittenAgrees | src/pages/bills/index.tsx:119 | on a non-empty list of integer ids, `Math.max(...ids) + 1` equals NextId |
| ListOps.NextIdAsWrittenDuplicates | src/pages/bills/index.tsx:119 | on an empty list the expression gives -Infinity, and again on a list holding only that record |
| ListOps.PageOfSpec | src/pages/bills/index.tsx:78-81 | for a page from 1 the slice is the run of at most five rows starting at (page - 1) * 5; pages 1 to the page count hold rows and later pages none |
| ListOps.JsSlice | src/pages/bills/index.tsx:78-81 | `slice` never returns more than the list holds |
| ListOps.PageCount | src/pages/bills/index.tsx:77 | the least number of five-row pages that hold n rows; 0 for none |
| ListOps.ShownRange | src/pages/bills/index.tsx:356-358 | the "Showing a to b" pair of a page from 1 starts at 1 or more and ends within the list |
| ListOps.RangeMatchesPage | src/pages/bills/index.tsx:77-81 | on a page that holds rows, 1 <= a <= b <= n and a..b are exactly the positions of the rows shown, counted from 1 |
| ListOps.AllPagesCoverList | src/pages/bills/index.tsx:77-81 | reading pages 1 to totalPages in turn shows the whole filtered list, in order |
| ListOps.PagesPrefix | src/pages/bills/index.tsx:78-81 | the first k pages are the list's first 5k rows |
| ListOps.PreviousPage | src/pages/bills/index.tsx:341 | at least 1; one back from any later page |
| ListOps.NextPageAsWrittenLeavesRange | src/pages/bills/index.tsx:348-349 | with no rows Next is enabled on page 1 and moves to page 0 |
| ListOps.NextPage | src/pages/bills/index.tsx:348 | always within 1..max(1, totalPages); one page on when there is a later page; equal to the code's move whenever there is a page |
| BillsPage.FilteredSpec | src/pages/bills/index.tsx:69-75 | a bill is shown exactly when its name or category contains the query and its category and status match the selection or "All"; the filter splits over concatenation; with the "All" entries and no query every bill shows |
| BillsPage.FormOf | src/pages/bills/index.tsx:84-94 | the edit form holds the bill's fields, its numbers as text, and no file |
| BillsPage.Edited | src/pages/bills/index.tsx:114 | an edit keeps the id and status, takes the form's fields with the numbers parsed, and keeps the old attachment unless a file was chosen |
| BillsPage.NewBill | src/pages/bills/index.tsx:118-128 | a new bill is "Unpaid" with the given id and the form's fields |
| BillsPage.ApplyEditSpec | src/pages/bills/index.tsx:111-116 | only the bill being edited changes; the ids, and so their uniqueness, are unchanged; every record with another id was already there; submitting the same edit again changes nothing |
| BillsPage.AddBill | src/pages/bills/index.tsx:129 | the new bill goes in front of the unchanged list |
| BillsPage.AddBillSpec | src/pages/bills/index.tsx:117-130 | the new bill is "Unpaid", with an id no other bill has; ids stay unique; on a non-empty list the id is what the code computes |
| BillsPage.ReminderStatus | src/pages/bills/index.tsx:144-150 | no reminder for a paid bill or one due beyond its window; overdue bills are always urgent; a bill due within its window is urgent from one day before |
| BillsPage.NaNWindowOnlyOverdue | src/pages/bills/index.tsx:148 | a reminder window that parsed to NaN only ever reports overdue bills |
| BillsPage.BillsPage.constructor | src/pages/bills/index.tsx:47-65 | the sample bills, no query, the "All" selections, page 1, the empty form, no dialogs |
| BillsPage.BillsPage.SetSearchQuery | src/pages/bills/index.tsx:219-222 | the query is set and the page goes back to 1 |
| BillsPage.BillsPage.SetCategory | src/pages/bills/index.tsx:229-232 | the category is set and the page goes back to 1 |
| BillsPage.BillsPage.SetStatus | src/pages/bills/index.tsx:244-247 | the status is set and the page goes back to 1 |
| BillsPage.BillsPage.OpenModal | src/pages/bills/index.tsx:83-100 | the form is the bill's own or the empty one, and the dialog opens |
| BillsPage.BillsPage.CloseModal | src/pages/bills/index.tsx:102-106 | the dialog closes with nothing edited and the empty form |
| BillsPage.BillsPage.Submit | src/pages/bills/index.tsx:108-132 | an edit applies to the bill's id and a create adds the new bill in front; the dialog closes; ids stay unique |
| BillsPage.BillsPage.DeleteClick | src/pages/bills/index.tsx:152-155 | the bill is marked for deletion and the dialog opens |
| BillsPage.BillsPage.ConfirmDelete | src/pages/bills/index.tsx:157-163 | the marked bill's id is removed; the dialog closes; ids stay unique |
| BillsPage.BillsPage.CancelDelete | src/pages/bills/index.tsx:165-168 | the dialog closes and nothing is removed |
| BillsPage.BillsPage.PreviousClick | src/pages/bills/index.tsx:341-342 | one page back; disabled on page 1 |
| BillsPage.BillsPage.NextClick | src/pages/bills/index.tsx:348-349 | the new page is NextPage when Next is enabled, else unchanged; whenever there is a page it is exactly the code's `Math.min(totalPages, currentPage + 1)`; one page on while there is a later page; never below 1 |
| BillsPage.BillsPage.GoToPage | src/pages/bills/index.tsx:372-375 | a numbered button selects its page, which holds at least one bill |
| ExpensePage.FilteredSpec | src/pages/expense/index.tsx:66-71 | an expense is shown exactly when its description contains the query and its category and status match; the filter splits over concatenation; the defaults show everything |
| ExpensePage.FormOf | src/pages/expense/index.tsx:81-89 | the edit form holds the expense's fields, the amount as text, and no file |
| ExpensePage.Edited | src/pages/expense/index.tsx:109 | an edit keeps the id and status, takes the form's fields, and keeps the old file unless one was chosen |
| ExpensePage.NewExpense | src/pages/expense/index.tsx:113-121 | a new expense is "Pending" with the given id and the form's fields |
| ExpensePage.ApplyEditSpec | src/pages/expense/index.tsx:106-111 | only the expense being edited changes; the ids, and so their uniqueness, are unchanged; every record with another id was already there; submitting the same edit again changes nothing |
| ExpensePage.AddExpense | src/pages/expense/index.tsx:122 | the new expense goes in front of the unchanged list |
| ExpensePage.AddExpenseSpec | src/pages/expense/index.tsx:112-123 | the new expense is "Pending" with a fresh id; ids stay unique; on a non-empty list the id is what the code computes |
| ExpensePage.ExpensePage.constructor | src/pages/expense/index.tsx:46-61 | the sample expenses, no query, "All" selections, page 1, empty form, no dialogs |
| ExpensePage.ExpensePage.PaginationBar | src/pages/expense/index.tsx:334-346 | the bar shows exactly when some expense passes the filters, with the filtered count and the pair ShownRange gives; on a page in range a..b lie within the list and the filtered rows a to b are the rows shown |
| ExpensePage.ExpensePage.SetSearchQuery | src/pages/expense/index.tsx:199-202 | the query is set and the page goes back to 1 |
| ExpensePage.ExpensePage.SetCategory | src/pages/expense/index.tsx:211-214 | the category is set and the page goes back to 1 |
| ExpensePage.ExpensePage.SetStatus | src/pages/expense/index.tsx:230-233 | the status is set and the page goes back to 1 |
| ExpensePage.ExpensePage.OpenModal | src/pages/expense/index.tsx:80-95 | the form is the expense's own or the empty one, and the dialog opens |
| ExpensePage.ExpensePage.CloseModal | src/pages/expense/index.tsx:97-101 | the dialog closes with the empty form |
| ExpensePage.ExpensePage.Submit | src/pages/expense/index.tsx:103-125 | an edit applies to the expense's id and a create adds in front; the dialog closes; ids stay unique |
| ExpensePage.ExpensePage.DeleteClick | src/pages/expense/index.tsx:127-130 | the expense is marked and the dialog opens |
| ExpensePage.ExpensePage.ConfirmDelete | src/pages/expense/index.tsx:132-138 | the marked expense's id is removed; the dialog closes; ids stay unique |
| ExpensePage.ExpensePage.Delete | src/pages/expense/index.tsx:145-147 | the expenses with the id are removed without a dialog; ids stay unique |
| ExpensePage.ExpensePage.CancelDelete | src/pages/expense/index.tsx:140-143 | the dialog closes and nothing is removed |
| ExpensePage.ExpensePage.PreviousClick | src/pages/expense/index.tsx:351-352 | one page back when the bar is shown; disabled on page 1 |
| ExpensePage.ExpensePage.NextClick | src/pages/expense/index.tsx:375-376 | the new page is `Math.min(currentPage + 1, totalPages)` when the bar shows and Next is enabled, else unchanged: one page on while there is a later page, and back to the last page from a page past it; never below 1 |
| ExpensePage.ExpensePage.GoToPage | src/pages/expense/index.tsx:359-363 | a numbered button selects its page, which holds at least one expense |
| IncomePage.SentinelOnlyFirst | src/pages/income/Income.tsx:32 | the source list starts with "All Sources" and has it nowhere else |
| IncomePage.FormSourcesAreTheRest | src/pages/income/Income.tsx:407 | for a list shaped like the source list, the form's sources are its entries after "All Sources", in order, without it |
| IncomePage.FilteredSpec | src/pages/income/Income.tsx:67-72 | an income is shown exactly when its description contains the query and its source and status match; the filter splits over concatenation; the defaults show everything |
| IncomePage.FormOf | src/pages/income/Income.tsx:81-90 | the edit form holds the income's fields, the amount as text, and no file |
| IncomePage.Edited | src/pages/income/Income.tsx:110 | an edit keeps the id and status, takes the form's fields including recurring, and keeps the old receipt unless one was chosen |
| IncomePage.NewIncome | src/pages/income/Income.tsx:114-123 | a new income is "Pending" with the given id and the form's fields |
| IncomePage.ApplyEditSpec | src/pages/income/Income.tsx:107-112 | only the income being edited changes; the ids, and so their uniqueness, are unchanged; every record with another id was already there; submitting the same edit again changes nothing |
| IncomePage.AddIncome | src/pages/income/Income.tsx:124 | the new income goes in front of the unchanged list |
| IncomePage.AddIncomeSpec | src/pages/income/Income.tsx:113-125 | the new income is "Pending", recurring as chosen, with a fresh id; ids stay unique; on a non-empty list the id is what the code computes |
| IncomePage.IncomePage.constructor | src/pages/income/Income.tsx:47-63 | the sample incomes, no query, "All" selections, page 1, empty form, no dialogs |
| IncomePage.IncomePage.SetSearchQuery | src/pages/income/Income.tsx:194-197 | the query is set and the page goes back to 1 |
| IncomePage.IncomePage.SetSource | src/pages/income/Income.tsx:204-207 | the source is set and the page goes back to 1 |
| IncomePage.IncomePage.SetStatus | src/pages/income/Income.tsx:219-222 | the status is set and the page goes back to 1 |
| IncomePage.IncomePage.OpenModal | src/pages/income/Income.tsx:80-96 | the form is the income's own or the empty one, and the dialog opens |
| IncomePage.IncomePage.CloseModal | src/pages/income/Income.tsx:98-102 | the dialog closes with the empty form |
| IncomePage.IncomePage.Submit | src/pages/income/Income.tsx:104-127 | an edit applies to the income's id and a create adds in front; the dialog closes; ids stay unique |
| IncomePage.IncomePage.DeleteClick | src/pages/income/Income.tsx:129-132 | the income is marked and the dialog opens |
| IncomePage.IncomePage.ConfirmDelete | src/pages/income/Income.tsx:134-140 | the marked income's id is removed; the dialog closes; ids stay unique |
| IncomePage.IncomePage.CancelDelete | src/pages/income/Income.tsx:142-145 | the dialog closes and nothing is removed |
| IncomePage.IncomePage.PreviousClick | src/pages/income/Income.tsx:305-306 | one page back; disabled on page 1 |
| IncomePage.IncomePage.NextClick | src/pages/income/Income.tsx:312-313 | the new page is NextPage when Next is enabled, else unchanged; whenever there is a page it is exactly the code's `Math.min(totalPages, currentPage + 1)`; one page on while there is a later page; never below 1 |
| IncomePage.IncomePage.GoToPage | src/pages/income/Income.tsx:336-339 | a numbered button selects its page, which holds at least one income |
| BudgetPage.ToNumberOrNull | src/pages/budget/index.tsx:73-78 | null exactly when the trimmed text is empty or does not parse to a finite number; otherwise its parsed value |
| BudgetPage.BlankIsNull | src/pages/budget/index.tsx:73-75 | whitespace alone never becomes an amount bound |
| BudgetPage.PageFromQueryAsWrittenGivesZero | src/pages/budget/index.tsx:104-105 | `?page=0.5` passes the guard and gives page 0 |
| BudgetPage.PageFromQuery | src/pages/budget/index.tsx:104-105 | always at least 1; agrees with the code except on fractions strictly between 0 and 1; reads back every whole page number |
| BudgetPage.RequestPayload | src/pages/budget/index.tsx:133-149 | the page, 10 rows, the trimmed search, "" for the "All" category and the lower-cased one otherwise, the parsed bounds, the dates, newest first |
| BudgetPage.ActiveFiltersSpec | src/pages/budget/index.tsx:198-203 | the filters are active exactly when they differ from the defaults; inactive filters add no category, bound or date to the request |
| BudgetPage.ClampPage | src/pages/budget/index.tsx:178-182 | a page past the last moves to exactly the last page (or to 1 when there are no pages); a page in range stays |
| BudgetPage.BoundedPage | src/pages/budget/index.tsx:188-191 | the requested page bounded into 1..max(1, totalPages); a page in range is kept |
| BudgetPage.PageAfterDelete | src/pages/budget/index.tsx:334 | one page back exactly when the only row of a later page was deleted; never below 1 |
| BudgetPage.ProgressColorOf | src/pages/budget/index.tsx:96-100 | red from 100 percent, amber from 80, emerald below (and for NaN) |
| BudgetPage.ProgressColorMonotone | src/pages/budget/index.tsx:96-100 | a larger percentage never gets a milder colour |
| BudgetPage.ValidateBudget | src/pages/budget/index.tsx:233-252 | the first failing check in order gives its message (month, year, total, category amount); accepted exactly when all pass, with the parsed values |
| BudgetPage.AcceptedBounds | src/pages/budget/index.tsx:237-252 | an accepted form has a year of at least 2000, a positive total, and a finite month in 1..12; a NaN month is let through |
| BudgetPage.ZeroBudgets | src/pages/budget/index.tsx:220-223 | every category, and only those, at 0 |
| BudgetPage.BuildCategoryBudgets | src/pages/budget/index.tsx:219-229 | the loop builds exactly CategoryBudgets: the sixteen categories at 0, with the chosen one set to a positive amount |
| BudgetPage.CategoryBudgetsWithinTotal | src/pages/budget/index.tsx:219-252 | of an accepted form every category budget sent is finite, between 0 and the total, and the chosen one holds the typed positive amount |
| BudgetPage.HighestIndex | src/pages/budget/index.tsx:302-304 | the first entry with the largest amount, as a stable descending sort puts first |
| BudgetPage.EditForm | src/pages/budget/index.tsx:302-314 | the edit form holds the budget's numbers as text and its largest category with its amount; "others" and "" when there is none, the name is empty or the amount is 0 |
| BudgetPage.OrNumber | src/pages/budget/index.tsx:159-162 | a missing or zero number field gives the default |
| BudgetPage.PaginationOf | src/pages/budget/index.tsx:156-163 | the page count is never 0; each counter is the response's field when present and non-zero, else its default (total 0, one page, the request's page and limit); a missing `data` gives all four defaults |
| BudgetPage.BudgetPage.constructor | src/pages/budget/index.tsx:103-131 | the page read from the address bar with PageFromQuery, equal to the code's reading except for a fraction in (0, 1); no rows, default filters, page 1 of 1 with limit 10, the default form, dialogs closed |
| BudgetPage.BudgetPage.ShownPage | src/pages/budget/index.tsx:536-537 | the page given to the bar lies in 1..max(1, totalPages), and is the page itself when in range |
| BudgetPage.BudgetPage.SetPageParam | src/pages/budget/index.tsx:180 | writing a whole page number to the address bar reads back that page |
| BudgetPage.BudgetPage.FetchBudgets | src/pages/budget/index.tsx:151-171 | a response sets the rows (or none) and the counters from it; a failure empties the rows, resets the counters to the request's page and sets the message; loading ends either way |
| BudgetPage.BudgetPage.ClampEffect | src/pages/budget/index.tsx:178-182 | a page past the last is sent back into range |
| BudgetPage.BudgetPage.OnPageChange | src/pages/budget/index.tsx:188-191 | the page becomes the bounded request |
| BudgetPage.BudgetPage.GoToFirstPage | src/pages/budget/index.tsx:184-186 | the page becomes 1 |
| BudgetPage.BudgetPage.HandleSearchChange | src/pages/budget/index.tsx:193-196 | the search is set, the page goes back to 1, and the next request carries the trimmed search |
| BudgetPage.BudgetPage.ApplyFilters | src/pages/budget/index.tsx:639-643 | the draft filters take effect, the dialog closes, page 1 |
| BudgetPage.BudgetPage.OpenFilterDialog | src/pages/budget/index.tsx:397 | the dialog opens |
| BudgetPage.BudgetPage.CancelFilterDialog | src/pages/budget/index.tsx:632 | the dialog closes and the applied filters stay |
| BudgetPage.BudgetPage.ResetFilters | src/pages/budget/index.tsx:620-625 | draft and applied filters return to the defaults (so none is active), page 1; the dialog's button also closes it (the header's at 411-415 does not) |
| BudgetPage.BudgetPage.OpenCreateModal | src/pages/budget/index.tsx:205-210 | create mode, nothing being edited, the default form, the dialog open |
| BudgetPage.BudgetPage.CloseBudgetModal | src/pages/budget/index.tsx:212-217 | ignored while saving; otherwise closes, forgets the edited id and resets the form |
| BudgetPage.BudgetPage.HandleSubmit | src/pages/budget/index.tsx:231-275 | a failed check sets its message and sends nothing; otherwise an update for the edited id in edit mode or a create, with the category split; success closes and resets the form and refetches; failure keeps the form with a message |
| BudgetPage.BudgetPage.HandleView | src/pages/budget/index.tsx:282-295 | shows the server's copy, or the row's own when none came back; a failure sets the message |
| BudgetPage.BudgetPage.HandleEdit | src/pages/budget/index.tsx:297-322 | a budget from the server opens the form in edit mode with EditForm; no budget or a failure sets the message and leaves the dialog, the form, the mode and the edited id as they were |
| BudgetPage.BudgetPage.HandleDelete | src/pages/budget/index.tsx:324-345 | nothing unless confirmed; success steps back a page when it emptied a later page and otherwise refetches the same request; failure sets the message |
| AddExpenseModal.BeforeT | src/pages/expense/AddExpenseModal.tsx:39 | `split("T")[0]`: the longest prefix holding no "T", which is the whole text exactly when it has none and is otherwise followed by the first "T" |
| AddExpenseModal.NormalizeDateInput | src/pages/expense/AddExpenseModal.tsx:37-41 | a missing or empty date is today; a text holding "T" gives exactly the part before its first "T"; any other text is kept; the result is a prefix of the input |
| AddExpenseModal.OpenedForm | src/pages/expense/AddExpenseModal.tsx:65-76 | no initial data gives the default form; otherwise each field is the initial one when non-empty and its default ("" or the first category) otherwise, the date is NormalizeDateInput of the initial date, and no file is chosen |
| AddExpenseModal.CheckForm | src/pages/expense/AddExpenseModal.tsx:87-104 | title, then amount, then date: a blank title gives the title message, a bad amount the amount message, and a date after today the date message; passes exactly when none applies |
| AddExpenseModal.Submitted | src/pages/expense/AddExpenseModal.tsx:106-110 | the page receives the form with title and note trimmed, other fields and the file as they are |
| AddExpenseModal.TrimIdempotent | src/pages/expense/AddExpenseModal.tsx:107-108 | trimming twice is trimming once |
| AddExpenseModal.SubmittedStillPasses | src/pages/expense/AddExpenseModal.tsx:87-110 | a form that passes the checks still passes them after trimming |
| AddExpenseModal.AddExpenseModal.constructor | src/pages/expense/AddExpenseModal.tsx:62-63 | the default form and no message |
| AddExpenseModal.AddExpenseModal.OnOpen | src/pages/expense/AddExpenseModal.tsx:65-76 | opening refills the form and clears the message; nothing happens while closed |
| AddExpenseModal.AddExpenseModal.HandleChange | src/pages/expense/AddExpenseModal.tsx:116-121 | one field takes the typed value, the rest stay |
| AddExpenseModal.AddExpenseModal.HandleFileChange | src/pages/expense/AddExpenseModal.tsx:123-137 | no file clears the receipt; a file over 10 MiB is refused and the old receipt kept; any other becomes the receipt |
| AddExpenseModal.AddExpenseModal.HandleSubmit | src/pages/expense/AddExpenseModal.tsx:84-114 | a failed check sets its message and hands nothing on; otherwise the trimmed form is handed on, and the form resets unless saving throws, when it stays with a message |
| AddExpenseModal.AddExpenseModal.HandleClose | src/pages/expense/AddExpenseModal.tsx:139-143 | ignored while the page is saving; otherwise resets the form and closes |

## Left out

- HTTP, cookies and the browser. Every server call is a `ServiceOutcome`
  parameter, and the cookie is a field of the cookie store. Cookie expiry
  (7 days) is not modelled.
- Effects and ordering. React re-renders, effect scheduling and races
  between overlapping requests are not modelled; each handler is one atomic
  step. The budget page's refetch after a change of page or filters is
  stated as the request to send (`Request`, `refetch`), not performed.
- The budget page's `selectedLoading` and `activeActionId` flags are left
  out. They only disable buttons while a request is in flight, and both end
  false after every handler.
- `getDaysUntilDue`, dates and clocks. The days until a bill is due, and
  "today", are inputs.
- Number and text conversions. `Number`, `parseFloat`, `parseInt`,
  `toString`, `toLowerCase` and `Intl` currency and date formatting are
  opaque parameters. Their exact behaviour (including Unicode case mapping,
  and UTF-16 code units as against code points) is not modelled, and
  neither are the amount and date columns they format.
- The bills page's vendor filter state (`selectedVendor`) is left out: no
  filter reads it.
- Per-field form edits on the three list pages, and their file inputs, are
  left out. The form is a field, edited only through the handlers modelled.
  The dialog's field edits are modelled (`HandleChange`).
- The sample records the list pages start with are constructor parameters.
- `Pagination.Render` requires a positive limit, as every caller passes 10.
  A zero limit would divide by zero in JavaScript; that is not modelled.
- Server numbers are taken as integers or reals as given. `Number(...)`
  coercion of strings in a response is not modelled.
- The dashboard overview is a type parameter. Its fields are shown, not
  computed, by the client.
- The sort in `handleEdit` is modelled for finite amounts. A NaN amount
  would make the comparator inconsistent.
- BillsPage.BillsPage.NextClick: runs the corrected `ListOps.NextPage`, so with no
  matching bill it stays on page 1 where the page moves to page 0 (see
  Findings). It states that it equals the code's move whenever there is a page.
- IncomePage.IncomePage.NextClick: runs the corrected `ListOps.NextPage`; same gap as
  the bills page's Next button.
- BillsPage.BillsPage.Submit: a create uses the corrected `ListOps.NextId`, so on an
  emptied list the new bill gets id 1 where the page gives -Infinity (see
  Findings). `Valid()`'s unique ids rely on it; `BillsPage.AddBillSpec`
  shows that the ids agree on any non-empty list.
- ExpensePage.ExpensePage.Submit: same as the bills page, through
  `ExpensePage.AddExpenseSpec`.
- IncomePage.IncomePage.Submit: same as the bills page, through
  `IncomePage.AddIncomeSpec`.
- BudgetPage.BudgetPage.constructor: reads the page with the corrected
  `BudgetPage.PageFromQuery`, so `?page=0.5` gives page 1 where the page
  gives 0 (see Findings); `Valid()`'s `page >= 1` relies on it. It states
  that the reading agrees with the code on every other input.
- AuthSlice.AuthStore: the fulfilled handlers accept an absent user, as the
  thunks pass `res.data.user` unchecked; `Consistent()` is therefore not an
  invariant of the store, only of the states the other handlers leave.
- BudgetPage.BudgetPage.SetPageParam: models writing a whole page number and
  reading it back, not the full URL round trip of other query parameters.

## Findings

| source | as written | input that shows it | evidently intended | confidence | as-written member | corrected member |
|---|---|---|---|---|---|---|
| src/pages/bills/index.tsx:119 (also src/pages/expense/index.tsx:114 and src/pages/income/Income.tsx:115) | a new record's id is `Math.max(...ids) + 1` | delete every bill, then add two: `Math.max()` is -Infinity, so both get id -Infinity and deleting one deletes both | one more than the largest id, or 1 for an empty list | not executed | ListOps.NextIdAsWrittenDuplicates | ListOps.NextId |
| src/pages/bills/index.tsx:348-349 (also src/pages/income/Income.tsx:312-313) | Next moves to `Math.min(totalPages, currentPage + 1)` and is disabled only when `currentPage === totalPages` | a search that matches no bill: totalPages is 0, Next is enabled on page 1 and moves to page 0 | never leave pages 1..max(1, totalPages) | not executed | ListOps.NextPageAsWrittenLeavesRange | ListOps.NextPage |
| src/pages/budget/index.tsx:105 | the page is `Math.floor(raw)` whenever raw is finite and greater than 0 | `?page=0.5` gives page 0, which is requested from the server | a page of at least 1 | not executed | BudgetPage.PageFromQueryAsWrittenGivesZero | BudgetPage.PageFromQuery |
