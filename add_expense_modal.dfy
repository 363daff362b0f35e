/** The add/edit expense dialog: its form, filled from the record being edited
    when it opens, checked in order on submit, trimmed before it is handed to
    the page, and reset once the page has saved it. The current date is a
    parameter. */
module AddExpenseModal {
  import opened Common
  import ExpenseThunks

  /** The dialog's categories, lower-cased. */
  const Categories: seq<string> :=
    ["food", "transport", "entertainment", "shopping", "utilities", "healthcare", "education", "other"]

  /** `MAX_FILE_SIZE`: 10 MiB. */
  const MaxFileSize: nat := 10 * 1024 * 1024

  /** A chosen file, by name and size in bytes. */
  datatype ReceiptFile = ReceiptFile(name: string, size: nat)

  /** `ExpenseFormData` */
  datatype FormData = FormData(
    title: string,
    amount: string,
    category: string,
    date: string,
    note: string,
    receipt: Option<ReceiptFile>)

  /** `Partial<ExpenseFormData>` as the page passes it when editing. */
  datatype InitialData = InitialData(
    title: Option<string>,
    amount: Option<string>,
    category: Option<string>,
    date: Option<string>,
    note: Option<string>)

  /** `getDefaultForm` */
  function DefaultForm(today: string): FormData {
    FormData("", "", Categories[0], today, "", None)
  }

  /** The text before the first `T`, or all of it when there is none. */
  function BeforeT(s: string): (r: string)
    ensures |r| <= |s| && r == s[..|r|]
    ensures 'T' !in r
    ensures |r| < |s| <==> 'T' in s
    ensures |r| < |s| ==> s[|r|] == 'T'
  {
    if s == [] then []
    else if s[0] == 'T' then []
    else [s[0]] + BeforeT(s[1..])
  }

  /** `normalizeDateInput`: a missing or empty date becomes today; an ISO
      date-time keeps its date part (the text before the first `T`); any other
      text is kept as it is. */
  function NormalizeDateInput(value: Option<string>, today: string): (r: string)
    ensures value.None? || value.value == "" ==> r == today
    ensures value.Some? && value.value != "" && 'T' !in value.value ==> r == value.value
    ensures value.Some? && value.value != "" ==> |r| <= |value.value| && r == value.value[..|r|]
    ensures value.Some? && 'T' in value.value ==>
              'T' !in r && |r| < |value.value| && value.value[|r|] == 'T'
    ensures 'T' !in today ==> 'T' !in r
  {
    if value.None? || value.value == "" then today
    else if 'T' in value.value then BeforeT(value.value)
    else value.value
  }

  /** The form the dialog shows when it opens: each given non-empty field,
      the defaults for the rest, the date normalised, and no file. */
  function OpenedForm(initial: Option<InitialData>, today: string): (f: FormData)
    ensures initial.None? ==> f == DefaultForm(today)
    ensures f.receipt.None?
    ensures f.category != ""
    ensures initial.Some? && initial.value.title.Some? && initial.value.title.value != "" ==>
              f.title == initial.value.title.value
    ensures initial.Some? ==>
              var d := initial.value;
              f.title == OrElse(d.title, "") && f.amount == OrElse(d.amount, "")
              && f.category == OrElse(d.category, Categories[0]) && f.note == OrElse(d.note, "")
              && f.date == NormalizeDateInput(d.date, today)
  {
    if initial.None? then DefaultForm(today)
    else
      var d := initial.value;
      FormData(
        OrElse(d.title, ""),
        OrElse(d.amount, ""),
        OrElse(d.category, Categories[0]),
        NormalizeDateInput(d.date, today),
        OrElse(d.note, ""),
        None)
  }

  const TitleMessage := "Expense title is required."
  const AmountMessage := "Amount must be greater than 0."
  const DateMessage := "Date cannot be in the future."
  const SaveMessage := "Unable to save expense. Please try again."
  const FileMessage := "File must be 10MB or smaller."

  /** The submit checks in their order: a title that is not blank, an amount
      that parses to a finite number above 0, and a date that does not sort
      after today. `None` when the form passes. */
  function CheckForm(form: FormData, today: string, number: string -> Num): (r: Option<string>)
    ensures Trim(form.title) == "" ==> r == Some(TitleMessage)
    ensures (Trim(form.title) != "" && !(number(form.amount).IsFinite() && number(form.amount).Greater(0.0)))
              ==> r == Some(AmountMessage)
    ensures (Trim(form.title) != "" && number(form.amount).IsFinite() && number(form.amount).value > 0.0
             && LexLess(today, form.date)) ==> r == Some(DateMessage)
    ensures r.None? <==>
              Trim(form.title) != "" && number(form.amount).IsFinite() && number(form.amount).value > 0.0
              && !LexLess(today, form.date)
    ensures r.Some? ==> r.value in {TitleMessage, AmountMessage, DateMessage}
  {
    if Trim(form.title) == "" then Some(TitleMessage)
    else if !(number(form.amount).IsFinite() && number(form.amount).Greater(0.0)) then Some(AmountMessage)
    else if LexLess(today, form.date) then Some(DateMessage)
    else None
  }

  /** What the dialog hands to the page: the form with the title and the note
      trimmed, as the expense form the thunks send, and the chosen file. */
  function Submitted(form: FormData): (r: (ExpenseThunks.ExpenseForm, Option<ReceiptFile>))
    ensures r.0.title == Trim(form.title) && r.0.note == Trim(form.note)
    ensures r.0.amount == form.amount && r.0.category == form.category && r.0.date == form.date
    ensures r.1 == form.receipt
  {
    (ExpenseThunks.ExpenseForm(Trim(form.title), form.amount, form.category, form.date, Trim(form.note)),
     form.receipt)
  }

  /** Trimming twice is trimming once. */
  lemma {:induction false} TrimIdempotent(s: string)
    ensures Trim(Trim(s)) == Trim(s)
  {
    var t := Trim(s);
    TrimSpec(s);
    if t != "" {
      assert !IsSpace(t[0]) && !IsSpace(t[|t| - 1]);
      var a := TrimStart(t);
      assert |a| == |t|;
      assert a == t;
      var b := TrimEnd(a);
      assert |b| == |a|;
      assert Trim(t) == b;
    } else {
      assert Trim(t) == TrimEnd(TrimStart(t));
    }
  }

  /** A form that passes the checks still passes them once trimmed, so the
      values the page receives are themselves acceptable. */
  lemma SubmittedStillPasses(form: FormData, today: string, number: string -> Num)
    requires CheckForm(form, today, number).None?
    ensures var s := Submitted(form).0;
            CheckForm(FormData(s.title, s.amount, s.category, s.date, s.note, form.receipt), today, number).None?
  {
    TrimIdempotent(form.title);
  }

  /** The fields a text input or select can edit. */
  datatype Field = Title | Amount | Category | Date | Note

  class AddExpenseModal {
    const number: string -> Num
    var form: FormData
    var errorMessage: string

    /** The dialog before it first opens. */
    constructor (number: string -> Num, today: string)
      ensures form == DefaultForm(today) && errorMessage == ""
      ensures this.number == number
    {
      this.number := number;
      form := DefaultForm(today);
      errorMessage := "";
    }

    /** The effect run when the dialog opens (or its initial data changes
        while open): the form is refilled and the message cleared. Nothing
        happens while it is closed. */
    method OnOpen(open: bool, initial: Option<InitialData>, today: string)
      modifies this`form, this`errorMessage
      ensures open ==> form == OpenedForm(initial, today) && errorMessage == ""
      ensures !open ==> form == old(form) && errorMessage == old(errorMessage)
    {
      if open {
        form := OpenedForm(initial, today);
        errorMessage := "";
      }
    }

    /** `handleChange`: one field takes the typed value; the rest stay. */
    method HandleChange(field: Field, value: string)
      modifies this`form
      ensures field == Title ==> form == old(form).(title := value)
      ensures field == Amount ==> form == old(form).(amount := value)
      ensures field == Category ==> form == old(form).(category := value)
      ensures field == Date ==> form == old(form).(date := value)
      ensures field == Note ==> form == old(form).(note := value)
    {
      match field {
        case Title => form := form.(title := value);
        case Amount => form := form.(amount := value);
        case Category => form := form.(category := value);
        case Date => form := form.(date := value);
        case Note => form := form.(note := value);
      }
    }

    /** `handleFileChange`: no file clears the receipt; a file over 10 MiB is
        refused with a message and the previous receipt kept; any other file
        becomes the receipt and clears the message. */
    method HandleFileChange(file: Option<ReceiptFile>)
      modifies this`form, this`errorMessage
      ensures file.None? ==> form == old(form).(receipt := None) && errorMessage == old(errorMessage)
      ensures file.Some? && file.value.size > MaxFileSize ==>
                form == old(form) && errorMessage == FileMessage
      ensures file.Some? && file.value.size <= MaxFileSize ==>
                form == old(form).(receipt := file) && errorMessage == ""
    {
      if file.None? {
        form := form.(receipt := None);
        return;
      }
      if file.value.size > MaxFileSize {
        errorMessage := FileMessage;
        return;
      }
      errorMessage := "";
      form := form.(receipt := file);
    }

    /** `handleSubmit`: a failed check sets its message and nothing is handed
        on; otherwise the trimmed form goes to the page (`sent`), and when the
        page's save does not throw the form is reset, while a throw leaves the
        form as it was with a message. */
    method HandleSubmit(today: string, saveThrows: bool)
      returns (sent: Option<(ExpenseThunks.ExpenseForm, Option<ReceiptFile>)>)
      modifies this`form, this`errorMessage
      ensures var check := CheckForm(old(form), today, number);
              (check.Some? ==> sent.None? && errorMessage == check.value && form == old(form))
              && (check.None? ==> sent == Some(Submitted(old(form))))
              && (check.None? && !saveThrows ==> form == DefaultForm(today) && errorMessage == "")
              && (check.None? && saveThrows ==> form == old(form) && errorMessage == SaveMessage)
    {
      errorMessage := "";
      var check := CheckForm(form, today, number);
      if check.Some? {
        errorMessage := check.value;
        return None;
      }
      sent := Some(Submitted(form));
      if saveThrows {
        errorMessage := SaveMessage;
      } else {
        form := DefaultForm(today);
        errorMessage := "";
      }
    }

    /** `handleClose`: ignored while the page is saving; otherwise the form is
        reset and the page told to close (`closed`). */
    method HandleClose(submitting: bool, today: string) returns (closed: bool)
      modifies this`form, this`errorMessage
      ensures closed <==> !submitting
      ensures submitting ==> form == old(form) && errorMessage == old(errorMessage)
      ensures !submitting ==> form == DefaultForm(today) && errorMessage == ""
    {
      if submitting {
        return false;
      }
      form := DefaultForm(today);
      errorMessage := "";
      closed := true;
    }
  }
}
