/**
 * The transactions page: the type filter over the fetched list, and the state
 * machine of the add/edit dialog that decides between creating and updating a
 * record.
 */
module TransactionsPage {
  import opened Wrappers
  import opened Sequences
  import opened TransactionModel
  import opened TransactionRoutes

  // ---------------------------------------------------------------------------
  // The type filter
  // ---------------------------------------------------------------------------

  const All: string := "all"

  /** The filter callback: 'income' and 'expense' select their type, anything else everything. */
  predicate Shows(filter: string, t: Transaction) {
    if filter == Income then t.kind == Income
    else if filter == Expense then t.kind == Expense
    else true
  }

  /** `filteredTransactions`: the records the table shows, in list order. */
  function Visible(transactions: seq<Transaction>, filter: string): (r: seq<Transaction>)
    ensures forall t :: t in r <==> t in transactions && Shows(filter, t)
  {
    Filter(transactions, (t: Transaction) => Shows(filter, t))
  }

  /** With the 'income' filter the table shows exactly the income records. */
  lemma IncomeFilterShowsIncome(transactions: seq<Transaction>)
    ensures forall t :: t in Visible(transactions, Income) <==> t in transactions && t.kind == Income
  {
  }

  /** With the 'expense' filter the table shows exactly the records of type 'expense'. */
  lemma ExpenseFilterShowsExpenses(transactions: seq<Transaction>)
    ensures forall t :: t in Visible(transactions, Expense) <==> t in transactions && t.kind == Expense
  {
  }

  /** Any other filter value, 'all' among them, shows the whole list unchanged. */
  lemma OtherFilterShowsAll(transactions: seq<Transaction>, filter: string)
    requires filter != Income && filter != Expense
    ensures Visible(transactions, filter) == transactions
  {
    FilterKeepsAll(transactions, (t: Transaction) => Shows(filter, t));
  }

  /** Filtering keeps the records' relative order and never adds or repeats one. */
  lemma VisibleIsSubsequence(transactions: seq<Transaction>, filter: string)
    ensures IsSubsequence(Visible(transactions, filter), transactions)
    ensures multiset(Visible(transactions, filter)) <= multiset(transactions)
  {
    FilterIsSubsequence(transactions, (t: Transaction) => Shows(filter, t));
  }

  // ---------------------------------------------------------------------------
  // The form
  // ---------------------------------------------------------------------------

  /**
   * A form value: the text typed into an input, the record's own number when the
   * form is filled from a record, or a day in its 'yyyy-MM-dd' form.
   */
  datatype Value = Text(text: string) | Number(number: int) | Date(day: Day)

  /** The inputs of the dialog, by their `name` attribute. */
  datatype FormField = KindField | CategoryField | AmountField | DescriptionField | DateField

  /** `formData`; `kind` is the form's `type` entry. */
  datatype FormData = FormData(kind: Value, category: Value, amount: Value, description: Value, date: Value)

  function Get(form: FormData, name: FormField): Value {
    match name
    case KindField => form.kind
    case CategoryField => form.category
    case AmountField => form.amount
    case DescriptionField => form.description
    case DateField => form.date
  }

  /** `{...formData, [name]: value}`: the named entry replaced, every other kept. */
  function Set(form: FormData, name: FormField, value: Value): (r: FormData)
    ensures Get(r, name) == value
    ensures forall other :: other != name ==> Get(r, other) == Get(form, other)
  {
    match name
    case KindField => form.(kind := value)
    case CategoryField => form.(category := value)
    case AmountField => form.(amount := value)
    case DescriptionField => form.(description := value)
    case DateField => form.(date := value)
  }

  /** Writing back a value already held changes nothing; a second write overrides the first. */
  lemma SetGetAndOverride(form: FormData, name: FormField, v: Value, w: Value)
    ensures Set(form, name, Get(form, name)) == form
    ensures Set(Set(form, name, v), name, w) == Set(form, name, w)
  {
  }

  /** The empty form the dialog opens with for a new record, dated today. */
  function BlankForm(today: Day): (form: FormData)
    ensures form.kind == Text(Expense)
    ensures form.category == Text("") && form.amount == Text("") && form.description == Text("")
    ensures form.date == Date(today)
  {
    FormData(Text(Expense), Text(""), Text(""), Text(""), Date(today))
  }

  /** The form filled from a stored record, for editing it. */
  function EditForm(t: Transaction): (form: FormData)
    ensures form.kind == Text(t.kind) && form.category == Text(t.category)
    ensures form.amount == Number(t.amount) && form.description == Text(t.description)
    ensures form.date == Date(DayOf(t.date))
  {
    FormData(Text(t.kind), Text(t.category), Number(t.amount), Text(t.description), Date(DayOf(t.date)))
  }

  // ---------------------------------------------------------------------------
  // Submitting
  // ---------------------------------------------------------------------------

  /** The request a submission sends: a POST of the form, or a PUT of the form to one record. */
  datatype Request = Post(body: FormData) | Put(id: Id, body: FormData)

  /** The create/update choice: an update of the record being edited, otherwise a create. */
  function RequestFor(editingId: Option<Id>, form: FormData): (r: Request)
    ensures r.body == form
    ensures r.Put? <==> editingId.Some?
    ensures r.Put? ==> r.id == editingId.value
  {
    match editingId
    case Some(id) => Put(id, form)
    case None => Post(form)
  }

  const FetchError: string := "Failed to fetch transactions"
  const SaveError: string := "Failed to save transaction"
  const DeleteError: string := "Failed to delete transaction"

  // ---------------------------------------------------------------------------
  // The page state
  // ---------------------------------------------------------------------------

  /**
   * The component's state. Each handler is a method; a network call is split
   * into the request it sends and the method that takes in its outcome.
   */
  class TransactionsView {
    var transactions: seq<Transaction>
    var summary: SummaryBody
    var loading: bool
    var error: string
    var filter: string
    var open: bool
    var formData: FormData
    var editingId: Option<Id>

    /** The initial state: loading, nothing fetched, all types shown, a blank form dated today. */
    constructor(today: Day)
      ensures transactions == [] && summary == SummaryBody(0, 0, 0)
      ensures loading && error == "" && filter == All && !open
      ensures formData == BlankForm(today) && editingId.None?
    {
      transactions := [];
      summary := SummaryBody(0, 0, 0);
      loading := true;
      error := "";
      filter := All;
      open := false;
      formData := FormData(Text(Expense), Text(""), Text(""), Text(""), Date(today));
      editingId := None;
    }

    /** The records the table shows. */
    function Shown(): (r: seq<Transaction>)
      reads this
      ensures IsSubsequence(r, transactions)
    {
      VisibleIsSubsequence(transactions, filter);
      Visible(transactions, filter)
    }

    /** `fetchTransactions` once both replies are in: the list and the summary replace the old ones. */
    method FetchSucceeded(fetched: seq<Transaction>, fetchedSummary: SummaryBody)
      modifies this
      ensures transactions == fetched && summary == fetchedSummary && !loading
      ensures error == old(error) && filter == old(filter) && open == old(open)
      ensures formData == old(formData) && editingId == old(editingId)
    {
      transactions := fetched;
      summary := fetchedSummary;
      loading := false;
    }

    /** `fetchTransactions` when a request fails: the list is kept and the error is shown. */
    method FetchFailed()
      modifies this
      ensures error == FetchError && !loading
      ensures transactions == old(transactions) && summary == old(summary)
      ensures filter == old(filter) && open == old(open)
      ensures formData == old(formData) && editingId == old(editingId)
    {
      error := FetchError;
      loading := false;
    }

    /** `handleOpen`: the dialog opens on a blank form for a new record. */
    method HandleOpen(today: Day)
      modifies this
      ensures open && editingId.None? && formData == BlankForm(today)
      ensures RequestFor(editingId, formData).Post?
      ensures transactions == old(transactions) && summary == old(summary)
      ensures loading == old(loading) && error == old(error) && filter == old(filter)
    {
      open := true;
      editingId := None;
      formData := FormData(Text(Expense), Text(""), Text(""), Text(""), Date(today));
    }

    /** `handleClose`: the dialog closes; the form and the edited id are kept. */
    method HandleClose()
      modifies this
      ensures !open
      ensures formData == old(formData) && editingId == old(editingId)
      ensures transactions == old(transactions) && summary == old(summary)
      ensures loading == old(loading) && error == old(error) && filter == old(filter)
    {
      open := false;
    }

    /** `handleChange`: the input named `name` takes `value`; nothing else changes. */
    method HandleChange(name: FormField, value: Value)
      modifies this
      ensures formData == Set(old(formData), name, value)
      ensures Get(formData, name) == value
      ensures forall other :: other != name ==> Get(formData, other) == Get(old(formData), other)
      ensures open == old(open) && editingId == old(editingId)
      ensures transactions == old(transactions) && summary == old(summary)
      ensures loading == old(loading) && error == old(error) && filter == old(filter)
    {
      formData := Set(formData, name, value);
    }

    /** `handleEdit`: the dialog opens on the record's values, and a submission will update it. */
    method HandleEdit(t: Transaction)
      modifies this
      ensures open && editingId == Some(t.id) && formData == EditForm(t)
      ensures RequestFor(editingId, formData) == Put(t.id, EditForm(t))
      ensures transactions == old(transactions) && summary == old(summary)
      ensures loading == old(loading) && error == old(error) && filter == old(filter)
    {
      editingId := Some(t.id);
      formData := FormData(Text(t.kind), Text(t.category), Number(t.amount), Text(t.description), Date(DayOf(t.date)));
      open := true;
    }

    /** The request `handleSubmit` sends for the current state. */
    method Submit() returns (request: Request)
      ensures request == RequestFor(editingId, formData)
      ensures editingId.Some? ==> request == Put(editingId.value, formData)
      ensures editingId.None? ==> request == Post(formData)
    {
      if editingId.Some? {
        request := Put(editingId.value, formData);
      } else {
        request := Post(formData);
      }
    }

    /** A save that went through: the list is fetched again, then the dialog closes. */
    method SubmitSucceeded(refetched: Option<(seq<Transaction>, SummaryBody)>)
      modifies this
      ensures !open
      ensures refetched.Some? ==> transactions == refetched.value.0 && summary == refetched.value.1
                                  && error == old(error) && !loading
      ensures refetched.None? ==> transactions == old(transactions) && summary == old(summary)
                                  && error == FetchError && !loading
      ensures formData == old(formData) && editingId == old(editingId) && filter == old(filter)
    {
      match refetched {
        case Some(replies) => FetchSucceeded(replies.0, replies.1);
        case None => FetchFailed();
      }
      HandleClose();
    }

    /** A save the server refused: the error is shown and the dialog stays as it is. */
    method SubmitFailed()
      modifies this
      ensures error == SaveError
      ensures open == old(open) && formData == old(formData) && editingId == old(editingId)
      ensures transactions == old(transactions) && summary == old(summary)
      ensures loading == old(loading) && filter == old(filter)
    {
      error := SaveError;
    }

    /** A delete that went through: the list is fetched again. */
    method DeleteSucceeded(refetched: Option<(seq<Transaction>, SummaryBody)>)
      modifies this
      ensures refetched.Some? ==> transactions == refetched.value.0 && summary == refetched.value.1
                                  && error == old(error)
      ensures refetched.None? ==> transactions == old(transactions) && summary == old(summary)
                                  && error == FetchError
      ensures !loading
      ensures open == old(open) && formData == old(formData) && editingId == old(editingId)
      ensures filter == old(filter)
    {
      match refetched {
        case Some(replies) => FetchSucceeded(replies.0, replies.1);
        case None => FetchFailed();
      }
    }

    /** A delete the server refused: the error is shown. */
    method DeleteFailed()
      modifies this
      ensures error == DeleteError
      ensures open == old(open) && formData == old(formData) && editingId == old(editingId)
      ensures transactions == old(transactions) && summary == old(summary)
      ensures loading == old(loading) && filter == old(filter)
    {
      error := DeleteError;
    }

    /** One of the three filter buttons: only the filter changes. */
    method SetFilter(value: string)
      modifies this
      ensures filter == value
      ensures Shown() == Visible(transactions, value)
      ensures open == old(open) && formData == old(formData) && editingId == old(editingId)
      ensures transactions == old(transactions) && summary == old(summary)
      ensures loading == old(loading) && error == old(error)
    {
      filter := value;
    }
  }
}
