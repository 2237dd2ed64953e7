# Expense tracker: a verified model of its record logic

This project models the part of a small personal expense tracker that has
behaviour worth stating. The tracker keeps income and expense records per user.
The model covers four pieces:

- **The record schema** (`TransactionModel`). It states which fields are required and
  gives the `type` enum, the non-negative amount and the 100-character description
  limit. It also models the trim setters and the defaults for `date` and `createdAt`.
  Validation is a function from a constructed document to a record or a set of
  failing paths. `MeetsSchema` is the validity predicate.
- **The transaction API** (`TransactionRoutes`). It is a class `TransactionStore`
  holding an id-to-record map. The create, list, update and delete handlers are
  methods on it:
  - create stamps the owner and a default date;
  - list returns the owner's records, newest first;
  - update and delete answer 404 before 401 before acting.

  The summary handler's aggregation is modelled by its result: a per-user,
  per-type sum over the map.
- **The dashboard's data shaping** (`Dashboard`):
  - the `calculatedTotals` fold (a loop method);
  - the `finalSummary` reconciliation, which takes a server value only when it is
    non-zero (`||`) and always derives the balance;
  - the `dailyTransactions` grouping fold (a loop method over a map);
  - the `monthlyTrends` mapping.

  A missing summary reply is an error result.
- **The transactions page** (`TransactionsPage`). It has the all/income/expense
  filter and a class `TransactionsView`. The class holds the component's state:
  list, summary, loading flag, error text, filter, dialog flag, form and edited id.
  Each handler is a method. Every network call is split into two parts:
  - the request it sends, such as `Submit`, which chooses between create and update;
  - the method that takes in its outcome.

`Sequences` holds a generic order-preserving `Filter` and the subsequence relation.
`Wrappers` holds `Option` and `Result`.

Representation choices:
- Amounts are integers in minor units.
- Instants are integer milliseconds since the epoch.
- The day a record falls on is `date / 86 400 000`.
- A record's `type` is kept as a free string, so the model can express the
  dashboard's treatment of unknown types. Any type other than `'income'` is
  counted as an expense.

The model follows the code on three points:
- the trend series lists the days in the order they first occur in the fetched
  list;
- neither GET handler filters by date range: the `startDate`/`endDate` query
  parameters are ignored;
- the dashboard counts a record of any type other than `'income'` as an expense.

## Model

| member | source | states |
|---|---|---|
| TransactionModel.Trim | models/Transaction.js:14-18 | the stored value has no white space at either end, and a value already trimmed is stored unchanged |
| TransactionModel.TrimIdempotent | models/Transaction.js:24-29 | trimming a stored (trimmed) value again changes nothing |
| TransactionModel.TrimRemovesOnlyEdges | models/Transaction.js:14-18 | the trimmed value is a contiguous slice of the input with only white space cut from each end |
| TransactionModel.Construct | models/Transaction.js:30-38 | category and description pass through the trim setter; date and createdAt default to the current time when absent and are kept when given |
| TransactionModel.MeetsSchema | models/Transaction.js:4-34 | the validity of a saved record: an 'income'/'expense' type, a non-empty trimmed category, an amount >= 0, and a non-empty trimmed description of at most 100 characters |
| TransactionModel.Violations | models/Transaction.js:4-28 | every validator runs and reports its own path only: `user` when absent, `type` when not 'income'/'expense', `category` when absent or empty, `amount` when absent or below 0, `description` when absent, empty or over 100 characters |
| TransactionModel.Validate | models/Transaction.js:3-39 | an accepted document yields a record meeting the schema with every field carried over; a rejection names at least one path, and names amount / type / description when those constraints are broken |
| TransactionModel.ValidateAcceptsExactly | models/Transaction.js:4-34 | a constructed document is accepted if and only if user, an 'income'/'expense' type, a non-empty trimmed category, an amount >= 0 and a non-empty trimmed description of at most 100 characters are all present |
| TransactionModel.MeetsSchemaIffNoViolations | models/Transaction.js:4-34 | a record meets the schema exactly when its text paths are stored trimmed and validating its document names no path |
| TransactionModel.ConstructValidateRoundTrip | models/Transaction.js:3-39 | constructing and validating a record that meets the schema gives back that same record, whatever the current time |
| TransactionRoutes.StatusCode | routes/api/transactions.js:76-99 | a reply is 200 exactly when it carries a record or the removal message, 404 exactly when the record is not found, 401 exactly when the caller does not own it, and 500 exactly on a server error |
| TransactionRoutes.CreateFields | routes/api/transactions.js:11-20 | the owner is the authenticated user, the date is the body's or else now, and the other fields are the body's |
| TransactionRoutes.NewRecord | routes/api/transactions.js:9-28 | a created record is owned by the caller, is dated by the body or now, is created now, meets the schema and carries the body's (trimmed) fields; creation succeeds if and only if the body satisfies every schema constraint |
| TransactionRoutes.ApplyPatch | routes/api/transactions.js:88-92 | `$set` keeps the record's id and keeps the text paths trimmed |
| TransactionRoutes.ApplyPatchOverwritesPresentFields | routes/api/transactions.js:88-92 | every path present in the body is overwritten (text through the trim setter) and every absent path keeps its old value |
| TransactionRoutes.ApplyPatchIdentityAndIdempotent | routes/api/transactions.js:88-92 | an empty body changes nothing, and applying the same body twice equals applying it once |
| TransactionRoutes.UpdateCanBreakSchema | routes/api/transactions.js:88-92 | since updates are not validated, a valid record updated with amount -1 or type 'refund' no longer meets the schema |
| TransactionRoutes.TotalZeroWithoutMatches | routes/api/transactions.js:49-60 | with no record of that user and type the total is 0 |
| TransactionRoutes.TotalNonNegative | routes/api/transactions.js:49-60 | totals over records with non-negative amounts are non-negative |
| TransactionRoutes.TotalInsert | routes/api/transactions.js:49-60 | storing a new record raises a user's total by exactly that record's contribution |
| TransactionRoutes.TotalRemove | routes/api/transactions.js:49-60 | removing a record lowers the total by exactly its contribution |
| TransactionRoutes.TotalReplace | routes/api/transactions.js:49-60 | replacing a record swaps its old contribution for its new one |
| TransactionRoutes.TotalIgnoresOthers | routes/api/transactions.js:49-57 | a record of another user, or of the other type, never changes a user's total |
| TransactionRoutes.AggregateSummary | routes/api/transactions.js:50-66 | the reply's balance is its income minus its expenses, whichever owner key the two `$match` stages use |
| TransactionRoutes.MatchedSumOfStringKey | routes/api/transactions.js:50-59 | a `$match` on the string form of the id selects no stored record, so each `$sum` is 0 |
| TransactionRoutes.MatchedSumOfObjectIdKey | routes/api/transactions.js:50-59 | a `$match` on the ObjectId selects exactly the user's records of that type, so the `$sum` is their total |
| TransactionRoutes.SummaryAsWrittenIsZero | routes/api/transactions.js:47-66 | as written, the summary reply is income 0, expenses 0, balance 0 whatever the store holds |
| TransactionRoutes.SummaryCorrected | routes/api/transactions.js:47-66 | with the owner matched as an ObjectId, the reply is the user's per-type totals and their difference |
| TransactionRoutes.SummaryAsWrittenMissesIncome | routes/api/transactions.js:50-59 | a user with one stored income of 500 is told 0 as written and 500 once the match is corrected |
| TransactionRoutes.InsertByDate | routes/api/transactions.js:35-36 | inserting into a newest-first list puts the record before the first older one, and the list stays newest first |
| TransactionRoutes.InsertByDateElements | routes/api/transactions.js:35-36 | insertion adds that record and nothing else: the members are the old ones plus the new record, and the id set grows by its id |
| TransactionRoutes.InsertByDateDistinct | routes/api/transactions.js:35-36 | inserting a record whose id is not yet listed keeps the listed ids distinct |
| TransactionRoutes.WellFormedInsert | routes/api/transactions.js:13-22 | filing a trimmed record under the next id keeps every record under its own id, and that id was free |
| TransactionRoutes.TransactionStore.Create | routes/api/transactions.js:9-28 | a valid body stores exactly the new record under a fresh id, advances the id counter and returns it; an invalid body is a 500 that stores nothing and leaves the counter; the store invariant is kept |
| TransactionRoutes.TransactionStore.List | routes/api/transactions.js:33-42 | the list holds every record the user owns, each exactly once, only the user's own records as stored, newest first |
| TransactionRoutes.TransactionStore.Summary | routes/api/transactions.js:47-71 | income and expenses are the user's per-type totals, and balance is income minus expenses; this is the pipeline with the owner matched as an ObjectId |
| TransactionRoutes.TransactionStore.Update | routes/api/transactions.js:76-99 | 404 when the id is unknown, else 401 for a non-owner; in both cases the store is unchanged; otherwise only that record is replaced by its patched version, which is returned |
| TransactionRoutes.TransactionStore.Delete | routes/api/transactions.js:104-122 | 404 when the id is unknown, else 401 for a non-owner; in both cases the store is unchanged; otherwise exactly that record is removed and all others remain |
| Dashboard.PartitionComplete | client/src/components/dashboard/Dashboard.jsx:41-48 | recomputed income plus recomputed expenses is the sum of all amounts |
| Dashboard.IncomeIsFilteredSum | client/src/components/dashboard/Dashboard.jsx:41-48 | the income total is the sum over exactly the 'income' records |
| Dashboard.ExpensesAreFilteredSum | client/src/components/dashboard/Dashboard.jsx:42-46 | the expense total is the sum over every record that is not 'income' |
| Dashboard.SumsAppend | client/src/components/dashboard/Dashboard.jsx:41-48 | each record adds its amount to exactly one of the two totals |
| Dashboard.OtherKindsCountAsExpenses | client/src/components/dashboard/Dashboard.jsx:42-46 | a record of any type other than 'income' raises the expense total by its amount and leaves income alone |
| Dashboard.CalculateTotals | client/src/components/dashboard/Dashboard.jsx:41-48 | the fold returns the income and expense totals of the list, which add up to the sum of all amounts |
| Dashboard.OrElse | client/src/components/dashboard/Dashboard.jsx:52-53 | a present non-zero value is kept; an absent or zero value gives the fallback |
| Dashboard.Reconcile | client/src/components/dashboard/Dashboard.jsx:51-56 | each total is the server's when present and non-zero and the recomputed one otherwise, chosen independently; balance is always income minus expenses |
| Dashboard.ReconcileAgreeing | client/src/components/dashboard/Dashboard.jsx:51-56 | when the server agrees with the recomputed totals, the result is those totals |
| Dashboard.ReconcileMissingFields | client/src/components/dashboard/Dashboard.jsx:51-56 | a summary reply without fields yields exactly the recomputed totals |
| Dashboard.ReconcileZeroReply | client/src/components/dashboard/Dashboard.jsx:50-56 | a summary reply of zeros yields exactly the recomputed totals and their difference |
| Dashboard.ReconcileExample | client/src/components/dashboard/Dashboard.jsx:51-56 | server {0, 50} with recomputed {120, 45} gives {120, 50, 70} |
| Dashboard.DaysInOrder | client/src/components/dashboard/Dashboard.jsx:58-71 | the dictionary keys are exactly the days that have records, each once |
| Dashboard.OnDayMembers | client/src/components/dashboard/Dashboard.jsx:58-62 | a day's bucket receives exactly the records dated on that day |
| Dashboard.DaysInFirstOccurrenceOrder | client/src/components/dashboard/Dashboard.jsx:58-71 | keys come in the order of each day's first record |
| Dashboard.DayTotalsAppend | client/src/components/dashboard/Dashboard.jsx:63-67 | adding a record changes only its own day's entry, by its amount on the side its type selects |
| Dashboard.GroupStep | client/src/components/dashboard/Dashboard.jsx:58-69 | one step of the fold adds a new day at the end and updates only the record's day |
| Dashboard.GroupByDay | client/src/components/dashboard/Dashboard.jsx:58-69 | the fold yields one entry per day with records, in first-occurrence order, each holding that day's income and expense totals |
| Dashboard.MonthlyTrends | client/src/components/dashboard/Dashboard.jsx:71-76 | one trend entry per key, in key order, carrying its totals and a balance of income minus expenses |
| Dashboard.MonthlyTrendsOfGrouping | client/src/components/dashboard/Dashboard.jsx:58-76 | mapping the grouping of a list gives exactly that list's per-day trend series |
| Dashboard.TrendEntries | client/src/components/dashboard/Dashboard.jsx:71-76 | each trend entry holds its day's income and expense totals and their difference as balance |
| Dashboard.OneTrendPerActiveDay | client/src/components/dashboard/Dashboard.jsx:58-76 | a day has a trend entry if and only if it has a record, and no day has two |
| Dashboard.DailySumsMatchTotals | client/src/components/dashboard/Dashboard.jsx:41-69 | summing the per-day totals over the days gives the overall totals |
| Dashboard.TrendsSumToTotals | client/src/components/dashboard/Dashboard.jsx:41-76 | the trend incomes add up to the income total and the trend expenses to the expense total |
| Dashboard.EmptyInput | client/src/components/dashboard/Dashboard.jsx:41-76 | no records give zero totals and no trend entries |
| Dashboard.TwoDaysTotals | client/src/components/dashboard/Dashboard.jsx:41-48 | incomes 100 and 50 with an expense of 30 total 150 and 30 |
| Dashboard.TwoDaysTrends | client/src/components/dashboard/Dashboard.jsx:58-76 | the same records give the trends {day 0: 100, 30, 70} then {day 1: 50, 0, 50} |
| Dashboard.ComputeDashboard | client/src/components/dashboard/Dashboard.jsx:36-76 | a missing summary is an error and never a result; otherwise the summary is the reconciliation of the server reply with the recomputed totals, and the trends are the per-day series |
| TransactionsPage.Visible | client/src/components/transactions/Transactions.jsx:49-53 | a record is shown if and only if it is in the list and passes the filter |
| TransactionsPage.IncomeFilterShowsIncome | client/src/components/transactions/Transactions.jsx:49-50 | with 'income' the table shows exactly the income records |
| TransactionsPage.ExpenseFilterShowsExpenses | client/src/components/transactions/Transactions.jsx:51 | with 'expense' the table shows exactly the records of type 'expense' |
| TransactionsPage.OtherFilterShowsAll | client/src/components/transactions/Transactions.jsx:52 | any other filter value, 'all' included, shows the list unchanged |
| TransactionsPage.VisibleIsSubsequence | client/src/components/transactions/Transactions.jsx:49-53 | filtering keeps relative order and never adds or repeats a record |
| TransactionsPage.Set | client/src/components/transactions/Transactions.jsx:94-99 | the named form entry takes the new value and every other entry is kept |
| TransactionsPage.SetGetAndOverride | client/src/components/transactions/Transactions.jsx:94-99 | writing back the held value changes nothing; a second write to an entry overrides the first |
| TransactionsPage.BlankForm | client/src/components/transactions/Transactions.jsx:81-87 | the blank form is type 'expense' with empty category, amount and description, dated today |
| TransactionsPage.EditForm | client/src/components/transactions/Transactions.jsx:140-146 | the edit form carries the record's type, category, amount, description and day |
| TransactionsPage.RequestFor | client/src/components/transactions/Transactions.jsx:109-113 | the request is an update of the edited id exactly when an id is being edited, otherwise a create; it always carries the form |
| TransactionsPage.TransactionsView.constructor | client/src/components/transactions/Transactions.jsx:30-47 | the page starts loading, with no records, a zero summary, filter 'all', dialog closed, a blank form and no edited id |
| TransactionsPage.TransactionsView.Shown | client/src/components/transactions/Transactions.jsx:49-53 | the shown records are a subsequence of the fetched list |
| TransactionsPage.TransactionsView.FetchSucceeded | client/src/components/transactions/Transactions.jsx:65-67 | the fetched list and summary replace the old ones and loading ends; nothing else changes |
| TransactionsPage.TransactionsView.FetchFailed | client/src/components/transactions/Transactions.jsx:68-71 | the fetch error is shown and loading ends; the list is kept |
| TransactionsPage.TransactionsView.HandleOpen | client/src/components/transactions/Transactions.jsx:78-88 | the dialog opens with no edited id and a blank form, so the next submission creates |
| TransactionsPage.TransactionsView.HandleClose | client/src/components/transactions/Transactions.jsx:90-92 | only the dialog flag changes |
| TransactionsPage.TransactionsView.HandleChange | client/src/components/transactions/Transactions.jsx:94-99 | only the named form entry changes, and every other part of the state is kept |
| TransactionsPage.TransactionsView.HandleEdit | client/src/components/transactions/Transactions.jsx:138-148 | the edited id becomes the record's id, the form is filled from it and the dialog opens, so the next submission updates that record |
| TransactionsPage.TransactionsView.Submit | client/src/components/transactions/Transactions.jsx:109-113 | a PUT of the form to the edited id when there is one, otherwise a POST of the form |
| TransactionsPage.TransactionsView.SubmitSucceeded | client/src/components/transactions/Transactions.jsx:115-117 | after a save the list is fetched again (or the fetch error is shown) and the dialog closes |
| TransactionsPage.TransactionsView.SubmitFailed | client/src/components/transactions/Transactions.jsx:118-120 | a failed save shows 'Failed to save transaction' and leaves the dialog and form as they were |
| TransactionsPage.TransactionsView.DeleteSucceeded | client/src/components/transactions/Transactions.jsx:129-132 | after a delete the list is fetched again, or the fetch error is shown |
| TransactionsPage.TransactionsView.DeleteFailed | client/src/components/transactions/Transactions.jsx:133-135 | a failed delete shows 'Failed to delete transaction' |
| TransactionsPage.TransactionsView.SetFilter | client/src/components/transactions/Transactions.jsx:187-207 | only the filter changes, and the table then shows the list filtered by the new value |

## Left out

- HTTP, `axios`, the `x-auth-token` header, `localStorage` and the auth middleware are left out. The authenticated user is a parameter, and every fetched list or reply is an input.
- Rendering is left out: the loading and error screens, the table, the charts, theming and navigation. So are the pages other than the dashboard and the transactions page.
- `server.js` is not part of this model. That covers the database connection, its retry timer and the listener.
- Floating point is not modelled (`parseFloat`, `toFixed`, the chart percentages). Amounts are exact integers in minor units.
- Day keys are not the real formatted strings. `dayjs(...).format('YYYY-MM-DD')` and `format(..., 'yyyy-MM-dd')` use the local time zone; the model uses the UTC day number `date / 86 400 000`. The form's date entry holds that day number rather than its text.
- The dashboard's date range (`startDate`/`endDate`) is not modelled, because both GET handlers ignore it. The dashboard works on whatever list arrives.
- Ids are a counter (`nextId`), not MongoDB ObjectIds, which are never reused either.
- Most server-side failures are left out:
  - the 500 replies for database and cast errors, such as a malformed id in PUT or DELETE;
  - an `_id` or unknown path in an update body (such paths are dropped, so a `Patch` holds only schema paths).

  Of the 500 paths, only the failed validation in create is modelled.
- Casting of request values is not modelled: a number given as text, or a date string. Absent and falsy values in request bodies are modelled as follows:
  - In the create handler's body, `date` is `None` for any falsy value (`undefined`, `null`, `''`, `0`), since `date || Date.now()` treats them all as missing.
  - A create string field that is `undefined` or `null` is `None`; one that is `''` is `Some("")`. Both fail the `required` validator alike.
  - `amount` reaches the constructor without `||`, so a create `amount` of `0` is `Some(0)` and is accepted.
  - In a PUT body every value present, including `''` and `0`, is `Some(…)` and is written by `$set`. A `null` in a PUT body, which would store null, is not modelled.
- Description lengths are counted in Unicode characters. JavaScript counts UTF-16 code units, so the two differ for characters outside the Basic Multilingual Plane.
- The `$match`/`$group`/`$sum` pipeline is modelled only by its result, a per-user, per-type sum over the store. The sum is not computed by a loop.
- The handlers are read against Mongoose 5 and 6 (at least 5, below 7). `package.json`, which would fix the version, is not part of this model. Below 5, `$set` in an update does not run the trim setter, so `ApplyPatch` would store `category` and `description` untrimmed. From 7 on, `Document.prototype.remove` no longer exists: an owner's DELETE throws at routes/api/transactions.js:116, answers 500 and removes nothing, where `TransactionStore.Delete` answers `Removed` and removes the record.
- TransactionRoutes.TransactionStore.Summary: this is a ghost function of the store and not an executable handler, because the aggregation runs inside the database. It is the pipeline with the owner matched as an ObjectId, which is the intended per-user sum. The handler as written matches on the string id and replies with zeros (see Findings). That reading rests on the auth middleware giving `req.user.id` as a string; the middleware is not part of this model.
- TransactionRoutes.ApplyPatch: its own contract states only that the id is kept and text stays trimmed. The per-path overwrite is stated separately by `ApplyPatchOverwritesPresentFields`, so that the idempotence proof stays small.
- Form input names outside the five inputs of the dialog (`type`, `category`, `amount`, `description`, `date`) cannot occur, so `handleChange` is modelled over those five only.
- The summary held by the transactions page is only stored, with no computation on it. The request `handleDelete` sends carries only the record id, and is not modelled beyond its two outcomes.
- React's effect scheduling and the concurrent `Promise.all` fetches are not modelled. They contribute only their joined results, which the outcome methods take as arguments.

## Findings

| source | as written | input that shows it | evidently intended | confidence | as-written member | corrected member |
|---|---|---|---|---|---|---|
| routes/api/transactions.js:50-59 | both `$match` stages compare the stored `user` ObjectId with the authenticated id in its string form; aggregation stages are not cast to the schema, so no record matches | a user with one stored income of 500 asks for the summary and gets income 0, expenses 0, balance 0 | the user's per-type totals: income 500, expenses 0, balance 500 | medium, not executed; rests on the auth middleware giving `req.user.id` as a string, as the owner checks at lines 84 and 112 compare it with `user.toString()` | TransactionRoutes.SummaryAsWrittenIsZero | TransactionRoutes.SummaryCorrected |
