# Expense tracker ledger — a Dafny model

This project models the core of a small personal-finance application. The application keeps one flat list of transactions. Each record is an `expense`, an `income` or a `saving`, and a saving is further tagged `add` or `deduct`. The account a saving counts toward is its `category`. The form offers SIB and KSFE for it, but the stored field is unrestricted, and a category left over from a change of type is kept. The schema's list of accounts applies only to the separate `savingCategory` field, which the form never writes.

Everything of interest happens in the browser, where the transaction list is turned into ledger figures:

- the balance of each savings account;
- the current month's income, expense total and savings total;
- the remaining budget, and the check that refuses a new transaction exceeding it;
- the chart of amounts per category.

The model also covers two other browser components. The form edits one draft transaction, offers category choices per type, and disables its submit button when the draft is over budget. The table filters the list and colours each row.

On the server, the model covers only the document schema: which fields are required and which values the enumerated fields accept.

The model has six modules:

- **`Wrappers`**: `Option` and `Result`.
- **`Sequences`**: the array operations the client code is built from, each with its defining lemmas:
  - `filter`, `map` and `findIndex`/`find`;
  - `Array.from(new Set(xs))`, which keeps the first occurrence of each value.
- **`ExpenseModel`**: the transaction record, the enumerations, and the schema as a validating function from a loosely-typed document to a record or a list of errors.
- **`Dashboard`**:
  - the ledger figures, as functions of the list and of "now";
  - the admission check;
  - the chart buckets;
  - the component state as class `DashboardState`. The balance and chart methods use loops that mirror the source's `reduce` accumulators; the monthly figures are assigned from the functions. Each method is proved to leave the stored figures equal to the functions of the list.
- **`ExpenseForm`**:
  - the draft record as class `FormState`, with change and submit methods;
  - the field-change function and its frame lemma;
  - the submit predicate, related to the dashboard's check.
- **`ExpenseList`**: the filter, the category choices, the row and amount colours, and the operation column.

Dates are an abstract `(year, month, day)`. Only the month and year are compared. The current date is a parameter (`now`, `today`). Amounts are unbounded integers.

One consequence of modelling both the client and the schema is proved as `ExpenseForm.FreshIncomeDraftFailsSchema`:

- The form shows no category field for an income.
- So a fresh form switched to income still has the empty category it was reset to.
- The dashboard posts it, because incomes are never budget-checked.
- The schema's `required` on the String path `category` then refuses the document.

A `required` String path refuses the empty string as well as a missing value. That is the behaviour of the schema library the backend uses, and the model follows it.

## Model

| member | source | states |
|---|---|---|
| ExpenseModel.ParseType | backend/src/models/Expense.ts:18 | a `type` string is accepted exactly when it is one of `expense`, `saving`, `income`, and the accepted value names that string |
| ExpenseModel.ParseOperation | backend/src/models/Expense.ts:20 | an `operation` string is accepted exactly when it is `add` or `deduct`, and names that string |
| ExpenseModel.TypeNameRoundTrip | backend/src/models/Expense.ts:8 | reading back the name of a type gives the type |
| ExpenseModel.OperationNameRoundTrip | backend/src/models/Expense.ts:10 | reading back the name of an operation gives the operation |
| ExpenseModel.ValidDocument | backend/src/models/Expense.ts:13-23 | a document is valid when `amount`, `date` and `type` are present, `category` and `type` are present and non-empty, `type` is one of its three values, and `savingCategory` and `operation`, when present, are in their lists; `description` is free |
| ExpenseModel.ToDocument | backend/src/models/Expense.ts:3-20 | the document a record is stored as: every required field present, the enumerations as their strings, the optional fields present exactly when the record has them |
| ExpenseModel.SchemaErrors | backend/src/models/Expense.ts:13-23 | the error list is empty exactly when the document meets every field constraint |
| ExpenseModel.Validate | backend/src/models/Expense.ts:13-23 | a save succeeds exactly when the document is valid; the record it yields stores back as that same document; a failed save reports the non-empty list of failing paths |
| ExpenseModel.ValidateRoundTrip | backend/src/models/Expense.ts:3-20 | storing a record and validating its document gives the record back exactly when its category is non-empty and its `savingCategory` (if any) is SIB or KSFE |
| ExpenseModel.RequiredPathsReported | backend/src/models/Expense.ts:14-18 | a missing `amount`, `date` or `type`, and a missing or empty `category` or `type`, each produce a `required` error for that path |
| ExpenseModel.EnumViolationsReported | backend/src/models/Expense.ts:18-20 | a `type`, `savingCategory` or `operation` outside its list produces an enum error carrying the offending value |
| ExpenseModel.DescriptionUnconstrained | backend/src/models/Expense.ts:17 | `description` has no influence on validation |
| ExpenseModel.LooseRecordsAreValid | backend/src/models/Expense.ts:14-20 | the schema has no cross-field rule: a valid document stays valid with any amount, zero and negative included, any allowed type, and any allowed operation and `savingCategory` or none, whatever its category; so an expense may carry an operation, a saving may lack one, and `savingCategory` need not match `category` |
| Sequences.Filter | frontend/src/components/ExpenseList.tsx:42-46 | the result is no longer than the input and every element passes the predicate |
| Sequences.FilterIsSubsequence | frontend/src/components/ExpenseList.tsx:42-46 | the result picks ascending positions of the input, and a position is picked exactly when its element passes |
| Sequences.FilterAppend | frontend/src/components/Dashboard.tsx:83-87 | filtering distributes over concatenation |
| Sequences.FilterIdempotent | frontend/src/components/ExpenseList.tsx:42-46 | filtering twice equals filtering once |
| Sequences.FilterKeepsAll | frontend/src/components/ExpenseList.tsx:42-46 | when every element passes, the result is the input |
| Sequences.FilterCompose | frontend/src/components/ExpenseList.tsx:43-44 | filtering by one predicate then another is filtering by their conjunction |
| Sequences.Map | frontend/src/components/ExpenseList.tsx:48 | `Array.map`: the function applied to every element, in order |
| Sequences.MapAt | frontend/src/components/ExpenseList.tsx:48 | mapping keeps the length and applies the function at every position |
| Sequences.FindIndex | frontend/src/components/Dashboard.tsx:90 | the result is the first position whose element matches, and it is absent exactly when no element matches |
| Sequences.FindIndexInFilter | frontend/src/components/Dashboard.tsx:83-90 | searching a filtered list finds the same element as searching the whole list for "kept and matching" |
| Sequences.Distinct | frontend/src/components/ExpenseList.tsx:48 | the result has no duplicates, contains only elements of the input, and contains every one of them |
| Sequences.FirstIndex | frontend/src/components/ExpenseList.tsx:48 | the position holds the value and no earlier position does |
| Sequences.DistinctInFirstSeenOrder | frontend/src/components/ExpenseList.tsx:48 | distinct values are listed in order of their first occurrence |
| Sequences.DistinctSnoc | frontend/src/components/ExpenseList.tsx:48 | appending a value adds it to the distinct values unless it is already among them |
| Dashboard.Total | frontend/src/components/Dashboard.tsx:94-108 | the conditional sum a `reduce` from 0 computes: the sum of the amounts of the records that pass the test, in list order |
| Dashboard.TotalOfNone | frontend/src/components/Dashboard.tsx:94-99 | a sum over records none of which is counted is 0 |
| Dashboard.TotalAppend | frontend/src/components/Dashboard.tsx:94-99 | a conditional sum distributes over concatenation |
| Dashboard.TotalOfFilter | frontend/src/components/Dashboard.tsx:83-108 | summing a filtered list equals summing the whole list under the conjoined condition |
| Dashboard.TotalSplit | frontend/src/components/Dashboard.tsx:160 | a sum over a condition that is the disjoint union of two others is the sum of their sums |
| Dashboard.Balances | frontend/src/components/Dashboard.tsx:66-76 | the balance map of a list: its keys are SIB, KSFE and the category of every saving record; each key maps to the sum of the amounts of that account's savings, a `deduct` counted negatively |
| Dashboard.SavingDelta | frontend/src/components/Dashboard.tsx:69 | the signed amount of a saving: minus its amount for a `deduct`, its amount otherwise, also when it has no operation |
| Dashboard.AccountBalanceStep | frontend/src/components/Dashboard.tsx:67-71 | one more record moves an account's balance by its amount if it is a non-deduct saving of that account, by minus its amount if it is a deduct, and otherwise not at all |
| Dashboard.UnnamedAccountIsZero | frontend/src/components/Dashboard.tsx:66-73 | an account no saving record names has balance 0 |
| Dashboard.NewAccountIsZero | frontend/src/components/Dashboard.tsx:70 | a category outside the balance map has balance 0, so its first saving starts from zero |
| Dashboard.AccountsStep | frontend/src/components/Dashboard.tsx:68-72 | one more record adds its category to the balance map's accounts exactly when it is a saving |
| Dashboard.BalanceUpdate | frontend/src/components/Dashboard.tsx:67-72 | one step of the balance accumulator: a saving adds its signed amount to its category's entry, created at 0 if missing; any other record leaves the map as it was |
| Dashboard.BalancesStep | frontend/src/components/Dashboard.tsx:67-72 | the balance map of a list with one more record is the accumulator step applied to the balance map of the list |
| Dashboard.SeededAccountsAlwaysPresent | frontend/src/components/Dashboard.tsx:73 | SIB and KSFE are always keys of the balance map |
| Dashboard.SeededAccountsStartAtZero | frontend/src/components/Dashboard.tsx:73 | SIB or KSFE is at 0 while no saving names it |
| Dashboard.OnlySavingsMoveBalances | frontend/src/components/Dashboard.tsx:68 | dropping every expense and income record leaves all balances unchanged |
| Dashboard.CurrentMonthData | frontend/src/components/Dashboard.tsx:83-87 | the records dated in the given month of the given year, in list order |
| Dashboard.MonthlyIncome | frontend/src/components/Dashboard.tsx:83-90 | the amount of the first income record of the current month, or 0 when there is none |
| Dashboard.MonthExpenseTotal | frontend/src/components/Dashboard.tsx:83-99 | the sum of the amounts of the current month's expense records |
| Dashboard.MonthSavingsTotal | frontend/src/components/Dashboard.tsx:83-108 | the sum of the amounts of the current month's saving records whose operation is `add` |
| Dashboard.RemainingBudgetOf | frontend/src/components/Dashboard.tsx:187 | the month's income minus the sum of its expense total and savings total |
| Dashboard.MonthlyIncomeIsFirstMatch | frontend/src/components/Dashboard.tsx:83-90 | monthly income is the amount of the first income dated in the current month and year, and 0 when there is none |
| Dashboard.FirstIncomeWins | frontend/src/components/Dashboard.tsx:90 | incomes of 1000 then 2000 in the month give a monthly income of 1000 |
| Dashboard.MonthExpenseTotalIsMonthExpenses | frontend/src/components/Dashboard.tsx:83-99 | the month's expense total is the sum of the amounts of the expenses dated in the current month and year |
| Dashboard.MonthSavingsTotalIsMonthAdds | frontend/src/components/Dashboard.tsx:83-108 | the month's savings total is the sum of the saving `add` amounts in the current month; deducts and savings with no operation are excluded |
| Dashboard.OtherMonthsIgnored | frontend/src/components/Dashboard.tsx:83-87 | appending a record dated in another month or year changes none of the three monthly figures |
| Dashboard.MonthTotalsStep | frontend/src/components/Dashboard.tsx:94-108 | a record of the month adds its amount to the expense total if it is an expense, to the savings total if it is a saving `add`, and to neither otherwise |
| Dashboard.IncomeThenExpense | frontend/src/components/Dashboard.tsx:83-108 | a month with one income and one expense has that income, that expense total and no savings |
| Dashboard.RemainingBudgetCanBeNegative | frontend/src/components/Dashboard.tsx:187 | an income of 100 and an expense of 250 leave a remaining budget of -150 |
| Dashboard.Admits | frontend/src/components/Dashboard.tsx:129-137 | the dashboard's budget check on a draft: an income always passes; any other draft passes unless its amount exceeds the remaining budget |
| Dashboard.AdmissionRule | frontend/src/components/Dashboard.tsx:129-137 | an income is always posted; any other draft, a withdrawal included, is posted exactly when its amount is at most the remaining budget; an amount equal to it is posted |
| Dashboard.BudgetScenario | frontend/src/components/Dashboard.tsx:129-187 | income 50000 and expenses 10000 leave 40000; an expense of 45000 is refused and one of 40000 posted |
| Dashboard.SavingScenario | frontend/src/components/Dashboard.tsx:66-108 | saving 5000 and withdrawing 2000 leaves 3000 in the account while the month's savings total is 5000 |
| Dashboard.Charted | frontend/src/components/Dashboard.tsx:160 | a record is charted when it is an expense or a saving `add` |
| Dashboard.ChartLabel | frontend/src/components/Dashboard.tsx:161 | the bucket label of a record: its category, with ` (Saving)` appended for a saving |
| Dashboard.AddToChart | frontend/src/components/Dashboard.tsx:160-171 | one step of the chart accumulator: an expense or saving `add` raises the value of the bucket with its label, or appends a bucket with its label, amount and type when there is none; any other record changes nothing |
| Dashboard.ChartData | frontend/src/components/Dashboard.tsx:158-178 | the chart buckets of a list: the accumulator step applied to every record in order, starting from no buckets |
| Dashboard.ChartedLabelsStep | frontend/src/components/Dashboard.tsx:160-161 | one more record adds its label to the counted labels exactly when it is an expense or a saving `add` |
| Dashboard.LabelSeen | frontend/src/components/Dashboard.tsx:160-162 | a label is among the counted labels exactly when some counted record carries it |
| Dashboard.ValueSumUpdate | frontend/src/components/Dashboard.tsx:165 | raising one bucket's value changes the sum of all values by the same amount |
| Dashboard.NamesUpdate | frontend/src/components/Dashboard.tsx:165 | changing a bucket's value keeps every bucket's name |
| Dashboard.NamesAppend | frontend/src/components/Dashboard.tsx:167-171 | appending a bucket appends its name |
| Dashboard.FindEntryIsName | frontend/src/components/Dashboard.tsx:162 | the bucket search succeeds exactly when some bucket has the name, and finds one with that name |
| Dashboard.AddToChartNames | frontend/src/components/Dashboard.tsx:160-171 | one step adds the record's label to the bucket names exactly when the record is counted and no bucket has that name yet |
| Dashboard.ChartNamesStep | frontend/src/components/Dashboard.tsx:158-178 | if the bucket names are the distinct counted labels before a record, they are after it |
| Dashboard.ChartNamesAreDistinctLabels | frontend/src/components/Dashboard.tsx:158-178 | the bucket names are the distinct labels of the counted records, each at its first occurrence; savings are labelled `category (Saving)` |
| Dashboard.AddToChartTotal | frontend/src/components/Dashboard.tsx:160-171 | one step raises the sum of all bucket values by the record's amount exactly when it is counted |
| Dashboard.ChartTotalIsChartedTotal | frontend/src/components/Dashboard.tsx:158-178 | the values of all buckets sum to the total of all expenses and saving adds in the whole list |
| Dashboard.LabelTotalStep | frontend/src/components/Dashboard.tsx:165-169 | one more record adds its amount to a label's total exactly when it is counted under that label |
| Dashboard.ChartNamesDiffer | frontend/src/components/Dashboard.tsx:162-171 | two different buckets have different names |
| Dashboard.ChartNameSeen | frontend/src/components/Dashboard.tsx:167-171 | every bucket's name is the label of some counted record |
| Dashboard.ChartValueStep | frontend/src/components/Dashboard.tsx:164-171 | if every bucket holds its label's total before a record, every bucket does after it |
| Dashboard.ChartValuesAreLabelTotals | frontend/src/components/Dashboard.tsx:158-178 | each bucket's value is the sum of the amounts counted under its name |
| Dashboard.ChartKindStep | frontend/src/components/Dashboard.tsx:167-171 | if every bucket's type is that of the first record under its label before a record, that holds after it |
| Dashboard.ChartKindsAreFirstSeen | frontend/src/components/Dashboard.tsx:167-171 | each bucket carries the type of the first record that opened it |
| Dashboard.ChartLabelsUniqueInFirstSeenOrder | frontend/src/components/Dashboard.tsx:158-178 | bucket names have no repeats and follow the order in which the counted records first show them |
| Dashboard.MonthChartedIsMonthSpend | frontend/src/components/Dashboard.tsx:94-160 | over the current month only, the counted amounts sum to the expense total plus the savings total |
| Dashboard.ChartSpansOtherMonths | frontend/src/components/Dashboard.tsx:159 | an expense of an earlier year shows in the chart while the month's expense total ignores it |
| Dashboard.FindSlice | frontend/src/components/Dashboard.tsx:162 | the scan returns the position of the first bucket with the name, or the length when there is none |
| Dashboard.DashboardState.constructor | frontend/src/components/Dashboard.tsx:44-53 | the initial state: no transactions, SIB and KSFE at 0, all monthly figures 0 |
| Dashboard.DashboardState.CalculateBankBalances | frontend/src/components/Dashboard.tsx:66-76 | the stored balances become the balances of the list: credits minus withdrawals per account, SIB and KSFE always present |
| Dashboard.DashboardState.CalculateMonthlyStats | frontend/src/components/Dashboard.tsx:78-110 | the stored income, expense total and savings total become those of the list for the given month |
| Dashboard.DashboardState.FetchExpenses | frontend/src/components/Dashboard.tsx:55-64 | a failed request changes nothing; a successful one stores the list and leaves every stored figure agreeing with it |
| Dashboard.DashboardState.RemainingBudget | frontend/src/components/Dashboard.tsx:187 | with up-to-date figures, the remaining budget is the month's income minus its expenses and savings |
| Dashboard.DashboardState.HandleAddExpense | frontend/src/components/Dashboard.tsx:126-146 | the draft is posted exactly when the admission rule allows it against the stored figures, which is the ledger's remaining budget when they are up to date |
| Dashboard.DashboardState.PrepareChartData | frontend/src/components/Dashboard.tsx:158-178 | the find-then-update-or-push loop produces exactly the chart buckets of the stored list |
| ExpenseForm.InitialData | frontend/src/components/ExpenseForm.tsx:43-69 | the draft a new or just-submitted form holds: amount 0, empty category and description, type `expense`, no operation, today's date |
| ExpenseForm.ApplyChange | frontend/src/components/ExpenseForm.tsx:51-58 | the draft after one change event: the named field takes the new value, and choosing `saving` as the type also sets the operation to `add` |
| ExpenseForm.HandleChangeFrame | frontend/src/components/ExpenseForm.tsx:51-58 | a change writes its value into the named field and keeps every other field; choosing `saving` forces operation `add`; any other change but an operation change keeps the operation |
| ExpenseForm.FormSavingsCarryOperation | frontend/src/components/ExpenseForm.tsx:43-58 | every saving draft reachable from the initial form by change events carries an operation |
| ExpenseForm.StaleOperationAfterTypeChange | frontend/src/components/ExpenseForm.tsx:56 | switching a withdrawal back to expense leaves an expense draft that still carries `deduct` |
| ExpenseForm.StaleCategoryIntoSaving | frontend/src/components/ExpenseForm.tsx:51-58 | a category picked for an expense survives a switch to `saving`: the resulting deposit into "food" is enabled, admitted, accepted by the schema, and opens a "food" entry in the balance map |
| ExpenseForm.ToDraft | frontend/src/components/ExpenseForm.tsx:60-62 | the record handed to `onSubmit`: the draft's fields, with its description always present |
| ExpenseForm.SubmitDisabled | frontend/src/components/ExpenseForm.tsx:207-211 | the submit button is disabled when the draft is not an income, its amount exceeds the remaining budget, and it is not a saving withdrawal |
| ExpenseForm.SubmitDisabledByType | frontend/src/components/ExpenseForm.tsx:207-211 | an income is never disabled; an expense is disabled exactly when over budget; a saving exactly when over budget and not a withdrawal |
| ExpenseForm.DisabledDraftIsRefused | frontend/src/components/ExpenseForm.tsx:207-211 | whenever the form disables submit, the dashboard's admission check refuses the draft |
| ExpenseForm.OverBudgetWithdrawalGap | frontend/src/components/ExpenseForm.tsx:210 | an over-budget withdrawal is not disabled by the form, yet the dashboard refuses it |
| ExpenseForm.EnabledButRefusedIsOverBudgetWithdrawal | frontend/src/components/ExpenseForm.tsx:207-211 | a draft the form lets through and the dashboard refuses is always a `deduct` saving over the remaining budget |
| ExpenseForm.CategoryChoices | frontend/src/components/ExpenseForm.tsx:102-124 | a category field is offered exactly for expenses and savings |
| ExpenseForm.CategoryChoicesFacts | frontend/src/components/ExpenseForm.tsx:33-123 | expenses choose from seven distinct categories; the saving choices are SIB and KSFE, the same names as the schema's `savingCategory` list (the choice is written to `category`, which the schema does not restrict) |
| ExpenseForm.ChoiceLabelsNeverCollide | frontend/src/components/ExpenseForm.tsx:33-34 | an expense bucket and a saving bucket of the chart never share a label while both categories are among the form's choices or empty, also when a category survives a change of type |
| ExpenseForm.FreshIncomeDraftFailsSchema | frontend/src/components/ExpenseForm.tsx:43-102 | an income entered in a fresh form is neither disabled nor refused by the dashboard, but the schema refuses it for its empty category |
| ExpenseForm.FormState.constructor | frontend/src/components/ExpenseForm.tsx:43-49 | the form starts with amount 0, empty category and description, type `expense`, no operation |
| ExpenseForm.FormState.HandleChange | frontend/src/components/ExpenseForm.tsx:51-58 | the draft becomes the changed draft, and a saving draft keeps carrying an operation |
| ExpenseForm.FormState.HandleSubmit | frontend/src/components/ExpenseForm.tsx:60-70 | the draft as it was is handed on, and the form is reset to amount 0, empty category and description, type `expense`, no operation, today's date |
| ExpenseForm.FormState.Disabled | frontend/src/components/ExpenseForm.tsx:207-211 | a disabled button means the dashboard would refuse the current draft; an income draft never disables it |
| ExpenseList.Matches | frontend/src/components/ExpenseList.tsx:42-46 | a record passes the filter when the type filter is `all` or names its type, and the category filter is `all` or equals its category |
| ExpenseList.FilteredExpenses | frontend/src/components/ExpenseList.tsx:42-46 | every shown row passes the filter and there are no more rows than records |
| ExpenseList.FilteredIsOrderedSubsequence | frontend/src/components/ExpenseList.tsx:42-46 | the rows are records at ascending positions, and a record is shown exactly when it passes the filter |
| ExpenseList.KeptAndDropped | frontend/src/components/ExpenseList.tsx:43-44 | a shown row agrees with each filter that is not `all`; a record left out disagrees with at least one |
| ExpenseList.InitialFilterShowsEverything | frontend/src/components/ExpenseList.tsx:37-46 | with both filters at `all`, the rows are the whole list in order |
| ExpenseList.FilteringIsIdempotent | frontend/src/components/ExpenseList.tsx:42-46 | filtering the rows again changes nothing |
| ExpenseList.FiltersCompose | frontend/src/components/ExpenseList.tsx:43-44 | applying the type filter and then the category filter gives the combined filter's rows |
| ExpenseList.EmptyTableIffNoMatch | frontend/src/components/ExpenseList.tsx:150-156 | the "No transactions found" row shows exactly when no record passes the filter |
| ExpenseList.Categories | frontend/src/components/ExpenseList.tsx:48 | the category choices have no duplicates |
| ExpenseList.CategoriesArePresent | frontend/src/components/ExpenseList.tsx:48 | every choice has a record of that category, and every record's category is a choice |
| ExpenseList.FirstRecordOfCategory | frontend/src/components/ExpenseList.tsx:48 | the first record of a category is where that category first occurs |
| ExpenseList.CategoriesInFirstSeenOrder | frontend/src/components/ExpenseList.tsx:48 | choices are listed in the order of their first records |
| ExpenseList.ListedCategoryIsNonEmpty | frontend/src/components/ExpenseList.tsx:42-48 | with the type filter at `all`, choosing a listed category never empties the table |
| ExpenseList.RowColor | frontend/src/components/ExpenseList.tsx:50-61 | the row background: green tint for an income, blue for a saving `add`, orange for any other saving, none for an expense; the plain background marks exactly the expenses |
| ExpenseList.AmountColor | frontend/src/components/ExpenseList.tsx:63-68 | the amount colour is green for an income or a saving `add` and red otherwise; it is always one of the two |
| ExpenseList.AmountColourIsCredit | frontend/src/components/ExpenseList.tsx:63-68 | the amount is green exactly for an income or a saving `add`, red otherwise |
| ExpenseList.RowAndAmountColoursAgree | frontend/src/components/ExpenseList.tsx:50-68 | green amounts sit on the income or deposit background, red ones on the withdrawal or plain one, and only expenses are plain |
| ExpenseList.AmountColourFollowsBalance | frontend/src/components/ExpenseList.tsx:63-68 | for a positive saving that names its operation, green means the record raises its account's balance, and red that it lowers it |
| ExpenseList.FormSavingColourFollowsBalance | frontend/src/components/ExpenseList.tsx:63-68 | for a positive saving entered through the form, green means the record raises its account's balance |
| ExpenseList.UnmarkedSavingShownAsWithdrawal | frontend/src/components/ExpenseList.tsx:55-64 | appending any saving with no operation raises its account's balance by its amount, yet the list shows it with a red amount on the withdrawal background |
| ExpenseList.OperationCell | frontend/src/components/ExpenseList.tsx:137 | the operation cell shows a saving's operation (blank when it has none) and `-` for any other record |
| ExpenseList.OperationColumn | frontend/src/components/ExpenseList.tsx:137 | the cell reads `-` exactly for non-savings, and for a saving reads back as its operation |

## Left out

- The server's request handlers (listing, update, delete, the six-month statistics aggregation) and the server wiring are not part of this model. They are calls into the database library plus HTTP status mapping.
- The application shell (theme and layout) is not part of this model.
- Requests, their failures, alerts, console logging, React effects and re-rendering are not modelled. `FetchExpenses` takes the response as a parameter: `None` stands for a failed request. `HandleAddExpense` returns whether the draft is posted; the POST, the re-fetch and closing the dialog are not modelled.
- Deleting a transaction (`handleDeleteExpense` and the row's delete button) is a request followed by a re-fetch. It is not modelled.
- The statistics fetch (`fetchStats`) and the pie-colour lookup are presentational or server-side, and are not modelled.
- Currency formatting and `budgetUsagePercentage` are floating point and not modelled. The percentage also divides by an income that may be 0.
- Date handling is abstract. Parsing a date string, time zones and the `toISOString` of today's date are not modelled; a date is its year, month and day.
- Amounts are integers. The form's text field delivers the amount as a string, which JavaScript coerces when comparing; that coercion is not modelled.
- The schema's cast step is not modelled: a non-numeric amount or an unparsable date yields a cast error. Documents in the model already hold values of the cast types. The store's `_id` and timestamps are also left out.
- Validation on update is not modelled, only on creation of a new document.
- The browser's own enforcement is not modelled: the disabled button, and the `required` attribute on the category and operation selects. The model states what the predicate and the handlers do.
- Opening and closing the form's dialog is not modelled.
- The balance accumulator is a JavaScript object; the model uses a map from account name to balance. A saving whose category collides with a key the object inherits (`constructor`, `toString`, `__proto__`) is not modelled. The dashboard displays only the SIB and KSFE entries (Dashboard.tsx:239 and 251); the model keeps every account.
