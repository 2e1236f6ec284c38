/** The transaction table: the records that pass the type and category filters, the
    category choices of the filter (the distinct categories present), and what each
    row shows besides its plain fields: its background, the colour of its amount and
    its operation cell. */
module ExpenseList {

  import opened Wrappers
  import opened Sequences
  import opened ExpenseModel
  import Dashboard
  import ExpenseForm

  /** The wildcard value of both filters. */
  const ALL: string := "all"

  /** The filter state: a type name and a category, either of which may be `all`. */
  datatype ListFilter = ListFilter(txType: string, category: string)

  const INITIAL_FILTER: ListFilter := ListFilter(ALL, ALL)

  // ---------------------------------------------------------------------------
  // filteredExpenses

  /** A record passes when each filter that is not `all` names its type, resp. its
      category. */
  predicate Matches(f: ListFilter, t: Transaction)
  {
    && (f.txType == ALL || TypeName(t.txType) == f.txType)
    && (f.category == ALL || t.category == f.category)
  }

  function MatchesFilter(f: ListFilter): Transaction -> bool
  {
    (t: Transaction) => Matches(f, t)
  }

  /** The rows the table shows. */
  function FilteredExpenses(f: ListFilter, txs: seq<Transaction>): (r: seq<Transaction>)
    ensures |r| <= |txs|
    ensures forall k :: 0 <= k < |r| ==> Matches(f, r[k])
  {
    Filter(txs, MatchesFilter(f))
  }

  /** The rows are the records at ascending positions of the input, and a position is
      shown exactly when its record passes the filter. */
  lemma FilteredIsOrderedSubsequence(f: ListFilter, txs: seq<Transaction>)
    ensures var idx := FilterIndices(txs, MatchesFilter(f));
            && |idx| == |FilteredExpenses(f, txs)|
            && StrictlyIncreasing(idx)
            && (forall k :: 0 <= k < |idx| ==> idx[k] < |txs| && FilteredExpenses(f, txs)[k] == txs[idx[k]])
            && (forall i :: 0 <= i < |txs| ==> (i in idx <==> Matches(f, txs[i])))
  {
    FilterIsSubsequence(txs, MatchesFilter(f));
  }

  /** Every shown row agrees with each filter that is not `all`; every record left out
      disagrees with at least one of them. */
  lemma KeptAndDropped(f: ListFilter, txs: seq<Transaction>)
    ensures forall k :: 0 <= k < |FilteredExpenses(f, txs)| ==>
              && (f.txType != ALL ==> TypeName(FilteredExpenses(f, txs)[k].txType) == f.txType)
              && (f.category != ALL ==> FilteredExpenses(f, txs)[k].category == f.category)
    ensures forall i :: 0 <= i < |txs| && i !in FilterIndices(txs, MatchesFilter(f)) ==>
              || (f.txType != ALL && TypeName(txs[i].txType) != f.txType)
              || (f.category != ALL && txs[i].category != f.category)
  {
    FilterIsSubsequence(txs, MatchesFilter(f));
  }

  /** With both filters at `all`, as the table starts, every record is shown in order. */
  lemma InitialFilterShowsEverything(txs: seq<Transaction>)
    ensures FilteredExpenses(INITIAL_FILTER, txs) == txs
  {
    FilterKeepsAll(txs, MatchesFilter(INITIAL_FILTER));
  }

  /** Filtering the shown rows again with the same filter changes nothing. */
  lemma FilteringIsIdempotent(f: ListFilter, txs: seq<Transaction>)
    ensures FilteredExpenses(f, FilteredExpenses(f, txs)) == FilteredExpenses(f, txs)
  {
    FilterIdempotent(txs, MatchesFilter(f));
  }

  /** The two filters act independently: filtering by type and then by category gives
      the rows of the combined filter. */
  lemma FiltersCompose(ty: string, category: string, txs: seq<Transaction>)
    ensures FilteredExpenses(ListFilter(ALL, category), FilteredExpenses(ListFilter(ty, ALL), txs))
         == FilteredExpenses(ListFilter(ty, category), txs)
  {
    FilterCompose(txs, MatchesFilter(ListFilter(ty, ALL)), MatchesFilter(ListFilter(ALL, category)),
                  MatchesFilter(ListFilter(ty, category)));
  }

  /** The "No transactions found" row appears exactly when no record passes. */
  lemma EmptyTableIffNoMatch(f: ListFilter, txs: seq<Transaction>)
    ensures FilteredExpenses(f, txs) == [] <==> forall i :: 0 <= i < |txs| ==> !Matches(f, txs[i])
  {
    FilterIsSubsequence(txs, MatchesFilter(f));
    var idx := FilterIndices(txs, MatchesFilter(f));
    if FilteredExpenses(f, txs) != [] {
      assert Matches(f, txs[idx[0]]);
    }
  }

  // ---------------------------------------------------------------------------
  // categories

  function CategoryOf(t: Transaction): string { t.category }

  function HasCategory(c: string): Transaction -> bool
  {
    (t: Transaction) => t.category == c
  }

  /** The choices of the category filter: each category present, once. */
  function Categories(txs: seq<Transaction>): (r: seq<string>)
    ensures NoDuplicates(r)
  {
    Distinct(Map(txs, CategoryOf))
  }

  /** The first record of a listed category sits where the category first occurs. */
  lemma {:induction false} FirstRecordOfCategory(txs: seq<Transaction>, c: string)
    requires c in Map(txs, CategoryOf)
    ensures FindIndex(txs, HasCategory(c)).Some?
    ensures FindIndex(txs, HasCategory(c)).value == FirstIndex(Map(txs, CategoryOf), c)
  {
    var m := Map(txs, CategoryOf);
    MapAt(txs, CategoryOf);
    var i := FirstIndex(m, c);
    assert HasCategory(c)(txs[i]);
    var r := FindIndex(txs, HasCategory(c));
    assert r.Some?;
    assert r.value <= i;
    assert m[r.value] == c;
  }

  /** The choices are exactly the categories of the records: each choice has a record
      of that category, and each record's category is a choice. */
  lemma {:induction false} CategoriesArePresent(txs: seq<Transaction>)
    ensures forall k :: 0 <= k < |Categories(txs)| ==> FindIndex(txs, HasCategory(Categories(txs)[k])).Some?
    ensures forall i :: 0 <= i < |txs| ==> txs[i].category in Categories(txs)
  {
    var m := Map(txs, CategoryOf);
    MapAt(txs, CategoryOf);
    forall k | 0 <= k < |Categories(txs)|
      ensures FindIndex(txs, HasCategory(Categories(txs)[k])).Some?
    {
      FirstRecordOfCategory(txs, Categories(txs)[k]);
    }
    forall i | 0 <= i < |txs|
      ensures txs[i].category in Categories(txs)
    {
      assert m[i] == txs[i].category;
    }
  }

  /** The choices are listed in the order in which their first records appear. */
  lemma {:induction false} CategoriesInFirstSeenOrder(txs: seq<Transaction>)
    ensures forall i, j :: 0 <= i < j < |Categories(txs)| ==>
              && FindIndex(txs, HasCategory(Categories(txs)[i])).Some?
              && FindIndex(txs, HasCategory(Categories(txs)[j])).Some?
              && FindIndex(txs, HasCategory(Categories(txs)[i])).value
                 < FindIndex(txs, HasCategory(Categories(txs)[j])).value
  {
    var m := Map(txs, CategoryOf);
    var cats := Categories(txs);
    DistinctInFirstSeenOrder(m);
    forall k | 0 <= k < |cats|
      ensures FindIndex(txs, HasCategory(cats[k])).Some?
      ensures FindIndex(txs, HasCategory(cats[k])).value == FirstIndex(m, cats[k])
    {
      FirstRecordOfCategory(txs, cats[k]);
    }
  }

  /** Choosing a listed category (with the type filter at `all`) never empties the table. */
  lemma ListedCategoryIsNonEmpty(txs: seq<Transaction>, c: string)
    requires c in Categories(txs)
    ensures FilteredExpenses(ListFilter(ALL, c), txs) != []
  {
    CategoriesArePresent(txs);
    var k :| 0 <= k < |Categories(txs)| && Categories(txs)[k] == c;
    var i := FindIndex(txs, HasCategory(c)).value;
    assert Matches(ListFilter(ALL, c), txs[i]);
    EmptyTableIffNoMatch(ListFilter(ALL, c), txs);
  }

  // ---------------------------------------------------------------------------
  // Row and amount colours, operation column

  const INCOME_ROW: string := "rgba(76, 175, 80, 0.1)"
  const SAVING_ADD_ROW: string := "rgba(33, 150, 243, 0.1)"
  const SAVING_OTHER_ROW: string := "rgba(255, 152, 0, 0.1)"
  const PLAIN_ROW: string := "inherit"

  const CREDIT_COLOUR: string := "success.main"
  const DEBIT_COLOUR: string := "error.main"

  /** `getRowColor`; a saving that is not an `add`, also one with no operation, gets the
      withdrawal colour. */
  function RowColor(t: Transaction): (r: string)
    ensures r == PLAIN_ROW <==> t.txType == Expense
  {
    match t.txType
    case Income => INCOME_ROW
    case Saving => if t.operation == Some(Add) then SAVING_ADD_ROW else SAVING_OTHER_ROW
    case Expense => PLAIN_ROW
  }

  /** `getAmountColor`. */
  function AmountColor(t: Transaction): (r: string)
    ensures r == CREDIT_COLOUR || r == DEBIT_COLOUR
  {
    if t.txType == Income || (t.txType == Saving && t.operation == Some(Add)) then CREDIT_COLOUR
    else DEBIT_COLOUR
  }

  /** The amount is green exactly for the records the dashboard counts as money in:
      an income, or a saving `add`. Everything else is red. */
  lemma AmountColourIsCredit(t: Transaction)
    ensures AmountColor(t) == CREDIT_COLOUR <==> Dashboard.IsIncome(t) || Dashboard.IsSavingAdd(t)
    ensures AmountColor(t) == DEBIT_COLOUR <==> !(Dashboard.IsIncome(t) || Dashboard.IsSavingAdd(t))
  {
  }

  /** Background and amount agree: a green amount has the income or the deposit
      background, a red one the withdrawal or the plain one; only expenses are plain. */
  lemma RowAndAmountColoursAgree(t: Transaction)
    ensures AmountColor(t) == CREDIT_COLOUR <==> RowColor(t) == INCOME_ROW || RowColor(t) == SAVING_ADD_ROW
    ensures AmountColor(t) == DEBIT_COLOUR <==> RowColor(t) == SAVING_OTHER_ROW || RowColor(t) == PLAIN_ROW
    ensures RowColor(t) == PLAIN_ROW <==> t.txType == Expense
  {
    assert INCOME_ROW[5] != SAVING_OTHER_ROW[5];
    assert |INCOME_ROW| != |SAVING_ADD_ROW|;
    assert |SAVING_ADD_ROW| != |SAVING_OTHER_ROW|;
  }

  /** For a saving of positive amount that names its operation, the amount is green
      exactly when the record raises its account's balance. */
  lemma AmountColourFollowsBalance(txs: seq<Transaction>, t: Transaction)
    requires t.txType == Saving && t.operation.Some? && t.amount > 0
    ensures AmountColor(t) == CREDIT_COLOUR <==>
            Dashboard.AccountBalance(txs + [t], t.category) > Dashboard.AccountBalance(txs, t.category)
  {
    Dashboard.AccountBalanceStep(txs, t, t.category);
    match t.operation.value
    case Add =>
    case Deduct => assert |CREDIT_COLOUR| != |DEBIT_COLOUR|;
  }

  /** A saving entered through the form always names its operation, so its colour
      follows the balance. The store may still hold a saving without one (the schema
      does not require it): such a record is credited to its account, yet shown red on
      the withdrawal background. */
  lemma FormSavingColourFollowsBalance(txs: seq<Transaction>, today: Date, changes: seq<ExpenseForm.FieldChange>)
    requires var d := ExpenseForm.ApplyChanges(ExpenseForm.InitialData(today), changes);
             d.txType == Saving && d.amount > 0
    ensures var t := ExpenseForm.ToDraft(ExpenseForm.ApplyChanges(ExpenseForm.InitialData(today), changes));
            AmountColor(t) == CREDIT_COLOUR <==>
            Dashboard.AccountBalance(txs + [t], t.category) > Dashboard.AccountBalance(txs, t.category)
  {
    ExpenseForm.FormSavingsCarryOperation(today, changes);
    AmountColourFollowsBalance(txs, ExpenseForm.ToDraft(ExpenseForm.ApplyChanges(ExpenseForm.InitialData(today), changes)));
  }

  /** A stored saving with no operation is credited to its account, yet the list shows
      it as a withdrawal: a red amount on the orange background. */
  lemma UnmarkedSavingShownAsWithdrawal(txs: seq<Transaction>, t: Transaction)
    requires t.txType == Saving && t.operation.None?
    ensures AmountColor(t) == DEBIT_COLOUR
    ensures RowColor(t) == SAVING_OTHER_ROW
    ensures Dashboard.AccountBalance(txs + [t], t.category) == Dashboard.AccountBalance(txs, t.category) + t.amount
  {
    Dashboard.AccountBalanceStep(txs, t, t.category);
  }

  /** The operation column: the operation of a saving (empty when it has none), `-`
      for any other record. */
  function OperationCell(t: Transaction): string
  {
    if t.txType == Saving then
      match t.operation
      case Some(op) => OperationName(op)
      case None => ""
    else "-"
  }

  /** The cell reads `-` exactly for records that are not savings, and for a saving it
      reads back as the record's operation. */
  lemma OperationColumn(t: Transaction)
    ensures OperationCell(t) == "-" <==> t.txType != Saving
    ensures t.txType == Saving ==> ParseOperation(OperationCell(t)) == t.operation
  {
  }
}
