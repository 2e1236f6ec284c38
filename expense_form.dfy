/** The transaction form: one draft record that change events edit field by field and
    that submitting hands to the dashboard and then resets; the category choices it
    offers for each type; and the predicate that disables its submit button. */
module ExpenseForm {

  import opened Wrappers
  import opened Sequences
  import opened ExpenseModel
  import Dashboard

  const EXPENSE_CATEGORIES: seq<string> :=
    ["rent", "office travel", "internet", "food", "purchase", "leisure", "home"]

  const SAVING_CATEGORIES: seq<string> := ["SIB", "KSFE"]

  /** The draft the form edits. No input of the form writes `savingCategory`. */
  datatype ExpenseData = ExpenseData(
    amount: int,
    category: string,
    date: Date,
    description: string,
    txType: TxType,
    savingCategory: Option<string>,
    operation: Option<Operation>)

  /** The draft a new or just-submitted form holds; `today` is the current date. */
  function InitialData(today: Date): ExpenseData
  {
    ExpenseData(0, "", today, "", Expense, None, None)
  }

  /** A change event: the input that fired it and the value it now shows. */
  datatype FieldChange =
    | AmountChange(amount: int)
    | CategoryChange(category: string)
    | DateChange(date: Date)
    | DescriptionChange(description: string)
    | TypeChange(txType: TxType)
    | OperationChange(operation: Operation)

  /** `handleChange`: the named field takes the new value, and a change of the type to
      `saving` also sets the operation to `add`. */
  function ApplyChange(prev: ExpenseData, change: FieldChange): ExpenseData
  {
    match change
    case AmountChange(a) => prev.(amount := a)
    case CategoryChange(c) => prev.(category := c)
    case DateChange(d) => prev.(date := d)
    case DescriptionChange(s) => prev.(description := s)
    case OperationChange(op) => prev.(operation := Some(op))
    case TypeChange(t) =>
      if t == Saving then prev.(txType := t, operation := Some(Add)) else prev.(txType := t)
  }

  datatype Field = AmountField | CategoryField | DateField | DescriptionField
                 | TypeField | SavingCategoryField | OperationField

  /** The field a change event names. */
  function Target(change: FieldChange): Field
  {
    match change
    case AmountChange(_) => AmountField
    case CategoryChange(_) => CategoryField
    case DateChange(_) => DateField
    case DescriptionChange(_) => DescriptionField
    case TypeChange(_) => TypeField
    case OperationChange(_) => OperationField
  }

  /** Whether two drafts hold the same value in field `f`. */
  predicate Agree(a: ExpenseData, b: ExpenseData, f: Field)
  {
    match f
    case AmountField => a.amount == b.amount
    case CategoryField => a.category == b.category
    case DateField => a.date == b.date
    case DescriptionField => a.description == b.description
    case TypeField => a.txType == b.txType
    case SavingCategoryField => a.savingCategory == b.savingCategory
    case OperationField => a.operation == b.operation
  }

  /** Whether `d` holds the value that `change` carries, in the field it names. */
  predicate Holds(d: ExpenseData, change: FieldChange)
  {
    match change
    case AmountChange(a) => d.amount == a
    case CategoryChange(c) => d.category == c
    case DateChange(v) => d.date == v
    case DescriptionChange(s) => d.description == s
    case TypeChange(t) => d.txType == t
    case OperationChange(op) => d.operation == Some(op)
  }

  /** A change event writes its value into the field it names and leaves every other
      field as it was, except that choosing `saving` as the type forces the operation
      to `add`. Any other type change keeps the operation, also a change from saving
      back to expense. */
  lemma HandleChangeFrame(prev: ExpenseData, change: FieldChange)
    ensures Holds(ApplyChange(prev, change), change)
    ensures forall f :: f != Target(change) && f != OperationField ==> Agree(prev, ApplyChange(prev, change), f)
    ensures change == TypeChange(Saving) ==> ApplyChange(prev, change).operation == Some(Add)
    ensures !change.OperationChange? && change != TypeChange(Saving) ==>
              ApplyChange(prev, change).operation == prev.operation
  {
  }

  /** The draft after a run of change events, applied in order. */
  function ApplyChanges(d: ExpenseData, changes: seq<FieldChange>): ExpenseData
    decreases |changes|
  {
    if changes == [] then d
    else ApplyChange(ApplyChanges(d, changes[..|changes| - 1]), changes[|changes| - 1])
  }

  /** A saving draft names its operation. */
  predicate SavingHasOperation(d: ExpenseData)
  {
    d.txType == Saving ==> d.operation.Some?
  }

  /** Every draft the form can reach from its initial state, by any run of change
      events, that is a saving carries an operation: choosing `saving` sets `add`, and
      nothing clears the operation again. */
  lemma {:induction false} FormSavingsCarryOperation(today: Date, changes: seq<FieldChange>)
    ensures SavingHasOperation(ApplyChanges(InitialData(today), changes))
    decreases |changes|
  {
    if changes != [] {
      FormSavingsCarryOperation(today, changes[..|changes| - 1]);
    }
  }

  /** Leaving the saving type keeps a withdrawal's `deduct`: the draft becomes an
      expense that still carries an operation. */
  lemma StaleOperationAfterTypeChange(today: Date)
    ensures var d := ApplyChange(ApplyChange(ApplyChange(InitialData(today), TypeChange(Saving)),
                                             OperationChange(Deduct)), TypeChange(Expense));
            d.txType == Expense && d.operation == Some(Deduct)
  {
  }

  /** Nothing ties the category to the type: a category picked for an expense survives a
      switch to `saving`. The result is a deposit into an account that is neither SIB nor
      KSFE. The form lets it through, the dashboard admits it, the schema accepts it,
      and the balance map gains a key for it. */
  lemma StaleCategoryIntoSaving(today: Date)
    ensures var d := ApplyChange(ApplyChange(InitialData(today), CategoryChange("food")), TypeChange(Saving));
            && d.txType == Saving && d.operation == Some(Add) && d.category == "food"
            && !SubmitDisabled(d, 0)
            && Dashboard.Admits(ToDraft(d), 0)
            && Validate(ToDocument(ToDraft(d))).Ok?
            && "food" in Dashboard.Balances([ToDraft(d)])
  {
    var t := ToDraft(ApplyChange(ApplyChange(InitialData(today), CategoryChange("food")), TypeChange(Saving)));
    assert [t][0].txType == Saving && [t][0].category == "food";
    assert "food" in Dashboard.Accounts([t]);
  }

  /** The draft as `onSubmit` receives it. */
  function ToDraft(d: ExpenseData): Transaction
  {
    Transaction(d.amount, d.category, d.date, Some(d.description), d.txType, d.savingCategory, d.operation)
  }

  /** The submit button's `disabled` expression against the `remainingBudget` prop. */
  predicate SubmitDisabled(d: ExpenseData, remainingBudget: int)
  {
    d.txType != Income && d.amount > remainingBudget && (d.txType != Saving || d.operation != Some(Deduct))
  }

  /** By type: an income draft is never disabled, whatever the budget; an expense is
      disabled exactly when it exceeds the remaining budget; a saving likewise, unless
      it is a withdrawal. */
  lemma SubmitDisabledByType(d: ExpenseData, remainingBudget: int)
    ensures d.txType == Income ==> !SubmitDisabled(d, remainingBudget)
    ensures d.txType == Expense ==> (SubmitDisabled(d, remainingBudget) <==> d.amount > remainingBudget)
    ensures d.txType == Saving ==>
              (SubmitDisabled(d, remainingBudget) <==> d.amount > remainingBudget && d.operation != Some(Deduct))
  {
  }

  /** Whenever the form disables submit, the dashboard's own check would refuse the
      draft too, against the same remaining budget. */
  lemma DisabledDraftIsRefused(d: ExpenseData, remainingBudget: int)
    requires SubmitDisabled(d, remainingBudget)
    ensures !Dashboard.Admits(ToDraft(d), remainingBudget)
  {
  }

  /** The converse fails: an over-budget withdrawal can be submitted, and the dashboard
      then refuses it, because its check does not exempt withdrawals. */
  lemma OverBudgetWithdrawalGap(today: Date)
    ensures var d := ExpenseData(500, "SIB", today, "", Saving, None, Some(Deduct));
            !SubmitDisabled(d, 100) && !Dashboard.Admits(ToDraft(d), 100)
  {
  }

  /** That withdrawal is the only gap: a draft the form lets through and the dashboard
      then refuses is always a `deduct` saving over the remaining budget. */
  lemma EnabledButRefusedIsOverBudgetWithdrawal(d: ExpenseData, remainingBudget: int)
    requires !SubmitDisabled(d, remainingBudget) && !Dashboard.Admits(ToDraft(d), remainingBudget)
    ensures d.txType == Saving && d.operation == Some(Deduct) && d.amount > remainingBudget
  {
  }

  /** The categories the form offers for a type; an income gets no category field. */
  function CategoryChoices(t: TxType): (r: Option<seq<string>>)
    ensures r.None? <==> t == Income
  {
    match t
    case Expense => Some(EXPENSE_CATEGORIES)
    case Saving => Some(SAVING_CATEGORIES)
    case Income => None
  }

  /** Expense categories are seven distinct names; the saving choices are the same
      names as the schema's `savingCategory` list, although the form writes the choice
      to `category`, which the schema leaves unrestricted. */
  lemma CategoryChoicesFacts()
    ensures CategoryChoices(Expense) == Some(EXPENSE_CATEGORIES) && |EXPENSE_CATEGORIES| == 7
    ensures NoDuplicates(EXPENSE_CATEGORIES)
    ensures CategoryChoices(Saving) == Some(SAVING_CATEGORIES)
    ensures forall c :: c in SAVING_CATEGORIES <==> c in SAVING_CATEGORY_ENUM
  {
  }

  /** An expense slice and a saving slice of the chart never share a label while each
      category is one the form offers or the empty one of a reset draft, also when a
      category was left over from a change of type. */
  lemma ChoiceLabelsNeverCollide(e: string, s: string, today: Date)
    requires e in EXPENSE_CATEGORIES + SAVING_CATEGORIES + [""]
    requires s in EXPENSE_CATEGORIES + SAVING_CATEGORIES + [""]
    ensures Dashboard.ChartLabel(Transaction(0, e, today, None, Expense, None, None))
         != Dashboard.ChartLabel(Transaction(0, s, today, None, Saving, None, Some(Add)))
  {
    var tagged := s + " (Saving)";
    assert tagged[|tagged| - 1] == ')';
    if |e| == |tagged| {
      assert e[|e| - 1] != ')';
    }
  }

  /** An income entered in a fresh form keeps the empty category of the reset draft:
      the dashboard posts it (an income is never checked against the budget), and the
      schema then refuses it for its missing category. */
  lemma FreshIncomeDraftFailsSchema(today: Date, amount: int, remainingBudget: int)
    ensures var d := ApplyChange(ApplyChange(InitialData(today), TypeChange(Income)), AmountChange(amount));
            && !SubmitDisabled(d, remainingBudget)
            && Dashboard.Admits(ToDraft(d), remainingBudget)
            && Validate(ToDocument(ToDraft(d))).Err?
            && Required("category") in Validate(ToDocument(ToDraft(d))).error
  {
  }

  /** The form's state: the draft record. */
  class FormState {
    var formData: ExpenseData

    constructor (today: Date)
      ensures formData == InitialData(today) && SavingHasOperation(formData)
    {
      formData := InitialData(today);
    }

    method HandleChange(change: FieldChange)
      modifies this
      ensures formData == ApplyChange(old(formData), change)
      ensures old(SavingHasOperation(formData)) ==> SavingHasOperation(formData)
    {
      match change
      case AmountChange(a) => formData := formData.(amount := a);
      case CategoryChange(c) => formData := formData.(category := c);
      case DateChange(d) => formData := formData.(date := d);
      case DescriptionChange(s) => formData := formData.(description := s);
      case OperationChange(op) => formData := formData.(operation := Some(op));
      case TypeChange(t) =>
        formData := formData.(txType := t);
        if t == Saving {
          formData := formData.(operation := Some(Add));
        }
    }

    /** `handleSubmit`: hands the draft to `onSubmit` and resets the form to amount 0,
        empty category and description, type `expense`, no operation, today's date. */
    method HandleSubmit(today: Date) returns (submitted: Transaction)
      modifies this
      ensures submitted == ToDraft(old(formData))
      ensures formData.amount == 0 && formData.category == "" && formData.description == ""
      ensures formData.txType == Expense && formData.operation == None && formData.savingCategory == None
      ensures formData.date == today
    {
      submitted := ToDraft(formData);
      formData := ExpenseData(0, "", today, "", Expense, None, None);
    }

    /** The submit button's state for the current draft. */
    function Disabled(remainingBudget: int): (r: bool)
      reads this
      ensures r ==> !Dashboard.Admits(ToDraft(formData), remainingBudget)
      ensures formData.txType == Income ==> !r
    {
      SubmitDisabled(formData, remainingBudget)
    }
  }
}
