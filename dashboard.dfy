/** The ledger figures the dashboard derives on the client from the fetched list of
    transactions: the balance of each savings account, the current month's income,
    expense total and savings total, the remaining budget, the admission check made
    before a new transaction is posted, and the buckets of the distribution chart.
    "Now" is a parameter; the month and year of a date are compared abstractly. */
module Dashboard {

  import opened Wrappers
  import opened Sequences
  import opened ExpenseModel

  // ---------------------------------------------------------------------------
  // Sums of amounts

  /** The sum of the amounts of the records that satisfy `keep`: a `reduce` that adds
      an amount when the record passes and otherwise carries the total unchanged. */
  function Total(txs: seq<Transaction>, keep: Transaction -> bool): int
    decreases |txs|
  {
    if txs == [] then 0
    else Total(txs[..|txs| - 1], keep) + (if keep(txs[|txs| - 1]) then txs[|txs| - 1].amount else 0)
  }

  lemma {:induction false} TotalOfNone(txs: seq<Transaction>, keep: Transaction -> bool)
    requires forall k :: 0 <= k < |txs| ==> !keep(txs[k])
    ensures Total(txs, keep) == 0
    decreases |txs|
  {
    if txs != [] {
      TotalOfNone(txs[..|txs| - 1], keep);
    }
  }

  lemma {:induction false} TotalAppend(a: seq<Transaction>, b: seq<Transaction>, keep: Transaction -> bool)
    ensures Total(a + b, keep) == Total(a, keep) + Total(b, keep)
    decreases |b|
  {
    if b == [] {
      assert a + b == a;
    } else {
      var n := |b| - 1;
      assert (a + b)[..|a + b| - 1] == a + b[..n];
      TotalAppend(a, b[..n], keep);
    }
  }

  /** Summing over a filtered list is summing over the whole list the records that
      pass both tests. */
  lemma {:induction false} TotalOfFilter(txs: seq<Transaction>, keep: Transaction -> bool,
                                        p: Transaction -> bool, both: Transaction -> bool)
    requires forall x :: both(x) == (keep(x) && p(x))
    ensures Total(Filter(txs, keep), p) == Total(txs, both)
    decreases |txs|
  {
    if txs != [] {
      var n := |txs| - 1;
      TotalOfFilter(txs[..n], keep, p, both);
      var f := Filter(txs[..n], keep);
      assert both(txs[n]) == (keep(txs[n]) && p(txs[n]));
      if keep(txs[n]) {
        assert Filter(txs, keep) == f + [txs[n]];
        assert (f + [txs[n]])[..|f + [txs[n]]| - 1] == f;
      } else {
        assert Filter(txs, keep) == f;
      }
    }
  }

  /** A sum over a test that is the disjoint union of two tests splits in two. */
  lemma {:induction false} TotalSplit(txs: seq<Transaction>, keep: Transaction -> bool,
                                     a: Transaction -> bool, b: Transaction -> bool)
    requires forall x :: keep(x) == (a(x) || b(x))
    requires forall x :: !(a(x) && b(x))
    ensures Total(txs, keep) == Total(txs, a) + Total(txs, b)
    decreases |txs|
  {
    if txs != [] {
      TotalSplit(txs[..|txs| - 1], keep, a, b);
    }
  }

  // ---------------------------------------------------------------------------
  // Savings account balances (calculateBankBalances)

  predicate IsSavingOf(t: Transaction, account: string)
  {
    t.txType == Saving && t.category == account
  }

  /** What one saving record does to its account: a `deduct` takes its amount off,
      anything else (an `add`, or no operation at all) puts it on. */
  function SavingDelta(t: Transaction): int
  {
    if t.operation == Some(Deduct) then -t.amount else t.amount
  }

  /** Savings of `account` that are not withdrawals. */
  function Credits(txs: seq<Transaction>, account: string): int
  {
    Total(txs, (t: Transaction) => IsSavingOf(t, account) && t.operation != Some(Deduct))
  }

  /** Withdrawals from `account`. */
  function Debits(txs: seq<Transaction>, account: string): int
  {
    Total(txs, (t: Transaction) => IsSavingOf(t, account) && t.operation == Some(Deduct))
  }

  function AccountBalance(txs: seq<Transaction>, account: string): int
  {
    Credits(txs, account) - Debits(txs, account)
  }

  /** The accounts the balance map holds: the two it is seeded with and every category
      that a saving record names. */
  function Accounts(txs: seq<Transaction>): set<string>
  {
    {"SIB", "KSFE"} + set k | 0 <= k < |txs| && txs[k].txType == Saving :: txs[k].category
  }

  /** The balances `calculateBankBalances` computes: credits minus debits per account. */
  function Balances(txs: seq<Transaction>): map<string, int>
  {
    map a | a in Accounts(txs) :: AccountBalance(txs, a)
  }

  lemma {:induction false} AccountBalanceStep(txs: seq<Transaction>, t: Transaction, account: string)
    ensures AccountBalance(txs + [t], account) ==
            AccountBalance(txs, account) + (if IsSavingOf(t, account) then SavingDelta(t) else 0)
  {
    assert (txs + [t])[..|txs|] == txs;
  }

  /** An account no saving record names has balance zero. */
  lemma {:induction false} UnnamedAccountIsZero(txs: seq<Transaction>, account: string)
    requires forall k :: 0 <= k < |txs| ==> !IsSavingOf(txs[k], account)
    ensures AccountBalance(txs, account) == 0
  {
    TotalOfNone(txs, (t: Transaction) => IsSavingOf(t, account) && t.operation != Some(Deduct));
    TotalOfNone(txs, (t: Transaction) => IsSavingOf(t, account) && t.operation == Some(Deduct));
  }

  /** The accounts after one more record: a saving adds its category. */
  lemma {:induction false} AccountsStep(txs: seq<Transaction>, t: Transaction)
    ensures Accounts(txs + [t]) == Accounts(txs) + (if t.txType == Saving then {t.category} else {})
  {
    var s := txs + [t];
    assert forall k :: 0 <= k < |txs| ==> s[k] == txs[k];
    forall a | a in Accounts(s)
      ensures a in Accounts(txs) + (if t.txType == Saving then {t.category} else {})
    {
      if a !in {"SIB", "KSFE"} {
        var k :| 0 <= k < |s| && s[k].txType == Saving && s[k].category == a;
        if k < |txs| {
          assert txs[k].txType == Saving;
        }
      }
    }
    forall a | a in Accounts(txs)
      ensures a in Accounts(s)
    {
      if a !in {"SIB", "KSFE"} {
        var k :| 0 <= k < |txs| && txs[k].txType == Saving && txs[k].category == a;
        assert s[k] == txs[k];
      }
    }
    if t.txType == Saving {
      assert s[|txs|] == t;
    }
  }

  /** A category no saving record names yet starts from a zero balance. */
  lemma NewAccountIsZero(txs: seq<Transaction>, account: string)
    requires account !in Accounts(txs)
    ensures AccountBalance(txs, account) == 0
  {
    forall k | 0 <= k < |txs|
      ensures !IsSavingOf(txs[k], account)
    {
      assert txs[k].txType == Saving ==> txs[k].category in Accounts(txs);
    }
    UnnamedAccountIsZero(txs, account);
  }

  /** One step of the `reduce`: a saving record adds its signed amount to the entry
      of its category (`acc[category] || 0`, so a new category starts from zero);
      any other record leaves the map as it was. */
  function BalanceUpdate(acc: map<string, int>, t: Transaction): map<string, int>
  {
    if t.txType == Saving then acc[t.category := (if t.category in acc then acc[t.category] else 0) + SavingDelta(t)]
    else acc
  }

  /** The balance map of a longer list is one accumulator step on that of the shorter. */
  lemma {:induction false} BalancesStep(txs: seq<Transaction>, t: Transaction)
    ensures Balances(txs + [t]) == BalanceUpdate(Balances(txs), t)
  {
    var s := txs + [t];
    var m := Balances(txs);
    var m' := Balances(s);
    AccountsStep(txs, t);
    if t.txType == Saving {
      var c := t.category;
      if c !in m {
        NewAccountIsZero(txs, c);
      }
      var updated := m[c := (if c in m then m[c] else 0) + SavingDelta(t)];
      forall a | a in m'
        ensures a in updated && m'[a] == updated[a]
      {
        AccountBalanceStep(txs, t, a);
      }
      assert m'.Keys == updated.Keys;
    } else {
      forall a | a in m'
        ensures a in m && m'[a] == m[a]
      {
        AccountBalanceStep(txs, t, a);
      }
      assert m'.Keys == m.Keys;
    }
  }

  /** SIB and KSFE are keys of the balance map of every list. */
  lemma SeededAccountsAlwaysPresent(txs: seq<Transaction>)
    ensures "SIB" in Balances(txs) && "KSFE" in Balances(txs)
  {
  }

  /** The seeded accounts report zero when no saving record names them. */
  lemma SeededAccountsStartAtZero(txs: seq<Transaction>, account: string)
    requires account == "SIB" || account == "KSFE"
    requires forall k :: 0 <= k < |txs| ==> !IsSavingOf(txs[k], account)
    ensures account in Balances(txs) && Balances(txs)[account] == 0
  {
    UnnamedAccountIsZero(txs, account);
  }

  predicate IsSaving(t: Transaction) { t.txType == Saving }

  /** Expense and income records never move a balance: dropping them all leaves the
      balance map as it was. */
  lemma {:induction false} OnlySavingsMoveBalances(txs: seq<Transaction>)
    ensures Balances(Filter(txs, IsSaving)) == Balances(txs)
    decreases |txs|
  {
    if txs != [] {
      var n := |txs| - 1;
      var init := txs[..n];
      var t := txs[n];
      OnlySavingsMoveBalances(init);
      assert init + [t] == txs;
      var f := Filter(init, IsSaving);
      BalancesStep(init, t);
      if IsSaving(t) {
        assert Filter(txs, IsSaving) == f + [t];
        BalancesStep(f, t);
      } else {
        assert Filter(txs, IsSaving) == f;
      }
    }
  }

  // ---------------------------------------------------------------------------
  // Current-month figures (calculateMonthlyStats)

  predicate InMonth(d: Date, now: Date)
  {
    d.month == now.month && d.year == now.year
  }

  function CurrentMonthData(txs: seq<Transaction>, now: Date): seq<Transaction>
  {
    Filter(txs, (t: Transaction) => InMonth(t.date, now))
  }

  predicate IsIncome(t: Transaction) { t.txType == Income }

  predicate IsExpense(t: Transaction) { t.txType == Expense }

  predicate IsSavingAdd(t: Transaction) { t.txType == Saving && t.operation == Some(Add) }

  predicate IsMonthIncome(t: Transaction, now: Date) { IsIncome(t) && InMonth(t.date, now) }

  /** The amount of the first income record of the month (`find`, not a sum), or 0. */
  function MonthlyIncome(txs: seq<Transaction>, now: Date): int
  {
    var data := CurrentMonthData(txs, now);
    match FindIndex(data, IsIncome)
    case Some(i) => data[i].amount
    case None => 0
  }

  function MonthExpenseTotal(txs: seq<Transaction>, now: Date): int
  {
    Total(CurrentMonthData(txs, now), IsExpense)
  }

  function MonthSavingsTotal(txs: seq<Transaction>, now: Date): int
  {
    Total(CurrentMonthData(txs, now), IsSavingAdd)
  }

  /** Income minus what the month has spent and saved (`remainingBudget`). */
  function RemainingBudgetOf(txs: seq<Transaction>, now: Date): int
  {
    MonthlyIncome(txs, now) - (MonthExpenseTotal(txs, now) + MonthSavingsTotal(txs, now))
  }

  /** The monthly income is the amount of the first record, in list order, that is an
      income dated in the current month and year; with no such record it is 0. */
  lemma MonthlyIncomeIsFirstMatch(txs: seq<Transaction>, now: Date)
    ensures (forall i :: 0 <= i < |txs| ==> !IsMonthIncome(txs[i], now)) ==> MonthlyIncome(txs, now) == 0
    ensures forall i :: 0 <= i < |txs| && IsMonthIncome(txs[i], now) &&
                        (forall j :: 0 <= j < i ==> !IsMonthIncome(txs[j], now)) ==>
                        MonthlyIncome(txs, now) == txs[i].amount
  {
    var both := (t: Transaction) => IsMonthIncome(t, now);
    FindIndexInFilter(txs, (t: Transaction) => InMonth(t.date, now), IsIncome, both);
    var found := FindIndex(txs, both);
    forall i | 0 <= i < |txs| && IsMonthIncome(txs[i], now) &&
               (forall j :: 0 <= j < i ==> !IsMonthIncome(txs[j], now))
      ensures found == Some(i)
    {
      assert both(txs[i]);
      assert found.Some?;
      assert both(txs[found.value]);
    }
  }

  /** Two income records of the month: the first one is the income, not their sum. */
  lemma FirstIncomeWins(now: Date)
    ensures var a := Transaction(1000, "", now, None, Income, None, None);
            var b := Transaction(2000, "", now, None, Income, None, None);
            MonthlyIncome([a, b], now) == 1000
  {
    var a := Transaction(1000, "", now, None, Income, None, None);
    var b := Transaction(2000, "", now, None, Income, None, None);
    MonthlyIncomeIsFirstMatch([a, b], now);
    assert IsMonthIncome([a, b][0], now);
  }

  /** The expense total is the sum of the expenses dated in the current month. */
  lemma MonthExpenseTotalIsMonthExpenses(txs: seq<Transaction>, now: Date)
    ensures MonthExpenseTotal(txs, now) == Total(txs, (t: Transaction) => IsExpense(t) && InMonth(t.date, now))
  {
    TotalOfFilter(txs, (t: Transaction) => InMonth(t.date, now), IsExpense, (t: Transaction) => IsExpense(t) && InMonth(t.date, now));
  }

  /** The savings total is the sum of the saving `add`s dated in the current month. */
  lemma MonthSavingsTotalIsMonthAdds(txs: seq<Transaction>, now: Date)
    ensures MonthSavingsTotal(txs, now) == Total(txs, (t: Transaction) => IsSavingAdd(t) && InMonth(t.date, now))
  {
    TotalOfFilter(txs, (t: Transaction) => InMonth(t.date, now), IsSavingAdd, (t: Transaction) => IsSavingAdd(t) && InMonth(t.date, now));
  }

  /** A record dated outside the current month changes none of the month's figures. */
  lemma {:induction false} OtherMonthsIgnored(txs: seq<Transaction>, t: Transaction, now: Date)
    requires !InMonth(t.date, now)
    ensures MonthlyIncome(txs + [t], now) == MonthlyIncome(txs, now)
    ensures MonthExpenseTotal(txs + [t], now) == MonthExpenseTotal(txs, now)
    ensures MonthSavingsTotal(txs + [t], now) == MonthSavingsTotal(txs, now)
  {
    assert (txs + [t])[..|txs|] == txs;
    assert CurrentMonthData(txs + [t], now) == CurrentMonthData(txs, now);
  }

  /** A record of the current month adds its amount to the expense total when it is an
      expense and to the savings total when it is a saving `add`; a saving `deduct` and
      a saving without operation add to neither. */
  lemma {:induction false} MonthTotalsStep(txs: seq<Transaction>, t: Transaction, now: Date)
    requires InMonth(t.date, now)
    ensures MonthExpenseTotal(txs + [t], now) ==
            MonthExpenseTotal(txs, now) + (if t.txType == Expense then t.amount else 0)
    ensures MonthSavingsTotal(txs + [t], now) ==
            MonthSavingsTotal(txs, now) + (if t.txType == Saving && t.operation == Some(Add) then t.amount else 0)
  {
    assert (txs + [t])[..|txs|] == txs;
    var d := CurrentMonthData(txs, now);
    assert CurrentMonthData(txs + [t], now) == d + [t];
    assert (d + [t])[..|d|] == d;
  }

  /** The month's figures for a list of just an income and then an expense. */
  lemma {:induction false} IncomeThenExpense(inc: Transaction, exp: Transaction, now: Date)
    requires IsMonthIncome(inc, now) && IsExpense(exp) && InMonth(exp.date, now)
    ensures MonthlyIncome([inc, exp], now) == inc.amount
    ensures MonthExpenseTotal([inc, exp], now) == exp.amount
    ensures MonthSavingsTotal([inc, exp], now) == 0
  {
    var s := [inc, exp];
    FilterKeepsAll(s, (t: Transaction) => InMonth(t.date, now));
    assert CurrentMonthData(s, now) == s;
    assert FindIndex(s, IsIncome) == Some(0);
    assert s[..1] == [inc];
    assert Total([inc], IsExpense) == 0 && Total([inc], IsSavingAdd) == 0;
    assert Total(s, IsExpense) == exp.amount;
    assert Total(s, IsSavingAdd) == 0;
  }

  /** Remaining budget may be negative: an over-spent month reports the deficit. */
  lemma RemainingBudgetCanBeNegative(now: Date)
    ensures var inc := Transaction(100, "", now, None, Income, None, None);
            var exp := Transaction(250, "food", now, None, Expense, None, None);
            RemainingBudgetOf([inc, exp], now) == -150
  {
    IncomeThenExpense(Transaction(100, "", now, None, Income, None, None),
                      Transaction(250, "food", now, None, Expense, None, None), now);
  }

  // ---------------------------------------------------------------------------
  // Admission check (handleAddExpense)

  /** Whether `handleAddExpense` posts `draft` against `remaining`: an income is always
      posted; any other draft, a savings withdrawal included, is refused exactly when
      its amount exceeds the remaining budget. */
  predicate Admits(draft: Transaction, remaining: int): (r: bool)
    ensures draft.txType == Income ==> r
  {
    draft.txType == Income || !(draft.amount > remaining)
  }

  lemma AdmissionRule(draft: Transaction, remaining: int)
    ensures draft.txType == Income ==> Admits(draft, remaining)
    ensures draft.txType != Income ==> (Admits(draft, remaining) <==> draft.amount <= remaining)
    ensures draft.amount == remaining ==> Admits(draft, remaining)
  {
  }

  /** With an income of 50000 and expenses of 10000 this month, 40000 is left: a new
      expense of 45000 is refused and one of 40000 is posted. */
  lemma BudgetScenario(now: Date)
    ensures var inc := Transaction(50000, "", now, None, Income, None, None);
            var exp := Transaction(10000, "food", now, None, Expense, None, None);
            var rb := RemainingBudgetOf([inc, exp], now);
            rb == 40000
            && !Admits(Transaction(45000, "rent", now, None, Expense, None, None), rb)
            && Admits(Transaction(40000, "rent", now, None, Expense, None, None), rb)
  {
    IncomeThenExpense(Transaction(50000, "", now, None, Income, None, None),
                      Transaction(10000, "food", now, None, Expense, None, None), now);
  }

  /** Saving 5000 into an account and withdrawing 2000 leaves 3000 there, while the
      month's savings total counts only the 5000. */
  lemma SavingScenario(now: Date, account: string)
    ensures var add := Transaction(5000, account, now, None, Saving, None, Some(Add));
            var ded := Transaction(2000, account, now, None, Saving, None, Some(Deduct));
            account in Balances([add, ded]) && Balances([add, ded])[account] == 3000 && MonthSavingsTotal([add, ded], now) == 5000
  {
    var add := Transaction(5000, account, now, None, Saving, None, Some(Add));
    var ded := Transaction(2000, account, now, None, Saving, None, Some(Deduct));
    assert [] + [add] == [add];
    assert [add] + [ded] == [add, ded];
    BalancesStep([], add);
    BalancesStep([add], ded);
    MonthTotalsStep([], add, now);
    MonthTotalsStep([add], ded, now);
  }

  // ---------------------------------------------------------------------------
  // Distribution chart (prepareChartData)

  /** One slice of the chart: a label, the summed amount, and the type of the record
      that opened the slice. */
  datatype ChartEntry = ChartEntry(name: string, value: int, kind: TxType)

  /** The records the chart counts: expenses and saving `add`s. */
  predicate Charted(t: Transaction)
  {
    t.txType == Expense || IsSavingAdd(t)
  }

  /** A saving's slice is labelled with its account and " (Saving)". */
  function ChartLabel(t: Transaction): string
  {
    if t.txType == Saving then t.category + " (Saving)" else t.category
  }

  function EntryName(e: ChartEntry): string { e.name }

  function HasLabel(name: string): Transaction -> bool
  {
    (t: Transaction) => Charted(t) && ChartLabel(t) == name
  }

  /** The position of the slice called `name` (`acc.find(item => item.name === name)`). */
  function FindEntry(acc: seq<ChartEntry>, name: string): Option<nat>
  {
    FindIndex(acc, (e: ChartEntry) => e.name == name)
  }

  /** One step of the `reduce`: a counted record adds its amount to the slice of its
      label, or opens a new slice at the end. */
  function AddToChart(acc: seq<ChartEntry>, t: Transaction): seq<ChartEntry>
  {
    if !Charted(t) then acc
    else match FindEntry(acc, ChartLabel(t))
      case Some(k) => acc[k := acc[k].(value := acc[k].value + t.amount)]
      case None => acc + [ChartEntry(ChartLabel(t), t.amount, t.txType)]
  }

  function ChartData(txs: seq<Transaction>): seq<ChartEntry>
    decreases |txs|
  {
    if txs == [] then [] else AddToChart(ChartData(txs[..|txs| - 1]), txs[|txs| - 1])
  }

  function ValueSum(acc: seq<ChartEntry>): int
    decreases |acc|
  {
    if acc == [] then 0 else ValueSum(acc[..|acc| - 1]) + acc[|acc| - 1].value
  }

  /** The labels of the counted records, in list order. */
  function ChartedLabels(txs: seq<Transaction>): seq<string>
  {
    Map(Filter(txs, Charted), ChartLabel)
  }

  /** The sum of the amounts that fall under `name`. */
  function LabelTotal(txs: seq<Transaction>, name: string): int
  {
    Total(txs, HasLabel(name))
  }

  lemma ChartedLabelsStep(txs: seq<Transaction>, t: Transaction)
    ensures ChartedLabels(txs + [t]) == ChartedLabels(txs) + (if Charted(t) then [ChartLabel(t)] else [])
  {
    assert (txs + [t])[..|txs + [t]| - 1] == txs;
    var f := Filter(txs, Charted);
    if Charted(t) {
      assert Filter(txs + [t], Charted) == f + [t];
      assert (f + [t])[..|f + [t]| - 1] == f;
    } else {
      assert Filter(txs + [t], Charted) == f;
    }
  }

  /** A label occurs among the counted labels exactly when some record carries it. */
  lemma {:induction false} LabelSeen(txs: seq<Transaction>, name: string)
    ensures name in ChartedLabels(txs) <==> FindIndex(txs, HasLabel(name)).Some?
    decreases |txs|
  {
    if txs != [] {
      var n := |txs| - 1;
      LabelSeen(txs[..n], name);
      assert txs[..n] + [txs[n]] == txs;
      ChartedLabelsStep(txs[..n], txs[n]);
    }
  }

  lemma {:induction false} ValueSumUpdate(acc: seq<ChartEntry>, k: nat, v: int)
    requires k < |acc|
    ensures ValueSum(acc[k := acc[k].(value := v)]) == ValueSum(acc) - acc[k].value + v
    decreases |acc|
  {
    var n := |acc| - 1;
    var acc' := acc[k := acc[k].(value := v)];
    assert acc'[..n] == if k < n then acc[..n][k := acc[k].(value := v)] else acc[..n];
    if k < n {
      ValueSumUpdate(acc[..n], k, v);
    }
  }

  lemma {:induction false} NamesUpdate(acc: seq<ChartEntry>, k: nat, v: int)
    requires k < |acc|
    ensures Map(acc[k := acc[k].(value := v)], EntryName) == Map(acc, EntryName)
    decreases |acc|
  {
    var n := |acc| - 1;
    var acc' := acc[k := acc[k].(value := v)];
    assert acc'[..n] == if k < n then acc[..n][k := acc[k].(value := v)] else acc[..n];
    if k < n {
      NamesUpdate(acc[..n], k, v);
    }
  }

  lemma NamesAppend(acc: seq<ChartEntry>, e: ChartEntry)
    ensures Map(acc + [e], EntryName) == Map(acc, EntryName) + [e.name]
  {
    assert (acc + [e])[..|acc|] == acc;
  }

  lemma FindEntryIsName(acc: seq<ChartEntry>, name: string)
    ensures FindEntry(acc, name).Some? <==> name in Map(acc, EntryName)
    ensures FindEntry(acc, name).Some? ==> acc[FindEntry(acc, name).value].name == name
  {
    MapAt(acc, EntryName);
    if name in Map(acc, EntryName) {
      var k :| 0 <= k < |acc| && Map(acc, EntryName)[k] == name;
      assert acc[k].name == name;
    }
  }

  /** One step of the `reduce` adds the record's label to the slice names exactly when
      the record is counted and no slice has that name yet. */
  lemma {:induction false} AddToChartNames(acc: seq<ChartEntry>, t: Transaction)
    ensures Map(AddToChart(acc, t), EntryName) ==
            if Charted(t) && ChartLabel(t) !in Map(acc, EntryName) then Map(acc, EntryName) + [ChartLabel(t)]
            else Map(acc, EntryName)
  {
    if Charted(t) {
      FindEntryIsName(acc, ChartLabel(t));
      match FindEntry(acc, ChartLabel(t))
      case Some(k) =>
        NamesUpdate(acc, k, acc[k].value + t.amount);
      case None =>
        NamesAppend(acc, ChartEntry(ChartLabel(t), t.amount, t.txType));
    }
  }

  /** One record keeps the slice labels equal to the distinct counted labels. */
  lemma {:induction false} ChartNamesStep(init: seq<Transaction>, t: Transaction)
    requires Map(ChartData(init), EntryName) == Distinct(ChartedLabels(init))
    ensures Map(ChartData(init + [t]), EntryName) == Distinct(ChartedLabels(init + [t]))
  {
    var txs := init + [t];
    var acc := ChartData(init);
    var names := Map(acc, EntryName);
    var labels := ChartedLabels(init);
    assert txs[..|txs| - 1] == init;
    assert ChartData(txs) == AddToChart(acc, t);
    AddToChartNames(acc, t);
    ChartedLabelsStep(init, t);
    if Charted(t) {
      var l := ChartLabel(t);
      DistinctSnoc(labels, l);
      calc {
        Map(ChartData(txs), EntryName);
        Map(AddToChart(acc, t), EntryName);
        if l !in names then names + [l] else names;
        if l !in Distinct(labels) then Distinct(labels) + [l] else Distinct(labels);
        Distinct(labels + [l]);
        Distinct(ChartedLabels(txs));
      }
    } else {
      assert ChartedLabels(txs) == labels + [] == labels;
      calc {
        Map(ChartData(txs), EntryName);
        Map(AddToChart(acc, t), EntryName);
        names;
        Distinct(labels);
        Distinct(ChartedLabels(txs));
      }
    }
  }

  /** The slice labels are the counted labels, each once, in first-seen order. */
  lemma {:induction false} ChartNamesAreDistinctLabels(txs: seq<Transaction>)
    ensures Map(ChartData(txs), EntryName) == Distinct(ChartedLabels(txs))
    decreases |txs|
  {
    if txs != [] {
      var n := |txs| - 1;
      ChartNamesAreDistinctLabels(txs[..n]);
      ChartNamesStep(txs[..n], txs[n]);
      assert txs[..n] + [txs[n]] == txs;
    }
  }

  /** One step of the `reduce` raises the chart's total by the record's amount exactly
      when the record is counted. */
  lemma {:induction false} AddToChartTotal(acc: seq<ChartEntry>, t: Transaction)
    ensures ValueSum(AddToChart(acc, t)) == ValueSum(acc) + (if Charted(t) then t.amount else 0)
  {
    if Charted(t) {
      match FindEntry(acc, ChartLabel(t))
      case Some(k) =>
        ValueSumUpdate(acc, k, acc[k].value + t.amount);
      case None =>
        var e := ChartEntry(ChartLabel(t), t.amount, t.txType);
        assert (acc + [e])[..|acc|] == acc;
    }
  }

  /** The chart adds up every counted amount of the whole list (not only this month). */
  lemma {:induction false} ChartTotalIsChartedTotal(txs: seq<Transaction>)
    ensures ValueSum(ChartData(txs)) == Total(txs, Charted)
    decreases |txs|
  {
    if txs != [] {
      var n := |txs| - 1;
      ChartTotalIsChartedTotal(txs[..n]);
      AddToChartTotal(ChartData(txs[..n]), txs[n]);
    }
  }

  lemma LabelTotalStep(txs: seq<Transaction>, t: Transaction, name: string)
    ensures LabelTotal(txs + [t], name) == LabelTotal(txs, name) + (if HasLabel(name)(t) then t.amount else 0)
  {
    assert (txs + [t])[..|txs|] == txs;
  }

  /** Slices are told apart by their labels. */
  lemma ChartNamesDiffer(txs: seq<Transaction>, i: nat, j: nat)
    requires i < |ChartData(txs)| && j < |ChartData(txs)| && i != j
    ensures ChartData(txs)[i].name != ChartData(txs)[j].name
  {
    ChartNamesAreDistinctLabels(txs);
    MapAt(ChartData(txs), EntryName);
    assert Map(ChartData(txs), EntryName)[i] != Map(ChartData(txs), EntryName)[j];
  }

  /** Every slice's label is carried by some counted record. */
  lemma ChartNameSeen(txs: seq<Transaction>, k: nat)
    requires k < |ChartData(txs)|
    ensures FindIndex(txs, HasLabel(ChartData(txs)[k].name)).Some?
  {
    ChartNamesAreDistinctLabels(txs);
    MapAt(ChartData(txs), EntryName);
    assert ChartData(txs)[k].name == Map(ChartData(txs), EntryName)[k];
    LabelSeen(txs, ChartData(txs)[k].name);
  }

  lemma {:induction false} ChartValueStep(init: seq<Transaction>, t: Transaction, k: nat)
    requires forall j :: 0 <= j < |ChartData(init)| ==>
               ChartData(init)[j].value == LabelTotal(init, ChartData(init)[j].name)
    requires k < |ChartData(init + [t])|
    ensures ChartData(init + [t])[k].value == LabelTotal(init + [t], ChartData(init + [t])[k].name)
  {
    var acc := ChartData(init);
    var txs := init + [t];
    assert txs[..|txs| - 1] == init;
    var r := ChartData(txs);
    assert r == AddToChart(acc, t);
    var name := r[k].name;
    LabelTotalStep(init, t, name);
    if Charted(t) {
      FindEntryIsName(acc, ChartLabel(t));
      match FindEntry(acc, ChartLabel(t))
      case Some(j) =>
        if k != j {
          ChartNamesDiffer(init, k, j);
        }
      case None =>
        if k == |acc| {
          LabelSeen(init, ChartLabel(t));
          ChartNamesAreDistinctLabels(init);
          TotalOfNone(init, HasLabel(ChartLabel(t)));
        }
    }
  }

  /** Each slice holds the sum of the counted amounts under its label. */
  lemma {:induction false} ChartValuesAreLabelTotals(txs: seq<Transaction>)
    ensures forall k :: 0 <= k < |ChartData(txs)| ==>
              ChartData(txs)[k].value == LabelTotal(txs, ChartData(txs)[k].name)
    decreases |txs|
  {
    if txs != [] {
      var n := |txs| - 1;
      ChartValuesAreLabelTotals(txs[..n]);
      assert txs[..n] + [txs[n]] == txs;
      forall k | 0 <= k < |ChartData(txs)|
        ensures ChartData(txs)[k].value == LabelTotal(txs, ChartData(txs)[k].name)
      {
        ChartValueStep(txs[..n], txs[n], k);
      }
    }
  }

  lemma {:induction false} ChartKindStep(init: seq<Transaction>, t: Transaction, k: nat)
    requires forall j :: 0 <= j < |ChartData(init)| ==>
               var first := FindIndex(init, HasLabel(ChartData(init)[j].name));
               first.Some? && init[first.value].txType == ChartData(init)[j].kind
    requires k < |ChartData(init + [t])|
    ensures var first := FindIndex(init + [t], HasLabel(ChartData(init + [t])[k].name));
            first.Some? && (init + [t])[first.value].txType == ChartData(init + [t])[k].kind
  {
    var acc := ChartData(init);
    var txs := init + [t];
    assert txs[..|txs| - 1] == init;
    var r := ChartData(txs);
    assert r == AddToChart(acc, t);
    var name := r[k].name;
    if k < |acc| {
      assert name == acc[k].name;
      ChartNameSeen(init, k);
    } else {
      assert Charted(t) && FindEntry(acc, ChartLabel(t)).None?;
      FindEntryIsName(acc, ChartLabel(t));
      LabelSeen(init, ChartLabel(t));
      ChartNamesAreDistinctLabels(init);
      assert HasLabel(name)(t);
    }
  }

  /** Each slice carries the type of the first record that opened it. */
  lemma {:induction false} ChartKindsAreFirstSeen(txs: seq<Transaction>)
    ensures forall k :: 0 <= k < |ChartData(txs)| ==>
              var first := FindIndex(txs, HasLabel(ChartData(txs)[k].name));
              first.Some? && txs[first.value].txType == ChartData(txs)[k].kind
    decreases |txs|
  {
    if txs != [] {
      var n := |txs| - 1;
      ChartKindsAreFirstSeen(txs[..n]);
      assert txs[..n] + [txs[n]] == txs;
      forall k | 0 <= k < |ChartData(txs)|
        ensures var first := FindIndex(txs, HasLabel(ChartData(txs)[k].name));
                first.Some? && txs[first.value].txType == ChartData(txs)[k].kind
      {
        ChartKindStep(txs[..n], txs[n], k);
      }
    }
  }

  /** The chart's labels have no repeats and follow the order in which the counted
      records first show them. */
  lemma ChartLabelsUniqueInFirstSeenOrder(txs: seq<Transaction>)
    ensures NoDuplicates(Map(ChartData(txs), EntryName))
    ensures forall i, j :: 0 <= i < j < |Map(ChartData(txs), EntryName)| ==>
              && Map(ChartData(txs), EntryName)[i] in ChartedLabels(txs)
              && Map(ChartData(txs), EntryName)[j] in ChartedLabels(txs)
              && FirstIndex(ChartedLabels(txs), Map(ChartData(txs), EntryName)[i]) <
                 FirstIndex(ChartedLabels(txs), Map(ChartData(txs), EntryName)[j])
  {
    ChartNamesAreDistinctLabels(txs);
    DistinctInFirstSeenOrder(ChartedLabels(txs));
  }

  /** Restricted to the current month, the counted amounts are exactly what the month
      has spent and saved. */
  lemma MonthChartedIsMonthSpend(txs: seq<Transaction>, now: Date)
    ensures Total(CurrentMonthData(txs, now), Charted) == MonthExpenseTotal(txs, now) + MonthSavingsTotal(txs, now)
  {
    TotalSplit(CurrentMonthData(txs, now), Charted, IsExpense, IsSavingAdd);
  }

  /** The chart spans the whole fetched list: an expense of an earlier month shows in
      the chart while the month's expense total ignores it. */
  lemma ChartSpansOtherMonths(now: Date)
    ensures var lastYear := Transaction(700, "rent", Date(now.year - 1, now.month, 1), None, Expense, None, None);
            ValueSum(ChartData([lastYear])) == 700 && MonthExpenseTotal([lastYear], now) == 0
  {
    var lastYear := Transaction(700, "rent", Date(now.year - 1, now.month, 1), None, Expense, None, None);
    assert [lastYear][..0] == [];
    OtherMonthsIgnored([], lastYear, now);
    assert [] + [lastYear] == [lastYear];
  }

  /** `acc.find(item => item.name === name)` as a scan: the position of the first slice
      called `name`, or `|acc|` when there is none. */
  method FindSlice(acc: seq<ChartEntry>, name: string) returns (k: nat)
    ensures k <= |acc|
    ensures k < |acc| <==> FindEntry(acc, name).Some?
    ensures k < |acc| ==> FindEntry(acc, name) == Some(k)
  {
    k := 0;
    while k < |acc| && acc[k].name != name
      invariant 0 <= k <= |acc|
      invariant forall j :: 0 <= j < k ==> acc[j].name != name
    {
      k := k + 1;
    }
    ghost var found := FindEntry(acc, name);
    if k < |acc| {
      assert ((e: ChartEntry) => e.name == name)(acc[k]);
      assert found.Some?;
      assert acc[found.value].name == name;
    }
  }

  // ---------------------------------------------------------------------------
  // The component's state

  /** The dashboard's state: the fetched list and the figures derived from it. The
      derived fields are kept as separate state, as the component keeps them, so that
      `Valid` says they agree with the list they were computed from. */
  class DashboardState {
    var expenses: seq<Transaction>
    var bankBalances: map<string, int>
    var monthlyIncome: int
    var currentMonthExpenses: int
    var currentMonthSavings: int
    /** The "now" of the last monthly computation. */
    ghost var statsDate: Date

    ghost predicate Valid()
      reads this
    {
      && bankBalances == Balances(expenses)
      && monthlyIncome == MonthlyIncome(expenses, statsDate)
      && currentMonthExpenses == MonthExpenseTotal(expenses, statsDate)
      && currentMonthSavings == MonthSavingsTotal(expenses, statsDate)
    }

    /** The initial state: no transactions, both accounts at zero, all figures zero. */
    constructor (now: Date)
      ensures Valid() && statsDate == now
      ensures expenses == [] && bankBalances == map["SIB" := 0, "KSFE" := 0]
      ensures monthlyIncome == 0 && currentMonthExpenses == 0 && currentMonthSavings == 0
    {
      expenses := [];
      bankBalances := map["SIB" := 0, "KSFE" := 0];
      monthlyIncome := 0;
      currentMonthExpenses := 0;
      currentMonthSavings := 0;
      statsDate := now;
      assert Accounts([]) == {"SIB", "KSFE"};
    }

    /** `calculateBankBalances`: folds the list into an accumulator seeded with both
        accounts at zero and stores it. */
    method CalculateBankBalances(expenseData: seq<Transaction>)
      modifies this`bankBalances
      ensures bankBalances == Balances(expenseData)
    {
      var acc := map["SIB" := 0, "KSFE" := 0];
      assert Accounts([]) == {"SIB", "KSFE"};
      var i := 0;
      while i < |expenseData|
        invariant 0 <= i <= |expenseData|
        invariant acc == Balances(expenseData[..i])
      {
        var t := expenseData[i];
        assert expenseData[..i + 1] == expenseData[..i] + [t];
        BalancesStep(expenseData[..i], t);
        acc := BalanceUpdate(acc, t);
        i := i + 1;
      }
      assert expenseData[..i] == expenseData;
      bankBalances := acc;
    }

    /** `calculateMonthlyStats`: the month's income, expense total and savings total. */
    method CalculateMonthlyStats(expenseData: seq<Transaction>, now: Date)
      modifies this`monthlyIncome, this`currentMonthExpenses, this`currentMonthSavings, this`statsDate
      ensures monthlyIncome == MonthlyIncome(expenseData, now)
      ensures currentMonthExpenses == MonthExpenseTotal(expenseData, now)
      ensures currentMonthSavings == MonthSavingsTotal(expenseData, now)
      ensures statsDate == now
    {
      monthlyIncome := MonthlyIncome(expenseData, now);
      currentMonthExpenses := MonthExpenseTotal(expenseData, now);
      currentMonthSavings := MonthSavingsTotal(expenseData, now);
      statsDate := now;
    }

    /** `fetchExpenses`: `response` is the list the server returned, or `None` when the
        request failed, in which case the error is logged and nothing changes. */
    method FetchExpenses(response: Option<seq<Transaction>>, now: Date)
      modifies this
      ensures response.None? ==> unchanged(this)
      ensures response.Some? ==> expenses == response.value && statsDate == now && Valid()
    {
      if response.Some? {
        expenses := response.value;
        CalculateBankBalances(response.value);
        CalculateMonthlyStats(response.value, now);
      }
    }

    /** `remainingBudget`, computed from the stored figures; when they are up to date it
        is the ledger's remaining budget. */
    function RemainingBudget(): (r: int)
      reads this
      ensures Valid() ==> r == RemainingBudgetOf(expenses, statsDate)
    {
      monthlyIncome - (currentMonthExpenses + currentMonthSavings)
    }

    /** `handleAddExpense`'s check: whether the draft is posted. The request that
        follows, and the re-fetch after it, are I/O. */
    method HandleAddExpense(draft: Transaction) returns (posted: bool)
      ensures posted <==> Admits(draft, RemainingBudget())
      ensures Valid() ==> (posted <==> Admits(draft, RemainingBudgetOf(expenses, statsDate)))
    {
      posted := true;
      if draft.txType != Income {
        var totalSpent := currentMonthExpenses + currentMonthSavings;
        var remainingBudget := monthlyIncome - totalSpent;
        if draft.amount > remainingBudget {
          posted := false;
        }
      }
    }

    /** `prepareChartData` over the stored list: finds a slice by label, adds to it in
        place or appends a new one. */
    method PrepareChartData() returns (data: seq<ChartEntry>)
      ensures data == ChartData(expenses)
    {
      data := [];
      var i := 0;
      while i < |expenses|
        invariant 0 <= i <= |expenses|
        invariant data == ChartData(expenses[..i])
      {
        var t := expenses[i];
        assert expenses[..i + 1][..i] == expenses[..i];
        ghost var next := AddToChart(data, t);
        assert ChartData(expenses[..i + 1]) == next;
        if Charted(t) {
          var name := ChartLabel(t);
          var k := FindSlice(data, name);
          if k < |data| {
            assert FindEntry(data, name) == Some(k);
            data := data[k := data[k].(value := data[k].value + t.amount)];
          } else {
            assert FindEntry(data, name).None?;
            data := data + [ChartEntry(name, t.amount, t.txType)];
          }
        }
        assert data == next;
        i := i + 1;
      }
      assert expenses[..i] == expenses;
    }
  }
}
