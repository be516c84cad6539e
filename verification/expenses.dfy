/**
 * The expenses page: the category and expense-type filters, the per-category
 * chart data, the list of categories offered by the filter, the budget the
 * expenses are measured against, the over/near-budget flags, the expense
 * built from the form, and which form fields the payment method shows.
 */
module Expenses {
  import opened Seqs
  import opened CivilDate
  import opened Types
  import opened JsNumber
  import opened Grouping
  import FinanceContext

  function TransactionCategory(t: Transaction): string { t.category }

  predicate IsExpense(t: Transaction) { t.kind == Expense }

  /** The test `t => t.expenseType === e`. */
  function HasType(e: ExpenseType): Transaction -> bool
  {
    (t: Transaction) => t.expenseType == Some(e)
  }

  // -------------------------------------------------------- category data

  /** getCategoryData's input: all of `data`, or only the items of the given expense type. */
  function OfType(data: seq<Transaction>, ty: Option<ExpenseType>): (r: seq<Transaction>)
    ensures ty.None? ==> r == data
    ensures ty.Some? ==> forall i :: 0 <= i < |r| ==> r[i].expenseType == ty && r[i] in data
    ensures ty.Some? ==> forall i :: 0 <= i < |data| && data[i].expenseType == ty ==> data[i] in r
  {
    if ty.None? then data
    else
      FilterMembers(data, HasType(ty.value));
      Filter(data, HasType(ty.value))
  }

  /**
   * getCategoryData: the name/value pairs of the pie charts, one per
   * category, built by the dictionary reduce.
   */
  method GetCategoryData(data: seq<Transaction>, ty: Option<ExpenseType>) returns (r: seq<Entry>)
    ensures r == GroupSums(OfType(data, ty), TransactionCategory, TransactionAmount)
  {
    r := GroupByKey(OfType(data, ty), TransactionCategory, TransactionAmount);
  }

  /**
   * The chart data lists each category of the selected items once, in order
   * of first appearance; each value is that category's total; the values add
   * up to the total of the selected items.
   */
  lemma CategoryData(data: seq<Transaction>, ty: Option<ExpenseType>)
    ensures var r := GroupSums(OfType(data, ty), TransactionCategory, TransactionAmount);
            && Map(r, EntryName) == Distinct(Map(OfType(data, ty), TransactionCategory))
            && (forall i :: 0 <= i < |r| ==>
                  r[i].value == KeySum(OfType(data, ty), TransactionCategory, TransactionAmount, r[i].name))
            && SumOf(r, EntryValue) == SumOf(OfType(data, ty), TransactionAmount)
  {
    GroupNames(OfType(data, ty), TransactionCategory, TransactionAmount);
    GroupValues(OfType(data, ty), TransactionCategory, TransactionAmount);
    GroupTotal(OfType(data, ty), TransactionCategory, TransactionAmount);
  }

  /**
   * When every item has an expense type, the fixed chart and the variable
   * chart together account for the whole of the all-types chart.
   */
  lemma {:induction false} FixedAndVariableCharts(data: seq<Transaction>)
    requires forall i :: 0 <= i < |data| ==> data[i].expenseType.Some?
    ensures var total := SumOf(GroupSums(OfType(data, None), TransactionCategory, TransactionAmount), EntryValue);
            var fixed := SumOf(GroupSums(OfType(data, Some(Fixed)), TransactionCategory, TransactionAmount), EntryValue);
            var variable := SumOf(GroupSums(OfType(data, Some(Variable)), TransactionCategory, TransactionAmount), EntryValue);
            total == fixed + variable
  {
    GroupTotal(OfType(data, None), TransactionCategory, TransactionAmount);
    GroupTotal(OfType(data, Some(Fixed)), TransactionCategory, TransactionAmount);
    GroupTotal(OfType(data, Some(Variable)), TransactionCategory, TransactionAmount);
    var notFixed := (t: Transaction) => t.expenseType != Some(Fixed);
    SumFilterSplit(data, HasType(Fixed), notFixed, TransactionAmount);
    forall x | x in data
      ensures notFixed(x) <==> HasType(Variable)(x)
    {
      var i :| 0 <= i < |data| && data[i] == x;
      assert x.expenseType.Some?;
      assert x.expenseType.value.Fixed? || x.expenseType.value.Variable?;
      assert HasType(Variable)(x) == (x.expenseType == Some(Variable));
    }
    FilterEquiv(data, notFixed, HasType(Variable));
  }

  // ------------------------------------------------------------- filtering

  /** The category filter's value that matches every category. */
  const AllCategories := "Todas"

  /** The expense-type filter: 'all', 'fixed' or 'variable'. */
  datatype TypeFilter = AllTypes | OnlyType(expenseType: ExpenseType)

  /** An expense whose category and type pass both filters. */
  predicate Selected(category: string, typeFilter: TypeFilter, t: Transaction)
  {
    && t.kind == Expense
    && (category == AllCategories || t.category == category)
    && (typeFilter.AllTypes? || t.expenseType == Some(typeFilter.expenseType))
  }

  function SelectedBy(category: string, typeFilter: TypeFilter): Transaction -> bool
  {
    (t: Transaction) => Selected(category, typeFilter, t)
  }

  /**
   * filteredTransactions: exactly the expenses that pass both filters, in
   * their original order.
   */
  function FilteredTransactions(ts: seq<Transaction>, category: string, typeFilter: TypeFilter): (r: seq<Transaction>)
    ensures IsSubsequence(r, ts)
    ensures forall i :: 0 <= i < |r| ==> Selected(category, typeFilter, r[i])
    ensures forall i :: 0 <= i < |ts| && Selected(category, typeFilter, ts[i]) ==> ts[i] in r
  {
    FilterIsSubsequence(ts, SelectedBy(category, typeFilter));
    FilterMembers(ts, SelectedBy(category, typeFilter));
    Filter(ts, SelectedBy(category, typeFilter))
  }

  /** With both filters at "everything", the list is all the expenses. */
  lemma NoFilterKeepsEveryExpense(ts: seq<Transaction>)
    ensures FilteredTransactions(ts, AllCategories, AllTypes) == Filter(ts, IsExpense)
  {
    FilterEquiv(ts, SelectedBy(AllCategories, AllTypes), IsExpense);
  }

  /**
   * The page's fixed-expense list totals what the summary reports as fixed
   * expenses, and likewise for variable expenses.
   */
  lemma FilteredTotalsMatchSummary(ts: seq<Transaction>, incomes: seq<IncomeSource>)
    ensures SumOf(FilteredTransactions(ts, AllCategories, OnlyType(Fixed)), TransactionAmount)
         == FinanceContext.RecalculateSummary(ts, incomes).fixedExpenses
    ensures SumOf(FilteredTransactions(ts, AllCategories, OnlyType(Variable)), TransactionAmount)
         == FinanceContext.RecalculateSummary(ts, incomes).variableExpenses
  {
    FilterEquiv(ts, SelectedBy(AllCategories, OnlyType(Fixed)), FinanceContext.IsFixedExpense);
    FilterEquiv(ts, SelectedBy(AllCategories, OnlyType(Variable)), FinanceContext.IsVariableExpense);
  }

  /**
   * availableCategories: "Todas" first, then each category of an expense
   * once, in order of first appearance.
   */
  function AvailableCategories(ts: seq<Transaction>): (r: seq<string>)
    ensures |r| >= 1 && r[0] == AllCategories
    ensures NoDuplicates(r[1..])
    ensures forall i :: 0 <= i < |ts| && ts[i].kind == Expense ==> ts[i].category in r[1..]
    ensures forall c :: c in r[1..] ==> exists i :: 0 <= i < |ts| && ts[i].kind == Expense && ts[i].category == c
    ensures r[1..] == Distinct(Map(Filter(ts, IsExpense), TransactionCategory))
  {
    var d := ExpenseCategories(ts);
    var r := [AllCategories] + d;
    assert r[1..] == d;
    forall i | 0 <= i < |ts| && ts[i].kind == Expense
      ensures ts[i].category in d
    {
      ExpenseCategoryListed(ts, i);
    }
    forall c | c in d
      ensures exists i :: 0 <= i < |ts| && ts[i].kind == Expense && ts[i].category == c
    {
      ListedCategoryOfExpense(ts, c);
    }
    r
  }

  /** The distinct categories of the expenses, in order of first appearance. */
  function ExpenseCategories(ts: seq<Transaction>): (d: seq<string>)
    ensures NoDuplicates(d)
  {
    Distinct(Map(Filter(ts, IsExpense), TransactionCategory))
  }

  lemma ExpenseCategoryListed(ts: seq<Transaction>, i: int)
    requires 0 <= i < |ts| && ts[i].kind == Expense
    ensures ts[i].category in ExpenseCategories(ts)
  {
    var expenses := Filter(ts, IsExpense);
    var names := Map(expenses, TransactionCategory);
    DistinctMembers(names);
    FilterMembers(ts, IsExpense);
    assert IsExpense(ts[i]);
    var j :| 0 <= j < |expenses| && expenses[j] == ts[i];
    assert names[j] == ts[i].category;
  }

  lemma ListedCategoryOfExpense(ts: seq<Transaction>, c: string)
    requires c in ExpenseCategories(ts)
    ensures exists i :: 0 <= i < |ts| && ts[i].kind == Expense && ts[i].category == c
  {
    var expenses := Filter(ts, IsExpense);
    var names := Map(expenses, TransactionCategory);
    DistinctMembers(names);
    FilterMembers(ts, IsExpense);
    var j :| 0 <= j < |names| && names[j] == c;
    assert expenses[j] in ts && IsExpense(expenses[j]);
    var i :| 0 <= i < |ts| && ts[i] == expenses[j];
    assert ts[i].category == c;
  }

  // ---------------------------------------------------------------- budget

  /** The budget used when the categories allocate nothing: R$ 5000.00, in centavos. */
  const DefaultBudget := 500000

  function BudgetAllocation(b: BudgetCategory): int { b.allocation }

  /** totalBudget: the sum of the allocations, or the default when that sum is 0. */
  function TotalBudget(budgets: seq<BudgetCategory>): (r: int)
    ensures r != 0
    ensures SumOf(budgets, BudgetAllocation) != 0 ==> r == SumOf(budgets, BudgetAllocation)
    ensures SumOf(budgets, BudgetAllocation) == 0 ==> r == DefaultBudget
  {
    var sum := SumOf(budgets, BudgetAllocation);
    if sum == 0 then DefaultBudget else sum
  }

  /** budgetPercentage: the summary's fixed plus variable expenses over the budget, times 100. */
  function BudgetPercentage(summary: FinancialSummary, budgets: seq<BudgetCategory>): (r: Num)
    ensures r.Finite?
  {
    Percent(summary.fixedExpenses + summary.variableExpenses, TotalBudget(budgets))
  }

  predicate IsOverBudget(pct: Num)
  {
    Gt(pct, 100.0)
  }

  predicate IsNearBudget(pct: Num)
  {
    Gt(pct, 80.0) && Le(pct, 100.0)
  }

  /** The page never shows both warnings at once. */
  lemma FlagsExclusive(pct: Num)
    ensures !(IsOverBudget(pct) && IsNearBudget(pct))
  {
  }

  /**
   * Against a positive budget, "over" means spending more than the budget and
   * "near" means spending more than four fifths of it but not more than all
   * of it.
   */
  lemma {:induction false} FlagsMeaning(summary: FinancialSummary, budgets: seq<BudgetCategory>)
    requires TotalBudget(budgets) > 0
    ensures var spent := summary.fixedExpenses + summary.variableExpenses;
            var budget := TotalBudget(budgets);
            && (IsOverBudget(BudgetPercentage(summary, budgets)) <==> spent > budget)
            && (IsNearBudget(BudgetPercentage(summary, budgets)) <==> 4 * budget < 5 * spent <= 5 * budget)
  {
    var spent := summary.fixedExpenses + summary.variableExpenses;
    var budget := TotalBudget(budgets);
    PercentCompare(spent, budget, 100.0);
    PercentCompare(spent, budget, 80.0);
    assert Le(BudgetPercentage(summary, budgets), 100.0) <==> !Gt(BudgetPercentage(summary, budgets), 100.0);
  }

  /** With no categories the default budget applies. */
  lemma NoCategoriesDefaultBudget()
    ensures TotalBudget([]) == DefaultBudget
  {
  }

  /** Categories that all allocate 0 leave the default budget in force, however many there are. */
  lemma {:induction false} ZeroAllocationsDefaultBudget(budgets: seq<BudgetCategory>)
    requires forall i :: 0 <= i < |budgets| ==> budgets[i].allocation == 0
    ensures SumOf(budgets, BudgetAllocation) == 0
    ensures TotalBudget(budgets) == DefaultBudget
  {
    if budgets != [] {
      ZeroAllocationsDefaultBudget(budgets[1..]);
    }
  }

  // ------------------------------------------------------------ the form

  /**
   * The new-expense form, with the amount already read as a number (the
   * other fields are the strings and choices the form holds).
   */
  datatype ExpenseForm = ExpenseForm(
    description: string,
    amount: int,
    date: Date,
    category: string,
    expenseType: ExpenseType,
    recurrent: bool,
    frequency: Frequency,
    paymentMethod: PaymentMethod,
    creditCardId: string,
    dueDate: string,
    paymentStatus: PaymentStatus)

  /**
   * The expense handleSubmit builds: always an expense; the frequency only
   * when recurrent; the card only for a credit payment; an empty due date
   * left absent. The id is assigned by the store.
   */
  function BuildExpense(form: ExpenseForm): (t: Transaction)
    ensures t.kind == Expense
    ensures t.amount == form.amount && t.category == form.category && t.date == form.date
    ensures t.description == form.description && t.recurrent == form.recurrent
    ensures t.expenseType == Some(form.expenseType) && t.paymentMethod == Some(form.paymentMethod)
    ensures t.paymentStatus == Some(form.paymentStatus)
    ensures t.frequency.Some? <==> form.recurrent
    ensures t.frequency.Some? ==> t.frequency.value == form.frequency
    ensures t.creditCardId.Some? <==> form.paymentMethod == Credit
    ensures t.creditCardId.Some? ==> t.creditCardId.value == form.creditCardId
    ensures t.dueDate.None? <==> form.dueDate == ""
    ensures t.dueDate.Some? ==> t.dueDate.value == form.dueDate
  {
    Transaction(
      id := "",
      amount := form.amount,
      category := form.category,
      description := form.description,
      date := form.date,
      kind := Expense,
      recurrent := form.recurrent,
      frequency := if form.recurrent then Some(form.frequency) else None,
      expenseType := Some(form.expenseType),
      paymentStatus := Some(form.paymentStatus),
      paymentMethod := Some(form.paymentMethod),
      creditCardId := if form.paymentMethod == Credit then Some(form.creditCardId) else None,
      dueDate := if form.dueDate == "" then None else Some(form.dueDate))
  }

  /**
   * Recording a submitted expense moves the summary by its amount: into the
   * fixed or the variable total by its type, out of the remaining money, and
   * into the card and pending totals when it is a card purchase or unpaid.
   */
  lemma SubmittedExpenseSummary(ts: seq<Transaction>, incomes: seq<IncomeSource>, form: ExpenseForm, newId: string)
    ensures var before := FinanceContext.RecalculateSummary(ts, incomes);
            var after := FinanceContext.RecalculateSummary(ts + [BuildExpense(form).(id := newId)], incomes);
            && after.totalIncome == before.totalIncome
            && after.fixedExpenses == before.fixedExpenses + (if form.expenseType == Fixed then form.amount else 0)
            && after.variableExpenses == before.variableExpenses + (if form.expenseType == Variable then form.amount else 0)
            && after.remainingMoney == before.remainingMoney - form.amount
            && after.creditCardExpenses == before.creditCardExpenses + (if form.paymentMethod == Credit then form.amount else 0)
            && after.pendingBills == before.pendingBills + (if form.paymentStatus == Pending then form.amount else 0)
  {
    FinanceContext.SummaryAppend(ts, incomes, BuildExpense(form).(id := newId));
  }

  /**
   * Only a credit payment with a card chosen touches the cards: any other
   * submission leaves every card as it was.
   */
  lemma SubmittedExpenseCards(cards: seq<CreditCard>, form: ExpenseForm)
    requires form.paymentMethod != Credit || form.creditCardId == ""
    ensures FinanceContext.ApplyCardCharge(cards, BuildExpense(form)) == cards
  {
  }

  /**
   * handleSubmit: the built expense goes to the store's addTransaction.
   */
  method HandleSubmit(store: FinanceContext.FinanceStore, form: ExpenseForm, newId: string)
    modifies store
    ensures store.Valid()
    ensures store.transactions == old(store.transactions) + [BuildExpense(form).(id := newId)]
    ensures store.creditCards == FinanceContext.ApplyCardCharge(old(store.creditCards), BuildExpense(form))
    ensures store.incomeSources == old(store.incomeSources) && store.budgetCategories == old(store.budgetCategories)
    ensures store.savingsGoals == old(store.savingsGoals) && store.notifications == old(store.notifications)
  {
    var _ := store.AddTransaction(BuildExpense(form), newId);
  }

  // ---------------------------------------------------- field visibility

  /** The card selector is shown only for a credit payment. */
  predicate ShowsCardSelect(m: PaymentMethod)
  {
    m == Credit
  }

  /** The due-date input is hidden for credit, PIX, transfer and debit. */
  predicate ShowsDueDate(m: PaymentMethod)
  {
    m != Credit && !(m in [Pix, Transfer, Debit])
  }

  /**
   * The due date is asked for exactly for cash and boleto payments, and the
   * two fields are never shown together.
   */
  lemma VisibleFields(m: PaymentMethod)
    ensures ShowsDueDate(m) <==> m == Cash || m == Boleto
    ensures !(ShowsCardSelect(m) && ShowsDueDate(m))
  {
  }
}
