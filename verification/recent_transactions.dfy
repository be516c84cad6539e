/**
 * The recent-transactions panel: the five newest transactions, the sign put
 * before each amount, and the icon and colours of each row.
 */
module RecentTransactions {
  import opened Seqs
  import opened CivilDate
  import opened Types
  import FinanceContext

  /**
   * A transaction's date as a day count, the order its timestamp sorts in.
   * Every date read from a date string is a real calendar day; any other
   * value sorts as day 0.
   */
  function DateKey(t: Transaction): int
  {
    if ValidDate(t.date) then DayNumber(t.date) else 0
  }

  /** How many rows the panel shows. */
  const PanelSize := 5

  /**
   * A sorted copy of the transactions, newest first, cut to five. The store's
   * list itself is a value here and is left as it was.
   */
  function Recent(ts: seq<Transaction>): (r: seq<Transaction>)
    ensures |r| == if |ts| < PanelSize then |ts| else PanelSize
    ensures SortedDesc(r, DateKey)
    ensures forall i :: 0 <= i < |r| ==> r[i] in ts
  {
    var sorted := SortDesc(ts, DateKey);
    TopN(ts, DateKey, PanelSize);
    var r := Take(sorted, PanelSize);
    forall i | 0 <= i < |r|
      ensures r[i] in ts
    {
      assert r[i] == sorted[i];
      assert r[i] in multiset(sorted);
    }
    r
  }

  /**
   * The rows left out are all the other transactions, and none is newer than
   * a row shown.
   */
  lemma RecentAreNewest(ts: seq<Transaction>)
    requires forall i :: 0 <= i < |ts| ==> ValidDate(ts[i].date)
    ensures var r := Recent(ts);
            var rest := SortDesc(ts, DateKey)[|r|..];
            && multiset(r) + multiset(rest) == multiset(ts)
            && (forall i, j :: 0 <= i < |r| && 0 <= j < |rest| ==> !Before(r[i].date, rest[j].date))
  {
    var r := Recent(ts);
    var rest := SortDesc(ts, DateKey)[|r|..];
    TopN(ts, DateKey, PanelSize);
    forall i, j | 0 <= i < |r| && 0 <= j < |rest|
      ensures !Before(r[i].date, rest[j].date)
    {
      assert rest[j] in multiset(rest);
      assert rest[j] in multiset(ts);
      NotNewer(r[i], rest[j]);
    }
  }

  /** A day count that is not smaller means a date that is not earlier. */
  lemma NotNewer(a: Transaction, b: Transaction)
    requires ValidDate(a.date) && ValidDate(b.date) && DateKey(b) <= DateKey(a)
    ensures !Before(a.date, b.date)
  {
    BeforeDayNumber(a.date, b.date);
  }

  // ------------------------------------------------------------ each row

  /** The sign before an amount. */
  function AmountPrefix(k: Kind): string
  {
    if k == Income then "+" else "-"
  }

  /**
   * A row marked "+" leaves the recomputed summary as it was (the summary's
   * income comes from the income sources); a row marked "-" with a
   * nonnegative amount never raises the remaining money.
   */
  lemma PrefixAndSummary(ts: seq<Transaction>, incomes: seq<IncomeSource>, t: Transaction)
    ensures AmountPrefix(t.kind) == "+" ==>
              FinanceContext.RecalculateSummary(ts + [t], incomes) == FinanceContext.RecalculateSummary(ts, incomes)
    ensures AmountPrefix(t.kind) == "-" && t.amount >= 0 ==>
              FinanceContext.RecalculateSummary(ts + [t], incomes).remainingMoney
              <= FinanceContext.RecalculateSummary(ts, incomes).remainingMoney
  {
    if t.kind == Income {
      FinanceContext.IncomeTransactionIgnored(ts, incomes, t);
    } else {
      ExpenseRowLowersRemaining(ts, incomes, t);
    }
  }

  lemma ExpenseRowLowersRemaining(ts: seq<Transaction>, incomes: seq<IncomeSource>, t: Transaction)
    requires t.kind == Expense
    ensures t.amount >= 0 ==>
              FinanceContext.RecalculateSummary(ts + [t], incomes).remainingMoney
              <= FinanceContext.RecalculateSummary(ts, incomes).remainingMoney
  {
    var s := FinanceContext.RecalculateSummary(ts, incomes);
    FinanceContext.SummaryAppend(ts, incomes, t);
    var fixed := if FinanceContext.IsFixedExpense(t) then t.amount else 0;
    var variable := if FinanceContext.IsVariableExpense(t) then t.amount else 0;
    assert FinanceContext.Absorb(s, t).remainingMoney == s.remainingMoney - fixed - variable;
    assert fixed == 0 || variable == 0;
  }

  datatype Icon = ShoppingBag | Coffee | House | Car | Card | Dollar

  /** The icons of the known categories. */
  const CategoryIcons: map<string, Icon> := map[
    "Supermercado" := ShoppingBag,
    "Café" := Coffee,
    "Aluguel" := House,
    "Transporte" := Car,
    "Lazer" := Card,
    "Internet" := House,
    "Água" := House,
    "Energia" := House,
    "Salário" := Dollar,
    "Freelance" := Dollar,
    "Dividendos" := Dollar]

  /** getCategoryIcon: the category's icon, or the shopping bag for any other category. */
  function CategoryIcon(category: string): (r: Icon)
    ensures category in CategoryIcons ==> r == CategoryIcons[category]
    ensures category !in CategoryIcons ==> r == ShoppingBag
  {
    if category in CategoryIcons then CategoryIcons[category] else ShoppingBag
  }

  /** Category names seen in the mock data get their icons; an unknown one falls back. */
  lemma IconExamples()
    ensures CategoryIcon("Café") == Coffee && CategoryIcon("Salário") == Dollar
    ensures CategoryIcon("Academia") == ShoppingBag
  {
  }

  function IconColor(k: Kind): string
  {
    if k == Income then "text-green-600" else "text-red-600"
  }

  function IconBackground(k: Kind): string
  {
    if k == Income then "bg-green-100" else "bg-red-100"
  }

  /**
   * The colours of a row depend on nothing but its kind, and the two kinds
   * are told apart by both the colour and the background.
   */
  lemma ColoursByKind(a: Transaction, b: Transaction)
    ensures a.kind == b.kind ==> IconColor(a.kind) == IconColor(b.kind) && IconBackground(a.kind) == IconBackground(b.kind)
    ensures a.kind != b.kind ==> IconColor(a.kind) != IconColor(b.kind) && IconBackground(a.kind) != IconBackground(b.kind)
  {
  }
}
