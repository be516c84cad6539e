/**
 * The overview cards: the four largest fixed and variable expenses, the
 * shares of the balance chart, the bar heights of the small trend charts and
 * the value shown on the expenses card.
 */
module OverviewCards {
  import opened Seqs
  import opened Types
  import opened JsNumber
  import FinanceContext

  // ------------------------------------------------------ top-4 expenses

  /** The filter of each list: expenses of the given expense type. */
  function TypeTest(e: ExpenseType): Transaction -> bool
  {
    if e == Fixed then FinanceContext.IsFixedExpense else FinanceContext.IsVariableExpense
  }

  /** How many entries each list shows. */
  const ListSize := 4

  /**
   * The expenses of one type, largest amount first, cut to four: all of them
   * come from the transactions, have that type, and are in order.
   */
  function TopExpenses(ts: seq<Transaction>, e: ExpenseType): (r: seq<Transaction>)
    ensures |r| <= ListSize
    ensures SortedDesc(r, TransactionAmount)
    ensures forall i :: 0 <= i < |r| ==> r[i] in ts && r[i].kind == Expense && r[i].expenseType == Some(e)
  {
    var candidates := Filter(ts, TypeTest(e));
    var sorted := SortDesc(candidates, TransactionAmount);
    FilterMembers(ts, TypeTest(e));
    TopN(candidates, TransactionAmount, ListSize);
    var r := Take(sorted, ListSize);
    forall i | 0 <= i < |r|
      ensures r[i] in candidates
    {
      assert r[i] == sorted[i];
      assert r[i] in multiset(sorted);
    }
    r
  }

  /**
   * The list is a selection of the candidates: it holds as many as fit, the
   * candidates it leaves out are all the others, and none of those has a
   * larger amount than a shown one.
   */
  lemma TopExpensesSelection(ts: seq<Transaction>, e: ExpenseType)
    ensures var candidates := Filter(ts, TypeTest(e));
            var r := TopExpenses(ts, e);
            var rest := SortDesc(candidates, TransactionAmount)[|r|..];
            && |r| == (if |candidates| < ListSize then |candidates| else ListSize)
            && multiset(r) + multiset(rest) == multiset(candidates)
            && (forall i, j :: 0 <= i < |r| && 0 <= j < |rest| ==> rest[j].amount <= r[i].amount)
  {
    TopN(Filter(ts, TypeTest(e)), TransactionAmount, ListSize);
  }

  // --------------------------------------------------------- balance chart

  /**
   * The percentage printed under the balance chart: part / total * 100 when
   * the total is positive, and 0 otherwise.
   */
  function BalanceShare(part: int, total: int): (r: Num)
    ensures r.Finite?
    ensures total <= 0 ==> r == Finite(0.0)
    ensures total > 0 ==> r == Finite(part as real * 100.0 / total as real)
  {
    if total > 0 then
      PercentCompare(part, total, 0.0);
      Percent(part, total)
    else Finite(0.0)
  }

  /** The three shares: income, fixed expenses and variable expenses over their sum. */
  function BalanceShares(income: int, fixed: int, variable: int): (r: (Num, Num, Num))
  {
    var total := income + fixed + variable;
    (BalanceShare(income, total), BalanceShare(fixed, total), BalanceShare(variable, total))
  }

  /**
   * With a positive total the three shares add up to 100; otherwise all three
   * are 0.
   */
  lemma {:induction false} BalanceSharesAddUp(income: int, fixed: int, variable: int)
    ensures var (a, b, c) := BalanceShares(income, fixed, variable);
            if income + fixed + variable > 0 then a.v + b.v + c.v == 100.0
            else a == b == c == Finite(0.0)
  {
    var total := income + fixed + variable;
    if total > 0 {
      var t := total as real;
      assert income as real * 100.0 / t + fixed as real * 100.0 / t + variable as real * 100.0 / t
          == (income as real + fixed as real + variable as real) * 100.0 / t;
      assert income as real + fixed as real + variable as real == t;
    }
  }

  // ------------------------------------------------------------ mini chart

  /** Math.max(...s) of a nonempty list. */
  function MaxOf(s: seq<int>): (m: int)
    requires |s| > 0
    ensures m in s
    ensures forall i :: 0 <= i < |s| ==> s[i] <= m
  {
    if |s| == 1 then s[0]
    else
      var rest := MaxOf(s[1..]);
      if s[0] >= rest then s[0] else rest
  }

  /** Math.min(...s) of a nonempty list. */
  function MinOf(s: seq<int>): (m: int)
    requires |s| > 0
    ensures m in s
    ensures forall i :: 0 <= i < |s| ==> m <= s[i]
  {
    if |s| == 1 then s[0]
    else
      var rest := MinOf(s[1..]);
      if s[0] <= rest then s[0] else rest
  }

  /**
   * A bar's height in percent: 50 when all values are equal, otherwise the
   * value's position between the minimum and the maximum; the bar is drawn at
   * no less than 15.
   */
  function BarHeight(v: int, lo: int, hi: int): real
  {
    var h := if hi - lo == 0 then 50.0 else (v - lo) as real / (hi - lo) as real * 100.0;
    if h < 15.0 then 15.0 else h
  }

  /** The heights of all bars (no bars for no data). */
  function BarHeights(data: seq<int>): (r: seq<real>)
    ensures |r| == |data|
    ensures forall i :: 0 <= i < |data| ==> 15.0 <= r[i] <= 100.0
  {
    if data == [] then []
    else
      var lo := MinOf(data);
      var hi := MaxOf(data);
      forall i | 0 <= i < |data|
        ensures 15.0 <= BarHeight(data[i], lo, hi) <= 100.0
      {
        if hi - lo != 0 {
          Ratio(data[i] - lo, hi - lo);
        }
      }
      Map(data, (v: int) => BarHeight(v, lo, hi))
  }

  /** A fraction of a nonnegative part of a positive whole is between 0 and 1. */
  lemma {:induction false} Ratio(a: int, b: int)
    requires 0 <= a <= b && b > 0
    ensures 0.0 <= a as real / b as real * 100.0 <= 100.0
  {
    var q := a as real / b as real;
    assert q * b as real == a as real;
  }

  lemma WholeRatio(w: real)
    requires w != 0.0
    ensures w / w * 100.0 == 100.0
  {
  }

  /**
   * Equal values draw every bar at half height; otherwise the largest value
   * draws a full bar and the smallest the shortest bar.
   */
  lemma {:induction false} BarHeightsExtremes(data: seq<int>)
    requires |data| > 0
    ensures MaxOf(data) == MinOf(data) ==> forall i :: 0 <= i < |data| ==> BarHeights(data)[i] == 50.0
    ensures MaxOf(data) != MinOf(data) ==>
              (forall i :: 0 <= i < |data| && data[i] == MaxOf(data) ==> BarHeights(data)[i] == 100.0)
              && (forall i :: 0 <= i < |data| && data[i] == MinOf(data) ==> BarHeights(data)[i] == 15.0)
  {
    var lo := MinOf(data);
    var hi := MaxOf(data);
    var r := BarHeights(data);
    assert r == Map(data, (v: int) => BarHeight(v, lo, hi));
    BarHeightEnds(lo, hi);
    forall i | 0 <= i < |data|
      ensures r[i] == BarHeight(data[i], lo, hi)
    {
    }
  }

  /** The bar of the largest value is full and that of the smallest is the shortest. */
  lemma BarHeightEnds(lo: int, hi: int)
    ensures lo != hi ==> BarHeight(hi, lo, hi) == 100.0 && BarHeight(lo, lo, hi) == 15.0
  {
    if lo != hi {
      var w := (hi - lo) as real;
      assert (hi - lo) as real == w;
      WholeRatio(w);
      assert (lo - lo) as real == 0.0;
    }
  }

  // --------------------------------------------------------- expenses card

  /** The value on the expenses card. */
  function ExpensesCardValue(summary: FinancialSummary): int
  {
    summary.fixedExpenses + summary.variableExpenses
  }

  /**
   * After a recomputation the expenses card shows the total of the expenses
   * that have an expense type, which is what the remaining money is reduced by.
   */
  lemma ExpensesCardTotal(ts: seq<Transaction>, incomes: seq<IncomeSource>)
    ensures var s := FinanceContext.RecalculateSummary(ts, incomes);
            && ExpensesCardValue(s) == SumOf(Filter(ts, FinanceContext.IsTypedExpense), TransactionAmount)
            && s.remainingMoney == s.totalIncome - ExpensesCardValue(s)
  {
    FinanceContext.ExpensesSplit(ts, incomes);
  }
}
