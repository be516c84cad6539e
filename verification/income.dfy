/**
 * The income page: the total of the income sources, the part that recurs
 * and the part that does not, their shares of the total, and the chart data
 * by source name. The page reads its own list of sources, so every member
 * here takes that list as a parameter.
 */
module Income {
  import opened Seqs
  import opened Types
  import opened JsNumber
  import opened Grouping

  predicate IsRecurrent(i: IncomeSource) { i.recurrent }
  predicate IsOneOff(i: IncomeSource) { !i.recurrent }

  function IncomeName(i: IncomeSource): string { i.name }

  /** totalIncome: the sum of all amounts. */
  function TotalIncome(sources: seq<IncomeSource>): int
  {
    SumOf(sources, IncomeAmount)
  }

  /** recurrentIncome: the sum over the recurrent sources. */
  function RecurrentIncome(sources: seq<IncomeSource>): int
  {
    SumOf(Filter(sources, IsRecurrent), IncomeAmount)
  }

  /** nonRecurrentIncome, computed as the total minus the recurrent part. */
  function NonRecurrentIncome(sources: seq<IncomeSource>): int
  {
    TotalIncome(sources) - RecurrentIncome(sources)
  }

  /**
   * The difference the page computes is the sum over the sources that do not
   * recur, so the two cards split the total.
   */
  lemma NonRecurrentIsOneOffSum(sources: seq<IncomeSource>)
    ensures NonRecurrentIncome(sources) == SumOf(Filter(sources, IsOneOff), IncomeAmount)
    ensures RecurrentIncome(sources) + NonRecurrentIncome(sources) == TotalIncome(sources)
  {
    SumFilterSplit(sources, IsRecurrent, IsOneOff, IncomeAmount);
  }

  /** The shares of the two cards: part / total * 100, with no guard on the total. */
  function RecurrentShare(sources: seq<IncomeSource>): Num
  {
    Percent(RecurrentIncome(sources), TotalIncome(sources))
  }

  function NonRecurrentShare(sources: seq<IncomeSource>): Num
  {
    Percent(NonRecurrentIncome(sources), TotalIncome(sources))
  }

  /** With no sources both shares are NaN. */
  lemma NoSourcesShareNaN()
    ensures RecurrentShare([]) == NaN && NonRecurrentShare([]) == NaN
  {
  }

  /** With a nonzero total the two shares are finite and add up to 100. */
  lemma {:induction false} SharesAddUp(sources: seq<IncomeSource>)
    requires TotalIncome(sources) != 0
    ensures RecurrentShare(sources).Finite? && NonRecurrentShare(sources).Finite?
    ensures RecurrentShare(sources).v + NonRecurrentShare(sources).v == 100.0
  {
    var t := TotalIncome(sources) as real;
    var r := RecurrentIncome(sources) as real;
    var n := NonRecurrentIncome(sources) as real;
    assert n == t - r;
    assert r / t * 100.0 + n / t * 100.0 == (r + n) / t * 100.0;
    assert (r + n) / t == 1.0;
  }

  /**
   * getIncomeChartData: one name/value pair per source name, built by the
   * dictionary reduce.
   */
  method IncomeChartData(sources: seq<IncomeSource>) returns (r: seq<Entry>)
    ensures r == GroupSums(sources, IncomeName, IncomeAmount)
  {
    r := GroupByKey(sources, IncomeName, IncomeAmount);
  }

  /**
   * The chart names each source name once, in order of first appearance,
   * gives each the total of its sources, and its values add up to the total
   * income.
   */
  lemma ChartData(sources: seq<IncomeSource>)
    ensures var r := GroupSums(sources, IncomeName, IncomeAmount);
            && Map(r, EntryName) == Distinct(Map(sources, IncomeName))
            && (forall i :: 0 <= i < |r| ==> r[i].value == KeySum(sources, IncomeName, IncomeAmount, r[i].name))
            && SumOf(r, EntryValue) == TotalIncome(sources)
  {
    GroupNames(sources, IncomeName, IncomeAmount);
    GroupValues(sources, IncomeName, IncomeAmount);
    GroupTotal(sources, IncomeName, IncomeAmount);
  }
}
