/**
 * The budget progress panel of the overview: for each budget category a
 * status, the amount remaining, the width of its bar and whether the bar
 * carries its percentage. The bars start from a copy with nothing spent and
 * show the store's categories once the animation delay has passed.
 */
module BudgetProgress {
  import opened Seqs
  import opened Types
  import opened JsNumber
  import Budget

  /** The percentage of a bar: spent over allocated times 100, unguarded. */
  function Usage(b: BudgetCategory): Num
  {
    Percent(b.spent, b.allocation)
  }

  datatype Status = Attention | Monitoring | Good

  /** The status: from 90% on "Atenção!", from 75% on "Monitorando", otherwise (NaN too) "Bom". */
  function StatusOf(b: BudgetCategory): Status
  {
    var p := Usage(b);
    if Ge(p, 90.0) then Attention else if Ge(p, 75.0) then Monitoring else Good
  }

  function StatusText(s: Status): string
  {
    match s
    case Attention => "Atenção!"
    case Monitoring => "Monitorando"
    case Good => "Bom"
  }

  function RemainingOf(b: BudgetCategory): int
  {
    b.allocation - b.spent
  }

  /** The bar's width in percent: Math.min(percentage, 100). */
  function BarWidth(b: BudgetCategory): Num
  {
    Min(Usage(b), 100.0)
  }

  /** The percentage is written on the bar above 20%. */
  predicate ShowsLabel(b: BudgetCategory)
  {
    Gt(Usage(b), 20.0)
  }

  /**
   * The panel and the budget page class a category alike: "Atenção!" is the
   * red row, "Monitorando" the yellow one and "Bom" the green one.
   */
  lemma SameThresholdsAsBudgetPage(b: BudgetCategory)
    ensures StatusOf(b) == Attention <==> Budget.RowTone(Percent(b.spent, b.allocation)) == Budget.Red
    ensures StatusOf(b) == Monitoring <==> Budget.RowTone(Percent(b.spent, b.allocation)) == Budget.Yellow
    ensures StatusOf(b) == Good <==> Budget.RowTone(Percent(b.spent, b.allocation)) == Budget.Green
  {
  }

  /**
   * With a positive allocation the status follows the share spent: nine
   * tenths or more is "Atenção!", three quarters or more "Monitorando", and
   * the remaining amount is negative exactly when more was spent than
   * allocated.
   */
  lemma {:induction false} StatusThresholds(b: BudgetCategory)
    requires b.allocation > 0
    ensures StatusOf(b) == Attention <==> 10 * b.spent >= 9 * b.allocation
    ensures StatusOf(b) == Monitoring <==> 4 * b.spent >= 3 * b.allocation && 10 * b.spent < 9 * b.allocation
    ensures StatusOf(b) == Good <==> 4 * b.spent < 3 * b.allocation
    ensures RemainingOf(b) < 0 <==> Gt(Usage(b), 100.0)
  {
    PercentCompare(b.spent, b.allocation, 90.0);
    PercentCompare(b.spent, b.allocation, 75.0);
    PercentCompare(b.spent, b.allocation, 100.0);
  }

  /**
   * The bar is never wider than the track: with a positive allocation its
   * width is a number of at most 100, equal to the percentage while that is
   * at most 100. With nothing allocated and nothing spent the width is NaN.
   */
  lemma {:induction false} BarWidthBounds(b: BudgetCategory)
    ensures !Usage(b).NaN? ==> Le(BarWidth(b), 100.0)
    ensures b.allocation > 0 ==> BarWidth(b).Finite? && BarWidth(b).v <= 100.0
    ensures b.allocation > 0 && b.spent <= b.allocation ==> BarWidth(b) == Usage(b)
    ensures b.allocation == 0 && b.spent == 0 ==> BarWidth(b).NaN?
  {
    if b.allocation > 0 {
      PercentCompare(b.spent, b.allocation, 100.0);
    } else if b.allocation == 0 {
      PercentOfZero(b.spent);
    }
  }

  /**
   * The first frame, before the animation delay: a category with something
   * allocated shows an empty, unlabelled bar and the status "Bom".
   */
  lemma FirstFrame(b: BudgetCategory)
    requires b.allocation > 0
    ensures var start := b.(spent := 0);
            && StatusOf(start) == Good
            && BarWidth(start) == Finite(0.0)
            && !ShowsLabel(start)
  {
    var start := b.(spent := 0);
    PercentCompare(0, b.allocation, 20.0);
    PercentCompare(0, b.allocation, 75.0);
  }

  /**
   * The status counts exactly 90% as "Atenção!" and exactly 75% as
   * "Monitorando", while the legend under the panel writes the red band as
   * above 90% and the green band as 0-75%.
   */
  lemma BoundaryPercentages()
    ensures StatusOf(BudgetCategory("1", "Lazer", 100, 90, None)) == Attention
    ensures !Gt(Usage(BudgetCategory("1", "Lazer", 100, 90, None)), 90.0)
    ensures StatusOf(BudgetCategory("1", "Lazer", 100, 75, None)) == Monitoring
  {
    PercentCompare(90, 100, 90.0);
    PercentCompare(75, 100, 90.0);
    PercentCompare(75, 100, 75.0);
  }
}
