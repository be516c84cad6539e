/**
 * The savings goals page: which goals are completed or late, the days left
 * to a deadline, adding money to a goal, creating a goal, the totals, the
 * seven-month progress chart and the progress ring of each goal.
 */
module Goals {
  import opened Seqs
  import opened CivilDate
  import opened Types
  import opened JsNumber
  import FinanceContext

  function GoalCurrent(g: SavingsGoal): int { g.current }
  function GoalTarget(g: SavingsGoal): int { g.target }

  /** No two goals of a list share an id. */
  predicate UniqueGoalIds(gs: seq<SavingsGoal>)
  {
    forall i, j :: 0 <= i < j < |gs| ==> gs[i].id != gs[j].id
  }

  // ------------------------------------------------------ goal status

  /** isGoalCompleted: the saved amount has reached the target. */
  predicate IsCompleted(g: SavingsGoal)
  {
    g.current >= g.target
  }

  predicate InProgress(g: SavingsGoal)
  {
    !IsCompleted(g)
  }

  function CompletedGoals(gs: seq<SavingsGoal>): seq<SavingsGoal>
  {
    Filter(gs, IsCompleted)
  }

  function InProgressGoals(gs: seq<SavingsGoal>): seq<SavingsGoal>
  {
    Filter(gs, InProgress)
  }

  /**
   * The completed and the in-progress lists split the goals: together they
   * hold every goal once, and their saved amounts add up to the total saved.
   */
  lemma GoalListsPartition(gs: seq<SavingsGoal>)
    ensures |CompletedGoals(gs)| + |InProgressGoals(gs)| == |gs|
    ensures multiset(CompletedGoals(gs)) + multiset(InProgressGoals(gs)) == multiset(gs)
    ensures forall i :: 0 <= i < |CompletedGoals(gs)| ==> IsCompleted(CompletedGoals(gs)[i])
    ensures forall i :: 0 <= i < |InProgressGoals(gs)| ==> !IsCompleted(InProgressGoals(gs)[i])
    ensures SumOf(CompletedGoals(gs), GoalCurrent) + SumOf(InProgressGoals(gs), GoalCurrent) == TotalSaved(gs)
  {
    FilterPartition(gs, IsCompleted, InProgress);
    SumFilterSplit(gs, IsCompleted, InProgress, GoalCurrent);
  }

  /** isGoalLate: the deadline's midnight has passed and the goal is not completed. */
  predicate IsLate(g: SavingsGoal, now: Instant)
  {
    After(now, g.deadline) && !IsCompleted(g)
  }

  /** daysLeft: the whole days to the deadline's midnight, rounded up, and never below 0. */
  function DaysLeft(deadline: Date, now: Instant): (n: int)
    requires 0 <= deadline.month < 12 && ValidInstant(now)
    ensures n >= 0
    ensures n > 0 ==> (n - 1) * MsPerDay < (DayNumber(deadline) - DayNumber(now.date)) * MsPerDay - now.msOfDay <= n * MsPerDay
  {
    var d := DaysUntil(deadline, now);
    if d > 0 then d else 0
  }

  /**
   * A late goal has no days left, and a goal whose deadline is a later day
   * than today has at least one; a completed goal is never late.
   */
  lemma LateAndDaysLeft(g: SavingsGoal, now: Instant)
    requires ValidDate(g.deadline) && ValidInstant(now)
    ensures IsLate(g, now) ==> DaysLeft(g.deadline, now) == 0
    ensures Before(now.date, g.deadline) ==> DaysLeft(g.deadline, now) >= 1 && !IsLate(g, now)
    ensures IsCompleted(g) ==> !IsLate(g, now)
  {
    BeforeDayNumber(g.deadline, now.date);
    BeforeDayNumber(now.date, g.deadline);
    BeforeOrder(g.deadline, now.date, now.date);
  }

  // ------------------------------------------------------- adding money

  /** The goal with the value added to what it has saved. */
  function AddedTo(g: SavingsGoal, value: int): (r: SavingsGoal)
    ensures r.current == g.current + value
    ensures r.id == g.id && r.name == g.name && r.target == g.target && r.deadline == g.deadline
  {
    g.(current := g.current + value)
  }

  /**
   * Adding a positive value to a goal the store holds raises the total saved
   * by exactly that value; a completed goal stays completed.
   */
  lemma {:induction false} AddValueTotal(gs: seq<SavingsGoal>, g: SavingsGoal, value: int)
    requires UniqueGoalIds(gs) && g in gs
    ensures TotalSaved(ReplaceKey(gs, GoalId, AddedTo(g, value))) == TotalSaved(gs) + value
    ensures TotalTarget(ReplaceKey(gs, GoalId, AddedTo(g, value))) == TotalTarget(gs)
    ensures value > 0 && IsCompleted(g) ==> IsCompleted(AddedTo(g, value))
  {
    var y := AddedTo(g, value);
    var r := ReplaceKey(gs, GoalId, y);
    var rest := gs[1..];
    assert r[1..] == ReplaceKey(rest, GoalId, y);
    if gs[0] == g {
      ReplaceHeadOnly(gs, y);
      assert r == [y] + rest;
    } else {
      var k :| 0 <= k < |gs| && gs[k] == g;
      assert gs[0].id != g.id;
      assert rest[k - 1] == g;
      UniqueTail(gs);
      AddValueTotal(rest, g, value);
      assert r[0] == gs[0];
    }
  }

  /** The tail of a list with unique ids has unique ids. */
  lemma UniqueTail(gs: seq<SavingsGoal>)
    requires gs != [] && UniqueGoalIds(gs)
    ensures UniqueGoalIds(gs[1..])
  {
    var rest := gs[1..];
    forall i, j | 0 <= i < j < |rest|
      ensures rest[i].id != rest[j].id
    {
      assert rest[i] == gs[i + 1] && rest[j] == gs[j + 1];
    }
  }

  /** With unique ids, replacing under the head's id replaces the head alone. */
  lemma ReplaceHeadOnly(gs: seq<SavingsGoal>, y: SavingsGoal)
    requires gs != [] && UniqueGoalIds(gs) && gs[0].id == y.id
    ensures ReplaceKey(gs[1..], GoalId, y) == gs[1..]
  {
    var rest := gs[1..];
    forall i | 0 <= i < |rest|
      ensures rest[i].id != y.id
    {
      assert rest[i] == gs[i + 1];
    }
  }

  /**
   * handleAddNewGoal's check: a goal needs a name, a positive target and a
   * deadline (None is the empty date field). The name is not trimmed.
   */
  predicate RejectsGoal(name: string, target: int, deadline: Option<Date>)
  {
    name == "" || target <= 0 || deadline.None?
  }

  /**
   * A name of blanks passes the goal form's check although the budget form,
   * which trims, rejects it; an accepted goal starts with nothing saved and
   * is listed as in progress.
   */
  lemma NewGoalChecks(d: Date, target: int)
    requires target > 0
    ensures !RejectsGoal(" ", target, Some(d))
    ensures !IsCompleted(SavingsGoal("", " ", target, 0, d))
  {
  }

  // ----------------------------------------------------------- totals

  function TotalSaved(gs: seq<SavingsGoal>): int
  {
    SumOf(gs, GoalCurrent)
  }

  function TotalTarget(gs: seq<SavingsGoal>): int
  {
    SumOf(gs, GoalTarget)
  }

  /** savingsPercentage: saved over target times 100, and 0 unless the total target is positive. */
  function SavingsPercentage(gs: seq<SavingsGoal>): (r: Num)
    ensures r.Finite?
    ensures TotalTarget(gs) <= 0 ==> r == Finite(0.0)
    ensures TotalTarget(gs) > 0 ==> r == Finite(TotalSaved(gs) as real * 100.0 / TotalTarget(gs) as real)
  {
    if TotalTarget(gs) > 0 then
      PercentCompare(TotalSaved(gs), TotalTarget(gs), 0.0);
      Percent(TotalSaved(gs), TotalTarget(gs))
    else Finite(0.0)
  }

  /** When every goal is completed the total saved reaches the total target. */
  lemma {:induction false} AllCompletedReachTarget(gs: seq<SavingsGoal>)
    requires forall i :: 0 <= i < |gs| ==> IsCompleted(gs[i])
    ensures TotalSaved(gs) >= TotalTarget(gs)
    ensures TotalTarget(gs) > 0 ==> Ge(SavingsPercentage(gs), 100.0)
  {
    if gs != [] {
      assert IsCompleted(gs[0]);
      AllCompletedReachTarget(gs[1..]);
    }
    if TotalTarget(gs) > 0 {
      PercentCompare(TotalSaved(gs), TotalTarget(gs), 100.0);
    }
  }

  // ---------------------------------------------------- progress chart

  const MonthNames: seq<string> := ["Jan", "Fev", "Mar", "Abr", "Mai", "Jun", "Jul", "Ago", "Set", "Out", "Nov", "Dez"]

  /** How many months the chart shows. */
  const ChartMonths := 7

  /**
   * (currentMonth - 6 + i + 12) % 12. The operand is never negative, so the
   * remainder JavaScript computes is Dafny's.
   */
  function MonthIndex(currentMonth: int, i: int): (r: int)
    requires 0 <= currentMonth < 12 && 0 <= i < ChartMonths
    ensures 0 <= r < 12
  {
    (currentMonth - 6 + i + 12) % 12
  }

  /**
   * The chart ends at the current month, each point is the month after the
   * one before it, and no month appears twice.
   */
  lemma MonthWindow(currentMonth: int)
    requires 0 <= currentMonth < 12
    ensures MonthIndex(currentMonth, ChartMonths - 1) == currentMonth
    ensures forall i :: 0 <= i < ChartMonths - 1 ==> MonthIndex(currentMonth, i + 1) == (MonthIndex(currentMonth, i) + 1) % 12
    ensures forall i, j :: 0 <= i < j < ChartMonths ==> MonthIndex(currentMonth, i) != MonthIndex(currentMonth, j)
  {
    forall i | 0 <= i < ChartMonths
      ensures MonthIndex(currentMonth, i) == Wrap(currentMonth + 6 + i)
    {
      WrapTwelve(currentMonth + 6 + i);
    }
  }

  function Wrap(x: int): int
  {
    if x < 12 then x else x - 12
  }

  lemma WrapTwelve(x: int)
    requires 0 <= x < 24
    ensures x % 12 == Wrap(x)
  {
  }

  /** Math.round: the nearest integer, halves rounded up. */
  function Round(x: real): (n: int)
    ensures n as real - 0.5 <= x < n as real + 0.5
  {
    (x + 0.5).Floor
  }

  /** Math.min(1, (i + 1) / 7): the share of the savings the i-th point shows. */
  function PointShare(i: int): real
  {
    var f := (i + 1) as real / ChartMonths as real;
    if f < 1.0 then f else 1.0
  }

  /** The reduce of one point: each goal's saved amount times the share. */
  function Weighted(gs: seq<SavingsGoal>, share: real): real
  {
    if gs == [] then 0.0 else gs[0].current as real * share + Weighted(gs[1..], share)
  }

  lemma {:induction false} WeightedSum(gs: seq<SavingsGoal>, share: real)
    ensures Weighted(gs, share) == TotalSaved(gs) as real * share
  {
    if gs != [] {
      WeightedSum(gs[1..], share);
    }
  }

  datatype ProgressPoint = ProgressPoint(name: string, value: int)

  /** calculateProgressData: seven points, one per month, ending at the current month. */
  function ProgressData(gs: seq<SavingsGoal>, currentMonth: int): (r: seq<ProgressPoint>)
    requires 0 <= currentMonth < 12
    ensures |r| == ChartMonths
    ensures forall i :: 0 <= i < ChartMonths ==> r[i].name == MonthNames[MonthIndex(currentMonth, i)]
  {
    seq(ChartMonths, (i: int) requires 0 <= i < ChartMonths =>
      ProgressPoint(MonthNames[MonthIndex(currentMonth, i)], Round(Weighted(gs, PointShare(i)))))
  }

  /**
   * The last point shows the whole amount saved, each point is the rounded
   * share (i + 1) / 7 of it, and with a nonnegative total the points never go
   * down.
   */
  lemma {:induction false} ProgressValues(gs: seq<SavingsGoal>, currentMonth: int)
    requires 0 <= currentMonth < 12
    ensures var r := ProgressData(gs, currentMonth);
            && r[ChartMonths - 1].value == TotalSaved(gs)
            && (forall i :: 0 <= i < ChartMonths ==> r[i].value == Round(TotalSaved(gs) as real * (i + 1) as real / 7.0))
            && (TotalSaved(gs) >= 0 ==> forall i :: 0 <= i < ChartMonths - 1 ==> r[i].value <= r[i + 1].value)
  {
    forall i | 0 <= i < ChartMonths
      ensures ProgressData(gs, currentMonth)[i].value == Round(TotalSaved(gs) as real * (i + 1) as real / 7.0)
    {
      PointValue(gs, currentMonth, i);
    }
    LastPoint(gs, currentMonth);
    if TotalSaved(gs) >= 0 {
      PointsGrow(gs, currentMonth);
    }
  }

  lemma LastPoint(gs: seq<SavingsGoal>, currentMonth: int)
    requires 0 <= currentMonth < 12
    ensures ProgressData(gs, currentMonth)[ChartMonths - 1].value == TotalSaved(gs)
  {
    PointValue(gs, currentMonth, ChartMonths - 1);
    var t := TotalSaved(gs) as real;
    assert t * 7.0 / 7.0 == t;
  }

  lemma PointsGrow(gs: seq<SavingsGoal>, currentMonth: int)
    requires 0 <= currentMonth < 12 && TotalSaved(gs) >= 0
    ensures forall i :: 0 <= i < ChartMonths - 1 ==>
              ProgressData(gs, currentMonth)[i].value <= ProgressData(gs, currentMonth)[i + 1].value
  {
    forall i | 0 <= i < ChartMonths - 1
      ensures ProgressData(gs, currentMonth)[i].value <= ProgressData(gs, currentMonth)[i + 1].value
    {
      PointGrows(gs, currentMonth, i);
    }
  }

  lemma PointGrows(gs: seq<SavingsGoal>, currentMonth: int, i: int)
    requires 0 <= currentMonth < 12 && TotalSaved(gs) >= 0 && 0 <= i < ChartMonths - 1
    ensures ProgressData(gs, currentMonth)[i].value <= ProgressData(gs, currentMonth)[i + 1].value
  {
    var t := TotalSaved(gs) as real;
    PointValue(gs, currentMonth, i);
    PointValue(gs, currentMonth, i + 1);
    ShareGrows(t, i);
  }

  /** The unrounded value of point i: the share (i + 1) / 7 of the total t. */
  function ShareOf(t: real, i: int): real
  {
    t * (i + 1) as real / 7.0
  }

  lemma PointValue(gs: seq<SavingsGoal>, currentMonth: int, i: int)
    requires 0 <= currentMonth < 12 && 0 <= i < ChartMonths
    ensures ProgressData(gs, currentMonth)[i].value == Round(ShareOf(TotalSaved(gs) as real, i))
  {
    WeightedSum(gs, PointShare(i));
    assert PointShare(i) == (i + 1) as real / 7.0;
  }

  lemma ShareGrows(t: real, i: int)
    requires t >= 0.0 && i >= 0
    ensures Round(ShareOf(t, i)) <= Round(ShareOf(t, i + 1))
  {
    var a := t * (i + 1) as real;
    var b := t * (i + 2) as real;
    assert b == a + t;
    assert ShareOf(t, i + 1) == b / 7.0;
    RoundMonotone(a / 7.0, b / 7.0);
  }

  lemma RoundMonotone(a: real, b: real)
    requires a <= b
    ensures Round(a) <= Round(b)
  {
  }

  // ------------------------------------------------------ progress ring

  /**
   * The values the ring animates from and to: every goal's id, mapped to 0 at
   * first and to its saved amount once the delay has passed. When ids repeat,
   * the later goal wins.
   */
  method AnimationValues(gs: seq<SavingsGoal>, settled: bool) returns (values: map<string, int>)
    ensures values.Keys == set i | 0 <= i < |gs| :: gs[i].id
    ensures forall i :: 0 <= i < |gs| && LastWithId(gs, i) ==> values[gs[i].id] == StartOrEnd(gs[i], settled)
  {
    values := map[];
    for n := 0 to |gs|
      invariant AnimatedUpTo(gs, settled, n, values)
    {
      AnimationStep(gs, settled, n, values);
      values := values[gs[n].id := StartOrEnd(gs[n], settled)];
    }
    assert gs[..|gs|] == gs;
  }

  /** The value a goal animates from (0) or to (its saved amount). */
  function StartOrEnd(g: SavingsGoal, settled: bool): int
  {
    if settled then g.current else 0
  }

  /** The map after the first n goals were visited. */
  ghost predicate AnimatedUpTo(gs: seq<SavingsGoal>, settled: bool, n: int, values: map<string, int>)
    requires 0 <= n <= |gs|
  {
    && values.Keys == (set i | 0 <= i < n :: gs[i].id)
    && forall i :: 0 <= i < n && LastWithId(gs[..n], i) ==> values[gs[i].id] == StartOrEnd(gs[i], settled)
  }

  lemma AnimationStep(gs: seq<SavingsGoal>, settled: bool, n: int, values: map<string, int>)
    requires 0 <= n < |gs| && AnimatedUpTo(gs, settled, n, values)
    ensures AnimatedUpTo(gs, settled, n + 1, values[gs[n].id := StartOrEnd(gs[n], settled)])
  {
    var k := gs[n].id;
    var next := values[k := StartOrEnd(gs[n], settled)];
    IdsStep(gs, n);
    forall i | 0 <= i < n + 1 && LastWithId(gs[..n + 1], i)
      ensures next[gs[i].id] == StartOrEnd(gs[i], settled)
    {
      if i < n {
        assert gs[..n + 1][n] == gs[n];
        assert gs[i].id != k;
        forall j | i < j < n
          ensures gs[..n][j].id != gs[..n][i].id
        {
          assert gs[..n + 1][j] == gs[..n][j];
        }
        assert LastWithId(gs[..n], i);
      }
    }
  }

  /** The ids of the first n + 1 goals: those of the first n and the id of goal n. */
  lemma IdsStep(gs: seq<SavingsGoal>, n: int)
    requires 0 <= n < |gs|
    ensures (set i | 0 <= i < n + 1 :: gs[i].id) == (set i | 0 <= i < n :: gs[i].id) + {gs[n].id}
  {
    var before := set i | 0 <= i < n :: gs[i].id;
    var after := set i | 0 <= i < n + 1 :: gs[i].id;
    forall x
      ensures x in after <==> x in before || x == gs[n].id
    {
      if x in after {
        var i :| 0 <= i < n + 1 && gs[i].id == x;
        if i < n {
          assert x in before;
        }
      }
      if x in before {
        var i :| 0 <= i < n && gs[i].id == x;
        assert x in after;
      }
    }
  }

  /** No goal after the i-th has its id. */
  predicate LastWithId(gs: seq<SavingsGoal>, i: int)
    requires 0 <= i < |gs|
  {
    forall j :: i < j < |gs| ==> gs[j].id != gs[i].id
  }

  /** animatedValues[goal.id] || 0. */
  function AnimatedCurrent(values: map<string, int>, id: string): int
  {
    if id in values then values[id] else 0
  }

  /** The ring: Math.min(100, animated / target * 100). */
  function RingPercentage(values: map<string, int>, g: SavingsGoal): Num
  {
    Min(Percent(AnimatedCurrent(values, g.id), g.target), 100.0)
  }

  /**
   * The ring never passes 100 unless it is NaN. Once settled, an in-progress
   * goal with a positive target and nothing negative saved shows exactly its
   * share, which is below 100.
   */
  lemma RingBounds(values: map<string, int>, g: SavingsGoal)
    ensures !Percent(AnimatedCurrent(values, g.id), g.target).NaN? ==> Le(RingPercentage(values, g), 100.0)
    ensures g.target > 0 && g.id in values && values[g.id] == g.current && InProgress(g) ==>
              RingPercentage(values, g) == Percent(g.current, g.target)
              && Percent(g.current, g.target).Finite? && Percent(g.current, g.target).v < 100.0
  {
    if g.target > 0 {
      PercentCompare(AnimatedCurrent(values, g.id), g.target, 100.0);
    }
  }

  // ---------------------------------------------------------- the page

  class GoalsPage {
    var goals: seq<SavingsGoal>
    var activeGoal: Option<SavingsGoal>
    var valueToAdd: int
    var showAddValueModal: bool
    var newName: string
    var newTarget: int
    var newDeadline: Option<Date>
    var showNewGoalModal: bool

    /** The page opens on a copy of the store's goals and an empty form dated today. */
    constructor(store: FinanceContext.FinanceStore, today: Date)
      ensures goals == store.savingsGoals && activeGoal.None? && valueToAdd == 0
      ensures newName == "" && newTarget == 0 && newDeadline == Some(today)
      ensures !showAddValueModal && !showNewGoalModal
    {
      goals := store.savingsGoals;
      activeGoal := None;
      valueToAdd := 0;
      showAddValueModal := false;
      newName := "";
      newTarget := 0;
      newDeadline := Some(today);
      showNewGoalModal := false;
    }

    /** The effect that copies the store's goals whenever they change. */
    method Sync(store: FinanceContext.FinanceStore)
      modifies this
      ensures goals == store.savingsGoals
      ensures activeGoal == old(activeGoal) && valueToAdd == old(valueToAdd) && showAddValueModal == old(showAddValueModal)
      ensures newName == old(newName) && newTarget == old(newTarget) && newDeadline == old(newDeadline)
      ensures showNewGoalModal == old(showNewGoalModal)
    {
      goals := store.savingsGoals;
    }

    /** handleShowAddValue: the goal is remembered, the value cleared and the dialog opened. */
    method ShowAddValue(g: SavingsGoal)
      modifies this
      ensures activeGoal == Some(g) && valueToAdd == 0 && showAddValueModal
      ensures goals == old(goals) && newName == old(newName) && newTarget == old(newTarget)
      ensures newDeadline == old(newDeadline) && showNewGoalModal == old(showNewGoalModal)
    {
      activeGoal := Some(g);
      valueToAdd := 0;
      showAddValueModal := true;
    }

    /**
     * handleAddValue: without a remembered goal or with a value that is not
     * positive nothing happens; otherwise the store gets the remembered goal
     * with the value added and the dialog closes.
     */
    method AddValue(store: FinanceContext.FinanceStore)
      modifies this, store
      ensures old(activeGoal).None? || old(valueToAdd) <= 0 ==>
                store.savingsGoals == old(store.savingsGoals) && showAddValueModal == old(showAddValueModal)
      ensures old(activeGoal).Some? && old(valueToAdd) > 0 ==>
                store.savingsGoals == ReplaceKey(old(store.savingsGoals), GoalId, AddedTo(old(activeGoal).value, old(valueToAdd)))
                && !showAddValueModal
      ensures store.transactions == old(store.transactions) && store.incomeSources == old(store.incomeSources)
      ensures store.creditCards == old(store.creditCards) && store.budgetCategories == old(store.budgetCategories)
      ensures store.notifications == old(store.notifications) && store.summary == old(store.summary)
      ensures goals == old(goals) && activeGoal == old(activeGoal) && valueToAdd == old(valueToAdd)
      ensures newName == old(newName) && newTarget == old(newTarget) && newDeadline == old(newDeadline)
      ensures showNewGoalModal == old(showNewGoalModal)
    {
      if activeGoal.Some? && valueToAdd > 0 {
        store.UpdateSavingsGoal(AddedTo(activeGoal.value, valueToAdd));
        showAddValueModal := false;
      }
    }

    /**
     * handleAddNewGoal: a rejected form changes nothing; otherwise the store
     * gets the goal with nothing saved, and the form is reset to today's date.
     */
    method AddNewGoal(store: FinanceContext.FinanceStore, generatedId: string, today: Date)
      modifies this, store
      ensures RejectsGoal(old(newName), old(newTarget), old(newDeadline)) ==>
                && store.savingsGoals == old(store.savingsGoals)
                && newName == old(newName) && newTarget == old(newTarget) && newDeadline == old(newDeadline)
                && showNewGoalModal == old(showNewGoalModal)
      ensures !RejectsGoal(old(newName), old(newTarget), old(newDeadline)) ==>
                && store.savingsGoals == old(store.savingsGoals) + [SavingsGoal(generatedId, old(newName), old(newTarget), 0, old(newDeadline).value)]
                && newName == "" && newTarget == 0 && newDeadline == Some(today) && !showNewGoalModal
      ensures store.transactions == old(store.transactions) && store.incomeSources == old(store.incomeSources)
      ensures store.creditCards == old(store.creditCards) && store.budgetCategories == old(store.budgetCategories)
      ensures store.notifications == old(store.notifications) && store.summary == old(store.summary)
      ensures goals == old(goals) && activeGoal == old(activeGoal) && valueToAdd == old(valueToAdd)
      ensures showAddValueModal == old(showAddValueModal)
    {
      if !RejectsGoal(newName, newTarget, newDeadline) {
        var g := SavingsGoal("", newName, newTarget, 0, newDeadline.value);
        store.AddSavingsGoal(g, generatedId);
        assert g.(id := generatedId) == SavingsGoal(generatedId, old(newName), old(newTarget), 0, old(newDeadline).value);
        newName := "";
        newTarget := 0;
        newDeadline := Some(today);
        showNewGoalModal := false;
      }
    }
  }
}
