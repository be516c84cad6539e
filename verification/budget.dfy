/**
 * The budget page. The page keeps its own editable copy of the store's
 * budget categories: an allocation typed in changes only that copy, saving
 * sends every category of the copy to the store, and a new category goes
 * straight to the store. The page also shows the totals of the copy and a
 * colour per category.
 */
module Budget {
  import opened Seqs
  import opened Text
  import opened Types
  import opened JsNumber
  import FinanceContext

  function BudgetAllocation(b: BudgetCategory): int { b.allocation }
  function BudgetSpent(b: BudgetCategory): int { b.spent }

  /** No two categories of a list share an id. */
  predicate UniqueIds(bs: seq<BudgetCategory>)
  {
    forall i, j :: 0 <= i < j < |bs| ==> bs[i].id != bs[j].id
  }

  // ---------------------------------------------------- allocation edits

  /** parseFloat(value) || 0: text that is not a number (NaN) gives 0. */
  function AllocationValue(parsed: Option<int>): (v: int)
    ensures parsed.None? ==> v == 0
    ensures parsed.Some? ==> v == parsed.value
  {
    if parsed.Some? then parsed.value else 0
  }

  function HasId(id: string): BudgetCategory -> bool
  {
    (b: BudgetCategory) => b.id == id
  }

  function WithAllocation(v: int): BudgetCategory -> BudgetCategory
  {
    (b: BudgetCategory) => b.(allocation := v)
  }

  /**
   * handleAllocationChange on the page's copy: the categories with the id get
   * the new allocation; everything else, and the order, stay as they were.
   */
  function SetAllocation(bs: seq<BudgetCategory>, id: string, v: int): (r: seq<BudgetCategory>)
    ensures |r| == |bs|
    ensures forall i :: 0 <= i < |r| ==>
              r[i].id == bs[i].id && r[i].name == bs[i].name && r[i].spent == bs[i].spent && r[i].isFixed == bs[i].isFixed
    ensures forall i :: 0 <= i < |r| ==> r[i].allocation == if bs[i].id == id then v else bs[i].allocation
  {
    MapWhere(bs, HasId(id), WithAllocation(v))
  }

  /** An edit leaves the total spent as it was. */
  lemma {:induction false} SetAllocationSpent(bs: seq<BudgetCategory>, id: string, v: int)
    ensures TotalSpent(SetAllocation(bs, id, v)) == TotalSpent(bs)
  {
    if bs != [] {
      var r := SetAllocation(bs, id, v);
      SetAllocationSpent(bs[1..], id, v);
      assert r[1..] == SetAllocation(bs[1..], id, v);
    }
  }

  /**
   * An edit moves the total allocated by the new value for each category
   * with the id, less their old allocations.
   */
  lemma {:induction false} SetAllocationTotal(bs: seq<BudgetCategory>, id: string, v: int)
    ensures var edited := Filter(bs, HasId(id));
            TotalAllocated(SetAllocation(bs, id, v)) == TotalAllocated(bs) - SumOf(edited, BudgetAllocation) + |edited| * v
  {
    if bs != [] {
      var r := SetAllocation(bs, id, v);
      SetAllocationTotal(bs[1..], id, v);
      assert r[1..] == SetAllocation(bs[1..], id, v);
      assert TotalAllocated(r) == r[0].allocation + TotalAllocated(r[1..]);
      EditedHead(bs, id);
    }
  }

  /** The allocations of the edited categories: the head's when it carries the id, then the rest's. */
  lemma EditedHead(bs: seq<BudgetCategory>, id: string)
    requires bs != []
    ensures SumOf(Filter(bs, HasId(id)), BudgetAllocation)
            == (if bs[0].id == id then bs[0].allocation else 0) + SumOf(Filter(bs[1..], HasId(id)), BudgetAllocation)
    ensures |Filter(bs, HasId(id))| == (if bs[0].id == id then 1 else 0) + |Filter(bs[1..], HasId(id))|
  {
    var head := if HasId(id)(bs[0]) then [bs[0]] else [];
    var tail := Filter(bs[1..], HasId(id));
    assert Filter(bs, HasId(id)) == head + tail;
    SumAppend(head, tail, BudgetAllocation);
  }

  // --------------------------------------------------------- new category

  /**
   * Math.max(...ids.map(parseInt), 0): the largest id read as an integer, at
   * least 0; an id that parseInt cannot read makes the maximum NaN (None).
   */
  function MaxIdNumber(bs: seq<BudgetCategory>): (r: Option<int>)
    ensures r.Some? <==> forall i :: 0 <= i < |bs| ==> ParseInt(bs[i].id).Some?
    ensures r.Some? ==> r.value >= 0 && forall i :: 0 <= i < |bs| ==> ParseInt(bs[i].id).value <= r.value
  {
    if bs == [] then Some(0)
    else
      var head := ParseInt(bs[0].id);
      var rest := MaxIdNumber(bs[1..]);
      if head.None? || rest.None? then None
      else Some(if head.value > rest.value then head.value else rest.value)
  }

  /** The id the page computes for a new category: one more than the maximum, or "NaN". */
  function NewCategoryId(bs: seq<BudgetCategory>): string
  {
    var m := MaxIdNumber(bs);
    if m.Some? then IntString(m.value + 1) else "NaN"
  }

  /**
   * When every id reads as an integer, the computed id reads back as one more
   * than the largest and differs from every id in the list; when one does not,
   * the computed id is "NaN".
   */
  lemma NewCategoryIdFresh(bs: seq<BudgetCategory>)
    ensures MaxIdNumber(bs).Some? ==>
              && ParseInt(NewCategoryId(bs)) == Some(MaxIdNumber(bs).value + 1)
              && forall i :: 0 <= i < |bs| ==> bs[i].id != NewCategoryId(bs)
    ensures MaxIdNumber(bs).None? ==> NewCategoryId(bs) == "NaN"
  {
    var m := MaxIdNumber(bs);
    if m.Some? {
      var id := IntString(m.value + 1);
      ParseIntString(m.value + 1);
      assert NewCategoryId(bs) == id;
      forall i | 0 <= i < |bs|
        ensures bs[i].id != id
      {
        assert ParseInt(bs[i].id).value <= m.value;
      }
    }
  }

  /** The empty list gives id "1", and one id that is not a number gives "NaN". */
  lemma NewCategoryIdExamples()
    ensures NewCategoryId([]) == "1"
    ensures NewCategoryId([BudgetCategory("x", "Lazer", 100, 0, None)]) == "NaN"
  {
    assert IntString(1) == NatString(1) == ['1'];
    var x := "x";
    assert !IsWhitespace(x[0]) && !IsDigitIn(x[0], 10);
    assert LeadingCount(x, IsWhitespace) == 0;
    assert TrimStart(x) == x;
    assert DigitRun(x, 10) == 0;
    assert ParseInt(x) == None;
  }

  /** The form's name is blank or its allocation is not positive: nothing is added. */
  predicate RejectsCategory(name: string, allocation: int)
  {
    Trim(name) == "" || allocation <= 0
  }

  // ------------------------------------------------------------ saving

  /**
   * The store's list after updateBudgetCategory was called with each edit in
   * turn.
   */
  function ApplyUpdates(target: seq<BudgetCategory>, edits: seq<BudgetCategory>): seq<BudgetCategory>
  {
    if edits == [] then target
    else ReplaceKey(ApplyUpdates(target, edits[..|edits| - 1]), BudgetId, edits[|edits| - 1])
  }

  /**
   * After the updates the store keeps its ids in their places; a category
   * whose id an edit carries becomes that edit, and every other category is
   * left as it was.
   */
  lemma {:induction false} UpdatesLand(target: seq<BudgetCategory>, edits: seq<BudgetCategory>)
    requires UniqueIds(edits)
    ensures var r := ApplyUpdates(target, edits);
            && |r| == |target|
            && (forall j :: 0 <= j < |r| ==> r[j].id == target[j].id)
            && (forall i, j :: 0 <= i < |edits| && 0 <= j < |r| && edits[i].id == target[j].id ==> r[j] == edits[i])
            && (forall j :: 0 <= j < |r| && (forall i :: 0 <= i < |edits| ==> edits[i].id != target[j].id) ==> r[j] == target[j])
  {
    if edits != [] {
      var n := |edits| - 1;
      var front := edits[..n];
      UpdatesLand(target, front);
      var prev := ApplyUpdates(target, front);
      var r := ApplyUpdates(target, edits);
      assert r == ReplaceKey(prev, BudgetId, edits[n]);
      forall i, j | 0 <= i < |edits| && 0 <= j < |r| && edits[i].id == target[j].id
        ensures r[j] == edits[i]
      {
        if i < n {
          assert front[i] == edits[i];
        }
      }
      forall j | 0 <= j < |r| && (forall i :: 0 <= i < |edits| ==> edits[i].id != target[j].id)
        ensures r[j] == target[j]
      {
        assert edits[n].id != target[j].id;
        forall i | 0 <= i < |front|
          ensures front[i].id != target[j].id
        {
          assert front[i] == edits[i];
        }
      }
    }
  }

  /**
   * Saving a copy that holds the store's categories in the store's order,
   * however their other fields were edited, writes the copy back exactly.
   */
  lemma SaveWritesBack(target: seq<BudgetCategory>, edits: seq<BudgetCategory>)
    requires UniqueIds(edits) && |edits| == |target|
    requires forall i :: 0 <= i < |edits| ==> edits[i].id == target[i].id
    ensures ApplyUpdates(target, edits) == edits
  {
    UpdatesLand(target, edits);
  }

  /** An allocation edit of the synced copy, once saved, is what the store holds. */
  lemma EditThenSave(stored: seq<BudgetCategory>, id: string, parsed: Option<int>)
    requires UniqueIds(stored)
    ensures var edited := SetAllocation(stored, id, AllocationValue(parsed));
            ApplyUpdates(stored, edited) == edited
  {
    var edited := SetAllocation(stored, id, AllocationValue(parsed));
    assert UniqueIds(edited) by {
      forall i, j | 0 <= i < j < |edited|
        ensures edited[i].id != edited[j].id
      {
        assert edited[i].id == stored[i].id && edited[j].id == stored[j].id;
      }
    }
    SaveWritesBack(stored, edited);
  }

  // ------------------------------------------------------------ totals

  function TotalAllocated(bs: seq<BudgetCategory>): int
  {
    SumOf(bs, BudgetAllocation)
  }

  function TotalSpent(bs: seq<BudgetCategory>): int
  {
    SumOf(bs, BudgetSpent)
  }

  function Remaining(bs: seq<BudgetCategory>): int
  {
    TotalAllocated(bs) - TotalSpent(bs)
  }

  /** percentUsed: spent over allocated times 100, and 0 unless something is allocated. */
  function PercentUsed(bs: seq<BudgetCategory>): Num
  {
    if TotalAllocated(bs) > 0 then Percent(TotalSpent(bs), TotalAllocated(bs)) else Finite(0.0)
  }

  /**
   * The percentage used is always a finite number; with a positive total
   * allocated it is above 100 exactly when the remaining amount is negative,
   * and at least 100 exactly when nothing remains.
   */
  lemma PercentUsedMeaning(bs: seq<BudgetCategory>)
    ensures PercentUsed(bs).Finite?
    ensures TotalAllocated(bs) <= 0 ==> PercentUsed(bs) == Finite(0.0)
    ensures TotalAllocated(bs) > 0 ==> (Gt(PercentUsed(bs), 100.0) <==> Remaining(bs) < 0)
    ensures TotalAllocated(bs) > 0 ==> (Ge(PercentUsed(bs), 100.0) <==> Remaining(bs) <= 0)
  {
    if TotalAllocated(bs) > 0 {
      PercentCompare(TotalSpent(bs), TotalAllocated(bs), 100.0);
    }
  }

  // ------------------------------------------------------ category rows

  datatype Tone = Green | Yellow | Red

  /** The colours of a row: red from 90%, yellow from 75%, green below and for NaN. */
  function RowTone(p: Num): Tone
  {
    if Ge(p, 90.0) then Red else if Ge(p, 75.0) then Yellow else Green
  }

  /** The row shows the alert icon from 90%. */
  predicate ShowsAlert(p: Num)
  {
    Ge(p, 90.0)
  }

  /**
   * The category of the animated list with the same id (the first such one),
   * or the row's own category when that list has none.
   */
  function Animated(animated: seq<BudgetCategory>, b: BudgetCategory): (r: BudgetCategory)
    ensures r == b || r in animated
    ensures r.id == b.id
  {
    if animated == [] then b
    else if animated[0].id == b.id then animated[0]
    else Animated(animated[1..], b)
  }

  /** A row's percentage: the animated spending over the row's allocation, unguarded. */
  function RowPercentage(animated: seq<BudgetCategory>, b: BudgetCategory): Num
  {
    Percent(Animated(animated, b).spent, b.allocation)
  }

  /**
   * Once the animated list has caught up with the copy, each row's
   * percentage is its own spending over its own allocation.
   */
  lemma {:induction false} AnimationSettled(bs: seq<BudgetCategory>, b: BudgetCategory)
    requires UniqueIds(bs) && b in bs
    ensures Animated(bs, b) == b
    ensures RowPercentage(bs, b) == Percent(b.spent, b.allocation)
  {
    if bs[0] != b {
      var k :| 0 <= k < |bs| && bs[k] == b;
      assert bs[0].id != b.id;
      assert bs[1..][k - 1] == b;
      assert UniqueIds(bs[1..]) by {
        forall i, j | 0 <= i < j < |bs[1..]|
          ensures bs[1..][i].id != bs[1..][j].id
        {
          assert bs[1..][i] == bs[i + 1] && bs[1..][j] == bs[j + 1];
        }
      }
      AnimationSettled(bs[1..], b);
    }
  }

  /**
   * With a positive allocation the row is red from nine tenths spent, yellow
   * from three quarters, and green below; the alert icon goes with red.
   */
  lemma ToneThresholds(spent: int, allocation: int)
    requires allocation > 0
    ensures var t := RowTone(Percent(spent, allocation));
            && (t == Red <==> 10 * spent >= 9 * allocation)
            && (t == Yellow <==> 4 * spent >= 3 * allocation && 10 * spent < 9 * allocation)
            && (t == Green <==> 4 * spent < 3 * allocation)
            && (ShowsAlert(Percent(spent, allocation)) <==> t == Red)
  {
    PercentCompare(spent, allocation, 90.0);
    PercentCompare(spent, allocation, 75.0);
  }

  /**
   * A category with nothing allocated is red as soon as anything is spent
   * (Infinity) and green while nothing is (NaN).
   */
  lemma ZeroAllocationTone(spent: int)
    ensures spent > 0 ==> RowTone(Percent(spent, 0)) == Red
    ensures spent <= 0 ==> RowTone(Percent(spent, 0)) == Green
  {
    PercentOfZero(spent);
  }

  // ----------------------------------------------------------- the page

  class BudgetPage {
    var budgets: seq<BudgetCategory>
    var newName: string
    var newAllocation: int
    var showNewCategoryModal: bool
    var saveSuccess: bool

    /** The page opens with a copy of the store's categories and an empty form. */
    constructor(store: FinanceContext.FinanceStore)
      ensures budgets == store.budgetCategories
      ensures newName == "" && newAllocation == 0
      ensures !showNewCategoryModal && !saveSuccess
    {
      budgets := store.budgetCategories;
      newName := "";
      newAllocation := 0;
      showNewCategoryModal := false;
      saveSuccess := false;
    }

    /** The effect that copies the store's categories whenever they change. */
    method Sync(store: FinanceContext.FinanceStore)
      modifies this
      ensures budgets == store.budgetCategories
      ensures newName == old(newName) && newAllocation == old(newAllocation)
      ensures showNewCategoryModal == old(showNewCategoryModal) && saveSuccess == old(saveSuccess)
    {
      budgets := store.budgetCategories;
    }

    /** handleAllocationChange: only the copy changes. */
    method AllocationChange(id: string, parsed: Option<int>)
      modifies this
      ensures budgets == SetAllocation(old(budgets), id, AllocationValue(parsed))
      ensures newName == old(newName) && newAllocation == old(newAllocation)
      ensures showNewCategoryModal == old(showNewCategoryModal) && saveSuccess == old(saveSuccess)
    {
      budgets := SetAllocation(budgets, id, AllocationValue(parsed));
    }

    /**
     * handleAddCategory: a blank name or an allocation that is not positive
     * changes nothing; otherwise the store gets a category with nothing spent
     * (under the id the store generates, not the one the page computed), the
     * form is cleared and the dialog closes.
     */
    method AddCategory(store: FinanceContext.FinanceStore, generatedId: string)
      modifies this, store
      ensures RejectsCategory(old(newName), old(newAllocation)) ==>
                && store.budgetCategories == old(store.budgetCategories)
                && newName == old(newName) && newAllocation == old(newAllocation)
                && showNewCategoryModal == old(showNewCategoryModal)
      ensures !RejectsCategory(old(newName), old(newAllocation)) ==>
                && store.budgetCategories == old(store.budgetCategories) + [BudgetCategory(generatedId, old(newName), old(newAllocation), 0, None)]
                && newName == "" && newAllocation == 0 && !showNewCategoryModal
      ensures store.transactions == old(store.transactions) && store.incomeSources == old(store.incomeSources)
      ensures store.creditCards == old(store.creditCards) && store.savingsGoals == old(store.savingsGoals)
      ensures store.notifications == old(store.notifications) && store.summary == old(store.summary)
      ensures budgets == old(budgets) && saveSuccess == old(saveSuccess)
    {
      if !RejectsCategory(newName, newAllocation) {
        var category := BudgetCategory(NewCategoryId(budgets), newName, newAllocation, 0, None);
        store.AddBudgetCategory(category, generatedId);
        assert category.(id := generatedId) == BudgetCategory(generatedId, old(newName), old(newAllocation), 0, None);
        newName := "";
        newAllocation := 0;
        showNewCategoryModal := false;
      }
    }

    /** handleSaveChanges: every category of the copy goes to the store, in order. */
    method SaveChanges(store: FinanceContext.FinanceStore)
      modifies this, store
      ensures store.budgetCategories == ApplyUpdates(old(store.budgetCategories), old(budgets))
      ensures store.transactions == old(store.transactions) && store.incomeSources == old(store.incomeSources)
      ensures store.creditCards == old(store.creditCards) && store.savingsGoals == old(store.savingsGoals)
      ensures store.notifications == old(store.notifications) && store.summary == old(store.summary)
      ensures budgets == old(budgets) && saveSuccess
      ensures newName == old(newName) && newAllocation == old(newAllocation)
      ensures showNewCategoryModal == old(showNewCategoryModal)
    {
      var edits := budgets;
      for i := 0 to |edits|
        invariant store.budgetCategories == ApplyUpdates(old(store.budgetCategories), edits[..i])
        invariant store.transactions == old(store.transactions) && store.incomeSources == old(store.incomeSources)
        invariant store.creditCards == old(store.creditCards) && store.savingsGoals == old(store.savingsGoals)
        invariant store.notifications == old(store.notifications) && store.summary == old(store.summary)
        invariant budgets == old(budgets)
        invariant newName == old(newName) && newAllocation == old(newAllocation)
        invariant showNewCategoryModal == old(showNewCategoryModal) && saveSuccess == old(saveSuccess)
      {
        assert edits[..i + 1][..i] == edits[..i];
        store.UpdateBudgetCategory(edits[i]);
      }
      assert edits[..|edits|] == edits;
      saveSuccess := true;
    }
  }
}
