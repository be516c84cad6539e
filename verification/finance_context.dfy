/**
 * The shared store of the dashboard: the collections of records, the
 * financial summary derived from transactions and income sources, the side
 * effects of recording a transaction (a PIX payment lowers the displayed
 * balance, a card purchase is charged to the card) and the resolver of a
 * card's current billing cycle.
 */
module FinanceContext {
  import opened Seqs
  import opened CivilDate
  import opened Types

  // ---------------------------------------------------------------- summary

  predicate IsFixedExpense(t: Transaction)
  {
    t.kind == Expense && t.expenseType == Some(Fixed)
  }

  predicate IsVariableExpense(t: Transaction)
  {
    t.kind == Expense && t.expenseType == Some(Variable)
  }

  predicate IsCardExpense(t: Transaction)
  {
    t.kind == Expense && t.paymentMethod == Some(Credit)
  }

  predicate IsPendingBill(t: Transaction)
  {
    t.kind == Expense && t.paymentStatus == Some(Pending)
  }

  /** An expense classified as fixed or as variable. */
  predicate IsTypedExpense(t: Transaction)
  {
    t.kind == Expense && t.expenseType.Some?
  }

  /**
   * The summary recomputed from scratch: income is the sum of all income
   * sources, each expense total sums the expenses of its class, and the
   * remaining money (also shown as the total balance) is income minus the
   * fixed and variable expenses.
   */
  function RecalculateSummary(ts: seq<Transaction>, incomes: seq<IncomeSource>): (s: FinancialSummary)
    ensures s.remainingMoney == s.totalIncome - s.fixedExpenses - s.variableExpenses
    ensures s.totalBalance == s.remainingMoney
  {
    var totalIncome := SumOf(incomes, IncomeAmount);
    var fixedExpenses := SumOf(Filter(ts, IsFixedExpense), TransactionAmount);
    var variableExpenses := SumOf(Filter(ts, IsVariableExpense), TransactionAmount);
    var creditCardExpenses := SumOf(Filter(ts, IsCardExpense), TransactionAmount);
    var pendingBills := SumOf(Filter(ts, IsPendingBill), TransactionAmount);
    var remainingMoney := totalIncome - fixedExpenses - variableExpenses;
    FinancialSummary(totalIncome, fixedExpenses, variableExpenses, remainingMoney,
                     remainingMoney, creditCardExpenses, pendingBills)
  }

  /**
   * What one more transaction adds to a summary, field by field: a reference
   * definition that does not look at the other transactions at all.
   */
  function Absorb(s: FinancialSummary, t: Transaction): FinancialSummary
  {
    var fixed := if IsFixedExpense(t) then t.amount else 0;
    var variable := if IsVariableExpense(t) then t.amount else 0;
    FinancialSummary(
      s.totalIncome,
      s.fixedExpenses + fixed,
      s.variableExpenses + variable,
      s.remainingMoney - fixed - variable,
      s.totalBalance - fixed - variable,
      s.creditCardExpenses + (if IsCardExpense(t) then t.amount else 0),
      s.pendingBills + (if IsPendingBill(t) then t.amount else 0))
  }

  lemma {:induction false} FilteredSumAppend(ts: seq<Transaction>, t: Transaction, p: Transaction -> bool)
    ensures SumOf(Filter(ts + [t], p), TransactionAmount)
            == SumOf(Filter(ts, p), TransactionAmount) + (if p(t) then t.amount else 0)
  {
    FilterAppend(ts, [t], p);
    SumAppend(Filter(ts, p), Filter([t], p), TransactionAmount);
    assert Filter([t], p) == (if p(t) then [t] else []) + Filter([], p);
  }

  /** Recomputing after appending a transaction is absorbing it into the old summary. */
  lemma SummaryAppend(ts: seq<Transaction>, incomes: seq<IncomeSource>, t: Transaction)
    ensures RecalculateSummary(ts + [t], incomes) == Absorb(RecalculateSummary(ts, incomes), t)
  {
    FilteredSumAppend(ts, t, IsFixedExpense);
    FilteredSumAppend(ts, t, IsVariableExpense);
    FilteredSumAppend(ts, t, IsCardExpense);
    FilteredSumAppend(ts, t, IsPendingBill);
  }

  /** An income-type transaction never moves the summary. */
  lemma IncomeTransactionIgnored(ts: seq<Transaction>, incomes: seq<IncomeSource>, t: Transaction)
    requires t.kind == Income
    ensures RecalculateSummary(ts + [t], incomes) == RecalculateSummary(ts, incomes)
  {
    SummaryAppend(ts, incomes, t);
  }

  /** With no transactions every expense total is zero and all income remains. */
  lemma SummaryWithoutTransactions(incomes: seq<IncomeSource>)
    ensures var s := RecalculateSummary([], incomes);
            s.fixedExpenses == 0 && s.variableExpenses == 0 && s.creditCardExpenses == 0
            && s.pendingBills == 0 && s.remainingMoney == s.totalIncome
            && s.totalIncome == SumOf(incomes, IncomeAmount)
  {
  }

  /** A new income source raises income, remaining money and balance by its amount. */
  lemma SummaryAddIncome(ts: seq<Transaction>, incomes: seq<IncomeSource>, i: IncomeSource)
    ensures var before := RecalculateSummary(ts, incomes);
            RecalculateSummary(ts, incomes + [i])
            == before.(totalIncome := before.totalIncome + i.amount,
                       remainingMoney := before.remainingMoney + i.amount,
                       totalBalance := before.totalBalance + i.amount)
  {
    SumAppend(incomes, [i], IncomeAmount);
  }

  function FixedAmount(t: Transaction): int { if IsFixedExpense(t) then t.amount else 0 }
  function VariableAmount(t: Transaction): int { if IsVariableExpense(t) then t.amount else 0 }
  function TypedAmount(t: Transaction): int { if IsTypedExpense(t) then t.amount else 0 }

  /**
   * The fixed and the variable totals together are the sum of the classified
   * expenses: an expense with no expense type counts in neither.
   */
  lemma ExpensesSplit(ts: seq<Transaction>, incomes: seq<IncomeSource>)
    ensures var s := RecalculateSummary(ts, incomes);
            s.fixedExpenses + s.variableExpenses == SumOf(Filter(ts, IsTypedExpense), TransactionAmount)
            && s.remainingMoney == s.totalIncome - SumOf(Filter(ts, IsTypedExpense), TransactionAmount)
  {
    SumFilterMasked(ts, IsFixedExpense, TransactionAmount, FixedAmount);
    SumFilterMasked(ts, IsVariableExpense, TransactionAmount, VariableAmount);
    SumFilterMasked(ts, IsTypedExpense, TransactionAmount, TypedAmount);
    forall i | 0 <= i < |ts|
      ensures TypedAmount(ts[i]) == FixedAmount(ts[i]) + VariableAmount(ts[i])
    {
      match ts[i].expenseType
      case None =>
      case Some(e) => assert e == Fixed || e == Variable;
    }
    SumPlus(ts, FixedAmount, VariableAmount, TypedAmount);
  }

  /**
   * The PIX adjustment of addTransaction: the balance and the remaining money
   * shown drop by the amount of a PIX-paid expense, before the recomputation
   * that follows overwrites them.
   */
  function PixAdjust(s: FinancialSummary, t: Transaction): (r: FinancialSummary)
    ensures t.kind == Expense && t.paymentMethod == Some(Pix) ==>
              r.totalBalance == s.totalBalance - t.amount && r.remainingMoney == s.remainingMoney - t.amount
    ensures !(t.kind == Expense && t.paymentMethod == Some(Pix)) ==> r == s
    ensures r.(totalBalance := s.totalBalance, remainingMoney := s.remainingMoney) == s
  {
    if t.kind == Expense && t.paymentMethod == Some(Pix) then
      s.(totalBalance := s.totalBalance - t.amount, remainingMoney := s.remainingMoney - t.amount)
    else s
  }

  /**
   * A PIX expense with no expense type lowers the balance on screen for one
   * render only: the recomputed balance equals the one before it.
   */
  lemma PixDecrementOverwritten(ts: seq<Transaction>, incomes: seq<IncomeSource>, t: Transaction)
    requires t.kind == Expense && t.paymentMethod == Some(Pix) && t.expenseType.None? && t.amount != 0
    ensures var before := RecalculateSummary(ts, incomes);
            PixAdjust(before, t).totalBalance != before.totalBalance
            && RecalculateSummary(ts + [t], incomes).totalBalance == before.totalBalance
  {
    SummaryAppend(ts, incomes, t);
  }

  // ------------------------------------------------------------ card charge

  /** A card purchase: truthy card id, credit method, expense kind. */
  predicate ChargesCard(t: Transaction)
  {
    t.kind == Expense && t.paymentMethod == Some(Credit) && t.creditCardId.Some? && t.creditCardId.value != ""
  }

  function CardBalance(c: CreditCard): int { c.currentBalance }

  /** The card after a purchase of `amount`: the balance grows, the free limit is recomputed. */
  function ChargeCard(c: CreditCard, amount: int): (r: CreditCard)
    ensures r.currentBalance == c.currentBalance + amount
    ensures LimitConsistent(r)
    ensures r.(currentBalance := c.currentBalance, availableLimit := c.availableLimit) == c
  {
    c.(currentBalance := c.currentBalance + amount, availableLimit := c.limit - (c.currentBalance + amount))
  }

  /** The cards after recording t: every card whose id is t's card id is charged. */
  function ApplyCardCharge(cards: seq<CreditCard>, t: Transaction): (r: seq<CreditCard>)
    ensures |r| == |cards|
    ensures forall i :: 0 <= i < |cards| ==>
              r[i] == if ChargesCard(t) && cards[i].id == t.creditCardId.value
                      then ChargeCard(cards[i], t.amount) else cards[i]
  {
    if ChargesCard(t) then
      MapWhere(cards, (c: CreditCard) => c.id == t.creditCardId.value, (c: CreditCard) => ChargeCard(c, t.amount))
    else cards
  }

  /** Number of cards carrying the given id. */
  function CountId(cards: seq<CreditCard>, id: string): nat
  {
    if cards == [] then 0 else (if cards[0].id == id then 1 else 0) + CountId(cards[1..], id)
  }

  /** The balances owed across all cards grow by the amount once per matching card. */
  lemma {:induction false} ChargeTotal(cards: seq<CreditCard>, t: Transaction)
    ensures SumOf(ApplyCardCharge(cards, t), CardBalance)
            == SumOf(cards, CardBalance) + (if ChargesCard(t) then t.amount * CountId(cards, t.creditCardId.value) else 0)
  {
    if cards != [] && ChargesCard(t) {
      ChargeTotal(cards[1..], t);
      ChargeHead(cards, t);
      CountHead(cards, t.creditCardId.value, t.amount);
    } else if cards != [] {
      assert ApplyCardCharge(cards, t) == cards;
    }
  }

  /** The first card's share of the balances after a purchase, and the rest's. */
  lemma ChargeHead(cards: seq<CreditCard>, t: Transaction)
    requires cards != [] && ChargesCard(t)
    ensures SumOf(ApplyCardCharge(cards, t), CardBalance)
            == cards[0].currentBalance + (if cards[0].id == t.creditCardId.value then t.amount else 0)
               + SumOf(ApplyCardCharge(cards[1..], t), CardBalance)
  {
    var r := ApplyCardCharge(cards, t);
    assert r[1..] == ApplyCardCharge(cards[1..], t);
  }

  lemma CountHead(cards: seq<CreditCard>, id: string, amount: int)
    requires cards != []
    ensures amount * CountId(cards, id) == (if cards[0].id == id then amount else 0) + amount * CountId(cards[1..], id)
  {
    var k := CountId(cards[1..], id);
    if cards[0].id == id {
      assert amount * (1 + k) == amount + amount * k;
    }
  }

  /** A purchase on an id no card has leaves every card as it was. */
  lemma ChargeUnknownCard(cards: seq<CreditCard>, t: Transaction)
    requires forall i :: 0 <= i < |cards| ==> Some(cards[i].id) != t.creditCardId
    ensures ApplyCardCharge(cards, t) == cards
  {
  }

  /** A charge keeps "available limit = limit - balance" on every card that had it. */
  lemma ChargeKeepsLimits(cards: seq<CreditCard>, t: Transaction)
    requires forall i :: 0 <= i < |cards| ==> LimitConsistent(cards[i])
    ensures forall i :: 0 <= i < |cards| ==> LimitConsistent(ApplyCardCharge(cards, t)[i])
  {
  }

  // ----------------------------------------------------------- card queries

  /** getTransactionsByCardId: the transactions whose card id is exactly `cardId`. */
  function TransactionsByCardId(ts: seq<Transaction>, cardId: string): (r: seq<Transaction>)
    ensures forall i :: 0 <= i < |r| ==> r[i].creditCardId == Some(cardId) && r[i] in ts
    ensures forall i :: 0 <= i < |ts| && ts[i].creditCardId == Some(cardId) ==> ts[i] in r
  {
    FilterMembers(ts, (t: Transaction) => t.creditCardId == Some(cardId));
    Filter(ts, (t: Transaction) => t.creditCardId == Some(cardId))
  }

  /** creditCards.find(c => c.id === id). */
  function FindCard(cards: seq<CreditCard>, id: string): (r: Option<CreditCard>)
    ensures r.None? <==> forall i :: 0 <= i < |cards| ==> cards[i].id != id
    ensures r.Some? ==> r.value in cards && r.value.id == id
  {
    if cards == [] then None
    else if cards[0].id == id then Some(cards[0])
    else FindCard(cards[1..], id)
  }

  predicate UniqueIds(cards: seq<CreditCard>)
  {
    forall i, j :: 0 <= i < j < |cards| ==> cards[i].id != cards[j].id
  }

  /** With unique ids, find returns exactly the card with that id. */
  lemma {:induction false} FindUniqueCard(cards: seq<CreditCard>, i: int)
    requires UniqueIds(cards) && 0 <= i < |cards|
    ensures FindCard(cards, cards[i].id) == Some(cards[i])
  {
    if i > 0 {
      assert cards[0].id != cards[i].id;
      FindUniqueCard(cards[1..], i - 1);
    }
  }

  // ---------------------------------------------------------- billing cycle

  datatype BillingCycle = BillingCycle(
    transactions: seq<Transaction>,
    totalAmount: int,
    closeDate: Date,
    dueDate: Date)

  /** This month's closing day, or next month's once now is past this month's closing midnight. */
  function CloseDate(closingDay: int, now: Instant): Date
  {
    var close := Make(now.date.year, now.date.month, closingDay);
    if After(now, close) then Make(now.date.year, now.date.month + 1, closingDay) else close
  }

  /** This month's due day, or next month's when it falls before the closing date. */
  function DueDate(dueDay: int, now: Instant, close: Date): Date
  {
    var due := Make(now.date.year, now.date.month, dueDay);
    if Before(due, close) then Make(now.date.year, now.date.month + 1, dueDay) else due
  }

  /** The previous closing date: the same day one month earlier, with rollover. */
  function PrevClose(close: Date): Date
  {
    SetMonth(close, close.month - 1)
  }

  /** A transaction of the card dated in [from, until). */
  predicate InCycle(t: Transaction, cardId: string, from: Date, until: Date)
  {
    t.creditCardId == Some(cardId) && !Before(t.date, from) && Before(t.date, until)
  }

  function CycleTransactions(ts: seq<Transaction>, cardId: string, from: Date, until: Date): (r: seq<Transaction>)
    ensures forall i :: 0 <= i < |r| ==> r[i] in ts && InCycle(r[i], cardId, from, until)
    ensures forall i :: 0 <= i < |ts| && InCycle(ts[i], cardId, from, until) ==> ts[i] in r
  {
    FilterMembers(ts, (t: Transaction) => InCycle(t, cardId, from, until));
    Filter(ts, (t: Transaction) => InCycle(t, cardId, from, until))
  }

  /**
   * getCurrentBillingCycleForCard: nothing for an unknown card; otherwise the
   * closing and due dates and the card's transactions of the open cycle.
   */
  function CurrentBillingCycle(cards: seq<CreditCard>, ts: seq<Transaction>, cardId: string, now: Instant)
    : (r: Option<BillingCycle>)
    ensures r.None? <==> forall i :: 0 <= i < |cards| ==> cards[i].id != cardId
    ensures r.Some? ==> r.value.totalAmount == SumOf(r.value.transactions, TransactionAmount)
    ensures r.Some? ==> forall i :: 0 <= i < |r.value.transactions| ==>
              (r.value.transactions[i] in ts
               && InCycle(r.value.transactions[i], cardId, PrevClose(r.value.closeDate), r.value.closeDate))
    ensures r.Some? ==>
              forall i :: 0 <= i < |ts| && InCycle(ts[i], cardId, PrevClose(r.value.closeDate), r.value.closeDate)
                ==> ts[i] in r.value.transactions
    ensures r.Some? ==> FindCard(cards, cardId).Some?
    ensures r.Some? ==>
              && r.value.closeDate == CloseDate(FindCard(cards, cardId).value.closingDay, now)
              && r.value.dueDate == DueDate(FindCard(cards, cardId).value.dueDay, now, r.value.closeDate)
    ensures r.Some? ==>
              r.value.transactions == CycleTransactions(ts, cardId, PrevClose(r.value.closeDate), r.value.closeDate)
  {
    match FindCard(cards, cardId)
    case None => None
    case Some(card) =>
      var close := CloseDate(card.closingDay, now);
      var due := DueDate(card.dueDay, now, close);
      var cycle := CycleTransactions(ts, cardId, PrevClose(close), close);
      Some(BillingCycle(cycle, SumOf(cycle, TransactionAmount), close, due))
  }

  /** The cycle keeps the order of the transaction list. */
  lemma CycleInOrder(cards: seq<CreditCard>, ts: seq<Transaction>, cardId: string, now: Instant)
    requires CurrentBillingCycle(cards, ts, cardId, now).Some?
    ensures IsSubsequence(CurrentBillingCycle(cards, ts, cardId, now).value.transactions, ts)
  {
    var close := CurrentBillingCycle(cards, ts, cardId, now).value.closeDate;
    FilterIsSubsequence(ts, (t: Transaction) => InCycle(t, cardId, PrevClose(close), close));
  }

  /** The cycle's transactions are the card's transactions restricted to the window. */
  lemma CycleOfCardTransactions(ts: seq<Transaction>, cardId: string, from: Date, until: Date)
    ensures CycleTransactions(ts, cardId, from, until)
            == Filter(TransactionsByCardId(ts, cardId), (t: Transaction) => !Before(t.date, from) && Before(t.date, until))
  {
    FilterCompose(ts, (t: Transaction) => t.creditCardId == Some(cardId),
                  (t: Transaction) => !Before(t.date, from) && Before(t.date, until),
                  (t: Transaction) => InCycle(t, cardId, from, until));
  }

  /** The open cycle starts strictly before it closes. */
  lemma CycleWindowOrdered(close: Date)
    requires ValidDate(close)
    ensures Before(PrevClose(close), close)
  {
    PrevMonthEarlier(close.year, close.month, close.day);
    BeforeDayNumber(PrevClose(close), close);
  }

  /**
   * With a closing day of at least 1 the closing date is never behind now:
   * a closing midnight already passed moves to the next month, which lies
   * ahead of today.
   */
  lemma CloseNotPassed(closingDay: int, now: Instant)
    requires closingDay >= 1 && ValidInstant(now) && now.date.year >= 100
    ensures !After(now, CloseDate(closingDay, now))
  {
    var y := now.date.year;
    var m := now.date.month;
    assert Make(y, m, closingDay) == Compose(y, m, closingDay);
    if After(now, Compose(y, m, closingDay)) {
      var close := Compose(y, m + 1, closingDay);
      assert CloseDate(closingDay, now) == close;
      NextMonthLater(y, m, closingDay);
      assert DayNumber(now.date) < DayNumber(Date(y, m, 1)) + DaysIn(y, m);
      BeforeDayNumber(now.date, close);
      BeforeDayNumber(close, now.date);
    }
  }

  /**
   * The closing date is this month's closing day while now has not passed
   * its midnight, and otherwise next month's, which is a different date.
   */
  lemma CloseDateChoice(closingDay: int, now: Instant)
    requires 0 <= now.date.month < 12
    ensures var y := now.date.year;
            var m := now.date.month;
            && (!After(now, Make(y, m, closingDay)) ==> CloseDate(closingDay, now) == Make(y, m, closingDay))
            && (After(now, Make(y, m, closingDay)) ==>
                  CloseDate(closingDay, now) == Make(y, m + 1, closingDay)
                  && CloseDate(closingDay, now) != Make(y, m, closingDay))
  {
    NextMonthSameDay(now.date.year, now.date.month, closingDay);
  }

  /**
   * The due date is this month's due day unless that comes before the
   * closing date; then it is next month's due day, one month later, and
   * never a later month than that.
   */
  lemma DueDateChoice(dueDay: int, now: Instant, close: Date)
    requires 0 <= now.date.month < 12
    ensures var y := now.date.year;
            var m := now.date.month;
            && (!Before(Make(y, m, dueDay), close) ==> DueDate(dueDay, now, close) == Make(y, m, dueDay))
            && (Before(Make(y, m, dueDay), close) ==>
                  DueDate(dueDay, now, close) == Make(y, m + 1, dueDay)
                  && DayNumber(DueDate(dueDay, now, close))
                     == DayNumber(Make(y, m, dueDay)) + DaysIn(FullYear(y), m))
  {
    NextMonthSameDay(now.date.year, now.date.month, dueDay);
  }

  /**
   * Once today is past this month's closing date, the due date comes before
   * the closing date exactly when the due day is smaller than the closing day.
   */
  lemma DueBeforeCloseAfterRollover(closingDay: int, dueDay: int, now: Instant)
    requires 0 <= now.date.month < 12
    requires After(now, Make(now.date.year, now.date.month, closingDay))
    ensures var close := CloseDate(closingDay, now);
            Before(DueDate(dueDay, now, close), close) <==> dueDay < closingDay
  {
    var y, m := now.date.year, now.date.month;
    var close := CloseDate(closingDay, now);
    CloseDateChoice(closingDay, now);
    assert close == Make(y, m + 1, closingDay);
    var here := Make(y, m, dueDay);
    var there := Make(y, m + 1, dueDay);
    MonthDays(y, m, closingDay, dueDay);
    DueDateChoice(dueDay, now, close);
    BeforeDayNumber(here, close);
    if Before(here, close) {
      assert DueDate(dueDay, now, close) == there;
      BeforeDayNumber(there, close);
    } else {
      assert DueDate(dueDay, now, close) == here;
    }
  }

  /**
   * Day numbers of day c of the next month and of day d of this and the
   * next month, counted from the first of this month.
   */
  lemma MonthDays(y: int, m: int, c: int, d: int)
    requires 0 <= m < 12
    ensures var s := DayNumber(Date(FullYear(y), m, 1));
            var n := DaysIn(FullYear(y), m);
            && DayNumber(Make(y, m + 1, c)) == s + n + c - 1
            && DayNumber(Make(y, m, d)) == s + d - 1
            && DayNumber(Make(y, m + 1, d)) == s + n + d - 1
  {
    var fy := FullYear(y);
    NextMonthSameDay(y, m, c);
    NextMonthSameDay(y, m, d);
    ComposeInMonth(fy, m, c);
    ComposeInMonth(fy, m, d);
  }

  /** Closing day 20, due day 5, on 10 March 2024: closes 20 March, due 5 April. */
  lemma BillingBeforeClosing()
    ensures var now := Instant(Date(2024, 2, 10), 43200000);
            var close := CloseDate(20, now);
            close == Date(2024, 2, 20) && DueDate(5, now, close) == Date(2024, 3, 5)
            && PrevClose(close) == Date(2024, 1, 20)
  {
    var now := Instant(Date(2024, 2, 10), 43200000);
    assert Make(2024, 2, 20) == Date(2024, 2, 20);
    assert CloseDate(20, now) == Date(2024, 2, 20);
    assert Make(2024, 2, 5) == Date(2024, 2, 5);
    assert Make(2024, 3, 5) == Date(2024, 3, 5);
    assert DueDate(5, now, Date(2024, 2, 20)) == Date(2024, 3, 5);
  }

  /**
   * Closing day 20, due day 5, on 25 March 2024: the closing date rolls to
   * 20 April, but the due date is derived from the current month, so it is
   * 5 April, before the closing date.
   */
  lemma BillingAfterClosing()
    ensures var now := Instant(Date(2024, 2, 25), 0);
            var close := CloseDate(20, now);
            close == Date(2024, 3, 20) && DueDate(5, now, close) == Date(2024, 3, 5)
            && Before(DueDate(5, now, close), close)
  {
  }

  /** A closing day past the end of the month rolls into the next one: day 31 of April is 1 May. */
  lemma ClosingDayOverflow()
    ensures CloseDate(31, Instant(Date(2024, 3, 10), 0)) == Date(2024, 4, 1)
  {
  }

  /** Updates to a record list by id (the map/filter idiom of every CRUD operation). */
  function MarkRead(ns: seq<Notification>, id: string): (r: seq<Notification>)
    ensures |r| == |ns|
    ensures forall i :: 0 <= i < |ns| ==> r[i].read == (ns[i].read || ns[i].id == id)
    ensures forall i :: 0 <= i < |ns| ==> r[i].(read := ns[i].read) == ns[i]
  {
    if ns == [] then [] else [if ns[0].id == id then ns[0].(read := true) else ns[0]] + MarkRead(ns[1..], id)
  }

  /** Marking a notification read twice is marking it once. */
  lemma MarkReadIdempotent(ns: seq<Notification>, id: string)
    ensures MarkRead(MarkRead(ns, id), id) == MarkRead(ns, id)
  {
    var r := MarkRead(ns, id);
    var rr := MarkRead(r, id);
    forall i | 0 <= i < |ns|
      ensures rr[i] == r[i]
    {
      assert rr[i].(read := r[i].read) == r[i];
    }
  }

  // ------------------------------------------------------------------ store

  /**
   * FinanceProvider: the collections and the summary. The summary is kept
   * equal to its recomputation from transactions and income sources, because
   * an effect recomputes it after every change to either.
   */
  class FinanceStore {
    var transactions: seq<Transaction>
    var incomeSources: seq<IncomeSource>
    var budgetCategories: seq<BudgetCategory>
    var savingsGoals: seq<SavingsGoal>
    var creditCards: seq<CreditCard>
    var notifications: seq<Notification>
    var summary: FinancialSummary

    ghost predicate Valid()
      reads this
    {
      summary == RecalculateSummary(transactions, incomeSources)
    }

    constructor(ts: seq<Transaction>, incomes: seq<IncomeSource>, budgets: seq<BudgetCategory>,
                goals: seq<SavingsGoal>, cards: seq<CreditCard>, notes: seq<Notification>)
      ensures Valid()
      ensures transactions == ts && incomeSources == incomes && budgetCategories == budgets
      ensures savingsGoals == goals && creditCards == cards && notifications == notes
    {
      transactions := ts;
      incomeSources := incomes;
      budgetCategories := budgets;
      savingsGoals := goals;
      creditCards := cards;
      notifications := notes;
      summary := RecalculateSummary(ts, incomes);
    }

    /** The effect that recomputes the summary. */
    method Recalculate()
      modifies this
      ensures Valid()
      ensures transactions == old(transactions) && incomeSources == old(incomeSources)
      ensures budgetCategories == old(budgetCategories) && savingsGoals == old(savingsGoals)
      ensures creditCards == old(creditCards) && notifications == old(notifications)
    {
      summary := RecalculateSummary(transactions, incomeSources);
    }

    /**
     * addTransaction: the PIX adjustment (the summary rendered before the
     * recomputation, returned as `rendered`), the card charge, the append
     * under the new id, and then the recomputation.
     */
    method AddTransaction(t: Transaction, newId: string) returns (ghost rendered: FinancialSummary)
      modifies this
      ensures Valid()
      ensures transactions == old(transactions) + [t.(id := newId)]
      ensures creditCards == ApplyCardCharge(old(creditCards), t)
      ensures rendered == PixAdjust(old(summary), t)
      ensures incomeSources == old(incomeSources) && budgetCategories == old(budgetCategories)
      ensures savingsGoals == old(savingsGoals) && notifications == old(notifications)
    {
      if t.kind == Expense {
        if t.paymentMethod == Some(Pix) {
          summary := summary.(totalBalance := summary.totalBalance - t.amount,
                              remainingMoney := summary.remainingMoney - t.amount);
        }
        if t.paymentMethod == Some(Credit) && t.creditCardId.Some? && t.creditCardId.value != "" {
          var id := t.creditCardId.value;
          creditCards := MapWhere(creditCards, (c: CreditCard) => c.id == id, (c: CreditCard) => ChargeCard(c, t.amount));
        }
      }
      rendered := summary;
      transactions := transactions + [t.(id := newId)];
      Recalculate();
    }

    method UpdateTransaction(t: Transaction)
      modifies this
      ensures Valid()
      ensures transactions == ReplaceKey(old(transactions), TransactionId, t)
      ensures incomeSources == old(incomeSources) && budgetCategories == old(budgetCategories)
      ensures savingsGoals == old(savingsGoals) && creditCards == old(creditCards)
      ensures notifications == old(notifications)
    {
      transactions := ReplaceKey(transactions, TransactionId, t);
      Recalculate();
    }

    method DeleteTransaction(id: string)
      modifies this
      ensures Valid()
      ensures transactions == RemoveKey(old(transactions), TransactionId, id)
      ensures incomeSources == old(incomeSources) && budgetCategories == old(budgetCategories)
      ensures savingsGoals == old(savingsGoals) && creditCards == old(creditCards)
      ensures notifications == old(notifications)
    {
      transactions := RemoveKey(transactions, TransactionId, id);
      Recalculate();
    }

    method AddIncome(i: IncomeSource, newId: string)
      modifies this
      ensures Valid()
      ensures incomeSources == old(incomeSources) + [i.(id := newId)]
      ensures transactions == old(transactions) && budgetCategories == old(budgetCategories)
      ensures savingsGoals == old(savingsGoals) && creditCards == old(creditCards)
      ensures notifications == old(notifications)
    {
      incomeSources := incomeSources + [i.(id := newId)];
      Recalculate();
    }

    method UpdateIncome(i: IncomeSource)
      modifies this
      ensures Valid()
      ensures incomeSources == ReplaceKey(old(incomeSources), IncomeId, i)
      ensures transactions == old(transactions) && budgetCategories == old(budgetCategories)
      ensures savingsGoals == old(savingsGoals) && creditCards == old(creditCards)
      ensures notifications == old(notifications)
    {
      incomeSources := ReplaceKey(incomeSources, IncomeId, i);
      Recalculate();
    }

    method DeleteIncome(id: string)
      modifies this
      ensures Valid()
      ensures incomeSources == RemoveKey(old(incomeSources), IncomeId, id)
      ensures transactions == old(transactions) && budgetCategories == old(budgetCategories)
      ensures savingsGoals == old(savingsGoals) && creditCards == old(creditCards)
      ensures notifications == old(notifications)
    {
      incomeSources := RemoveKey(incomeSources, IncomeId, id);
      Recalculate();
    }

    method AddCreditCard(c: CreditCard, newId: string)
      modifies this
      ensures creditCards == old(creditCards) + [c.(id := newId)]
      ensures transactions == old(transactions) && incomeSources == old(incomeSources)
      ensures budgetCategories == old(budgetCategories) && savingsGoals == old(savingsGoals)
      ensures notifications == old(notifications) && summary == old(summary)
    {
      creditCards := creditCards + [c.(id := newId)];
    }

    method UpdateCreditCard(c: CreditCard)
      modifies this
      ensures creditCards == ReplaceKey(old(creditCards), CardId, c)
      ensures transactions == old(transactions) && incomeSources == old(incomeSources)
      ensures budgetCategories == old(budgetCategories) && savingsGoals == old(savingsGoals)
      ensures notifications == old(notifications) && summary == old(summary)
    {
      creditCards := ReplaceKey(creditCards, CardId, c);
    }

    method DeleteCreditCard(id: string)
      modifies this
      ensures creditCards == RemoveKey(old(creditCards), CardId, id)
      ensures transactions == old(transactions) && incomeSources == old(incomeSources)
      ensures budgetCategories == old(budgetCategories) && savingsGoals == old(savingsGoals)
      ensures notifications == old(notifications) && summary == old(summary)
    {
      creditCards := RemoveKey(creditCards, CardId, id);
    }

    method AddBudgetCategory(b: BudgetCategory, newId: string)
      modifies this
      ensures budgetCategories == old(budgetCategories) + [b.(id := newId)]
      ensures transactions == old(transactions) && incomeSources == old(incomeSources)
      ensures creditCards == old(creditCards) && savingsGoals == old(savingsGoals)
      ensures notifications == old(notifications) && summary == old(summary)
    {
      budgetCategories := budgetCategories + [b.(id := newId)];
    }

    method UpdateBudgetCategory(b: BudgetCategory)
      modifies this
      ensures budgetCategories == ReplaceKey(old(budgetCategories), BudgetId, b)
      ensures transactions == old(transactions) && incomeSources == old(incomeSources)
      ensures creditCards == old(creditCards) && savingsGoals == old(savingsGoals)
      ensures notifications == old(notifications) && summary == old(summary)
    {
      budgetCategories := ReplaceKey(budgetCategories, BudgetId, b);
    }

    method DeleteBudgetCategory(id: string)
      modifies this
      ensures budgetCategories == RemoveKey(old(budgetCategories), BudgetId, id)
      ensures transactions == old(transactions) && incomeSources == old(incomeSources)
      ensures creditCards == old(creditCards) && savingsGoals == old(savingsGoals)
      ensures notifications == old(notifications) && summary == old(summary)
    {
      budgetCategories := RemoveKey(budgetCategories, BudgetId, id);
    }

    method AddSavingsGoal(g: SavingsGoal, newId: string)
      modifies this
      ensures savingsGoals == old(savingsGoals) + [g.(id := newId)]
      ensures transactions == old(transactions) && incomeSources == old(incomeSources)
      ensures creditCards == old(creditCards) && budgetCategories == old(budgetCategories)
      ensures notifications == old(notifications) && summary == old(summary)
    {
      savingsGoals := savingsGoals + [g.(id := newId)];
    }

    method UpdateSavingsGoal(g: SavingsGoal)
      modifies this
      ensures savingsGoals == ReplaceKey(old(savingsGoals), GoalId, g)
      ensures transactions == old(transactions) && incomeSources == old(incomeSources)
      ensures creditCards == old(creditCards) && budgetCategories == old(budgetCategories)
      ensures notifications == old(notifications) && summary == old(summary)
    {
      savingsGoals := ReplaceKey(savingsGoals, GoalId, g);
    }

    method DeleteSavingsGoal(id: string)
      modifies this
      ensures savingsGoals == RemoveKey(old(savingsGoals), GoalId, id)
      ensures transactions == old(transactions) && incomeSources == old(incomeSources)
      ensures creditCards == old(creditCards) && budgetCategories == old(budgetCategories)
      ensures notifications == old(notifications) && summary == old(summary)
    {
      savingsGoals := RemoveKey(savingsGoals, GoalId, id);
    }

    method MarkNotificationAsRead(id: string)
      modifies this
      ensures notifications == MarkRead(old(notifications), id)
      ensures transactions == old(transactions) && incomeSources == old(incomeSources)
      ensures creditCards == old(creditCards) && budgetCategories == old(budgetCategories)
      ensures savingsGoals == old(savingsGoals) && summary == old(summary)
    {
      notifications := MarkRead(notifications, id);
    }

    method DeleteNotification(id: string)
      modifies this
      ensures notifications == RemoveKey(old(notifications), NotificationId, id)
      ensures transactions == old(transactions) && incomeSources == old(incomeSources)
      ensures creditCards == old(creditCards) && budgetCategories == old(budgetCategories)
      ensures savingsGoals == old(savingsGoals) && summary == old(summary)
    {
      notifications := RemoveKey(notifications, NotificationId, id);
    }
  }
}
