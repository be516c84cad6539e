# FinanceFlow, modelled in Dafny

FinanceFlow is a personal-finance dashboard written in React. This project models its core and proves
properties of the model:

- **the finance store** (`FinanceContext`): transactions, income sources, credit cards, budget
  categories, savings goals, notifications and the financial summary recomputed from them;
- **the theme store** (`ThemeContext`);
- **the layout's breadcrumb and active section**;
- **the computations of the pages and widgets**: Overview cards, Recent transactions, Budget progress,
  Expenses, Income, Budget, Goals, Credit cards, Education and the assistant Chat.

Form handlers that change state are methods of classes:

- the store is `FinanceContext.FinanceStore`;
- the page states are `Budget.BudgetPage`, `Goals.GoalsPage`, `Education.EducationPage`,
  `Chat.ChatState` and `ThemeContext.ThemeState`.

What each page shows is a function of the store's state. Lemmas relate those functions to each other and
to the summary.

**Numbers**

- Money is an `int` of minor units (centavos). The Expenses page's fallback budget of 5000 reais is
  `500000`.
- A quotient the source displays is a `JsNumber.Num`, which is either a finite value, ±Infinity or
  NaN. This keeps JavaScript's division by zero explicit: a budget with no allocation gives NaN or
  Infinity, and the lemmas say what the colours and bar widths then are.

**Dates**

- Dates are `CivilDate.Date` values with 0-based months.
- `CivilDate.Make` reproduces `new Date(y, m, d)`, including how it carries an out-of-range month or
  day into the next (or previous) month or year.
- The current time is an `Instant`: a date plus the milliseconds since midnight.

**Parameters in place of the outside world**

- Ids that the source draws from `Math.random` or `Date.now` are given as parameters.
- So are the current time, the saved theme, the system colour scheme, the canned chat replies, the
  Education article table and the values the forms parse.

**Behaviours of the code worth knowing**

- Due date. The due date moves at most one month past the current month (FinanceContext.tsx:346-350),
  even when the closing date has already rolled over to the next month. Once the closing date has
  rolled over, the due date comes before the closing date exactly when the due day is smaller than
  the closing day (`FinanceContext.DueBeforeCloseAfterRollover`). With closing day 20 and due day 5,
  the due date is 5 April and the closing date 20 April (`FinanceContext.BillingAfterClosing`).
  `FinanceContext.DueDateChoice` states the due-date rule in general.
- PIX balance. The direct PIX decrement of the balance (FinanceContext.tsx:155-162) does not persist:
  the recomputation effect that follows the append overwrites it (`FinanceContext.PixDecrementOverwritten`).
  The model keeps the balance equal to what is left.
- Due-date field. The Expenses form shows it for cash and for the "boleto" method that the form adds,
  and hides it for the card, PIX, transfer and debit methods (`Expenses.VisibleFields`).

Modules:

| module | what it models |
|---|---|
| `Seqs` and `Text` | the array and string built-ins the source relies on |
| `Grouping` | the reduce into `{name, value}` chart entries |
| `Types` | the records |
| the rest | one module per source file |

## Model

| member | source | states |
|---|---|---|
| FinanceContext.RecalculateSummary | src/context/FinanceContext.tsx:274-311 | what is left is income minus fixed and variable expenses, and the balance equals it |
| FinanceContext.SummaryAppend | src/context/FinanceContext.tsx:274-317 | recomputing after one more transaction equals absorbing that transaction into the old summary |
| FinanceContext.IncomeTransactionIgnored | src/context/FinanceContext.tsx:279-300 | an income-type transaction changes no summary field (income comes only from income sources) |
| FinanceContext.SummaryWithoutTransactions | src/context/FinanceContext.tsx:274-300 | with no transactions every expense total is 0 and what is left is the total income |
| FinanceContext.SummaryAddIncome | src/context/FinanceContext.tsx:196-199 | a new income source raises total income, what is left and the balance by its amount and leaves the rest |
| FinanceContext.ExpensesSplit | src/context/FinanceContext.tsx:279-300 | fixed plus variable is the sum of the expenses that have a type, and what is left is income minus that sum |
| FinanceContext.PixAdjust | src/context/FinanceContext.tsx:155-162 | a PIX expense lowers balance and remaining by its amount, anything else leaves the summary; no other field changes |
| FinanceContext.PixDecrementOverwritten | src/context/FinanceContext.tsx:155-162 | the PIX decrement is visible at first but the recomputation after the append overwrites it when the expense has no type |
| FinanceContext.ChargeCard | src/context/FinanceContext.tsx:166-177 | the charged card's balance rises by the amount and its available limit stays limit minus balance; nothing else changes |
| FinanceContext.ApplyCardCharge | src/context/FinanceContext.tsx:165-179 | only cards whose id is the transaction's card id are charged, and only for a credit expense with a nonempty card id |
| FinanceContext.ChargeTotal | src/context/FinanceContext.tsx:165-179 | total card balance grows by the amount times the number of cards with that id |
| FinanceContext.ChargeUnknownCard | src/context/FinanceContext.tsx:165-179 | a charge to a card id no card has changes no card |
| FinanceContext.ChargeKeepsLimits | src/context/FinanceContext.tsx:166-177 | every card keeps available limit equal to limit minus balance |
| FinanceContext.TransactionsByCardId | src/context/FinanceContext.tsx:322-324 | exactly the transactions of that card |
| FinanceContext.FindCard | src/context/FinanceContext.tsx:331-332 | no card when no id matches; otherwise a card of the list with that id |
| FinanceContext.FindUniqueCard | src/context/FinanceContext.tsx:331 | with unique ids the card found for an id is the card holding it |
| FinanceContext.CurrentBillingCycle | src/context/FinanceContext.tsx:330-373 | no cycle for an unknown card; otherwise the closing and due dates computed from the found card's closing and due days, exactly the card's transactions from the previous closing (inclusive) to this closing (exclusive), as the filter of the transaction list, and their sum |
| FinanceContext.CycleInOrder | src/context/FinanceContext.tsx:357-362 | the cycle's transactions keep the store's order |
| FinanceContext.CycleOfCardTransactions | src/context/FinanceContext.tsx:357-362 | the cycle is the card's transactions narrowed to the date window |
| FinanceContext.CycleWindowOrdered | src/context/FinanceContext.tsx:353-354 | the previous closing date is before the closing date |
| FinanceContext.CloseNotPassed | src/context/FinanceContext.tsx:339-343 | the closing date chosen has not passed |
| FinanceContext.CloseDateChoice | src/context/FinanceContext.tsx:339-343 | this month's closing date while now has not passed it, otherwise next month's, a different date |
| FinanceContext.DueDateChoice | src/context/FinanceContext.tsx:346-350 | this month's due date unless it is before the closing date, otherwise next month's, exactly one month length later |
| FinanceContext.DueBeforeCloseAfterRollover | src/context/FinanceContext.tsx:339-350 | once the closing date has rolled over, the due date is before it exactly when the due day is smaller than the closing day |
| FinanceContext.BillingBeforeClosing | src/context/FinanceContext.tsx:339-354 | before the closing day: closing this month, due next month, previous closing one month back |
| FinanceContext.BillingAfterClosing | src/context/FinanceContext.tsx:339-350 | after the closing day the closing moves to next month, and the due date, moved at most one month past the current month, falls before it |
| FinanceContext.ClosingDayOverflow | src/context/FinanceContext.tsx:339 | closing day 31 in a 30-day month rolls into the next month |
| FinanceContext.MarkRead | src/context/FinanceContext.tsx:260-264 | the notifications with the id are read, others keep their flag, and nothing else changes |
| FinanceContext.MarkReadIdempotent | src/context/FinanceContext.tsx:260-264 | marking a notification read twice is the same as once |
| FinanceContext.FinanceStore.constructor | src/context/FinanceContext.tsx:125-143 | the store opens on the given collections with the summary consistent |
| FinanceContext.FinanceStore.Recalculate | src/context/FinanceContext.tsx:274-317 | the summary is recomputed and no collection changes |
| FinanceContext.FinanceStore.AddTransaction | src/context/FinanceContext.tsx:149-183 | the transaction is appended with the fresh id, card charged, PIX summary shown, then the summary recomputed |
| FinanceContext.FinanceStore.UpdateTransaction | src/context/FinanceContext.tsx:185-189 | the transaction with the same id is replaced, summary kept consistent |
| FinanceContext.FinanceStore.DeleteTransaction | src/context/FinanceContext.tsx:191-193 | every transaction with the id is removed, summary kept consistent |
| FinanceContext.FinanceStore.AddIncome | src/context/FinanceContext.tsx:196-199 | the income source is appended with the fresh id, summary kept consistent |
| FinanceContext.FinanceStore.UpdateIncome | src/context/FinanceContext.tsx:201-205 | the income source with the same id is replaced |
| FinanceContext.FinanceStore.DeleteIncome | src/context/FinanceContext.tsx:207-209 | income sources with the id are removed |
| FinanceContext.FinanceStore.AddCreditCard | src/context/FinanceContext.tsx:212-215 | the card is appended with the fresh id; nothing else changes |
| FinanceContext.FinanceStore.UpdateCreditCard | src/context/FinanceContext.tsx:217-221 | the card with the same id is replaced |
| FinanceContext.FinanceStore.DeleteCreditCard | src/context/FinanceContext.tsx:223-225 | cards with the id are removed |
| FinanceContext.FinanceStore.AddBudgetCategory | src/context/FinanceContext.tsx:228-231 | the category is appended with the fresh id |
| FinanceContext.FinanceStore.UpdateBudgetCategory | src/context/FinanceContext.tsx:233-237 | the category with the same id is replaced |
| FinanceContext.FinanceStore.DeleteBudgetCategory | src/context/FinanceContext.tsx:239-241 | categories with the id are removed |
| FinanceContext.FinanceStore.AddSavingsGoal | src/context/FinanceContext.tsx:244-247 | the goal is appended with the fresh id |
| FinanceContext.FinanceStore.UpdateSavingsGoal | src/context/FinanceContext.tsx:249-253 | the goal with the same id is replaced |
| FinanceContext.FinanceStore.DeleteSavingsGoal | src/context/FinanceContext.tsx:255-257 | goals with the id are removed |
| FinanceContext.FinanceStore.MarkNotificationAsRead | src/context/FinanceContext.tsx:260-264 | the notifications become MarkRead of the old ones; nothing else changes |
| FinanceContext.FinanceStore.DeleteNotification | src/context/FinanceContext.tsx:266-268 | notifications with the id are removed |
| Seqs.RemoveAppended | src/context/FinanceContext.tsx:191-193 | deleting the id of an item just added restores the list (add/delete round trip) |
| Seqs.RemoveAfterReplace | src/context/FinanceContext.tsx:185-193 | deleting after updating is the same as deleting |
| Seqs.ReplaceIdempotent | src/context/FinanceContext.tsx:185-189 | updating twice with the same record is the same as once |
| Seqs.RemoveAbsentKey | src/context/FinanceContext.tsx:191-193 | deleting an id no item has changes nothing |
| Seqs.RemoveKey | src/context/FinanceContext.tsx:191-193 | deleting an id drops exactly the items with that id and keeps every other item, as filter does |
| Seqs.RemoveKeyInOrder | src/context/FinanceContext.tsx:191-193 | the items left after a delete keep their order |
| ThemeContext.ThemeName | src/context/ThemeContext.tsx:75-84 | the stored name is "dark" exactly for the dark theme and "light" exactly for the light one |
| ThemeContext.InitialThemeChoice | src/context/ThemeContext.tsx:36-48 | dark exactly when "dark" is saved, or nothing is saved and the system prefers dark; a saved value overrides the system |
| ThemeContext.Flip | src/context/ThemeContext.tsx:87-89 | toggling always changes the theme |
| ThemeContext.FlipTwice | src/context/ThemeContext.tsx:87-89 | toggling twice restores the theme |
| ThemeContext.SavedThemeReadsBack | src/context/ThemeContext.tsx:36-48 | a theme written by setTheme is the theme chosen on the next mount, whatever the system prefers |
| ThemeContext.ThemeState.constructor | src/context/ThemeContext.tsx:34-48 | the mount effect picks the initial theme and the dark class follows it |
| ThemeContext.ThemeState.SetTheme | src/context/ThemeContext.tsx:75-84 | the theme is set and saved, and the dark class follows it |
| ThemeContext.ThemeState.ToggleTheme | src/context/ThemeContext.tsx:87-94 | the theme flips, is saved, and isDarkMode flips |
| ThemeContext.ThemeState.MediaChange | src/context/ThemeContext.tsx:54-65 | the theme follows the system only while nothing is saved; the saved value is never written |
| Breadcrumb.Segments | src/components/Breadcrumb.tsx:15 | segments are nonempty and slash-free, and every nonempty piece of the path is one |
| Breadcrumb.LinkExtends | src/components/Breadcrumb.tsx:26 | each link is the previous one plus a slash and its segment |
| Breadcrumb.LinkPieces | src/components/Breadcrumb.tsx:26 | a link splits back into an empty piece and the segments up to it |
| Breadcrumb.LinkRoundTrip | src/components/Breadcrumb.tsx:15-26 | following a crumb's link gives the breadcrumb cut at that crumb |
| Breadcrumb.Label | src/components/Breadcrumb.tsx:5-31 | the route's page name when it has one, otherwise the segment itself |
| Breadcrumb.Crumbs | src/components/Breadcrumb.tsx:15-31 | one crumb per segment |
| Breadcrumb.OnlyLastIsCurrent | src/components/Breadcrumb.tsx:27-29 | exactly the last crumb is current, and it links to the whole path |
| Breadcrumb.SingleCrumb | src/components/Breadcrumb.tsx:15-31 | a one-level page has one current crumb linking to itself |
| Breadcrumb.CrumbExamples | src/components/Breadcrumb.tsx:5-31 | the root has no crumbs; a known route is named and an unknown one keeps its text |
| Breadcrumb.LinkKeepsSection | src/layouts/AppLayout.tsx:14 | a crumb link's section is the first segment, which is the page's own section when the pathname starts with a slash followed by a segment |
| Breadcrumb.EmptyFirstPieceSection | src/layouts/AppLayout.tsx:14 | on a path with an empty piece after the first slash the page opens the overview but its crumb opens the segment's section |
| Breadcrumb.RootSection | src/layouts/AppLayout.tsx:14 | the root and the empty path open the overview |
| OverviewCards.TopExpenses | src/components/OverviewCards.tsx:175-183 | at most the list size, sorted by amount descending, each an expense of that type |
| OverviewCards.TopExpensesSelection | src/components/OverviewCards.tsx:175-183 | the list together with the left-over candidates is a permutation of the candidates, and nothing left over beats a listed one |
| OverviewCards.BalanceShare | src/components/OverviewCards.tsx:127-137 | the share is part over total times 100, and 0 when the total is not positive |
| OverviewCards.BalanceSharesAddUp | src/components/OverviewCards.tsx:127-137 | the three shares add up to 100, or are all 0 |
| OverviewCards.MaxOf | src/components/OverviewCards.tsx:41 | the maximum is in the data and no value exceeds it |
| OverviewCards.MinOf | src/components/OverviewCards.tsx:42 | the minimum is in the data and no value is below it |
| OverviewCards.BarHeights | src/components/OverviewCards.tsx:41-54 | one height per value, each between 15 and 100 percent |
| OverviewCards.BarHeightsExtremes | src/components/OverviewCards.tsx:43-51 | flat data draws every bar at 50; otherwise the maximum draws 100 and the minimum 15 |
| OverviewCards.ExpensesCardTotal | src/components/OverviewCards.tsx:185-206 | the expenses card shows the sum of typed expenses, and income minus it is what is left |
| RecentTransactions.Recent | src/components/RecentTransactions.tsx:40-42 | at most five store transactions, newest first |
| RecentTransactions.RecentAreNewest | src/components/RecentTransactions.tsx:40-42 | no transaction left out is newer than one shown, and shown plus left out is every transaction |
| RecentTransactions.PrefixAndSummary | src/components/RecentTransactions.tsx:45-51 | a "+" row leaves the summary as it was, and a "-" row with a nonnegative amount never raises what is left |
| RecentTransactions.CategoryIcon | src/components/RecentTransactions.tsx:5-24 | the table's icon for a known category, the shopping bag otherwise |
| RecentTransactions.IconExamples | src/components/RecentTransactions.tsx:5-24 | sample categories get their table icons, an unknown one the bag |
| RecentTransactions.ColoursByKind | src/components/RecentTransactions.tsx:27-34 | icon colour and background depend only on the kind, and income and expense differ |
| BudgetProgress.SameThresholdsAsBudgetPage | src/components/BudgetProgress.tsx:55-72 | the widget's status and the Budget page's colour are the same three bands |
| BudgetProgress.StatusThresholds | src/components/BudgetProgress.tsx:55-74 | attention from 90 percent, monitoring from 75, good below; over budget exactly when the remainder is negative |
| BudgetProgress.BarWidthBounds | src/components/BudgetProgress.tsx:111 | the bar never passes 100 unless NaN, equals the usage up to the allocation, and is NaN for 0 of 0 |
| BudgetProgress.FirstFrame | src/components/BudgetProgress.tsx:10-26 | the first frame, before the delay, draws an empty bar in the good status with no label |
| BudgetProgress.BoundaryPercentages | src/components/BudgetProgress.tsx:55-72 | 90 percent is attention, 75 is monitoring |
| Grouping.GroupByKey | src/pages/Expenses.tsx:99-111 | the loop's entries equal the grouped sums, first-seen key order |
| Grouping.GroupNames | src/pages/Expenses.tsx:99-111 | the entry names are the distinct keys in first-seen order |
| Grouping.GroupValues | src/pages/Expenses.tsx:99-111 | each entry's value is the sum of the items with its key |
| Grouping.GroupTotal | src/pages/Expenses.tsx:99-111 | the entry values add up to the sum of all items |
| Expenses.OfType | src/pages/Expenses.tsx:100-102 | no type keeps the data; a type keeps exactly the items of that type |
| Expenses.GetCategoryData | src/pages/Expenses.tsx:99-111 | the chart entries are the per-category sums of the selected items |
| Expenses.CategoryData | src/pages/Expenses.tsx:99-111 | the chart has one entry per distinct category, each holding its sum, and adds up to the total |
| Expenses.FixedAndVariableCharts | src/pages/Expenses.tsx:194-196 | when every item has a type, the fixed and variable charts add up to the all-types chart |
| Expenses.FilteredTransactions | src/pages/Expenses.tsx:186-191 | in order, exactly the expenses that match the category and type filters |
| Expenses.NoFilterKeepsEveryExpense | src/pages/Expenses.tsx:186-191 | with no filter the list is every expense |
| Expenses.FilteredTotalsMatchSummary | src/pages/Expenses.tsx:186-203 | the fixed and variable filtered totals equal the summary's fixed and variable expenses |
| Expenses.AvailableCategories | src/pages/Expenses.tsx:184 | "Todas" first, then each expense category exactly once and nothing else, in the order of the Set of the expenses' categories |
| Seqs.DistinctFirstOccurrence | src/pages/Expenses.tsx:184 | a Set lists its elements in the order of their first occurrence |
| Expenses.TotalBudget | src/pages/Expenses.tsx:181 | the allocations' sum, or the default budget when that sum is 0 |
| Expenses.NoCategoriesDefaultBudget | src/pages/Expenses.tsx:181 | no categories means the 5000-real default |
| Expenses.ZeroAllocationsDefaultBudget | src/pages/Expenses.tsx:181 | categories that all allocate 0 sum to 0 and leave the 5000-real default in force |
| Expenses.BudgetPercentage | src/pages/Expenses.tsx:205 | always a finite number, since the budget is never 0 |
| Expenses.FlagsExclusive | src/pages/Expenses.tsx:206-207 | never both over and near budget |
| Expenses.FlagsMeaning | src/pages/Expenses.tsx:205-207 | over budget exactly when spending exceeds the budget; near exactly when it is above 80 percent and not over |
| Expenses.BuildExpense | src/pages/Expenses.tsx:243-256 | an expense with the form's fields; frequency only when recurrent, card id only for credit, due date only when given |
| Expenses.SubmittedExpenseSummary | src/pages/Expenses.tsx:240-261 | a submitted expense raises fixed or variable, card and pending totals by its amount and lowers what is left by it |
| Expenses.SubmittedExpenseCards | src/pages/Expenses.tsx:243-256 | a non-credit submission charges no card |
| Expenses.HandleSubmit | src/pages/Expenses.tsx:240-261 | the built expense is added to the store with the fresh id and the summary is consistent |
| Expenses.VisibleFields | src/pages/Expenses.tsx:291-306 | the due date shows for cash and boleto; card select and due date never both |
| Income.NonRecurrentIsOneOffSum | src/pages/Income.tsx:110-112 | total minus recurrent is the sum of the non-recurrent sources, and the two add up to the total |
| Income.NoSourcesShareNaN | src/pages/Income.tsx:180-191 | with no income both shares are NaN |
| Income.SharesAddUp | src/pages/Income.tsx:180-191 | with nonzero income both shares are finite and add up to 100 |
| Income.IncomeChartData | src/pages/Income.tsx:54-62 | the chart entries are the per-name sums of the sources |
| Income.ChartData | src/pages/Income.tsx:54-62 | one entry per distinct name, holding its sum, adding up to total income |
| Budget.AllocationValue | src/pages/Budget.tsx:62 | a value that does not parse becomes 0 |
| Budget.SetAllocation | src/pages/Budget.tsx:61-68 | the rows with the id get the new allocation; every other field and row is kept |
| Budget.SetAllocationSpent | src/pages/Budget.tsx:61-68 | editing an allocation never changes total spent |
| Budget.SetAllocationTotal | src/pages/Budget.tsx:61-68 | total allocated changes by the new value minus the old one for each edited row |
| Budget.MaxIdNumber | src/pages/Budget.tsx:73 | a maximum only when every id parses; no id exceeds it |
| Budget.NewCategoryIdFresh | src/pages/Budget.tsx:73 | the new id is one more than the largest and matches no row; an id that does not parse gives "NaN" |
| Budget.NewCategoryIdExamples | src/pages/Budget.tsx:73 | the first id is "1"; a non-numeric id gives "NaN" |
| Budget.UpdatesLand | src/pages/Budget.tsx:87-93 | saving replaces each stored row by the edited row with its id and keeps the rest |
| Budget.SaveWritesBack | src/pages/Budget.tsx:87-93 | saving edits with the stored ids writes the edits back |
| Budget.EditThenSave | src/pages/Budget.tsx:61-93 | editing an allocation and saving stores the edited list |
| Budget.PercentUsedMeaning | src/pages/Budget.tsx:110-113 | finite; 0 with no allocation; over 100 exactly when the remainder is negative |
| Budget.Animated | src/pages/Budget.tsx:261 | the animated row for an id, or the row itself |
| Budget.AnimationSettled | src/pages/Budget.tsx:25-35 | once the animation has copied the rows, each row shows its own usage |
| Budget.ToneThresholds | src/pages/Budget.tsx:268-291 | red from 90 percent, yellow from 75, green below; the alert shows exactly on red |
| Budget.ZeroAllocationTone | src/pages/Budget.tsx:262-278 | with no allocation any spending is red and none is green |
| Budget.BudgetPage.constructor | src/pages/Budget.tsx:11-27 | the page opens on the store's categories with an empty form |
| Budget.BudgetPage.Sync | src/pages/Budget.tsx:25-27 | the page copies the store's categories |
| Budget.BudgetPage.AllocationChange | src/pages/Budget.tsx:61-68 | the page's rows get the parsed allocation |
| Budget.BudgetPage.AddCategory | src/pages/Budget.tsx:70-85 | a blank name or non-positive allocation changes nothing; otherwise the category is added and the form reset |
| Budget.BudgetPage.SaveChanges | src/pages/Budget.tsx:87-93 | every page row is written to the store and the success flag set |
| Goals.GoalListsPartition | src/pages/Goals.tsx:151-155 | completed and in-progress split the goals and their savings |
| Goals.DaysLeft | src/pages/Goals.tsx:75-78 | never negative; a positive value is the time left in days, rounded up |
| Goals.LateAndDaysLeft | src/pages/Goals.tsx:72-78 | a late goal has 0 days left, a future deadline at least 1, and a completed goal is never late |
| Goals.AddedTo | src/pages/Goals.tsx:101-104 | the goal's savings grow by the value and nothing else changes |
| Goals.AddValueTotal | src/pages/Goals.tsx:98-108 | adding to a stored goal raises total saved by the value, keeps the target, and keeps a completed goal completed |
| Goals.NewGoalChecks | src/pages/Goals.tsx:110-127 | a blank name passes the goal form's check; a new goal starts in progress |
| Goals.SavingsPercentage | src/pages/Goals.tsx:155-157 | saved over target times 100, 0 without a positive target |
| Goals.AllCompletedReachTarget | src/pages/Goals.tsx:151-157 | when every goal is completed the total saved reaches the target and the percentage 100 |
| Goals.MonthIndex | src/pages/Goals.tsx:136 | a month index 0 to 11 |
| Goals.MonthWindow | src/pages/Goals.tsx:132-136 | the chart ends at the current month, months follow one another and none repeats |
| Goals.Round | src/pages/Goals.tsx:140-143 | the nearest integer |
| Goals.WeightedSum | src/pages/Goals.tsx:137-141 | the point's reduce is total saved times the share |
| Goals.ProgressData | src/pages/Goals.tsx:130-148 | seven points named by the month window |
| Goals.ProgressValues | src/pages/Goals.tsx:130-148 | the last point is the total saved, each is its rounded share, and they never go down for nonnegative savings |
| Goals.AnimationValues | src/pages/Goals.tsx:37-55 | one value per goal id, 0 before the delay and the saved amount after it, the last goal winning |
| Goals.RingBounds | src/pages/Goals.tsx:251-252 | the ring never passes 100 unless NaN; a settled in-progress goal shows its share, below 100 |
| Goals.GoalsPage.constructor | src/pages/Goals.tsx:12-35 | the page opens on the store's goals with an empty form dated today |
| Goals.GoalsPage.Sync | src/pages/Goals.tsx:33-35 | the page copies the store's goals |
| Goals.GoalsPage.ShowAddValue | src/pages/Goals.tsx:92-96 | the goal is remembered, the value cleared and the dialog opened |
| Goals.GoalsPage.AddValue | src/pages/Goals.tsx:98-108 | without a goal or a positive value nothing happens; otherwise the store gets the goal with the value added |
| Goals.GoalsPage.AddNewGoal | src/pages/Goals.tsx:110-127 | a rejected form changes nothing; otherwise the goal is stored with nothing saved and the form reset |
| CreditCards.Chunks | src/pages/CreditCards.tsx:138-147 | groups of four digits, only the last shorter, none for no digits |
| CreditCards.ChunksConcat | src/pages/CreditCards.tsx:138-147 | the groups put together are the digits |
| CreditCards.FormatCardNumber | src/pages/CreditCards.tsx:138-147 | the loop gives the digits in groups of four joined by spaces |
| CreditCards.MaskSpacesOnly | src/pages/CreditCards.tsx:138-147 | removing the spaces from the mask gives back the digits |
| CreditCards.MaskIdempotent | src/pages/CreditCards.tsx:138-150 | formatting an already formatted number changes nothing |
| CreditCards.MaskLength | src/pages/CreditCards.tsx:138-147 | the mask has one space per full group before the last |
| CreditCards.LastFour | src/pages/CreditCards.tsx:96 | at most the last four characters, which end the text |
| CreditCards.LastDigitsOfMask | src/pages/CreditCards.tsx:96 | the last digits of a masked number are the last four digits typed |
| CreditCards.EditKeepsLastDigits | src/pages/CreditCards.tsx:78-96 | re-submitting an edited card keeps its last digits |
| CreditCards.BuildCardData | src/pages/CreditCards.tsx:98-108 | the card takes the form's fields, keeps the edited card's balance, and keeps limit minus balance available |
| CreditCards.HandleSubmit | src/pages/CreditCards.tsx:92-117 | an edit replaces the selected card and a new card is appended; the transactions, summary, income sources, budget categories, goals and notifications are untouched |
| CreditCards.EditOnlyTouchesSelected | src/pages/CreditCards.tsx:110-114 | an edit changes only the selected card and keeps its balance |
| CreditCards.RecentCardTransactions | src/pages/CreditCards.tsx:133-135 | the first five of the card's transactions |
| CreditCards.AlmostDueMeaning | src/pages/CreditCards.tsx:208-209 | almost due exactly when the due date is one to five days ahead |
| CreditCards.UsageColorThresholds | src/pages/CreditCards.tsx:339-343 | red above 80 percent use, amber above 60, green otherwise |
| CreditCards.UsageZeroLimit | src/pages/CreditCards.tsx:339-343 | with no limit any balance is red at full width and none is green with a NaN width |
| CreditCards.UsageWidthBounded | src/pages/CreditCards.tsx:339-343 | the usage bar never passes 100 unless NaN |
| Education.FindCategoryName | src/pages/Education.tsx:102 | a name exactly when some category has the id, and then that category's name |
| Education.VisibleArticles | src/pages/Education.tsx:96-137 | the visible articles are, in order, exactly those that pass every filter that is set |
| Education.CategoryStep | src/pages/Education.tsx:101-108 | the category step filters only for a known, named category other than "all" |
| Education.CategoryAllOrUnknown | src/pages/Education.tsx:101-108 | "all" and an unknown id filter nothing |
| Education.DurationBuckets | src/pages/Education.tsx:116-124 | a parsed duration is in exactly one bucket, an unparsed one in none |
| Education.BlankQueryKeepsAll | src/pages/Education.tsx:127-134 | a blank search keeps every article |
| Education.ClearedShowsAll | src/pages/Education.tsx:156-161 | with the filters cleared every article is visible |
| Education.FilterArticles | src/pages/Education.tsx:96-137 | the step-by-step effect equals filtering by all four tests at once |
| Education.Toggle | src/pages/Education.tsx:148-154 | the id is saved exactly when it was not; other ids keep their state |
| Education.ToggleTwice | src/pages/Education.tsx:148-154 | no repeats appear, and toggling twice restores the saved set (the list itself when the id was absent) |
| Education.EducationPage.constructor | src/pages/Education.tsx:86-95 | every article visible, no filter, nothing saved |
| Education.EducationPage.ApplyFilters | src/pages/Education.tsx:96-137 | the visible list is the filtered articles and the filters are kept |
| Education.EducationPage.ToggleSaveArticle | src/pages/Education.tsx:148-154 | the saved list is toggled and nothing else changes |
| Education.EducationPage.ClearFilters | src/pages/Education.tsx:156-161 | the filters are reset |
| Chat.FirstKeyword | src/pages/Chat.tsx:42-46 | the first table keyword the query contains, or the table's end when none does |
| Chat.FindBestResponse | src/pages/Chat.tsx:38-63 | the loop with its early return picks the topic the definition picks |
| Chat.KeywordChoice | src/pages/Chat.tsx:42-46 | the first keyword contained decides the reply |
| Chat.StemChoice | src/pages/Chat.tsx:49-57 | with no keyword the stems decide |
| Chat.FallbackChoice | src/pages/Chat.tsx:60-63 | the default reply exactly when neither a keyword nor a stem occurs |
| Chat.Progress | src/pages/Chat.tsx:151 | the progress lies in 0 to 100 and is 100 when every line is shown |
| Chat.TypedLine | src/pages/Chat.tsx:139-153 | each tick extends the text by a newline and the next line |
| Chat.TypedAll | src/pages/Chat.tsx:117-156 | when the lines run out the typed text is the reply |
| Chat.TypeOut | src/pages/Chat.tsx:117-156 | after typing, the last message holds the reply text, the others are unchanged, and the progress is 100 |
| Chat.ChatState.constructor | src/pages/Chat.tsx:97-106 | the chat opens on its initial messages with an empty input |
| Chat.ChatState.SendMessage | src/pages/Chat.tsx:160-177 | blank input is ignored; otherwise the untrimmed input is sent and cleared |
| Chat.ChatState.SendSuggestion | src/pages/Chat.tsx:189-199 | the suggestion is sent as a user message without a blank check |
| Chat.ChatState.Reply | src/pages/Chat.tsx:112-158 | one AI message holding the chosen reply's text and suggestions is appended, and typing ends with the progress at 0 |
| Chat.ChatState.ClearChat | src/pages/Chat.tsx:222-225 | only the welcome message remains |
| Chat.ChatState.ExportChat | src/pages/Chat.tsx:201-220 | an export appends one assistant message confirming the format and leaves the input as it was |
| Chat.ExportNotice | src/pages/Chat.tsx:212-217 | the confirmation is the fixed sentence with the format in capitals and a final full stop |
| Chat.ExportNoticeNamesFormat | src/pages/Chat.tsx:214 | the format named in the confirmation lower-cases back to the format asked for |
| Chat.ExportNoticeExamples | src/pages/Chat.tsx:263-269 | the PDF and TXT buttons confirm "PDF" and "TXT" |
| Chat.ChatState.QuickAction | src/pages/Chat.tsx:185-187 | the action's text is put in the input |
| Text.TrimBlank | src/pages/Budget.tsx:71 | trimming gives the empty string exactly when every character is whitespace |
| Text.TrimIdempotent | src/pages/Chat.tsx:161 | trimming twice is trimming once |
| Text.ToLowerIdempotent | src/pages/Chat.tsx:39 | lower-casing twice is lower-casing once |
| Text.ToUpper | src/pages/Chat.tsx:214 | every small letter becomes its capital and no small letter is left |
| Text.LowerUndoesUpper | src/pages/Chat.tsx:214 | lower-casing undoes upper-casing on a text without capitals |
| Text.ParseIntString | src/pages/Budget.tsx:73 | parseInt reads back the decimal text of a nonnegative integer |
| CivilDate.ForwardDayNumber | src/context/FinanceContext.tsx:339-350 | a day past the month's end is counted on into the next months |
| CivilDate.BackwardDayNumber | src/context/FinanceContext.tsx:339-350 | a day before the first is counted back into the previous months |
| CivilDate.BeforeDayNumber | src/context/FinanceContext.tsx:357-362 | one date is before another exactly when its day number is smaller |
| CivilDate.BeforeOrder | src/context/FinanceContext.tsx:357-362 | date order is a strict total order |
| CivilDate.PrevMonthEarlier | src/context/FinanceContext.tsx:353-354 | the same day a month back is earlier |
| CivilDate.NextMonthSameDay | src/context/FinanceContext.tsx:342 | the same day a month on is the length of the current month later, so never the same date |
| CivilDate.DaysUntil | src/pages/CreditCards.tsx:208 | the whole days until midnight of the date, rounded up |
| JsNumber.Div | src/pages/Budget.tsx:262 | division by zero gives ±Infinity, or NaN for 0/0 |
| JsNumber.PercentCompare | src/components/BudgetProgress.tsx:55-72 | with a positive whole, comparing a percentage is comparing cross-multiplied integers |
| JsNumber.PercentOfZero | src/components/BudgetProgress.tsx:55 | a percentage of 0 is Infinity, NaN or -Infinity by the sign of the part |
| JsNumber.NaNIncomparable | src/components/BudgetProgress.tsx:62-72 | NaN fails every comparison |
| JsNumber.Min | src/pages/Goals.tsx:252 | NaN stays NaN; anything else is at most the bound, and a value already within it is kept |

## Left out

- Floating point: money is whole centavos and ratios are exact reals. `toFixed`, the `Intl` currency format and rounding to display precision are not modelled.
- Rendering: markup, CSS classes, charts (Recharts) and the click-outside handlers for modals are not modelled, except where the displayed value is a computation (bar widths, colours, labels).
- Timers: `setTimeout`/`setInterval` animations are modelled by their start and end values only. This covers the Budget, Goals, Education and BudgetProgress delays and the Chat typing interval, which runs to completion in one call.
- The Expenses and Income count-up animations (Expenses.tsx:210-221, Income.tsx:115-125) and the Chat `isThinking` flag are not modelled.
- Time zones and date-string parsing: dates are already civil dates in local time, and `new Date(string)` parsing is not modelled.
- Randomness: the ids from `generateId` (FinanceContext.tsx:146) and `Date.now()` are parameters.
- Browser APIs: `localStorage`, `matchMedia` and the document's class list are fields and parameters of `ThemeState`. The main entry point's separate read of a `'theme'` key (main.tsx:9) is not part of this model.
- Dialogs and export: `window.confirm` before deletes and the Budget page's console-only export button (Budget.tsx:95-100) are not modelled. Of the Chat export (Chat.tsx:201-220), the log line with the conversation text and the closing of the export menu are not modelled; the confirmation message it appends is (`Chat.ChatState.ExportChat`).
- Form parsing: `parseFloat`/`parseInt` of input strings is a parameter (`Option<int>` for a value that may not parse), except `parseInt` of ids and durations, which is `Text.ParseInt`.
- Text.ParseIntString: the read-back is stated for nonnegative integers only. Those are the only ids the Budget page computes, one more than a maximum of at least 0.
- `handleFormChange` (Expenses.tsx:264-289) and the form field setters are not modelled. The handlers take the already parsed form.
- `Object.entries` order is the declaration order of the tables.
- Grouping.GroupByKey: the entries are in first-seen key order. In the source, `Object.entries` lists integer-like keys such as "2024" first, in ascending order. The model does not reorder them. The app's keys are categories from a select and fixed income names, so none is integer-like.
- Grouping.GroupNames: the names are in first-seen key order, with the same gap for integer-like keys.
- Prototype keys are not modelled: a route or category named `constructor` would, in the source, pick up `Object.prototype` members.
- `toLowerCase` and `toUpperCase` are modelled for ASCII and Latin-1 letters only. `toUpperCase` leaves "ß", "ÿ" and "µ" as they are, although JavaScript maps them to "SS" and to letters outside Latin-1.
- The optional `transactions` list of a credit card (types.ts:72) is not part of the card record here. No modelled operation reads or writes it: a card's transactions are found by `FinanceContext.TransactionsByCardId`.
- The Income page's chart groups the sources it is given; the module-level list it reads in the source is a parameter.
- The Overview page (Overview.tsx) only composes the widgets and is not modelled.
- The source's budget field `allocated` is named `allocation` here, because `allocated` is a Dafny keyword.
- Budget.BudgetPage.AddCategory: the id computed at Budget.tsx:73 is passed to the store, which overwrites it with its own fresh id. The method therefore stores the store's id; `Budget.NewCategoryId` models the computed id separately.
- Goals.GoalsPage.AddValue: the goal added to is the snapshot remembered when the dialog opened, as in the source. A store update in between is lost.
- Chat.TypeOut: React's in-place mutation of the last message object (Chat.tsx:146-149) is modelled as replacing that message, so aliasing is not captured.
- Chat: the texts of the canned replies are not copied. `Chat.Topic` names them and `Chat.ChatState.Reply` takes the reply table as a parameter.
- Chat: message timestamps and the time format are not modelled.
- Education: the article table is a parameter. The reading-progress animation and the category colours are not modelled.
- Stale closures and state batching: each handler is modelled on the state it reads, as if React applied updates at once.
- The sidebar, header, theme toggle button and theme demo are presentational and are not modelled.
