/**
 * The records of the finance dashboard. Amounts of money are integers of
 * the smallest currency unit; dates are calendar days; the optional fields
 * of the records are Option values.
 */
module Types {
  import opened Seqs
  import opened CivilDate

  datatype Kind = Income | Expense

  datatype Frequency = Monthly | Weekly | Yearly | OneTime

  datatype ExpenseType = Fixed | Variable

  datatype PaymentStatus = Pending | Paid

  /**
   * The payment methods. Boleto is not one of the values the record type
   * declares, but the expense form offers it and stores it unchanged.
   */
  datatype PaymentMethod = Cash | Debit | Credit | Transfer | Pix | Boleto

  /** The methods the Transaction record type itself declares. */
  predicate DeclaredPaymentMethod(m: PaymentMethod)
  {
    !m.Boleto?
  }

  datatype Transaction = Transaction(
    id: string,
    amount: int,
    category: string,
    description: string,
    date: Date,
    kind: Kind,
    recurrent: bool,
    frequency: Option<Frequency>,
    expenseType: Option<ExpenseType>,
    paymentStatus: Option<PaymentStatus>,
    paymentMethod: Option<PaymentMethod>,
    creditCardId: Option<string>,
    dueDate: Option<string>)

  datatype IncomeSource = IncomeSource(
    id: string,
    name: string,
    amount: int,
    date: Date,
    recurrent: bool,
    frequency: Option<Frequency>)

  datatype Brand = Visa | Mastercard | Amex | Elo | Hipercard | OtherBrand

  datatype CreditCard = CreditCard(
    id: string,
    name: string,
    lastDigits: string,
    limit: int,
    closingDay: int,
    dueDay: int,
    currentBalance: int,
    availableLimit: int,
    color: Option<string>,
    brand: Option<Brand>)

  datatype BudgetCategory = BudgetCategory(
    id: string,
    name: string,
    allocation: int,
    spent: int,
    isFixed: Option<bool>)

  datatype SavingsGoal = SavingsGoal(
    id: string,
    name: string,
    target: int,
    current: int,
    deadline: Date)

  datatype Level = Info | Warning | Alert

  datatype Notification = Notification(
    id: string,
    title: string,
    message: string,
    date: string,
    read: bool,
    level: Level,
    link: Option<string>)

  datatype FinancialSummary = FinancialSummary(
    totalIncome: int,
    fixedExpenses: int,
    variableExpenses: int,
    remainingMoney: int,
    totalBalance: int,
    creditCardExpenses: int,
    pendingBills: int)

  /** The credit limit still free on a card, as every mutation of the store maintains it. */
  predicate LimitConsistent(c: CreditCard)
  {
    c.availableLimit == c.limit - c.currentBalance
  }

  function TransactionId(t: Transaction): string { t.id }
  function IncomeId(i: IncomeSource): string { i.id }
  function CardId(c: CreditCard): string { c.id }
  function BudgetId(b: BudgetCategory): string { b.id }
  function GoalId(g: SavingsGoal): string { g.id }
  function NotificationId(n: Notification): string { n.id }

  function TransactionAmount(t: Transaction): int { t.amount }
  function IncomeAmount(i: IncomeSource): int { i.amount }
}
