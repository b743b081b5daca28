/** The entities of the budget tracker (src/types/models.ts).
    Dates are instants in milliseconds since the epoch; amounts are reals. */
module Models {
  import opened Wrappers

  /** A `Date`, as its `getTime()` value in milliseconds. */
  type Instant = int

  /** A stored budget. `isActive` is declared boolean but the data layer
      writes the numbers 1 and 0 and looks active rows up by the value 1,
      so the model keeps the stored number. */
  datatype Budget = Budget(
    id: string,
    totalAmount: real,
    startDate: Instant,
    endDate: Instant,
    currency: string,
    isActive: int,
    createdAt: Instant,
    updatedAt: Instant)

  /** A stored expense; `comment` is an optional property. */
  datatype Transaction = Transaction(
    id: string,
    budgetId: string,
    amount: real,
    comment: Option<string>,
    timestamp: Instant,
    createdAt: Instant,
    updatedAt: Instant)

  datatype CreateBudgetInput = CreateBudgetInput(
    totalAmount: real,
    startDate: Instant,
    endDate: Instant,
    currency: string)

  /** `timestamp` is optional: None stands for a property that is absent. */
  datatype CreateTransactionInput = CreateTransactionInput(
    budgetId: string,
    amount: real,
    comment: Option<string>,
    timestamp: Option<Instant>)

  /** Point-in-time statistics of one budget. */
  datatype BudgetStats = BudgetStats(
    budgetId: string,
    totalBudget: real,
    totalSpent: real,
    remaining: real,
    daysTotal: int,
    daysElapsed: int,
    daysRemaining: int,
    dailyBudget: real,
    averageDaily: real,
    isOverBudget: bool,
    projectedTotal: real,
    percentageUsed: real)

  /** The spending of one calendar day. */
  datatype DailySpending = DailySpending(
    date: Instant,
    amount: real,
    transactionsCount: nat,
    transactions: seq<Transaction>)

  /** The day-by-day breakdown of a budget period; None stands for `null`. */
  datatype PeriodAnalytics = PeriodAnalytics(
    budgetId: string,
    startDate: Instant,
    endDate: Instant,
    dailyBreakdown: seq<DailySpending>,
    totalSpent: real,
    averageDaily: real,
    highestDay: Option<DailySpending>,
    lowestDay: Option<DailySpending>,
    daysWithoutSpending: nat,
    daysWithSpending: nat)

  datatype AddTransactionState = AddTransactionState(
    isOpen: bool,
    initialAmount: Option<real>,
    initialComment: Option<string>)

  datatype EditTransactionState = EditTransactionState(
    isOpen: bool,
    transaction: Option<Transaction>)

  /** Optional filters; None stands for a property that is absent. */
  datatype TransactionFilters = TransactionFilters(
    startDate: Option<Instant>,
    endDate: Option<Instant>,
    minAmount: Option<real>,
    maxAmount: Option<real>,
    searchQuery: Option<string>)

  datatype SortField = TimestampField | AmountField | CommentField
  datatype SortDirection = Asc | Desc
  datatype TransactionSort = TransactionSort(field: SortField, direction: SortDirection)

  datatype Currency = Currency(code: string, symbol: string, name: string, locale: string)

  datatype Theme = Light | Dark

  datatype AppSettings = AppSettings(
    defaultCurrency: Currency,
    locale: string,
    theme: Theme,
    firstLaunch: bool)

  /** `Partial<AppSettings>`: None leaves a setting as it is. */
  datatype SettingsPatch = SettingsPatch(
    defaultCurrency: Option<Currency>,
    locale: Option<string>,
    theme: Option<Theme>,
    firstLaunch: Option<bool>)

  /** `Partial<Omit<Budget, "id" | "createdAt">>`, the changes the data
      layer accepts for a budget row. */
  datatype BudgetChanges = BudgetChanges(
    totalAmount: Option<real>,
    startDate: Option<Instant>,
    endDate: Option<Instant>,
    currency: Option<string>,
    isActive: Option<int>,
    updatedAt: Option<Instant>)

  /** `Partial<Omit<Transaction, "id" | "createdAt">>`. For `comment`,
      None leaves it, Some(None) writes `undefined`, Some(Some(c)) writes c. */
  datatype TransactionChanges = TransactionChanges(
    budgetId: Option<string>,
    amount: Option<real>,
    comment: Option<Option<string>>,
    timestamp: Option<Instant>,
    updatedAt: Option<Instant>)

  /** `Partial<Transaction>`, spread over an in-memory transaction; it may
      carry every property, `id` and `createdAt` included. */
  datatype TransactionPatch = TransactionPatch(
    id: Option<string>,
    budgetId: Option<string>,
    amount: Option<real>,
    comment: Option<Option<string>>,
    timestamp: Option<Instant>,
    createdAt: Option<Instant>)
}
