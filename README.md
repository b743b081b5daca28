# Budget tracker core in Dafny

A model of the core of a single-user, offline budget tracker. The user sets a
budget: an amount, a start date, an end date and a currency. They record
expenses against it. The application then shows how much is left, how much
may still be spent per day, and an analysis of the spending day by day. The
model covers:

- the day arithmetic (`src/lib/utils/date.ts`);
- the analytics engine (`src/lib/utils/calculations.ts`);
- the currency table (`src/lib/constants/currencies.ts`);
- the two data-access objects over the browser database, which is modelled as two maps keyed by id (`src/lib/db/dao/*.ts`, `src/lib/db/schema.ts`);
- the three application stores (budget, transactions, UI);
- the logic of four dialogs: transaction history, adding an expense, first-budget setup, and settings.

Modules follow the source files:

| module | file |
|---|---|
| `Models`, `Wrappers` | entities of `src/types/models.ts`; `Option`, `Result` and `Outcome` |
| `DateUtils` | `date.ts` |
| `Calculations` | `calculations.ts` |
| `Currencies` | `currencies.ts` |
| `Db` | the `budgets` and `transactions` tables |
| `BudgetDao`, `TransactionDao` | `budgetDao.ts`, `transactionDao.ts` |
| `BudgetStore`, `TransactionStore`, `UIStore` | the three stores |
| `HistoryModal`, `AddTransactionModal`, `BudgetSetupModal`, `SettingsModal` | the four dialogs |
| `Seqs`, `Text`, `Sorting` | helpers: `filter`, `toLowerCase`/`trim`/`includes`, and `Array.prototype.sort` as insertion sort |

Modelling choices:

- **Time.** Instants are integer milliseconds in UTC, and a day is 86 400 000 ms. `startOfDay(t)` is `t - t % DAY`.
- **Amounts** are mathematical reals.
- **Side effects become parameters.** Wherever the source reads the clock, generates an id or parses text, the model takes the reading, the id or the parser as a parameter.
- **Stores and dialogs receive the data layer's answer.** A `Result` or `Outcome` parameter stands for what the awaited data-access call resolved or rejected with. The user's answer to `confirm` is a boolean parameter.
- **Mutable state.**
  - Stores, the database and dialog forms are classes whose methods change their fields.
  - Pure computations are functions, and the lemmas relate them.
  - The loops of `calculatePeriodAnalytics` and `deactivateAll` are `for` loops with invariants. `budgetDao.create` calls `deactivateAll` for its loop.

## Model

| member | source | states |
|---|---|---|
| DateUtils.StartOfDay | src/lib/utils/date.ts:35 | the result is a midnight, at most `t` and less than a day before it |
| DateUtils.EndOfDay | src/lib/utils/date.ts:36 | the last millisecond of `t`'s day: inside that day, and one millisecond later the next day begins |
| DateUtils.SameDayNumber | src/lib/utils/date.ts:71-76 | two instants have the same start of day exactly when they have the same day number |
| DateUtils.DifferenceInDays | src/lib/utils/date.ts:41 | the count of whole 24-hour periods between the instants, truncated toward zero on both sides of zero |
| DateUtils.DifferenceOfStartsOfDays | src/lib/utils/date.ts:45-48 | the difference of two starts of day is the difference of their day numbers |
| DateUtils.TotalDays | src/lib/utils/date.ts:53-55 | at least 1 for an ordered period, at most 1 otherwise |
| DateUtils.TotalDaysOfOneDay | src/lib/utils/date.ts:53-55 | a one-day period has one day |
| DateUtils.TotalDaysIsDaysInPeriod | src/lib/utils/date.ts:57-59 | `getDaysInPeriod` and `getTotalDays` agree on every input |
| DateUtils.DaysInPeriod | src/lib/utils/date.ts:57-59 | at least 1 for an ordered period |
| DateUtils.TotalDaysOfMidnights | src/lib/utils/date.ts:53-55 | for whole-day dates both end days are counted |
| DateUtils.DaysElapsed | src/lib/utils/date.ts:44-51 | the minimum of the period's total days and the days from the start's day through today: at most each of them, and equal to one of them |
| DateUtils.DaysRemaining | src/lib/utils/date.ts:34-42 | never negative |
| DateUtils.DaysRemainingUntilEnd | src/lib/utils/date.ts:34-42 | up to the end date, the days from today through the end date, both counted |
| DateUtils.DaysRemainingDayAfterEnd | src/lib/utils/date.ts:34-42 | on the day after the end date one day is still reported (truncation of the 23:59:59.999 gap) |
| DateUtils.DaysRemainingLaterAfterEnd | src/lib/utils/date.ts:34-42 | from the second day after the end date, zero |
| DateUtils.DailyBudget | src/lib/utils/date.ts:61-69 | never negative; zero without remaining days or once the budget is spent; otherwise what is left spread evenly over the remaining days |
| DateUtils.IsToday | src/lib/utils/date.ts:71-76 | `isToday` holds exactly for instants from today's midnight up to the next one |
| DateUtils.DateRange | src/lib/utils/date.ts:78-80 | one midnight per calendar day from the start's day to the end's day, each one day after the previous, none after the end |
| DateUtils.DateRangeConsecutive | src/lib/utils/date.ts:78-80 | consecutive entries are one day apart |
| DateUtils.DateRangeComplete | src/lib/utils/date.ts:78-80 | every midnight of the interval is in the range |
| Calculations.TotalSpent | src/lib/utils/calculations.ts:21-26 | with no negative amounts the total is not negative |
| Calculations.TotalSpentAppend | src/lib/utils/calculations.ts:21-26 | the total of a concatenation is the sum of the totals |
| Calculations.TotalSpentOfPermutation | src/lib/utils/calculations.ts:21-26 | the total does not depend on the order of the transactions |
| Calculations.TotalSpentSplits | src/lib/utils/calculations.ts:21-26 | any criterion splits the total into the totals of the matching and the non-matching transactions |
| Calculations.DailySpendingOf | src/lib/utils/calculations.ts:34-56 | the entry is for the given date; its amount is the total of its transactions and its count is their number |
| Calculations.DailySpendingSelectsDay | src/lib/utils/calculations.ts:38-43 | the day's transactions are, in their original order and with their multiplicities, exactly those inside the closed window from the day's midnight to the next |
| Calculations.MidnightCountsTwice | src/lib/utils/calculations.ts:38-43 | a transaction at exactly midnight belongs to the day before and to its own day |
| Calculations.RemainingBudget | src/lib/utils/calculations.ts:161-167 | the budget minus the total spent, clamped at zero |
| Calculations.AverageOver | src/lib/utils/calculations.ts:78 | zero over no days; otherwise it multiplies back to the total |
| Calculations.PercentageOf | src/lib/utils/calculations.ts:80 | the percentage times the whole gives 100 times the part; above 100 exactly when the part exceeds a positive whole |
| Calculations.BudgetStatsOf | src/lib/utils/calculations.ts:64-97 | every field of the stats is the date or total function it is built from; over budget exactly when spent exceeds the budget |
| Calculations.PaceProjection | src/lib/utils/calculations.ts:78-79 | the average per elapsed day carried over the period extrapolates the spending pace |
| Calculations.ProjectedTotalAtPace | src/lib/utils/calculations.ts:79 | `projectedTotal` times the elapsed days equals the spent amount times the period's days |
| Calculations.OverBudgetIgnoresDates | src/lib/utils/calculations.ts:81 | whether the budget is exceeded does not depend on the moment of viewing |
| Calculations.ScenarioMidPeriod | src/lib/utils/calculations.ts:64-97 | a 3000 budget over 10 days with 1000 spent, seen on day 5: 2000 remain, 6 days remain, 2000/6 per day |
| Calculations.ScenarioSingleDay | src/lib/utils/calculations.ts:64-97 | a one-day budget of 100 with 40 spent today leaves 60 for today |
| Calculations.ScenarioNoTransactions | src/lib/utils/calculations.ts:64-97 | with no transactions nothing is spent, projected or over budget |
| Calculations.Breakdown | src/lib/utils/calculations.ts:118-121 | one entry per date |
| Calculations.BreakdownAt | src/lib/utils/calculations.ts:118-121 | entry k is the daily spending of date k |
| Calculations.CountSpendingDays | src/lib/utils/calculations.ts:124-126 | at most the number of days |
| Calculations.HighestStep | src/lib/utils/calculations.ts:127-129 | one step of the loop keeps the highest day tracked: the first day with the largest positive amount so far |
| Calculations.LowestStep | src/lib/utils/calculations.ts:131-133 | one step keeps the lowest day tracked: the first day with the smallest positive amount so far |
| Calculations.AccumulateDay | src/lib/utils/calculations.ts:118-137 | the loop body performs exactly one step of the running figures |
| Calculations.CalculatePeriodAnalytics | src/lib/utils/calculations.ts:105-153 | the breakdown covers the start date through today; the loop's figures are the fold of the step over it; the average is over the spending days |
| Calculations.TallyCounts | src/lib/utils/calculations.ts:117-137 | the loop's total is the sum of the day amounts; spending days plus days without spending are all days |
| Calculations.TallyTracksHighest | src/lib/utils/calculations.ts:127-129 | after the loop the highest day is tracked with its index |
| Calculations.TallyTracksLowest | src/lib/utils/calculations.ts:131-133 | after the loop the lowest day is tracked with its index |
| Calculations.TallyExtremes | src/lib/utils/calculations.ts:117-137 | `highestDay` is the first day with the largest positive amount and `lowestDay` the first with the smallest, or null |
| Calculations.HighestDayUnique | src/lib/utils/calculations.ts:127-129 | the highest day is determined by the breakdown |
| Calculations.LowestDayUnique | src/lib/utils/calculations.ts:131-133 | the lowest day is determined by the breakdown |
| Calculations.HighestNoneIff | src/lib/utils/calculations.ts:112 | `highestDay` is null exactly when no day has a positive amount |
| Calculations.LowestNoneIff | src/lib/utils/calculations.ts:113 | `lowestDay` is null exactly when no day has a positive amount |
| Calculations.HighestAndLowestAgree | src/lib/utils/calculations.ts:112-137 | both extremes are null together, exactly when no day has spending; otherwise highest is at least lowest and lowest is positive |
| Calculations.NoSpendingDays | src/lib/utils/calculations.ts:124-126 | no spending days exactly when no day has a positive amount |
| Calculations.NoTransactionsNoExtremes | src/lib/utils/calculations.ts:105-153 | with no transactions there are no spending days, the total is zero and both extremes are null |
| Calculations.ZeroDaysSumToZero | src/lib/utils/calculations.ts:122 | days of zero amount sum to zero |
| Currencies.FindByCode | src/lib/constants/currencies.ts:27 | a found entry is in the table with that code; none is found exactly when no entry has it |
| Currencies.FindByCodeIsFirst | src/lib/constants/currencies.ts:27 | `find` returns the first entry with the code |
| Currencies.GetCurrencyByCode | src/lib/constants/currencies.ts:25-29 | always an entry of the table; the listed one for a listed code, else the default |
| Currencies.CodesDistinct | src/lib/constants/currencies.ts:3-13 | no two entries share a code |
| Currencies.LookupOfListedCode | src/lib/constants/currencies.ts:3-29 | looking up an entry's code gives that entry back |
| Currencies.DefaultIsRupee | src/lib/constants/currencies.ts:18 | the default is the first entry, INR with locale en-IN |
| Db.ApplyBudgetChanges | src/lib/db/schema.ts:12 | each supplied field (amount, dates, currency, flag, update time) replaces the stored one and every absent field keeps its value; the primary key and creation time never change |
| Db.ApplyBudgetChangesIdempotent | src/lib/db/schema.ts:12 | writing the same changes twice equals writing them once |
| Db.ApplyTransactionChanges | src/lib/db/schema.ts:13 | each supplied field (budget, amount, comment, timestamp, update time) replaces the stored one and every absent field keeps its value; the primary key and creation time never change |
| Db.Database.constructor | src/lib/db/schema.ts:8-15 | both tables start empty |
| Db.Database.GetBudget | src/lib/db/dao/budgetDao.ts:47-49 | found exactly when the key is stored, and then it is the stored row |
| Db.Database.AddBudget | src/lib/db/schema.ts:12 | the add succeeds exactly when the key is free, and then stores the row; the other table is unchanged |
| Db.Database.UpdateBudget | src/lib/db/schema.ts:12 | a stored row receives the changes; a missing key changes nothing |
| Db.Database.DeleteBudget | src/lib/db/schema.ts:12 | the key is removed and nothing else changes |
| Db.Database.ActiveBudgets | src/lib/db/dao/budgetDao.ts:86-89 | exactly the stored rows with flag 1, each once |
| Db.Database.GetTransaction | src/lib/db/schema.ts:13 | found exactly when the key is stored |
| Db.Database.AddTransaction | src/lib/db/schema.ts:13 | succeeds exactly when the key is free |
| Db.Database.UpdateTransaction | src/lib/db/schema.ts:13 | a stored row receives the changes; a missing key changes nothing |
| Db.Database.DeleteTransaction | src/lib/db/schema.ts:13 | the key is removed and nothing else changes |
| Db.Database.TransactionsOfBudget | src/lib/db/dao/transactionDao.ts:106-109 | exactly the stored transactions of the budget, each once |
| BudgetDao.Deactivated | src/lib/db/dao/budgetDao.ts:85-93 | same keys; every row with flag 1 gets flag 0; only the flag of active rows changes |
| BudgetDao.NewBudget | src/lib/db/dao/budgetDao.ts:13-19 | the input with the new id, flag 1 and both stamps set to now |
| BudgetDao.CreateLeavesOneActive | src/lib/db/dao/budgetDao.ts:11-32 | after `create` the new budget is the one active row, so at most one is active |
| BudgetDao.DeactivateAll | src/lib/db/dao/budgetDao.ts:85-93 | the table becomes its deactivated version; transactions are untouched |
| BudgetDao.Create | src/lib/db/dao/budgetDao.ts:11-32 | succeeds exactly for a fresh id, storing the new record after deactivating all others; a rejected add leaves the others deactivated |
| BudgetDao.GetActive | src/lib/db/dao/budgetDao.ts:38-40 | a stored row with flag 1, or none exactly when no row has it; with at most one active row, that row |
| BudgetDao.Update | src/lib/db/dao/budgetDao.ts:56-64 | a stored row becomes the merge of the supplied fields with `updatedAt` set to now (see Db.ApplyBudgetChanges); a missing id changes nothing |
| BudgetDao.UpdatedRow | src/lib/db/dao/budgetDao.ts:56-64 | the merged row keeps id and creation time, takes each supplied amount, date, currency and flag, keeps each absent one, and carries the new `updatedAt` |
| BudgetDao.Delete | src/lib/db/dao/budgetDao.ts:70-72 | the budget row goes; the transactions stay |
| TransactionDao.NewTransaction | src/lib/db/dao/transactionDao.ts:16-24 | the input with the new id, its timestamp or else now, and both stamps set to now |
| TransactionDao.Create | src/lib/db/dao/transactionDao.ts:16-28 | succeeds exactly for a fresh id and stores the new record; a rejected add changes nothing |
| TransactionDao.Update | src/lib/db/dao/transactionDao.ts:57-65 | a stored row becomes the merge of the supplied fields with `updatedAt` set to now (see Db.ApplyTransactionChanges); a missing id changes nothing |
| TransactionDao.Delete | src/lib/db/dao/transactionDao.ts:71-73 | the row goes and the budgets stay |
| TransactionDao.Compare | src/lib/db/dao/transactionDao.ts:145-157 | the comparator answers -1, 0 or 1 |
| TransactionDao.SortOrderMeaning | src/lib/db/dao/transactionDao.ts:145-157 | for each field and direction, what "may precede" means in terms of timestamps, amounts or comments |
| TransactionDao.UndefinedCommentComparesEqual | src/lib/db/dao/transactionDao.ts:154-156 | a missing comment compares equal to everything, so a comment sort cannot order it |
| TransactionDao.SortOrderConsistent | src/lib/db/dao/transactionDao.ts:145-157 | the order is total and transitive, for comment sorts when every comment is present |
| TransactionDao.StringOrderTransitive | src/lib/db/dao/transactionDao.ts:154-155 | "not after" on strings is transitive in both directions |
| TransactionDao.GetByBudgetId | src/lib/db/dao/transactionDao.ts:35-41 | each stored transaction of the budget once, newest first |
| TransactionDao.SliceEnd | src/lib/db/dao/transactionDao.ts:90 | the length `slice(0, limit)` keeps, including for a negative limit |
| TransactionDao.GetRecentByBudgetId | src/lib/db/dao/transactionDao.ts:81-91 | as many of the budget's transactions as `slice(0, limit)` keeps, each at most once, newest first; none left out is newer than one kept; all of them when fewer than a non-negative limit exist |
| TransactionDao.MatchesFilters | src/lib/db/dao/transactionDao.ts:102-142 | the criterion of all supplied filters; with no filters every transaction passes |
| TransactionDao.StartStage | src/lib/db/dao/transactionDao.ts:112-116 | a transaction stays exactly when it was there and is not before a supplied start date |
| TransactionDao.EndStage | src/lib/db/dao/transactionDao.ts:118-122 | a transaction stays exactly when it was there and is not after a supplied end date |
| TransactionDao.MinStage | src/lib/db/dao/transactionDao.ts:124-128 | a transaction stays exactly when it was there and reaches a supplied minimum amount |
| TransactionDao.MaxStage | src/lib/db/dao/transactionDao.ts:130-134 | a transaction stays exactly when it was there and does not exceed a supplied maximum amount |
| TransactionDao.SearchStage | src/lib/db/dao/transactionDao.ts:136-142 | with a non-empty query, a transaction stays exactly when it was there and its lowercased comment contains the lowercased query |
| TransactionDao.FilterChain | src/lib/db/dao/transactionDao.ts:112-142 | a transaction is left exactly when it was in the input and passes every supplied filter |
| TransactionDao.FilterChainCounts | src/lib/db/dao/transactionDao.ts:112-142 | the five filters keep every occurrence of a transaction passing all supplied filters and drop the others |
| TransactionDao.GetFiltered | src/lib/db/dao/transactionDao.ts:100-160 | exactly the budget's stored transactions that pass every supplied filter, each once, sorted unless a comment sort meets a missing comment |
| TransactionDao.SortedUnlessCommentMissing | src/lib/db/dao/transactionDao.ts:145-157 | the sort puts the list in order unless it sorts by comment and a comment is missing |
| TransactionDao.FilteredCounts | src/lib/db/dao/transactionDao.ts:106-142 | the multiplicities of the result are 1 for matching stored rows and 0 otherwise |
| TransactionStore.ApplyPatch | src/lib/stores/transactionStore.ts:115 | `updatedAt` is now; each property the patch carries (id, budget, amount, comment, timestamp, creation time) replaces the transaction's and each absent one keeps its value |
| TransactionStore.Patched | src/lib/stores/transactionStore.ts:114-116 | same length; entries with the id are patched, others unchanged |
| TransactionStore.WithoutIdKeepsOthers | src/lib/stores/transactionStore.ts:140 | deleting removes every entry with the id and keeps the others in order with their multiplicities |
| TransactionStore.DeleteAfterPatch | src/lib/stores/transactionStore.ts:107-149 | updating a transaction without changing its id and then deleting it equals deleting it |
| TransactionStore.DeleteLowersTotal | src/lib/stores/transactionStore.ts:140 | the total after a delete is the total before minus the amounts of the deleted entries |
| TransactionStore.Store.constructor | src/lib/stores/transactionStore.ts:29-31 | empty list, not loading, no error |
| TransactionStore.Store.LoadTransactions | src/lib/stores/transactionStore.ts:37-47 | the list becomes the fetched one; a failure keeps it and records the load error |
| TransactionStore.Store.LoadFilteredTransactions | src/lib/stores/transactionStore.ts:55-73 | the same for the filtered query |
| TransactionStore.Store.AddTransaction | src/lib/stores/transactionStore.ts:80-99 | the created transaction goes first and is returned; a failure keeps the list and is passed on |
| TransactionStore.Store.UpdateTransaction | src/lib/stores/transactionStore.ts:107-125 | after the stored update the list is patched; a failure keeps it and records the update error |
| TransactionStore.Store.DeleteTransaction | src/lib/stores/transactionStore.ts:132-149 | after the stored delete, every entry with the id is gone; a failure keeps the list |
| TransactionStore.Store.ClearError | src/lib/stores/transactionStore.ts:154 | only the error is cleared |
| BudgetStore.AfterDelete | src/lib/stores/budgetStore.ts:81-98 | the shown budget is cleared exactly when it is the deleted one |
| BudgetStore.AfterDeleteIdempotent | src/lib/stores/budgetStore.ts:81-98 | deleting twice is deleting once, and deletes of two ids commute |
| BudgetStore.Store.constructor | src/lib/stores/budgetStore.ts:19-21 | no budget, not loading, no error |
| BudgetStore.Store.LoadCurrentBudget | src/lib/stores/budgetStore.ts:26-35 | shows the active budget or none; a failure keeps it and records the load error |
| BudgetStore.Store.CreateBudget | src/lib/stores/budgetStore.ts:40-53 | the created budget is shown and returned; a failure keeps the shown one and is passed on |
| BudgetStore.Store.UpdateBudget | src/lib/stores/budgetStore.ts:58-76 | resolves exactly when the update and, for the shown budget, the reread succeed; the shown budget is refreshed only when it is the one updated |
| BudgetStore.Store.DeleteBudget | src/lib/stores/budgetStore.ts:81-98 | after the stored delete the shown budget follows `AfterDelete`; a failure keeps it |
| BudgetStore.Store.ClearError | src/lib/stores/budgetStore.ts:103 | only the error is cleared |
| UIStore.MergeSettings | src/lib/stores/uiStore.ts:117-121 | each setting the patch carries replaces the current one, and every other setting stays |
| UIStore.MergeSettingsLaws | src/lib/stores/uiStore.ts:117-121 | an empty patch changes nothing, a patch is idempotent, and two merges are one merge of the combined patch |
| UIStore.Store.constructor | src/lib/stores/uiStore.ts:29-50 | all dialogs closed; settings INR, en-US, light theme, first launch |
| UIStore.Store.OpenAddTransaction | src/lib/stores/uiStore.ts:55-63 | opens the add dialog with the prefill; nothing else changes |
| UIStore.Store.CloseAddTransaction | src/lib/stores/uiStore.ts:68-74 | closes it and drops the prefill; nothing else changes |
| UIStore.Store.OpenEditTransaction | src/lib/stores/uiStore.ts:79-86 | opens the edit dialog on the transaction; nothing else changes |
| UIStore.Store.CloseEditTransaction | src/lib/stores/uiStore.ts:91-98 | closes it and drops the transaction; nothing else changes |
| UIStore.Store.OpenBudgetSetup | src/lib/stores/uiStore.ts:103-105 | opens the setup dialog; nothing else changes |
| UIStore.Store.CloseBudgetSetup | src/lib/stores/uiStore.ts:110-112 | closes it; nothing else changes |
| UIStore.Store.UpdateSettings | src/lib/stores/uiStore.ts:117-121 | settings become the merge of the patch; the dialogs stay |
| HistoryModal.OrderMeaning | src/components/transactions/TransactionHistoryModal.tsx:37-45 | the comparator orders by date or amount, ascending or descending, as the settings say |
| HistoryModal.OrderConsistent | src/components/transactions/TransactionHistoryModal.tsx:37-45 | the comparator is a total, transitive order on any list |
| HistoryModal.SearchFiltered | src/components/transactions/TransactionHistoryModal.tsx:23-34 | a transaction is in the searched list exactly when it is in the input and the query is blank or matches its comment or amount text |
| HistoryModal.Displayed | src/components/transactions/TransactionHistoryModal.tsx:23-46 | the displayed list is a permutation of the searched one |
| HistoryModal.DisplayedContents | src/components/transactions/TransactionHistoryModal.tsx:23-34 | a blank query shows all transactions; otherwise exactly those whose lowercased comment or amount text contains the lowercased query, each as often as it occurs |
| HistoryModal.DisplayedSorted | src/components/transactions/TransactionHistoryModal.tsx:37-45 | every pair of displayed transactions is in the order the settings ask for |
| HistoryModal.FooterTotals | src/components/transactions/TransactionHistoryModal.tsx:178-186 | the footer's count and total are those of the searched list, whatever the sort |
| HistoryModal.Toggled | src/components/transactions/TransactionHistoryModal.tsx:56-63 | after a toggle the field is sorted on; the same field flips the direction, another field starts descending |
| HistoryModal.ToggleLaws | src/components/transactions/TransactionHistoryModal.tsx:56-63 | toggling the same field twice restores the sort settings |
| HistoryModal.View.constructor | src/components/transactions/TransactionHistoryModal.tsx:19-21 | empty query, by date, descending |
| HistoryModal.View.SetSearchQuery | src/components/transactions/TransactionHistoryModal.tsx:19 | only the query changes |
| HistoryModal.View.ToggleSort | src/components/transactions/TransactionHistoryModal.tsx:56-63 | the sort settings become the toggled ones; the query stays |
| HistoryModal.HandleDelete | src/components/transactions/TransactionHistoryModal.tsx:50-54 | without confirmation nothing changes; with it the store deletes the transaction |
| AddTransactionModal.Sanitize | src/components/transactions/AddTransactionModal.tsx:63 | the sanitised value has only digits and dots |
| AddTransactionModal.SanitizeKeepsAmountChars | src/components/transactions/AddTransactionModal.tsx:61-63 | the sanitised value keeps each digit and dot in order with its count, and sanitising again changes nothing |
| AddTransactionModal.AmountGuard | src/components/transactions/AddTransactionModal.tsx:64-68 | the guard rejects exactly the values typed with more than one dot; an accepted value is well formed |
| AddTransactionModal.SubmittedCommentTrimmed | src/components/transactions/AddTransactionModal.tsx:41 | the comment is absent exactly when it is blank; a submitted one is trimmed at both ends |
| AddTransactionModal.TransactionInput | src/components/transactions/AddTransactionModal.tsx:38-43 | the budget's id, the absolute parsed amount, the submitted comment and the parsed time |
| AddTransactionModal.Form.constructor | src/components/transactions/AddTransactionModal.tsx:22-27 | the prefilled amount unless absent or 0, the prefilled comment or "", the current time |
| AddTransactionModal.Form.HandleAmountChange | src/components/transactions/AddTransactionModal.tsx:61-69 | the sanitised value is stored unless it has more than one dot; the stored amount stays well formed |
| AddTransactionModal.Form.HandleSubmit | src/components/transactions/AddTransactionModal.tsx:32-59 | without an amount or a budget nothing happens; otherwise the built input is handed to the store, and a success puts the transaction first and clears the form |
| BudgetSetupModal.PreviewDays | src/components/budget/BudgetSetupModal.tsx:86-89 | at least 1; one more than the number of started days between the dates |
| BudgetSetupModal.PreviewDaysOfMidnights | src/components/budget/BudgetSetupModal.tsx:86-89 | for ordered whole-day dates the preview counts the days as `getTotalDays` does |
| BudgetSetupModal.PreviewCountsStartedDay | src/components/budget/BudgetSetupModal.tsx:86-89 | for dates a day and a millisecond apart, the preview counts 3 days while `getTotalDays` counts 2 |
| BudgetSetupModal.AverageSpreads | src/components/budget/BudgetSetupModal.tsx:91 | the daily amount over the days adds up to the total |
| BudgetSetupModal.SetupPreview | src/components/budget/BudgetSetupModal.tsx:79-101 | no preview exactly when a field is empty; otherwise the amount spread over the preview days, in the selected currency or the default |
| BudgetSetupModal.CreatedSettings | src/components/budget/BudgetSetupModal.tsx:50-56 | the settings change names a listed currency, the selected one when it is listed, turns `firstLaunch` off and leaves locale and theme |
| BudgetSetupModal.CreatedSettingsEffect | src/components/budget/BudgetSetupModal.tsx:50-56 | after creation the default currency is a listed one, the selected one when it is listed, and the first launch is over |
| BudgetSetupModal.Form.constructor | src/components/budget/BudgetSetupModal.tsx:21-27 | empty amount, today to 30 days from today, the default currency |
| BudgetSetupModal.Form.HandleCurrencyChange | src/components/budget/BudgetSetupModal.tsx:75-77 | only the currency changes |
| BudgetSetupModal.Form.HandleSubmit | src/components/budget/BudgetSetupModal.tsx:32-73 | an empty or non-positive amount changes nothing; otherwise the budget is created with a positive amount, and a success shows it, updates the settings and resets the form, while a failure keeps the settings and the form |
| SettingsModal.PreviewCurrencyCode | src/components/settings/SettingsModal.tsx:452-456 | the code of the listed currency, or "INR" |
| SettingsModal.PreviewCurrencyAgrees | src/components/settings/SettingsModal.tsx:452-456 | the "INR" fallback is the default currency's code |
| SettingsModal.SettingsPreview | src/components/settings/SettingsModal.tsx:439-460 | no preview exactly when a field is empty; otherwise the amount spread over the preview days |
| SettingsModal.PreviewsAgree | src/components/settings/SettingsModal.tsx:439-460 | this preview and the setup dialog's preview agree on every form |
| SettingsModal.EditedChanges | src/components/settings/SettingsModal.tsx:399-404 | the four edited fields, parsed, and nothing else |
| SettingsModal.SettingsAfterUpdate | src/components/settings/SettingsModal.tsx:407-412 | a listed currency becomes the default; an unlisted one leaves the settings |
| SettingsModal.Form.constructor | src/components/settings/SettingsModal.tsx:368-374 | all fields empty, not submitting |
| SettingsModal.Form.LoadBudget | src/components/settings/SettingsModal.tsx:376-385 | a shown budget fills the form with its amount, days and currency; without one the form stays |
| SettingsModal.Form.HandleUpdateBudget | src/components/settings/SettingsModal.tsx:387-420 | without a budget or a positive amount nothing happens; otherwise the edited fields are returned as the changes sent, the store stops loading, the shown budget becomes the refetched one exactly when the update succeeds for the shown budget and is kept otherwise, the error is set on failure, and only a success changes the default currency |
| SettingsModal.HandleDeleteBudget | src/components/settings/SettingsModal.tsx:422-437 | without a budget or confirmation nothing happens; otherwise the budget store deletes it |

## Left out

- Floating point: amounts are reals, so rounding, `NaN` and `Infinity` are not modelled. Examples are `Math.abs` of `NaN`, `parseFloat` of text that is not a number, and division results.
- Calculations.BudgetStatsOf: requires a non-zero budget amount, because `percentageUsed` divides by it. The source would produce `Infinity` or `NaN` there.
- Calculations.ProjectedTotalAtPace: requires a non-zero budget amount for the same reason.
- `parseFloat`, `new Date(text)`, `Number.prototype.toString`, `toISOString`/`format` and the `Intl` currency formatting are abstract function parameters.
- `formatCurrency`, `formatDate`, `formatDateTime` and `formatTime` only format text for display.
- The clock and `generateId` are parameters (`now`, `id`).
- Time zones: every instant is UTC, so `startOfDay` is a fixed-offset computation. Local-time calendars and daylight-saving changes are not modelled.
- `toLowerCase` is modelled on ASCII letters only. String order is by character, not by UTF-16 code unit.
- Sorting.InsertionSort: stands for `Array.prototype.sort`. The model proves the result is sorted and is a permutation of the input, but says nothing about stability or tie order.
- TransactionDao.GetByBudgetId: states sortedness and contents, but not the tie order that Dexie's `reverse().sortBy()` yields.
- TransactionDao.GetFiltered: with a comment sort and a missing comment, the comparator is inconsistent. The model then states only the contents, not the order.
- BudgetDao.GetActive: when several rows are active, the model says only that some active row is returned, not which one Dexie's index order yields.
- Asynchronous interleaving: each store action is modelled as one atomic step from its start to its end. The intermediate `isLoading: true` state and concurrent actions are not modelled, and neither is `console.error`.
- `budgetDao.getAll` is not modelled, because nothing in this model reads it.
- `budgetDao.getById` is `Db.Database.GetBudget`.
- The page component (`src/app/page.tsx`) and the `useBudget` hook are not part of this model.
- The commented-out first version of the settings dialog (lines 1-346 of its file) is not part of this model.
- The edit-transaction dialog is not part of this model.
- Rendering, empty-state texts, `onClose` and `onBudgetCreated` callbacks, and the dialogs' `alert` calls are left out.
- DateUtils.DaysRemaining: follows the code, which reports 1 remaining day on the day after the end date. The code truncates the 23:59:59.999 gap of `differenceInDays(endOfDay(end), startOfDay(now))` before adding 1. The described intent is 0 once the period is over.
- Calculations.DailySpendingOf: follows the code's closed window, in which a transaction at exactly midnight counts in two days.
- BudgetDao.Delete: does not delete the budget's transactions, as in the code. The settings dialog's confirmation text says they will be lost.
- TransactionStore.ApplyPatch: an explicitly `undefined` property is distinguished from an absent one only for the comment. For the other fields the two cases are the same absent `Option`.
- TransactionDao.NewTransaction: an input whose `timestamp` key is present but explicitly `undefined` would override `now` in the spread of `create`. `Option` cannot express that case, so the model always falls back to `now`. No caller in the source passes such an input.
- TransactionDao.GetRecentByBudgetId: the default limit of 10 is not modelled; callers pass the limit.
- Calculations.CalculatePeriodAnalytics: requires that the budget has started (`startDate <= now`), the precondition of `getDateRange`. A budget whose start date lies in the future, which the setup dialog accepts and `useBudget` would analyse, is not covered.
- HistoryModal.QueryMatch: the amount's text is an abstract function of the amount.
