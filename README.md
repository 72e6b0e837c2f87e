# Personal finance dashboard — a verified model of its core

This project models the logic of a personal-finance dashboard. The backend is an
Express/Sequelize service over transactions, budgets, debts, savings goals, an emergency
fund, investments, alerts and purchase simulations. The frontend is a React client that
classifies and colours those records. The model covers:

- **Transactions**:
  - creation, with required fields, amount validation, sign normalisation and the 'Outros' default category;
  - the filtered list: search, month, type, category, date range and amount range, newest first;
  - the summary: income, expenses, balance and expenses per category.
- **Budgets**: the spent amount recomputed per calendar month, partial update and deletion.
- **Debts**: payments that never take what remains below zero and settle the debt at zero, partial update and deletion.
- **Goals**: the monthly projections: months left, monthly amount needed, projected amount, on track.
- **Alerts**: the generator that clears the table, writes budget, goal, debt and balance alerts, and answers them newest first, then stably by severity.
- **The purchase simulator**: three-month averages, viability and the recommendation tiers.
- **Insights**: six monthly buckets, average spending, the top category and the two insight lines.
- **The emergency fund**: the lazily created single record, its update with the target recomputed, and contributions.
- **Investments**: contributions that raise the total invested, the list ordered by name, and the contributions newest first.
- **Frontend helpers**: the default category table and its filter by type, budget suggestions, keyboard shortcuts, and the `cn` class-name joiner.
- **Frontend classifiers**: the debt, budget, investment, summary-panel and emergency-fund cards.

How the model represents the system:

- **Money** is `real`.
- **Instants** are integer milliseconds. The current instant `now` is a parameter.
- **The local calendar** is a parameter of type `Calendar`: for a year and a month index it gives that month's `Window`, from midnight of its first day to midnight of its last day (the bounds of `Op.between`).
- **Tables** are `seq` fields of classes, changed by methods.
- **JavaScript division** gives a `Base.Ext`: a finite value, ±Infinity or NaN, so dividing by zero needs no precondition. Comparisons on it follow IEEE and are false on NaN.
- **JavaScript objects keyed by category name** become association lists in insertion order, with a numeric entry per name. That is how JavaScript treats names that are neither integer-like nor inherited from `Object.prototype`; the other names are listed under "## Left out".
- **Sorting** is a stable insertion sort, specified on sequences. Beside it, `Sorting.SortInPlace` sorts an array in place.

## Model

| member | source | states |
|---|---|---|
| Base.AcceptedAmount | src/pages/Debts.jsx:40 | an amount is accepted exactly when it is present and positive, and is then passed on unchanged |
| Base.DaysUntil | src/pages/Debts.jsx:52-57 | the whole days to an instant, rounded up: the least d with d days reaching the instant |
| Base.DaysUntilNegative | backend/src/controllers/alertController.js:111-113 | the day count is negative exactly when the instant is at least a full day in the past |
| Base.Div | frontend/src/pages/Budgets.jsx:96 | division by a non-zero divisor is exact; by zero it gives +Infinity, -Infinity or NaN according to the sign of the dividend |
| Base.PercentAtLeast | backend/src/controllers/alertController.js:45-47 | with a positive divisor, comparing `(a / b) * 100` with a threshold t is comparing `a * 100` with `t * b` |
| Base.MinWith | frontend/src/pages/Budgets.jsx:137 | `Math.min(q, c)` is at most c unless q is NaN, keeps a q that is not above c, and propagates NaN |
| Base.NormalizeMonth | backend/src/controllers/insightsController.js:15-16 | an out-of-range month index rolls into the year, keeping the absolute month number and landing in 0..11 |
| Base.IndexOfId | frontend/backend/src/controllers/debtController.js:29-32 | the lookup by primary key finds the first row with the id, or reports that no row has it |
| Sorting.InsertionSortSorted | backend/src/controllers/alertController.js:207-211 | sorting by a total preorder gives a sorted sequence |
| Sorting.InsertionSortStable | backend/src/controllers/alertController.js:207-211 | the sort is stable: the elements equivalent to any element keep their relative order |
| Sorting.InsertionSortIdempotent | backend/src/controllers/alertController.js:207-211 | sorting a sorted sequence again changes nothing |
| Sorting.InsertionSortPermutes | backend/src/controllers/alertController.js:207-211 | sorting only reorders: the result holds the same elements with the same multiplicities |
| Sorting.SortInPlace | backend/src/controllers/alertController.js:207-211 | the in-place array sort leaves the array equal to the stable sort of its old contents |
| Ledger.CategoryLabel | backend/src/controllers/transactionController.js:182 | the label is the name of the transaction's category, or 'Sem categoria' when it has none; it is never empty |
| Ledger.SignedTypeSums | backend/src/controllers/alertController.js:164 | over sign-normalised rows, the signed income sum is the income magnitude and the signed expense sum is minus the expense magnitude, never positive |
| Ledger.GroupTotal | backend/src/controllers/transactionController.js:179-185 | grouping by category label loses nothing: the group values add up to the sum over all rows |
| Ledger.GroupKeys | backend/src/controllers/transactionController.js:179-185 | a label is a key of the grouping exactly when some row carries it |
| Ledger.GroupValue | backend/src/controllers/transactionController.js:179-185 | each label's value is the sum over the rows with that label |
| Ledger.AddToValue | backend/src/controllers/insightsController.js:63 | `acc[k] = (acc[k] \|\| 0) + v` adds v to key k and leaves every other key's value alone |
| Transactions.Normalise | backend/src/controllers/transactionController.js:87 | the stored amount keeps the magnitude of the given one; it is non-positive for an expense and non-negative for an income |
| Transactions.NormaliseIdempotent | backend/src/controllers/transactionController.js:87 | normalising an already stored amount changes nothing |
| Transactions.OutrosId | backend/src/controllers/transactionController.js:79-83 | the default category is a category named 'Outros' when one exists, and none otherwise |
| Transactions.Create | backend/src/controllers/transactionController.js:64-104 | missing fields, an unreadable amount and an unknown type are refused, each exactly in its own case; otherwise the row keeps the description, date, type and amount magnitude, has its sign normalised, and falls back to 'Outros' without a category |
| Transactions.Trim | backend/src/controllers/transactionController.js:13-15 | the trimmed search is a contiguous slice of the term with only ECMAScript white space and line terminators cut from either side, and none left at either end |
| Transactions.BuildWhere | backend/src/controllers/transactionController.js:8-50 | the where clause accepts exactly the transactions that pass every filter given in the query |
| Transactions.Accepted | backend/src/controllers/transactionController.js:52-56 | the selected rows are exactly the stored rows that pass the filters, each with its multiplicity |
| Transactions.SelectAccepted | backend/src/controllers/transactionController.js:52-56 | evaluating a where clause that agrees with the filters selects the accepted rows, in table order |
| Transactions.RangeReplacesMonth | backend/src/controllers/transactionController.js:39-43 | a custom date range overrides the month and year filter |
| Transactions.AmountBoundsAreSigned | backend/src/controllers/transactionController.js:46-50 | amount bounds compare the signed stored amount, so a positive minimum excludes every non-zero expense and a negative maximum every non-zero income |
| Transactions.LaterFirstTotal | backend/src/controllers/transactionController.js:55 | ordering by date descending is a total preorder |
| Transactions.GetAll | backend/src/controllers/transactionController.js:6-62 | the list is the accepted rows, with their multiplicities, sorted stably newest first |
| Transactions.Summarize | backend/src/controllers/transactionController.js:169-185 | income and expenses are non-negative magnitude sums and the balance is their difference; the per-category expenses have distinct labels, one per label in use, each summing that label's expense magnitudes, and they add up to the expenses |
| Transactions.GetSummary | backend/src/controllers/transactionController.js:129-196 | the summary, as written, is over the rows the filters accept with the search term untrimmed |
| Transactions.SummarySearchDiffersFromList | backend/src/controllers/transactionController.js:143-147 | a search term with a leading blank keeps a row in the list that the summary drops |
| Transactions.GetSummaryTrimmed | backend/src/controllers/transactionController.js:13-17 | the corrected summary is over exactly the rows the list accepts |
| Transactions.SummaryCoversList | backend/src/controllers/transactionController.js:164-185 | the corrected summary of the accepted rows has the same income, expenses, balance, category keys and per-category expenses as the summary of the rows as the list orders them (date descending) |
| Transactions.SummaryOfReordering | backend/src/controllers/transactionController.js:164-185 | the summary depends only on which rows were fetched, not on their order: two reorderings give the same income, expenses, balance, keys and per-category expenses |
| Ledger.SumOfPermutation | backend/src/controllers/transactionController.js:168-174 | a `reduce` sum is the same over any reordering of the rows |
| Budgets.CountedRows | frontend/backend/src/controllers/budgetController.js:26-37 | the rows counted for a budget are the expenses of its category created inside its month window |
| Budgets.SpentFor | frontend/backend/src/controllers/budgetController.js:38 | the spent amount is `Math.abs` of the signed sum, or 0 when there is nothing to sum; it is never negative |
| Budgets.SpentIsExpenseMagnitude | frontend/backend/src/controllers/budgetController.js:26-38 | over sign-normalised rows, the spent amount is the sum of the counted expenses' magnitudes |
| Budgets.Refreshed | frontend/backend/src/controllers/budgetController.js:38-39 | refreshing a budget keeps its id, category, amount, month and year; only spent changes |
| Budgets.RefreshIdempotent | frontend/backend/src/controllers/budgetController.js:25-40 | refreshing twice equals refreshing once, and the stored spent amount does not influence the result |
| Budgets.ListedAreRefreshed | frontend/backend/src/controllers/budgetController.js:17-22 | the listed budgets pass the month and year filters and carry their recomputed spent amount |
| Budgets.Patched | frontend/backend/src/controllers/budgetController.js:48-62 | a patch keeps the id; each of category, amount, spent, month and year is the patch's value when given and the stored one otherwise; an empty patch changes nothing |
| Budgets.BudgetTable.GetAll | frontend/backend/src/controllers/budgetController.js:15-46 | the answer is the filtered budgets with their spent amount recomputed; every selected row is saved with that amount and the other rows are untouched |
| Budgets.BudgetTable.RefreshRow | frontend/backend/src/controllers/budgetController.js:25-40 | one pass of the loop: a selected row is saved with its recomputed spent amount and answered, any other row is left alone and skipped; no id is duplicated |
| Budgets.BudgetTable.Update | frontend/backend/src/controllers/budgetController.js:48-62 | an unknown id is not-found and changes nothing; otherwise the row with the id is replaced by its patched version |
| Budgets.BudgetTable.Delete | frontend/backend/src/controllers/budgetController.js:74-87 | an unknown id is not-found and changes nothing; otherwise exactly the row with the id is removed and no row keeps that id |
| Budgets.LastDayExpenseNotCounted | frontend/backend/src/controllers/budgetController.js:31-34 | an expense created after midnight on the last day of a month counts in neither that month's budget nor the next one's |
| Budgets.SpentInMonth | frontend/backend/src/controllers/budgetController.js:26-38 | the corrected spent amount counts the whole month up to the next month's first midnight; it is never negative |
| Budgets.MonthSpansTile | frontend/backend/src/controllers/budgetController.js:31-34 | with whole-month windows, every instant falls in exactly one of two consecutive months |
| Budgets.ExpenseCountedOnce | frontend/backend/src/controllers/budgetController.js:26-38 | with whole-month windows, an expense of the budget's category recorded from the start of the budget month to the start of the month after next is counted by exactly one of the budgets for that month and the next, and its magnitude is spent exactly once |
| Debts.ApplyPayment | frontend/backend/src/controllers/debtController.js:34-37 | what remains after a payment is never negative; it is zero exactly when the payment covers it; otherwise it drops by the payment; a debt at zero is marked paid and nothing else changes |
| Debts.PaymentLowersRemaining | frontend/backend/src/controllers/debtController.js:34-37 | a non-negative payment never raises what remains, and one covering it settles the debt |
| Debts.PaymentsCompose | frontend/backend/src/controllers/debtController.js:34-37 | two non-negative payments in a row equal one payment of their sum |
| Debts.Patched | frontend/backend/src/controllers/debtController.js:46-60 | a patch keeps the id; each of name, total, remaining amount, monthly payment, interest rate, due date and status is the patch's value when given and the stored one otherwise; an empty patch changes nothing |
| Debts.DebtTable.MakePayment | frontend/backend/src/controllers/debtController.js:24-44 | an unknown id is not-found and changes nothing; otherwise the debt with the id is replaced by the debt after the payment |
| Debts.DebtTable.Update | frontend/backend/src/controllers/debtController.js:46-60 | an unknown id is not-found and changes nothing; otherwise the row with the id is replaced by its patched version |
| Debts.DebtTable.Delete | frontend/backend/src/controllers/debtController.js:62-75 | an unknown id is not-found and changes nothing; otherwise exactly the row with the id is removed |
| Goals.Project | backend/src/controllers/goalController.js:49-58 | the months left are the 30-day months to the target date, rounded up; while any remain, the needed amount times the months is what is missing; the projection adds the contribution for those months; a goal is on track when the projection reaches the target |
| Goals.GetProjections | backend/src/controllers/goalController.js:45-60 | one projection per goal, in the goals' order |
| Goals.NeededContributionReachesTarget | backend/src/controllers/goalController.js:50-51 | contributing the needed monthly amount makes the projection land exactly on the target |
| Goals.PastGoalProjection | backend/src/controllers/goalController.js:49-51 | a goal whose date has passed needs nothing monthly and projects no more than is saved |
| Alerts.BudgetAlert | backend/src/controllers/alertController.js:44-72 | a budget alert refers to its budget and is never of low severity |
| Alerts.BudgetAlertTiers | backend/src/controllers/alertController.js:45-72 | for a positive limit: critical from 100% spent, high from 90%, medium from 80%, and no alert below 80% |
| Alerts.BudgetAlertZeroLimit | backend/src/controllers/alertController.js:45-47 | a zero limit with something spent is critical; with nothing spent it raises no alert |
| Alerts.GoalAlert | backend/src/controllers/alertController.js:77-106 | a goal alert refers to its goal, is never low, and comes only within 30 days of the date |
| Alerts.GoalAlertTiers | backend/src/controllers/alertController.js:77-106 | critical within 7 days under 50% saved, high within 15 days under 70%, medium within 30 days under 80% |
| Alerts.GoalNearlyReachedIsQuiet | backend/src/controllers/alertController.js:77-106 | a goal saved to 80% of its target raises no alert, however close its date |
| Alerts.DebtAlert | backend/src/controllers/alertController.js:109-146 | a debt alert refers to its debt |
| Alerts.DebtAlertTiers | backend/src/controllers/alertController.js:111-146 | critical from the due day on, high for 1 to 3 days, medium for 4 to 7, none after; the overdue message counts the positive days past and shows only once a full day has passed |
| Alerts.BalanceAlertTiers | backend/src/controllers/alertController.js:168-201 | at most one balance alert: critical with the deficit below zero, low above 1000, medium in (0, 500], none at 0 or in (500, 1000] |
| Alerts.BalanceMatchesSummary | backend/src/controllers/alertController.js:152-164 | over sign-normalised rows, income plus the signed expenses is the summary balance |
| Alerts.BudgetDrafts | backend/src/controllers/alertController.js:43-72 | budget alerts number at most the budgets, and each refers to one of them |
| Alerts.GoalDrafts | backend/src/controllers/alertController.js:76-106 | goal alerts number at most the goals, and each refers to one of them |
| Alerts.DebtDrafts | backend/src/controllers/alertController.js:109-146 | debt alerts number at most the debts, and each refers to an active one |
| Alerts.Rank | backend/src/controllers/alertController.js:206-209 | the severity priorities are 1 to 4 |
| Alerts.SeverityFirstTotal | backend/src/controllers/alertController.js:207-211 | ordering by severity priority is a total preorder |
| Alerts.AnswerOrder | backend/src/controllers/alertController.js:203-211 | the answer holds exactly the stored alerts, in non-decreasing priority, with alerts of equal severity kept newest first |
| Alerts.EquivalentIffSameRank | backend/src/controllers/alertController.js:206-210 | two alerts tie in the sort exactly when they have the same severity |
| Alerts.AlertStore.DestroyAll | backend/src/controllers/alertController.js:40 | clearing empties the table and keeps the auto-increment counter |
| Alerts.AlertStore.Create | backend/src/controllers/alertController.js:48-54 | a created alert takes the next id, is unread, and is appended |
| Alerts.AlertStore.Fetch | backend/src/controllers/alertController.js:203-211 | the answer is the stored alerts, newest first, sorted stably by severity |
| Alerts.AlertStore.Generate | backend/src/controllers/alertController.js:37-212 | the table ends up holding exactly this run's budget, goal, debt and balance alerts in that order, numbered on from the previous ids, and the answer is them sorted by severity from newest first |
| Simulation.Recent | frontend/backend/src/controllers/simulationController.js:14-20 | the transactions read are exactly those dated from three months ago on |
| Simulation.Recommend | frontend/backend/src/controllers/simulationController.js:84-104 | one success line exactly when the savings reach the need; otherwise the deficit line and one tier line |
| Simulation.Simulate | frontend/backend/src/controllers/simulationController.js:6-56 | the monthly income and expenses are a third of the signed sums over the last three months, and the outcome follows the viability rules |
| Simulation.Plan | frontend/backend/src/controllers/simulationController.js:30-55 | the outcome keeps its inputs and follows the viability rules |
| Simulation.AdjustedMonthsLeast | frontend/backend/src/controllers/simulationController.js:47 | the adjusted month count is the least whole number of months whose savings reach the target |
| Simulation.ViableIffSuccess | frontend/backend/src/controllers/simulationController.js:32 | for a positive number of months, a plan is viable exactly when the only recommendation is the success line |
| Simulation.ShortfallIsPositive | frontend/backend/src/controllers/simulationController.js:87-91 | a plan that is not viable gets two lines, the first a positive deficit equal to the need minus the savings |
| Simulation.RecommendationTiers | frontend/backend/src/controllers/simulationController.js:93-100 | with positive expenses: reduce spending up to 10% of the expenses, review spending up to 25%, too ambitious above |
| Simulation.SpendingRaisesSavings | frontend/backend/src/controllers/simulationController.js:26-30 | because expenses are stored negative, the as-written savings add the spending to the income |
| Simulation.ShortfallGetsMildestTier | frontend/backend/src/controllers/simulationController.js:93-95 | as written, a shortfall with negative average expenses always gets the mildest tier, with a negative percentage |
| Simulation.SpendingRaisesSavingsExample | frontend/backend/src/controllers/simulationController.js:22-32 | income 300 against spending 300 is a 200-a-month saving and viable as written; it is 0 and not viable when expenses are magnitudes |
| Simulation.SimulateByMagnitude | frontend/backend/src/controllers/simulationController.js:26-28 | the corrected expenses average the magnitudes and are never negative |
| Simulation.MagnitudeSavingsMatchSummary | frontend/backend/src/controllers/simulationController.js:30 | the corrected savings over three months equal the transaction summary's balance for the same rows |
| Insights.Dated | backend/src/controllers/insightsController.js:19-25 | a month reads exactly the transactions dated inside its window |
| Insights.Bucket | backend/src/controllers/insightsController.js:15-40 | a bucket names its normalised month, sums the signed income and expenses of that month, and subtracts them for the balance |
| Insights.MonthlyData | backend/src/controllers/insightsController.js:13-41 | six buckets, oldest first, the k-th for month index `current - 5 + k` |
| Insights.BucketsConsecutive | backend/src/controllers/insightsController.js:14-16 | those six buckets lie on consecutive calendar months, the last being the current one |
| Insights.NextMonth | backend/src/controllers/insightsController.js:14-16 | consecutive month indices give consecutive absolute months |
| Insights.AverageExpenses | backend/src/controllers/insightsController.js:44-45 | the average times the number of months is the total |
| Insights.CurrentExpenses | backend/src/controllers/insightsController.js:48-59 | the current month's rows are exactly its expenses inside its window |
| Insights.ByAmountDescTotal | backend/src/controllers/insightsController.js:67-68 | ordering by amount descending is a total preorder |
| Insights.TopCategory | backend/src/controllers/insightsController.js:67-68 | there is a top category exactly when there are category totals |
| Insights.TopCategoryIsFirstMax | backend/src/controllers/insightsController.js:67-68 | the top entry is one of the totals, with the largest value, and the first such in insertion order (the enumeration order of names that are not integer-like) |
| Insights.TopCategoryExistsIffExpenses | backend/src/controllers/insightsController.js:61-68 | there is a top category exactly when the current month has an expense |
| Insights.InsightLines | backend/src/controllers/insightsController.js:77-80 | two lines: the average, then the top category or 'no transactions' exactly when there is none |
| Insights.GetInsights | backend/src/controllers/insightsController.js:13-80 | the report holds the six buckets, their average, the top category of the current month's totals, and the lines written from them |
| Insights.MonthBalanceAddsSpending | backend/src/controllers/insightsController.js:31-39 | over sign-normalised rows, a month's as-written expenses are never positive and its balance adds the spending to the income |
| Insights.BucketBySpend | backend/src/controllers/insightsController.js:31-39 | the corrected bucket's expenses are magnitudes, never negative, and the balance is income minus expenses |
| Insights.BucketBySpendIsSummary | backend/src/controllers/insightsController.js:27-39 | the corrected bucket agrees with the transaction summary over the month's rows |
| Insights.SignedTotalsNonPositive | backend/src/controllers/insightsController.js:61-65 | with expenses stored negative, every category total is non-positive |
| Insights.TopCategoryIsLeastSpent | backend/src/controllers/insightsController.js:61-68 | as written, over sign-normalised rows the top category is the one with the smallest spending |
| Insights.LeastSpentExample | backend/src/controllers/insightsController.js:67-68 | totals of -1000 for rent and -50 for leisure make leisure the top category |
| Insights.TopCategoryBySpendIsLargest | backend/src/controllers/insightsController.js:61-68 | the corrected top category exists exactly when something was spent, and has the largest spending magnitude |
| Insights.LargestSpentExample | backend/src/controllers/insightsController.js:67-68 | with magnitudes, rent at 1000 beats leisure at 50 |
| EmergencyFunds.Created | frontend/backend/src/controllers/emergencyFundController.js:25 | creation is refused without a target or a monthly expense figure; otherwise the given fields are kept, with 0 saved and 6 months by default |
| EmergencyFunds.Merged | frontend/backend/src/controllers/emergencyFundController.js:27 | merging keeps the id; each of target, current amount, monthly expenses and target months is the body's value when given and the stored one otherwise; an empty body changes nothing |
| EmergencyFunds.UpdateTarget | frontend/backend/src/controllers/emergencyFundController.js:21-40 | update fails only when a new record lacks its required fields; a truthy expense or month figure makes the target their product; otherwise the target is the body's or the stored one; every other field is as merged |
| EmergencyFunds.ContributionKeepsTarget | frontend/backend/src/controllers/emergencyFundController.js:51 | a contribution leaves a recomputed target consistent |
| EmergencyFunds.FundStore.Get | frontend/backend/src/controllers/emergencyFundController.js:4-19 | the stored fund is answered unchanged; without one, the default record is created and stored |
| EmergencyFunds.FundStore.Update | frontend/backend/src/controllers/emergencyFundController.js:21-40 | the stored fund becomes the updated one; a refusal changes nothing |
| EmergencyFunds.FundStore.AddContribution | frontend/backend/src/controllers/emergencyFundController.js:42-58 | without a fund the answer is not-found and nothing changes; otherwise the amount is added to the savings |
| Investments.ContributedToAppend | frontend/backend/src/controllers/investmentController.js:47-62 | appending a contribution adds its amount to its own investment's contributed total only |
| Investments.Contributed | frontend/backend/src/controllers/investmentController.js:53 | a contribution raises the total invested by its amount and changes nothing else |
| Investments.StrLeTotal | frontend/backend/src/controllers/investmentController.js:9 | names are totally ordered |
| Investments.StrLeTrans | frontend/backend/src/controllers/investmentController.js:9 | the name order is transitive |
| Investments.ByNameTotal | frontend/backend/src/controllers/investmentController.js:9 | ordering investments by name is a total preorder |
| Investments.NewerFirstTotal | frontend/backend/src/controllers/investmentController.js:70 | ordering contributions by date descending is a total preorder |
| Investments.ContributionsOf | frontend/backend/src/controllers/investmentController.js:67-68 | the contributions read are exactly those of the investment |
| Investments.InvestmentStore.AddContribution | frontend/backend/src/controllers/investmentController.js:47-62 | without an amount the request is refused and nothing changes; otherwise the contribution is stored under the next id and its known investment's total invested grows by the amount; totals that matched the contributions still match |
| Investments.InvestmentStore.GetAll | frontend/backend/src/controllers/investmentController.js:5-15 | the answer holds the investments, each as often as stored, ordered by name |
| Investments.InvestmentStore.GetContributions | frontend/backend/src/controllers/investmentController.js:64-76 | the answer is exactly the investment's contributions, newest first |
| Text.IsSubsequenceRefl | frontend/src/data/categories.js:25 | every sequence is a subsequence of itself |
| Text.Filter | src/lib/utils.js:2 | filtering keeps exactly the elements that pass, in their order |
| Text.FilterAll | frontend/src/data/categories.js:25 | filtering with a test every element passes changes nothing |
| Text.Split | frontend/src/hooks/useKeyboardShortcuts.js:9 | splitting gives at least one piece, and no piece contains the separator |
| Text.Join | src/lib/utils.js:2 | joining no pieces gives the empty string, and one piece gives that piece |
| Text.JoinLength | src/lib/utils.js:2 | the joined length is the pieces' total length plus one separator between each two pieces |
| Text.JoinSplit | frontend/src/hooks/useKeyboardShortcuts.js:9 | joining the pieces of a split with the separator restores the string |
| Text.SplitPlain | frontend/src/hooks/useKeyboardShortcuts.js:9 | a string without the separator splits into itself |
| Text.SplitFirst | frontend/src/hooks/useKeyboardShortcuts.js:9 | splitting at the first separator gives the part before it, then the pieces of the rest |
| Text.SplitJoin | src/lib/utils.js:2 | splitting the join of non-empty separator-free pieces gives the pieces back |
| Text.LowerChar | frontend/src/hooks/useKeyboardShortcuts.js:16 | an ASCII capital becomes its small letter, and any other character is kept |
| Text.Lower | frontend/src/hooks/useKeyboardShortcuts.js:16 | lowering keeps the length, lowers each character, and leaves no ASCII capital |
| Text.LowerIdempotent | frontend/src/hooks/useKeyboardShortcuts.js:16 | lowering twice is lowering once |
| Categories.CategoriesByType | frontend/src/data/categories.js:23-30 | 'income' keeps the income and shared categories, 'expense' the expense and shared ones, any other type the whole table; each answer keeps the table's order |
| Categories.OthersEntry | frontend/src/data/categories.js:20 | 'Outros' is in the table and is shared by both types |
| Categories.OthersOfferedForIncome | frontend/src/data/categories.js:24-26 | 'Outros' is offered for incomes |
| Categories.OthersOfferedForExpenses | frontend/src/data/categories.js:27-29 | 'Outros' is offered for expenses |
| Categories.EveryCategoryOffered | frontend/src/data/categories.js:1-30 | every category of the table is offered for incomes or for expenses |
| Categories.SharedCategoriesAreBoth | frontend/src/data/categories.js:24-29 | a category offered for both types is a shared one |
| BudgetSuggestions.FindBudget | src/data/budgetCategories.js:13 | the lookup finds the first entry with the name, or reports that none has it |
| BudgetSuggestions.BudgetSuggestion | src/data/budgetCategories.js:12-14 | a category with a table entry gets that entry's amount, and any other gets 500 |
| BudgetSuggestions.SuggestionPositive | src/data/budgetCategories.js:1-14 | every suggestion is positive |
| BudgetSuggestions.NamesDistinct | src/data/budgetCategories.js:1-10 | no category has two entries in the table |
| BudgetSuggestions.SuggestionsAreExpenseCategories | src/data/budgetCategories.js:1-10 | every category with a suggested budget is offered for expenses |
| Shortcuts.ModifierHeld | frontend/src/hooks/useKeyboardShortcuts.js:11-14 | only 'ctrl', 'alt' and 'shift' can be held; any other modifier never matches |
| Shortcuts.CheckShortcut | frontend/src/hooks/useKeyboardShortcuts.js:9-16 | a shortcut matches when its modifier is held and the key equals its main key ignoring case; a held modifier without a main key throws |
| Shortcuts.EveryMatchFires | frontend/src/hooks/useKeyboardShortcuts.js:8-19 | without a throw, exactly the matching shortcuts fire, in list order, and the default is prevented exactly when a fired shortcut asks for it |
| Shortcuts.FiredAreMatches | frontend/src/hooks/useKeyboardShortcuts.js:8-19 | the fired positions increase, and each names a shortcut that matches the event |
| Shortcuts.MatchesFire | frontend/src/hooks/useKeyboardShortcuts.js:8-19 | without a throw, a shortcut fires exactly when it matches |
| Shortcuts.PreventedByFired | frontend/src/hooks/useKeyboardShortcuts.js:8-17 | the default is prevented exactly when some fired shortcut does not opt out |
| Shortcuts.ThrowIsFinal | frontend/src/hooks/useKeyboardShortcuts.js:8-19 | once a shortcut throws, no later shortcut changes anything |
| Shortcuts.CaseInsensitive | frontend/src/hooks/useKeyboardShortcuts.js:16 | keys that differ only in case match the same shortcuts |
| Shortcuts.KeysSplitAtPlus | frontend/src/hooks/useKeyboardShortcuts.js:9-16 | a shortcut written 'modifier+key' matches exactly when the modifier is held and the key agrees ignoring case |
| Shortcuts.HandleKeyDown | frontend/src/hooks/useKeyboardShortcuts.js:5-21 | the handler's loop fires the shortcuts, prevents the default and stops at a throw as specified; without a throw, exactly the matching shortcuts fire |
| ClassNames.Kept | src/lib/utils.js:2 | the truthy arguments are kept: each is a non-empty name given; none kept exactly when no argument is truthy |
| ClassNames.KeptInOrder | src/lib/utils.js:2 | `filter(Boolean)` keeps the truthy arguments one for one and in argument order |
| ClassNames.KeptCounts | src/lib/utils.js:2 | each non-empty name is kept exactly as many times as it is passed, and the empty string never |
| ClassNames.Cn | src/lib/utils.js:1-3 | the class string is empty exactly when no argument is truthy |
| ClassNames.CnSplitsBack | src/lib/utils.js:1-3 | with blank-free names, splitting the class string at blanks gives back the kept names |
| DebtsView.StatusColor | src/pages/Debts.jsx:59-64 | green exactly for a paid debt, red for an overdue or past-due one, yellow for an active one due within 7 days, gray for one due later |
| DebtsView.StatusText | src/pages/Debts.jsx:66-71 | the due text shows the day count |
| DebtsView.ColourMatchesText | src/pages/Debts.jsx:59-71 | the colour and the text tell the same story |
| DebtsView.ActiveCardMatchesAlert | src/pages/Debts.jsx:59-64 | for an active debt the card is red exactly when an overdue alert is raised, yellow exactly when a due-soon alert is, and gray when none is |
| DebtsView.ProgressBounds | src/pages/Debts.jsx:102 | with what remains between zero and the total, the progress lies in [0, 100] and is 100 exactly when nothing remains |
| DebtsView.PaymentAdvancesProgress | src/pages/Debts.jsx:102 | a payment never moves the progress back, and one that settles the debt makes it 100 |
| DebtsView.AfterPaymentForm | src/pages/Debts.jsx:38-40 | an empty or non-positive amount leaves the debt as it is; any other amount is paid |
| DebtsView.PaymentFormLowersDebt | src/pages/Debts.jsx:38-40 | through the form what remains never grows, an accepted amount strictly lowers it, and a settled debt no longer shows the form |
| BudgetsView.ProgressColor | frontend/src/pages/Budgets.jsx:55-59 | red exactly from 100%, yellow from 80% below 100%, green below 80% or on NaN |
| BudgetsView.BarWidth | frontend/src/pages/Budgets.jsx:137 | the width is at most 100 unless the percentage is NaN |
| BudgetsView.CardMatchesAlert | frontend/src/pages/Budgets.jsx:55-66 | a red card is a critical alert, yellow a high or medium one, green none; the warning icon shows exactly for critical and high alerts; the remainder is highlighted exactly on red cards |
| BudgetsView.PositiveLimitTiers | frontend/src/pages/Budgets.jsx:55-66 | for a positive limit the tiers compare the spending with the limit, and the remainder is highlighted exactly when nothing remains |
| BudgetsView.BarWidthBounds | frontend/src/pages/Budgets.jsx:137 | with nothing negative the width lies in [0, 100], except NaN for a zero limit with nothing spent; a zero limit with something spent shows a full red bar |
| InvestmentsView.Performance | frontend/src/pages/Investments.jsx:71-74 | zero with nothing invested, otherwise the gain as a percentage of what was invested |
| InvestmentsView.PerformanceSign | frontend/src/pages/Investments.jsx:71-74 | with something invested the performance has the sign of the gain |
| InvestmentsView.TypeLabel | frontend/src/pages/Investments.jsx:60-69 | a known type code gets a non-empty label different from the code, and any other code is shown unchanged |
| InvestmentsView.StoredTypesLabelled | frontend/src/pages/Investments.jsx:60-69 | every stored type gets a label of its own |
| InvestmentsView.TotalsCompare | frontend/src/pages/Investments.jsx:80-81 | the totals compare as every investment does |
| InvestmentsView.PortfolioFollowsInvestments | frontend/src/pages/Investments.jsx:80-82 | a portfolio of gains performs non-negatively, and one of losses non-positively |
| InvestmentsView.GoalBarWidth | frontend/src/pages/Investments.jsx:240 | the goal bar is at most 100 unless the progress is NaN |
| InvestmentsView.GoalBarBounds | frontend/src/pages/Investments.jsx:221-240 | with a positive target the bar lies in [0, 100] and is full exactly when the target is reached |
| InvestmentsView.MonthsLeft | frontend/src/pages/Investments.jsx:222 | the months shown are never negative: the projection's months, or zero |
| InvestmentsView.ExpiredIffDatePassed | frontend/src/pages/Investments.jsx:245-249 | 'Meta vencida' shows exactly when the target date is not after now; otherwise the months shown times the monthly amount shown is what is missing |
| SummaryPanel.DebtTotalNonNegative | frontend/src/components/FinancialSummaryPanel.jsx:51 | debts that are not negative total a non-negative amount |
| SummaryPanel.Panel | frontend/src/components/FinancialSummaryPanel.jsx:48-63 | the spending is the magnitude of the summary's expenses; what is left to invest is the balance after the debts, never below zero; the ratio is the spending as a percentage of a positive income, and 0 otherwise |
| SummaryPanel.ColourMatchesAdvice | frontend/src/components/FinancialSummaryPanel.jsx:17-32 | the colour and the message grade the spending alike |
| SummaryPanel.TiersOverSummary | frontend/src/components/FinancialSummaryPanel.jsx:17-32 | over a consistent summary the urgent tier is exactly a negative balance; with income the ratio passes 100 exactly then; with no income the tier is urgent or 'invest more' |
| SummaryPanel.PanelOverSummary | frontend/src/components/FinancialSummaryPanel.jsx:48-63 | the summary the panel fetches is consistent, so the tiers above hold for it |
| SummaryPanel.AvailableWithinBalance | frontend/src/components/FinancialSummaryPanel.jsx:55 | with no negative debt, no more than a non-negative balance is offered for investing, and all of it without debts |
| EmergencyFundCard.Progress | src/components/EmergencyFundCard.jsx:67 | zero without a target; otherwise the saved amount as a percentage of the target |
| EmergencyFundCard.CompleteIffSaved | src/components/EmergencyFundCard.jsx:68 | the fund is complete exactly when its target is positive and the savings cover it |
| EmergencyFundCard.BarWidth | src/components/EmergencyFundCard.jsx:169 | the width is at most 100 and is 100 exactly when the fund is complete |
| EmergencyFundCard.RemainderPositive | src/components/EmergencyFundCard.jsx:177 | while a positive target is not reached, the amount shown as missing is positive |
| EmergencyFundCard.AfterContributionForm | src/components/EmergencyFundCard.jsx:45 | an empty or non-positive amount leaves the fund as it is; any other is added to the savings |
| EmergencyFundCard.ContributionAdvances | src/components/EmergencyFundCard.jsx:45-68 | a contribution never lowers the progress, keeps a complete fund complete, and completes a fund when it covers the remainder |

## Left out

- HTTP, Sequelize and the database engine are not modelled. Each handler is a function or method over the rows of its tables, and errors become `Result` values. Exceptions a query may throw are left out, and so is the 500/400 response they produce.
- MySQL `LIKE` is case-insensitive, accent-insensitive and treats `%` and `_` in the term as wildcards. The model matches the term as a plain case-sensitive substring.
- The database collation of names is not modelled. The list of investments is ordered by character code (`Investments.StrLe`).
- Rows that tie under `ORDER BY` come back in table order in the model. The database does not promise any order for ties.
- Stored alerts are read newest first as the reverse of their creation order. This assumes that no two alerts share a `createdAt`.
- `update` answers not-found on zero affected rows in the source. In MySQL that also happens for an existing row whose values do not change. The model answers not-found only for an unknown id.
- Delete-then-create in the alert generator is not atomic in the source. The model runs it as one method, with no concurrent requests.
- `DECIMAL` columns come back as strings, and `parseFloat` reads them. The model uses `real` throughout, so string concatenation, `parseFloat` rounding and floating-point rounding are not modelled.
- Signed zero is not modelled.
- `InvestmentsView.Performance`: `invested === 0` is false for a `DECIMAL` string in the source, so a stored zero divides by zero there. The model compares numbers.
- `Transactions.Create`: an amount is modelled as absent, a number, or a string that does or does not parse. The string `"0"` is truthy in JavaScript and is accepted, like any readable string. `new Date(date)` of an unreadable date is not modelled.
- `Transactions.Create`: the default category lookup's table is a parameter, and the stored row's `createdAt` is the `now` parameter.
- Formatting is left out: messages and titles are constructors carrying the figures they show. `toFixed`, `formatCurrency`, `formatDate`, `toLocaleDateString` and all React rendering are not modelled.
- `new Date()`, the local time zone and the three-months-ago instant of the simulator are parameters (`now`, `Calendar`, `since`).
- `Simulation.Simulate`: `targetMonths` is an integer in the model; the source's `parseInt` of a fractional or non-numeric value is not modelled.
- The investments list also includes each investment's contributions. The model returns the investments only.
- A contribution for an unknown investment is stored without touching any total. The foreign-key check the database may apply is not modelled.
- The summary panel's invested total reads a field the investment rows do not have, giving NaN. It is shown nowhere in the cards modelled, so it is left out.
- `Text.Lower`: `toLowerCase` is modelled for ASCII letters only.
- `InvestmentsView.TypeLabel`: lookups of inherited object keys such as `constructor` are not modelled.
- `Ledger.AddToValue`: `acc[k] || 0` is modelled as 0 for a new key. For a name inherited from `Object.prototype` (`constructor`, `toString`, `valueOf`, ...) JavaScript reads the inherited function and concatenates strings, and an assignment to `__proto__` is dropped. Neither is modelled.
- `Ledger.GroupByCategory`: entries are kept in insertion order. JavaScript enumerates integer-like names ("13", "2024") first, in ascending numeric order, and this is not modelled; inherited names are left out as for `Ledger.AddToValue`.
- `Transactions.Summarize`: its `categoryExpenses` is `Ledger.GroupByCategory`, so the key order of integer-like category names in the JSON answer and the values of inherited names are not modelled.
- `Insights.CategoryTotals`: the same two gaps as `Ledger.GroupByCategory`.
- `Insights.TopCategory`: ties are broken by insertion order. In JavaScript `Object.entries` lists integer-like names first, in ascending numeric order, so a tie involving such a name goes to the smallest one. This is not modelled.
- `Insights.TopCategoryIsFirstMax`: "first in insertion order" is the source's tie-break only when no category name is integer-like, for the reason given for `Insights.TopCategory`.
- `Shortcuts.HandleKeyDown`: each `action()` is reduced to the index of the shortcut that fired. Its side effects, and exceptions it may throw, are not modelled.
- `ClassNames.Cn`: arguments are strings or falsy values. Numbers and other objects, which `join` would stringify, are left out.
- `Base.AcceptedAmount`: the form's amount is a number or absent. A non-numeric string, which passes the `<= 0` test and is then sent as NaN, is not modelled.
- Create, read and delete handlers outside the operations above are not modelled: transaction update and delete, the goal, budget, debt and investment CRUD, and listing simulations.

## Findings

| source | as written | input that shows it | evidently intended | confidence | as-written member | corrected member |
|---|---|---|---|---|---|---|
| backend/src/controllers/transactionController.js:143-147 | the summary matches the search term untrimmed, while the list trims it (lines 13-15) | search `" Uber"` with a row described `"Uber"`: listed, but missing from the summary | the summary applies "the same filters as the list" (line 134), so it trims the term too | high (not executed) | Transactions.SummarySearchDiffersFromList | Transactions.SummaryCoversList |
| frontend/backend/src/controllers/budgetController.js:31-34 | the month window ends at midnight starting its last day (`new Date(y, m, 0)`) | an expense created at 10:00 on 31 January counts in neither January's nor February's budget | the window covers the whole month up to the next month's first midnight | high (not executed) | Budgets.LastDayExpenseNotCounted | Budgets.ExpenseCountedOnce |
| frontend/backend/src/controllers/simulationController.js:26-30 | monthly expenses average the stored, negative amounts, so the savings add the spending to the income | income 300 and spending 300 in three months: savings 200 a month, and a 600 goal over 3 months is called viable | the expenses are magnitudes, so the savings are income minus spending (0 here, not viable) | high (not executed) | Simulation.SpendingRaisesSavingsExample | Simulation.MagnitudeSavingsMatchSummary |
| backend/src/controllers/insightsController.js:61-68 | the top category sorts the signed, negative totals descending, so it picks the least spent | rent -1000 and leisure -50: leisure is reported as the largest category | the category with the largest spending | high (not executed) | Insights.LeastSpentExample | Insights.TopCategoryBySpendIsLargest |
| backend/src/controllers/insightsController.js:31-39 | a month's expenses are the signed sum, so `income - expenses` adds the spending | income 100 and spending 40 in a month: balance 140 | the balance is income minus spending (60), as in the transaction summary | high (not executed) | Insights.MonthBalanceAddsSpending | Insights.BucketBySpendIsSummary |

The insights handler builds its month windows the same way as the budget handler (backend/src/controllers/insightsController.js:16-17 for the six monthly buckets, 48-49 for the current month's categories): `Op.between` up to `new Date(y, m + 1, 0)` on the `date` column. A transaction dated after midnight on the last day of a month therefore falls in no monthly bucket and in no current-month category total. `Insights.Dated` keeps that behaviour through `Calendar`; the corrected whole-month span is stated only for budgets (`Budgets.InMonth`).
