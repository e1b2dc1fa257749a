# Équilibra — a verified model of the finance rules

Équilibra is a personal and work finance tracker. Its decision logic lives in a few
places: the client-side insight engine, the dashboard's aggregation and forecast,
the monthly spending goals, the personalised offers, the service dialogs (loan,
benefit vouchers, new transaction, PIX transfer, mobile top-up), the assistant
chat's shortcut tokenizer, and two edge functions (`generate-insights` and
`analyze-financial-mood`). This project models each of them in Dafny and proves
what each promises.

The model's conventions:

- Money is `real`, so amounts are exact decimals.
- Calendar facts are inputs. A transaction row carries its day of the month, its
  weekday and its age in days; the current day of the month and the month's length
  are parameters.
- The database is the class `Store.Db`, one sequence per table plus an id counter.
  Operations that write to it are methods with full frame conditions.
- The result of a query (a date window of transactions, the caller's accounts) is a
  parameter.
- The outcome of an external call is a parameter: whether an insert is rejected, what
  the AI gateway replies, how the token payload decodes.
- A JavaScript object filled with `acc[k] = (acc[k] || 0) + v` is an association
  list in first-insertion order (`Ledger.Group`).
- `Array.prototype.sort` is a stable insertion sort on a numeric key
  (`Sorting.SortBy`).

Modules, one per source file, plus shared ones:

| module | models |
|---|---|
| `Prelude` | options, results, number fields, sums, `Math.round`, `toFixed(2)` |
| `Ledger` | transactions, inflow/outflow totals, per-key grouping |
| `Sorting` | stable sort by a numeric key, `slice(0, n)` |
| `Store` | table rows and the database class |
| `InsightsEngine` | `src/utils/insightsEngine.ts` |
| `Dashboard` | `src/pages/Index.tsx` |
| `Goals` | `src/pages/Metas.tsx` |
| `Offers` | `src/pages/Ofertas.tsx` |
| `Loans` | `src/components/servicos/EmprestimosModal.tsx` |
| `Benefits` | `src/components/servicos/BeneficiosModal.tsx` |
| `TransactionDialog` | `src/components/TransactionDialog.tsx` |
| `Checkout` | the guard chain PIX and top-up share |
| `Pix` | `src/components/servicos/PixModal.tsx` |
| `TopUp` | `src/components/servicos/RecargaModal.tsx` |
| `Chatbot` | `src/components/ChatBot.tsx` |
| `AiInsights` | `supabase/functions/generate-insights/index.ts` |
| `FinancialMood` | `supabase/functions/analyze-financial-mood/index.ts` |

## Model

| member | source | states |
|---|---|---|
| Prelude.Round | src/pages/Index.tsx:226 | `Math.round` lands within half a unit of its argument |
| Prelude.ToCents | src/pages/Index.tsx:128-131 | `Number(x.toFixed(2))` is within half a cent of x and keeps non-negative amounts non-negative |
| Prelude.ToCentsOfCents | src/pages/Index.tsx:128-131 | an amount that is already a whole number of cents survives rounding unchanged |
| Prelude.ToCentsIdempotent | src/pages/Index.tsx:128-131 | rounding to cents twice is rounding once |
| Prelude.SumNonNegative | src/utils/insightsEngine.ts:33-39 | a `reduce` sum of non-negative amounts is non-negative |
| Prelude.DivCompare | src/utils/insightsEngine.ts:50-80 | comparing a ratio with a threshold is comparing the dividend with the scaled divisor, the form the ratio tiers are proved in |
| Ledger.Outflow | src/utils/insightsEngine.ts:33-39 | the sum of the "saida" amounts; `Ledger.RecordingMovesOneTotal` shows only an outflow row moves it, `Ledger.TotalNonNegative` that it is non-negative for non-negative amounts |
| Ledger.Inflow | src/utils/insightsEngine.ts:33-39 | the sum of the "entrada" amounts, with the same two lemmas |
| Ledger.Group | src/utils/insightsEngine.ts:42-47 | the object the loop fills, as an association list; its keys and totals are stated by `Ledger.GroupKeys`, `Ledger.GroupLookup`, `Ledger.EntryIsKeyTotal` and `Ledger.KeyTotalIsEntry` |
| Ledger.RecordingMovesOneTotal | src/pages/Index.tsx:99-108 | one more row moves the outflow if it is "saida", the inflow if it is "entrada", and neither total for any other type |
| Ledger.TotalNonNegative | src/utils/insightsEngine.ts:33-39 | with non-negative amounts every filtered total is non-negative |
| Ledger.Add | src/utils/insightsEngine.ts:46 | `acc[k] = (acc[k] \|\| 0) + v` keeps the key order and appends a new key at the end |
| Ledger.AddLookup | src/utils/insightsEngine.ts:46 | after the update, k holds its old total (0 if absent) plus v, and every other key is unchanged |
| Ledger.AddValues | src/utils/insightsEngine.ts:46 | the update raises the sum of all entries by exactly v |
| Ledger.LookupFound | src/utils/insightsEngine.ts:46 | a key is found exactly when it is one of the object's keys |
| Ledger.GroupKeys | src/utils/insightsEngine.ts:42-47 | the filled object has one entry per distinct key, in first-occurrence order |
| Ledger.GroupLookup | src/utils/insightsEngine.ts:42-47 | each key holds the sum of the values paired with it; a key that never occurs is absent |
| Ledger.EntryIsKeyTotal | src/utils/insightsEngine.ts:42-47 | every entry of the filled object is a key that occurs, holding that key's total |
| Ledger.KeyTotalIsEntry | src/utils/insightsEngine.ts:42-47 | every key that occurs has an entry holding its total, at a position the lemma names |
| Ledger.GroupSum | src/utils/insightsEngine.ts:42-47 | the group totals add up to the sum of all values |
| Ledger.GroupNonNegative | src/utils/insightsEngine.ts:42-47 | totals of non-negative amounts are non-negative |
| Ledger.CategoryPairsSum | src/utils/insightsEngine.ts:42-47 | the outflow rows' (category, amount) pairs carry exactly the outflow total |
| Ledger.DayPairsSum | src/pages/Index.tsx:120-126 | the outflow rows' (day, amount) pairs carry exactly the outflow total |
| Ledger.CategoryTotalsPartitionOutflow | src/pages/Index.tsx:136-141 | the per-category totals add up to the month's outflow |
| Ledger.GroupLookupOrZero | src/utils/insightsEngine.ts:202-203 | `obj[k] \|\| 0` on a grouping is the total of k's values, 0 when k never occurs |
| Ledger.LookupEntry | src/utils/insightsEngine.ts:90-97 | each entry of a grouping is found under its own key |
| Ledger.SpendByCategory | src/utils/insightsEngine.ts:42-47 | the `forEach` loop builds exactly the per-category grouping of the outflows |
| Ledger.SpendByDay | src/pages/Index.tsx:120-126 | the `forEach` loop builds exactly the per-day grouping of the outflows |
| Sorting.Insert | src/utils/insightsEngine.ts:318 | insertion adds exactly one element and keeps the others |
| Sorting.SortBy | src/utils/insightsEngine.ts:318 | the sort is a permutation of its input |
| Sorting.InsertSorted | src/utils/insightsEngine.ts:318 | inserting into a sorted list keeps it sorted |
| Sorting.SortBySorted | src/utils/insightsEngine.ts:318 | the result is ordered by non-decreasing key |
| Sorting.InsertStable | src/utils/insightsEngine.ts:318 | an inserted element goes first among the elements sharing its key |
| Sorting.SortByStable | src/utils/insightsEngine.ts:318 | elements with equal keys keep their input order |
| Sorting.WithKeyMembers | src/utils/insightsEngine.ts:318 | the elements of one key are exactly the input's elements with that key |
| Sorting.PrefixKeepsLeast | src/utils/insightsEngine.ts:319 | when the least key has at most n elements, a prefix of length n keeps all of them |
| Sorting.Take | src/utils/insightsEngine.ts:319 | `slice(0, n)` is the prefix of length min(n, length) |
| Sorting.TakeSorted | src/utils/insightsEngine.ts:319 | a prefix of a sorted list is sorted |
| Store.PrincipalRows | src/pages/Index.tsx:72-77 | the query returns exactly the user's accounts of type "principal" |
| Store.PrincipalAccount | src/pages/Index.tsx:72-77 | `maybeSingle()` yields the row exactly when one principal account matches |
| Store.PrincipalBalance | src/pages/Index.tsx:79-83 | the balance is that account's `saldo_atual`, or 0 without exactly one principal account |
| Store.FirstAccount | src/components/TransactionDialog.tsx:58-62 | `limit(1)` finds one of the user's accounts exactly when the user has one |
| Store.WithBalance | src/components/TransactionDialog.tsx:109-111 | the update rewrites the balance of the rows with that id and no other field or row |
| Store.WithoutUnread | src/utils/insightsEngine.ts:322-326 | the delete keeps exactly the rows that are read or belong to another user |
| Store.WithoutUnreadAppend | src/utils/insightsEngine.ts:322-326 | deleting from a concatenation deletes from each part |
| Store.WithoutUnreadIdempotent | src/utils/insightsEngine.ts:322-326 | a second delete removes nothing more |
| Store.WithoutUnreadOwn | src/utils/insightsEngine.ts:322-326 | rows that are all the user's and unread are deleted entirely |
| Store.Deactivated | src/pages/Ofertas.tsx:153-157 | only the offer with that id loses `ativa`; nothing else changes |
| Store.WithoutGoal | src/pages/Metas.tsx:164-167 | the delete keeps exactly the goals with another id |
| Store.Db.AddAccount | src/components/TransactionDialog.tsx:66-75 | an insert into `accounts` appends one row with a fresh id; other tables are unchanged |
| Store.Db.SetBalance | src/components/TransactionDialog.tsx:109-111 | the balance update touches only `accounts` |
| Store.Db.AddTransaction | src/components/TransactionDialog.tsx:89-100 | an insert into `transactions` appends one row; other tables are unchanged |
| Store.Db.AddLog | src/components/servicos/PixModal.tsx:88-100 | an insert into `services_logs` appends one row; other tables are unchanged |
| Store.Db.AddInsights | src/utils/insightsEngine.ts:330 | an insert into `insights` appends the rows in order; other tables are unchanged |
| Store.Db.DeleteUnread | src/utils/insightsEngine.ts:322-326 | the delete of unread insights changes only `insights` |
| Store.Db.AddOffer | src/pages/Ofertas.tsx:144 | an insert into `ofertas` appends one active row with a fresh id |
| Store.Db.DeactivateOffer | src/pages/Ofertas.tsx:153-157 | the update changes only `ofertas` |
| Store.Db.AddGoal | src/pages/Metas.tsx:135-144 | an insert into `metas` appends one row with a fresh id |
| Store.Db.RemoveGoal | src/pages/Metas.tsx:164-167 | the delete changes only `metas` |
| InsightsEngine.Contains | src/utils/insightsEngine.ts:100 | `includes` holds exactly when the word occurs at some index |
| InsightsEngine.RatioFindings | src/utils/insightsEngine.ts:50-80 | at most one ratio finding, only with positive inflow; priority 1 exactly for the critical tier |
| InsightsEngine.RatioTiers | src/utils/insightsEngine.ts:50-80 | the tiers are exclusive: critical above 90%, high above 75% up to 90%, healthy below 50%, nothing from 50% to 75%; an alert exactly above 75% |
| InsightsEngine.ConcentrationRule | src/utils/insightsEngine.ts:84-97 | a priority-2 informative finding exactly when outflow is positive and the category exceeds 40% of it |
| InsightsEngine.OverrunRule | src/utils/insightsEngine.ts:100-120 | a priority-2 alert exactly when the lower-cased category contains the word and its outflow exceeds the limit |
| InsightsEngine.CategoryNamesMatchIgnoringCase | src/utils/insightsEngine.ts:100-111 | "Alimentação" and "ALIMENTAÇÃO" match the food word, "Transporte" the transport word, "Lazer" not the food word |
| InsightsEngine.CategoryRule | src/utils/insightsEngine.ts:84-120 | one category yields at most three findings, all priority 2 and of the decision tree |
| InsightsEngine.CategoryFindings | src/utils/insightsEngine.ts:84-121 | over all categories: at most three findings each, all concentrations or overruns |
| InsightsEngine.CategoryRuleConcentrations | src/utils/insightsEngine.ts:84-97 | a category contributes one concentration exactly when it holds more than 40% of a positive outflow |
| InsightsEngine.ConcentrationMass | src/utils/insightsEngine.ts:84-97 | the concentrated categories together hold more than 40% of the outflow each |
| InsightsEngine.NoConcentrationWithoutOutflow | src/utils/insightsEngine.ts:84-97 | with no outflow, no category is concentrated |
| InsightsEngine.CategoryConcentrationsAtMostTwo | src/utils/insightsEngine.ts:84-97 | at most two categories can each hold more than 40% of the outflow |
| InsightsEngine.AtMostTwoConcentrations | src/utils/insightsEngine.ts:84-97 | the decision tree reports at most two concentrations when amounts are non-negative |
| InsightsEngine.WindowConcentrationsAtMostTwo | src/utils/insightsEngine.ts:84-97 | over one window of non-negative amounts, the category rule reports at most two concentrations |
| InsightsEngine.Projection | src/utils/insightsEngine.ts:124-126 | the balance less the mean daily outflow times the days left; `InsightsEngine.ProjectionFallsWithSpending` and `InsightsEngine.LastDayNoMonthEndAlert` state its behaviour |
| InsightsEngine.MonthEndFindings | src/utils/insightsEngine.ts:124-146 | at most one month-end alert: priority 1 for a projected deficit, priority 2 for a margin under 10%, never both |
| InsightsEngine.LastDayNoMonthEndAlert | src/utils/insightsEngine.ts:124-146 | on the month's last day the projection is the balance, so a non-negative balance raises no alert |
| InsightsEngine.ProjectionFallsWithSpending | src/utils/insightsEngine.ts:124-126 | more spending at the same point of the month never raises the projection |
| InsightsEngine.Recent | src/utils/insightsEngine.ts:163-171 | the week and month windows keep only rows at most that many days old |
| InsightsEngine.FrequencyFindings | src/utils/insightsEngine.ts:174-184 | one priority-3 informative finding exactly when the week has more than 35 rows (more than five a day) |
| InsightsEngine.GrowthRule | src/utils/insightsEngine.ts:201-216 | a growth alert exactly when the week's total exceeds 50 and its daily mean exceeds 1.5 times the month's |
| InsightsEngine.GrowthFindings | src/utils/insightsEngine.ts:187-216 | at most one priority-2 growth alert per category with outflow in the week |
| InsightsEngine.WeekendOutflows | src/utils/insightsEngine.ts:219-226 | the weekend rows are outflows dated Saturday or Sunday |
| InsightsEngine.WeekendFindings | src/utils/insightsEngine.ts:219-242 | at most one priority-3 informative finding, only when weekend outflow exceeds 35% of a positive outflow |
| InsightsEngine.WeekendWithinOutflow | src/utils/insightsEngine.ts:219-232 | with non-negative amounts the weekend outflow lies between 0 and the outflow |
| InsightsEngine.ReserveFindings | src/utils/insightsEngine.ts:245-255 | the reserve condition is unsatisfiable: the heuristic never produces a finding |
| InsightsEngine.TreeFindings | src/utils/insightsEngine.ts:22-149 | the three rules' findings in rule order; `InsightsEngine.AnalyzeTree` proves the pushes build it, `InsightsEngine.TreeOwned` and `InsightsEngine.TreeAtMostTwoUrgent` bound it |
| InsightsEngine.HeuristicFindings | src/utils/insightsEngine.ts:154-258 | the four heuristics' findings in order; `InsightsEngine.AnalyzeHeuristics` proves the loops build it, `InsightsEngine.HeuristicsOwned` and `InsightsEngine.HeuristicsNotUrgent` bound it |
| InsightsEngine.Analysis | src/utils/insightsEngine.ts:306-314 | the tree's findings, then the heuristics'; `InsightsEngine.AnalysisOwned` and `InsightsEngine.AtMostTwoUrgent` bound it |
| InsightsEngine.AnalyzeTree | src/utils/insightsEngine.ts:22-149 | the decision tree's pushes produce exactly the rules' findings in rule order |
| InsightsEngine.AnalyzeHeuristics | src/utils/insightsEngine.ts:154-258 | the heuristics' loops produce exactly the four heuristics' findings in order |
| InsightsEngine.TreeOwned | src/utils/insightsEngine.ts:22-149 | every tree finding is the user's, unread, of priority 1 to 3 |
| InsightsEngine.HeuristicsOwned | src/utils/insightsEngine.ts:154-258 | every heuristic finding is the user's, unread, of priority 1 to 3, and none is a reserve suggestion |
| InsightsEngine.AnalysisOwned | src/utils/insightsEngine.ts:306-314 | the merged findings are all the user's, unread, of priority 1 to 3 |
| InsightsEngine.AtMostTwoUrgent | src/utils/insightsEngine.ts:50-146 | only the critical ratio and the month-end deficit are priority 1, so a run has at most two urgent findings |
| InsightsEngine.TreeAtMostTwoUrgent | src/utils/insightsEngine.ts:50-146 | the rule findings, before the heuristics are added, hold at most two priority-1 findings |
| InsightsEngine.HeuristicsNotUrgent | src/utils/insightsEngine.ts:154-258 | no heuristic finding has priority 1 |
| InsightsEngine.Priority | src/utils/insightsEngine.ts:318 | the sort key `prioridade`; `InsightsEngine.BatchOrdered` proves the batch ordered by it |
| InsightsEngine.Batch | src/utils/insightsEngine.ts:317-319 | the batch holds at most ten findings, and all of them when there are at most ten |
| InsightsEngine.BatchOrdered | src/utils/insightsEngine.ts:317-319 | the batch is ordered by non-decreasing priority and drawn from the findings |
| InsightsEngine.BatchStable | src/utils/insightsEngine.ts:317-319 | findings of one priority keep their order, and the batch keeps the first of them |
| InsightsEngine.LeastPriorityKept | src/utils/insightsEngine.ts:317-319 | when at most ten findings have priority 1, the cut keeps all of them |
| InsightsEngine.UrgentAlwaysStored | src/utils/insightsEngine.ts:317-319 | no urgent finding of a run is dropped by the ten-item cut |
| InsightsEngine.WelcomeInsight | src/utils/insightsEngine.ts:293-302 | the welcome row: the user's, unread, "informacao" from "heuristica" with priority 3 |
| InsightsEngine.AfterRun | src/utils/insightsEngine.ts:271-331 | the table after a run; `InsightsEngine.GenerateInsights` proves the method leaves it, `InsightsEngine.RunIsIdempotent` and `InsightsEngine.RunKeepsOthers` state its properties |
| InsightsEngine.GenerateInsights | src/utils/insightsEngine.ts:271-331 | the run reads the principal balance; an empty window appends the welcome row; otherwise the user's unread rows are replaced by the batch; other tables are unchanged |
| InsightsEngine.RunIsIdempotent | src/utils/insightsEngine.ts:317-330 | two runs on the same non-empty window leave the table as one run does |
| InsightsEngine.RunKeepsOthers | src/utils/insightsEngine.ts:322-330 | a run keeps every read row and every other user's row, and stores no reserve suggestion |
| Dashboard.DailyMean | src/pages/Index.tsx:113 | the month's spending over the day of the month, 0 on a non-positive day; its use in the projection is stated by `Dashboard.MonthEndForecast` |
| Dashboard.MonthEndForecast | src/pages/Index.tsx:111-117 | the projection is the balance when the day is not positive or is the month's last |
| Dashboard.ForecastAgreesWithEngine | src/pages/Index.tsx:111-117 | the dashboard projects the month end exactly as the insight engine does |
| Dashboard.ForecastAtMostBalance | src/pages/Index.tsx:111-117 | before the month's last day, spending never lifts the projection above the balance, and it equals the balance exactly when nothing was spent |
| Dashboard.Rounded | src/pages/Index.tsx:128-131 | the chart points keep their keys and carry their totals rounded to cents |
| Dashboard.GroupedPoints | src/pages/Index.tsx:120-147 | a chart has one point per key that occurs, in first-occurrence order, with that key's total rounded to cents |
| Dashboard.DailySeries | src/pages/Index.tsx:120-133 | the per-day chart; `Dashboard.DailySeriesShape` proves it sorted by day with one rounded total per day with outflow |
| Dashboard.CategorySeries | src/pages/Index.tsx:136-147 | the per-category chart; `Dashboard.CategorySeriesShape` proves one rounded total per category with outflow, in first-occurrence order |
| Dashboard.DailySeriesShape | src/pages/Index.tsx:120-133 | the daily series is sorted by day, with one point per day with outflow holding that day's rounded total |
| Dashboard.CategorySeriesShape | src/pages/Index.tsx:136-147 | the category series has one point per category with outflow, in first-occurrence order, holding its rounded total |
| Dashboard.Denominator | src/pages/Index.tsx:194 | for six points the least-squares denominator is 6·55 − 15² = 105, never zero |
| Dashboard.RawForecast | src/pages/Index.tsx:188-196 | the least-squares line's value at x = 6; `Dashboard.ForecastOfLine` proves it exact for points on a line |
| Dashboard.Forecast | src/pages/Index.tsx:196-202 | the forecast is non-negative and within half a cent of the fitted value clamped at 0 |
| Dashboard.ForecastOfLine | src/pages/Index.tsx:188-201 | six points on a line a + b·x forecast a + 6b, and six equal values forecast that value |
| Dashboard.MonthValues | src/pages/Index.tsx:164-185 | one monthly value per month queried |
| Dashboard.Trend | src/pages/Index.tsx:162-206 | the six rounded monthly outflows oldest first, then the forecast point; `Dashboard.MonthlyTrend` proves the loop builds exactly this |
| Dashboard.MonthlyTrend | src/pages/Index.tsx:162-206 | the loop pushes the six rounded monthly outflows oldest first, then a non-negative forecast point |
| Dashboard.Band | src/pages/Index.tsx:215-223 | exactly one status applies: positive above half the balance, attention above 0, high risk otherwise |
| Dashboard.PositiveBandMeansPositiveForecast | src/pages/Index.tsx:215-223 | with non-negative spending, "Projeção positiva" always means a positive forecast |
| Dashboard.PercentSpent | src/pages/Index.tsx:226 | the percentage is spending over balance times 100, rounded, and 0 when the balance is not positive |
| Dashboard.PercentSpentInRange | src/pages/Index.tsx:226 | spending within a positive balance gives a percentage between 0 and 100 |
| Dashboard.BarWidth | src/pages/Index.tsx:327 | the bar is the percentage capped at 100 |
| Dashboard.DiversityBand | src/pages/Index.tsx:441 | "Alta" from five categories, "Baixa" below three, "Média" otherwise |
| Dashboard.DashboardView.constructor | src/pages/Index.tsx:22-26 | the dashboard's state starts at zero and empty |
| Dashboard.DashboardView.Refresh | src/pages/Index.tsx:68-160 | with rows, the state holds the principal balance, the outflow, the projection and the three series; without rows, spending is 0, the forecast is the balance and every series is empty |
| Goals.ModeOutflows | src/pages/Metas.tsx:96-104 | the month query returns at most the table's rows |
| Goals.StoredMode | src/pages/Metas.tsx:33 | the selector maps to the stored mode: "trabalho" exactly for "Work" |
| Goals.NoOutflowsUnderLabel | src/pages/Metas.tsx:96-104 | no stored row carries the selector's label as its mode |
| Goals.SpendAsWritten | src/pages/Metas.tsx:96-111 | as-written half of the first finding: the category totals of the rows whose mode equals the selector's label; `Goals.AsWrittenGoalsSeeNoSpend` proves every goal then shows 0 |
| Goals.Spend | src/pages/Metas.tsx:96-111 | corrected half of the first finding: the totals with the selector mapped to the stored mode; `Goals.SpendIsCategoryOutflow` gives each goal's value |
| Goals.AsWrittenGoalsSeeNoSpend | src/pages/Metas.tsx:96-111 | as written, every goal's spend is 0 |
| Goals.AsWrittenMissesPersonalOutflow | src/pages/Metas.tsx:96-111 | a personal outflow of 50 shows as 0 as written and as 50 with the mode mapped |
| Goals.SpendIsCategoryOutflow | src/pages/Metas.tsx:108-118 | a goal's spend is its category's outflow in the month and mode, and 0 without one |
| Goals.Percentage | src/pages/Metas.tsx:117 | the percentage is finite exactly for a non-zero limit, with value·limit = spend·100; a zero limit gives +∞, or NaN when nothing was spent |
| Goals.OrZero | src/pages/Metas.tsx:301 | `percentual \|\| 0` turns NaN into 0 and keeps any other value |
| Goals.Status | src/pages/Metas.tsx:186-190 | `getStatusColor`; `Goals.StatusBands` and `Goals.StatusMonotone` state its bands |
| Goals.StatusBands | src/pages/Metas.tsx:186-190 | the bands are disjoint and cover every percentage: destructive from 100, yellow from 80, green below; an infinite overrun is destructive |
| Goals.StatusMonotone | src/pages/Metas.tsx:186-190 | a higher percentage never shows a milder colour |
| Goals.Progress | src/pages/Metas.tsx:323 | the bar is the percentage capped at 100, and full for an infinite overrun |
| Goals.Remaining | src/pages/Metas.tsx:327 | the remainder is max(0, limit − spend) |
| Goals.FullBarMeansNothingLeft | src/pages/Metas.tsx:323-327 | with a positive limit, the bar is full exactly when nothing remains |
| Goals.WithSpend | src/pages/Metas.tsx:114-118 | each goal is listed with its category's spend, or 0, and its percentage |
| Goals.GoalsOf | src/pages/Metas.tsx:83-88 | exactly the user's goals for the month in the selected mode |
| Goals.CreateError | src/pages/Metas.tsx:154-158 | the "already exists" message is shown exactly for code 23505 |
| Goals.GoalsPage.constructor | src/pages/Metas.tsx:32-40 | the page starts in "Personal" with an empty form and no goals |
| Goals.GoalsPage.Load | src/pages/Metas.tsx:79-126 | a failed query keeps the list; otherwise it lists the month's goals with their spend |
| Goals.GoalsPage.CreateGoal | src/pages/Metas.tsx:129-160 | an empty category or limit is rejected before any insert; a failed insert reports its code; a success appends the goal and resets the form |
| Goals.GoalsPage.DeleteGoal | src/pages/Metas.tsx:162-177 | a success removes exactly that goal; a failure changes nothing |
| Offers.TopIndex | src/pages/Ofertas.tsx:78-82 | the reduce ends on a greatest total, the last among equal ones |
| Offers.TopCategory | src/pages/Ofertas.tsx:78-82 | the top category is "" without outflow, else the category at that position |
| Offers.CashbackRule | src/pages/Ofertas.tsx:84-98 | a 5% cashback for the top category exactly when there is one |
| Offers.LoanRule | src/pages/Ofertas.tsx:100-115 | a loan offer exactly when total outflow exceeds 500 |
| Offers.InsuranceRule | src/pages/Ofertas.tsx:117-130 | an insurance offer exactly when "Transporte" is present with more than 200 |
| Offers.Candidates | src/pages/Ofertas.tsx:75-130 | at most three candidates, of distinct kinds |
| Offers.LoanOffered | src/pages/Ofertas.tsx:100-101 | on the transactions: a loan offer exactly when the month's outflow exceeds 500 |
| Offers.InsuranceOffered | src/pages/Ofertas.tsx:117 | on the transactions: an insurance offer exactly when "Transporte" has outflow and it exceeds 200 |
| Offers.NoOutflowNoOffers | src/pages/Ofertas.tsx:67-130 | a month without outflow proposes no offer |
| Offers.CashbackTargetsTopCategory | src/pages/Ofertas.tsx:78-98 | the cashback names a category with outflow that no other category exceeds |
| Offers.CashbackNamesTop | src/pages/Ofertas.tsx:78-98 | a cashback offer is proposed only when some category has outflow, and it names the category at `TopIndex`, the last greatest total the `reduce` meets |
| Offers.ActiveCount | src/pages/Ofertas.tsx:134-140 | the user's active offers of one kind, the rows the dedupe query matches; `Offers.ActiveCountSnoc` states how an insert moves it |
| Offers.InsertsAsWritten | src/pages/Ofertas.tsx:133-145 | as-written half of the second finding: insert unless exactly one active offer matches; `Offers.AsWrittenAddsThird` shows a third offer inserted |
| Offers.Inserts | src/pages/Ofertas.tsx:133-145 | corrected half of the second finding: insert only when none is active; `Offers.InsertKeepsAtMostOne` and `Offers.OfferIfNone` state it |
| Offers.ActiveCountSnoc | src/pages/Ofertas.tsx:133-145 | an appended offer raises its kind's active count by one when it is the user's and active |
| Offers.AsWrittenAddsThird | src/pages/Ofertas.tsx:133-145 | with two active cashback offers, the written check inserts a third; the intended check does not |
| Offers.InsertKeepsAtMostOne | src/pages/Ofertas.tsx:133-145 | the intended check never creates a second active offer of a kind |
| Offers.OfferIfNone | src/pages/Ofertas.tsx:133-145 | a candidate is inserted exactly when the user has no active offer of its kind, raising only that kind's count |
| Offers.OfferEach | src/pages/Ofertas.tsx:133-145 | offering a list of candidates of distinct kinds appends only the user's active offers drawn from them and gives every proposed kind one active offer when it had none, leaving other counts alone |
| Offers.GenerateOffers | src/pages/Ofertas.tsx:52-150 | a run only appends the user's active offers drawn from the candidates, and leaves each kind with one active offer when it had none and was proposed, else its count |
| Offers.GenerateKeepsAtMostOne | src/pages/Ofertas.tsx:133-145 | a run never makes a second active offer of a kind, and every proposed kind ends with one |
| Offers.SpendCandidates | src/pages/Ofertas.tsx:66-130 | the `forEach` and the pushes give exactly the candidates, of distinct kinds |
| Offers.ActiveOffers | src/pages/Ofertas.tsx:34-50 | the list is exactly the user's active offers |
| Offers.DismissHidesOnlyThatOffer | src/pages/Ofertas.tsx:152-158 | after dismissing, that offer leaves the list and every other listed offer stays |
| Offers.OffersPage.constructor | src/pages/Ofertas.tsx:22-24 | the page starts with an empty list |
| Offers.OffersPage.Load | src/pages/Ofertas.tsx:34-50 | the list becomes the user's active offers, unless the query fails |
| Offers.OffersPage.Dismiss | src/pages/Ofertas.tsx:152-167 | a success deactivates exactly that offer and reloads the list; a failure changes nothing |
| Loans.Trunc | src/components/servicos/EmprestimosModal.tsx:30 | `parseInt` keeps the integer part, truncating toward zero |
| Loans.Installment | src/components/servicos/EmprestimosModal.tsx:27-39 | the installment is 0 while a field is empty or the term is not at least one month |
| Loans.TotalDue | src/components/servicos/EmprestimosModal.tsx:41-45 | the total is NaN exactly when the term is empty |
| Loans.PowGrows | src/components/servicos/EmprestimosModal.tsx:35 | a rate above 1 compounded at least once exceeds 1 |
| Loans.TotalIsCompounded | src/components/servicos/EmprestimosModal.tsx:25-45 | for a term of n ≥ 1 months the total is the amount compounded n times at 3%, and the installments add up to it |
| Loans.InterestIsPositive | src/components/servicos/EmprestimosModal.tsx:150 | borrowing a positive amount for a month or more always costs interest |
| Loans.LoanModal.constructor | src/components/servicos/EmprestimosModal.tsx:19-22 | the dialog starts empty, in personal mode |
| Loans.LoanModal.Confirm | src/components/servicos/EmprestimosModal.tsx:47-138 | the guards reject before any write; without a principal account or with a rejected insert nothing is written; otherwise an inflow of the amount, a log and an insight are recorded and the form clears |
| Benefits.Category | src/components/servicos/BeneficiosModal.tsx:60-64 | VR and VA are "Alimentação", VT is "Transporte" |
| Benefits.BenefitsWallet.constructor | src/components/servicos/BeneficiosModal.tsx:19-22 | the vouchers start at 350, 200 and 150 |
| Benefits.BenefitsWallet.Spend | src/components/servicos/BeneficiosModal.tsx:26-112 | a rejected spend changes nothing; a recorded one adds a personal outflow and a log of before and after, lowers only the chosen voucher by the amount, and keeps every voucher non-negative |
| TransactionDialog.Signed | src/components/TransactionDialog.tsx:105-107 | an inflow adds the amount, anything else subtracts it |
| TransactionDialog.BalanceTracksNetFlow | src/components/TransactionDialog.tsx:105-111 | the balance moves by exactly what the transaction adds to inflow minus outflow |
| TransactionDialog.ModeOf | src/components/TransactionDialog.tsx:98 | the mode is "trabalho" exactly in work mode |
| TransactionDialog.Booked | src/components/TransactionDialog.tsx:56-86 | the booked account is the user's first account, or a new principal account with balance 0 |
| TransactionDialog.FirstSubmissionOpensAccount | src/components/TransactionDialog.tsx:65-111 | a user without accounts ends with one principal account holding exactly the signed first amount |
| TransactionDialog.TransactionForm.constructor | src/components/TransactionDialog.tsx:21-27 | the form starts empty, set to an outflow |
| TransactionDialog.TransactionForm.Submit | src/components/TransactionDialog.tsx:45-132 | missing fields or a failed account creation write nothing; a failed insert leaves the balance; a recorded row is reported as a success and resets the form, and the balance moves by the signed amount unless the unchecked balance update fails, which leaves it as it was |
| Checkout.Screen | src/components/servicos/PixModal.tsx:28-66 | the transfer clears exactly when the fields and the card are filled, the amount is positive, one principal account exists and, for the balance method only, it covers the amount |
| Pix.PixForm.constructor | src/components/servicos/PixModal.tsx:19-25 | the form starts empty, paying from the balance |
| Pix.PixForm.Transfer | src/components/servicos/PixModal.tsx:28-114 | a refusal shows its message and writes nothing; a success records a personal outflow in "Transferência" and a log, and clears the form; the balance is not touched |
| TopUp.Digits | src/components/servicos/RecargaModal.tsx:131 | stripping non-digits keeps only digits |
| TopUp.DigitsAppend | src/components/servicos/RecargaModal.tsx:131 | stripping distributes over concatenation |
| TopUp.DigitsOfDigits | src/components/servicos/RecargaModal.tsx:131 | a string of digits is left as it is |
| TopUp.Mask | src/components/servicos/RecargaModal.tsx:133 | the mask over eleven digits is fifteen characters long |
| TopUp.MaskKeepsDigits | src/components/servicos/RecargaModal.tsx:133 | the mask only adds punctuation |
| TopUp.FormatPhone | src/components/servicos/RecargaModal.tsx:130-136 | fewer than eleven digits stay bare, exactly eleven get the mask, more leave the input untouched |
| TopUp.FormatKeepsDigits | src/components/servicos/RecargaModal.tsx:130-136 | formatting never changes which digits were typed |
| TopUp.FormatIdempotent | src/components/servicos/RecargaModal.tsx:130-136 | formatting a formatted number changes nothing |
| TopUp.TopUpForm.constructor | src/components/servicos/RecargaModal.tsx:20-26 | the form starts empty, paying from the balance |
| TopUp.TopUpForm.TypePhone | src/components/servicos/RecargaModal.tsx:160 | each keystroke stores the formatted phone, keeping its digits |
| TopUp.TopUpForm.PickPreset | src/components/servicos/RecargaModal.tsx:30 | a preset sets a positive amount from the list |
| TopUp.TopUpForm.Recharge | src/components/servicos/RecargaModal.tsx:33-121 | a refusal shows its message and writes nothing; a success records a personal outflow in "Telefonia" and a log, and clears the form |
| Chatbot.WordRun | src/components/ChatBot.tsx:94 | a run of `\w` stays within the text |
| Chatbot.WordRunSpan | src/components/ChatBot.tsx:94 | the run is maximal: word characters, then a non-word character or the end |
| Chatbot.NameEnd | src/components/ChatBot.tsx:94 | a name ends within the text |
| Chatbot.MatchAt | src/components/ChatBot.tsx:94 | a match lies within the text and is longer than the opening and closing brackets |
| Chatbot.MatchIs | src/components/ChatBot.tsx:94 | a match opens with `[ATALHO:`, has a non-empty word run and ends with `]` after its name |
| Chatbot.MatchNameShaped | src/components/ChatBot.tsx:94 | the captured name has the shape `\w+-?\w*` |
| Chatbot.SliceMatch | src/components/ChatBot.tsx:116 | a match inside a slice is a match of the whole text |
| Chatbot.NextMatch | src/components/ChatBot.tsx:116 | `exec` returns a position where a match starts |
| Chatbot.NextMatchLeftmost | src/components/ChatBot.tsx:116 | `exec` finds the leftmost match from `lastIndex`, and no match when it returns none |
| Chatbot.HeadRender | src/components/ChatBot.tsx:117-137 | one iteration's parts render as the text from `lastIndex` to the end of the token |
| Chatbot.Tokens | src/components/ChatBot.tsx:93-145 | the parts the parser emits; `Chatbot.TokensRender` and `Chatbot.TokensWellFormed` prove they render back to the reply and are well formed |
| Chatbot.TokensRender | src/components/ChatBot.tsx:116-142 | the text parts and tokens, concatenated in order, give back the reply |
| Chatbot.TokensWellFormed | src/components/ChatBot.tsx:116-142 | no text part is empty, every button's name has the pattern's shape, and no text part holds a whole token |
| Chatbot.ParseShortcuts | src/components/ChatBot.tsx:93-145 | the loop emits exactly the tokenization, which renders back to the reply and is well formed |
| Chatbot.Exec | src/components/ChatBot.tsx:116 | the scan stops at the next match, or at the end when there is none |
| Chatbot.TokenEnd | src/components/ChatBot.tsx:137 | the next search starts after the whole token, past its opening, name and bracket, and within the text |
| Chatbot.Hyphen | src/components/ChatBot.tsx:133 | the search stops at the first hyphen from its start, or at the end when there is none |
| Chatbot.Label | src/components/ChatBot.tsx:133 | the label has the name's length and differs from it only at the first hyphen, which becomes a space |
| Chatbot.LabelOfShape | src/components/ChatBot.tsx:133 | the label keeps every character of the name but the one hyphen, which becomes a space |
| Chatbot.Find | src/components/ChatBot.tsx:86 | an own-key lookup finds a value exactly when the key is listed, and the value listed with it |
| Chatbot.FindAt | src/components/ChatBot.tsx:86 | an entry is found when no earlier entry has its key |
| Chatbot.SameKeys | src/components/ChatBot.tsx:48-113 | the action and icon objects list the same fourteen keys in the same order |
| Chatbot.Shortcut | src/components/ChatBot.tsx:86 | corrected half of the third finding: the action looked up among own keys only; `Chatbot.ShortcutsLand` shows where each listed one leads |
| Chatbot.IconOf | src/components/ChatBot.tsx:122 | corrected half of the third finding: the icon looked up among own keys, else the fallback; `Chatbot.IconIffAction` ties it to `Chatbot.Shortcut` |
| Chatbot.IconIffAction | src/components/ChatBot.tsx:86-122 | a button gets its own icon exactly when clicking it has an action |
| Chatbot.ServicesSelfNamed | src/components/ChatBot.tsx:56-84 | every service shortcut opens the service of its own name |
| Chatbot.PagesSelfNamed | src/components/ChatBot.tsx:49-55 | every page shortcut leads to the page of its own name, the dashboard being "/" |
| Chatbot.ShortcutsLand | src/components/ChatBot.tsx:47-91 | a shortcut opens its own service on the services page, or goes to its own page |
| Chatbot.LookupAsWritten | src/components/ChatBot.tsx:86 | the bracket lookup finds an own entry exactly when listed, and misses only names that are neither listed nor inherited |
| Chatbot.InheritedNameEntersAction | src/components/ChatBot.tsx:86-122 | "[ATALHO:constructor]" gives one button with no entry, yet both lookups as written find a built-in |
| Chatbot.ConstructorMatches | src/components/ChatBot.tsx:94 | "[ATALHO:constructor]" is one whole match whose name is "constructor" |
| Chatbot.ConstructorUnlisted | src/components/ChatBot.tsx:48-113 | "constructor" is in neither object but is an inherited name |
| Chatbot.PaymentLinkShortcut | src/components/ChatBot.tsx:80-84 | "payment-link" has the pattern's shape, reads "payment link", and opens its service |
| Chatbot.ChatSession.constructor | src/components/ChatBot.tsx:21-28 | the chat starts closed, with only the greeting |
| Chatbot.ChatSession.Open | src/components/ChatBot.tsx:212 | opening shows the window and keeps the history |
| Chatbot.ChatSession.Close | src/components/ChatBot.tsx:39-45 | closing hides the window and resets the history to the greeting |
| Chatbot.ChatSession.Send | src/components/ChatBot.tsx:147-198 | blank input or a request in flight changes nothing; otherwise the user's message is appended, then the reply or an error notice |
| AiInsights.ConsumptionRate | supabase/functions/generate-insights/index.ts:103 | "N/A" exactly when inflow is not positive; otherwise outflow as a percentage of inflow, at most 100 exactly when outflow ≤ inflow |
| AiInsights.LastRows | supabase/functions/generate-insights/index.ts:111 | `slice(-10)` is the last ten rows, or all of them |
| AiInsights.PrepareContext | supabase/functions/generate-insights/index.ts:75-111 | the prompt's figures are the principal balance, the two totals, the rate, the top five categories and the last ten rows |
| AiInsights.Rows | supabase/functions/generate-insights/index.ts:239-246 | one row per proposal |
| AiInsights.Outcome | supabase/functions/generate-insights/index.ts:17-273 | the response and table for one request; `AiInsights.GenerateInsights` proves the handler produces it, and `AiInsights.GuardOrder`, `AiInsights.FailuresKeepTable` and `AiInsights.SuccessReplacesUnread` state its cases |
| AiInsights.ReachesDelete | supabase/functions/generate-insights/index.ts:223-236 | a request gets past the tool-call check and the destructuring to the delete; `AiInsights.FailuresKeepTable` uses it to split the failures |
| AiInsights.GenerateInsights | supabase/functions/generate-insights/index.ts:17-273 | the handler's response and table are those of the guard chain; the gateway is called exactly with a user, a key and rows, and is sent the true figures |
| AiInsights.UnreadAppend | supabase/functions/generate-insights/index.ts:231-236 | the unread rows of a concatenation are those of each part |
| AiInsights.NoUnreadAfterDelete | supabase/functions/generate-insights/index.ts:231-236 | after the delete, none of the user's unread rows is left |
| AiInsights.RowsAreUnread | supabase/functions/generate-insights/index.ts:239-246 | the inserted rows are all the user's and unread |
| AiInsights.RowsCopyProposals | supabase/functions/generate-insights/index.ts:239-246 | a stored row copies the proposal's title, message, type, origin and priority plus the caller's id |
| AiInsights.OutcomeOfReply | supabase/functions/generate-insights/index.ts:223-264 | a well-formed tool call answers with its count and replaces the unread rows by its rows |
| AiInsights.SuccessReplacesUnread | supabase/functions/generate-insights/index.ts:231-264 | a success leaves exactly the new rows unread and every other row as it was |
| AiInsights.SecondRunReplacesFirst | supabase/functions/generate-insights/index.ts:231-255 | after two successful runs only the second batch is unread |
| AiInsights.FailuresKeepTable | supabase/functions/generate-insights/index.ts:198-273 | a failure before the delete keeps the table; a failure that changes it comes after the delete (a rejected insert or arguments without an `insights` array) and leaves the user with no unread rows |
| AiInsights.NotAListLosesUnread | supabase/functions/generate-insights/index.ts:228-246 | arguments that parse but hold no `insights` array answer 500 after the delete has removed the user's unread rows |
| AiInsights.GuardOrder | supabase/functions/generate-insights/index.ts:17-226 | a missing `userId` is 400 whatever else holds; an empty window gives count 1 and deletes nothing; 429 and 402 keep their status; a success needed a `create_insights` call |
| AiInsights.TotalsAreExact | supabase/functions/generate-insights/index.ts:75-82 | every grouped entry is a category that occurs, with its full total |
| AiInsights.PrefixDominates | supabase/functions/generate-insights/index.ts:91-93 | in a list sorted by spend, what a prefix leaves out spends no more than what it keeps |
| AiInsights.TopCategories | supabase/functions/generate-insights/index.ts:91-93 | the five largest category totals; `AiInsights.TopCategoriesRanked` and `AiInsights.TopCategoriesDominate` state its ranking |
| AiInsights.TopCategoriesRanked | supabase/functions/generate-insights/index.ts:91-93 | at most five categories, largest spend first, each with its true total |
| AiInsights.TopCategoriesDominate | supabase/functions/generate-insights/index.ts:91-93 | no category left out spends more than one that was kept |
| FinancialMood.FirstFrom | supabase/functions/analyze-financial-mood/index.ts:29 | a found occurrence lies within the text, at or after the start |
| FinancialMood.FirstFromLeftmost | supabase/functions/analyze-financial-mood/index.ts:29 | the occurrence found is the leftmost, and none exists when none is found |
| FinancialMood.BearerTokenOfScheme | supabase/functions/analyze-financial-mood/index.ts:29 | "Bearer " followed by a token yields the token |
| FinancialMood.BearerTokenWithoutScheme | supabase/functions/analyze-financial-mood/index.ts:29 | a header without "Bearer " is taken whole as the token |
| FinancialMood.ReplaceFirstRemovesOne | supabase/functions/analyze-financial-mood/index.ts:29 | the replace removes exactly one occurrence |
| FinancialMood.Split | supabase/functions/analyze-financial-mood/index.ts:32 | `split` always yields at least one piece |
| FinancialMood.SplitCount | supabase/functions/analyze-financial-mood/index.ts:32 | there is one more piece than separators |
| FinancialMood.SplitPieces | supabase/functions/analyze-financial-mood/index.ts:32 | no piece contains the separator |
| FinancialMood.JoinSplit | supabase/functions/analyze-financial-mood/index.ts:32 | joining the pieces with the separator gives back the text |
| FinancialMood.SplitJoin | supabase/functions/analyze-financial-mood/index.ts:32 | splitting a join of separator-free pieces gives back the pieces |
| FinancialMood.TokenShape | supabase/functions/analyze-financial-mood/index.ts:32-35 | a token has three pieces exactly when it has two dots |
| FinancialMood.Caller | supabase/functions/analyze-financial-mood/index.ts:20-43 | the guard chain that ends in the caller's id; `FinancialMood.CallerChecks` and `FinancialMood.BearerPayloadDecoded` state it |
| FinancialMood.CallerChecks | supabase/functions/analyze-financial-mood/index.ts:20-43 | a caller is identified only with the key, a header whose token has two dots, and a non-empty `sub`; "Token inválido" exactly for a non-empty header with another number of dots |
| FinancialMood.BearerPayloadDecoded | supabase/functions/analyze-financial-mood/index.ts:29-43 | for a well-formed bearer token, the middle piece is decoded and its `sub` is the caller |
| FinancialMood.SelectPeriod | supabase/functions/analyze-financial-mood/index.ts:57-63 | "day" selects the start of the day and "do dia"; anything else, the start of the month and "do mês" |
| FinancialMood.Holdings | supabase/functions/analyze-financial-mood/index.ts:72 | the sum of the caller's account balances; the three `Holdings` lemmas bound it |
| FinancialMood.HoldingsCoverEach | supabase/functions/analyze-financial-mood/index.ts:72 | with no overdrawn account, the total covers each single account |
| FinancialMood.HoldingsNonNegative | supabase/functions/analyze-financial-mood/index.ts:72 | with no overdrawn account, the total is non-negative |
| FinancialMood.HoldingsCoverPrincipal | supabase/functions/analyze-financial-mood/index.ts:72 | the mood card's total is never below the principal balance the dashboard shows, with no account overdrawn |
| FinancialMood.Trim | supabase/functions/analyze-financial-mood/index.ts:142-144 | `String.prototype.trim`; `FinancialMood.TrimEdges` and `FinancialMood.TrimWithin` state it |
| FinancialMood.TrimEdges | supabase/functions/analyze-financial-mood/index.ts:142-144 | `trim` leaves no white space at either end, and leaves nothing exactly for all-blank text |
| FinancialMood.TrimWithin | supabase/functions/analyze-financial-mood/index.ts:142-144 | trimming only removes characters |
| FinancialMood.TrimSkips | supabase/functions/analyze-financial-mood/index.ts:142-144 | leading white space before text is dropped |
| FinancialMood.SpaceRun | supabase/functions/analyze-financial-mood/index.ts:137 | the run `\s*` consumes stays within the reply |
| FinancialMood.LineRun | supabase/functions/analyze-financial-mood/index.ts:137 | the run `.` consumes from a position stays within the reply |
| FinancialMood.Backoff | supabase/functions/analyze-financial-mood/index.ts:137 | the backtracked `\s*` leaves at least one character for `.+` |
| FinancialMood.LineFromFound | supabase/functions/analyze-financial-mood/index.ts:137-139 | a field read from index i on comes from an occurrence of its marker at or after i, as the non-empty trimmed rest of that occurrence's line |
| FinancialMood.LineFromMissing | supabase/functions/analyze-financial-mood/index.ts:137-139 | with no occurrence of the marker from index i on, nothing is read |
| FinancialMood.TextAfter | supabase/functions/analyze-financial-mood/index.ts:137-144 | the trimmed rest of a marker's line holds no line break and, when not empty, neither starts nor ends with white space |
| FinancialMood.LineAfterOneLine | supabase/functions/analyze-financial-mood/index.ts:137-139 | the rest of a line holds no line break |
| FinancialMood.FieldAsWritten | supabase/functions/analyze-financial-mood/index.ts:137-144 | as-written half of the fourth finding: the trimmed capture of `/MARKER:\s*(.+)/`, or the default; `FinancialMood.FieldAsWrittenReadsLine` and `FinancialMood.BlankLineTakesNextLine` state it |
| FinancialMood.Field | supabase/functions/analyze-financial-mood/index.ts:137-144 | corrected half of the fourth finding: the trimmed rest of the marker's own line, or the default; `FinancialMood.FieldIsOwnLine`, `FinancialMood.FieldReadsLine` and `FinancialMood.FieldFallback` state it |
| FinancialMood.FieldFallback | supabase/functions/analyze-financial-mood/index.ts:142-144 | without its marker, a field takes its default |
| FinancialMood.FieldIsOwnLine | supabase/functions/analyze-financial-mood/index.ts:137-144 | a field that is not its default is the non-empty trimmed rest of the line after an occurrence of its marker |
| FinancialMood.FieldReadsLine | supabase/functions/analyze-financial-mood/index.ts:137-144 | "MARKER: text" at the end of the reply or before a line break is read as the trimmed text |
| FinancialMood.CaptureReadsLine | supabase/functions/analyze-financial-mood/index.ts:137 | `\s*(.+)` on white space then one line of text captures that text |
| FinancialMood.FieldAsWrittenReadsLine | supabase/functions/analyze-financial-mood/index.ts:137-144 | on a well-formed line the written pattern reads the same text, so the readings differ only on a blank marker line |
| FinancialMood.BlankLineTakesNextLine | supabase/functions/analyze-financial-mood/index.ts:137-142 | on "EMOJI:\nX" the written pattern yields "X", the intended reading the default face |
| FinancialMood.Analyze | supabase/functions/analyze-financial-mood/index.ts:20-161 | every guard failure is a 500 with its own message; otherwise the figures are the caller's total balance and the period's inflow, outflow and net with its caption, and the three fields are read with their defaults |

## Left out

- Rendering, charts, toasts, routing, realtime subscriptions and the loading flags are not modelled. A failure shows a notice string in place of the toast.
- Dates are not modelled. Time windows are query results passed in, and each row carries its day, weekday and age. The transaction dialog's date field is not modelled either.
- Floating point is not modelled; amounts are exact reals. `toFixed(2)` is modelled exactly on reals, and `Intl.NumberFormat` and `toLocaleDateString` text is not modelled.
- The Supabase client, row-level security and the atomicity of delete-then-insert are not modelled. Writes happen one after another on `Store.Db`; concurrent runs are not modelled.
- Timeouts are collapsed: the 300 ms history reset of `handleClose` and the delayed `onOpenService` call happen at once.
- The "Navegando..." toast is not modelled; `Chatbot.Shortcut` gives the effect of a click.
- `Object.entries` and `Object.keys` return integer-like keys first, in ascending order. The model keeps first-occurrence order (`Ledger.Group`) everywhere, which differs only for numeric category names. This order decides `Dashboard.CategorySeries`, and it breaks ties in `AiInsights.TopCategories` (the stable sort) and `Offers.TopIndex` (the last greatest total wins).
- Goals.GoalsPage.CreateGoal: the reload (`fetchMetas`) after a successful insert or delete is a separate `Load` call. The same holds for `DeleteGoal`.
- Goals.GoalsPage.Load: filters the month's transactions by the stored mode ("pessoal"/"trabalho", `Goals.Spend`), the corrected half of the first finding. The page filters by the selector's label "Personal"/"Work" (`Goals.SpendAsWritten`), so as written every goal shows 0 spent and 0% (`Goals.AsWrittenGoalsSeeNoSpend`); the model does not show that.
- Offers.OfferIfNone: inserts only when the user has no active offer of the kind (`Offers.Inserts`), the corrected half of the second finding. The page's `.single()` check also inserts when two or more are active (`Offers.InsertsAsWritten`, `Offers.AsWrittenAddsThird`); the model does not insert then.
- Offers.OfferEach: its per-kind counts follow the corrected check of `Offers.OfferIfNone`. As written, a proposed kind with two or more active offers gains one more.
- Offers.GenerateOffers: its `CountAfter` ensures describe the corrected check. As written, a run adds one offer of each proposed kind whose count is not exactly one.
- Offers.GenerateKeepsAtMostOne: holds of the corrected check only. As written, a kind with two active offers gains another on every run.
- FinancialMood.Analyze: reads the three fields as the rest of each marker's own line (`FinancialMood.Field`), the corrected half of the fourth finding. The handler applies `/MARKER:\s*(.+)/` (`FinancialMood.FieldAsWritten`), which reads the next line when the marker's line is blank: for "EMOJI:\nX" it gives "X" where the model gives "😐" (`FinancialMood.BlankLineTakesNextLine`). On a marker line that carries its text the two readings agree (`FinancialMood.FieldAsWrittenReadsLine`).
- The services (PIX, top-up, vouchers, loan) never update `saldo_atual`, and the model keeps it that way.
- The transaction dialog accepts negative amounts, and the model does too.
- A goal limit of 0 gives an infinite or NaN percentage; this is modelled by `Goals.Percent`.
- The insight engine's reserve rule can never fire (`InsightsEngine.ReserveFindings`). Its welcome path, and that of `generate-insights`, inserts without deleting, so welcome rows accumulate.
- Failed inserts of logs and insights are ignored by the source, and the model writes them unconditionally. The welcome insert's result in `generate-insights` is ignored as well.
- A rejected insert in `generate-insights`, or tool-call arguments without an `insights` array, lose the user's unread insights, because the delete has already happened (`AiInsights.FailuresKeepTable`, `AiInsights.NotAListLosesUnread`).
- Edge-function details are not modelled:
  - CORS and the OPTIONS preflight;
  - parsing of the request body;
  - the prompt text, model name and temperature;
  - a `userId` or `sub` that is not a string;
  - a reply without `choices[0].message.content`.
- The base64 and JSON decoding of the token payload is a parameter (`FinancialMood.Payload`).
- The exact text of a rejected insert in `generate-insights` depends on the database client's version; the model uses "Unknown error".
- The `chatbot`, payment and audio edge functions are not part of this model. They forward requests to third-party services.
- Seed data, preferences and the generated database types are not part of this model.

## Findings

| source | as written | input that shows it | evidently intended | confidence | as-written member | corrected member |
|---|---|---|---|---|---|---|
| src/pages/Metas.tsx:96-111 | the month's transactions are filtered by the selector's label, "Personal" or "Work" | a personal outflow of 50 in "Alimentação": every writer stores mode "pessoal", so the goal shows 0 spent | map the selector to the stored mode ("pessoal"/"trabalho") before filtering | high, not executed | Goals.AsWrittenMissesPersonalOutflow | Goals.SpendIsCategoryOutflow |
| src/pages/Ofertas.tsx:133-145 | the dedupe uses `.single()`, which yields no row when two or more match | a user with two active cashback offers (for example from two overlapping runs): every run inserts another | insert only when no active offer of that kind exists | medium, not executed | Offers.AsWrittenAddsThird | Offers.InsertKeepsAtMostOne |
| src/components/ChatBot.tsx:86-122 | `shortcuts[name]` and `shortcutIcons[name]` are bracket lookups on object literals, which also find `Object.prototype` members | a reply containing "[ATALHO:constructor]": the click passes `if (action)` and shows "Navegando..." without navigating, and the button gets no icon instead of the fallback | look up own keys only: the click does nothing, and the fallback icon shows | medium, not executed | Chatbot.InheritedNameEntersAction | Chatbot.IconIffAction |
| supabase/functions/analyze-financial-mood/index.ts:137-144 | `/EMOJI:\s*(.+)/`, where `\s*` also matches line breaks | the reply "EMOJI:\nX": the emoji becomes "X", the next line's text | the rest of the marker's own line, or the default "😐" when that line is blank | medium, not executed | FinancialMood.BlankLineTakesNextLine | FinancialMood.FieldReadsLine |
