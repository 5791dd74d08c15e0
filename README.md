# Personal Finance Tracker dashboard, modelled in Dafny

The Personal Finance Tracker front end is a React dashboard. It sets a
user's monthly budget against the transactions uploaded from bank
statements. The `userType` given at registration picks one of five layouts:

- a **student** gets per-category budgets;
- a **free spender** gets one flat budget;
- a **self-employed** user gets a budget of 70% of the income they list;
- a **financially inclined** user gets trend analytics over a date range;
- anyone else gets a generic budget card.

Each budget layout has a "Budget vs Actual" summary card. It also has a
"Saving Tips" card, which the page shows only once a budget above 0 and
spending above 0.01 are both known.

This project models the logic of those components:

- **Categories.** The analytics panel and the six archetype cards (the
  student, free-spender and self-employed summary and tips cards) each carry
  an identical copy of the keyword categorizer, which sorts a transaction
  into Food, Rent, Entertainment, Transport or Other. It lives in
  `Categorizer`, on top of `Strings`. The flat budget, category budget and
  income forms and the generic summary and tips cards have no categorizer;
  the generic cards read the page's `monthTotal`.
- **Spend map.** The six archetype cards build the same per-category spend
  map from the current month's outflows (`Spending`). The analytics panel
  builds its own category totals over the chosen date range, from dated
  outflows only (`AnalyticsAggregate`).
- **Budget forms.** The flat, per-category and income-based forms are
  classes whose methods are the forms' event handlers (`BudgetPanel`,
  `CategoryBudgetPanel`, `IncomePanel`).
- **Summary cards.** The four summary cards are `SummaryPanel`,
  `StudentSummary`, `FreeSpenderSummary` and `SelfEmployedSummary`.
- **Tips cards.** The four tips cards are `TipsPanel`, `StudentTips`,
  `FreeSpenderTips` and `SelfEmployedTips`.
- **Analytics.** The analytics panel is split into three parts:
  - `AnalyticsRange`: the date range and its clamping to the bounds of the
    data;
  - `AnalyticsAggregate`: the one-pass aggregation into a grand total,
    per-month totals, per-month per-category maps and category totals;
  - `AnalyticsTrend`: the month-over-month table, the category table and
    the trend chart.
- **Dashboard page.** `DashboardPage` models the layout choice, which
  panels appear, the upload gate and the role label.

Supporting modules hold the shared vocabulary:

- `JsValues`: `Number(x)`, `Number(x) || 0` and `Math.max`;
- `JsObjects`: JavaScript objects as association lists, in insertion order,
  so that `Object.keys`, `Object.values` and the spread operator keep their
  order;
- `StableSort`: the stable `Array.prototype.sort` with a numeric comparator,
  and `filter`;
- `Transactions`: a transaction's fields and their readings;
- `Gates`: `hasBudget`, `hasSpending` and `canShowTips`;
- `Roles`: the four known `userType` strings.

Money is modelled exactly, as `real`. Text inputs carry their typed text
together with the number `Number(text)` that the browser gives for it.
Everything the components fetch, read from `localStorage` or take from the
clock is a parameter of the model.

The panels do not all treat the 0.01 tolerance the same way, and the model
follows each panel's own code:

- The student and free-spender summaries raise the over-budget alert only
  when spending exceeds the budget by more than 0.01.
- The generic summary and the self-employed summary raise it as soon as
  spending exceeds the budget.
- The analytics aggregation counts an outflow that has no date in the
  period total. It leaves that outflow out of the monthly and category
  tables, so the category table can then add up to less than the total
  shown above it (`AnalyticsAggregate.TotalIsCategoriesPlusUndated`).

## Model

| member | source | states |
|---|---|---|
| Transactions.Outflow | src/components/dashboard/AnalyticsPanel.jsx:206-208 | the outflow is never negative, is positive exactly for a transaction with a negative amount, and then is that amount's magnitude |
| Transactions.DateStr | src/components/dashboard/AnalyticsPanel.jsx:153 | the date string has at most 10 characters and starts `txnDate` when present, else `date`. It is empty exactly when both are missing or empty |
| Transactions.MonthKey | src/components/dashboard/AnalyticsPanel.jsx:213 | the month key starts the date string and is its first 7 characters when the date has 7 or more |
| Transactions.Amount | src/components/dashboard/AnalyticsPanel.jsx:206 | `Number(t.txnAmount) || 0`: the amount, with NaN read as 0 |
| Transactions.IsOutflow | src/components/dashboard/AnalyticsPanel.jsx:207 | `amount < 0`: money leaving the account |
| Categorizer.CategorizeText | src/components/dashboard/AnalyticsPanel.jsx:33-98 | the category is the keyword group of highest priority that the text mentions (Rent, then Food, Entertainment, Transport). It is Other exactly when the text mentions no group |
| Categorizer.SearchText | src/components/dashboard/AnalyticsPanel.jsx:34 | the lower-cased `description + " " + subDescription`, a missing field reading as "" |
| Categorizer.Categorize | src/components/dashboard/AnalyticsPanel.jsx:33-98 | `categorizeTxn`: a transaction gets the category of its search text |
| Categorizer.KeywordInFieldWins | src/components/dashboard/AnalyticsPanel.jsx:34-96 | a keyword found in the description or sub-description, in any letter case, yields its own category or one of higher priority |
| Categorizer.RentTakesPriority | src/components/dashboard/AnalyticsPanel.jsx:36-47 | a description that mentions a Rent keyword is categorised Rent, whatever else it mentions |
| Categorizer.CaseInsensitive | src/components/dashboard/AnalyticsPanel.jsx:34 | two transactions whose fields agree once lower-cased (a missing field reading as "") get the same category |
| Categorizer.SearchTextHoldsFields | src/components/dashboard/AnalyticsPanel.jsx:34 | every word of the lower-cased description or sub-description is found in the search text |
| Categorizer.EveryCategoryListed | src/components/dashboard/AnalyticsPanel.jsx:13 | every category is in `CATEGORIES` and in the free-spender summary's list |
| Categorizer.RentFirstSwapsFirstTwo | src/components/dashboard/FreeSpenderSummaryPanel.jsx:4 | the free-spender summary lists the same categories, with only the first two swapped |
| Categorizer.NameInjective | src/components/dashboard/AnalyticsPanel.jsx:13 | distinct categories have distinct names, so a category can be recovered from its object key |
| Strings.Lower | src/components/dashboard/AnalyticsPanel.jsx:34 | lower-casing keeps the length, turns each upper-case ASCII letter into its lower-case letter and keeps every other character |
| Strings.LowerConcat | src/components/dashboard/AnalyticsPanel.jsx:34 | lower-casing the joined text is joining the lower-cased parts |
| Strings.LowerIdempotent | src/components/dashboard/AnalyticsPanel.jsx:34 | lower-casing twice is lower-casing once |
| Strings.Take | src/components/dashboard/AnalyticsPanel.jsx:211-213 | `slice(0, n)` is the prefix of length `n`, or the whole string when it is shorter |
| Strings.ContainsIff | src/components/dashboard/AnalyticsPanel.jsx:36-44 | `includes` finds a word exactly when it occurs at some position of the text |
| Strings.ContainsInConcat | src/components/dashboard/AnalyticsPanel.jsx:34 | a word found in either part of a joined text is found in the whole |
| Strings.LessIrreflexive | src/components/dashboard/AnalyticsPanel.jsx:155-156 | string `<` is irreflexive |
| Strings.LessTransitive | src/components/dashboard/AnalyticsPanel.jsx:155-156 | string `<` is transitive |
| Strings.LessTotal | src/components/dashboard/AnalyticsPanel.jsx:155-156 | any two different strings are ordered one way by `<`, never both |
| Strings.InsertAscending | src/components/dashboard/AnalyticsPanel.jsx:233 | placing a new key into an ascending list keeps it strictly ascending and adds exactly that key |
| Strings.SortAscending | src/components/dashboard/AnalyticsPanel.jsx:233 | `sort()` of distinct keys gives the same keys, strictly ascending |
| JsObjects.Lookup | src/components/dashboard/AnalyticsPanel.jsx:222 | `o[k]` is defined exactly when `k` is one of `Object.keys(o)` |
| JsObjects.KeySeq | src/components/dashboard/AnalyticsPanel.jsx:233 | `Object.keys(o)` has one key per entry |
| JsObjects.Set | src/components/dashboard/CategoryBudgetPanel.jsx:44 | after `o[k] = v`, `k` reads `v` and every other key reads as before. An existing key keeps its place and a new key goes last. No key is duplicated |
| JsObjects.Merge | src/components/dashboard/CategoryBudgetPanel.jsx:21 | in `{ ...a, ...b }` every key reads its value from `b` when `b` has it, else from `a`. No key is duplicated |
| JsObjects.SumAfterSet | src/components/dashboard/AnalyticsPanel.jsx:222 | writing `v` at `k` changes the sum of the values by `v` minus what `k` held |
| JsObjects.SumInAnyKeyOrder | src/components/dashboard/AnalyticsPanel.jsx:233-247 | the values at any reordering of the keys add up to the sum of all values |
| JsValues.Max | src/components/dashboard/IncomePanel.jsx:74 | `Math.max` is one of its arguments and at least both |
| JsValues.OrZero | src/components/dashboard/AnalyticsPanel.jsx:206 | `Number(x) || 0`: a finite reading as it is, NaN as 0 |
| JsValues.Percent | src/components/dashboard/FreeSpenderSummaryPanel.jsx:146 | `total > 0 ? part / total * 100 : 0` |
| JsValues.PercentOfWhole | src/components/dashboard/AnalyticsPanel.jsx:690 | a share is 0 when the whole is not positive and otherwise scales the part by 100/whole. It lies in 0..100 for a part of the whole, and is positive for a positive part |
| StableSort.Insert | src/components/dashboard/FreeSpenderSummaryPanel.jsx:149 | one insertion step adds exactly the inserted element |
| StableSort.InsertKeepsOrder | src/components/dashboard/FreeSpenderSummaryPanel.jsx:149 | inserting an element that comes first among its equal keys keeps the list stably sorted |
| StableSort.SortDesc | src/components/dashboard/FreeSpenderSummaryPanel.jsx:149 | sorting by `b.key - a.key` gives a permutation in non-increasing key order, with equal keys in their original order |
| StableSort.FirstIsEarliestMaximum | src/components/dashboard/FreeSpenderTipsPanel.jsx:253-258 | the first sorted element has the largest key and is the earliest element with that key |
| StableSort.SortDescShape | src/components/dashboard/FreeSpenderSummaryPanel.jsx:149 | the sorted list is as long as the original and non-increasing in key |
| StableSort.Filter | src/components/dashboard/FreeSpenderSummaryPanel.jsx:148 | `filter` keeps exactly the elements that pass |
| StableSort.FilterCounts | src/components/dashboard/FreeSpenderSummaryPanel.jsx:148 | `filter` keeps every copy of a passing element and no copy of any other |
| StableSort.FilterKeepsOrder | src/components/dashboard/FreeSpenderSummaryPanel.jsx:148 | `filter` keeps the relative order of what it keeps |
| Spending.SpendOf | src/components/dashboard/StudentSummaryPanel.jsx:115-126 | the spend map holds every category, each with the outflow of the transactions categorised there |
| Spending.CategorySpend | src/components/dashboard/StudentSummaryPanel.jsx:120-126 | the outflow magnitudes of the transactions categorised under one category |
| Spending.TotalOutflow | src/components/dashboard/SelfEmployedSummaryPanel.jsx:115-123 | the running `total += pos` over every outflow |
| Spending.TalliedIsSpendOf | src/components/dashboard/StudentSummaryPanel.jsx:115-126 | any map tallied from the transactions is the spend map: there is only one |
| Spending.SumOverCategories | src/components/dashboard/FreeSpenderSummaryPanel.jsx:135-138 | the total over the categories is the five spends added, whichever list order is used |
| Spending.SpendBounds | src/components/dashboard/StudentSummaryPanel.jsx:120-126 | no category's spend is negative or larger than the total outflow |
| Spending.OneMoreTransaction | src/components/dashboard/StudentSummaryPanel.jsx:120-126 | one more transaction adds its outflow to its own category and to the total, and to nothing else |
| Spending.TalliedSnoc | src/components/dashboard/StudentSummaryPanel.jsx:121-125 | adding an outflow's magnitude under its category keeps the map tallied |
| Spending.TalliedSkip | src/components/dashboard/StudentSummaryPanel.jsx:121-122 | a transaction that is not an outflow leaves the map tallied |
| Spending.CategoriesPartitionSpend | src/components/dashboard/StudentSummaryPanel.jsx:143-146 | the five category spends add up to the month's total outflow |
| Spending.Tally | src/components/dashboard/SelfEmployedSummaryPanel.jsx:113-127 | the `forEach` builds exactly the spend map, and its running `total` is the total outflow and the sum over the categories |
| DashboardPage.LayoutPerType | src/components/pages/DashboardPage.jsx:43-46 | each known `userType` gets its own layout, and exactly the unknown types get the standard one |
| DashboardPage.LayoutFor | src/components/pages/DashboardPage.jsx:225-436 | the chain `isStudent ? … : isFreeSpender ? … : isSelfEmployed ? … : isFinancialLiterate ? … : …` that picks the layout |
| DashboardPage.CanUpload | src/components/pages/DashboardPage.jsx:244 | `isFinancialLiterate || hasBudget` |
| DashboardPage.TipsIfShown | src/components/pages/DashboardPage.jsx:264 | `canShowTips && (<…TipsPanel />)`: the tips panel or nothing |
| DashboardPage.Panels | src/components/pages/DashboardPage.jsx:225-436 | every layout shows at least two panels, and every upload panel's `canUpload` is `isFinancialLiterate` or `hasBudget` |
| DashboardPage.TipsGate | src/components/pages/DashboardPage.jsx:48-50 | a tips panel is shown exactly when `canShowTips` holds, outside the analytics layout |
| DashboardPage.UploadGate | src/components/pages/DashboardPage.jsx:241-244 | there is exactly one upload panel. It comes first in the analytics layout and always accepts files; elsewhere it is second and accepts files exactly when a budget above 0 is saved |
| DashboardPage.SummaryForLayout | src/components/pages/DashboardPage.jsx:225-436 | outside the analytics layout, the third panel is that layout's own summary card |
| DashboardPage.RoleLabelOf | src/components/pages/DashboardPage.jsx:88-94 | the four known types are labelled as in `roleLabelMap`. Any other type is shown as it is, so the label is empty only for an empty type |
| DashboardPage.RoleLabel | src/components/pages/DashboardPage.jsx:88-94 | `roleLabelMap[user.userType] || user.userType` |
| SummaryPanel.Summarize | src/components/dashboard/SummaryPanel.jsx:4-21 | the placeholder appears exactly when there is neither a budget nor spending. Otherwise the card shows the budget (0 when none), the magnitude of the month's total and what remains, with the alert exactly when spending exceeds the budget |
| SummaryPanel.SpendingWithoutBudgetIsOver | src/components/dashboard/SummaryPanel.jsx:19-21 | spending with no budget always raises the alert |
| SummaryPanel.ExactlyOnBudgetIsNotOver | src/components/dashboard/SummaryPanel.jsx:19-21 | spending exactly the budget raises no alert |
| TipsPanel.TypeTips | src/components/dashboard/TipsPanel.jsx:48-62 | each known type gets two tips and any other type none. None of them is the exceeded-budget tip |
| TipsPanel.PushTypeTips | src/components/dashboard/TipsPanel.jsx:48-62 | the `if` chain pushes exactly the type's tips |
| TipsPanel.BuildTips | src/components/dashboard/TipsPanel.jsx:14-69 | the placeholder appears exactly when there is neither a budget nor spending. Otherwise the tips are exactly the type's two fixed tips (none for an unknown type), followed by the exceeded-budget tip exactly when a budget is set and spending exceeds it |
| Gates.HasBudget | src/components/pages/DashboardPage.jsx:48 | `budget !== null && budget > 0` |
| Gates.Spent | src/components/dashboard/TipsPanel.jsx:15 | `Math.abs(monthTotal || 0)` |
| Gates.HasSpending | src/components/pages/DashboardPage.jsx:49 | `monthTotal !== null && Math.abs(monthTotal) > 0.01` |
| Gates.CanShowTips | src/components/pages/DashboardPage.jsx:50 | `hasBudget && hasSpending` |
| BudgetPanel.DecimalPattern | src/components/dashboard/BudgetPanel.jsx:37 | `/^\d*\.?\d*$/` admits exactly the texts made of digits with at most one dot |
| BudgetPanel.MatchesDecimal | src/components/dashboard/BudgetPanel.jsx:37 | `/^\d*\.?\d*$/.test(v)`: digits, or digits around one dot |
| BudgetPanel.ParseFloat | src/components/dashboard/BudgetPanel.jsx:45 | `parseFloat`: an optional sign, the leading digits and the digits after one dot, or NaN when there are none |
| BudgetPanel.SaveAmount | src/components/dashboard/BudgetPanel.jsx:45 | `parseFloat(value || "0") || 0` |
| BudgetPanel.DigitRun | src/components/dashboard/BudgetPanel.jsx:45 | the leading digit run that `parseFloat` reads is all digits and stops at the first non-digit |
| BudgetPanel.UnsignedNotNegative | src/components/dashboard/BudgetPanel.jsx:45-47 | text not starting with `-` never reads as a negative amount |
| BudgetPanel.AdmittedNotNegative | src/components/dashboard/BudgetPanel.jsx:37-47 | what the field admits never reads as negative, so the "cannot be negative" branch cannot be reached by typing |
| BudgetPanel.SavedIsTyped | src/components/dashboard/BudgetPanel.jsx:45 | decimal text with one dot is saved as the whole part plus the fraction it spells, a lone dot as 0 |
| BudgetPanel.SavedDigits | src/components/dashboard/BudgetPanel.jsx:45 | a run of digits is saved as the whole number it spells |
| BudgetPanel.WholeText | src/components/dashboard/BudgetPanel.jsx:21 | `String(n)` of a whole number is a non-empty run of digits |
| BudgetPanel.WholeTextValue | src/components/dashboard/BudgetPanel.jsx:21 | reading the digits of a whole number gives the number back |
| BudgetPanel.WholeTextRoundTrip | src/components/dashboard/BudgetPanel.jsx:19-45 | a whole-number budget shown in the field passes the input pattern and is saved unchanged |
| BudgetPanel.BudgetForm.constructor | src/components/dashboard/BudgetPanel.jsx:15-16 | the field and the status start empty |
| BudgetPanel.BudgetForm.SyncFromBudget | src/components/dashboard/BudgetPanel.jsx:19-27 | a budget above 0 is shown and reported saved; otherwise both the field and the status are cleared |
| BudgetPanel.BudgetForm.HandleChange | src/components/dashboard/BudgetPanel.jsx:29-42 | empty or decimal text replaces the value and anything else is ignored, so the field only ever holds admissible text |
| BudgetPanel.BudgetForm.HandleSave | src/components/dashboard/BudgetPanel.jsx:44-60 | a negative reading is refused with its status and nothing is sent. Otherwise the `parseFloat` reading of the value (0 for an empty field or NaN) is sent, and the status and notification follow the outcome. Admissible text is always sent |
| CategoryBudgetPanel.Defaults | src/components/dashboard/CategoryBudgetPanel.jsx:7-12 | the initial object has no duplicate key |
| CategoryBudgetPanel.DefaultFields | src/components/dashboard/CategoryBudgetPanel.jsx:7-12 | the initial object holds an empty field for each listed category and nothing else |
| CategoryBudgetPanel.Counted | src/components/dashboard/CategoryBudgetPanel.jsx:29-30 | a value adds itself when it reads as a finite number above 0, and nothing otherwise |
| CategoryBudgetPanel.TotalBudget | src/components/dashboard/CategoryBudgetPanel.jsx:28-31 | the total is never negative and is at least what any one field adds |
| CategoryBudgetPanel.PositiveTotalHasPositiveField | src/components/dashboard/CategoryBudgetPanel.jsx:28-31 | the total is above 0 exactly when some field reads as a finite number above 0 |
| CategoryBudgetPanel.DefaultsTotalZero | src/components/dashboard/CategoryBudgetPanel.jsx:7-31 | the empty form totals 0, so saving it is refused |
| CategoryBudgetPanel.DefaultsComplete | src/components/dashboard/CategoryBudgetPanel.jsx:7-12 | the initial form has a field for every category and a total of 0 |
| CategoryBudgetPanel.TotalAfterSet | src/components/dashboard/CategoryBudgetPanel.jsx:33-44 | writing a field replaces what that key added to the total by what the new value adds |
| CategoryBudgetPanel.Acceptable | src/components/dashboard/CategoryBudgetPanel.jsx:35-44 | an input is stored when it is empty or reads as a finite number of at least 0 |
| CategoryBudgetPanel.CategoryBudgetForm.constructor | src/components/dashboard/CategoryBudgetPanel.jsx:7-13 | the form starts empty, with every category present once (the form's invariant) and a total of 0 |
| CategoryBudgetPanel.CategoryBudgetForm.LoadStored | src/components/dashboard/CategoryBudgetPanel.jsx:16-26 | a parsed stored object is spread over the fields and its values win; no item or bad JSON changes nothing. Every category keeps exactly one field |
| CategoryBudgetPanel.CategoryBudgetForm.HandleChange | src/components/dashboard/CategoryBudgetPanel.jsx:33-45 | an emptied field is cleared, a NaN, infinite or negative reading is refused, and other input is kept as typed. Only that category's field changes, and the total changes by exactly the difference |
| CategoryBudgetPanel.CategoryBudgetForm.HandleSave | src/components/dashboard/CategoryBudgetPanel.jsx:47-64 | a total not above 0 asks for a positive budget and stores and sends nothing. Otherwise the fields are stored, the total is sent, and the message and notification follow the outcome |
| IncomePanel.InitialRows | src/components/dashboard/IncomePanel.jsx:14-31 | a stored non-empty array is used as it is; everything else gives the single default row. The rows are never empty |
| IncomePanel.AmountOf | src/components/dashboard/IncomePanel.jsx:57 | `Number(r.amount) || 0`, an empty amount reading as 0 |
| IncomePanel.TotalIncome | src/components/dashboard/IncomePanel.jsx:56-59 | the reduce of the rows' amounts |
| IncomePanel.SuggestedBudget | src/components/dashboard/IncomePanel.jsx:61-62 | `totalIncome * BUDGET_PERCENT` with `BUDGET_PERCENT = 0.7` |
| IncomePanel.SuggestedBudgetBounds | src/components/dashboard/IncomePanel.jsx:56-62 | a positive income gives a budget strictly between 0 and the income, and no income gives 0 |
| IncomePanel.TotalOfNonNegative | src/components/dashboard/IncomePanel.jsx:56-59 | rows that never read negative total at least 0, and at least any one of their amounts |
| IncomePanel.EditedAmount | src/components/dashboard/IncomePanel.jsx:71-75 | an emptied input stays empty. Any other input becomes the larger of 0 and the number read (NaN reading as 0), which is finite and never negative |
| IncomePanel.ApplyEdit | src/components/dashboard/IncomePanel.jsx:68-76 | one row's `{ ...r, [field]: … }`: a source edit takes the text, an amount edit the cleaned amount |
| IncomePanel.Edited | src/components/dashboard/IncomePanel.jsx:64-79 | only rows with the id change, and only in the edited field; every row keeps its id and place |
| IncomePanel.EditKeepsNonNegative | src/components/dashboard/IncomePanel.jsx:74 | no edit makes an amount negative |
| IncomePanel.SourceEditKeepsTotal | src/components/dashboard/IncomePanel.jsx:64-79 | retyping a source leaves the total income as it was |
| IncomePanel.Without | src/components/dashboard/IncomePanel.jsx:90-92 | removal keeps every copy of each row with another id and no row with that id |
| IncomePanel.RemoveKeepsOrder | src/components/dashboard/IncomePanel.jsx:91 | removal keeps the remaining rows in their order |
| IncomePanel.RemoveTakesOutAmounts | src/components/dashboard/IncomePanel.jsx:90-92 | removal takes exactly the removed rows' amounts out of the total |
| IncomePanel.Only | src/components/dashboard/IncomePanel.jsx:91 | the rows a removal takes out all carry that id |
| IncomePanel.IncomeForm.constructor | src/components/dashboard/IncomePanel.jsx:34-35 | the rows start as read from storage, and the message starts empty |
| IncomePanel.IncomeForm.Reload | src/components/dashboard/IncomePanel.jsx:38-41 | on a new user or a reset, the rows are read again (never empty) and the message is cleared |
| IncomePanel.IncomeForm.ChangeRow | src/components/dashboard/IncomePanel.jsx:64-81 | the rows take the edit, the message is cleared, and amounts stay non-negative |
| IncomePanel.IncomeForm.AddRow | src/components/dashboard/IncomePanel.jsx:83-88 | one empty row goes last and the total is unchanged |
| IncomePanel.IncomeForm.RemoveRow | src/components/dashboard/IncomePanel.jsx:90-92 | the rows with that id go, and their amounts leave the total |
| IncomePanel.IncomeForm.ApplyBudget | src/components/dashboard/IncomePanel.jsx:94-112 | with no income above 0, it asks for one and sends nothing. Otherwise it sends 70% of the income, which lies strictly between 0 and the income, and the message and notification follow the outcome |
| StudentSummary.OnlyCategoriesCount | src/components/dashboard/StudentSummaryPanel.jsx:139-142 | stored keys that are not category names play no part in the total budget |
| StudentSummary.BudgetOf | src/components/dashboard/StudentSummaryPanel.jsx:140 | `Number(categoryBudget[c]) || 0`, a missing key reading as 0 |
| StudentSummary.TotalBudget | src/components/dashboard/StudentSummaryPanel.jsx:139-142 | the reduce of the category budgets over `CATEGORIES` |
| StudentSummary.Rows | src/components/dashboard/StudentSummaryPanel.jsx:152-157 | one row per category, in order, with its budget, its spend and their difference |
| StudentSummary.RowsAddUp | src/components/dashboard/StudentSummaryPanel.jsx:139-157 | the table's spent and budget columns add up to the totals above it |
| StudentSummary.Summarize | src/components/dashboard/StudentSummaryPanel.jsx:139-157 | the reminder appears exactly when the total budget is not above 0.01. Otherwise the totals and the remainder are shown, with one row per category in list order carrying its budget, its spend and their difference, and the alert is raised exactly when spending exceeds the budget by more than 0.01 |
| StudentSummary.ToleranceNotFlagged | src/components/dashboard/StudentSummaryPanel.jsx:149-150 | spending over the budget by 0.01 or less raises no alert |
| StudentSummary.SpentIsMonthOutflow | src/components/dashboard/StudentSummaryPanel.jsx:115-146 | read from the month's transactions, the spent total is their total outflow |
| FreeSpenderSummary.AllRows | src/components/dashboard/FreeSpenderSummaryPanel.jsx:143-147 | one row per category, in list order, with its spend and its share of the total |
| FreeSpenderSummary.AllRowsOrder | src/components/dashboard/FreeSpenderSummaryPanel.jsx:143-147 | rows come in the order of their categories |
| FreeSpenderSummary.Kept | src/components/dashboard/FreeSpenderSummaryPanel.jsx:143-148 | the mapped rows that pass `r.spent > 0.01` |
| FreeSpenderSummary.Rows | src/components/dashboard/FreeSpenderSummaryPanel.jsx:143-149 | the kept rows sorted by `b.spent - a.spent` |
| FreeSpenderSummary.RowsAreSignificant | src/components/dashboard/FreeSpenderSummaryPanel.jsx:143-149 | every shown row spent more than 0.01, with its category's spend and share |
| FreeSpenderSummary.RowsCoverSignificant | src/components/dashboard/FreeSpenderSummaryPanel.jsx:148 | a category has a row exactly when it spent more than 0.01 |
| FreeSpenderSummary.RowsDescending | src/components/dashboard/FreeSpenderSummaryPanel.jsx:149 | rows run from largest to smallest spend |
| FreeSpenderSummary.RowsTiesKeepCategoryOrder | src/components/dashboard/FreeSpenderSummaryPanel.jsx:4-149 | rows with equal spend keep the panel's category order, which starts with Rent |
| FreeSpenderSummary.Summarize | src/components/dashboard/FreeSpenderSummaryPanel.jsx:133-149 | the reminder appears exactly when there is no numeric budget above 0. Otherwise the spent total, the remainder and the sorted rows are shown, and the alert is raised exactly when more than 0.01 is overspent |
| SelfEmployedSummary.SortedCategoriesShape | src/components/dashboard/SelfEmployedSummaryPanel.jsx:185-187 | the sorted categories list each category once, from largest to smallest spend |
| SelfEmployedSummary.SortedCategories | src/components/dashboard/SelfEmployedSummaryPanel.jsx:185-187 | `[...CATEGORIES].sort` by descending `categorySpend` |
| SelfEmployedSummary.TableRows | src/components/dashboard/SelfEmployedSummaryPanel.jsx:293-296 | each row is a listed category that spent more than 0.01, with its spend and share |
| SelfEmployedSummary.TableRowsCover | src/components/dashboard/SelfEmployedSummaryPanel.jsx:293-296 | every listed category that spent more than 0.01 has a row |
| SelfEmployedSummary.TableKeepsDescent | src/components/dashboard/SelfEmployedSummaryPanel.jsx:293-296 | categories drawn in non-increasing spend order give a non-increasing table |
| SelfEmployedSummary.TableDescending | src/components/dashboard/SelfEmployedSummaryPanel.jsx:185-187 | the table runs from largest to smallest spend |
| SelfEmployedSummary.Summarize | src/components/dashboard/SelfEmployedSummaryPanel.jsx:159-187 | the reminder appears exactly when there is no budget above 0. Otherwise the remainder is shown, the alert is raised exactly when spending exceeds the budget (no tolerance), and the table appears only when more than 0.01 was spent |
| SelfEmployedSummary.ExactlyOnBudgetIsNotOver | src/components/dashboard/SelfEmployedSummaryPanel.jsx:161-162 | spending exactly the budget raises no alert |
| SelfEmployedSummary.SpentIsCategorySum | src/components/dashboard/SelfEmployedSummaryPanel.jsx:113-127 | fed by the panel's own `forEach`, the spent figure is the sum of the category spends and the remainder is the budget less that sum |
| StudentTips.OverspentListSnoc | src/components/dashboard/StudentTipsPanel.jsx:224-235 | one more category appends its entry exactly when it is overspent |
| StudentTips.IsOverspent | src/components/dashboard/StudentTipsPanel.jsx:231 | `b > 0 && s > b + 0.01` |
| StudentTips.OverspentList | src/components/dashboard/StudentTipsPanel.jsx:224-235 | the `overspent` list the `forEach` pushes onto, in category order |
| StudentTips.OverspentListContents | src/components/dashboard/StudentTipsPanel.jsx:231-234 | the overspent list holds exactly the categories whose spend exceeds a positive budget by more than 0.01, each with its excess |
| StudentTips.OverspentListSound | src/components/dashboard/StudentTipsPanel.jsx:231-234 | each overspent entry is an overspent category with its excess, which is above 0.01 |
| StudentTips.OverspentListComplete | src/components/dashboard/StudentTipsPanel.jsx:231-234 | every overspent category has an entry |
| StudentTips.OverspentListInOrder | src/components/dashboard/StudentTipsPanel.jsx:224-235 | the overspent list follows category order |
| StudentTips.OverspentTips | src/components/dashboard/StudentTipsPanel.jsx:274-302 | one tip per overspent category, with its excess and the `switch`'s advice |
| StudentTips.SuggestionFor | src/components/dashboard/StudentTipsPanel.jsx:276-298 | the `switch` advice for each category, with the default for Other |
| StudentTips.HasAnyBudget | src/components/dashboard/StudentTipsPanel.jsx:150 | some category has a budget above 0 |
| StudentTips.HasAnySpending | src/components/dashboard/StudentTipsPanel.jsx:151 | some category spent above 0.01 |
| StudentTips.OverallUnderBudget | src/components/dashboard/StudentTipsPanel.jsx:237 | `totalBudget > 0 && totalSpent <= totalBudget` |
| StudentTips.OverspentTipsSnoc | src/components/dashboard/StudentTipsPanel.jsx:274-302 | one more overspent category adds exactly its tip at the end |
| StudentTips.ScannedIsTotals | src/components/dashboard/StudentTipsPanel.jsx:224-235 | the scan gathers the overspent list, the budget total and the spend total |
| StudentTips.ScanCategories | src/components/dashboard/StudentTipsPanel.jsx:219-235 | the `forEach` produces the overspent list and the same budget and spend totals as the summary card |
| StudentTips.PushOverspentTips | src/components/dashboard/StudentTipsPanel.jsx:274-302 | the pushes append exactly the overspent tips |
| StudentTips.PushTips | src/components/dashboard/StudentTipsPanel.jsx:237-302 | with nothing overspent, "Nice job" then the under-total amount or "keep tracking". Otherwise the overall picture, then one tip per overspent category |
| StudentTips.BuildTips | src/components/dashboard/StudentTipsPanel.jsx:150-302 | the reminder appears exactly when no category has a budget above 0 or none spent above 0.01. Otherwise the tips are as above, with their count |
| FreeSpenderTips.Entries | src/components/dashboard/FreeSpenderTipsPanel.jsx:253-256 | one entry per category, in order, with its spend |
| FreeSpenderTips.Ranked | src/components/dashboard/FreeSpenderTipsPanel.jsx:253-256 | the entries sorted by `b.spent - a.spent` |
| FreeSpenderTips.Top | src/components/dashboard/FreeSpenderTipsPanel.jsx:258 | `entries[0]`, which always exists because every category has an entry |
| FreeSpenderTips.RankedFirst | src/components/dashboard/FreeSpenderTipsPanel.jsx:253-258 | the first ranked entry is a listed category with its spend. No category spent more, and the others that spent as much come later in the list |
| FreeSpenderTips.RankedFirstLargest | src/components/dashboard/FreeSpenderTipsPanel.jsx:253-258 | an entry stably ahead of all others spent the most, and any ties come later in the list |
| FreeSpenderTips.TopIsEarliestLargest | src/components/dashboard/FreeSpenderTipsPanel.jsx:258 | the top category has the largest spend and is the first in `CATEGORIES` with it. It is positive exactly when some category spent anything |
| FreeSpenderTips.PushTips | src/components/dashboard/FreeSpenderTipsPanel.jsx:235-275 | the overshoot tip appears when spending is more than 5 over the budget, and the margin tip when it is more than 5 under, each with its amount. Then the top category with its share when it spent anything, then the two fixed habits |
| FreeSpenderTips.BuildTips | src/components/dashboard/FreeSpenderTipsPanel.jsx:132-275 | the budget reminder appears exactly when there is no budget above 0, and the upload reminder exactly when there is a budget but no spending above 0.01. Otherwise the tips are as above, with their count |
| SelfEmployedTips.FirstLargestUnique | src/components/dashboard/SelfEmployedTipsPanel.jsx:183-190 | at most one category is the first with the largest spend |
| SelfEmployedTips.Biggest | src/components/dashboard/SelfEmployedTipsPanel.jsx:183-190 | the scan finds no category exactly when none spent above 0. Otherwise it finds the first category with the largest spend, with its amount |
| SelfEmployedTips.BuildTips | src/components/dashboard/SelfEmployedTipsPanel.jsx:137-219 | the reminder appears exactly when there is no budget above 0 or no spending above 0.01. Otherwise come the overshoot tip or the two within-budget tips, then the biggest category exactly when some category spent above 0, then the low-income-month tip |
| SelfEmployedTips.SpentIsCategorySum | src/components/dashboard/SelfEmployedTipsPanel.jsx:109-127 | fed by the panel's own `forEach`, the spent figure is the sum of the category spends; once it is above 0.01 some category spent above 0, so a card with tips always names the biggest category |
| AnalyticsRange.DataBounds | src/components/dashboard/AnalyticsPanel.jsx:149-157 | the bounds are absent exactly when no transaction has a date. Otherwise they are data dates, the smallest and the largest |
| AnalyticsRange.ClampStart | src/components/dashboard/AnalyticsPanel.jsx:163-168 | the start updater: an empty start becomes min, one before min becomes min, one after max becomes max |
| AnalyticsRange.ClampEnd | src/components/dashboard/AnalyticsPanel.jsx:169-174 | the end updater: an empty end becomes max, one after max becomes max, one before min becomes min |
| AnalyticsRange.ClampsIntoBounds | src/components/dashboard/AnalyticsPanel.jsx:162-174 | both clamps land within min..max and leave a date already inside as it is. On a non-empty date the two clamps agree |
| AnalyticsRange.TrendRange.constructor | src/components/dashboard/AnalyticsPanel.jsx:103-112 | the range starts from storage or the defaults, with no bounds known yet |
| AnalyticsRange.TrendRange.ApplyBounds | src/components/dashboard/AnalyticsPanel.jsx:159-174 | the bounds are recorded, and the range is clamped into them only when both are known |
| AnalyticsRange.TrendRange.OnStartChange | src/components/dashboard/AnalyticsPanel.jsx:338-353 | an emptied start falls back to the earliest data date when known, and otherwise changes nothing. A non-empty end before the new start is moved up to it, so start <= end afterwards when the edit sets a start and the old end is non-empty |
| AnalyticsRange.TrendRange.OnEndChange | src/components/dashboard/AnalyticsPanel.jsx:375-388 | an emptied end falls back to the latest data date when known, with no comparison to the start. A typed end before a non-empty start becomes the start, so start <= end afterwards when a date was typed and the start is non-empty |
| AnalyticsAggregate.ZeroSpend | src/components/dashboard/AnalyticsPanel.jsx:200-203 | the initial category totals are the spend map of no transactions |
| AnalyticsAggregate.SpendOfSnoc | src/components/dashboard/AnalyticsPanel.jsx:229 | adding a dated outflow under its category gives the spend map with it appended |
| AnalyticsAggregate.NoMonthStep | src/components/dashboard/AnalyticsPanel.jsx:211-212 | a transaction that is not a dated outflow changes no month total and no month row |
| AnalyticsAggregate.OtherMonthStep | src/components/dashboard/AnalyticsPanel.jsx:213-227 | an outflow dated in another month leaves this month's total and row as they were |
| AnalyticsAggregate.OwnMonthTotalStep | src/components/dashboard/AnalyticsPanel.jsx:222 | an outflow in its month adds its magnitude to that month's total, starting from 0 |
| AnalyticsAggregate.OwnMonthCatsStep | src/components/dashboard/AnalyticsPanel.jsx:215-227 | an outflow in its month adds its magnitude to that month's `All` and to its category, starting from a zeroed row |
| AnalyticsAggregate.AddToMonthTotals | src/components/dashboard/AnalyticsPanel.jsx:222 | `monthMap` keeps reading every month's total. A new month key goes last, and the sum of the values grows by the outflow |
| AnalyticsAggregate.AddToMonthCats | src/components/dashboard/AnalyticsPanel.jsx:215-227 | `perMonthCat` keeps reading every month's row, and a new month key goes last |
| AnalyticsAggregate.AddDatedOutflow | src/components/dashboard/AnalyticsPanel.jsx:211-229 | one dated outflow keeps the month maps and the category totals summarising the transactions so far |
| AnalyticsAggregate.AddTransaction | src/components/dashboard/AnalyticsPanel.jsx:205-231 | one `forEach` step keeps the four accumulators summarising the transactions so far |
| AnalyticsAggregate.Aggregate | src/components/dashboard/AnalyticsPanel.jsx:197-231 | the accumulators summarise all transactions, and the category totals are the spend map of the dated outflows |
| AnalyticsAggregate.DatedUndatedSplit | src/components/dashboard/AnalyticsPanel.jsx:207-212 | the total outflow splits into the dated and the undated outflows |
| AnalyticsAggregate.TotalIsCategoriesPlusUndated | src/components/dashboard/AnalyticsPanel.jsx:197-231 | the total is the category totals plus the undated outflow, and the month totals add up to the category totals |
| AnalyticsAggregate.MonthAllIsCategorySum | src/components/dashboard/AnalyticsPanel.jsx:225-227 | a month's `All` is the sum of its five categories |
| AnalyticsAggregate.MonthTxnsAreInMonth | src/components/dashboard/AnalyticsPanel.jsx:213 | a month's transactions are the dated outflows whose key is that month |
| AnalyticsAggregate.OutflowsTotalPositive | src/components/dashboard/AnalyticsPanel.jsx:207-209 | a non-empty list of outflows totals above 0 |
| AnalyticsAggregate.MonthTotalPositive | src/components/dashboard/AnalyticsPanel.jsx:222 | every month present in `monthMap` has a total above 0 |
| AnalyticsTrend.SortedKeys | src/components/dashboard/AnalyticsPanel.jsx:233 | the sorted keys are the month keys, each once, strictly ascending |
| AnalyticsTrend.MonthlyRows | src/components/dashboard/AnalyticsPanel.jsx:234-247 | each row has its key and month total. Its delta is the change from the row before, and the first row has none |
| AnalyticsTrend.Monthly | src/components/dashboard/AnalyticsPanel.jsx:233-247 | the table has one row per month, in ascending key order, each with its total, and the rows are chained by their deltas |
| AnalyticsTrend.DeltasTelescope | src/components/dashboard/AnalyticsPanel.jsx:236-240 | the deltas add up to the change from the first month to the last |
| AnalyticsTrend.MonthlyAddsUp | src/components/dashboard/AnalyticsPanel.jsx:233-247 | sorting the months changes nothing in what they add up to |
| AnalyticsTrend.MonthlyOfTransactions | src/components/dashboard/AnalyticsPanel.jsx:197-247 | there is a row for exactly the months with a dated outflow, each with a positive total, and the rows add up to the dated outflow |
| AnalyticsTrend.EntriesOf | src/components/dashboard/AnalyticsPanel.jsx:263-265 | one entry per category, in order, with its total |
| AnalyticsTrend.CategoryEntries | src/components/dashboard/AnalyticsPanel.jsx:263-266 | the table lists exactly the categories that spent more than 0.01, each with its total |
| AnalyticsTrend.CategoryEntriesInOrder | src/components/dashboard/AnalyticsPanel.jsx:263-266 | the category table keeps the order of `CATEGORIES` |
| AnalyticsTrend.SharesWithinRange | src/components/dashboard/AnalyticsPanel.jsx:690 | every shown category's "% of Total" lies in 0..100 and is above 0 |
| AnalyticsTrend.CategoryWithinTotal | src/components/dashboard/AnalyticsPanel.jsx:197-231 | no category total is negative or exceeds the period's total |
| AnalyticsTrend.TrendChartData | src/components/dashboard/AnalyticsPanel.jsx:276-283 | the chart has one point per table row, in order, with the selection's spend that month |
| AnalyticsTrend.SumSelectionsIsSumOver | src/components/dashboard/AnalyticsPanel.jsx:276-283 | the single-category selections of a present month add up like its category map |
| AnalyticsTrend.TrendOfAll | src/components/dashboard/AnalyticsPanel.jsx:276-283 | with "All" selected, the chart shows the table's month totals |
| AnalyticsTrend.TrendOfCategory | src/components/dashboard/AnalyticsPanel.jsx:276-283 | with one category selected, the chart shows that category's outflow in each month |
| AnalyticsTrend.TrendCategoriesAddUp | src/components/dashboard/AnalyticsPanel.jsx:276-283 | at every month of the chart, the five category selections add up to "All" |
| AnalyticsTrend.MonthPoint | src/components/dashboard/AnalyticsPanel.jsx:276-283 | at a month of the table, the chart reads the month's total, each category's outflow, and their sum |

## Left out

- Network and storage effects are parameters or outcome flags, not effects:
  fetching transactions, `setBudget` requests, `localStorage` reads and
  writes, and `window.confirm`/`alert`. The loading and error states of each
  card are not modelled. The per-user storage keys and the write-back of
  income rows are not modelled either.
- The clock is an input. `defaultStartDate`/`defaultEndDate` and the
  current-month window of the summary and tips cards are supplied as inputs,
  and each card receives that month's transactions.
- Floating point is not modelled: money is exact. `toFixed` formatting,
  `formatMonthLabel`, and every displayed sentence are left out; tips are
  datatypes carrying their amounts and categories.
- `Number(text)` of arbitrary text, and Infinity, are left out. The browser's
  reading comes with each text input, and a JavaScript number is either
  finite or NaN. `parseFloat` is modelled only for a sign, digits and one
  dot: no exponent, leading whitespace or `Infinity`.
- Lower-casing is modelled for ASCII letters only. String `<` compares
  characters, not UTF-16 code units beyond them.
- Object keys follow insertion order. JavaScript's ordering of
  integer-like keys first, and inherited prototype keys such as
  `constructor` in `roleLabelMap`, are not modelled.
- Stored JSON is modelled already parsed: an object of field values, or an
  array of income rows. The shape of each stored row is not validated;
  neither does the code validate it.
- `handleClearAll`, `refreshFlag`/`resetKey` plumbing and `onBudgetUpdated`:
  the callback is a returned flag, and re-rendering is not modelled.
  `IncomeForm.Reload` is the reaction to a reset.
- The intermediate "Saving…" messages are not modelled, since the final
  message replaces them.
- `CsvUploadPanel` internals, the charts and all JSX layout and styling are
  not part of this model. The login and registration forms are not part of
  it either.
