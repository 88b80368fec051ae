# Budgets screen: summary figures and budget auto-generation

This project models the decision logic of the budgets screen of a personal
finance application (`src/components/BudgetsPage.tsx`), and proves properties
of that model:

- **The month key.** `YYYY-MM` tags each budget and prefixes each transaction
  date. Auto-generation uses it to find the month before the selected one.
- **The summary figures.** These are shown for the selected month:
  - total budgeted;
  - total spent: the absolute value of the signed sum of the month's
    categorised expense transactions;
  - remaining;
  - percent used. It is 0 for a budget that is not positive, and it is not
    capped.
- **The auto-generate handler.** It works in two passes over the budget store:
  - Pass 1 carries the previous month's budgets forward for every category that
    the screen's budget list lacks.
  - Pass 2 adds a budget for every eligible expense category that the list lacks.
    The budget is seeded with last month's summed `|amount|` for that category.
    Pass 2 counts the categories it creates and the ones it skips.

Modules:

- `BudgetTypes` holds the records: budgets, transactions and categories. Amounts
  are whole cents (`int`).
- `PeriodKey` holds the key, the decimal rendering with `padStart`, the
  predecessor month, and the proof that keys are injective and prefix-free.
- `Summary` holds the four summary figures.
- `CategoryFilter` holds the eligibility filter, with its case-sensitive
  substring exclusion list.
- `Spending` holds the per-category spend map. It is built by a loop, as the
  handler builds it.
- `Store` holds the budget backend. It is a class with a list of budget rows;
  `get_budgets` filters that list by month and `add_budget` appends to it.
- `AutoGenerate` holds the handler as a method over the store, the two passes
  as loop methods, their specification functions, and the lemmas about them.

The handler refreshes the month's list between the two passes, but only puts it on screen:

- `updatedBudgets` is fetched at line 185, just before pass 2, and passed to `setBudgets` at line 186.
- Pass 2 still builds its lookup `budgetMap` (line 198) from `budgets`, the list captured before the run.
- So a category that pass 1 has just carried forward is added a second time by pass 2.
- Pass 2 was evidently meant to see pass 1's budgets, so that a month holds one budget per category.

`AutoGenerate.Run` models the code as written. The finding below records the
discrepancy; `AutoGenerate.RunCorrected` is the handler with pass 2 reading
the refreshed list, and the one-budget-per-category property is proved for it.

## Model

| member | source | states |
|---|---|---|
| BudgetTypes.CategoryIds | src/components/BudgetsPage.tsx:177 | `new Set(budgets.map(b => b.category_id))`: holds the category of every budget in the list, and nothing else |
| BudgetTypes.CategoryIdsAppend | src/components/BudgetsPage.tsx:177 | the category set of two lists joined is the union of their sets |
| BudgetTypes.SumAmounts | src/components/BudgetsPage.tsx:146 | `totalBudget`, the `reduce` sum of the amounts; with no negative amount it is non-negative and at least every single amount |
| BudgetTypes.SumAmountsAppend | src/components/BudgetsPage.tsx:146 | the sum over two lists joined is the sum of their sums |
| PeriodKey.Decimal | src/components/BudgetsPage.tsx:47 | a year or month renders as a non-empty string of decimal digits, one digit exactly when the number is below 10 |
| PeriodKey.PadStart2 | src/components/BudgetsPage.tsx:46 | `padStart(2, '0')`: a string of two or more characters is unchanged; a shorter one is left-filled with `0` to exactly two characters, ending with the original |
| PeriodKey.Pad2 | src/components/BudgetsPage.tsx:174 | definition: `month.toString().padStart(2, '0')`, the decimal digits padded to two characters |
| PeriodKey.Key | src/components/BudgetsPage.tsx:47 | definition: the year's decimal digits, `-`, the padded month |
| PeriodKey.KeyShape | src/components/BudgetsPage.tsx:47 | a key is the year's digits, `-` and two month digits, and each part parses back to its number |
| PeriodKey.ParseDigits | src/components/BudgetsPage.tsx:166-167 | definition: `parseInt` of a string of decimal digits, read most significant digit first |
| PeriodKey.ParseDecimal | src/components/BudgetsPage.tsx:166-167 | `parseInt` of the rendered number gives the number back |
| PeriodKey.Pad2Shape | src/components/BudgetsPage.tsx:46 | a month below 100 padded with `padStart(2, '0')` is exactly two digits and parses back to the month |
| PeriodKey.Pad2Injective | src/components/BudgetsPage.tsx:174 | distinct months below 100 have distinct padded renderings |
| PeriodKey.DecimalInjective | src/components/BudgetsPage.tsx:47 | distinct numbers have distinct decimal renderings |
| PeriodKey.Predecessor | src/components/BudgetsPage.tsx:168-173 | the previous month is a valid month whose index (year·12 + month − 1) is exactly one less |
| PeriodKey.PreviousMonth | src/components/BudgetsPage.tsx:166-174 | decrementing the month and wrapping January to December of the year before computes the predecessor; the padded month of the result is two digits |
| PeriodKey.KeyPrefixFree | src/components/BudgetsPage.tsx:47 | a month key that is a prefix of another is that same month's key |
| PeriodKey.KeyInjective | src/components/BudgetsPage.tsx:47 | distinct (year, month) pairs have distinct keys |
| PeriodKey.DateHasOneMonth | src/components/BudgetsPage.tsx:151 | a transaction date starts with the key of at most one month, so `startsWith` assigns each transaction to a single month |
| PeriodKey.PredecessorKeyDiffers | src/components/BudgetsPage.tsx:174-175 | the previous month's key differs from the selected month's key |
| Summary.SpentFilter | src/components/BudgetsPage.tsx:149-154 | keeps exactly the transactions that are expenses, are dated in the month and have a category |
| Summary.CountsAsSpent | src/components/BudgetsPage.tsx:150-154 | definition: the filter's test, an expense whose date starts with the month key and that has a category |
| Summary.SignedSum | src/components/BudgetsPage.tsx:155 | definition: `reduce((sum, t) => sum + t.amount, 0)`, the signed sum in list order |
| Summary.TotalSpent | src/components/BudgetsPage.tsx:147-158 | total spent is non-negative and is the magnitude of the signed sum of the counting transactions |
| Summary.Progress | src/components/BudgetsPage.tsx:160 | percent used is 0 when the budget is not positive; otherwise progress × budget = 100 × spent, and it is non-negative |
| Summary.Summarize | src/components/BudgetsPage.tsx:146-160 | the four figures of the month: total budget is the `reduce` sum of the budgets, total spent is `TotalSpent` of the transactions for the key, progress is `Progress` of the two; remaining = budget − spent; spent ≥ 0; the progress law; progress exceeds 100 when spending exceeds a positive budget |
| Summary.SpentIgnoresOthers | src/components/BudgetsPage.tsx:149-154 | inserting or swapping a transaction that is not a categorised expense of the month leaves total spent unchanged |
| Summary.UncategorisedNeverSpent | src/components/BudgetsPage.tsx:153 | a transaction without a category never changes total spent |
| Summary.SpentAtMostMagnitude | src/components/BudgetsPage.tsx:148-156 | the magnitude of the signed sum is at most the sum of magnitudes, with equality when every amount has the same sign |
| Summary.OverspentExample | src/components/BudgetsPage.tsx:146-160 | a budget of 200 with 250 spent leaves −50 remaining at 125 percent |
| Store.ForMonth | src/components/BudgetsPage.tsx:175 | `get_budgets(month)` returns exactly the stored rows of that month |
| Store.ForMonthAppend | src/components/BudgetsPage.tsx:175 | filtering by month distributes over appending rows |
| Store.TotalBudgetIgnoresOtherMonths | src/components/BudgetsPage.tsx:146 | rows added for other months leave a month's total budget unchanged |
| Store.TotalBudgetAfterAppend | src/components/BudgetsPage.tsx:146 | rows appended for the month raise its total budget by exactly the appended amounts |
| Store.BudgetStore.constructor | src/components/BudgetsPage.tsx:66 | the store starts with the given rows |
| Store.BudgetStore.GetBudgets | src/components/BudgetsPage.tsx:175 | returns the month's rows, each tagged with that month |
| Store.BudgetStore.AddBudget | src/components/BudgetsPage.tsx:181 | appends exactly one row with the given fields and changes nothing else |
| CategoryFilter.ExpenseCategories | src/components/BudgetsPage.tsx:197 | keeps exactly the categories of type `"expense"` |
| CategoryFilter.ExcludedNames | src/components/BudgetsPage.tsx:196 | `excludedCategories`: the six patterns in source order; none is empty and each has at least six characters |
| CategoryFilter.IsEligible | src/components/BudgetsPage.tsx:197 | definition: the two chained tests, type `"expense"` and no exclusion pattern in the name |
| CategoryFilter.ShortNamesEligible | src/components/BudgetsPage.tsx:196-197 | every expense category whose name has fewer than six characters is eligible |
| CategoryFilter.WithoutExcluded | src/components/BudgetsPage.tsx:196-197 | keeps exactly the categories whose name contains none of the six exclusion patterns |
| CategoryFilter.Includes | src/components/BudgetsPage.tsx:197 | definition: `name.includes(sub)`, tried at each starting position of `name` |
| CategoryFilter.IncludesIffOccurs | src/components/BudgetsPage.tsx:197 | `includes` holds exactly when `sub` equals the slice of `name` at some position |
| CategoryFilter.IncludesAny | src/components/BudgetsPage.tsx:197 | definition: `some` over the exclusion list, true when any pattern occurs in the name |
| CategoryFilter.EligibleCategories | src/components/BudgetsPage.tsx:197 | the chained filters keep exactly the catalog's categories of type `"expense"` whose name contains no exclusion pattern |
| CategoryFilter.EligibleIsSelection | src/components/BudgetsPage.tsx:197 | the two chained filters equal one order-preserving selection of the eligible categories |
| CategoryFilter.ExclusionByThreeWords | src/components/BudgetsPage.tsx:196 | a name is excluded exactly when it contains `Reimbursement`, `Transfer` or `Adjust`, so the three bracketed patterns are redundant |
| CategoryFilter.CaseSensitiveMatch | src/components/BudgetsPage.tsx:197 | matching is case-sensitive: an expense category named `transfer` is eligible |
| Spending.MonthExpenses | src/components/BudgetsPage.tsx:187 | keeps exactly the expense transactions dated in the month |
| Spending.IsMonthExpense | src/components/BudgetsPage.tsx:187 | definition: the `lastMonthExpenses` test, type `"expense"` and a date that starts with the month key |
| Spending.CategorySpend | src/components/BudgetsPage.tsx:188-194 | last month's spend for a category is never negative |
| Spending.CategorySpendSnoc | src/components/BudgetsPage.tsx:189-193 | one more transaction adds its magnitude to its own category's spend when it is an expense of the month, and changes no other category |
| Spending.CategorySpendOfMonthExpenses | src/components/BudgetsPage.tsx:187-194 | filtering to the month's expenses before summing does not change any category's spend |
| Spending.CategoryExpenses | src/components/BudgetsPage.tsx:187-191 | keeps exactly the month's expense transactions that carry the given category |
| Spending.CategorySpendIsMagnitude | src/components/BudgetsPage.tsx:188-194 | the seed for a category is the sum of magnitudes over that category's expenses of the month |
| Spending.SeedBoundsNet | src/components/BudgetsPage.tsx:188-194 | the seed is at least the magnitude of the category's net amount for the month, and equals it when all of the category's expenses have one sign |
| Spending.SeedAmount | src/components/BudgetsPage.tsx:203 | definition: the map's value for the category, or 0 when the category is absent, as `get(id)` with the `0` fallback does |
| Spending.SpendingByCategory | src/components/BudgetsPage.tsx:188-194 | the loop's map gives every category, read with a default of 0, its summed absolute amount, and has a key exactly for the categories with an expense that month |
| Spending.MixedSignsDiffer | src/components/BudgetsPage.tsx:188-192 | with mixed signs the seed (130) and the total spent (70) differ |
| AutoGenerate.ImportList | src/components/BudgetsPage.tsx:177-178 | `toImport` holds exactly the prior-month budgets whose category is not in the pre-run list |
| AutoGenerate.Carried | src/components/BudgetsPage.tsx:181 | definition: the pass-1 `add_budget` arguments, the prior budget's category, amount and notes under the selected month |
| AutoGenerate.Seeded | src/components/BudgetsPage.tsx:208 | definition: the pass-2 `add_budget` arguments, the category with last month's spend, the selected month and empty notes |
| AutoGenerate.CarryForward | src/components/BudgetsPage.tsx:176-184 | definition: the `toImport` list re-tagged with the selected month, keeping category, amount and notes |
| AutoGenerate.SeedFill | src/components/BudgetsPage.tsx:199-211 | in the eligible list's order, a budget with last month's spend and empty notes for each category whose id the tested set lacks; never more budgets than eligible categories |
| AutoGenerate.SkippedCount | src/components/BudgetsPage.tsx:199-206 | the number of eligible categories whose id the tested set has; at most the number of eligible categories |
| AutoGenerate.IndexByCategory | src/components/BudgetsPage.tsx:198 | `budgetMap` has a key exactly for each category of the list, and maps it to one of that category's budgets |
| AutoGenerate.IndexKeepsLast | src/components/BudgetsPage.tsx:198 | as `new Map(entries)` does, `budgetMap` holds the last budget of each category in the list |
| AutoGenerate.IndexUpdate | src/components/BudgetsPage.tsx:198 | adding one entry changes only its own key's value |
| AutoGenerate.CarryForwardPass | src/components/BudgetsPage.tsx:176-184 | pass 1 appends to the store exactly the carried copies of `toImport`, in order |
| AutoGenerate.SeedFillPass | src/components/BudgetsPage.tsx:198-211 | pass 2 appends a spend-seeded budget for each eligible category missing from `budgetMap`, in order; created and skipped count the two branches |
| AutoGenerate.Run | src/components/BudgetsPage.tsx:164-213 | the store after the handler is the old store, then pass 1's carried budgets, then pass 2's seeded budgets; the counts and the final list are those of that store |
| AutoGenerate.CarryForwardMembership | src/components/BudgetsPage.tsx:176-184 | a budget is carried iff it is the copy of a prior-month budget whose category the pre-run list lacks; nothing is carried from an empty month |
| AutoGenerate.SeedFillMembership | src/components/BudgetsPage.tsx:200-210 | a budget is seeded iff it belongs to an eligible category that the pre-run list lacks, with last month's spend and empty notes |
| AutoGenerate.CreatedPlusSkipped | src/components/BudgetsPage.tsx:199-211 | created + skipped equals the number of eligible categories |
| AutoGenerate.AppendsAvoidPreRun | src/components/BudgetsPage.tsx:177-208 | every appended budget is tagged with the selected month and has a category the pre-run list lacks |
| AutoGenerate.AppendToMonth | src/components/BudgetsPage.tsx:185-212 | budgets appended for the selected month extend that month's list and leave every other month's list unchanged |
| AutoGenerate.CoveredAfterRun | src/components/BudgetsPage.tsx:176-211 | after both passes, every prior-month category and every eligible category has a budget in the month |
| AutoGenerate.SecondRunAppendsNothing | src/components/BudgetsPage.tsx:164-212 | a second run starting from the reloaded month appends nothing, and skips every eligible category |
| AutoGenerate.CarriedCategoryAddedTwice | src/components/BudgetsPage.tsx:198 | as written, an eligible category carried by pass 1 is appended a second time by pass 2 |
| AutoGenerate.RunCorrected | src/components/BudgetsPage.tsx:185-198 | the handler with pass 2 reading `updatedBudgets`: started from the month's loaded list, it appends exactly the corrected passes' budgets |
| AutoGenerate.CarriedFacts | src/components/BudgetsPage.tsx:176-184 | carried budgets are tagged with the month, avoid the pre-run categories, and keep one budget per category |
| AutoGenerate.SeededFacts | src/components/BudgetsPage.tsx:200-210 | seeded budgets are tagged with the month, avoid the tested categories, and are one per category when catalog ids are distinct |
| AutoGenerate.CorrectedMonthOnePerCategory | src/components/BudgetsPage.tsx:185-198 | when pass 2 tests the refreshed list, the month's list stays at one budget per category |
| AutoGenerate.CorrectedKeepsOnePerCategory | src/components/BudgetsPage.tsx:185-198 | a corrected run keeps the selected month at one budget per category, provided the month, its predecessor and the catalog start that way |

## Left out

- Rendering is not modelled: the JSX, the currency formatting and the snackbar messages. The message text depends only on the two counts, which `AutoGenerate.Run` returns.
- The backend behind `invoke` is reduced to an in-memory list of rows. Row ids and `created_at` are not modelled.
- `handleSaveBudget` and `handleDeleteBudget` are not modelled, and neither are `update_budget` and `delete_budget`. They are edits driven by the form, outside the summary and auto-generation logic.
- `loadAllData` is not modelled, nor its `Promise.all`. Its three lists are parameters: the screen's budgets, the transactions and the categories.
- The event and state plumbing is not modelled: `useEffect`, `setBudgets` and the change broadcasts.
- The second `get_categories` call inside the handler (line 195) is the `categories` parameter of `AutoGenerate.Run`.
- AutoGenerate.Run: the `try`/`catch` is not modelled. A failing backend call would stop the handler after the writes already made, with no rollback. The model's backend never fails.
- Amounts are whole cents (`int`), not JavaScript floating-point numbers. Progress is an exact `real`, without rounding.
- PeriodKey.ParseDecimal: covers `parseInt` only on strings of decimal digits, which is what the year and month selectors produce.
- `null` and `undefined` category ids are both `None`. The source tests `!== undefined`, so a `null` from the backend would count. That distinction is not modelled.
- PeriodKey.Predecessor: requires year ≥ 1, because the year is a `nat`. The selector offers only 2020 to 2039.
- Concurrency is not modelled: every `await` in the handler is a point where the user could change the month mid-run.

## Findings

| source | as written | input that shows it | evidently intended | confidence | as-written member | corrected member |
|---|---|---|---|---|---|---|
| src/components/BudgetsPage.tsx:198 | pass 2 builds `budgetMap` from `budgets`, the list captured before pass 1 ran, not from `updatedBudgets` | the previous month has a budget for category 1 (amount 100); the selected month has no budgets; category 1 is an eligible expense category. Pass 1 carries it, and pass 2 adds a second budget for category 1 | pass 2 reads `updatedBudgets`, fetched at line 185 just before it, so that it sees pass 1's budgets and the month holds one budget per category | not executed | AutoGenerate.CarriedCategoryAddedTwice | AutoGenerate.CorrectedKeepsOnePerCategory |
