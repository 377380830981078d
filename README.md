# Budget insights of the expense manager, in Dafny

This project models the core of a personal expense manager's backend:

* the ledger tables (`backend/finance/models.py`): Category, Income, Expense
  and Budget, with their field limits, unique keys, foreign keys and the
  effect of deleting a category (`SET_NULL` on incomes and expenses,
  `CASCADE` on budgets);
* the budget-insight engine `FinanceIntelligence`
  (`backend/intelligence/services.py`). For one user and one "today" it
  - sums this month's expenses per category name;
  - flags the budgets of this month that are already exceeded;
  - predicts the budgets a linear run rate would exceed by the end of the
    month;
  - returns both lists as the insights.

Modules:

* `Wrappers` (`wrappers.dfy`) holds `Option`, `Result`, an order-keeping
  `Filter` and the predicate "no two positions share a key".
* `Calendar` (`calendar.dfy`) gives Python's proleptic Gregorian `date`.
  Years run from 1 to 9999. It has the day ordinal, `+ timedelta(days=n)`
  (overflow past 31 December 9999 is an error), `replace(day=…)` and date
  subtraction.
* `Ledger` (`ledger.dfy`) defines the four row types as datatypes. A class
  `Store` holds the tables as sequences, with the auto-increment counters of
  their primary keys. Its insert and delete methods keep the tables valid
  and state the new contents of every table.
* `Intelligence` (`intelligence.dfy`) has specification functions and lemmas
  for spending, alerts and predictions. It has the loops of the source as
  methods proved against those functions, and a class `FinanceIntelligence`
  with the engine's methods.

Amounts are integer cents. `DecimalField(max_digits=10, decimal_places=2)`
accepts exactly the values with |cents| < 10^10. The clock reading
`timezone.now().date()` is the constructor parameter `today`.

The model follows the code as written:

* An alert needs spent strictly above the budget (`>`); spent equal to the
  budget gives none.
* The monthly spending counts every expense dated on or after the first of
  the month, with no upper bound. Future-dated expenses count.
* Both lists follow the order in which the budget query returns the rows,
  not the order of category names. The model takes that to be table order.
* On day 1 the elapsed-day count is `max(day, 1)`, which is 1. The budget
  is evaluated, not skipped.
* A second budget for the same user, category and month is refused with an
  integrity error; nothing is replaced.
* A budget's month is stored as given, not moved to the first of the month.
  Only budgets whose month equals the first of the current month are
  evaluated.
* In December 9999 the days-in-month arithmetic overflows. Python raises
  OverflowError there, so `PredictOverrun` and `GetInsights` return
  `Failure(DateOverflow)`.
* Spending is grouped by category name. Every expense of the user whose
  category has the budget's name counts toward that budget, whichever
  category row it refers to (for example an INCOME category of the same
  name).
* `limit_choices_to` is not a database constraint, so the store does not
  enforce it. The predicate `Ledger.ChoicesRespected` states it. Adding a
  category and every delete keep it whenever it held. Adding an income, an
  expense or a budget keeps it when it held and the new row's category has
  the required type.

A category name can appear both among the overspent budgets and among the
predicted overruns. One user can have two budgets this month on two
categories with the same name, for example on another user's category, or on
an INCOME category since `limit_choices_to` is not enforced. Valid tables
allow this, and so does `limit_choices_to` when the other category has the
right type. One budget can then be overspent while the other is predicted to
overrun. `Intelligence.SharedNameOverlap` exhibits such tables.
`Intelligence.OverspendingPredictionsDisjoint` proves the two lists share no
category name when this month's budgets all use EXPENSE categories of the
user's own, and `Intelligence.NoBudgetAlertsAndPredicts` proves that one
budget never appears in both.

The engine asks one thing of the store: every budget refers to an existing
category (`BudgetRefsValid`). Otherwise `budget.category.name` would fail.
`Intelligence.TablesBudgetRefs` shows that valid tables provide it.

## Model

| member | source | states |
|---|---|---|
| Calendar.NextDay | backend/intelligence/services.py:56 | The next day is a valid date one ordinal later; there is none exactly after 31 December 9999 |
| Calendar.ValidDate | backend/finance/models.py:23 | The dates Python's `date` accepts: years 1 to 9999, months 1 to 12, and a day the month has under the Gregorian leap rule |
| Calendar.DateLe | backend/intelligence/services.py:15 | The order behind `date__gte`: year first, then month, then day |
| Calendar.Ordinal | backend/intelligence/services.py:57 | The day number of a date, counted as Python's proleptic Gregorian ordinal; `(a - b).days` is the difference of two ordinals |
| Calendar.AddDays | backend/intelligence/services.py:56 | `d + timedelta(days=n)`, when it does not overflow, is a valid date exactly `n` ordinals later |
| Calendar.ReplaceDay | backend/intelligence/services.py:56 | `d.replace(day=k)` for a day the month has is a valid date with the same year and month on day `k` |
| Calendar.DaysToNextMonth | backend/intelligence/services.py:56-57 | The source's days-in-month formula, through ordinals; `Calendar.DaysToNextMonthIsGregorian` states its value |
| Calendar.MonthStart | backend/intelligence/services.py:10 | `today.replace(day=1)` is a valid date in the same year and month, on day 1, not after `today` |
| Calendar.FourDaysAfter28 | backend/intelligence/services.py:56 | Four days after the 28th is day `32 - length` of the next month, the next year's January after December; in December 9999 the addition overflows |
| Calendar.DaysToNextMonthIsGregorian | backend/intelligence/services.py:55-57 | The source's days-in-month formula equals the Gregorian month length minus the days before `start`; it fails only in December 9999 |
| Ledger.FindCategory | backend/finance/models.py:43 | The lookup of a foreign key finds a row of the table with that id, and finds none exactly when no row has that id |
| Ledger.ValidAmount | backend/finance/models.py:21 | `DecimalField(max_digits=10, decimal_places=2)`, as at lines 21, 32 and 44: an amount in cents is strictly between -10^10 and 10^10 |
| Ledger.ValidName | backend/finance/models.py:10 | `CharField(max_length=255)`: a name of at most 255 characters |
| Ledger.CategoryKeyTaken | backend/finance/models.py:14 | Some category row already has this (user, name, type) |
| Ledger.BudgetKeyTaken | backend/finance/models.py:48 | Some budget row already has this (user, category, month) |
| Ledger.CategoriesValid | backend/finance/models.py:4-14 | Category ids are distinct, (user, name, type) is unique, and every name fits 255 characters |
| Ledger.TransactionsValid | backend/finance/models.py:19-36 | Income or expense ids are distinct; every amount fits `DecimalField(10, 2)`, every date is valid, and a non-null category names an existing row |
| Ledger.BudgetsValid | backend/finance/models.py:41-48 | Budget ids are distinct, (user, category, month) is unique, every amount fits, every month is a valid date, and every category exists |
| Ledger.TablesValid | backend/finance/models.py:4-48 | All four tables meet their primary keys, unique keys, field limits and foreign keys |
| Ledger.RefersToKind | backend/finance/models.py:22 | A nullable reference is null or names an existing category of the given type |
| Ledger.StoreInvariant | backend/finance/models.py:4-48 | The tables are valid and every primary key is below its table's next auto-increment value |
| Ledger.Store.Valid | backend/finance/models.py:4-48 | The store's fields meet `Ledger.StoreInvariant`; this is the invariant the other rows name |
| Ledger.CategoryName | backend/intelligence/services.py:16 | `category__name` is a name exactly when the expense has a category and that category exists, and then it is that category's name; otherwise it is null |
| Ledger.ChoicesRespected | backend/finance/models.py:22-43 | `limit_choices_to`: incomes use INCOME categories, expenses and budgets EXPENSE categories |
| Ledger.AddCategoryKeepsChoices | backend/finance/models.py:22-43 | Adding a category keeps the `limit_choices_to` restrictions when they held |
| Ledger.WithoutCategory | backend/finance/models.py:4-14 | Deleting a category keeps exactly the other category rows |
| Ledger.WithoutTransaction | backend/finance/models.py:19-36 | Deleting an income or an expense keeps exactly the other rows of its table |
| Ledger.WithoutBudget | backend/finance/models.py:41-48 | Deleting a budget keeps exactly the other budget rows |
| Ledger.ClearCategory | backend/finance/models.py:22-33 | `SET_NULL`: same rows in the same order; a row that referred to the deleted category refers to none and keeps every other field; other rows are unchanged |
| Ledger.RemoveBudgetsOf | backend/finance/models.py:43 | `CASCADE`: exactly the budgets of other categories remain |
| Ledger.TransactionError | backend/finance/models.py:21-22 | An income or expense insert succeeds exactly when the amount fits `DecimalField(10, 2)` and the category is null or names an existing row |
| Ledger.BudgetError | backend/finance/models.py:41-48 | A budget insert succeeds exactly when the amount fits, the category exists and (user, category, month) is not taken |
| Ledger.CategoryNamesUnique | backend/finance/models.py:13-14 | Two categories of one user with the same name and type are the same row |
| Ledger.BudgetKeysUnique | backend/finance/models.py:47-48 | Two budgets of one user for the same category and month are the same row |
| Ledger.DeleteCategoryKeepsTablesValid | backend/finance/models.py:22-43 | After `SET_NULL` and `CASCADE`, ids and unique keys stay distinct, amounts and dates stay valid, and every remaining reference names an existing category |
| Ledger.DeleteCategoryKeepsChoices | backend/finance/models.py:22-43 | Deleting a category keeps the `limit_choices_to` restrictions when they held |
| Ledger.DeleteCategoryKeepsInvariant | backend/finance/models.py:22-43 | Deleting a category keeps the store invariant, with every primary key below its counter |
| Ledger.Store.constructor | backend/finance/models.py:4-48 | The empty tables satisfy the invariant |
| Ledger.Store.AddCategory | backend/finance/models.py:4-14 | A name over 255 characters is a validation error; a taken (user, name, type) is an integrity error; otherwise the row is appended with the next id; the other tables are unchanged; the type choices are kept |
| Ledger.Store.AddIncome | backend/finance/models.py:19-25 | Fails with the error `TransactionError` names; otherwise appends the row with the next id; keeps the invariant; keeps the type choices when they held and the new row's category is null or of type INCOME |
| Ledger.Store.AddExpense | backend/finance/models.py:30-36 | As for incomes, on the Expense table; the type choices are kept when they held and the new row's category is null or of type EXPENSE |
| Ledger.Store.AddBudget | backend/finance/models.py:41-48 | Fails with the error `BudgetError` names; otherwise appends the budget with the month as given; keeps the invariant; keeps the type choices when they held and its category is of type EXPENSE |
| Ledger.Store.DeleteCategory | backend/finance/models.py:22-43 | The category goes; incomes and expenses that used it keep every other field and lose the reference; its budgets go; nothing else changes; the invariant and the type choices are kept |
| Ledger.Store.DeleteIncome | backend/finance/models.py:19-25 | Exactly the other income rows remain; nothing else changes; the type choices are kept |
| Ledger.Store.DeleteExpense | backend/finance/models.py:30-36 | Exactly the other expense rows remain; nothing else changes; the type choices are kept |
| Ledger.Store.DeleteBudget | backend/finance/models.py:41-48 | Exactly the other budget rows remain; nothing else changes; the type choices are kept |
| Intelligence.NoSpendingIsZero | backend/intelligence/services.py:31 | A name with no expense counting toward it has spent 0, the default of `spending_map.get` |
| Intelligence.AddToGroup | backend/intelligence/services.py:16 | `Sum` per group: the row for the name grows by the amount, the other rows are unchanged, a new name appends a row |
| Intelligence.AddToGroupDistinct | backend/intelligence/services.py:16 | Grouping keeps one row per name |
| Intelligence.InWindow | backend/intelligence/services.py:13-15 | The query's filter `user=…, date__gte=month start`: the user's expenses dated on or after the first of the month, with no upper bound |
| Intelligence.Spent | backend/intelligence/services.py:13-16 | The `Sum` of the amounts of the user's expenses dated on or after the month start whose category has the given name; its properties are the lemmas below |
| Intelligence.MonthlySpending | backend/intelligence/services.py:12-17 | One row per category name; each total is what the user spent on that name on or after the month start; a row exists exactly for the names spent on |
| Intelligence.SpentAdditive | backend/intelligence/services.py:13-16 | Spending over two parts of the expense table is the sum of the two spendings |
| Intelligence.SpentIgnoresOtherUsers | backend/intelligence/services.py:14 | Spending equals the spending over the user's own expenses only |
| Intelligence.BuildSpendingMap | backend/intelligence/services.py:24-27 | The map has a key exactly for each row's name, and each key holds the total of the last row with that name |
| Intelligence.Get | backend/intelligence/services.py:31 | `spending_map.get(name, 0)`, at lines 31 and 61: the stored total for a key of the map, 0 for any other name |
| Intelligence.MapLookupIsSpent | backend/intelligence/services.py:31 | `spending_map.get(name, 0)` is what was spent on `name` this month |
| Intelligence.CurrentBudgets | backend/intelligence/services.py:21 | A budget is selected exactly when it is the user's and its month equals the month start |
| Intelligence.CurrentBudgetsIsFilter | backend/intelligence/services.py:21 | The selection keeps the matching budgets in their table order, which is the order the model gives both lists |
| Intelligence.SkipUnselected | backend/intelligence/services.py:21 | A budget the selection does not match can be removed from any position without changing the selection |
| Intelligence.CurrentBudgetsRefs | backend/intelligence/services.py:21 | The selected budgets refer to existing categories when all budgets do |
| Intelligence.TablesBudgetRefs | backend/finance/models.py:43 | Valid tables have every budget's category present |
| Intelligence.BudgetName | backend/intelligence/services.py:30 | `budget.category.name`, at lines 30 and 60: the name of the category row the budget refers to |
| Intelligence.AlertFor | backend/intelligence/services.py:29-39 | A budget yields an alert exactly when spent is strictly above its amount; the alert carries the category name, the amount, spent and the positive overage |
| Intelligence.Alerts | backend/intelligence/services.py:29-39 | The loop of `detect_overspending` as a function: at most one entry per budget, in budget order |
| Intelligence.AlertsAppend | backend/intelligence/services.py:29-39 | The alerts of concatenated budget lists are the alerts of each list, in order |
| Intelligence.AlertsMembers | backend/intelligence/services.py:29-39 | An alert is listed exactly when some budget of the list yields it |
| Intelligence.Overspending | backend/intelligence/services.py:19-40 | `detect_overspending`: the alerts of the selected budgets in table order; `Intelligence.OverspendingIff` characterises it |
| Intelligence.OverspendingIff | backend/intelligence/services.py:19-40 | `detect_overspending` lists an alert exactly when it belongs to one of the user's budgets of this month whose spending is strictly above the amount |
| Intelligence.CollectAlerts | backend/intelligence/services.py:29-39 | The loop over the budgets produces exactly the alert list of those budgets |
| Intelligence.DaysPassed | backend/intelligence/services.py:51-53 | `max(today.day, 1)` is the day of the month, between 1 and the month's length |
| Intelligence.PredictionFor | backend/intelligence/services.py:59-75 | A budget yields a prediction exactly when `spent * days_in_month > amount * days_passed` and spent is at most the amount; it carries the projection as an exact fraction |
| Intelligence.PredictionList | backend/intelligence/services.py:59-75 | The loop of `predict_overrun` as a function: at most one entry per budget, in budget order |
| Intelligence.Predictions | backend/intelligence/services.py:42-76 | `predict_overrun`: the predictions of the selected budgets in table order, or the overflow error in December 9999 |
| Intelligence.PredictionsMembers | backend/intelligence/services.py:59-75 | A prediction is listed exactly when some budget of the list yields it |
| Intelligence.CollectPredictions | backend/intelligence/services.py:59-75 | The loop over the budgets produces exactly the prediction list of those budgets |
| Intelligence.ProjectionBounds | backend/intelligence/services.py:51-65 | Outside December 9999 the month length is Gregorian, `1 <= days_passed <= days_in_month`, and a non-negative spent never projects below itself |
| Intelligence.NoBudgetAlertsAndPredicts | backend/intelligence/services.py:32-67 | No budget yields both an alert and a prediction |
| Intelligence.OverspendingPredictionsDisjoint | backend/intelligence/services.py:29-67 | With valid tables and budgets on the user's own EXPENSE categories, no category is both overspent and predicted to overrun; without the hypothesis on the categories it fails, as `Intelligence.SharedNameOverlap` shows |
| Intelligence.SharedNameOverlap | backend/intelligence/services.py:29-67 | Concrete valid tables that keep the type choices, where one budget on another user's category of the same name makes "Food" both overspent and predicted to overrun |
| Intelligence.OtherBudgetIgnored | backend/intelligence/services.py:42-44 | A budget of another user, or of another month, at any position of the Budget table, changes neither the alerts nor the predictions |
| Intelligence.InsightsFor | backend/intelligence/services.py:78-82 | `get_insights`: both lists, or the overflow error of `predict_overrun` |
| Intelligence.FinanceIntelligence.constructor | backend/intelligence/services.py:7-10 | Keeps the user and today; the month start is day 1 of today's month |
| Intelligence.FinanceIntelligence.GetMonthlySpending | backend/intelligence/services.py:12-17 | Distinct names; each total is this month's spending on the name; rows for exactly the names spent on |
| Intelligence.FinanceIntelligence.SpendingMap | backend/intelligence/services.py:46-49 | A key for exactly the names spent on this month; a lookup with default 0 gives what was spent |
| Intelligence.FinanceIntelligence.DetectOverspending | backend/intelligence/services.py:19-40 | Returns exactly the alerts of the user's budgets of this month, in budget order |
| Intelligence.FinanceIntelligence.DaysInCurrentMonth | backend/intelligence/services.py:55-57 | The formula's result is the Gregorian length of today's month, or none in December 9999 |
| Intelligence.FinanceIntelligence.PredictOverrun | backend/intelligence/services.py:42-76 | Returns exactly the predictions of the user's budgets of this month, or the overflow error in December 9999 |
| Intelligence.FinanceIntelligence.GetInsights | backend/intelligence/services.py:78-82 | Returns both lists, or the overflow error of the predictions |

## Left out

- The clock: `timezone.now().date()` is the parameter `today` of the constructor.
- The database and the ORM: tables are sequences in insertion order, queries are functions over them, and transactions, locking and concurrent writers are not modelled.
- Intelligence.MonthlySpending: the database returns the groups of `values().annotate()` in no specified order; the model lists them by first appearance. The contract states the set of names and their totals, which do not depend on the order.
- The `float(...)` conversions and the formatted `message` strings of alerts and predictions: an alert carries the overage and a prediction carries its projection as an exact fraction.
- Intelligence.PredictionFor: the projection `spent / days_passed * days_in_month` is compared exactly, as `spent * days_in_month > amount * days_passed`. The source computes it in Python's 28-digit Decimal context. When the exact projection is above the budget, the gap is at least 1/(100 * days_passed) of a unit, far wider than the rounding, so both agree. They can differ only when the exact projection equals the budget. Then the model emits no prediction. The source emits one if the rounded quotient lies above the exact one. For example, take spent 8.00 on day 3 of a 30-day month, with a budget of 80.00. `Decimal('8.00') / 3` is 2.666666666666666666666666667, and times 30 that is 80.00000000000000000000000001, which is above 80.00. The model never predicts where the source does not.
- Budget order: `Budget.objects.filter(...)` at backend/intelligence/services.py:21 and 44 has no `order_by`, and `Budget` declares no `Meta.ordering`. The database returns the budgets in no specified order, and the two methods run separate queries. The model iterates the budgets in table order, so the order of the alerts and of the predictions is the model's choice. Which entries the lists hold does not depend on it (`Intelligence.OverspendingIff`, `Intelligence.PredictionsMembers`).
- The user table and its `CASCADE` deletes: users are numbers.
- `created_at` and `__str__`: neither affects the engine. The description text is kept but never read.
- Ids taken by an insert that then failed: a failed insert leaves the counter unchanged, while a real database sequence may skip a value.
- `limit_choices_to` is not enforced by the store. It is the predicate `Ledger.ChoicesRespected`. Adding a category and every delete keep it whenever it held. An insert of an income, an expense or a budget keeps it only when the new row's category is null (not allowed for a budget) or of the required type. An insert with a category of the wrong type succeeds, as it does in the source, and breaks it.
- `choices=CATEGORY_TYPES` is not a database constraint either, and Django does not check it on save. The model makes the type the datatype `CategoryType`, so a category of another type cannot be stored.
- Calendar.AddDays: its contract does not say when the addition overflows. `Calendar.FourDaysAfter28` states it for the one addition the engine makes.
- The serializers, views, URL routes and the frontend: they are not part of this model.
- Intelligence.FinanceIntelligence.DetectOverspending: demands only that every budget's category exists (`BudgetRefsValid`), not the whole store invariant. `Intelligence.TablesBudgetRefs` derives that demand from valid tables.
- The loops over budgets are the module-level methods `CollectAlerts` and `CollectPredictions`, which the engine's methods call.
