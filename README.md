# ExpensePulse expense bookkeeping, modelled in Dafny

ExpensePulse is a single-page expense tracker. A sidebar form adds dated
expenses (date, category, description, amount) to a session table. The page
then shows an overall summary (total and per-category totals) and a monthly
report: a month selector, the month's total and per-category totals, a budget
alert, and a suggestion based on the month's highest-spending category.

This project models that bookkeeping with the page rendering stripped away:

- `Store` holds the session table. It is a class with a `seq<Entry>` field.
  Its `Add` method runs the add button's checks in the source's order
  (amount first, then the trimmed description) and appends exactly one row
  only when both pass.
- `Text` models Python's `str.strip()` over the characters `str.isspace()`
  accepts, and `Expense` holds the entities. Categories are a datatype, so
  the fixed category list holds by typing.
- `Aggregate` models the overall total and the group-by-category sums.
- `Months` models the months present (sorted, de-duplicated), the filter to
  one month, and how the monthly totals relate to the overall total.
  `MonthText` models the `YYYY-MM` text of a month key and shows that
  sorting those strings agrees with the (year, month) order used elsewhere.
- `Budget` models the alert decision table. `Report` puts the whole monthly
  report together, and `Session` is a small client that drives the store.

Amounts and budgets are integers in the smallest currency unit (paise). The
usage percentage is computed exactly as a `real`, and the 80% test is proved
to be the integer comparison `total * 100 >= 80 * budget`. Everything is
pure Dafny except the store, which the source updates in place.

Two choices about the code's behaviour:

- There is no `InvalidCategory` error. The category type admits only the
  six values the selector offers, and the code has no category check.
- The highest category is taken with `idxmax` over the grouped sums, and
  the groups are listed in name order. The model scans in that order, but
  proves only that the result is a maximum and that it occurs in the month.

## Model

| member | source | states |
|---|---|---|
| `Text.IsSpace` | streamlit_app.py:44 | the characters `strip()` removes are those Python's `isspace()` accepts: the ASCII tab, line feed, vertical tab, form feed, carriage return, the information separators, space, and the Unicode spaces and line and paragraph separators; space, tab, line feed and carriage return are among them, and no ASCII letter, digit or underscore is |
| `Text.SkipSpaces` | streamlit_app.py:44 | the returned index is the first at or after the start that is not whitespace (or the end), with only whitespace before it |
| `Text.SkipSpacesBack` | streamlit_app.py:44 | the returned end leaves only whitespace after it and, unless the slice is empty, a non-whitespace character just before it |
| `Text.Strip` | streamlit_app.py:44 | `strip()` returns a slice of the input with whitespace only on either side of it, and neither end of the slice is whitespace |
| `Text.StripEmptyIffBlank` | streamlit_app.py:44-46 | the description is refused as empty exactly when every character of it is whitespace |
| `Text.LexLessStrictTotal` | streamlit_app.py:103 | the string order `Text.LexLess` (Python's `<` on strings, code point by code point, a proper prefix first) is irreflexive, asymmetric and total on distinct strings, so `sorted` has one answer |
| `Expense.CategoryLists` | streamlit_app.py:10 | the selector's list and the name-ordered list each name every category exactly once, and the second is sorted by name |
| `Store.ExpenseStore.constructor` | streamlit_app.py:25-27 | a session starts with an empty table that satisfies the store invariant |
| `Store.ValidStoreTotals` | streamlit_app.py:41-58 | a session's table, whose rows all passed the add checks, has a non-negative total, and each month's total lies between 0 and that total |
| `Store.ExpenseStore.Add` | streamlit_app.py:40-58 | amount <= 0 is refused with InvalidAmount; otherwise a blank trimmed description is refused with EmptyDescription; a refusal leaves the table unchanged; an accepted add appends exactly the given row, with the description untrimmed; the table never shrinks and every row keeps passing the checks |
| `Aggregate.Total` | streamlit_app.py:79 | the sum of the amounts: 0 for no rows, the amount itself for one row |
| `Aggregate.TotalAppend` | streamlit_app.py:79 | the total of two tables joined is the sum of their totals |
| `Aggregate.TotalPermutation` | streamlit_app.py:79 | the sum does not depend on the order of the rows: two tables holding the same rows as often have the same total |
| `Aggregate.TotalNonNegative` | streamlit_app.py:79 | a table with no negative amount has a non-negative total |
| `Aggregate.OfCategory` | streamlit_app.py:82-84 | a category's group keeps every entry of that category as often as the table holds it, and no other entry |
| `Aggregate.OfCategoryAppend` | streamlit_app.py:82-84 | grouping a joined table joins the groups of its parts, so the group keeps table order |
| `Aggregate.CategoryTotals` | streamlit_app.py:82-84 | the grouped sums have a key for exactly the categories that occur in the table |
| `Aggregate.CategoryTotalsValue` | streamlit_app.py:82-84 | each grouped sum is the total of that category's entries |
| `Aggregate.CategoryTotalsSum` | streamlit_app.py:79-84 | the per-category sums add up to the overall total |
| `Aggregate.OverallSummary` | streamlit_app.py:75-77 | there is no summary exactly when the table is empty |
| `Aggregate.OverallSummaryFacts` | streamlit_app.py:72-85 | a non-empty table's summary has the sum of all amounts as its total, its categories are exactly those present, each maps to its entries' total, and these add up to the total |
| `Expense.KeyOf` | streamlit_app.py:99 | the month of an entry, as `to_period("M")` takes it, is its date's year and month with the day dropped |
| `Months.AscendingNoDuplicates` | streamlit_app.py:103 | a strictly ascending month list has no repeated month |
| `Months.Insert` | streamlit_app.py:103 | inserting a month keeps the list strictly ascending and adds exactly that month |
| `Months.MonthsPresent` | streamlit_app.py:99-104 | the selector's options are strictly ascending and are exactly the month keys of the table's entries |
| `Months.AscendingUnique` | streamlit_app.py:103 | two strictly ascending month lists with the same elements are equal |
| `Months.InMonth` | streamlit_app.py:106 | the month's subset holds each entry of the selected month exactly as often as the table does, no entry of another month, and no more entries than the table |
| `Months.InMonthIsSubsequence` | streamlit_app.py:106 | the month's subset keeps the table's relative order |
| `Months.InMonthAppend` | streamlit_app.py:106 | filtering a joined table is joining the filtered parts, so order is preserved |
| `Months.SelectedMonthNonEmpty` | streamlit_app.py:101-106 | a month offered by the selector has at least one entry |
| `Months.MonthTotalBounded` | streamlit_app.py:106-107 | with no negative amount, a month's total lies between 0 and the overall total |
| `Months.MonthlyTotalsPartition` | streamlit_app.py:99-107 | the monthly totals over all offered months add up to the overall total |
| `MonthText.Digits` | streamlit_app.py:99 | the zero-padded numeral has the requested width |
| `MonthText.Format` | streamlit_app.py:99 | the text of a month key has seven characters, with the dash fifth |
| `MonthText.DigitsCompare` | streamlit_app.py:99 | zero-padded numerals of equal width are equal, or ordered as strings, exactly when the numbers are |
| `MonthText.FormatOrder` | streamlit_app.py:99-103 | sorting the `YYYY-MM` strings orders months chronologically, and equal strings mean the same month |
| `Budget.UsagePercent` | streamlit_app.py:126 | the share of the budget spent, in percent: non-negative exactly when the total is, and 100 when the total equals the budget |
| `Budget.UsageThreshold` | streamlit_app.py:126-133 | usage of at least 80 percent means exactly `total * 100 >= 80 * budget` |
| `Budget.Evaluate` | streamlit_app.py:125 | no alert is given exactly when the budget is not positive |
| `Budget.EvaluateCases` | streamlit_app.py:125-140 | each row of the decision table holds both ways: none iff budget <= 0; Exceeded iff total > budget; Warning iff not exceeded and total*100 >= 80*budget; within budget iff total*100 < 80*budget |
| `Budget.EvaluateMonotone` | streamlit_app.py:125-140 | under the same budget, a larger total never gets a milder alert |
| `Budget.EvaluateExamples` | streamlit_app.py:128-140 | spending exactly the budget warns but does not exceed; 120% exceeds; just under 80% is within budget |
| `Report.TopIn` | streamlit_app.py:145-146 | the scan returns nothing iff no listed category has a sum; otherwise its pick has a sum no listed category exceeds |
| `Report.Highest` | streamlit_app.py:145-146 | the highest category of a non-empty table of sums is one of its keys, its amount is that key's sum, and no sum is larger |
| `Report.Suggests` | streamlit_app.py:153 | the suggestion's name test holds exactly for Shopping and Entertainment |
| `Report.Monthly` | streamlit_app.py:90-92 | there is no monthly report exactly when the table is empty |
| `Report.MonthlyOptions` | streamlit_app.py:99-104 | the selector offers the table's months, strictly ascending and each once |
| `Report.MonthlyEntries` | streamlit_app.py:106-107 | the month's entries are the filter of the table to the selected month (each matching row as often as the table holds it, in table order, none of another month), they are non-empty, their sum is the monthly total, which is at most the overall total, and the month's per-category sums are the grouped sums of those entries |
| `Report.MonthlyAlert` | streamlit_app.py:125-140 | the report's alert follows the decision table applied to the monthly total |
| `Report.MonthlyTop` | streamlit_app.py:145-154 | the highest category occurs in the month, its amount is its monthly sum, no category of the month sums higher, and the suggestion is raised iff it is Shopping or Entertainment |
| `Session.ExampleSession` | streamlit_app.py:40-104 | a zero amount is refused; a 200-rupee lunch is added and the summary is then total 200 rupees with Food 200 rupees; after a June purchase the selector offers May then June |

## Left out

- Page rendering is left out: the page configuration, headers, dividers, the
  table display, charts, metrics, banners and their message texts. So is the
  `:.2f` / `:.1f` number formatting. The model keeps only which outcome each
  banner reports.
- `show_expense_list` only displays the table, so it has no model.
- The pandas calls (`concat`, `groupby`, `to_datetime`, `to_period`, `unique`,
  `idxmax`) are replaced by explicit sequence and map functions over `Entry`.
- `datetime.today()` as the date field's default depends on the clock. The
  date is a parameter of `Add` instead.
- The budget field's default of 5000 rupees is a widget setting. The budget
  is a parameter of `Budget.Evaluate` and `Report.Monthly` instead.
- Floating-point amounts and the floating-point `usage_percent` are replaced
  by integer amounts and an exact `real` percentage.
- Budget.Evaluate: does not reproduce a float rounding that could flip
  the 80% test at its exact boundary, because the model computes exactly.
- The widget bounds (amount and budget at least 0) are not assumed. Every
  integer input is handled, and a negative amount is refused like zero.
- Report.MonthlyTop: does not state which of several equally high
  categories is chosen. The scan takes the first in name order, but only
  maximality and membership are proved.
- MonthText.FormatOrder: covers years 1 to 9999 with four-digit text only.
- Re-running the page keeps the table only while the session lasts, and
  concurrent sessions do not exist. The model has one store object per
  session and no persistence.
