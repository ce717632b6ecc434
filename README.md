# Budget app: category ledgers and the spend chart

A model of the budget app in `main.py`. It has two parts.

- **Category ledgers.** A `Category` has a name and an append-only ledger of
  `(amount, description)` entries. Its balance is the sum of the amounts.
  `withdraw` and `transfer` are guarded by a funds check; `transfer` writes one
  entry into each of two categories. `__str__` renders a fixed-width report.
- **The spend chart.** `create_spend_chart` turns a list of categories into a
  text chart. Each category's share of all withdrawals is bucketed into tens
  (0 to 10). The chart is an 11-row bar grid labelled 100 down to 0, a dashed
  rule, and the category names written downwards.

Amounts are whole cents (`int`). The modules follow the program:

- `Text` (`text.dfy`): the pieces of Python's string machinery the app uses.
  These are the fixed-width format fields `{:23.23}`, `{:>7.7}` and `{:*^30}`,
  `"\n".join`, `str` of a natural number, `"{:.2f}"` and `str` of an amount,
  and `str.format` with `{}` fields. Each has an inverse or an independent
  description proved about it.
- `Budget` (`budget.dfy`): the `Entry` datatype, the `Category` class, and the
  report as a function of the name and ledger.
- `SpendChart` (`chart.dfy`): the five chart helpers as methods with the
  source's loops. Each is proved equal to a specification function of what it
  reads, and the properties of the chart are proved about those functions.
  The chart reads categories through `Snap`, a list of `(name, ledger)` values.

The Python exceptions of the chart pipeline become an `Outcome`:

- `NoWithdrawals`: the categories are not empty but no category has a negative
  entry. Python raises `ZeroDivisionError` at `main.py:123`.
- `NoCategories`: the list of categories is empty. The empty list is an
  error: `max` of an empty list raises `ValueError` at `main.py:199`.

## Model

| member | source | states |
|---|---|---|
| Budget.Category.constructor | main.py:4-6 | a new category has the given name and an empty ledger |
| Budget.Category.Deposit | main.py:8-10 | appends exactly one entry `(amount, description)` whatever the amount; the balance rises by `amount` |
| Budget.SumAppend | main.py:12-17 | appending an entry moves the balance (sum of the ledger) by exactly its amount |
| Budget.Category.GetBalance | main.py:12-17 | the loop's result is the sum of every entry's amount |
| Budget.Category.CheckFunds | main.py:19-24 | true exactly when `amount` is at most the balance |
| Budget.Category.Withdraw | main.py:26-35 | true exactly when funded; then one entry `(-amount, description)` is appended and the balance drops by `amount`; otherwise the ledger is unchanged |
| Budget.Category.Transfer | main.py:37-47 | true exactly when funded; on failure neither ledger changes; on success the source gains `(-amount, "Transfer to " + dest name)`, the destination gains `(amount, "Transfer from " + source name)`, balances move by `amount` and their sum is kept; a transfer to itself appends both entries and keeps the balance |
| Budget.Category.Render | main.py:49-71 | the report is the title row, one row per entry in ledger order and the `Total:` row, joined by newlines |
| Budget.EntryLineFields | main.py:55-65 | an entry row is 30 wide: the description in a 23-column left field, then the two-decimal amount in a 7-column right field |
| Budget.ReportLayout | main.py:49-71 | the report has two more rows than the ledger has entries; the title is 30 wide when the name is at most 30; each entry row is 30 wide with its description and amount fields; the last row starts `"Total: "` and the rest reads back as the balance |
| Budget.ReportSplits | main.py:60-70 | when names and descriptions hold no newline, splitting the report at newlines gives back exactly its two more rows than the ledger has entries |
| Budget.BalanceSplit | main.py:113-116 | the balance is the non-negative amounts plus the withdrawals |
| Budget.WithdrawalsZero | main.py:113-116 | a ledger's withdrawals are zero exactly when it has no negative amount |
| Text.LeftField | main.py:55 | `{:23.23}`: exactly `w` characters, the string's own characters first and blanks after |
| Text.RightField | main.py:55 | `{:>7.7}`: exactly `w` characters, blanks before a short string, a long one cut to its first `w` |
| Text.Center | main.py:51-52 | `{:*^30}`: the name kept whole at the centre, fill on both sides, the odd fill character on the right, width 30 or the name's length if longer |
| Text.Fill | main.py:202 | `c * n`: exactly `n` characters, every one of them `c` |
| Text.JoinLines | main.py:70 | `"\n".join`: the first row comes first, and when there is a second row a newline follows the first |
| Text.SplitJoinLines | main.py:70 | splitting the newline join of rows without newlines gives the rows back |
| Text.NatToString | main.py:141-147 | `str(n)` is at least one character and all decimal digits |
| Text.ParseNatToString | main.py:147 | `str(n)` of a natural number reads back as `n` |
| Text.NatToStringLength | main.py:141-146 | `str(n)` has 1, 2 or 3 digits for `n` below 10, 100, 1000 |
| Text.FormatCentsRoundTrip | main.py:64 | the two-decimal text of an amount reads back as the same number of cents |
| Text.FormatCents | main.py:64 | `"{:.2f}"`: a minus sign exactly for a negative amount, and a point followed by exactly two digits |
| Text.BalanceText | main.py:58 | `str` of the balance: a minus sign exactly for a negative balance, and one decimal place or two with the last not zero |
| Text.BalanceTextRoundTrip | main.py:58 | the `Total:` text of the balance reads back as the same number of cents |
| Text.FormatPlaceholders | main.py:147 | filling `n` empty fields with `n` arguments gives their concatenation |
| Text.Placeholders | main.py:147 | `"{}" * n` is `2n` characters long |
| Text.Format | main.py:95 | `str.format` fails with `IndexError` exactly when the template has more `{}` fields than there are arguments |
| Text.FormatFilledTemplate | main.py:94-96 | a brace-free prefix followed by `n` fields, filled with `n` arguments, gives the prefix and the arguments in order |
| SpendChart.CategoryWithdrawals | main.py:113-116 | the inner loop's total is the sum of the ledger's negative amounts |
| SpendChart.WithdrawalsByCategory | main.py:111-119 | one record per category in order with its name and withdrawals, and the total of them all |
| SpendChart.SpentRecords | main.py:111-119 | one record per category, in order, holding its name and the sum of its negative amounts |
| SpendChart.SharesByCategory | main.py:121-127 | the second loop computes exactly the shares for the totals of the first, or fails with `NoWithdrawals` |
| SpendChart.TotalBelowEach | main.py:111-118 | the total withdrawals are never positive and at most any one category's |
| SpendChart.TotalZero | main.py:118 | the total is zero exactly when every category's withdrawals are zero |
| SpendChart.FloorShare | main.py:122-125 | `(100w / t) // 10` for `0 <= w <= t` is in 0..10 and is the largest `p` with `p * t <= 10w` |
| SpendChart.Percentage | main.py:122-125 | a category's bucket is in 0..10 and is the floor of ten times its share of the total |
| SpendChart.ProcessCategoryData | main.py:105-129 | the two loops compute exactly the shares of the categories, or fail with `NoWithdrawals` |
| SpendChart.ShareDataMeaning | main.py:105-129 | fails exactly when there are categories but none has a negative entry; otherwise one share per category, in order, with its name and a bucket in 0..10 that floors ten times its share |
| SpendChart.ShareDataFailure | main.py:118-123 | the shares fail, always with `NoWithdrawals`, exactly when there are categories and no entry of any is negative |
| SpendChart.ShareDataShares | main.py:121-127 | when the shares exist: one per category, in order, with its name and a bucket in 0..10 that floors ten times its share of the total |
| SpendChart.PercentagesAtMostTen | main.py:121-127 | the buckets add up to at most 10 |
| SpendChart.RowLabel | main.py:140-147 | the label ends in the digits of the value; for every value up to 100 it is the digits right-aligned in 3 columns |
| SpendChart.RowLabelAligned | main.py:140-147 | every label from 0 to 100 is 3 wide and its digits read back as the value |
| SpendChart.PadRowLabel | main.py:141-147 | the padding chosen by the number of digits gives exactly the row label |
| SpendChart.CreateChartTemplate | main.py:133-152 | the loop builds exactly the 11 template rows for values 100 down to 0 |
| SpendChart.TemplateLayout | main.py:133-152 | 11 rows; row `k` is `100 - 10k` right-aligned in 3, a bar and `1 + 3n` empty fields |
| SpendChart.CreateChartContent | main.py:157-190 | the nested loops build exactly the content rows for levels 10 down to 0 |
| SpendChart.ContentLayout | main.py:157-190 | 11 rows of `1 + 3n` cells: a blank, then per category `"o"` exactly when its bucket reaches the row's level, else a blank, then two blanks |
| SpendChart.ContentRowLayout | main.py:164-182 | one content row: its length, the leading blank, and each category's marker and two blanks |
| SpendChart.MarkersMonotone | main.py:173-176 | below an `"o"` in a column every lower row holds `"o"` too |
| SpendChart.MaxLength | main.py:199 | the row count is at least every name's length and equal to one of them |
| SpendChart.Names | main.py:197 | one name per share, in order: name `i` is share `i`'s name |
| SpendChart.Letter | main.py:213-216 | one character: the name's letter at that row, or a blank past the end of the name |
| SpendChart.BuildLabelRow | main.py:207-221 | the inner loop builds the label row for letter position `row` |
| SpendChart.CreateChartLabels | main.py:193-224 | the loop builds exactly the labels, or fails with `NoCategories` on an empty list |
| SpendChart.LabelRowLayout | main.py:207-221 | a label row is `5 + 3n` wide: five blanks, then per name its letter at that row or a blank, then two blanks |
| SpendChart.LabelsLayout | main.py:193-224 | fails exactly on an empty list; otherwise the first row is 4 blanks and `1 + 3n` dashes, followed by as many rows as the longest name has letters, and column `j` spells name `j` downwards |
| SpendChart.FilledTemplateRow | main.py:94-96 | filling template row `k` with content row `k` succeeds and gives grid row `k` |
| SpendChart.FilledTemplate | main.py:94-96 | filling every template row with its content row succeeds and gives the grid row |
| SpendChart.FillRows | main.py:94-96 | the merging loop gives the 11 grid rows |
| SpendChart.AssembleChart | main.py:83-101 | template, content and labels for the shares, merged and joined under the header |
| SpendChart.CreateSpendChart | main.py:76-102 | the result is the chart of the categories it reads |
| SpendChart.ChartLines | main.py:97-101 | when names hold no newline, the chart splits into the header, 11 grid rows `4 + 1 + 3n` wide, the dashed rule and one row per letter of the longest name |
| SpendChart.ChartFailures | main.py:76-91 | an empty list fails with `NoCategories`; otherwise the chart fails with `NoWithdrawals` exactly when no category has a negative entry, and is produced exactly when the shares are |

## Left out

- The demonstration block at `main.py:226-243` is a driver that builds sample categories and prints them.
- Float arithmetic: amounts are whole cents. A Python float such as `10.15` stands for 1015 cents. Rounding of float sums is not modelled.
- SpendChart.Percentage: computed exactly on the cents. The float quotient `(w / t) * 100 // 10` can differ at a bucket boundary by float rounding; that is not modelled.
- Text.BalanceText: models `str` of a float balance as its shortest one- or two-decimal text ("1000.0", "973.9", "973.96"). An `int` balance (all amounts integers), printing as "1000", and the exponent form of very large or small floats are not modelled.
- Text.FormatCents: models `"{:.2f}"` on an exact number of cents; float rounding of the value is not modelled.
- Text.Format: models `str.format` with `{}` fields only. The templates filled at `main.py:95` use only `{}` fields; the other fields (`main.py:52`, `64-65`) are modelled by `Center`, `FormatCents`, `LeftField` and `RightField`.
- Python exceptions are the `Outcome` failures above. The `IndexError` caught at `main.py:213-216` is the bounds test in `Letter` and `BuildLabelRow`.
- Budget.Category: the name is a constant. The source never reassigns it.
- Budget.Category.Deposit, Budget.Category.Withdraw: the Python default `description = ""` (main.py:8, 26) is a required argument here; a caller passes `""`, so no behaviour is lost.
- Concurrency and output (`print`) are not part of the model.
