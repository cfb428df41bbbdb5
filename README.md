# Expense tracker store, in Dafny

A model of the `ExpenseTracker` class of `expense_tracker.py`: an in-memory,
ordered list of expense records (`[category, amount, date]` triples) that is
written in full to a CSV file after every change. The model covers loading
(a missing file gives an empty list), saving, adding a record (with the
failed amount conversion), clearing, the case-insensitive filter by category,
the exact filter by date, and the per-category totals that
`visualize_expenses` builds before it draws its pie chart.

Modules:

- `Records` (`records.dfy`): the `Expense` datatype, ASCII `Lower`, a generic
  list-comprehension `Filter` with its exact characterisation, and the two
  filters.
- `Aggregation` (`aggregation.dfy`): the dictionary loop as a function
  (`Aggregate`), the order in which the dictionary receives its keys
  (`KeyOrder`), a declarative reading of each bucket (`CategoryTotal`), and
  the facts about them: keys, bucket values, conservation of the total, and
  emptiness.
- `CsvRows` (`csv_rows.dfy`): the text level of the CSV file. It shows what
  the loader as written gives back, and proves that a loader which converts
  the amount gives back exactly the saved records.
- `Tracker` (`tracker.dfy`): the class `ExpenseTracker`. Its field
  `expenses` is reassigned by its methods. The file is a separate object,
  `ExpenseFile`, whose `rows` are `None` while the file does not exist. A
  second tracker opened on the same file stands for a restart of the
  program. `Valid()` says that loading the file now would give back the list
  in memory. Every method keeps it, and after `AddExpense` (when it succeeds)
  and `ClearExpenses` the file holds exactly the list.

Amounts are integer pence rather than Python floats. A record appended by
`add_expense` stores a number in the amount position. A record read back by
`load_expenses` stores text, because `csv.reader` returns strings. The
`Tracker` model keeps numbers throughout, which is the behaviour the program
evidently intends. The text level and what the code does with it are modelled
separately in `CsvRows` and reported under Findings.

## Model

| member | source | states |
|---|---|---|
| `Records.Lower` | expense_tracker.py:46 | the lowered string has the same length as the input and holds each character lowered, ASCII letters only |
| `Records.FilterByCategory` | expense_tracker.py:46 | the result holds exactly the records whose lowered category equals the lowered query, each as often as in the list, as an order-preserving subsequence of the list |
| `Records.FilterByDate` | expense_tracker.py:51 | the result holds exactly the records whose date string equals the query (no normalisation), each as often as in the list, as an order-preserving subsequence |
| `Records.FilterSpec` | expense_tracker.py:46 | a list comprehension keeps exactly the elements satisfying its condition, with their multiplicities, in their original order |
| `Records.FilterByCategoryIgnoresQueryCase` | expense_tracker.py:46 | filtering by a query and by its lowered form gives the same list |
| `Records.FilterByCategoryIgnoresRecordCase` | expense_tracker.py:46 | two stored records whose categories differ only in case are both selected or both left out |
| `Records.FilterByDateIdempotent` | expense_tracker.py:51 | filtering the result by the same date again returns it unchanged |
| `Aggregation.Aggregate` | expense_tracker.py:65-71 | the dictionary the loop builds; it has no contract of its own, and its meaning is stated by `Aggregation.AggregateSpec`, `Aggregation.AggregateConservesTotal`, `Aggregation.AggregateEmptyIff` and `Aggregation.LoopStep` |
| `Aggregation.KeyOrder` | expense_tracker.py:68-71 | the order in which the dictionary receives its keys; it has no contract of its own, and its meaning is stated by `Aggregation.KeyOrderSpec` and `Aggregation.LoopStep` |
| `Aggregation.AggregateSpec` | expense_tracker.py:65-71 | the dictionary's keys are exactly the distinct category strings present (case-sensitive), and each value is the sum of the amounts of exactly the records with that category string |
| `Aggregation.KeyOrderSpec` | expense_tracker.py:68-71 | the dictionary's key order lists every category present exactly once and nothing else |
| `Aggregation.AggregateConservesTotal` | expense_tracker.py:65-71 | the bucket values, summed in key order, equal the sum of all amounts |
| `Aggregation.AggregateEmptyIff` | expense_tracker.py:73 | the dictionary is empty exactly when the list is empty |
| `Aggregation.LoopStep` | expense_tracker.py:67-71 | one loop pass adds the record's amount to an existing bucket or opens a new bucket, last in key order |
| `Aggregation.AggregateFacts` | expense_tracker.py:65-82 | all the facts about the finished dictionary together: keys, values, key order, total, and when nothing is drawn |
| `Aggregation.CaseAsymmetry` | expense_tracker.py:68 | "Food" and "food" are one category to the filter but two buckets to the loop |
| `Tracker.ExpenseFile.constructor` | expense_tracker.py:9 | the file named by the tracker, holding the given rows, or no rows while it does not exist |
| `Tracker.ExpenseTracker.constructor` | expense_tracker.py:7-11 | a new tracker holds what the file holds, or nothing if there is no file |
| `Tracker.ExpenseTracker.LoadExpenses` | expense_tracker.py:13-20 | the list becomes the file's rows, or empty when the file is missing; the file is untouched |
| `Tracker.ExpenseTracker.SaveExpenses` | expense_tracker.py:22-26 | the file afterwards holds exactly the list |
| `Tracker.ExpenseTracker.AddExpense` | expense_tracker.py:28-31 | on a numeric amount the list grows by the new record at the end, with the earlier records unchanged, and the file equals the list; on a failed conversion neither the list nor the file changes |
| `Tracker.ExpenseTracker.ClearExpenses` | expense_tracker.py:84-87 | the list is empty and the file holds the empty list, whatever the state before |
| `Tracker.ExpenseTracker.FilterExpensesByCategory` | expense_tracker.py:44-47 | returns the category filter of the current list and changes nothing |
| `Tracker.ExpenseTracker.FilterExpensesByDate` | expense_tracker.py:49-52 | returns the date filter of the current list and changes nothing |
| `Tracker.ExpenseTracker.VisualizeExpenses` | expense_tracker.py:65-73 | the loop's dictionary and key order; keys are exactly the categories present, each bucket is its category's sum, the buckets add up to the total, and the dictionary is empty exactly when the list is |
| `Tracker.ReopenAfterAdd` | expense_tracker.py:7-31 | a tracker reopened on the file after an add holds the same list as the tracker that added |
| `Tracker.ClearTwice` | expense_tracker.py:84-87 | clearing twice leaves the same list and file as clearing once |
| `Tracker.FoodFacts` | expense_tracker.py:44-71 | for two "Food" records, the filter by "food" returns both, the date filter returns the first, and the totals are {"Food": 1500} |
| `Tracker.FoodScenario` | expense_tracker.py:28-71 | the same outcome through a tracker that starts with no file and adds both records |
| `CsvRows.ParseAmount` | expense_tracker.py:30 | the corrected loader's parser of the integer-pence text that `WriteRow` writes: it succeeds exactly on an optional minus sign followed by at least one digit, and gives a non-negative number when there is no minus; `CsvRows.ParseShowAmount` proves it inverts the written form |
| `CsvRows.ParseShowAmount` | expense_tracker.py:26 | the text written for an amount converts back to that amount |
| `CsvRows.ReadWriteRoundTrip` | expense_tracker.py:13-26 | a loader that converts the amount reads back exactly the saved records, in order |
| `CsvRows.WriteAll` | expense_tracker.py:22-26 | one written line per record, in list order, each holding the record's category, amount text and date |
| `CsvRows.ReadAllAsWritten` | expense_tracker.py:13-18 | every line read becomes a row of the same length, whatever that length, and every field comes back as text |
| `CsvRows.ReloadAsWritten` | expense_tracker.py:18 | the loader as written keeps category and date but returns the amount as its text |
| `CsvRows.PyAdd` | expense_tracker.py:69 | `+` succeeds exactly when both operands are numbers or both are strings, and a sum of numbers is a number |
| `CsvRows.AggregateRows` | expense_tracker.py:65-71 | when the loop finishes without raising, every row had at least two values and its first value is a key of the dictionary |
| `CsvRows.AggregateStoredRows` | expense_tracker.py:65-71 | on rows holding numbers, the loop with Python's `+` computes `Aggregate`, with the category texts as keys |
| `CsvRows.ReloadedAmountsConcatenate` | expense_tracker.py:18 | after a reload as written, two amounts of one category are joined as text instead of added |
| `CsvRows.ReloadedAndNewAmountsClash` | expense_tracker.py:69 | a reloaded text amount and a number added in the same session make `+=` raise TypeError |
| `CsvRows.ShortLineKeptThenRaises` | expense_tracker.py:18 | the loader as written keeps a one-field line as a one-value row, and the loop then raises IndexError on `expense[1]` |

## Findings

| source | as written | input that shows it | evidently intended | confidence | as-written member | corrected member |
|---|---|---|---|---|---|---|
| expense_tracker.py:18 | rows read back by `csv.reader` keep the amount as a string, so `categories[expense[0]] += expense[1]` at line 69 joins strings (or raises TypeError when a reloaded string meets a number added in the same session) | a file with rows `Food,10.0,2024-01-01` and `Food,5.0,2024-01-02`; restart, then visualize: the "Food" bucket holds `"10.05.0"` instead of 15.0 | the loader converts the amount back to a number, so a restart reproduces the same records and the same totals | high; not executed | `CsvRows.ReloadedAmountsConcatenate` | `CsvRows.ReadWriteRoundTrip` |

The `Tracker` model uses the corrected behaviour: the file holds records with
numeric amounts, and `LoadExpenses` gives them back unchanged. A store that
rewrites its file after every change and reloads it at start-up is meant to
give back the same records after a restart. The code delivers this only for category and date. The model
follows the code at the text level (`CsvRows`) and states the round trip only
for the corrected loader. The corrected loader also refuses a line that is not
three fields long or whose amount is not integer-pence text, where the loader as written
keeps every line as it is.

## Left out

- Plotting: the matplotlib pie chart (expense_tracker.py:74-80) is a foreign library call. `VisualizeExpenses` returns the dictionary and its key order instead.
- Console output and the menu: `view_expenses`, `display_filtered_expenses`, every `print`, and `main` with its `input` prompts and yes/no confirmation before clearing (expense_tracker.py:32-42, 54-61, 91-146). The filter methods return the list they would print.
- Date validation with `datetime.strptime` (expense_tracker.py:114) belongs to the menu. The store accepts any date string.
- The misleading "Invalid date format" message for a bad amount (expense_tracker.py:116-117) is part of the menu.
- Real file I/O: `open`, CSV quoting and I/O errors other than a missing file. The file is an object holding records; the text level is modelled only as far as `CsvRows` shows it.
- `Tracker.ExpenseTracker.AddExpense`: does not model `float(amount)` on arbitrary text. The caller passes the conversion's outcome (`None` when it raises). Float arithmetic and float formatting are replaced by integer pence, so rounding of float sums is not modelled.
- `Records.Lower` and `Records.FilterByCategory`: `Lower` lowers the ASCII letters only and keeps the length, whereas Python's `str.lower()` follows Unicode case mapping ("Ä" becomes "ä", and "İ" becomes two characters).
- `CsvRows.ParseAmount`: parses only the integer-pence text the model writes (an optional minus sign and digits). Python's `float` also accepts a decimal point ("12.50"), a leading '+', surrounding whitespace, exponents ("1e3"), underscores between digits ("1_000"), and "inf" and "nan"; on those the function gives `None` where `float` gives a number.
- `CsvRows.ParseShowAmount`: the written text of an amount is its integer decimal form, not Python's `str(float)` (for instance `1000`, not `10.0`).
- `Tracker.ExpenseTracker.LoadExpenses` and `Tracker.ReopenAfterAdd` model the corrected loader: the file holds records with numeric amounts and loading gives them back unchanged. What the loader as written returns (text amounts, lines of any length) is stated by `CsvRows.ReloadAsWritten` and `CsvRows.ShortLineKeptThenRaises`, and the filters and the loop are not applied to such rows inside `Tracker`.
- Concurrent use of one file by two trackers is undefined in the program and is not modelled. `Valid()` assumes that nothing else writes the file.
