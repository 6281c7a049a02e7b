# Transaction arithmetic and selection of a personal-finance report utility

This project models, in Dafny, the logic of a small Python utility that reads
a bank-card statement and derives three views from it:

- the dashboard ("Главная", `src/views.py`): a greeting chosen by the hour,
  the card of the statement, the total of all operations, the cashback
  (floor of the total divided by 100), the five operations with the
  largest amounts (after the caller's list is sorted in place), and the
  record that brings these together;
- the category report (`src/reports.py`): the operations of one category
  in the 90 days up to a reference moment, their amounts negated, keyed by
  row position, and their total; nothing at all when no row qualifies;
- the keyword search (`filter_state`), whose behaviour is pinned down by
  the fixture and assertions in `src/services.py`.

A statement row is `Records.Transaction(date, amount, category,
description, card)`. Dates are integer seconds since the epoch and amounts
integers in whole rubles; a category, description or card cell that is
absent is `None`. Python's `None` for a missing list is `Option.None` (or a
null array where the list is sorted in place).

Modules: `Wrappers` (Option), `Records` (the row and the sum of amounts),
`Ranking` (the stable descending sort: a specification on sequences and an
in-place insertion sort on an array proved equal to it), `Views`, `Reports`,
`Services`.

Behaviour of the code worth knowing, which the model keeps:

- `search_category` on rows that carry the date, amount and category
  columns, none of which qualifies, returns `None`, not a total of 0
  (src/reports.py:25-33). Input without those columns (an empty list, for
  one) raises in the source and is not modelled; see "## Left out".
- Both window ends are inclusive. With rows "еда" of 2022-01-01,
  "транспорт" of 2022-02-01 and "еда" of 2022-03-01, the query "еда" with
  reference 2022-04-10 selects only the March row (the January row is 99
  days earlier, the February row is of another category) and gives -300;
  with reference 2022-01-10 it gives -100, as tests/test_reports.py:21
  expects. A row exactly 90 days before the reference is selected; one a
  second earlier is not.
- `sum_amount_of_card` sums every operation; it neither filters by card nor
  by date, and keeps the sign (spend is negative) (src/views.py:53-58).
- `top_5_transactions([])` returns `[]`; only a missing list gives `None`
  (src/views.py:74-98).
- The dashboard holds at most one card: `create_operations` adds a single
  entry (src/views.py:131-133).

## Model

| member | source | states |
|---|---|---|
| `Records.SumAmountsPermutation` | src/views.py:55-56 | the card total depends only on which operations there are, not on their order (so sorting the list in place does not change it) |
| `Ranking.SortedByAmount` | src/views.py:79 | defines the order `data.sort(key=amount, reverse=True)` produces: each record, taken left to right, is placed after every earlier record of at least its amount |
| `Ranking.SortedByAmountPermutation` | src/views.py:79 | the sort only reorders: same records with the same multiplicities, same length |
| `Ranking.SortedByAmountNonIncreasing` | src/views.py:79 | after the sort, amounts never increase along the list |
| `Ranking.SortedByAmountStable` | src/views.py:79 | for every amount, the records of that amount appear in their original relative order (Python's sort stays stable with `reverse=True`) |
| `Ranking.SortByAmount` | src/views.py:79 | the in-place sort leaves the array equal to the stable descending sort of its old contents |
| `Views.SendGreeting` | src/views.py:26-33 | the result is one of the four greetings |
| `Views.GreetingPartition` | src/views.py:26-33 | for hours 0..23: morning exactly for 6..11, day exactly for 12..17, evening exactly for 18..23, night exactly for 0..5 (hour 5 included) |
| `Views.GreetingExamples` | tests/test_views.py:68-78 | hours 8, 13, 21 and 0 give morning, day, evening and night |
| `Views.CardInfo` | src/views.py:40-46 | no list gives no card; an empty list gives no card; otherwise the card of the first operation, which may itself be absent |
| `Views.SumAmountOfCard` | src/views.py:49-58 | with a truthy card and a non-empty list, the total of the amounts of all operations; the card is not a filter |
| `Views.TotalCashback` | src/views.py:61-67 | floor division: c*100 <= sum < c*100 + 100, negative sums included |
| `Views.CashbackExamples` | tests/test_views.py:33-35 | 10000 gives 100, 500 gives 5 (and -150 gives -2) |
| `Views.Truthy` | src/views.py:54 | defines the truthiness test `if card:`: a card is present and not the empty string |
| `Views.CashbackOfTwoOperations` | src/views.py:53-65 | operations of -50 and -86 rubles give a card total of -136 and a cashback of -2 |
| `Views.Summarize` | src/views.py:85-90 | defines the summary entry: the operation's date, amount, category and description |
| `Views.FirstSummaries` | src/views.py:81-95 | the result has min(5, n) entries, entry k summarising operation k (date, amount, category, description) |
| `Views.Top5Transactions` | src/views.py:70-98 | no result exactly when there is no list; otherwise the list is left stably sorted by amount, largest first, as a permutation of its old contents, and the result summarises its first min(5, n) entries in order |
| `Views.CreateOperations` | src/views.py:127-134 | greeting and top list passed through; one card entry (last digits, total, cashback) when a card is given, none otherwise |
| `Reports.InWindow` | src/reports.py:21-22 | defines the window: reference - 90 days <= date <= reference, both ends inclusive |
| `Reports.Selected` | src/reports.py:21-23 | defines the mask: inside the window and of exactly the given category; an absent category never matches |
| `Reports.NegatedSelection` | src/reports.py:20-26 | defines the `amount` map: the negated amount of each masked row, keyed by row position |
| `Reports.SeriesSum` | src/reports.py:28 | defines `.sum()` of the series: its values added in position order |
| `Reports.SelectRows` | src/reports.py:20-24 | every selected row is an input row inside the window and of the category, every such input row is selected, each with its multiplicity in the input; the selection is empty exactly when no row qualifies |
| `Reports.SeriesSumIsNegatedSum` | src/reports.py:20-28 | summing the negated series gives the negation of the sum of the selected rows' amounts |
| `Reports.SearchCategory` | src/reports.py:12-33 | a report exactly when some row lies in [reference - 90 days, reference] with this exact category; it echoes the category, lists position i exactly for the qualifying rows with value -amount, and its total is minus the sum of the selected amounts |
| `Reports.TotalIsSumOfAmounts` | src/reports.py:26-28 | the total equals the sum of the values listed under `amount` (a sum over the map's keys in any order, defined independently of the series sum), and those keys are row positions |
| `Reports.AppendUnselected` | src/reports.py:20-24 | a row outside the window or of another category changes nothing in the result |
| `Reports.AppendSelected` | src/reports.py:20-28 | a qualifying row always yields a report, is listed at its position with its negated amount, and lowers the total by its amount |
| `Reports.ExampleSingleRow` | tests/test_reports.py:19-21 | one "еда" row of 100 on 2022-01-01 with reference 2022-01-10 gives category "еда" and total -100 |
| `Reports.ExampleWindowEnds` | src/reports.py:21-22 | a row exactly at reference - 90 days and a row exactly at the reference are selected; a row one second before the lower end or after the upper end gives no report |
| `Reports.ExampleThreeRows` | src/reports.py:20-25 | with both window ends inclusive: reference 2022-04-10 gives -300, reference 2022-01-10 gives -100, an absent category gives no report |
| `Services.FilterState` | src/services.py:46-61 | an empty query finds nothing; every kept record is an input record, unchanged, holding the query in its category or description; every such record is kept; no record is kept more often than it occurs in the input |
| `Services.EmptyQueryEverywhere` | src/services.py:57-58 | the empty query occurs in every text, so the empty-query result must be a separate rule |
| `Services.FilterTransfers` | src/services.py:47-50 | "Переводы" selects exactly one fixture record, category "Переводы", description "Азер Г." |
| `Services.FilterNorthWest` | src/services.py:52-55 | "Северо-Западная" selects exactly one fixture record, category "Местный транспорт", its description holding the query |
| `Services.FilterEmptyQuery` | src/services.py:57-58 | the empty query selects nothing from the fixture |
| `Services.FilterNoMatch` | src/services.py:60-61 | "Несуществующий" selects nothing from the fixture |

## Left out

- Reading the hour: `send_greeting` parses "DD.MM.YYYY HH:MM" or reads the clock; the model takes the hour as an integer.
- Date parsing and the "today" default of `search_category` (src/reports.py:16-19): the reference moment and the row dates are integer timestamps.
- Floating point: amounts are whole rubles, so kopecks are not represented; `round(amount, 2)` and `round(total_sum, 2)` are then the identity.
- Views.SumAmountOfCard: drops the source's `round(total)` to whole rubles, which the integer ruble amounts make unnecessary; a statement with fractional amounts is not represented.
- Views.SumAmountOfCard and Views.CreateOperations: an empty card cell read from a spreadsheet is the float NaN, which is truthy and is not `None`; the source then sums every row and lists a card entry, while the model treats every empty card cell as `None` (no card, so the requires of `SumAmountOfCard` excludes it and `CreateOperations` lists no card).
- `Views.SumAmountOfCard`: the exception raised when the card is falsy or the list is empty (the loop variable is unbound at the log line) is a requires clause rather than an error result.
- `Views.CardInfo`: its result cannot tell "no data" from "first operation has no card", as in the source.
- `currency_rate`, `stock_currency` and the rate and price lists of `create_operations`: network lookups.
- `read_files`, `write_data`, `setup_logging`, the `reports.json` write and every log call: file I/O and logging.
- `views_`, `reports_` and `main`: interactive prompts and printing.
- The implementation of `filter_state` is not part of this model; `Services.FilterState` has only the behaviour its test asserts (src/services.py:46-61), with no case folding and no type checks. An absent category or description never matches.
- Reports.SearchCategory: input without the date, amount or category column (an empty list becomes a frame with no columns; a list whose rows have no "Категория" key) raises KeyError at src/reports.py:19 or 23 in the source; every model row carries all three fields, so the model returns `None` there instead.
- The `amount` keys of the report are row positions; a data frame with a non-default index would key by that index instead.
- The date-filtered card sum of the second `test_total_sum_amount` (tests/test_views.py:85-86) has no counterpart in the code.
