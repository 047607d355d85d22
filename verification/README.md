# Marketing budget vs. expense tracker — data-shaping core

This project models, in Dafny, the pure logic of the budget tracker's single
script `App.py`: the part between the entry form and the charts.

- **Schema.** The two fixed, ordered category lists: 5 budget categories and 12
  expense categories (`Categories`).
- **Saving a period.** The period key `str(year) + "_" + month` (`Decimal`,
  `Period.PeriodKey`), and the `budgets` / `expenses` mappings built by a dict
  comprehension over the category lists (`OrderedMap.FromKeys`, `Period.Save`).
- **Metrics of a loaded period.** Total budget, total expense and the signed
  remaining budget (`Aggregation`).
- **Flow diagram.** The four parallel arrays handed to the Sankey renderer
  (`Sankey.Build`). The budget names come first, then the synthetic
  `"Total budget"` node, then the expense names. Each budget links into the
  total node, and the total node links out to each expense. An expense link's
  target is found with Python's `list.index`, so it is the first label equal to
  the expense's name.

An ordered Python `dict` is modelled as `seq<(string, int)>`, because the
chart's node indices depend on key order. `Put` has Python's assignment
semantics: an existing key keeps its slot, and a new key is appended.

Module layout:

| file | module | models |
|---|---|---|
| wrappers.dfy | `Wrappers` | an `Option` for "not present" |
| seqs.dfy | `Seqs` | `list.index`, `range`, `[x] * n`, distinctness |
| ordered_map.dfy | `OrderedMap` | ordered dicts: keys, values, lookup, assignment, comprehension |
| aggregation.dfy | `Aggregation` | `sum(...)` and the three metrics |
| sankey.dfy | `Sankey` | the label/source/target/value arrays |
| categories.dfy | `Categories` | the fixed category lists |
| decimal.dfy | `Decimal` | `str(int)` and its inverse |
| period.dfy | `Period` | the period key, the saved record, and the chart of a saved record |

The list expressions of the chart code map onto small helpers:
`list(m.keys())` and `list(m.values())` (App.py:104 and 107) are
`OrderedMap.Keys` and `OrderedMap.Values`, `list(range(n))` (App.py:105) is
`Seqs.Range`, and `[x] * n` (App.py:105-106) is `Seqs.Repeat`. They carry no
contract of their own: what they produce is stated element by element in the
contract of `Sankey.Build`.

The renderer's `label` array is the field `labels` of `Sankey.Chart`, because
`label` is a reserved word in Dafny.

## Model

| member | source | states |
|---|---|---|
| `Seqs.IndexOf` | App.py:106 | `label.index(name)` returns the position of the first label equal to `name`: that label equals `name`, and no earlier one does |
| `Seqs.IndexOfDistinct` | App.py:106 | in a label list without repetitions, `index` of the k-th label is k |
| `OrderedMap.Put` | App.py:75-76 | dict assignment keeps an existing key in its slot and appends a new key at the end; every entry is either the new pair or an old entry; distinct keys stay distinct |
| `OrderedMap.PutLookup` | App.py:75-76 | after `m[k] = v`, reading `k` gives `v` and every other key reads as before |
| `OrderedMap.FromKeys` | App.py:75-76 | the comprehension `{c: state[c] for c in cats}` has distinct keys, exactly the names in `cats`, and each name holds its entered amount |
| `OrderedMap.FromDistinctKeys` | App.py:75-76 | for a category list without repetitions, the comprehension lists exactly those categories in list order, one entry each, paired with the entered amounts |
| `Aggregation.Sum` | App.py:93-94 | the head-first recursion used in the proofs computes what Python's `sum` computes, the left-to-right accumulation `SumLeft` |
| `Aggregation.SumLeftCons` | App.py:93-94 | Python's left-to-right accumulation of `[x] + t` is `x` plus the accumulation of `t` |
| `Aggregation.SumAppend` | App.py:93-94 | the sum of two concatenated amount lists is the sum of their sums |
| `Aggregation.SumPermutation` | App.py:93-94 | `sum(m.values())` does not depend on the order of the amounts |
| `Aggregation.SumInOrder` | App.py:93-94 | a single pass over the amounts, accumulating from 0 in list order, returns `SumLeft` of the amounts |
| `Aggregation.Aggregate` | App.py:93-95 | the total budget is Python's left-to-right `sum` of the budget amounts in key order, the total expense likewise for the expenses, the remaining budget is their signed difference, and it is negative exactly when expenses exceed the budget (overspend) |
| `Aggregation.AggregateBounds` | App.py:93-95 | with the non-negative amounts the form accepts, both totals are non-negative and bound each of their amounts, and the remaining budget lies between minus the total expense and the total budget |
| `Aggregation.AggregateIgnoresOrder` | App.py:93-95 | the three metrics depend only on the multisets of amounts, not on names or entry order |
| `Sankey.Build` | App.py:104-107 | `label` is the budget names, then "Total budget" at index B, then the expense names (length B+1+E). There are B+E links, and every endpoint is a valid node index. Budget link i goes from node i to node B. Every expense link leaves node B and targets the first label equal to its name, at or before its own node B+1+j. `value` is the budget amounts, then the expense amounts, with zeros kept |
| `Sankey.ExpenseTargetOwnNode` | App.py:106 | expense j's link targets its own node B+1+j if and only if no earlier label has the same name |
| `Sankey.DistinctLabelsTargets` | App.py:104-106 | when all labels differ, the link at position i past the budget links targets node i+1, i.e. expense j targets B+1+j |
| `Sankey.ChartSums` | App.py:107 | the first B values sum to the total budget and the last E to the total expense (lines 93-94); their difference is the remaining budget (line 95) |
| `Sankey.BuildRoundTrip` | App.py:104-107 | the arrays lose nothing: both mappings, with key order and amounts, are read back from `label` and `value` |
| `Sankey.ExampleTwoByTwo` | App.py:104-107 | budgets A:100, B:200 and expenses X:50, Y:80 give labels [A, B, Total budget, X, Y], source [0,1,2,2], target [2,2,3,4], value [100,200,50,80] |
| `Sankey.ExampleNoExpenses` | App.py:104-107 | budgets A:10 and no expenses give labels [A, Total budget], source [0], target [1], value [10] |
| `Categories.BudgetCategoriesDistinct` | App.py:12 | the budget schema has 5 categories, none repeated |
| `Categories.ExpenseCategoriesDistinct` | App.py:13 | the expense schema has 12 categories, none repeated |
| `Period.FixedLabelsDistinct` | App.py:12-13 | the 18 chart node names (5 budgets, "Total budget", 12 expenses) are pairwise different |
| `Decimal.NatToText` | App.py:74 | `str(n)` of a natural number is non-empty, all digits, without a leading zero, and starts with a non-zero digit when n > 0 |
| `Decimal.IntToText` | App.py:74 | `str(year)` is canonical integer text (an optional '-', then digits with no leading zero, never "-0"), reads back as `year`, and never contains '_' |
| `Decimal.NatTextCanonical` | App.py:74 | every canonical digit string is `str` of its own value, so `str(n)` is the only canonical spelling of n |
| `Decimal.IntTextCanonical` | App.py:74 | every canonical integer text is `str` of the value it reads as, so together with `IntToText` the text of `str(year)` is determined uniquely |
| `Period.SplitJoined` | App.py:74 | `str(year)` holds no '_', so splitting `str(year) + "_" + month` at its first '_' gives back the year and the month name |
| `Period.PeriodKey` | App.py:74 | the period key determines its period: splitting it gives back the year and the month name |
| `Period.SplitKeyExact` | App.py:74 | every text that splits into a (year, month) is exactly that period's key, so the key is the year's decimal text, '_', then the month name, and no zero-padded variant splits |
| `Period.KeyInjective` | App.py:74 | two different (year, month) periods never get the same key, so saving one never overwrites another |
| `Period.Save` | App.py:74-77 | the saved record carries the period key and the comment, and both mappings have distinct keys |
| `Period.SavedRecordShape` | App.py:75-76 | the saved `budgets` and `expenses` have exactly the schema's category names as keys, in declaration order, one entry per category, each with its entered amount |
| `Period.SavedAmountsNonNegative` | App.py:75-76 | the form's non-negative amounts (`min_value=0`, lines 64 and 67) are saved non-negative |
| `Period.ChartOfCategories` | App.py:104-106 | for mappings built from category lists whose names, together with "Total budget", never repeat, the labels are those names in order, and every expense link targets its own node |
| `Period.SavedRecordChart` | App.py:104-106 | the chart of any saved record has the 5 budget categories, "Total budget" at index 5 and the 12 expense categories as nodes. Budget i links into node 5, and expense link i (5 ≤ i < 17) targets node i+1 |

## Left out

- `database.py` is not part of this model. Its functions are one-line wrappers over a hosted key-value store. A loaded record is an input to the pure functions here, and the store's round-trip and overwrite behaviour is not modelled. `Period.SavedRecordChart` applies `Sankey.Build` directly to `Period.Save`'s record, so it assumes the store returns the record unchanged, nested key order included.
- `get_all_periods` (App.py:29-32) only lists the keys the store returns, so it depends on the store.
- The case where `get_period` returns nothing for an unknown key (App.py:87-90) is not modelled: it belongs to the store's behaviour.
- All Streamlit UI is left out as presentation: page setup, the menu, the forms, the widgets and the metric display. Session state is a `map<string, int>` parameter that holds one amount per category. `Period.Save` requires that, because the form renders one input per category before submitting.
- The Plotly figure and the pandas bar chart (App.py:110-124) are foreign rendering libraries. Only the arrays given to them are modelled, and the bar chart only reuses `budgets`.
- The year choices come from today's date and the month names from `calendar` (App.py:24-25). Both are clock and library data, so year and month are plain inputs to `Period.PeriodKey`.
- `Seqs.IndexOf` requires its argument to be present, while Python's `list.index` raises when it is absent. That error cannot happen in `Sankey.Build`, because every expense name is in `label` by construction.
- `Sankey.Build`: an expense link targets the first label with its name (`list.index`), which is its own node B+1+j only when no earlier label shares the name; `Sankey.ExpenseTargetOwnNode` states when, and `Period.SavedRecordChart` shows it for the fixed schema.
- `"Total budget"` is always a node, even when both mappings are empty.
