# IK dashboard: chart assembly and time axis, in Dafny

This project models the data-handling core of the IK business-survey
dashboard (`app.py`), a Streamlit page with three dashboards: Konjunktur,
Arbeitsmarkt and Rohstoffe. It covers three pieces:

- **The chart** (`create_dashboard_plot`, module `Chart`). Selected
  indicators are split into level indicators and index indicators. An index
  indicator is one whose name contains `Index_` anywhere, not only as a
  prefix. Level traces go on the left axis `y1`; index traces go on the
  right axis `y2`. Each trace takes the palette colour of its position.
  - The left axis gets a title only when a level indicator is selected.
  - A secondary axis, titled "Index-Wert", exists only for Konjunktur and
    Arbeitsmarkt and only when an index indicator is selected.
  - An empty selection gives the prompt "Bitte Indikatoren für … auswählen".
  - A selected indicator with no column in the table is the `KeyError` case:
    the `Failed` output.
- **The row filter** (module `TimeAxis`). Only rows whose `Jahr` is a
  selected year and whose `Monat` is a selected quarter are kept.
- **The time axis** (module `TimeAxis`). Each quarter label is mapped
  through `quartal_order` to a sort key. The rows are sorted stably by
  (year, key). Each row then gets the label `"<Jahr>-<Monat>"`.

Other modules:
- `Indicators` holds the classification by the marker.
- `Strings` models Python's `sub in s` and `str(int)`.
- `Seqs` holds the order-preserving filter used for list comprehensions and
  pandas masks.
- `Dashboards` holds the fixed option lists, the defaults and the
  three-selection cap of the widgets.

A table row is an opaque record: a year, a quarter label and a map from
column name to cell. A cell is `Missing` or a number.

The operations that change state step by step are methods with loop
invariants:
- `AddTraces` (one of the two trace loops);
- `SortByTime` (a stable insertion sort standing in for `sort_values`);
- `CreateDashboardPlot` and `PrepareTimeAxis`, which call them.

Each method is specified by functions whose properties are lemmas:
- `TraceRun` and `Assembled` for the traces;
- `FilterRows`, `SortedByTime` and `WithKey` for the table.

## Model

| member | source | states |
|---|---|---|
| Strings.ContainsIff | app.py:12-13 | The left-to-right substring scan that models Python's `in` finds the substring exactly when it occurs at some offset. |
| Strings.FirstCharAbsent | app.py:12-13 | A string lacking the first character of a non-empty pattern does not contain the pattern. |
| Strings.NatToStringDigits | app.py:231 | `str(n)` of a natural number is non-empty and all digits, with at least two digits from 10 on. |
| Strings.NatToStringInjective | app.py:231 | Distinct natural numbers have distinct decimal forms. |
| Strings.IntToStringSign | app.py:231 | `str(n)` starts with '-' exactly for negative `n`, and every later character is a digit. |
| Strings.IntToStringInjective | app.py:231 | Distinct integers have distinct `str` forms. |
| Seqs.FilterCount | app.py:12-13 | A comprehension with an `if` keeps every occurrence of a wanted element and none of an unwanted one. |
| Seqs.FilterMembership | app.py:12-13 | An element is in the filtered list exactly when it was in the input and satisfies the condition. |
| Seqs.FilterSatisfies | app.py:222-225 | Every kept element satisfies the condition. |
| Seqs.FilterSubsequence | app.py:222-225 | Filtering keeps the input's relative order. |
| Seqs.FilterAppend | app.py:230 | Filtering distributes over concatenation. |
| Seqs.FilterNone | app.py:12 | A condition no element meets gives the empty list. |
| Seqs.FilterAll | app.py:13 | A condition every element meets gives the input unchanged. |
| Indicators.IsIndexIff | app.py:12-13 | A name is an index indicator exactly when `Index_` occurs at some offset in it. |
| Indicators.PrefixIsIndex | app.py:13 | A name starting with `Index_` is an index indicator. |
| Indicators.NoCapitalIIsLevel | app.py:12 | A name without the letter `I` is a level indicator. |
| Indicators.MarkerInsideName | app.py:12-13 | A name with `Index_` in the middle, not as a prefix, still counts as an index indicator. |
| Indicators.PartitionIsExact | app.py:12-13 | `selected_normal` and `selected_index` split the selection exactly. Their multisets add up to the selection's and share no name. Their sizes add up. A name is in each one exactly when it is selected and of that kind. Each keeps the selection order. |
| Indicators.PartitionCount | app.py:12-13 | The two lists' lengths add up to the selection's length. |
| Indicators.PartitionMembers | app.py:12-13 | A name is a level (an index) entry exactly when it is selected and is not (is) an index indicator. |
| Indicators.LevelsNonEmpty | app.py:12 | `selected_normal` is non-empty exactly when some selected name is not an index indicator. |
| Indicators.IndicesNonEmpty | app.py:13 | `selected_index` is non-empty exactly when some selected name is an index indicator. |
| Indicators.PartitionClasses | app.py:12-13 | Every entry of `selected_normal` is a level indicator and every entry of `selected_index` is an index indicator. |
| TimeAxis.FilterRowsExact | app.py:222-225 | The mask keeps exactly the rows whose year and quarter are both selected, each as often as it occurs, in spreadsheet order. |
| TimeAxis.FilteredQuartersMapped | app.py:217-228 | When the quarters chosen come from Q1-Q4, every kept row's quarter is a key of `quartal_order`. |
| TimeAxis.InsertSorted | app.py:230 | Putting a row between the rows not after it and those strictly after it keeps the (Jahr, Quartal_Sortierung) order. |
| TimeAxis.InsertStable | app.py:230 | Putting a row before rows that sort strictly after it appends the row to the rows of its own key and leaves the other keys' rows alone. |
| TimeAxis.SortByTime | app.py:230 | The result is ordered by (Jahr, Quartal_Sortierung), is a permutation of the input, and keeps the input order among the rows of each key. |
| TimeAxis.LabelDash | app.py:231 | In a `Zeitachse` label, the first '-' after a possible sign is the one right after the year's digits. |
| TimeAxis.LabelInjective | app.py:231 | Distinct (year, quarter) pairs get distinct `Zeitachse` labels. |
| TimeAxis.QuarterOrderInjective | app.py:227 | `quartal_order` maps distinct quarters to distinct keys. |
| TimeAxis.WithKeyAtTime | app.py:228-230 | For consistent keys, selecting by (year, quarter key) selects the same rows as selecting by (year, quarter label). |
| TimeAxis.UnkeyedPermutation | app.py:228-230 | Dropping the sort key from two permutations of each other leaves two permutations of each other. |
| TimeAxis.RemoveMatching | app.py:230 | Removing one matching row from two permutations of each other leaves two permutations of each other. |
| TimeAxis.UnkeyedSplit | app.py:228-230 | The projected rows of a sequence split around any one row. |
| TimeAxis.PrepareTimeAxis | app.py:222-231 | The table keeps its columns. It holds exactly the filtered rows (as a multiset), each of a selected year and quarter, with its `quartal_order` key and its `"<Jahr>-<Monat>"` label. The rows are chronological, and rows of one year and quarter keep their spreadsheet order. |
| Chart.TraceRunStep | app.py:16-35 | One more loop iteration appends exactly one trace, for the next name, in the next colour. |
| Chart.MissingLevel | app.py:16-24 | A missing column met in the level loop is the first missing column in trace order, and it is a selected name. |
| Chart.MissingIndex | app.py:27-35 | A missing column met in the index loop, after every level column was found, is the first missing column in trace order, and it is a selected name. |
| Chart.NoneMissing | app.py:16-35 | When both loops find every column, every selected name is a column. |
| Chart.AddTraces | app.py:16-35 | The loop finishes exactly when every name is a column, and then it has appended the run of traces for `names` on the given axis, in colours `colors[k + offset]`. Otherwise it stops at the first name that is not a column. |
| Chart.CreateDashboardPlot | app.py:6-115 | An empty selection, and only that, gives the prompt "Bitte Indikatoren für {name} auswählen". A selected name with no column gives the `KeyError` for the first such name in drawing order. Otherwise the figure holds the level traces then the index traces, and the layout follows the policy of lines 38-63. |
| Chart.AssembledTraces | app.py:9-35 | There is one trace per selected indicator, with the same multiset of names, levels first and then indices. A trace is on 'y2' exactly when it is an index indicator. The i-th trace has colour `colors[i]`, so no two share a colour. Every trace is drawn over the whole `Zeitachse` with one value per row. |
| Chart.AssembledInOrder | app.py:16-35 | The i-th trace is the trace of the i-th name in drawing order, on 'y1' for levels and 'y2' for indices, in the i-th colour. |
| Chart.LeftAxisPolicy | app.py:44-45 | The left axis is titled "Wert (Nicht-Index Indikatoren)" exactly when some level indicator is selected, and untitled exactly when every selected name is an index indicator. |
| Chart.SecondaryAxisPolicy | app.py:53-63 | A secondary axis exists exactly for Konjunktur or Arbeitsmarkt with some index indicator selected. It is then titled "Index-Wert" and placed on the right, overlaying 'y'. |
| Chart.RohstoffeHasNoSecondaryAxis | app.py:63 | The Rohstoffe chart never has a secondary axis. |
| Dashboards.CapFitsPalette | app.py:253-257 | The widget cap `max_selections=3` equals the palette size, so `colors[i]` stays in range. Each dashboard's default is a valid selection of its options. |
| Dashboards.RohstoffeOptionsAreIndices | app.py:199-201 | Every Rohstoffe option is an index indicator. |
| Dashboards.RohstoffeChartHasNoAxisTitles | app.py:306-312 | Every selection the Rohstoffe widget allows is all index indicators. Its chart has no left-axis title and no secondary axis, so its 'y2' traces have no laid-out `yaxis2`. |
| Dashboards.KonjunkturDefaultClasses | app.py:256 | In the Konjunktur default, "Umsatz" and "Auslandsumsatz" are level indicators and "Index_Exporte" is an index indicator. |
| Dashboards.KonjunkturDefaultPartition | app.py:253-259 | The Konjunktur default splits into the levels ["Umsatz", "Auslandsumsatz"] and the indices ["Index_Exporte"]. |
| Dashboards.KonjunkturDefaultChart | app.py:253-259 | The default Konjunktur chart has both axis titles and a right axis overlaying 'y'. |
| Dashboards.ArbeitsmarktDefaultClasses | app.py:281 | In the Arbeitsmarkt default, "Beschäftigte" is a level indicator and the other two are index indicators. |
| Dashboards.ArbeitsmarktDefaultPartition | app.py:278-284 | The Arbeitsmarkt default splits into the levels ["Beschäftigte"] and the two index indicators, in order. |
| Dashboards.ArbeitsmarktDefaultChart | app.py:278-284 | The default Arbeitsmarkt chart has both axis titles and a right axis overlaying 'y'. |
| Dashboards.SplitThree | app.py:12-13 | The partition of a three-entry selection, entry by entry. |

## Left out

- The page around the core: page setup, styling, headers, expanders, the
  reading examples inside `create_dashboard_plot` (app.py:72-107) and the
  explanatory markdown (app.py:117-186, 234-330). These are static display
  text.
- Reading the spreadsheet (app.py:189-190) is I/O. The table is an input of
  the model. The catch-all `except` that shows the error (app.py:332-333)
  is out of scope too. Only the `KeyError` of a missing indicator column is
  modelled, as the `Failed` output of `CreateDashboardPlot`.
- Other `KeyError`s are out of scope: a table without a `Jahr` or `Monat`
  column cannot be built in the model, because every row has a year and a
  quarter.
- Plotly and Streamlit rendering: `st.plotly_chart`, `st.info` (modelled
  as the `Prompt` output), and the purely visual layout settings. These
  are `mode`, `tickangle`, fonts and their colours, `type`, `tickformat`,
  `separatethousands`, `rangemode`, height, template, legend and margins.
- The widgets themselves: the year and quarter multiselects are the inputs
  `selectedYears` and `selectedQuarters`. The indicator multiselects appear
  only as the constraint `Dashboards.Selectable` (options and cap).
- Cell values are opaque: no arithmetic is done on them, and pandas NaN is
  the `Missing` cell.
- Chart.CreateDashboardPlot: the `IndexError` that `colors[i]` would raise
  for more than three indicators is a precondition
  (`|selected| <= |Palette|`). It is not an error result, because the
  widget cap (`Dashboards.CapFitsPalette`) makes it unreachable from the
  page.
- TimeAxis.PrepareTimeAxis: it requires that the chosen quarters are keys
  of `quartal_order`. In pandas, `map` gives NaN for an unmapped label
  rather than raising. The filter with the quarter widget's fixed options
  (Q1-Q4) makes that unreachable, so the NaN sort position is not modelled.
- For sorting by two columns, pandas uses a stable lexicographic sort.
  `TimeAxis.SortByTime` models it as a stable insertion sort on a sequence,
  not as pandas' index-based reordering. Only the resulting order is
  modelled.
- The warning pandas raises when a column is assigned into a filtered
  slice (app.py:228, 231) changes no value and is not modelled.
- The figure is built as a value: `fig.add_trace` becomes appending to a
  sequence of traces. No `go.Figure` object identity is modelled.

## Notes on the source

- In the layout dictionary (app.py:54), `title="Index-Wert" if
  selected_index else None` can never take its `None` branch. The whole
  `yaxis2` dictionary exists only when `selected_index` is non-empty
  (app.py:63). `Chart.SecondaryAxisPolicy` states that the secondary axis,
  when present, is always titled.
- The Rohstoffe dashboard offers only index indicators, so its traces all
  name the axis 'y2'. Yet no `yaxis2` is laid out for that dashboard:
  `Dashboards.RohstoffeChartHasNoAxisTitles` states this situation.
