# Blood-donor association dashboard: chart callback model

This project models the logic of a small Dash dashboard. The dashboard shows how
blood-donor characteristics (predictors) are associated with changes in patients'
lab values (labels), using a precomputed regression results table and a p-value
table. The user picks a label, a predictor and, in the later variant, an
"adjusted for donor hemoglobin" checkbox. The chart callback `update_graph` then
filters the tables and builds a figure. Its layout depends on which fixed class
the predictor belongs to.

Both variants of the callback are modelled as pure functions. Each takes the
tables, the selection and, where needed, the display-name maps and the p-value
formatter, and returns a `ChartSpec` value or the Python exception it raises:

- `src/app_boot.py` (module `AppBoot`) is the later variant. It filters on label
  and predictor, then on the adjustment flag. If no rows or no p-values match, it
  returns the "Combination not possible" placeholder. It has three render classes:
  error bars with `dtick=1`, error bars with explicit tick values 0..900 for
  `timesincecat`, and a confidence band for every other predictor. Its dropdown
  options are ordered by display name.
- `src/app.py` (module `App`) is the earlier variant. It has no adjustment filter,
  no empty guard, two render classes (`timesincecat` is in the `dtick=1` class),
  a fixed 600×800 size, and dropdown options in table order.

Shared pieces:

- `Seqs`: mask selection, `.iloc[0]`, `unique()`, `range`.
- `Tables`: the rows and the key predicates.
- `Charts`: the figure datatypes, the traces and the placeholder.
- `Dropdown`: building the option lists.
- `Ordering`: Python's `str` order.

Three behaviours of the code are easy to misread, and the model keeps them as written:

- The plotted rows keep their table order. They are not sorted by predictor value
  (`AppBoot.SelectionIsNotSorted`).
- The p-value lookup ignores the adjustment state.
- Nothing checks `lower <= predicted <= upper`. The model instead proves that the
  error bars are non-negative, and the band encloses the line, exactly when that
  holds.

## Model

| member | source | states |
|---|---|---|
| Seqs.Filter | src/app_boot.py:62 | a mask selection holds exactly the elements of the table that satisfy the mask, and is no longer than the table |
| Seqs.FilterCount | src/app_boot.py:62-67 | a selected row occurs as often as in the table; an unselected row does not occur |
| Seqs.FilterConcat | src/app_boot.py:62 | selecting from a concatenation is concatenating the selections (table order is kept) |
| Seqs.FilterFilter | src/app_boot.py:62-67 | applying two masks in turn equals applying their conjunction once |
| Seqs.First | src/app_boot.py:92 | `.iloc[0]` of a selection is a selected element, and is absent exactly when nothing is selected |
| Seqs.FirstIsEarliest | src/app_boot.py:92-93 | `.iloc[0]` picks the element at the lowest matching index |
| Seqs.Unique | src/app.py:23 | `unique()` keeps every value of the column, adds none, and has no repeats |
| Seqs.UniqueFirstOccurrenceOrder | src/app.py:23 | `unique()` lists values in the order of their first appearance |
| Seqs.UniqueKeepsOrder | src/app_boot.py:27 | `unique()` of a sorted column is still sorted |
| Seqs.RangeAt | src/app_boot.py:161 | the k-th value of `range(start, stop, step)` is `start + k*step` and is below `stop` |
| Seqs.RangeLength | src/app_boot.py:161 | `range(start, stop, step)` has n values when `start + (n-1)*step < stop <= start + n*step` |
| Tables.SignificanceLookup | src/app_boot.py:63 | the p-value row is the first one on label and predictor whatever its adjustment state, and is absent exactly when no row is on the key |
| Tables.FirstSignificanceIgnoresAdjustment | src/app_boot.py:63 | tables that differ only in their `adjusted` column give the same p-values |
| Ordering.StrLeqTotal | src/app_boot.py:27 | Python string order is total (any two display names are comparable) |
| Ordering.StrLeqTransitive | src/app_boot.py:27 | Python string order is transitive |
| Dropdown.Insert | src/app_boot.py:27 | insertion adds exactly one entry (as a multiset) |
| Dropdown.InsertSorted | src/app_boot.py:27 | inserting into a list sorted by display name keeps it sorted |
| Dropdown.SortByText | src/app_boot.py:27 | sorting by display name (`argsort` on the mapped names) returns a sorted permutation of the entries |
| Dropdown.EntriesExact | src/app_boot.py:27 | the pairs built from the column are exactly each code of the column with its display name |
| Dropdown.SortedUniqueExact | src/app_boot.py:27 | dropping repeats after sorting keeps exactly the entries it was given |
| Dropdown.OptionsByDisplayName | src/app_boot.py:27 | the options are exactly the column's codes with their display names, each code once, ordered by display name |
| Dropdown.OptionsInTableOrder | src/app.py:23 | the options are exactly the column's codes with their display names, each code once, in order of first appearance |
| Charts.NoDataChart | src/app_boot.py:68-91 | the placeholder has no series, title "Combination not possible", both axes hidden, and one annotation "No data available for the selected combination" |
| Charts.ErrorBarTrace | src/app_boot.py:95-106 | the dot plot has one point per row at (predictorvalue, predicted); the asymmetric error bars reach exactly `upper` and `lower`; all four arrays have the rows' length (same code as src/app.py:44-55) |
| Charts.ErrorBarsNonNegative | src/app_boot.py:99-104 | both error arrays are non-negative exactly when every row has `lower <= predicted <= upper`, which the code never checks |
| Charts.BandTraces | src/app_boot.py:108-135 | the band series are, in order, the upper bound (width 0), the lower bound (width 0, the only one filled `tonexty`) and the prediction line, all over the rows' predictor values (same code as src/app.py:57-84) |
| Charts.BandEnclosesPrediction | src/app_boot.py:116-135 | the prediction line lies inside the band exactly when every row has `lower <= predicted <= upper` |
| AppBoot.SelectRows | src/app_boot.py:62-67 | the plotted rows are exactly the table rows on label and predictor whose `adjusted` is 1 if 'adjusted' is checked and 0 otherwise, with their multiplicities |
| AppBoot.SelectionIsOneMask | src/app_boot.py:62-67 | the key mask followed by the adjustment mask is the single combined mask, in table order |
| AppBoot.SelectionKeepsTableOrder | src/app_boot.py:62-67 | the selection of a concatenated table is the concatenation of the selections; no reordering happens |
| AppBoot.SelectionIsNotSorted | src/app_boot.py:96 | rows arriving out of predictor-value order are plotted in that order (x = [60, 20]) |
| AppBoot.UpdateGraph | src/app_boot.py:61-177 | errors are only KeyError on the selected codes; every plot has y-title "Delta <label name> (95% CI)", x-title the predictor name, no legend, template ggplot2, no fixed size |
| AppBoot.EmptyFallback | src/app_boot.py:68-91 | the placeholder is returned exactly when no row is in the selected state on the key, or no significance row is on the key |
| AppBoot.MissingDisplayName | src/app_boot.py:138-145 | once data exists, an unmapped predictor raises KeyError(predictor); otherwise an unmapped label raises KeyError(label); otherwise a plot is returned |
| AppBoot.PValuesFromFirstMatch | src/app_boot.py:92-93 | the title carries the formatted raw and FDR p-values of the first significance row on label and predictor |
| AppBoot.PValuesIgnoreChecklist | src/app_boot.py:63-67 | toggling the adjustment checklist never changes the p-values in the title |
| AppBoot.PValuesIgnoreSignificanceAdjustment | src/app_boot.py:63 | changing only the significance table's `adjusted` column changes no chart |
| AppBoot.ErrorBarClass | src/app_boot.py:147-155 | for the five categorical predictors the data is exactly one dot-plot series of the selected rows, with `dtick=1` and no legend |
| AppBoot.WideTickClass | src/app_boot.py:156-164 | for `timesincecat` the data is exactly one dot-plot series, and the tick values are exactly the ten values 0, 100, ..., 900 |
| AppBoot.ConfidenceBandClass | src/app_boot.py:165-173 | for every other predictor the data is exactly [upper band, lower band, prediction line] over the selected rows, with default ticks and no legend |
| AppBoot.LabelOptions | src/app_boot.py:27 | the label dropdown lists each label code of the table exactly once with its display name, ordered by display name |
| AppBoot.PredictorOptions | src/app_boot.py:35 | the predictor dropdown lists each predictor code of the table exactly once with its display name, ordered by display name |
| App.SelectRows | src/app.py:40 | the plotted rows are exactly the table rows on label and predictor, in both adjustment states, with their multiplicities |
| App.SelectionKeepsTableOrder | src/app.py:40 | the selection of a concatenated table is the concatenation of the selections; rows keep their table order |
| App.BuildPlotData | src/app.py:40-96 | the only error before the layout is IndexError, raised exactly when no significance row is on the key |
| App.PValuesFromFirstMatch | src/app.py:41-42 | the p-values are those of the first significance row on label and predictor |
| App.NoSignificanceRaisesIndexError | src/app.py:41 | without a significance row on the key, the callback raises IndexError even if rows exist (there is no empty guard) |
| App.ErrorBarClass | src/app.py:85-90 | for the six categorical predictors, `timesincecat` included, the data is exactly one dot-plot series over the rows on the key, with `dtick=1` |
| App.ConfidenceBandClass | src/app.py:94-96 | for every other predictor the data is exactly [upper band, lower band, prediction line] over the rows on the key |
| App.UpdateGraphAsWritten | src/app.py:85-104 | as written the callback never returns a figure; it raises NameError exactly when p-values exist and both codes are mapped |
| App.AsWrittenRaisesNameError | src/app.py:91 | the default selection HB / meandonorhb raises NameError for any significance table that holds a row on that key |
| App.UpdateGraph | src/app.py:85-106 | with numpy imported, every figure has y-title "Delta <label name> (95% CI)", x-title the predictor name, no legend, template ggplot2, and size 600 × 800 |
| App.CorrectedFigureContents | src/app.py:85-105 | with numpy imported and both codes mapped, a figure is returned whose traces and x ticks are those chosen by class, and whose title carries the formatted raw and FDR p-values of the first significance row on the key |
| App.CorrectionOnlyRemovesNameError | src/app.py:89-101 | the corrected callback returns a figure exactly where the written one raises NameError, and raises the same exception everywhere else |
| App.LabelOptions | src/app.py:23 | the label dropdown lists each label code of the table exactly once with its display name, in order of first appearance |
| App.PredictorOptions | src/app.py:29 | the predictor dropdown lists each predictor code of the table exactly once with its display name, in order of first appearance |

## Findings

| source | as written | input that shows it | evidently intended | confidence | as-written member | corrected member |
|---|---|---|---|---|---|---|
| src/app.py:91 | the title calls `np.format_float_scientific`, but the module imports only dash, plotly and pandas, so `np` is unbound and the callback raises NameError instead of returning a figure | any selection with a significance row on the key and mapped codes, e.g. label HB, predictor meandonorhb | `import numpy as np`, so that the figure is returned with the formatted p-values | high; not executed | App.UpdateGraphAsWritten | App.UpdateGraph |

## Left out

- The Dash application, its widgets, the server object and `run_server` are UI plumbing. Only the callback and the option lists are modelled.
- CSV loading and `dropna` are I/O. The tables are given as sequences of rows as they stand after loading. `dropna` removes every results row with any missing field, the text columns included. The model assumes no row of interest was lost that way. One such case: pandas' `read_csv` treats the text `NA` as missing by default, and `NA` is the code of Sodium, so its rows would be dropped. NaN values in the significance table are not modelled.
- Plotly objects are plain datatype values. Colours, marker colour, fill colour and the `type='data'`/`symmetric=False` error-bar settings are implied by the `Markers` constructor, not stored.
- `format_pvalue` (its helper module is not part of this model) and `np.format_float_scientific` are library formatters. They are function parameters, so nothing is proved about the text they produce.
- The display-name dictionaries of the later variant come from a configuration module that is not part of this model. They are abstract maps. The earlier variant's dictionaries are its literal constants.
- Floating point: the numeric columns are `real`. Rounding is not modelled, and neither is the `float(...)` conversion.
- The dropdown option lists require every code in the table to have a display name, because an unmapped code raises KeyError while the page is being built at start-up.
- Dropdown.SortByText: pandas' default `argsort` is not stable. When distinct codes share a display name, the source does not fix their order. The model uses one specific order (insertion order), and only the non-decreasing display-name order is claimed.
- Reactivity (one callback per selector change) is outside the model. Each call is one function application.
