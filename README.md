# World Bank indicator dashboard — a Dafny model

The dashboard fetches one economic indicator for Ethiopia and, optionally, for a
comparison country. It normalises each observation list into a series and keeps the two
series in two slots. From those slots it redraws one line chart and fills a data table
with the main series. An offline script cleans saved API records and aggregates them by
year. This project models those pieces and proves their properties:

- `sorting.dfy` (`Sorting`): the stable sort by numeric year that `Array.prototype.sort`
  performs with the comparator `a.date - b.date`. It is proved ordered, a permutation,
  and stable: observations of one year keep their input order.
- `series.dfy` (`Series`): the normaliser shared by `processData` and
  `processComparisonData`, the country-name lookup, the requested year range and the
  table row of one observation.
- `chart.dfy` (`ChartView`): the chart configuration as a pure function of the two
  slots. The `economicChart` handle is a class whose charts have a live/destroyed
  lifecycle. Its invariant is that the handle's chart is the only live one.
- `dashboard.dfy` (`Dashboard`): the two slots as a state machine. Its events are fetch
  completions carrying an optional observation list, plus the "none" selection. A `Page`
  class holds the slots, the chart handle and the table, and each of its methods is tied
  to one step of that machine.
- `process_data.dfy` (`ProcessData`): `clean_worldbank_data` as a method. It flattens the
  records, sorts them, and computes the distinct codes and the year range. It also
  models `aggregate_by_year` as sequence and map functions.
- `wrappers.dfy` (`Wrappers`): `Option` and `Result`.

Three behaviours of the code are easy to get wrong, and the model follows the code in each:

- The years of a series are non-decreasing, not strictly ascending. Duplicate years are
  kept, in input order.
- An empty observation list is not a dedicated error. `data[0].indicator` throws, the
  promise's `.catch` logs it, and nothing changes. The model uses `Failure(EmptyObservationList)`
  and leaves the state unchanged.
- A non-empty list whose values are all null still produces a series, with the
  indicator name and no points.

Dates are represented by the numeric year their string denotes. Values are `real`, and
JSON `null` is `None`. The text `toLocaleString` produces for a value is the cell
`Shown(x)`. The current year is a parameter.

## Model

| member | source | states |
|---|---|---|
| `Sorting.Insert` | src/js/main.js:85 | inserting one element adds exactly that element to the multiset |
| `Sorting.SortBy` | src/js/main.js:85 | the sorted list has the same multiset of elements as its input, and so the same length; it also stands for `sort_values` in scripts/process_data.py:42 |
| `Sorting.SortBySorted` | src/js/main.js:85 | the sorted list is non-decreasing by numeric year |
| `Sorting.SortByStable` | src/js/main.js:85 | for every year, the observations of that year appear in the same order as in the input (stable sort) |
| `Series.CountryName` | src/js/main.js:112-122 | ETH, KEN, SDN, SSD and DJI map to their display names; every other code is returned unchanged |
| `Series.CountryNameFallback` | src/js/main.js:121 | a code is shown as itself exactly when it is not one of the five known codes |
| `Series.NonNull` | src/js/main.js:84 | the filter keeps only observations that have a value |
| `Series.NonNullCounts` | src/js/main.js:84 | the filter keeps each non-null observation as often as it occurs and drops every null one |
| `Series.Filtered` | src/js/main.js:84-85 | every element of `filteredData` has a value, and its years are non-decreasing |
| `Series.NonNullWithKey` | src/js/main.js:84 | dropping nulls and then picking one year gives the same list as picking the year and then dropping nulls |
| `Series.FilteredIsSortedNonNull` | src/js/main.js:84-85 | `filteredData` is exactly the non-null observations as a multiset, and the observations of each year are the non-null raw observations of that year in input order |
| `Series.Years` | src/js/main.js:91 | one year per observation, in order |
| `Series.Values` | src/js/main.js:92 | one value per observation, in order, each the observation's non-null value |
| `Series.Normalize` | src/js/main.js:99-110 | fails exactly for an empty list; otherwise the series has the looked-up country name and the first raw element's indicator name; `years` and `values` have the length of `filteredData`, and position i holds the date and value of its i-th observation |
| `Series.NormalizeYearsSorted` | src/js/main.js:101-102 | the years of a normalised series are non-decreasing |
| `Series.NormalizePairsComeFromInput` | src/js/main.js:107-108 | each (year, value) pair of a series is a non-null observation of the input |
| `Series.AllNullKeepsIndicator` | src/js/main.js:106 | a non-empty all-null list yields a series carrying the first element's indicator name and empty `years`/`values` |
| `Series.NormalizeExample` | src/js/main.js:82-93 | a null 2018 entry between 2019 and 2020 is dropped and ETH is labelled Ethiopia |
| `Series.StartYear` | src/js/main.js:43 | the start year is 1960 for "all", otherwise the current year minus the count |
| `Series.Request` | src/js/main.js:61-65 | a request names the country and indicator and always ends at the current year; a count of n years spans n + 1 years |
| `Series.PlanFetches` | src/js/main.js:10-15 | the main fetch is always for ETH; a comparison fetch is started exactly when "none" is not selected, for the same indicator and year range |
| `Series.RowFor` | src/js/main.js:128-139 | a row shows the observation's date, and the value cell reads "N/A" exactly when the value is null |
| `Series.FilteredRowsHaveValues` | src/js/main.js:96 | the rows built from `filteredData` never read "N/A" |
| `ChartView.ConfigFor` | src/js/chart.js:11-48 | the datasets are the main series first and then the comparison series, each present only with its slot, each labelled by the slot's country, holding its values and using its border colour; x labels are the main years or empty; the title is the main indicator or "Economic Indicator" |
| `ChartView.AxisAndTitleIgnoreComparison` | src/js/chart.js:40-48 | the x labels and the title are the same whatever the comparison slot holds |
| `ChartView.ClearedComparisonDrawsMainOnly` | src/js/chart.js:14-34 | with the comparison slot empty, only the main dataset is drawn |
| `ChartView.Chart.constructor` | src/js/chart.js:37 | a new chart is live and holds the configuration it was given |
| `ChartView.Chart.Destroy` | src/js/chart.js:8 | a destroyed chart is no longer live |
| `ChartView.ChartDisplay.constructor` | src/js/chart.js:1 | initially there is no chart handle |
| `ChartView.ChartDisplay.Update` | src/js/chart.js:3-82 | any previous chart is destroyed, exactly one destroy per existing handle; a fresh chart with the slots' configuration becomes the handle and is the only live chart |
| `ChartView.RedrawTwice` | src/js/chart.js:3-82 | two redraws with unchanged slots show the same configuration; exactly two charts are created, the first is destroyed and has the same configuration as the second, and the second is the only live chart |
| `Dashboard.Step` | src/js/main.js:32-93 | a main completion never touches the comparison slot and vice versa; "none" clears the comparison slot; a missing or empty payload changes nothing; otherwise the event's slot is replaced by the normalised series |
| `Dashboard.RunOnlyMainEvents` | src/js/main.js:50-51 | after the same main completions, the main slot depends only on its initial content |
| `Dashboard.RunOnlyComparisonEvents` | src/js/main.js:70-71 | after the same comparison events, the comparison slot depends only on its initial content |
| `Dashboard.MainSlotIndependent` | src/js/main.js:88-93 | in any completion order, the main slot ends the same as if only the main completions had happened |
| `Dashboard.ComparisonSlotIndependent` | src/js/main.js:32-37 | in any completion order, the comparison slot ends the same as if only the comparison completions and clears had happened |
| `Dashboard.Table.constructor` | src/js/main.js:124-126 | the table starts empty |
| `Dashboard.Table.Update` | src/js/main.js:124-140 | the table is cleared and then holds one row per item, in order |
| `Dashboard.Page.constructor` | src/js/main.js:1-11 | at load both slots are empty, there is no chart and the table is empty |
| `Dashboard.Page.Redraw` | src/js/chart.js:3-9 | the previous chart, if any, is destroyed; one fresh chart with the configuration of the current slots is added and is the only live chart |
| `Dashboard.Page.ProcessData` | src/js/main.js:82-97 | on a non-empty list the main slot holds the normalised series, the previous chart is destroyed and one fresh chart is drawn, and the table holds one row per filtered observation; on an empty list nothing changes; the comparison slot is never touched |
| `Dashboard.Page.OnMainFetched` | src/js/main.js:47-58 | the slots change as the main completion step says; exactly when the payload is a non-empty list, the previous chart is destroyed, one fresh chart is drawn and the table is refilled; otherwise the chart and the table are unchanged |
| `Dashboard.Page.OnComparisonFetched` | src/js/main.js:67-79 | the slots change as the comparison completion step says; exactly when the payload is a non-empty list, the previous chart is destroyed and one fresh chart is drawn; the table is not touched |
| `Dashboard.Page.UpdateChart` | src/js/main.js:23-39 | the main fetch and, unless "none", the comparison fetch are requested; with "none" the comparison slot is cleared, the previous chart is destroyed and one fresh chart shows the main series only |
| `ProcessData.Coerce` | scripts/process_data.py:28 | a number is kept and anything else becomes missing |
| `ProcessData.Flatten` | scripts/process_data.py:31-39 | the country and indicator codes and names come from the nested `id`/`value` fields, and the nested objects are gone |
| `ProcessData.FlattenAll` | scripts/process_data.py:19-39 | one flattened record per raw record, in order |
| `ProcessData.Unique` | scripts/process_data.py:49-50 | each distinct value exactly once, nothing else, in first-appearance order |
| `ProcessData.YearBounds` | scripts/process_data.py:51-54 | min and max are bounds on every record's year and are attained by some record |
| `ProcessData.CleanWorldBankData` | scripts/process_data.py:5-59 | `None` exactly for a missing or empty list; otherwise the records are a permutation of the flattened input ordered by year; the metadata lists the distinct country and indicator codes in first-appearance order and the year range of the records, so min ≤ max |
| `ProcessData.CleanKeepsEveryRecord` | scripts/process_data.py:56 | every input record appears in the output, also when its value is null or not numeric |
| `ProcessData.Matching` | scripts/process_data.py:98-102 | the filtered list holds exactly the records matching both codes |
| `ProcessData.YearMap` | scripts/process_data.py:103 | the dict's keys are exactly the years of its records |
| `ProcessData.AggregateByYear` | scripts/process_data.py:86-103 | the keys are exactly the years of the records matching both codes |
| `ProcessData.AggregateStep` | scripts/process_data.py:98-103 | appending a matching record sets its year to its value; a non-matching record changes nothing |
| `ProcessData.AggregateKeys` | scripts/process_data.py:98-103 | the keys are exactly the years of records matching both codes |
| `ProcessData.AggregateLastWins` | scripts/process_data.py:103 | for a repeated year, the value of the last matching record wins |
| `ProcessData.AggregateNoMatch` | scripts/process_data.py:98-103 | with no matching record the map is empty |

## Left out

- scripts/data_fetcher.py is not part of this model: it is an HTTP request plus a file write.
- The network transport and JSON parsing of `fetch` are not modelled. A completion carries the observation list or `None` for a missing `data[1]` or a caught failure. A truthy `data[1]` that is not a list is not modelled.
- The URL text is not modelled: `FetchRequest` holds the country, indicator, start and end that the URL carries.
- The order and interleaving of the two asynchronous fetches are not modelled. Each completion is one atomic event, and the slot-independence lemmas hold for any order.
- The DOM is not modelled: element lookup, `innerHTML`, `createElement`, the event listeners and the footer year. The table is the list of its rows.
- Chart.js internals and the `options` block of the configuration (responsive, title font, tooltip, legend, scales, interaction) are not modelled; they belong to the charting library.
- `toLocaleString` formatting is locale-dependent and is the opaque cell `Shown(x)`.
- The clock (`new Date().getFullYear()`, `datetime.now()`) is a parameter; the `retrieved_on` timestamp is omitted.
- Dates are modelled by their numeric year. A date string that is not a number is not modelled: JavaScript would compare NaN and `astype(int)` would raise.
- Series.StartYear: a `years` value that `parseInt` cannot read, which gives NaN, is not modelled.
- Series.CountryName: codes that name properties of `Object.prototype`, such as "constructor", are not modelled; the lookup would return a function for them.
- `pd.to_numeric` on a numeric string and float NaN semantics are not modelled; values are optional opaque numbers.
- Malformed raw records are not modelled. A record without `value` would just get a missing value. A record without `date` makes `astype(int)` raise `ValueError`. A record without `country` or `indicator` makes `x['id']` raise `TypeError` on the NaN that pandas fills in. A column that no record has, or a nested object without `id` or `value`, raises `KeyError`.
- ProcessData.CleanWorldBankData: promises only order by year and a permutation, because `sort_values` is not stable; the model's sort happens to be stable, but the order among equal years is not stated.
- `save_processed_data`, `load_processed_data` and both `__main__` blocks are file I/O and are not modelled.
- Chart destruction releasing renderer resources is modelled only as the chart no longer being live.
