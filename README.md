# Score-table dashboard: a Dafny model of the derivation pipeline

The dashboard (`streamlit_app.py`) loads a table with one row per player. The
row is keyed by the player's in-game name (IGN), and each period column holds a
score as text such as `"12,345"`. From it the dashboard derives:

- a numeric total per period;
- a delta per period: the change from the period before it in file order, with
  the first period fixed at 0;
- each player's Personal Best and the date on which it was first reached;
- the total score of every period, and the "theoretical high" (the sum of all
  Personal Bests).

It then keeps a per-session selection of names, dates and view mode, with
defaults and a reset button. It shows the selected rows with the selected
periods' totals or deltas. It also shows headline metrics, but only when
the selected names and dates equal the stored names and dates lists element by
element, in the same order, and the mode is Total. A multiselect returns its
picks in the order they were picked, so selecting every name in another order
shows no headline. The metrics are this week's total, its change from the
previous week, the number of players who attempted it ("Pax") and the
theoretical high.

The model has five modules:

- `Cells` (`cells.dfy`): a cell is `Missing` (pandas NaN) or `Num(int)`. This
  module covers comma stripping, a numeral parser standing in for
  `pd.to_numeric(..., errors='coerce')`, the `f"{n:,}"` format it inverts, and
  NaN-propagating subtraction.
- `Ordering` (`ordering.dfy`): Python's `<` on `str`, `sorted` (an insertion
  sort proved ascending and a permutation), `unique` and `dropna`.
- `Pipeline` (`pipeline.dfy`): the table, held column by column. It has the
  cleaning loop, the delta loop, Personal Best, the Date of Personal Best loop
  with its early `break`, the weekly-totals loop and the theoretical high. Each
  loop is a `method` proved equal to a specification function, and the
  properties are lemmas about those functions.
- `View` (`view.dfy`): the row filter, the column choice for Total and Delta
  mode, the projected rows, `dates[-1]` and `dates[-2]`, the headline delta and
  Pax.
- `Selection` (`session.dfy`): the session store as a class `Session`. A key
  that is absent is `None`. Its methods do one pass of the script:
  - store the derived lists and aggregates;
  - apply the defaults;
  - handle the reset button;
  - read the widgets;
  - project the table and compute the headline.

Two period orders are kept apart:

- File column order: deltas and the Personal Best date search use it.
- Label order (`sorted`): the date list, the latest and previous date, and the
  projected columns use it.

Where the two disagree the model does not merge them: see
`View.HeadlineDeltaIsLatestDeltaSum`.

Some details of the code that the model keeps as written:

- Pax counts every cell that is not the number 0. A NaN cell therefore counts
  as attempted, because `NaN != 0` holds in pandas.
- The Date of Personal Best is the first matching column in file order, not in
  chronological order.
- The first delta is 0 even where the first total is NaN.
- Deltas of later periods are NaN when either operand is NaN.

## Model

| member | source | states |
|---|---|---|
| Cells.StripCommas | streamlit_app.py:29 | the result holds no comma, is the input when the input has none, and is no longer than the input |
| Cells.StripCommasKeeps | streamlit_app.py:29 | a character survives comma stripping exactly when it is in the input and is not a comma |
| Cells.StripCommasAppend | streamlit_app.py:29 | stripping commas distributes over concatenation |
| Cells.ParseNumeral | streamlit_app.py:30 | the coercion yields a number exactly when the text is an integer numeral, and NaN otherwise, never an error; a digit string yields its decimal value and a minus sign negates it |
| Cells.CleanCell | streamlit_app.py:29-30 | a raw cell becomes a number exactly when, once its commas are removed, it is an integer numeral; text without commas is parsed as it stands (the round trip is `CleanFormatted`) |
| Cells.CleanFormatted | streamlit_app.py:29-30 | cleaning reads a thousands-grouped numeral `f"{n:,}"` back as the number n, for every integer n (negative ones included) |
| Cells.Difference | streamlit_app.py:47 | the difference is NaN exactly when either operand is NaN; otherwise adding it to the previous value gives the current value |
| Pipeline.CleanTable | streamlit_app.py:27-30 | the cleaning loop replaces every value cell by the cleaning of its own text, keeps every column's length (the row count), and equals `Cleaned(raw)` |
| Pipeline.DeltaColumns | streamlit_app.py:43-49 | one delta column per period, each with one cell per row; `DeltaColumnsSpec` and `DeltasTelescope` state its contents |
| Pipeline.ComputeDeltas | streamlit_app.py:43-49 | the delta loop produces one delta column per period, each as long as the table, and equals the specification `DeltaColumns` |
| Pipeline.DeltaColumnsSpec | streamlit_app.py:43-49 | every first-period delta is 0, even for a NaN total; for i ≥ 1 in file order the delta is `Difference(total_i, total_{i-1})` |
| Pipeline.DeltasTelescope | streamlit_app.py:43-49 | where a row's first k+1 totals are present, its k-th total is its first total plus the running sum of its deltas |
| Pipeline.PersonalBest | streamlit_app.py:51 | the row maximum is NaN exactly when every total is NaN; otherwise it is at least every present total and equals one of them |
| Pipeline.Bests | streamlit_app.py:51 | for every row, the Personal Best is NaN exactly when all the row's totals are NaN; otherwise it is at least each present total and equals one of them |
| Pipeline.BestColumn | streamlit_app.py:54-63 | no column exactly when the Personal Best is NaN; otherwise the first column in file order whose value is present and equal to the Personal Best |
| Pipeline.FindFrom | streamlit_app.py:58-61 | the scan finds the first position at or after its start holding the target number, or reports that there is none |
| Pipeline.DatesOfBest | streamlit_app.py:54-65 | the Date of Personal Best loop yields, for every row, the label of the column given by `BestColumn`, or None |
| Pipeline.ScanRow | streamlit_app.py:56-63 | the inner scan with its early `break` yields the label of `BestColumn` of the row, or None |
| Pipeline.WeeklyTotals | streamlit_app.py:67-70 | the weekly-totals dictionary has exactly the period labels as keys, and each value is the NaN-skipping sum of that period's total column |
| Pipeline.ColumnSum | streamlit_app.py:70 | `Series.sum()` skips NaN; a column with no negative value sums to at least 0 (`ColumnSumIsSumOfPresent` gives its value) |
| Pipeline.ColumnSumIsSumOfPresent | streamlit_app.py:70 | a NaN-skipping column sum is the plain sum of the column's present values |
| Pipeline.ColumnSumAllMissing | streamlit_app.py:70 | an all-NaN column sums to 0 |
| Pipeline.TheoreticalHigh | streamlit_app.py:52 | the theoretical high is the sum of the Personal Bests that are present, NaN ones adding nothing |
| Pipeline.WeeklyAtMostTheoreticalHigh | streamlit_app.py:51-52 | when no score is negative, no period's total exceeds the theoretical high (the sum of the Personal Bests) |
| Pipeline.DeriveSpec | streamlit_app.py:27-65 | the derived table has one total and one delta column per label, every column has one cell per row, and the labels are distinct |
| Pipeline.Derive | streamlit_app.py:25-65 | the derivation keeps the IGN column and the labels unchanged and produces exactly `DeriveSpec(raw)` |
| Ordering.Sort | streamlit_app.py:34 | `sorted` returns an ascending permutation of its input |
| Ordering.Unique | streamlit_app.py:37 | `unique()` holds no duplicate, the same members as its input and no more entries |
| Ordering.DropNulls | streamlit_app.py:37 | `dropna()` holds exactly the non-null names and no more entries than the column |
| Ordering.SortedNames | streamlit_app.py:37 | the names list has at most one entry per row (`SortedNamesSpec` gives its order and members) |
| Ordering.SortedNamesSpec | streamlit_app.py:37 | the names list is strictly ascending and holds exactly the non-null IGNs |
| Ordering.SortDistinct | streamlit_app.py:34 | sorting distinct labels gives a strictly ascending list with the same members |
| Ordering.SortOfAscending | streamlit_app.py:34 | sorting a strictly ascending list leaves it unchanged |
| Ordering.BelowTotal | streamlit_app.py:34 | any two distinct strings are ordered one way or the other |
| Ordering.BelowTransitive | streamlit_app.py:34 | the string order is transitive |
| View.LatestDate | streamlit_app.py:35 | `dates[-1]` is one of the dates (`LatestAndPrev` shows it is the greatest) |
| View.PrevDate | streamlit_app.py:36 | `dates[-2]` is one of the dates (`LatestAndPrev` shows it is the greatest of the others) |
| View.LatestAndPrev | streamlit_app.py:34-36 | of distinct labels, `dates[-1]` is the greatest, `dates[-2]` is the greatest of the others, and the previous date is below the latest |
| View.SelectedRows | streamlit_app.py:107 | the row filter keeps exactly the rows whose IGN is in the selected names, in their original order |
| View.SelectAllNames | streamlit_app.py:107 | selecting every name keeps every row except those whose IGN is null |
| View.DisplayColumns | streamlit_app.py:117 | the shown columns are the three fixed ones and one per selected date (`DisplayColumnsSpec` gives each) |
| View.DisplayColumnsSpec | streamlit_app.py:109-117 | the shown columns are IGN, Personal Best and its date, then one column per selected date in sorted order, with the `_total` or `_delta` suffix of the mode |
| View.ProjectSpec | streamlit_app.py:107-117 | the k-th shown row is the k-th kept row; it shows that row's IGN, Personal Best and date, then the total (Total mode) or delta (Delta mode) of each selected period in sorted order |
| View.Project | streamlit_app.py:107-117 | the view has one row per kept row (`ProjectSpec` gives each row) |
| View.FirstPeriodDeltaShowsZero | streamlit_app.py:49 | in Delta mode the period that comes first in the file always shows 0 |
| View.Pax | streamlit_app.py:127 | Pax is at most the row count, is 0 exactly when every cell is the number 0, and is the row count exactly when none is |
| View.PaxCountsNonZero | streamlit_app.py:127 | Pax is the row count minus the number of cells equal to 0, so NaN cells are counted |
| View.HeadlineDelta | streamlit_app.py:123 | the headline delta added to the previous date's total gives this week's total; it is 0 when the two dates coincide |
| View.HeadlineDeltaIsLatestDeltaSum | streamlit_app.py:123 | when the file lists the periods in label order and the last two periods have no NaN, the headline delta equals the sum of the latest delta column |
| View.LastDeltaSum | streamlit_app.py:123 | the difference of the last two periods' totals is the sum of the last delta column when those periods have no NaN |
| Selection.AsList | streamlit_app.py:97-103 | a list selection is kept; any other value becomes a one-element list when truthy and the empty list otherwise |
| Selection.SortedDates | streamlit_app.py:34-36 | the date list is `sorted(labels)`; latest and previous are its last two elements, both labels, and distinct |
| Selection.Session.constructor | streamlit_app.py:80-85 | a new session holds none of the three selection keys |
| Selection.Session.LoadLists | streamlit_app.py:34-37 | stores the sorted names, the sorted dates, the latest date and the previous date |
| Selection.Session.LoadAggregates | streamlit_app.py:52-70 | stores the theoretical high and the weekly totals, keyed by every label |
| Selection.Session.Load | streamlit_app.py:34-70 | stores all the derived lists and aggregates of a pass |
| Selection.Session.ApplyDefaults | streamlit_app.py:80-85 | each absent key gets its default (all names, all dates, Total); a present key is kept |
| Selection.Session.Reset | streamlit_app.py:89-93 | the reset button deletes all three selection keys |
| Selection.Session.TakeNames | streamlit_app.py:95-98 | the names key holds the widget's value, wrapped into a list |
| Selection.Session.TakeDates | streamlit_app.py:100-103 | the dates key holds the widget's value, wrapped into a list |
| Selection.Session.TakeViewMode | streamlit_app.py:105 | the radio button's value is stored under the view-mode key |
| Selection.Session.ShowsHeadline | streamlit_app.py:120 | the headline condition is list equality: it holds only in Total mode, with the selected names and dates equal to the stored lists element by element and in the same order (so every name and every date is selected) |
| Selection.Session.HeadlineMetrics | streamlit_app.py:120-132 | this week's total, its change over the previous date, Pax of the latest total column, and the theoretical high |
| Selection.Session.Render | streamlit_app.py:95-132 | stores the widgets' values, shows `DisplayColumns` and `Project` of the selection, shows the headline exactly when `ShowsHeadline()` holds (the selected names and dates equal the stored `names` and `dates` lists element by element, in the same order, and the mode is Total), and then the headline holds this week's total, `HeadlineDelta`, Pax of the latest total column and the stored theoretical high |
| Selection.Session.Interact | streamlit_app.py:80-132 | after the defaults, a pressed reset deletes the keys and asks for a rerun; otherwise the pass renders, with the headline's contents as in `Render` |
| Selection.Session.Run | streamlit_app.py:34-132 | a pass over a derived table: it stores the sorted names and dates, `dates[-1]`, `dates[-2]`, the theoretical high and the weekly totals keyed by every label, then either deletes the keys and asks for a rerun or renders with the headline's contents as in `Render` |
| Selection.Session.Pass | streamlit_app.py:25-132 | one run of the script: the lists and aggregates of `DeriveSpec(raw)` are stored (the latest and previous date among the weekly totals' keys), and either the keys are deleted and a rerun is requested, or the projection of `DeriveSpec(raw)` and the headline with its contents are shown |
| Selection.Session.Restart | streamlit_app.py:34-85 | a pass that finds the three keys absent stores the lists and aggregates and, at line 85, holds all names, all dates and Total; lines 95 and 100 then store the widgets' values over the first two |
| Selection.Session.ResetThenRerun | streamlit_app.py:80-93 | after a reset, the rerun's state at line 85 holds the defaults: all names, all dates and the Total view (the values lines 95 and 100 then store come from the widgets) |

## Left out

- `load_data` (streamlit_app.py:11-20) reads `st.secrets` and is cached by the framework. That is I/O, so the loaded table is the input `RawTable`.
- The `None` dereference at line 23 is replaced by a precondition. The input is always a table, so the `None` branch is outside the model. Line 23 computes the same names list as line 37; the model computes it once.
- `dates[-2]` needs at least two period columns. This is the precondition `|labels| >= 2` on the members that read it.
- Period labels are assumed distinct (`NoDuplicates`). Pandas itself allows duplicate column labels, but here the columns come from `pd.DataFrame.from_dict(st.secrets, orient='index')` (streamlit_app.py:14), so they are the keys of the secrets entries, and keys are distinct.
- Column renaming is not modelled as text (streamlit_app.py:38-40, 46, 118).
  - The model indexes columns by label and shows the `_total`/`_delta` names before they are stripped.
  - Labels that themselves contain `_total` or `_delta` would be renamed differently by `str.replace`.
- Line 49 appends the first period's delta column after the others. The model keeps each delta column at the position of its label, and no projection depends on that position.
- `total_cols` (line 50) keeps only numeric total columns. After coercion every total column is numeric, so it is every total column.
- Floating point:
  - cells are unbounded integers;
  - `pd.to_numeric` is modelled on integer numerals only, so decimals, exponents, surrounding whitespace and a leading `+` become NaN;
  - float rounding, int64 width and the `int(...)` truncation at line 52 (the identity on integers) are not modelled.
- Python's string order is modelled as the order of character codes. Unicode normalisation is not covered.
- Streamlit calls are parameters or outside the model:
  - widget values are inputs (`WidgetValue`, `ViewMode`);
  - `st.rerun` is the result `Rerun`;
  - `st.metric`, `st.title`, `st.line_chart`, `st.dataframe` and the sidebar header draw nothing in the model.
- The multiselects use the widget keys `selected_name` and `selected_date`, but reset deletes `selected_names` and `selected_dates`. The defaults restored at lines 81 and 83 are overwritten at lines 95 and 100 by the widgets' values before anything reads them, and the widgets' own keys survive the reset; only the `view_mode` key, which the radio button owns, is deleted by it. What the multiselects return then is framework behaviour, so the widget values are free inputs.
- The chart data (streamlit_app.py:141) is a transpose for plotting. The single-player metric (streamlit_app.py:134-138) and its `f"{int(personal_best):,}"` formatting only read an already derived row.
- `theme.py` holds colour constants only.
- Selection.Session.Load: the stores are made after the whole derivation rather than interleaved with it as in the script. No store reads a value another stage writes, so the stored values are the same.
