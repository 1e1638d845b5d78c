/** What the dashboard shows of the derived table: the row filter, the
    projected columns, the latest and previous period, the headline
    week-over-week delta and the "Pax" count. Projected columns follow the
    sorted order of the period labels; deltas were taken in file order. */
module View {
  import opened Cells
  import opened Ordering
  import opened Pipeline

  datatype ViewMode = Total | Delta

  /** The position of a label among the columns. */
  function IndexOf(labels: seq<string>, x: string): (k: nat)
    requires x in labels
    ensures k < |labels| && labels[k] == x
    ensures forall m :: 0 <= m < k ==> labels[m] != x
  {
    if labels[0] == x then 0 else 1 + IndexOf(labels[1..], x)
  }

  predicate Kept(ign: seq<Option<string>>, names: seq<string>, r: nat)
    requires r < |ign|
  {
    ign[r].Some? && ign[r].value in names
  }

  /** `df[df['IGN'].isin(names)]`, as the positions of the rows kept. */
  function SelectedRows(ign: seq<Option<string>>, names: seq<string>): (rows: seq<nat>)
    ensures forall k :: 0 <= k < |rows| ==> rows[k] < |ign| && Kept(ign, names, rows[k])
    ensures forall r :: 0 <= r < |ign| && Kept(ign, names, r) ==> r in rows
    ensures forall k, l :: 0 <= k < l < |rows| ==> rows[k] < rows[l]
  {
    if ign == [] then []
    else
      var last := |ign| - 1;
      var front := SelectedRows(ign[..last], names);
      assert forall r :: 0 <= r < last ==> Kept(ign[..last], names, r) == Kept(ign, names, r);
      front + (if Kept(ign, names, last) then [last] else [])
  }

  /** The rows with a non-null IGN, in order: `range(len(df))` without the null rows. */
  function NamedRows(ign: seq<Option<string>>): (rows: seq<nat>)
  {
    if ign == [] then []
    else NamedRows(ign[..|ign| - 1]) + (if ign[|ign| - 1].Some? then [|ign| - 1] else [])
  }

  /** Selecting every name filters nothing out but the rows whose IGN is null. */
  lemma {:induction false} SelectAllNames(ign: seq<Option<string>>)
    ensures SelectedRows(ign, SortedNames(ign)) == NamedRows(ign)
  {
    SortedNamesSpec(ign);
    SelectedPrefix(ign, SortedNames(ign), |ign|);
    assert ign[..|ign|] == ign;
  }

  lemma {:induction false} SelectedPrefix(ign: seq<Option<string>>, names: seq<string>, m: nat)
    requires m <= |ign|
    requires forall x :: x in names <==> Some(x) in ign
    ensures SelectedRows(ign[..m], names) == NamedRows(ign[..m])
  {
    if m > 0 {
      SelectedPrefix(ign, names, m - 1);
      var p := ign[..m];
      assert p[..m - 1] == ign[..m - 1];
      assert p[m - 1] == ign[m - 1];
      if p[m - 1].Some? {
        assert Some(p[m - 1].value) in ign;
      }
    }
  }

  function Suffix(mode: ViewMode): string
  {
    if mode == Total then "_total" else "_delta"
  }

  /** The value columns shown: one per selected date, in sorted order, named
      `<date>_total` in Total mode and `<date>_delta` in Delta mode. */
  function ViewColumns(selectedDates: seq<string>, mode: ViewMode): (cols: seq<string>)
    ensures |cols| == |selectedDates|
  {
    var s := Sort(selectedDates);
    seq(|s|, k requires 0 <= k < |s| => s[k] + Suffix(mode))
  }

  /** The columns of the tabular view, before the suffixes are stripped. */
  function DisplayColumns(selectedDates: seq<string>, mode: ViewMode): (cols: seq<string>)
    ensures |cols| == 3 + |selectedDates|
  {
    ["IGN", "Personal Best", "Date of Personal Best"] + ViewColumns(selectedDates, mode)
  }

  /** The shown columns are the fixed three followed by the selected periods,
      each with its suffix, sorted by label. */
  lemma DisplayColumnsSpec(selectedDates: seq<string>, mode: ViewMode)
    ensures |DisplayColumns(selectedDates, mode)| == 3 + |selectedDates|
    ensures DisplayColumns(selectedDates, mode)[..3] == ["IGN", "Personal Best", "Date of Personal Best"]
    ensures forall k :: 0 <= k < |selectedDates| ==>
              DisplayColumns(selectedDates, mode)[3 + k] == Sort(selectedDates)[k] + Suffix(mode)
    ensures forall k, l :: 0 <= k < l < |selectedDates| ==> AtMost(Sort(selectedDates)[k], Sort(selectedDates)[l])
    ensures multiset(Sort(selectedDates)) == multiset(selectedDates)
  {
  }

  /** The column that backs a shown period in the given mode. */
  function ColumnFor(d: Derived, mode: ViewMode, date: string): (col: seq<Cell>)
    requires Shaped(d) && date in d.labels
    ensures |col| == |d.ign|
  {
    var j := IndexOf(d.labels, date);
    if mode == Total then d.totals[j] else d.deltas[j]
  }

  /** One row of the tabular view. */
  datatype DisplayRow = DisplayRow(ign: Option<string>, best: Cell, bestDate: Option<string>, values: seq<Cell>)

  function ProjectRow(d: Derived, r: nat, dates: seq<string>, mode: ViewMode): DisplayRow
    requires Shaped(d) && r < |d.ign| && forall x :: x in dates ==> x in d.labels
  {
    DisplayRow(d.ign[r], d.best[r], d.bestDate[r],
               seq(|dates|, c requires 0 <= c < |dates| => ColumnFor(d, mode, dates[c])[r]))
  }

  /** `filtered_df[['IGN', 'Personal Best', 'Date of Personal Best'] + view_columns]`. */
  function Project(d: Derived, names: seq<string>, selectedDates: seq<string>, mode: ViewMode): (rows: seq<DisplayRow>)
    requires Shaped(d) && forall x :: x in selectedDates ==> x in d.labels
    ensures |rows| == |SelectedRows(d.ign, names)|
  {
    var kept := SelectedRows(d.ign, names);
    var dates := Sort(selectedDates);
    assert forall x :: x in dates ==> x in d.labels by {
      forall x | x in dates ensures x in d.labels { assert x in multiset(dates); }
    }
    seq(|kept|, k requires 0 <= k < |kept| => ProjectRow(d, kept[k], dates, mode))
  }

  /** The tabular view holds exactly the rows whose IGN is selected, in their
      original order; each shows its IGN, Personal Best and its date, and then,
      for the c-th smallest selected period, that period's total (Total mode)
      or delta (Delta mode). */
  lemma ProjectSpec(d: Derived, names: seq<string>, selectedDates: seq<string>, mode: ViewMode, k: nat)
    requires Shaped(d) && forall x :: x in selectedDates ==> x in d.labels
    requires k < |Project(d, names, selectedDates, mode)|
    ensures var r := SelectedRows(d.ign, names)[k];
            var row := Project(d, names, selectedDates, mode)[k];
            var dates := Sort(selectedDates);
            r < |d.ign| && Kept(d.ign, names, r) &&
            row.ign == d.ign[r] && row.best == d.best[r] && row.bestDate == d.bestDate[r] &&
            |row.values| == |selectedDates| &&
            (forall c :: 0 <= c < |dates| ==>
               dates[c] in d.labels &&
               row.values[c] == (if mode == Total then d.totals[IndexOf(d.labels, dates[c])][r]
                                 else d.deltas[IndexOf(d.labels, dates[c])][r]))
  {
    var dates := Sort(selectedDates);
    forall x | x in dates ensures x in d.labels { assert x in multiset(dates); }
  }

  /** In Delta mode the period that comes first in the file always shows 0. */
  lemma FirstPeriodDeltaShowsZero(raw: RawTable, names: seq<string>, selectedDates: seq<string>, k: nat, c: nat)
    requires WellFormed(raw) && |raw.labels| >= 1
    requires forall x :: x in selectedDates ==> x in raw.labels
    requires k < |Project(DeriveSpec(raw), names, selectedDates, Delta)|
    requires c < |selectedDates| && Sort(selectedDates)[c] == raw.labels[0]
    ensures Project(DeriveSpec(raw), names, selectedDates, Delta)[k].values[c] == Num(0)
  {
    var d := DeriveSpec(raw);
    ProjectSpec(d, names, selectedDates, Delta, k);
    assert IndexOf(d.labels, raw.labels[0]) == 0;
  }

  // ---------------------------------------------------------------------------
  // Headline metrics

  /** `dates[-1]`. */
  function LatestDate(dates: seq<string>): (latest: string)
    requires |dates| >= 1
    ensures latest in dates
  {
    dates[|dates| - 1]
  }

  /** `dates[-2]`. */
  function PrevDate(dates: seq<string>): (prev: string)
    requires |dates| >= 2
    ensures prev in dates
  {
    dates[|dates| - 2]
  }

  /** Of distinct period labels, the latest date is the greatest and the
      previous date the greatest of the others. */
  lemma LatestAndPrev(labels: seq<string>)
    requires NoDuplicates(labels) && |labels| >= 2
    ensures |Sort(labels)| == |labels|
    ensures LatestDate(Sort(labels)) in labels && PrevDate(Sort(labels)) in labels
    ensures Below(PrevDate(Sort(labels)), LatestDate(Sort(labels)))
    ensures forall x :: x in labels ==> AtMost(x, LatestDate(Sort(labels)))
    ensures forall x :: x in labels && x != LatestDate(Sort(labels)) ==> AtMost(x, PrevDate(Sort(labels)))
  {
    var s := Sort(labels);
    var n := |s|;
    SortDistinct(labels);
    forall x | x in labels
      ensures AtMost(x, s[n - 1])
      ensures x != s[n - 1] ==> AtMost(x, s[n - 2])
    {
      var i :| 0 <= i < n && s[i] == x;
      if i < n - 2 {
        assert Below(s[i], s[n - 2]);
      }
    }
  }

  /** The headline delta: `weekly_totals[latest] - weekly_totals[prev]`. */
  function HeadlineDelta(weekly: map<string, int>, latest: string, prev: string): (delta: int)
    requires latest in weekly && prev in weekly
    ensures weekly[prev] + delta == weekly[latest]
    ensures latest == prev ==> delta == 0
  {
    weekly[latest] - weekly[prev]
  }

  /** `(df[latest_total] != 0).sum()`: the cells that are not the number 0.
      A NaN cell counts, because NaN != 0 holds. */
  function Pax(col: seq<Cell>): (p: nat)
    ensures p <= |col|
    ensures p == 0 <==> forall i :: 0 <= i < |col| ==> col[i] == Num(0)
    ensures p == |col| <==> forall i :: 0 <= i < |col| ==> col[i] != Num(0)
  {
    if col == [] then 0
    else
      assert forall i :: 1 <= i < |col| ==> col[i] == col[1..][i - 1];
      (if col[0] != Num(0) then 1 else 0) + Pax(col[1..])
  }

  /** Pax is the number of rows minus the number of cells that are the number 0;
      in particular a NaN cell is counted as attempted. */
  lemma {:induction false} PaxCountsNonZero(col: seq<Cell>)
    ensures Pax(col) == |col| - multiset(col)[Num(0)]
  {
    if col != [] {
      assert col == [col[0]] + col[1..];
      PaxCountsNonZero(col[1..]);
    }
  }

  /** Summing a delta column over rows with no NaN gives the difference of the sums. */
  lemma {:induction false} ColumnSumOfDelta(cur: seq<Cell>, prev: seq<Cell>)
    requires |cur| == |prev|
    requires forall r :: 0 <= r < |cur| ==> cur[r].Num? && prev[r].Num?
    ensures ColumnSum(DeltaColumn(cur, prev)) == ColumnSum(cur) - ColumnSum(prev)
  {
    if cur != [] {
      assert DeltaColumn(cur, prev)[1..] == DeltaColumn(cur[1..], prev[1..]);
      ColumnSumOfDelta(cur[1..], prev[1..]);
    }
  }

  /** The difference of the last two periods' totals is the sum of the last
      delta column when those two periods have no NaN. */
  lemma LastDeltaSum(labels: seq<string>, totals: seq<seq<Cell>>, n: nat, weekly: map<string, int>)
    requires |labels| >= 2 && |totals| == |labels| && Rectangular(totals, n)
    requires forall j :: 0 <= j < |labels| ==> labels[j] in weekly && weekly[labels[j]] == ColumnSum(totals[j])
    requires forall j, r :: |labels| - 2 <= j < |labels| && 0 <= r < n ==> totals[j][r].Num?
    ensures labels[|labels| - 1] in weekly && labels[|labels| - 2] in weekly
    ensures weekly[labels[|labels| - 1]] - weekly[labels[|labels| - 2]] == ColumnSum(DeltaColumns(totals, n)[|labels| - 1])
  {
    var m := |labels|;
    var cur, prev := totals[m - 1], totals[m - 2];
    assert weekly[labels[m - 1]] == ColumnSum(cur) && weekly[labels[m - 2]] == ColumnSum(prev);
    assert DeltaColumns(totals, n)[m - 1] == DeltaColumn(cur, prev);
    forall r | 0 <= r < |cur| ensures cur[r].Num? && prev[r].Num? {
      assert totals[m - 1][r].Num? && totals[m - 2][r].Num?;
    }
    ColumnSumOfDelta(cur, prev);
  }

  /** When the file already lists the periods in label order and the last two
      periods have no NaN, the headline delta equals the sum of the latest
      delta column: the two period orders then agree. */
  lemma HeadlineDeltaIsLatestDeltaSum(labels: seq<string>, totals: seq<seq<Cell>>, n: nat, weekly: map<string, int>)
    requires |labels| >= 2 && |totals| == |labels| && Rectangular(totals, n)
    requires StrictlyAscending(labels)
    requires forall j :: 0 <= j < |labels| ==> labels[j] in weekly && weekly[labels[j]] == ColumnSum(totals[j])
    requires forall j, r :: |labels| - 2 <= j < |labels| && 0 <= r < n ==> totals[j][r].Num?
    ensures var dates := Sort(labels);
            LatestDate(dates) in weekly && PrevDate(dates) in weekly &&
            HeadlineDelta(weekly, LatestDate(dates), PrevDate(dates)) == ColumnSum(DeltaColumns(totals, n)[|labels| - 1])
  {
    SortOfAscending(labels);
    LastDeltaSum(labels, totals, n, weekly);
  }
}
