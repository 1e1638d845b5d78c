/** The derivation of the score table: cleaning, the total and delta series,
    each player's Personal Best and its date, and the per-period sums.
    A table is held column by column, as a DataFrame is: `ign` is the IGN
    column and `cols[j]` the period column headed `labels[j]`, in file order. */
module Pipeline {
  import opened Cells
  import opened Ordering

  /** The table as loaded: one row per player, cells still text. */
  datatype RawTable = RawTable(ign: seq<Option<string>>, labels: seq<string>, cols: seq<seq<string>>)

  /** Every period column has one cell per row and the column labels are distinct. */
  predicate WellFormed(raw: RawTable)
  {
    |raw.cols| == |raw.labels| && NoDuplicates(raw.labels) &&
    forall j :: 0 <= j < |raw.cols| ==> |raw.cols[j]| == |raw.ign|
  }

  predicate Rectangular(cols: seq<seq<Cell>>, n: nat)
  {
    forall j :: 0 <= j < |cols| ==> |cols[j]| == n
  }

  // ---------------------------------------------------------------------------
  // Cleaning

  function CleanColumn(col: seq<string>): (r: seq<Cell>)
    ensures |r| == |col|
  {
    seq(|col|, i requires 0 <= i < |col| => CleanCell(col[i]))
  }

  function Cleaned(raw: RawTable): (totals: seq<seq<Cell>>)
    requires WellFormed(raw)
    ensures |totals| == |raw.cols| && Rectangular(totals, |raw.ign|)
  {
    seq(|raw.cols|, j requires 0 <= j < |raw.cols| => CleanColumn(raw.cols[j]))
  }

  /** The cleaning loop: each period column is replaced, column by column,
      by its cells with commas stripped and coerced to numbers. */
  method CleanTable(raw: RawTable) returns (totals: seq<seq<Cell>>)
    requires WellFormed(raw)
    ensures |totals| == |raw.cols| && Rectangular(totals, |raw.ign|)
    ensures forall j, i :: 0 <= j < |totals| && 0 <= i < |raw.ign| ==>
              totals[j][i] == CleanCell(raw.cols[j][i])
    ensures totals == Cleaned(raw)
  {
    totals := [];
    for j := 0 to |raw.cols|
      invariant |totals| == j
      invariant forall k :: 0 <= k < j ==> totals[k] == CleanColumn(raw.cols[k])
    {
      totals := totals + [CleanColumn(raw.cols[j])];
    }
  }

  // ---------------------------------------------------------------------------
  // Delta series

  function Zeros(n: nat): (z: seq<Cell>)
    ensures |z| == n
  {
    seq(n, _ => Num(0))
  }

  /** `df[curr_col] - df[prev_col]`. */
  function DeltaColumn(cur: seq<Cell>, prev: seq<Cell>): (d: seq<Cell>)
    requires |cur| == |prev|
    ensures |d| == |cur|
  {
    seq(|cur|, r requires 0 <= r < |cur| => Difference(cur[r], prev[r]))
  }

  /** The delta column of every period, in file order: the first is all zeros. */
  function DeltaColumns(totals: seq<seq<Cell>>, n: nat): (deltas: seq<seq<Cell>>)
    requires |totals| >= 1 && Rectangular(totals, n)
    ensures |deltas| == |totals| && Rectangular(deltas, n)
  {
    [Zeros(n)] + seq(|totals| - 1, i requires 0 <= i < |totals| - 1 => DeltaColumn(totals[i + 1], totals[i]))
  }

  /** The delta loop: one new column per period after the first, then the
      first period's delta set to 0 for every row. */
  method ComputeDeltas(totals: seq<seq<Cell>>, n: nat) returns (deltas: seq<seq<Cell>>)
    requires |totals| >= 1 && Rectangular(totals, n)
    ensures |deltas| == |totals| && Rectangular(deltas, n)
    ensures deltas == DeltaColumns(totals, n)
  {
    var later: seq<seq<Cell>> := [];
    for i := 1 to |totals|
      invariant |later| == i - 1
      invariant forall k :: 0 <= k < i - 1 ==> later[k] == DeltaColumn(totals[k + 1], totals[k])
    {
      later := later + [DeltaColumn(totals[i], totals[i - 1])];
    }
    DeltasFromLater(totals, n, later);
    deltas := [Zeros(n)] + later;
  }

  /** The first period's zeros followed by the differences of consecutive periods. */
  lemma DeltasFromLater(totals: seq<seq<Cell>>, n: nat, later: seq<seq<Cell>>)
    requires |totals| >= 1 && Rectangular(totals, n) && |later| == |totals| - 1
    requires forall k :: 0 <= k < |later| ==> later[k] == DeltaColumn(totals[k + 1], totals[k])
    ensures [Zeros(n)] + later == DeltaColumns(totals, n)
  {
    var deltas, spec := [Zeros(n)] + later, DeltaColumns(totals, n);
    forall i | 0 <= i < |deltas| ensures deltas[i] == spec[i] {
      if i > 0 { assert deltas[i] == later[i - 1]; }
    }
  }

  lemma DeltaColumnsAt(totals: seq<seq<Cell>>, n: nat, i: nat, r: nat)
    requires |totals| >= 1 && Rectangular(totals, n) && i < |totals| && r < n
    ensures DeltaColumns(totals, n)[i][r] == if i == 0 then Num(0) else Difference(totals[i][r], totals[i - 1][r])
  {
    if i > 0 {
      assert DeltaColumns(totals, n)[i] == DeltaColumn(totals[i], totals[i - 1]);
    }
  }

  /** Row r's delta in period i is its total minus its total in period i - 1,
      missing when either is; in the first period every delta is 0. */
  lemma DeltaColumnsSpec(totals: seq<seq<Cell>>, n: nat)
    requires |totals| >= 1 && Rectangular(totals, n)
    ensures forall r :: 0 <= r < n ==> DeltaColumns(totals, n)[0][r] == Num(0)
    ensures forall i, r :: 1 <= i < |totals| && 0 <= r < n ==>
              DeltaColumns(totals, n)[i][r] == Difference(totals[i][r], totals[i - 1][r])
  {
    forall i, r | 0 <= i < |totals| && 0 <= r < n
      ensures DeltaColumns(totals, n)[i][r] == if i == 0 then Num(0) else Difference(totals[i][r], totals[i - 1][r])
    {
      DeltaColumnsAt(totals, n, i, r);
    }
  }

  /** Sum of row r's deltas over the first k + 1 periods, missing deltas counted as 0. */
  function RunningDelta(deltas: seq<seq<Cell>>, n: nat, r: nat, k: nat): int
    requires Rectangular(deltas, n) && r < n && k < |deltas|
  {
    ValueOrZero(deltas[k][r]) + (if k == 0 then 0 else RunningDelta(deltas, n, r, k - 1))
  }

  /** The delta series integrates back to the total series: where a row's first
      k + 1 totals are all present, its k-th total is its first total plus the
      running sum of its deltas. */
  lemma {:induction false} DeltasTelescope(totals: seq<seq<Cell>>, n: nat, r: nat, k: nat)
    requires |totals| >= 1 && Rectangular(totals, n) && r < n && k < |totals|
    requires forall i :: 0 <= i <= k ==> totals[i][r].Num?
    ensures totals[k][r].value == totals[0][r].value + RunningDelta(DeltaColumns(totals, n), n, r, k)
  {
    var deltas := DeltaColumns(totals, n);
    if k > 0 {
      DeltasTelescope(totals, n, r, k - 1);
      assert deltas[k] == DeltaColumn(totals[k], totals[k - 1]);
      assert deltas[k][r] == Difference(totals[k][r], totals[k - 1][r]);
    } else {
      assert deltas[0] == Zeros(n);
    }
  }

  // ---------------------------------------------------------------------------
  // Personal Best and its date

  /** Row r across the period columns, in file order. */
  function RowOf(cols: seq<seq<Cell>>, r: nat): (row: seq<Cell>)
    requires forall j :: 0 <= j < |cols| ==> r < |cols[j]|
    ensures |row| == |cols|
    ensures forall j :: 0 <= j < |cols| ==> row[j] == cols[j][r]
  {
    seq(|cols|, j requires 0 <= j < |cols| => cols[j][r])
  }

  /** `df[total_cols].max(axis=1)` for one row: the largest present total, skipping NaN. */
  function PersonalBest(row: seq<Cell>): (pb: Cell)
    ensures pb.Missing? <==> forall j :: 0 <= j < |row| ==> row[j].Missing?
    ensures pb.Num? ==> forall j :: 0 <= j < |row| && row[j].Num? ==> row[j].value <= pb.value
    ensures pb.Num? ==> exists j :: 0 <= j < |row| && row[j] == pb
  {
    if row == [] then Missing
    else
      var rest := PersonalBest(row[1..]);
      assert forall j :: 1 <= j < |row| ==> row[j] == row[1..][j - 1];
      if row[0].Missing? then rest
      else if rest.Num? && row[0].value < rest.value then rest
      else row[0]
  }

  /** The first period at or after `from` whose cell is the number `target`. */
  function FindFrom(row: seq<Cell>, target: int, from: nat): (k: Option<nat>)
    requires from <= |row|
    ensures k.Some? ==> from <= k.value < |row| && row[k.value] == Num(target)
    ensures k.Some? ==> forall m :: from <= m < k.value ==> row[m] != Num(target)
    ensures k.None? ==> forall m :: from <= m < |row| ==> row[m] != Num(target)
    decreases |row| - from
  {
    if from == |row| then None
    else if row[from] == Num(target) then Some(from)
    else FindFrom(row, target, from + 1)
  }

  /** The column of the Personal Best: the first total, in file order, that is
      present and equal to the Personal Best; none when the Personal Best is NaN. */
  function BestColumn(row: seq<Cell>): (k: Option<nat>)
    ensures k.None? <==> PersonalBest(row).Missing?
    ensures k.Some? ==> k.value < |row| && row[k.value].Num? && row[k.value] == PersonalBest(row)
    ensures k.Some? ==> forall m :: 0 <= m < k.value ==> row[m] != PersonalBest(row)
  {
    match PersonalBest(row)
    case Missing => None
    case Num(b) => FindFrom(row, b, 0)
  }

  /** The label of the Personal Best's column, or None. */
  function DateOfBest(labels: seq<string>, row: seq<Cell>): Option<string>
    requires |labels| == |row|
  {
    match BestColumn(row)
    case None => None
    case Some(k) => Some(labels[k])
  }

  /** The Date of Personal Best loop: one scan per row. */
  method DatesOfBest(labels: seq<string>, totals: seq<seq<Cell>>, n: nat, best: seq<Cell>)
    returns (found: seq<Option<string>>)
    requires |totals| == |labels| && Rectangular(totals, n)
    requires |best| == n && forall r :: 0 <= r < n ==> best[r] == PersonalBest(RowOf(totals, r))
    ensures |found| == n
    ensures forall r :: 0 <= r < n ==> found[r] == DateOfBest(labels, RowOf(totals, r))
  {
    found := [];
    for r := 0 to n
      invariant |found| == r
      invariant forall q :: 0 <= q < r ==> found[q] == DateOfBest(labels, RowOf(totals, q))
    {
      var date := ScanRow(labels, totals, n, r, best[r]);
      found := found + [date];
    }
  }

  /** The inner scan for row r: the total columns in file order, stopping at
      the first present value equal to the Personal Best `pb`. */
  method ScanRow(labels: seq<string>, totals: seq<seq<Cell>>, n: nat, r: nat, pb: Cell)
    returns (date: Option<string>)
    requires |totals| == |labels| && Rectangular(totals, n) && r < n
    requires pb == PersonalBest(RowOf(totals, r))
    ensures date == DateOfBest(labels, RowOf(totals, r))
  {
    date := None;
    var j := 0;
    while j < |totals|
      invariant 0 <= j <= |totals|
      invariant date.None?
      invariant forall m :: 0 <= m < j ==> !(totals[m][r].Num? && totals[m][r] == pb)
    {
      if totals[j][r].Num? && totals[j][r] == pb {
        date := Some(labels[j]);
        break;
      }
      j := j + 1;
    }
    ghost var row := RowOf(totals, r);
    if date.Some? {
      assert row[j].Num? && row[j] == PersonalBest(row);
      assert BestColumn(row) == Some(j);
    }
  }

  // ---------------------------------------------------------------------------
  // Sums that skip NaN

  /** `Series.sum()`: the sum of the present cells; an all-NaN column sums to 0. */
  function ColumnSum(col: seq<Cell>): (s: int)
    ensures (forall i :: 0 <= i < |col| && col[i].Num? ==> col[i].value >= 0) ==> s >= 0
  {
    if col == [] then 0 else ValueOrZero(col[0]) + ColumnSum(col[1..])
  }

  /** The present values of a column, in order. */
  function PresentValues(col: seq<Cell>): (vs: seq<int>)
    ensures |vs| <= |col|
    ensures forall v :: v in vs <==> Num(v) in col
  {
    if col == [] then []
    else
      assert col == [col[0]] + col[1..];
      (if col[0].Num? then [col[0].value] else []) + PresentValues(col[1..])
  }

  function Sum(vs: seq<int>): int
  {
    if vs == [] then 0 else vs[0] + Sum(vs[1..])
  }

  lemma {:induction false} SumAppend(a: seq<int>, b: seq<int>)
    ensures Sum(a + b) == Sum(a) + Sum(b)
  {
    if a == [] {
      assert a + b == b;
    } else {
      assert (a + b)[1..] == a[1..] + b;
      SumAppend(a[1..], b);
    }
  }

  /** A NaN-skipping column sum is the plain sum of the column's present values. */
  lemma {:induction false} ColumnSumIsSumOfPresent(col: seq<Cell>)
    ensures ColumnSum(col) == Sum(PresentValues(col))
  {
    if col != [] {
      ColumnSumIsSumOfPresent(col[1..]);
      var head := if col[0].Num? then [col[0].value] else [];
      SumAppend(head, PresentValues(col[1..]));
    }
  }

  lemma {:induction false} ColumnSumAllMissing(col: seq<Cell>)
    requires forall i :: 0 <= i < |col| ==> col[i].Missing?
    ensures ColumnSum(col) == 0
  {
    if col != [] {
      ColumnSumAllMissing(col[1..]);
    }
  }

  /** Sums are monotone in each cell's contribution. */
  lemma {:induction false} ColumnSumDominated(a: seq<Cell>, b: seq<Cell>)
    requires |a| == |b|
    requires forall i :: 0 <= i < |a| ==> ValueOrZero(a[i]) <= ValueOrZero(b[i])
    ensures ColumnSum(a) <= ColumnSum(b)
  {
    if a != [] {
      ColumnSumDominated(a[1..], b[1..]);
    }
  }

  /** The weekly-totals loop: a dictionary from each period label to the
      NaN-skipping sum of its total column. */
  method WeeklyTotals(labels: seq<string>, totals: seq<seq<Cell>>) returns (weekly: map<string, int>)
    requires |totals| == |labels| && NoDuplicates(labels)
    ensures forall d :: d in weekly <==> d in labels
    ensures forall j :: 0 <= j < |labels| ==> weekly[labels[j]] == ColumnSum(totals[j])
  {
    weekly := map[];
    for j := 0 to |labels|
      invariant forall d :: d in weekly <==> d in labels[..j]
      invariant forall k :: 0 <= k < j ==> weekly[labels[k]] == ColumnSum(totals[k])
    {
      assert labels[..j + 1] == labels[..j] + [labels[j]];
      weekly := weekly[labels[j] := ColumnSum(totals[j])];
    }
    assert labels[..|labels|] == labels;
  }

  /** The Personal Best column. */
  function Bests(totals: seq<seq<Cell>>, n: nat): (best: seq<Cell>)
    requires Rectangular(totals, n)
    ensures |best| == n
    ensures forall r :: 0 <= r < n ==> (best[r].Missing? <==> forall j :: 0 <= j < |totals| ==> totals[j][r].Missing?)
    ensures forall r, j :: 0 <= r < n && 0 <= j < |totals| && best[r].Num? && totals[j][r].Num? ==>
              totals[j][r].value <= best[r].value
    ensures forall r :: 0 <= r < n && best[r].Num? ==> exists j :: 0 <= j < |totals| && totals[j][r] == best[r]
  {
    seq(n, r requires 0 <= r < n => PersonalBest(RowOf(totals, r)))
  }

  /** `int(df['Personal Best'].sum())`: players whose Personal Best is NaN add nothing.
      With integer cells the truncation to int is the identity. */
  function TheoreticalHigh(best: seq<Cell>): (t: int)
    ensures t == Sum(PresentValues(best))
  {
    ColumnSumIsSumOfPresent(best);
    ColumnSum(best)
  }

  /** When no score is negative, no period's total exceeds the theoretical high. */
  lemma WeeklyAtMostTheoreticalHigh(totals: seq<seq<Cell>>, n: nat, j: nat)
    requires Rectangular(totals, n) && j < |totals|
    requires forall k, r :: 0 <= k < |totals| && 0 <= r < n && totals[k][r].Num? ==> totals[k][r].value >= 0
    ensures ColumnSum(totals[j]) <= TheoreticalHigh(Bests(totals, n))
  {
    var best := Bests(totals, n);
    forall r | 0 <= r < n ensures ValueOrZero(totals[j][r]) <= ValueOrZero(best[r]) {
      var row := RowOf(totals, r);
      assert row[j] == totals[j][r];
      if best[r].Num? {
        var k :| 0 <= k < |row| && row[k] == best[r];
        assert row[k] == totals[k][r];
      }
    }
    ColumnSumDominated(totals[j], best);
  }

  // ---------------------------------------------------------------------------
  // The derived table

  /** The table after derivation; `deltas[j]` is the delta column of `labels[j]`. */
  datatype Derived = Derived(
    ign: seq<Option<string>>,
    labels: seq<string>,
    totals: seq<seq<Cell>>,
    deltas: seq<seq<Cell>>,
    best: seq<Cell>,
    bestDate: seq<Option<string>>)

  predicate Shaped(d: Derived)
  {
    var n := |d.ign|;
    |d.totals| == |d.labels| && |d.deltas| == |d.labels| && NoDuplicates(d.labels) &&
    Rectangular(d.totals, n) && Rectangular(d.deltas, n) && |d.best| == n && |d.bestDate| == n
  }

  function BestDates(labels: seq<string>, totals: seq<seq<Cell>>, n: nat): (dates: seq<Option<string>>)
    requires |totals| == |labels| && Rectangular(totals, n)
    ensures |dates| == n
  {
    seq(n, r requires 0 <= r < n => DateOfBest(labels, RowOf(totals, r)))
  }

  function DeriveSpec(raw: RawTable): (d: Derived)
    requires WellFormed(raw) && |raw.labels| >= 1
    ensures Shaped(d)
  {
    var n := |raw.ign|;
    var totals := Cleaned(raw);
    Derived(raw.ign, raw.labels, totals, DeltaColumns(totals, n), Bests(totals, n), BestDates(raw.labels, totals, n))
  }

  /** The derivation pass, stage by stage. The IGN column and the row order
      are carried through unchanged. */
  method Derive(raw: RawTable) returns (d: Derived)
    requires WellFormed(raw) && |raw.labels| >= 1
    ensures d.ign == raw.ign && d.labels == raw.labels
    ensures Shaped(d)
    ensures d == DeriveSpec(raw)
  {
    var n := |raw.ign|;
    var totals := CleanTable(raw);
    var deltas := ComputeDeltas(totals, n);
    var best := Bests(totals, n);
    var dates := DatesOfBest(raw.labels, totals, n, best);
    assert dates == BestDates(raw.labels, totals, n);
    d := Derived(raw.ign, raw.labels, totals, deltas, best, dates);
  }
}
