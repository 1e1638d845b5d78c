/** The per-session selection state and one pass of the dashboard script.
    Each key of the session store is a field; a key that is absent is `None`.
    Widget return values come from the presentation layer and are parameters. */
module Selection {
  import opened Ordering
  import opened Pipeline
  import opened View

  /** What a selection widget may hand back: normally a list, possibly a bare value or None. */
  datatype WidgetValue = ListValue(items: seq<string>) | ScalarValue(item: string) | NoValue

  /** Python truthiness of a non-list widget value. */
  predicate Truthy(w: WidgetValue)
  {
    w.ScalarValue? && w.item != ""
  }

  /** A non-list selection becomes a one-element list when truthy, else the empty list. */
  function AsList(w: WidgetValue): (xs: seq<string>)
    ensures w.ListValue? ==> xs == w.items
    ensures !w.ListValue? ==> (xs != [] <==> Truthy(w))
    ensures !w.ListValue? && xs != [] ==> xs == [w.item]
  {
    match w
    case ListValue(items) => items
    case ScalarValue(item) => if item != "" then [item] else []
    case NoValue => []
  }

  /** The headline metrics, shown when `ShowsHeadline` holds. */
  datatype Headline = Headline(thisWeek: int, delta: int, pax: nat, theoreticalHigh: int)

  /** The outcome of one pass: a restart after reset, or the rendered view. */
  datatype PassResult =
    | Rerun
    | Rendered(columns: seq<string>, rows: seq<DisplayRow>, headline: Option<Headline>)

  /** `sorted(date_columns)` and its last two elements, `dates[-1]` and `dates[-2]`. */
  method SortedDates(labels: seq<string>) returns (dates: seq<string>, latest: string, prev: string)
    requires NoDuplicates(labels) && |labels| >= 2
    ensures dates == Sort(labels) && |dates| == |labels|
    ensures latest == LatestDate(dates) && prev == PrevDate(dates)
    ensures latest in labels && prev in labels && latest != prev
  {
    LatestAndPrev(labels);
    BelowIrreflexive(PrevDate(Sort(labels)));
    dates := Sort(labels);
    latest := dates[|dates| - 1];
    prev := dates[|dates| - 2];
  }

  class Session {
    var names: seq<string>
    var dates: seq<string>
    var latestDate: string
    var prevDate: string
    var theoreticalHigh: int
    var weeklyTotals: map<string, int>
    var selectedNames: Option<seq<string>>
    var selectedDates: Option<seq<string>>
    var viewMode: Option<ViewMode>

    /** A fresh session: no selection key is present yet. */
    constructor ()
      ensures selectedNames == None && selectedDates == None && viewMode == None
      ensures names == [] && dates == [] && weeklyTotals == map[]
    {
      names, dates := [], [];
      latestDate, prevDate := "", "";
      theoreticalHigh := 0;
      weeklyTotals := map[];
      selectedNames, selectedDates, viewMode := None, None, None;
    }

    /** Stores the lists the sidebar offers: the sorted names and dates, and the
        latest and previous date. */
    method LoadLists(d: Derived)
      requires Shaped(d) && |d.labels| >= 2
      modifies this`names, this`dates, this`latestDate, this`prevDate
      ensures names == SortedNames(d.ign)
      ensures dates == Sort(d.labels) && |dates| == |d.labels|
      ensures latestDate == LatestDate(dates) && prevDate == PrevDate(dates)
      ensures latestDate in d.labels && prevDate in d.labels
    {
      dates, latestDate, prevDate := SortedDates(d.labels);
      names := SortedNames(d.ign);
    }

    /** Stores the aggregates the headline reads: the theoretical high and the
        total score of every date. */
    method LoadAggregates(d: Derived)
      requires Shaped(d)
      modifies this`theoreticalHigh, this`weeklyTotals
      ensures theoreticalHigh == TheoreticalHigh(d.best)
      ensures forall x :: x in weeklyTotals <==> x in d.labels
      ensures forall j :: 0 <= j < |d.labels| ==> weeklyTotals[d.labels[j]] == ColumnSum(d.totals[j])
    {
      var weekly := WeeklyTotals(d.labels, d.totals);
      theoreticalHigh := TheoreticalHigh(d.best);
      weeklyTotals := weekly;
    }

    /** A missing selection key gets its default: all names, all dates, Total. */
    method ApplyDefaults()
      modifies this`selectedNames, this`selectedDates, this`viewMode
      ensures selectedNames == if old(selectedNames).None? then Some(names) else old(selectedNames)
      ensures selectedDates == if old(selectedDates).None? then Some(dates) else old(selectedDates)
      ensures viewMode == if old(viewMode).None? then Some(Total) else old(viewMode)
    {
      if selectedNames.None? { selectedNames := Some(names); }
      if selectedDates.None? { selectedDates := Some(dates); }
      if viewMode.None? { viewMode := Some(Total); }
    }

    /** The reset button deletes the three selection keys. */
    method Reset()
      modifies this`selectedNames, this`selectedDates, this`viewMode
      ensures selectedNames == None && selectedDates == None && viewMode == None
    {
      selectedNames, selectedDates, viewMode := None, None, None;
    }

    /** Stores the names multiselect's value, wrapped into a list if it is not one. */
    method TakeNames(w: WidgetValue)
      modifies this`selectedNames
      ensures selectedNames == Some(AsList(w))
    {
      selectedNames := Some(AsList(w));
    }

    /** Stores the dates multiselect's value, wrapped into a list if it is not one. */
    method TakeDates(w: WidgetValue)
      modifies this`selectedDates
      ensures selectedDates == Some(AsList(w))
    {
      selectedDates := Some(AsList(w));
    }

    /** The radio button owns the `view_mode` key: its value is stored there. */
    method TakeViewMode(m: ViewMode) returns (mode: ViewMode)
      modifies this`viewMode
      ensures viewMode == Some(m) && mode == m
    {
      viewMode := Some(m);
      mode := m;
    }

    /** The headline is shown only when every name and every date is selected, in
        the lists' own order, and the view mode is Total. */
    predicate ShowsHeadline()
      reads this
      ensures ShowsHeadline() ==> viewMode == Some(Total)
      ensures ShowsHeadline() ==> selectedNames.Some? && forall x :: x in names ==> x in selectedNames.value
      ensures ShowsHeadline() ==> selectedDates.Some? && forall x :: x in dates ==> x in selectedDates.value
    {
      selectedNames == Some(names) && selectedDates == Some(dates) && viewMode == Some(Total)
    }

    /** The headline that `streamlit_app.py` lines 123-132 compute from the
        stored aggregates and the latest total column. */
    function HeadlineOf(d: Derived): Headline
      requires Shaped(d) && latestDate in d.labels
      requires latestDate in weeklyTotals && prevDate in weeklyTotals
      reads this
    {
      Headline(weeklyTotals[latestDate], HeadlineDelta(weeklyTotals, latestDate, prevDate),
               Pax(d.totals[IndexOf(d.labels, latestDate)]), theoreticalHigh)
    }

    /** This week's total, its change over the previous period, the players
        whose latest total is not 0 (NaN included) and the theoretical high. */
    method HeadlineMetrics(d: Derived) returns (h: Headline)
      requires Shaped(d) && latestDate in d.labels
      requires latestDate in weeklyTotals && prevDate in weeklyTotals
      ensures h.thisWeek == weeklyTotals[latestDate]
      ensures h.delta == HeadlineDelta(weeklyTotals, latestDate, prevDate)
      ensures h.pax == Pax(d.totals[IndexOf(d.labels, latestDate)])
      ensures h.theoreticalHigh == theoreticalHigh
    {
      var latest := weeklyTotals[latestDate];
      var delta := latest - weeklyTotals[prevDate];
      var pax := Pax(d.totals[IndexOf(d.labels, latestDate)]);
      h := Headline(latest, delta, pax, theoreticalHigh);
    }

    /** The part of a pass after the reset button: the widget values are
        taken, the table is projected and, when the selection equals the stored
        lists in the Total mode, the headline metrics are computed. */
    method Render(d: Derived, namesPick: WidgetValue, datesPick: WidgetValue, modePick: ViewMode)
      returns (out: PassResult)
      requires Shaped(d) && forall x :: x in AsList(datesPick) ==> x in d.labels
      requires latestDate in d.labels && latestDate in weeklyTotals && prevDate in weeklyTotals
      modifies this`selectedNames, this`selectedDates, this`viewMode
      ensures selectedNames == Some(AsList(namesPick)) && selectedDates == Some(AsList(datesPick))
      ensures viewMode == Some(modePick)
      ensures out.Rendered?
      ensures out.columns == DisplayColumns(AsList(datesPick), modePick)
      ensures out.rows == Project(d, AsList(namesPick), AsList(datesPick), modePick)
      ensures out.headline.Some? <==> ShowsHeadline()
      ensures out.headline.Some? ==> out.headline.value == HeadlineOf(d)
    {
      TakeNames(namesPick);
      TakeDates(datesPick);
      var mode := TakeViewMode(modePick);
      var selected := selectedDates.value;
      var rows := Project(d, selectedNames.value, selected, mode);
      var headline: Option<Headline> := None;
      if ShowsHeadline() {
        var h := HeadlineMetrics(d);
        headline := Some(h);
      }
      out := Rendered(DisplayColumns(selected, mode), rows, headline);
    }

    /** The top of the script after the derivation: the lists and aggregates
        the sidebar and headline read are stored. */
    method Load(d: Derived)
      requires Shaped(d) && |d.labels| >= 2
      modifies this`names, this`dates, this`latestDate, this`prevDate, this`theoreticalHigh, this`weeklyTotals
      ensures names == SortedNames(d.ign) && dates == Sort(d.labels)
      ensures latestDate == LatestDate(dates) && prevDate == PrevDate(dates)
      ensures theoreticalHigh == TheoreticalHigh(d.best)
      ensures forall x :: x in weeklyTotals <==> x in d.labels
      ensures forall j :: 0 <= j < |d.labels| ==> weeklyTotals[d.labels[j]] == ColumnSum(d.totals[j])
      ensures latestDate in d.labels && latestDate in weeklyTotals && prevDate in weeklyTotals
    {
      LoadLists(d);
      LoadAggregates(d);
    }

    /** The rest of the script after loading: the defaults for missing keys, the
        reset button and, if it was not pressed, the rendering. */
    method Interact(d: Derived, resetPressed: bool, namesPick: WidgetValue, datesPick: WidgetValue, modePick: ViewMode)
      returns (out: PassResult)
      requires Shaped(d) && forall x :: x in AsList(datesPick) ==> x in d.labels
      requires latestDate in d.labels && latestDate in weeklyTotals && prevDate in weeklyTotals
      modifies this`selectedNames, this`selectedDates, this`viewMode
      ensures resetPressed ==> out == Rerun && selectedNames == None && selectedDates == None && viewMode == None
      ensures !resetPressed ==>
                selectedNames == Some(AsList(namesPick)) && selectedDates == Some(AsList(datesPick)) &&
                viewMode == Some(modePick) &&
                out.Rendered? &&
                out.columns == DisplayColumns(AsList(datesPick), modePick) &&
                out.rows == Project(d, AsList(namesPick), AsList(datesPick), modePick) &&
                (out.headline.Some? <==> ShowsHeadline()) &&
                (out.headline.Some? ==> out.headline.value == HeadlineOf(d))
    {
      ApplyDefaults();
      if resetPressed {
        Reset();
        return Rerun;
      }
      out := Render(d, namesPick, datesPick, modePick);
    }

    /** A pass over an already derived table: the stores, the defaults for
        missing keys, the reset button and, if it was not pressed, the rendering. */
    method Run(d: Derived, resetPressed: bool, namesPick: WidgetValue, datesPick: WidgetValue, modePick: ViewMode)
      returns (out: PassResult)
      requires Shaped(d) && |d.labels| >= 2
      requires forall x :: x in AsList(datesPick) ==> x in d.labels
      modifies this
      ensures names == SortedNames(d.ign) && dates == Sort(d.labels)
      ensures latestDate == LatestDate(dates) && prevDate == PrevDate(dates)
      ensures theoreticalHigh == TheoreticalHigh(d.best)
      ensures forall x :: x in weeklyTotals <==> x in d.labels
      ensures forall j :: 0 <= j < |d.labels| ==> weeklyTotals[d.labels[j]] == ColumnSum(d.totals[j])
      ensures latestDate in d.labels && latestDate in weeklyTotals && prevDate in weeklyTotals
      ensures resetPressed ==> out == Rerun && selectedNames == None && selectedDates == None && viewMode == None
      ensures !resetPressed ==>
                selectedNames == Some(AsList(namesPick)) && selectedDates == Some(AsList(datesPick)) &&
                viewMode == Some(modePick) &&
                out.Rendered? &&
                out.columns == DisplayColumns(AsList(datesPick), modePick) &&
                out.rows == Project(d, AsList(namesPick), AsList(datesPick), modePick) &&
                (out.headline.Some? <==> ShowsHeadline()) &&
                (out.headline.Some? ==> out.headline.value == HeadlineOf(d))
    {
      Load(d);
      out := Interact(d, resetPressed, namesPick, datesPick, modePick);
    }

    /** One run of the script from the top. A pressed reset button deletes the
        selection keys and asks for a rerun; otherwise the pass renders. */
    method Pass(raw: RawTable, resetPressed: bool, namesPick: WidgetValue, datesPick: WidgetValue, modePick: ViewMode)
      returns (out: PassResult)
      requires WellFormed(raw) && |raw.labels| >= 2
      requires forall x :: x in AsList(datesPick) ==> x in raw.labels
      modifies this
      ensures names == SortedNames(raw.ign) && dates == Sort(raw.labels)
      ensures latestDate == LatestDate(dates) && prevDate == PrevDate(dates)
      ensures theoreticalHigh == TheoreticalHigh(DeriveSpec(raw).best)
      ensures forall x :: x in weeklyTotals <==> x in raw.labels
      ensures forall j :: 0 <= j < |raw.labels| ==> weeklyTotals[raw.labels[j]] == ColumnSum(DeriveSpec(raw).totals[j])
      ensures latestDate in raw.labels && latestDate in weeklyTotals && prevDate in weeklyTotals
      ensures resetPressed ==> out == Rerun && selectedNames == None && selectedDates == None && viewMode == None
      ensures !resetPressed ==>
                selectedNames == Some(AsList(namesPick)) && selectedDates == Some(AsList(datesPick)) &&
                viewMode == Some(modePick) &&
                out.Rendered? &&
                out.columns == DisplayColumns(AsList(datesPick), modePick) &&
                out.rows == Project(DeriveSpec(raw), AsList(namesPick), AsList(datesPick), modePick) &&
                (out.headline.Some? <==> ShowsHeadline()) &&
                (out.headline.Some? ==> out.headline.value == HeadlineOf(DeriveSpec(raw)))
    {
      var d := Derive(raw);
      out := Run(d, resetPressed, namesPick, datesPick, modePick);
    }

    /** The top of a pass that finds the three selection keys absent: after the
        stores, the defaults are all names, all dates and the Total view. */
    method Restart(d: Derived)
      requires Shaped(d) && |d.labels| >= 2
      requires selectedNames == None && selectedDates == None && viewMode == None
      modifies this
      ensures names == SortedNames(d.ign) && dates == Sort(d.labels)
      ensures latestDate == LatestDate(dates) && prevDate == PrevDate(dates)
      ensures theoreticalHigh == TheoreticalHigh(d.best)
      ensures forall x :: x in weeklyTotals <==> x in d.labels
      ensures forall j :: 0 <= j < |d.labels| ==> weeklyTotals[d.labels[j]] == ColumnSum(d.totals[j])
      ensures latestDate in d.labels && latestDate in weeklyTotals && prevDate in weeklyTotals
      ensures selectedNames == Some(SortedNames(d.ign))
      ensures selectedDates == Some(Sort(d.labels))
      ensures viewMode == Some(Total)
    {
      Load(d);
      ApplyDefaults();
    }

    /** After a reset the next pass finds the three keys absent and restores the
        defaults: all names, all dates and the Total view. */
    method ResetThenRerun(raw: RawTable)
      requires WellFormed(raw) && |raw.labels| >= 2
      modifies this
      ensures selectedNames == Some(SortedNames(raw.ign))
      ensures selectedDates == Some(Sort(raw.labels))
      ensures viewMode == Some(Total)
    {
      var out := Pass(raw, true, NoValue, NoValue, Total);
      var d := Derive(raw);
      Restart(d);
    }
  }
}
