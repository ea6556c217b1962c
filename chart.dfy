/** The dual-axis chart of one dashboard, `create_dashboard_plot`
    (app.py, lines 6-115): one trace per selected indicator, level
    indicators on the left axis, index indicators on the right one, colours
    by position, and the axis layout decided by which kinds are selected. */
module Chart {
  import opened Wrappers
  import opened Seqs
  import opened Indicators
  import opened TimeAxis

  /** `colors`. */
  const Palette: seq<string> := ["#1f77b4", "#ff7f0e", "#2ca02c"]

  const XAxisTitle: string := "Zeitraum"
  const LeftAxisTitle: string := "Wert (Nicht-Index Indikatoren)"
  const RightAxisTitle: string := "Index-Wert"

  /** The dashboards that draw a secondary axis for index indicators. */
  const DualAxisDashboards: seq<string> := ["Konjunktur", "Arbeitsmarkt"]

  /** A trace's `yaxis`: 'y1' (left) or 'y2' (right). */
  datatype AxisRef = Y1 | Y2

  /** A `go.Scatter` trace: its name, the x labels, the y values, its axis
      and its line colour. */
  datatype Trace = Trace(name: string, x: seq<string>, y: seq<Cell>, yaxis: AxisRef, color: string)

  /** `yaxis2`: title, `overlaying` and `side`. */
  datatype SecondaryAxis = SecondaryAxis(title: Option<string>, overlaying: string, side: string)

  /** The decisions of `fig.update_layout`: the chart and x-axis titles, the
      left axis title, and the secondary axis when there is one. */
  datatype Layout = Layout(title: string, xTitle: string, leftTitle: Option<string>, secondary: Option<SecondaryAxis>)

  datatype Figure = Figure(traces: seq<Trace>, layout: Layout)

  /** What one call produces: the prompt shown for an empty selection, the
      chart, or the `KeyError` raised for an indicator that is not a column
      of the table (it ends in the error message of app.py, line 333). */
  datatype Output = Prompt(message: string) | Plotted(figure: Figure) | Failed(missingColumn: string)

  /** `f"Bitte Indikatoren für {dashboard_name} auswählen"`. */
  function PleaseSelect(dashboard: string): string
  {
    "Bitte Indikatoren für " + dashboard + " auswählen"
  }

  /** `f"Entwicklung ({dashboard_name})"`. */
  function ChartTitle(dashboard: string): string
  {
    "Entwicklung (" + dashboard + ")"
  }

  /** `filtered_df['Zeitachse']`. */
  function TimeLabels(frame: TimeFrame): seq<string>
  {
    seq(|frame.rows|, i requires 0 <= i < |frame.rows| => frame.rows[i].timeLabel)
  }

  function CellOf(r: Row, name: string): Cell
  {
    if name in r.values then r.values[name] else Missing
  }

  /** `filtered_df[indicator]`, for a column of the table. */
  function Column(frame: TimeFrame, name: string): seq<Cell>
  {
    seq(|frame.rows|, i requires 0 <= i < |frame.rows| => CellOf(frame.rows[i].row, name))
  }

  /** The keyword arguments of `fig.update_layout` that the model keeps. */
  function LayoutFor(dashboard: string, levels: seq<string>, indices: seq<string>): Layout
  {
    Layout(
      ChartTitle(dashboard),
      XAxisTitle,
      if levels != [] then Some(LeftAxisTitle) else None,
      if dashboard in DualAxisDashboards && indices != [] then
        Some(SecondaryAxis(if indices != [] then Some(RightAxisTitle) else None, "y", "right"))
      else None)
  }

  /** The trace for one indicator. */
  function TraceFor(frame: TimeFrame, name: string, yaxis: AxisRef, color: string): Trace
  {
    Trace(name, TimeLabels(frame), Column(frame, name), yaxis, color)
  }

  /** The order in which the two loops of app.py, lines 16-35, add traces:
      the level indicators, then the index indicators. */
  function TraceOrder(selected: seq<string>): seq<string>
  {
    Levels(selected) + Indices(selected)
  }

  /** The traces one of those loops adds for `names` on `yaxis`, the k-th in
      colour `colors[k + offset]`. */
  function TraceRun(frame: TimeFrame, names: seq<string>, yaxis: AxisRef, offset: nat): seq<Trace>
    requires offset + |names| <= |Palette|
  {
    seq(|names|, k requires 0 <= k < |names| => TraceFor(frame, names[k], yaxis, Palette[k + offset]))
  }

  /** One more loop iteration adds one trace at the end. */
  lemma TraceRunStep(frame: TimeFrame, before: seq<Trace>, names: seq<string>, yaxis: AxisRef, offset: nat, i: nat)
    requires i < |names| && offset + |names| <= |Palette|
    ensures before + TraceRun(frame, names[..i + 1], yaxis, offset)
            == before + TraceRun(frame, names[..i], yaxis, offset) + [TraceFor(frame, names[i], yaxis, Palette[i + offset])]
  {
    assert TraceRun(frame, names[..i + 1], yaxis, offset)
           == TraceRun(frame, names[..i], yaxis, offset) + [TraceFor(frame, names[i], yaxis, Palette[i + offset])];
  }

  /** `traces` is what those loops add: the level traces on 'y1' in colours
      0, 1, ..., then the index traces on 'y2' in colours continuing after
      the levels (`colors[i + len(selected_normal)]`). */
  ghost predicate Assembled(selected: seq<string>, frame: TimeFrame, traces: seq<Trace>)
  {
    && |Levels(selected)| + |Indices(selected)| <= |Palette|
    && traces == TraceRun(frame, Levels(selected), Y1, 0)
                 + TraceRun(frame, Indices(selected), Y2, |Levels(selected)|)
  }

  /** `name` is the first entry of `order` that is not a column. */
  ghost predicate FirstMissing(order: seq<string>, columns: set<string>, name: string)
  {
    exists k :: 0 <= k < |order| && order[k] == name && name !in columns
      && forall j :: 0 <= j < k ==> order[j] in columns
  }

  /** `name` is the first of `names` that is not a column. */
  ghost predicate FirstMissingIn(names: seq<string>, columns: set<string>, name: string)
  {
    exists k :: 0 <= k < |names| && names[k] == name && name !in columns
      && forall j :: 0 <= j < k ==> names[j] in columns
  }

  /** A missing level column is the first missing column of the whole
      trace order. */
  lemma MissingLevel(selected: seq<string>, columns: set<string>, name: string)
    requires FirstMissingIn(Levels(selected), columns, name)
    ensures FirstMissing(TraceOrder(selected), columns, name)
    ensures exists i :: 0 <= i < |selected| && selected[i] !in columns
  {
    var k :| 0 <= k < |Levels(selected)| && Levels(selected)[k] == name && name !in columns
             && forall j :: 0 <= j < k ==> Levels(selected)[j] in columns;
    var order := TraceOrder(selected);
    assert order[k] == name;
    assert forall j :: 0 <= j < k ==> order[j] == Levels(selected)[j];
    PartitionMembers(selected);
    assert name in selected;
  }

  /** A missing index column, after all level columns were found, is the
      first missing column of the whole trace order. */
  lemma MissingIndex(selected: seq<string>, columns: set<string>, name: string)
    requires forall j :: 0 <= j < |Levels(selected)| ==> Levels(selected)[j] in columns
    requires FirstMissingIn(Indices(selected), columns, name)
    ensures FirstMissing(TraceOrder(selected), columns, name)
    ensures exists i :: 0 <= i < |selected| && selected[i] !in columns
  {
    var k :| 0 <= k < |Indices(selected)| && Indices(selected)[k] == name && name !in columns
             && forall j :: 0 <= j < k ==> Indices(selected)[j] in columns;
    var order, n := TraceOrder(selected), |Levels(selected)|;
    assert order[n + k] == name;
    forall j | 0 <= j < n + k ensures order[j] in columns {
      if j >= n {
        assert order[j] == Indices(selected)[j - n];
      }
    }
    PartitionMembers(selected);
    assert name in selected;
  }

  /** When every trace's column exists, every selected name is a column. */
  lemma NoneMissing(selected: seq<string>, columns: set<string>)
    requires forall j :: 0 <= j < |Levels(selected)| ==> Levels(selected)[j] in columns
    requires forall j :: 0 <= j < |Indices(selected)| ==> Indices(selected)[j] in columns
    ensures forall i :: 0 <= i < |selected| ==> selected[i] in columns
  {
    PartitionMembers(selected);
    forall i | 0 <= i < |selected| ensures selected[i] in columns {
      assert selected[i] in Levels(selected) || selected[i] in Indices(selected);
    }
  }

  /** One of the two `for` loops of app.py, lines 16-35: for each of `names`
      in turn, look up its column (a `KeyError` if there is none) and add
      its trace on `yaxis` in colour `colors[k + offset]` to the traces the
      figure already holds. */
  method AddTraces(frame: TimeFrame, figureTraces: seq<Trace>, names: seq<string>, yaxis: AxisRef, offset: nat)
    returns (traces: seq<Trace>, missing: Option<string>)
    requires offset + |names| <= |Palette|
    ensures missing.None? <==> forall k :: 0 <= k < |names| ==> names[k] in frame.columns
    ensures missing.None? ==> traces == figureTraces + TraceRun(frame, names, yaxis, offset)
    ensures missing.Some? ==> FirstMissingIn(names, frame.columns, missing.value)
  {
    traces := figureTraces;
    for i := 0 to |names|
      invariant traces == figureTraces + TraceRun(frame, names[..i], yaxis, offset)
      invariant forall k :: 0 <= k < i ==> names[k] in frame.columns
    {
      if names[i] !in frame.columns {
        assert names[i] !in frame.columns && forall j :: 0 <= j < i ==> names[j] in frame.columns;
        missing := Some(names[i]);
        return;
      }
      TraceRunStep(frame, figureTraces, names, yaxis, offset, i);
      traces := traces + [TraceFor(frame, names[i], yaxis, Palette[i + offset])];
    }
    assert names[..|names|] == names;
    missing := None;
  }

  /** `create_dashboard_plot` up to the hand-over of the figure to
      `st.plotly_chart`. */
  method CreateDashboardPlot(dashboard: string, selected: seq<string>, frame: TimeFrame)
    returns (out: Output)
    requires |selected| <= |Palette|
    ensures selected == [] <==> out.Prompt?
    ensures out.Prompt? ==> out.message == PleaseSelect(dashboard)
    ensures out.Failed? <==> exists i :: 0 <= i < |selected| && selected[i] !in frame.columns
    ensures out.Failed? ==> FirstMissing(TraceOrder(selected), frame.columns, out.missingColumn)
    ensures out.Plotted? ==> Assembled(selected, frame, out.figure.traces)
    ensures out.Plotted? ==> out.figure.layout == LayoutFor(dashboard, Levels(selected), Indices(selected))
  {
    if selected == [] {
      out := Prompt(PleaseSelect(dashboard));
      return;
    }
    var levels := Levels(selected);
    var indices := Indices(selected);
    PartitionCount(selected);

    var traces, missing := AddTraces(frame, [], levels, Y1, 0);
    if missing.Some? {
      MissingLevel(selected, frame.columns, missing.value);
      out := Failed(missing.value);
      return;
    }
    ghost var levelTraces := traces;
    traces, missing := AddTraces(frame, traces, indices, Y2, |levels|);
    if missing.Some? {
      MissingIndex(selected, frame.columns, missing.value);
      out := Failed(missing.value);
      return;
    }
    NoneMissing(selected, frame.columns);
    out := Plotted(Figure(traces, LayoutFor(dashboard, levels, indices)));
  }

  /** The names of a figure's traces, in drawing order. */
  function Names(traces: seq<Trace>): seq<string>
  {
    seq(|traces|, i requires 0 <= i < |traces| => traces[i].name)
  }

  /** What the assembled traces promise: one trace per selected indicator
      (as a multiset), each on the right axis iff it is an index indicator,
      the i-th trace in the i-th palette colour so no two traces share a
      colour, and every trace drawn over the whole time axis. */
  lemma AssembledTraces(selected: seq<string>, frame: TimeFrame, traces: seq<Trace>)
    requires Assembled(selected, frame, traces)
    ensures |traces| == |selected|
    ensures Names(traces) == Levels(selected) + Indices(selected)
    ensures multiset(Names(traces)) == multiset(selected)
    ensures forall i :: 0 <= i < |traces| ==> (traces[i].yaxis == Y2 <==> IsIndex(traces[i].name))
    ensures forall i :: 0 <= i < |traces| ==> traces[i].color == Palette[i]
    ensures forall i, j :: 0 <= i < j < |traces| ==> traces[i].color != traces[j].color
    ensures forall i :: 0 <= i < |traces| ==>
              traces[i].x == TimeLabels(frame) && |traces[i].y| == |frame.rows|
  {
    PartitionCount(selected);
    PartitionClasses(selected);
    AssembledInOrder(selected, frame, traces);
    assert Names(traces) == TraceOrder(selected);
  }

  /** The i-th assembled trace is the trace of the i-th name in drawing
      order, on the left axis for the levels and on the right for the
      indices, in the i-th palette colour. */
  lemma AssembledInOrder(selected: seq<string>, frame: TimeFrame, traces: seq<Trace>)
    requires Assembled(selected, frame, traces)
    ensures |traces| == |TraceOrder(selected)|
    ensures forall i :: 0 <= i < |traces| ==>
              traces[i] == TraceFor(frame, TraceOrder(selected)[i],
                                    if i < |Levels(selected)| then Y1 else Y2, Palette[i])
  {
    var levels, indices := Levels(selected), Indices(selected);
    forall i | 0 <= i < |traces|
      ensures traces[i] == TraceFor(frame, TraceOrder(selected)[i], if i < |levels| then Y1 else Y2, Palette[i])
    {
      if i >= |levels| {
        assert traces[i] == TraceRun(frame, indices, Y2, |levels|)[i - |levels|];
      }
    }
  }

  /** The left axis of app.py, line 45: titled iff a level indicator is
      selected, untitled iff every selected indicator is an index. */
  lemma LeftAxisPolicy(dashboard: string, selected: seq<string>)
    ensures LayoutFor(dashboard, Levels(selected), Indices(selected)).leftTitle == Some(LeftAxisTitle)
            <==> exists i :: 0 <= i < |selected| && !IsIndex(selected[i])
    ensures LayoutFor(dashboard, Levels(selected), Indices(selected)).leftTitle.None?
            <==> forall i :: 0 <= i < |selected| ==> IsIndex(selected[i])
  {
    LevelsNonEmpty(selected);
  }

  /** The secondary axis of app.py, lines 53-63: present iff the dashboard
      is Konjunktur or Arbeitsmarkt and an index indicator is selected, and
      then always titled "Index-Wert", overlaying 'y' on the right. */
  lemma SecondaryAxisPolicy(dashboard: string, selected: seq<string>)
    ensures LayoutFor(dashboard, Levels(selected), Indices(selected)).secondary.Some?
            <==> (dashboard == "Konjunktur" || dashboard == "Arbeitsmarkt")
                 && exists i :: 0 <= i < |selected| && IsIndex(selected[i])
    ensures LayoutFor(dashboard, Levels(selected), Indices(selected)).secondary.Some? ==>
              LayoutFor(dashboard, Levels(selected), Indices(selected)).secondary.value
              == SecondaryAxis(Some(RightAxisTitle), "y", "right")
  {
    IndicesNonEmpty(selected);
    assert dashboard in DualAxisDashboards <==> dashboard == "Konjunktur" || dashboard == "Arbeitsmarkt";
  }

  /** The Rohstoffe chart never has a secondary axis, whatever is selected. */
  lemma RohstoffeHasNoSecondaryAxis(selected: seq<string>)
    ensures LayoutFor("Rohstoffe", Levels(selected), Indices(selected)).secondary.None?
  {
    assert "Rohstoffe"[0] != "Konjunktur"[0] && "Rohstoffe"[0] != "Arbeitsmarkt"[0];
    assert "Rohstoffe" !in DualAxisDashboards;
  }
}
