/**
 * The figure description the chart callbacks return, as plain values, and the
 * traces both callbacks build from the selected rows.
 */
module Charts {
  import opened Outcomes
  import opened Tables

  /** How the x-axis places its ticks. */
  datatype TickPolicy =
    | AutoTicks              // plotly's default
    | DTick(step: int)       // `dtick=step`
    | TickVals(values: seq<int>)  // explicit `tickvals`

  datatype Axis = Axis(title: string, ticks: TickPolicy)

  /** One trace of the figure (a `go.Scatter`). */
  datatype Series =
    | Markers(name: string, x: seq<real>, y: seq<real>, errorPlus: seq<real>, errorMinus: seq<real>)
      // mode='markers' with asymmetric data error bars: `array` is errorPlus, `arrayminus` errorMinus
    | Lines(name: string, x: seq<real>, y: seq<real>, width: Option<nat>, fillToNextY: bool)
      // mode='lines'; width None is the default line width, fillToNextY is fill='tonexty'

  datatype Size = Size(height: nat, width: nat)

  datatype Annotation = Annotation(text: string, xref: string, yref: string, showArrow: bool, fontSize: nat)

  /** A figure: a plot with its layout, or the placeholder for an empty selection. */
  datatype ChartSpec =
    | Plot(data: seq<Series>, title: string, xaxis: Axis, yaxis: Axis, showLegend: bool,
           template: string, size: Option<Size>)
    | Empty(data: seq<Series>, title: string, xVisible: bool, yVisible: bool, annotations: seq<Annotation>)

  /** The Python exceptions a callback can raise instead of returning a figure. */
  datatype PyError =
    | KeyError(key: string)   // a code missing from a display-name dictionary
    | IndexError              // `.iloc[0]` on an empty selection
    | NameError(name: string) // a name that was never bound

  const PlaceholderTitle := "Combination not possible"
  const PlaceholderText := "No data available for the selected combination"

  /** The figure shown when the selection has no rows or no p-values. */
  function NoDataChart(): (c: ChartSpec)
    ensures c.Empty? && c.data == [] && c.title == PlaceholderTitle
    ensures !c.xVisible && !c.yVisible
    ensures c.annotations == [Annotation(PlaceholderText, "paper", "paper", false, 20)]
  {
    Empty([], PlaceholderTitle, false, false, [Annotation(PlaceholderText, "paper", "paper", false, 20)])
  }

  /** The y-axis title `"Delta %s (95%% CI)"` for a label display name. */
  function YAxisTitle(labelName: string): (title: string) {
    "Delta " + labelName + " (95% CI)"
  }

  /** The dot plot: predicted values with asymmetric error bars reaching the confidence bounds. */
  function ErrorBarTrace(rows: seq<ResultRow>): (t: Series)
    ensures t.Markers? && t.name == "Prediction"
    ensures |t.x| == |t.y| == |t.errorPlus| == |t.errorMinus| == |rows|
    ensures forall i :: 0 <= i < |rows| ==>
      && t.x[i] == rows[i].predictorValue
      && t.y[i] == rows[i].predicted
      && t.y[i] + t.errorPlus[i] == rows[i].upper
      && t.y[i] - t.errorMinus[i] == rows[i].lower
  {
    Markers("Prediction",
      Column(rows, (r: ResultRow) => r.predictorValue),
      Column(rows, (r: ResultRow) => r.predicted),
      Column(rows, (r: ResultRow) => r.upper - r.predicted),
      Column(rows, (r: ResultRow) => r.predicted - r.lower))
  }

  /** Both error arrays are non-negative exactly when every row's bounds enclose its prediction. */
  lemma ErrorBarsNonNegative(rows: seq<ResultRow>)
    ensures var t := ErrorBarTrace(rows);
      (forall i :: 0 <= i < |rows| ==> t.errorPlus[i] >= 0.0 && t.errorMinus[i] >= 0.0)
      <==> (forall row :: row in rows ==> WithinBounds(row))
  {
    var t := ErrorBarTrace(rows);
    if forall i :: 0 <= i < |rows| ==> t.errorPlus[i] >= 0.0 && t.errorMinus[i] >= 0.0 {
      forall row | row in rows ensures WithinBounds(row) {
        var i :| 0 <= i < |rows| && rows[i] == row;
      }
    }
    if forall row :: row in rows ==> WithinBounds(row) {
      forall i | 0 <= i < |rows| ensures t.errorPlus[i] >= 0.0 && t.errorMinus[i] >= 0.0 {
        assert rows[i] in rows;
      }
    }
  }

  /**
   * The confidence band: an invisible upper-bound line, an invisible lower-bound
   * line filled back to it, and the prediction line, in that order.
   */
  function BandTraces(rows: seq<ResultRow>): (b: seq<Series>)
    ensures |b| == 3 && forall k :: 0 <= k < 3 ==> b[k].Lines?
    ensures b[0].name == "Upper Bound" && b[0].width == Some(0) && !b[0].fillToNextY
    ensures b[1].name == "Lower Bound" && b[1].width == Some(0) && b[1].fillToNextY
    ensures b[2].name == "Prediction" && b[2].width == None && !b[2].fillToNextY
    ensures forall k :: 0 <= k < 3 ==> |b[k].x| == |b[k].y| == |rows|
    ensures forall k, i :: 0 <= k < 3 && 0 <= i < |rows| ==> b[k].x[i] == rows[i].predictorValue
    ensures forall i :: 0 <= i < |rows| ==>
      b[0].y[i] == rows[i].upper && b[1].y[i] == rows[i].lower && b[2].y[i] == rows[i].predicted
  {
    var x := Column(rows, (r: ResultRow) => r.predictorValue);
    [ Lines("Upper Bound", x, Column(rows, (r: ResultRow) => r.upper), Some(0), false),
      Lines("Lower Bound", x, Column(rows, (r: ResultRow) => r.lower), Some(0), true),
      Lines("Prediction", x, Column(rows, (r: ResultRow) => r.predicted), None, false) ]
  }

  /** The prediction line lies inside the band exactly when every row's bounds enclose its prediction. */
  lemma BandEnclosesPrediction(rows: seq<ResultRow>)
    ensures var b := BandTraces(rows);
      (forall i :: 0 <= i < |rows| ==> b[1].y[i] <= b[2].y[i] <= b[0].y[i])
      <==> (forall row :: row in rows ==> WithinBounds(row))
  {
    var b := BandTraces(rows);
    if forall i :: 0 <= i < |rows| ==> b[1].y[i] <= b[2].y[i] <= b[0].y[i] {
      forall row | row in rows ensures WithinBounds(row) {
        var i :| 0 <= i < |rows| && rows[i] == row;
      }
    }
    if forall row :: row in rows ==> WithinBounds(row) {
      forall i | 0 <= i < |rows| ensures b[1].y[i] <= b[2].y[i] <= b[0].y[i] {
        assert rows[i] in rows;
      }
    }
  }
}
