/**
 * The later dashboard variant: its chart callback, with the adjustment
 * checklist, the empty-selection placeholder and three render classes of
 * predictors, and its dropdown option lists ordered by display name.
 */
module AppBoot {
  import opened Outcomes
  import opened Seqs
  import opened Tables
  import opened Charts
  import opened Dropdown

  /** The label and predictor display-name dictionaries of the configuration module. */
  datatype DisplayNames = DisplayNames(labels: map<string, string>, predictors: map<string, string>)

  /** Categorical predictors drawn as a dot plot with integer x-ticks. */
  const ErrorBarPredictors: seq<string> :=
    ["donorparity", "idbloodgroupcat", "meandonorsex", "meanweekday", "numdoncat"]

  /** The categorical predictor whose categories lie on a scale of hundreds. */
  const WideTickPredictor: string := "timesincecat"

  /** The x tick values for the wide-tick predictor, `list(range(0, 1000, 100))`. */
  const WideTicks: seq<int> := Range(0, 1000, 100)

  /** How a predictor's association is drawn. */
  datatype RenderClass = ErrorBars | WideTickErrorBars | ConfidenceBand

  /** The fixed membership test choosing the render class, by predictor code alone. */
  function Classify(predictor: string): (c: RenderClass) {
    if predictor in ErrorBarPredictors then ErrorBars
    else if predictor == WideTickPredictor then WideTickErrorBars
    else ConfidenceBand
  }

  /** The `adjusted` value selected by the checklist: 1 when its value list holds 'adjusted', else 0. */
  function AdjustmentFlag(adjustmentValues: seq<string>): (flag: int) {
    if "adjusted" in adjustmentValues then 1 else 0
  }

  /** A results row the chart is to show for the selection. */
  predicate Plotted(r: ResultRow, labelCode: string, predictor: string, flag: int) {
    OnKey(r, labelCode, predictor) && r.adjusted == flag
  }

  /**
   * The rows the callback plots: those on the selected label and predictor,
   * then of them those in the selected adjustment state. Every such row is
   * kept as often as the table holds it, and no other.
   */
  function SelectRows(rows: seq<ResultRow>, labelCode: string, predictor: string, adjustmentValues: seq<string>)
    : (dff: seq<ResultRow>)
    ensures forall r :: r in dff <==> r in rows && Plotted(r, labelCode, predictor, AdjustmentFlag(adjustmentValues))
    ensures forall r :: multiset(dff)[r] == (if Plotted(r, labelCode, predictor, AdjustmentFlag(adjustmentValues))
                                             then multiset(rows)[r] else 0)
  {
    var flag := AdjustmentFlag(adjustmentValues);
    var dff := RowsWithAdjustment(RowsOnKey(rows, labelCode, predictor), flag);
    var onKey := (r: ResultRow) => OnKey(r, labelCode, predictor);
    var inState := (r: ResultRow) => r.adjusted == flag;
    forall r ensures multiset(dff)[r] == if Plotted(r, labelCode, predictor, flag) then multiset(rows)[r] else 0 {
      FilterCount(Filter(rows, onKey), inState, r);
      FilterCount(rows, onKey, r);
    }
    dff
  }

  /** The two masks applied one after the other are one mask over the whole selection key. */
  lemma SelectionIsOneMask(rows: seq<ResultRow>, labelCode: string, predictor: string, adjustmentValues: seq<string>)
    ensures SelectRows(rows, labelCode, predictor, adjustmentValues)
      == Filter(rows, (r: ResultRow) => Plotted(r, labelCode, predictor, AdjustmentFlag(adjustmentValues)))
  {
    var flag := AdjustmentFlag(adjustmentValues);
    FilterFilter(rows, (r: ResultRow) => OnKey(r, labelCode, predictor), (r: ResultRow) => r.adjusted == flag,
                 (r: ResultRow) => Plotted(r, labelCode, predictor, AdjustmentFlag(adjustmentValues)));
  }

  /** The selection keeps table order: selecting from two tables one after the other is concatenating their selections. */
  lemma SelectionKeepsTableOrder(a: seq<ResultRow>, b: seq<ResultRow>, labelCode: string, predictor: string,
                                 adjustmentValues: seq<string>)
    ensures SelectRows(a + b, labelCode, predictor, adjustmentValues)
      == SelectRows(a, labelCode, predictor, adjustmentValues) + SelectRows(b, labelCode, predictor, adjustmentValues)
  {
    var onKey := (r: ResultRow) => OnKey(r, labelCode, predictor);
    var flag := AdjustmentFlag(adjustmentValues);
    var inState := (r: ResultRow) => r.adjusted == flag;
    FilterConcat(a, b, onKey);
    FilterConcat(Filter(a, onKey), Filter(b, onKey), inState);
  }

  /** Rows are plotted in table order: the model does not sort them by predictor value. */
  lemma SelectionIsNotSorted()
    ensures var rows := [ResultRow("HB", "meandonorage", 60.0, 0.2, 0.4, 0.0, 0),
                         ResultRow("HB", "meandonorage", 20.0, 0.1, 0.3, -0.1, 0)];
      Column(SelectRows(rows, "HB", "meandonorage", []), (r: ResultRow) => r.predictorValue) == [60.0, 20.0]
  {
    var rows := [ResultRow("HB", "meandonorage", 60.0, 0.2, 0.4, 0.0, 0),
                 ResultRow("HB", "meandonorage", 20.0, 0.1, 0.3, -0.1, 0)];
    assert rows[1..][1..] == [];
    assert RowsOnKey(rows[1..], "HB", "meandonorage") == rows[1..];
    assert RowsOnKey(rows, "HB", "meandonorage") == rows;
    assert RowsWithAdjustment(rows[1..], 0) == rows[1..];
    assert RowsWithAdjustment(rows, 0) == rows;
  }

  /** The two-line title `"Association between {predictor} and Δ{label}:<br>Raw p={raw_p}, FDR-p={fdr_p}"`. */
  function Title(predictorName: string, labelName: string, rawP: string, fdrP: string): (title: string) {
    "Association between " + predictorName + " and \U{394}" + labelName + ":<br>Raw p=" + rawP + ", FDR-p=" + fdrP
  }

  /**
   * The chart callback for the selected label, predictor and checklist values.
   * `formatPValue` is the p-value formatter of the helper module, which the
   * model takes as given.
   */
  function UpdateGraph(store: DataStore, names: DisplayNames, formatPValue: real -> string,
                       selectedLabel: string, selectedPredictor: string, adjustmentValues: seq<string>)
    : (r: Result<ChartSpec, PyError>)
    ensures r.Err? ==> r.error == KeyError(selectedPredictor) || r.error == KeyError(selectedLabel)
    ensures r.Ok? && r.value.Plot? ==>
      && selectedLabel in names.labels && selectedPredictor in names.predictors
      && r.value.yaxis == Axis("Delta " + names.labels[selectedLabel] + " (95% CI)", AutoTicks)
      && r.value.xaxis.title == names.predictors[selectedPredictor]
      && !r.value.showLegend && r.value.template == "ggplot2" && r.value.size == None
  {
    var dff := SelectRows(store.results, selectedLabel, selectedPredictor, adjustmentValues);
    var sig := FirstSignificance(store.significance, selectedLabel, selectedPredictor);
    if dff == [] || sig.None? then Ok(NoDataChart())
    else if selectedPredictor !in names.predictors then Err(KeyError(selectedPredictor))
    else if selectedLabel !in names.labels then Err(KeyError(selectedLabel))
    else
      var predictorName := names.predictors[selectedPredictor];
      var labelName := names.labels[selectedLabel];
      var title := Title(predictorName, labelName, formatPValue(sig.value.probF), formatPValue(sig.value.fdrP));
      var yaxis := Axis(YAxisTitle(labelName), AutoTicks);
      Ok(match Classify(selectedPredictor)
         case ErrorBars =>
           Plot([ErrorBarTrace(dff)], title, Axis(predictorName, DTick(1)), yaxis, false, "ggplot2", None)
         case WideTickErrorBars =>
           Plot([ErrorBarTrace(dff)], title, Axis(predictorName, TickVals(WideTicks)), yaxis, false, "ggplot2", None)
         case ConfidenceBand =>
           Plot(BandTraces(dff), title, Axis(predictorName, AutoTicks), yaxis, false, "ggplot2", None))
  }

  /**
   * The placeholder is returned exactly when no results row is in the selected
   * state or no significance row is on the key.
   */
  lemma EmptyFallback(store: DataStore, names: DisplayNames, formatPValue: real -> string,
                      selectedLabel: string, selectedPredictor: string, adjustmentValues: seq<string>)
    ensures var flag := AdjustmentFlag(adjustmentValues);
      UpdateGraph(store, names, formatPValue, selectedLabel, selectedPredictor, adjustmentValues) == Ok(NoDataChart())
      <==>
      (|| (forall i :: 0 <= i < |store.results| ==> !Plotted(store.results[i], selectedLabel, selectedPredictor, flag))
       || (forall i :: 0 <= i < |store.significance| ==>
             !SignificanceOnKey(store.significance[i], selectedLabel, selectedPredictor)))
  {
    var flag := AdjustmentFlag(adjustmentValues);
    var dff := SelectRows(store.results, selectedLabel, selectedPredictor, adjustmentValues);
    SignificanceLookup(store.significance, selectedLabel, selectedPredictor);
    if dff != [] {
      assert dff[0] in dff;
      assert dff[0] in store.results && Plotted(dff[0], selectedLabel, selectedPredictor, flag);
    }
    if dff == [] {
      forall i | 0 <= i < |store.results|
        ensures !Plotted(store.results[i], selectedLabel, selectedPredictor, flag)
      {
        assert store.results[i] in store.results;
      }
    }
  }

  /**
   * Once the selection has rows and p-values, a code missing from a display-name
   * dictionary raises KeyError, the predictor being looked up first.
   */
  lemma MissingDisplayName(store: DataStore, names: DisplayNames, formatPValue: real -> string,
                           selectedLabel: string, selectedPredictor: string, adjustmentValues: seq<string>)
    requires SelectRows(store.results, selectedLabel, selectedPredictor, adjustmentValues) != []
    requires FirstSignificance(store.significance, selectedLabel, selectedPredictor).Some?
    ensures var r := UpdateGraph(store, names, formatPValue, selectedLabel, selectedPredictor, adjustmentValues);
      && (selectedPredictor !in names.predictors ==> r == Err(KeyError(selectedPredictor)))
      && (selectedPredictor in names.predictors && selectedLabel !in names.labels ==> r == Err(KeyError(selectedLabel)))
      && (selectedPredictor in names.predictors && selectedLabel in names.labels ==> r.Ok? && r.value.Plot?)
  {
  }

  /**
   * The raw and FDR p-values in the title are those of the first significance
   * row on the label and predictor, whatever its adjustment state.
   */
  lemma PValuesFromFirstMatch(store: DataStore, names: DisplayNames, formatPValue: real -> string,
                              selectedLabel: string, selectedPredictor: string, adjustmentValues: seq<string>, i: int)
    requires FirstOnKeyAt(store.significance, i, selectedLabel, selectedPredictor)
    requires selectedLabel in names.labels && selectedPredictor in names.predictors
    requires SelectRows(store.results, selectedLabel, selectedPredictor, adjustmentValues) != []
    ensures var r := UpdateGraph(store, names, formatPValue, selectedLabel, selectedPredictor, adjustmentValues);
      r.Ok? && r.value.Plot? &&
      r.value.title == Title(names.predictors[selectedPredictor], names.labels[selectedLabel],
                             formatPValue(store.significance[i].probF), formatPValue(store.significance[i].fdrP))
  {
    SignificanceLookup(store.significance, selectedLabel, selectedPredictor);
  }

  /** Toggling the adjustment checklist changes the plotted rows but never the p-values in the title. */
  lemma PValuesIgnoreChecklist(store: DataStore, names: DisplayNames, formatPValue: real -> string,
                               selectedLabel: string, selectedPredictor: string, values1: seq<string>, values2: seq<string>)
    ensures var r1 := UpdateGraph(store, names, formatPValue, selectedLabel, selectedPredictor, values1);
            var r2 := UpdateGraph(store, names, formatPValue, selectedLabel, selectedPredictor, values2);
      r1.Ok? && r1.value.Plot? && r2.Ok? && r2.value.Plot? ==> r1.value.title == r2.value.title
  {
  }

  /** Changing only the adjustment column of the significance table changes no chart. */
  lemma PValuesIgnoreSignificanceAdjustment(store: DataStore, adjustedSig: seq<SignificanceRow>, names: DisplayNames,
                                            formatPValue: real -> string, selectedLabel: string,
                                            selectedPredictor: string, adjustmentValues: seq<string>)
    requires |adjustedSig| == |store.significance|
    requires forall i :: 0 <= i < |adjustedSig| ==> adjustedSig[i] == store.significance[i].(adjusted := adjustedSig[i].adjusted)
    ensures UpdateGraph(DataStore(store.results, adjustedSig), names, formatPValue, selectedLabel, selectedPredictor, adjustmentValues)
         == UpdateGraph(store, names, formatPValue, selectedLabel, selectedPredictor, adjustmentValues)
  {
    FirstSignificanceIgnoresAdjustment(store.significance, adjustedSig, selectedLabel, selectedPredictor);
  }

  /** Predictors of the error-bar class: one dot-plot series of the selected rows, integer x-ticks, no legend. */
  lemma ErrorBarClass(store: DataStore, names: DisplayNames, formatPValue: real -> string,
                      selectedLabel: string, selectedPredictor: string, adjustmentValues: seq<string>)
    requires selectedPredictor in ["donorparity", "idbloodgroupcat", "meandonorsex", "meanweekday", "numdoncat"]
    ensures var r := UpdateGraph(store, names, formatPValue, selectedLabel, selectedPredictor, adjustmentValues);
      r.Ok? && r.value.Plot? ==>
      && r.value.data == [ErrorBarTrace(SelectRows(store.results, selectedLabel, selectedPredictor, adjustmentValues))]
      && r.value.xaxis.ticks == DTick(1)
      && !r.value.showLegend
  {
  }

  /** The wide-tick predictor: one dot-plot series, x tick values exactly 0, 100, ..., 900. */
  lemma WideTickClass(store: DataStore, names: DisplayNames, formatPValue: real -> string,
                      selectedLabel: string, adjustmentValues: seq<string>)
    ensures var r := UpdateGraph(store, names, formatPValue, selectedLabel, "timesincecat", adjustmentValues);
      r.Ok? && r.value.Plot? ==>
      && r.value.data == [ErrorBarTrace(SelectRows(store.results, selectedLabel, "timesincecat", adjustmentValues))]
      && r.value.xaxis.ticks.TickVals?
      && |r.value.xaxis.ticks.values| == 10
      && (forall k :: 0 <= k < 10 ==> r.value.xaxis.ticks.values[k] == 100 * k)
      && !r.value.showLegend
  {
    RangeLength(0, 1000, 100, 10);
    forall k | 0 <= k < 10 ensures WideTicks[k] == 100 * k {
      RangeAt(0, 1000, 100, k);
    }
  }

  /** Every other predictor: the band series of the selected rows, default ticks, no legend. */
  lemma ConfidenceBandClass(store: DataStore, names: DisplayNames, formatPValue: real -> string,
                            selectedLabel: string, selectedPredictor: string, adjustmentValues: seq<string>)
    requires selectedPredictor !in ["donorparity", "idbloodgroupcat", "meandonorsex", "meanweekday", "numdoncat", "timesincecat"]
    ensures var r := UpdateGraph(store, names, formatPValue, selectedLabel, selectedPredictor, adjustmentValues);
      r.Ok? && r.value.Plot? ==>
      && r.value.data == BandTraces(SelectRows(store.results, selectedLabel, selectedPredictor, adjustmentValues))
      && r.value.xaxis.ticks == AutoTicks
      && !r.value.showLegend
  {
  }

  /** The label dropdown: each label code of the table once, ordered by display name. */
  function LabelOptions(store: DataStore, names: DisplayNames): (opts: seq<DropdownOption>)
    requires forall r :: r in store.results ==> r.labelCode in names.labels
    ensures forall o :: o in opts <==>
      (exists r :: r in store.results && r.labelCode == o.value) && o.text == names.labels[o.value]
    ensures forall i, j :: 0 <= i < j < |opts| ==> opts[i].value != opts[j].value
    ensures forall i, j :: 0 <= i < j < |opts| ==> Ordering.StrLeq(opts[i].text, opts[j].text)
  {
    var codes := LabelColumn(store.results);
    assert forall c :: c in codes <==> exists r :: r in store.results && r.labelCode == c by {
      forall c ensures c in codes <==> exists r :: r in store.results && r.labelCode == c {
        if c in codes {
          var i :| 0 <= i < |codes| && codes[i] == c;
          assert store.results[i] in store.results;
        }
        if exists r :: r in store.results && r.labelCode == c {
          var r :| r in store.results && r.labelCode == c;
          var i :| 0 <= i < |store.results| && store.results[i] == r;
          assert codes[i] == c;
        }
      }
    }
    OptionsByDisplayName(codes, names.labels)
  }

  /** The predictor dropdown: each predictor code of the table once, ordered by display name. */
  function PredictorOptions(store: DataStore, names: DisplayNames): (opts: seq<DropdownOption>)
    requires forall r :: r in store.results ==> r.predictor in names.predictors
    ensures forall o :: o in opts <==>
      (exists r :: r in store.results && r.predictor == o.value) && o.text == names.predictors[o.value]
    ensures forall i, j :: 0 <= i < j < |opts| ==> opts[i].value != opts[j].value
    ensures forall i, j :: 0 <= i < j < |opts| ==> Ordering.StrLeq(opts[i].text, opts[j].text)
  {
    var codes := PredictorColumn(store.results);
    assert forall c :: c in codes <==> exists r :: r in store.results && r.predictor == c by {
      forall c ensures c in codes <==> exists r :: r in store.results && r.predictor == c {
        if c in codes {
          var i :| 0 <= i < |codes| && codes[i] == c;
          assert store.results[i] in store.results;
        }
        if exists r :: r in store.results && r.predictor == c {
          var r :| r in store.results && r.predictor == c;
          var i :| 0 <= i < |store.results| && store.results[i] == r;
          assert codes[i] == c;
        }
      }
    }
    OptionsByDisplayName(codes, names.predictors)
  }
}
