/**
 * The earlier dashboard variant: its chart callback, with no adjustment
 * filter, no empty-selection guard and two render classes of predictors,
 * and its dropdown option lists in table order.
 *
 * As written, this callback never returns a figure: the title calls
 * `np.format_float_scientific` but the module never imports numpy.
 * `UpdateGraphAsWritten` models that; `UpdateGraph` is the callback with the
 * import in place, the formatter being a parameter.
 */
module App {
  import opened Outcomes
  import opened Seqs
  import opened Tables
  import opened Charts
  import opened Dropdown

  /** The predictor display names defined in the module. */
  const PredictorNames: map<string, string> := map[
    "donorparity" := "Donor parity", "idbloodgroupcat" := "ABO identical transfusion",
    "meandonationtime" := "Time of donation", "meandonorage" := "Age of Donor",
    "meandonorhb" := "Donor Hb", "meandonorsex" := "Donor sex",
    "meanstoragetime" := "Storage time (days)", "meanweekday" := "Weekday of donation",
    "numdoncat" := "Donors prior number of donations",
    "timesincecat" := "Time since donors previous donation"]

  /** The label display names defined in the module. */
  const LabelNames: map<string, string> := map[
    "ALAT" := "ALT", "ALB" := "Albumin", "ALP" := "ALP", "APTT" := "aPTT", "ASAT" := "AST",
    "BASOF" := "Basophiles", "BE" := "Base Excess", "BILI" := "Bilirubin", "EVF" := "EVF",
    "BILI_K" := "Conjugated bilirubin", "BLAST" := "Blast cells", "CA" := "Calcium",
    "CA_F" := "Free Calcium", "CL" := "Chloride", "CO2" := "Carbon Dioxide", "COHB" := "CO-Hb",
    "CRP" := "CRP", "EGFR" := "eGFR", "EOSINO" := "Eosinophile count", "ERYTRO" := "Erythrocyte count",
    "ERYTROBL" := "Erythroblasts", "FE" := "Iron", "FERRITIN" := "Ferritin", "FIB" := "Fibrinogen",
    "GLUKOS" := "Glucose", "GT" := "Glutamyl transferase", "HAPTO" := "Haptoglobin",
    "HB" := "Hemoglobin", "HBA1C" := "HbA1c", "HCT" := "Hematocrit", "INR" := "INR",
    "K" := "Potassium", "KREA" := "Creatinine", "LAKTAT" := "Lactate", "LD" := "Lactate dehydrogenase",
    "LPK" := "Leukocyte count", "LYMF" := "Lymphocyte count", "MCH" := "Mean corpuscular  hemoglobin",
    "MCHC" := "Mean corpuscular  hemoglobin concentration", "MCV" := "Mean corpuscular volume",
    "META" := "Metamyelocyte count", "METHB" := "Methemoglobin", "MONO" := "Monocyte count",
    "MYELO" := "Myelocyte count", "NA" := "Sodium", "NEUTRO" := "Neutrophile count",
    "NTPROBNP" := "NT-ProBNP", "OSMO" := "Osmolality", "PCO2" := "PaCO2", "PH" := "pH",
    "PO2" := "PaO2", "RET" := "Reticulocyte count", "STDBIK" := "Standard bicarbonate",
    "TPK" := "Platelet count", "TRI" := "Triglycerides", "TROP_I" := "Troponin I",
    "TROP_T" := "Troponin T"]

  /** Categorical predictors drawn as a dot plot with integer x-ticks; here including `timesincecat`. */
  const ErrorBarPredictors: seq<string> :=
    ["donorparity", "idbloodgroupcat", "meandonorsex", "meanweekday", "numdoncat", "timesincecat"]

  /** How a predictor's association is drawn. */
  datatype RenderClass = ErrorBars | ConfidenceBand

  /** The fixed membership test choosing the render class, by predictor code alone. */
  function Classify(predictor: string): (c: RenderClass) {
    if predictor in ErrorBarPredictors then ErrorBars else ConfidenceBand
  }

  /**
   * What the callback computes before its layout: the traces, the x tick policy
   * and the p-values.
   */
  datatype PlotData = PlotData(data: seq<Series>, ticks: TickPolicy, rawP: real, fdrP: real)

  /**
   * The rows the callback plots: those on the selected label and predictor,
   * in either adjustment state, each as often as the table holds it.
   */
  function SelectRows(rows: seq<ResultRow>, labelCode: string, predictor: string): (dff: seq<ResultRow>)
    ensures forall r :: r in dff <==> r in rows && OnKey(r, labelCode, predictor)
    ensures forall r :: multiset(dff)[r] == (if OnKey(r, labelCode, predictor) then multiset(rows)[r] else 0)
  {
    forall r ensures multiset(RowsOnKey(rows, labelCode, predictor))[r]
                     == (if OnKey(r, labelCode, predictor) then multiset(rows)[r] else 0) {
      FilterCount(rows, (r: ResultRow) => OnKey(r, labelCode, predictor), r);
    }
    RowsOnKey(rows, labelCode, predictor)
  }

  /** The selection keeps table order: selecting from two tables one after the other is concatenating their selections. */
  lemma SelectionKeepsTableOrder(a: seq<ResultRow>, b: seq<ResultRow>, labelCode: string, predictor: string)
    ensures SelectRows(a + b, labelCode, predictor) == SelectRows(a, labelCode, predictor) + SelectRows(b, labelCode, predictor)
  {
    FilterConcat(a, b, (r: ResultRow) => OnKey(r, labelCode, predictor));
  }

  /**
   * Filtering, the p-value lookup (`.iloc[0]`, IndexError on an empty selection)
   * and the choice of traces and ticks by render class.
   */
  function BuildPlotData(store: DataStore, selectedLabel: string, selectedPredictor: string)
    : (r: Result<PlotData, PyError>)
    ensures r.Err? <==> FirstSignificance(store.significance, selectedLabel, selectedPredictor).None?
    ensures r.Err? ==> r.error == IndexError
  {
    var dff := SelectRows(store.results, selectedLabel, selectedPredictor);
    var sig := FirstSignificance(store.significance, selectedLabel, selectedPredictor);
    if sig.None? then Err(IndexError)
    else
      var p := sig.value;
      Ok(match Classify(selectedPredictor)
         case ErrorBars => PlotData([ErrorBarTrace(dff)], DTick(1), p.probF, p.fdrP)
         case ConfidenceBand => PlotData(BandTraces(dff), AutoTicks, p.probF, p.fdrP))
  }

  /** The title `"Association between %s and delta %s Raw p-value = %s, FDR-adjusted p-value = %s"`. */
  function Title(predictorName: string, labelName: string, rawP: string, fdrP: string): (title: string) {
    "Association between " + predictorName + " and delta " + labelName
      + " Raw p-value = " + rawP + ", FDR-adjusted p-value = " + fdrP
  }

  /**
   * The callback as written. After the plot data, the layout looks up the
   * label name (y-axis), then the predictor name (x-axis), then evaluates the
   * title, whose first use of the unbound name `np` raises NameError.
   */
  function UpdateGraphAsWritten(store: DataStore, selectedLabel: string, selectedPredictor: string)
    : (r: Result<ChartSpec, PyError>)
    ensures r.Err?
    ensures r.error.NameError? <==>
      && FirstSignificance(store.significance, selectedLabel, selectedPredictor).Some?
      && selectedLabel in LabelNames && selectedPredictor in PredictorNames
  {
    match BuildPlotData(store, selectedLabel, selectedPredictor)
    case Err(e) => Err(e)
    case Ok(_) =>
      if selectedLabel !in LabelNames then Err(KeyError(selectedLabel))
      else if selectedPredictor !in PredictorNames then Err(KeyError(selectedPredictor))
      else Err(NameError("np"))
  }

  /** The very selection the dashboard starts with raises NameError once the table holds its p-values. */
  lemma AsWrittenRaisesNameError(store: DataStore, i: int)
    requires 0 <= i < |store.significance| && SignificanceOnKey(store.significance[i], "HB", "meandonorhb")
    ensures UpdateGraphAsWritten(store, "HB", "meandonorhb") == Err(NameError("np"))
  {
    SignificanceLookup(store.significance, "HB", "meandonorhb");
    assert "HB" in LabelNames;
    assert "meandonorhb" in PredictorNames;
  }

  /**
   * The callback with numpy imported; `formatScientific` stands for
   * `np.format_float_scientific(_, precision=2)`.
   */
  function UpdateGraph(store: DataStore, formatScientific: real -> string,
                       selectedLabel: string, selectedPredictor: string)
    : (r: Result<ChartSpec, PyError>)
    ensures r.Ok? ==>
      && r.value.Plot?
      && selectedLabel in LabelNames && selectedPredictor in PredictorNames
      && r.value.yaxis == Axis("Delta " + LabelNames[selectedLabel] + " (95% CI)", AutoTicks)
      && r.value.xaxis.title == PredictorNames[selectedPredictor]
      && !r.value.showLegend && r.value.template == "ggplot2" && r.value.size == Some(Size(600, 800))
  {
    match BuildPlotData(store, selectedLabel, selectedPredictor)
    case Err(e) => Err(e)
    case Ok(pd) =>
      if selectedLabel !in LabelNames then Err(KeyError(selectedLabel))
      else if selectedPredictor !in PredictorNames then Err(KeyError(selectedPredictor))
      else
        var predictorName := PredictorNames[selectedPredictor];
        var labelName := LabelNames[selectedLabel];
        var title := Title(predictorName, labelName, formatScientific(pd.rawP), formatScientific(pd.fdrP));
        Ok(Plot(pd.data, title, Axis(predictorName, pd.ticks), Axis(YAxisTitle(labelName), AutoTicks),
                false, "ggplot2", Some(Size(600, 800))))
  }

  /**
   * The correction changes nothing but the NameError: the corrected callback
   * returns a figure exactly where the written one raises NameError, and
   * raises the same exception everywhere else.
   */
  lemma CorrectionOnlyRemovesNameError(store: DataStore, formatScientific: real -> string,
                                       selectedLabel: string, selectedPredictor: string)
    ensures var written := UpdateGraphAsWritten(store, selectedLabel, selectedPredictor);
            var fixed := UpdateGraph(store, formatScientific, selectedLabel, selectedPredictor);
      && (fixed.Ok? <==> written == Err(NameError("np")))
      && (fixed.Err? ==> fixed == written)
  {
  }

  /**
   * The corrected figure is the plot data under the layout: the traces and
   * ticks `BuildPlotData` chose, and a title carrying the formatted p-values
   * of the first significance row on the key.
   */
  lemma CorrectedFigureContents(store: DataStore, formatScientific: real -> string,
                                selectedLabel: string, selectedPredictor: string, i: int)
    requires FirstOnKeyAt(store.significance, i, selectedLabel, selectedPredictor)
    requires selectedLabel in LabelNames && selectedPredictor in PredictorNames
    ensures var r := UpdateGraph(store, formatScientific, selectedLabel, selectedPredictor);
            var pd := BuildPlotData(store, selectedLabel, selectedPredictor);
      && r.Ok? && pd.Ok?
      && r.value.data == pd.value.data
      && r.value.xaxis.ticks == pd.value.ticks
      && r.value.title == Title(PredictorNames[selectedPredictor], LabelNames[selectedLabel],
                                formatScientific(store.significance[i].probF),
                                formatScientific(store.significance[i].fdrP))
  {
    PValuesFromFirstMatch(store, selectedLabel, selectedPredictor, i);
  }

  /** The raw and FDR p-values are those of the first significance row on the key, whatever its adjustment state. */
  lemma PValuesFromFirstMatch(store: DataStore, selectedLabel: string, selectedPredictor: string, i: int)
    requires FirstOnKeyAt(store.significance, i, selectedLabel, selectedPredictor)
    ensures var r := BuildPlotData(store, selectedLabel, selectedPredictor);
      r.Ok? && r.value.rawP == store.significance[i].probF && r.value.fdrP == store.significance[i].fdrP
  {
    SignificanceLookup(store.significance, selectedLabel, selectedPredictor);
  }

  /** Without a significance row on the key, `.iloc[0]` raises IndexError, even when rows exist. */
  lemma NoSignificanceRaisesIndexError(store: DataStore, selectedLabel: string, selectedPredictor: string)
    requires forall i :: 0 <= i < |store.significance| ==>
      !SignificanceOnKey(store.significance[i], selectedLabel, selectedPredictor)
    ensures BuildPlotData(store, selectedLabel, selectedPredictor) == Err(IndexError)
  {
    SignificanceLookup(store.significance, selectedLabel, selectedPredictor);
  }

  /**
   * Predictors of the error-bar class, `timesincecat` among them: one dot-plot
   * series over the rows on the key in both adjustment states, integer x-ticks.
   */
  lemma ErrorBarClass(store: DataStore, selectedLabel: string, selectedPredictor: string)
    requires selectedPredictor in ["donorparity", "idbloodgroupcat", "meandonorsex", "meanweekday", "numdoncat", "timesincecat"]
    ensures var r := BuildPlotData(store, selectedLabel, selectedPredictor);
      r.Ok? ==>
      && r.value.data == [ErrorBarTrace(SelectRows(store.results, selectedLabel, selectedPredictor))]
      && r.value.ticks == DTick(1)
  {
  }

  /** Every other predictor: the band series over the rows on the key, default ticks. */
  lemma ConfidenceBandClass(store: DataStore, selectedLabel: string, selectedPredictor: string)
    requires selectedPredictor !in ["donorparity", "idbloodgroupcat", "meandonorsex", "meanweekday", "numdoncat", "timesincecat"]
    ensures var r := BuildPlotData(store, selectedLabel, selectedPredictor);
      r.Ok? ==>
      && r.value.data == BandTraces(SelectRows(store.results, selectedLabel, selectedPredictor))
      && r.value.ticks == AutoTicks
  {
  }

  /** The label dropdown: each label code of the table once, in order of first appearance. */
  function LabelOptions(store: DataStore): (opts: seq<DropdownOption>)
    requires forall r :: r in store.results ==> r.labelCode in LabelNames
    ensures forall o :: o in opts <==> o.value in LabelColumn(store.results) && o.text == LabelNames[o.value]
    ensures forall i, j :: 0 <= i < j < |opts| ==> opts[i].value != opts[j].value
    ensures forall i, j :: 0 <= i < j < |opts| ==>
      opts[i].value in LabelColumn(store.results) && opts[j].value in LabelColumn(store.results) &&
      FirstIndex(LabelColumn(store.results), opts[i].value) < FirstIndex(LabelColumn(store.results), opts[j].value)
  {
    var codes := LabelColumn(store.results);
    assert forall c :: c in codes ==> c in LabelNames by {
      forall c | c in codes ensures c in LabelNames {
        var i :| 0 <= i < |codes| && codes[i] == c;
        assert store.results[i] in store.results;
      }
    }
    OptionsInTableOrder(codes, LabelNames)
  }

  /** The predictor dropdown: each predictor code of the table once, in order of first appearance. */
  function PredictorOptions(store: DataStore): (opts: seq<DropdownOption>)
    requires forall r :: r in store.results ==> r.predictor in PredictorNames
    ensures forall o :: o in opts <==> o.value in PredictorColumn(store.results) && o.text == PredictorNames[o.value]
    ensures forall i, j :: 0 <= i < j < |opts| ==> opts[i].value != opts[j].value
    ensures forall i, j :: 0 <= i < j < |opts| ==>
      opts[i].value in PredictorColumn(store.results) && opts[j].value in PredictorColumn(store.results) &&
      FirstIndex(PredictorColumn(store.results), opts[i].value) < FirstIndex(PredictorColumn(store.results), opts[j].value)
  {
    var codes := PredictorColumn(store.results);
    assert forall c :: c in codes ==> c in PredictorNames by {
      forall c | c in codes ensures c in PredictorNames {
        var i :| 0 <= i < |codes| && codes[i] == c;
        assert store.results[i] in store.results;
      }
    }
    OptionsInTableOrder(codes, PredictorNames)
  }
}
