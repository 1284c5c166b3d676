/**
 * The two precomputed tables the dashboard reads once at start-up, and the
 * mask selections the chart callbacks apply to them.
 */
module Tables {
  import opened Outcomes
  import opened Seqs

  /**
   * One row of the results table: a point of a fitted association curve.
   * Rows with a missing numeric field are dropped when the table is loaded,
   * so every numeric field is present here.
   */
  datatype ResultRow = ResultRow(
    labelCode: string,
    predictor: string,
    predictorValue: real,
    predicted: real,
    upper: real,
    lower: real,
    adjusted: int)

  /** One row of the significance table: raw (`ProbF`) and FDR-adjusted p-values. */
  datatype SignificanceRow = SignificanceRow(
    labelCode: string,
    predictor: string,
    probF: real,
    fdrP: real,
    adjusted: int)

  /** Both tables as loaded. */
  datatype DataStore = DataStore(results: seq<ResultRow>, significance: seq<SignificanceRow>)

  /** The confidence bounds enclose the prediction (the loader does not enforce this). */
  ghost predicate WithinBounds(row: ResultRow) {
    row.lower <= row.predicted <= row.upper
  }

  /** A result row on the selected label and predictor. */
  predicate OnKey(r: ResultRow, labelCode: string, predictor: string) {
    r.labelCode == labelCode && r.predictor == predictor
  }

  /** The mask `(df['label'] == label) & (df['predictor'] == predictor)`. */
  function RowsOnKey(rows: seq<ResultRow>, labelCode: string, predictor: string): (dff: seq<ResultRow>) {
    Filter(rows, (r: ResultRow) => OnKey(r, labelCode, predictor))
  }

  /** The mask `dff['adjusted'] == flag`. */
  function RowsWithAdjustment(rows: seq<ResultRow>, flag: int): (dff: seq<ResultRow>) {
    Filter(rows, (r: ResultRow) => r.adjusted == flag)
  }

  /** A significance row on the selected label and predictor, whatever its adjustment state. */
  predicate SignificanceOnKey(s: SignificanceRow, labelCode: string, predictor: string) {
    s.labelCode == labelCode && s.predictor == predictor
  }

  /**
   * The first significance row on the key: `.iloc[0]` of the mask
   * `(pvals['label'] == label) & (pvals['predictor'] == predictor)`,
   * or None where that selection is empty.
   */
  function FirstSignificance(sig: seq<SignificanceRow>, labelCode: string, predictor: string)
    : (s: Option<SignificanceRow>)
  {
    First(sig, (s: SignificanceRow) => SignificanceOnKey(s, labelCode, predictor))
  }

  /** Row `i` is the first significance row on the key. */
  ghost predicate FirstOnKeyAt(sig: seq<SignificanceRow>, i: int, labelCode: string, predictor: string) {
    && 0 <= i < |sig|
    && SignificanceOnKey(sig[i], labelCode, predictor)
    && forall j :: 0 <= j < i ==> !SignificanceOnKey(sig[j], labelCode, predictor)
  }

  /**
   * The lookup picks the significance row at the lowest index on the key,
   * whatever its adjustment state, and finds nothing exactly when no row is on the key.
   */
  lemma SignificanceLookup(sig: seq<SignificanceRow>, labelCode: string, predictor: string)
    ensures FirstSignificance(sig, labelCode, predictor).None? <==>
      forall i :: 0 <= i < |sig| ==> !SignificanceOnKey(sig[i], labelCode, predictor)
    ensures forall i :: FirstOnKeyAt(sig, i, labelCode, predictor) ==>
      FirstSignificance(sig, labelCode, predictor) == Some(sig[i])
  {
    var p := (s: SignificanceRow) => SignificanceOnKey(s, labelCode, predictor);
    forall i | FirstOnKeyAt(sig, i, labelCode, predictor)
      ensures First(sig, p) == Some(sig[i])
    {
      FirstIsEarliest(sig, p, i);
    }
    if First(sig, p).None? {
      forall i | 0 <= i < |sig| ensures !p(sig[i]) {
        assert sig[i] in sig;
      }
    }
  }

  /** One numeric column of the rows, in row order, as `dff['<column>']`. */
  function Column(rows: seq<ResultRow>, field: ResultRow -> real): (c: seq<real>)
  {
    seq(|rows|, i requires 0 <= i < |rows| => field(rows[i]))
  }

  /** The `label` column, as `df['label']`. */
  function LabelColumn(rows: seq<ResultRow>): (c: seq<string>)
  {
    seq(|rows|, i requires 0 <= i < |rows| => rows[i].labelCode)
  }

  /** The `predictor` column, as `df['predictor']`. */
  function PredictorColumn(rows: seq<ResultRow>): (c: seq<string>)
  {
    seq(|rows|, i requires 0 <= i < |rows| => rows[i].predictor)
  }

  /**
   * The lookup reads only label, predictor and the two p-values: two tables that
   * differ only in their adjustment column give the same p-values.
   */
  lemma {:induction false} FirstSignificanceIgnoresAdjustment(s1: seq<SignificanceRow>, s2: seq<SignificanceRow>,
                                                              labelCode: string, predictor: string)
    requires |s1| == |s2|
    requires forall i :: 0 <= i < |s2| ==> s2[i] == s1[i].(adjusted := s2[i].adjusted)
    ensures var f1 := FirstSignificance(s1, labelCode, predictor);
            var f2 := FirstSignificance(s2, labelCode, predictor);
      f1.None? == f2.None? && (f1.Some? ==> f1.value.probF == f2.value.probF && f1.value.fdrP == f2.value.fdrP)
  {
    var p := (s: SignificanceRow) => SignificanceOnKey(s, labelCode, predictor);
    if s1 != [] {
      FirstSignificanceIgnoresAdjustment(s1[1..], s2[1..], labelCode, predictor);
      if p(s1[0]) {
        assert Filter(s1, p)[0] == s1[0];
        assert Filter(s2, p)[0] == s2[0];
      } else {
        assert Filter(s1, p) == Filter(s1[1..], p);
        assert Filter(s2, p) == Filter(s2[1..], p);
      }
    }
  }
}
