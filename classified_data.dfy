/**
 * The data preparation of the Streamlit dashboard (dashboards/app.py): check the
 * classified dataset for its required columns, add the derived columns that are
 * missing (log10(S2/S1), a mock confidence and a reasoning text) and sort the
 * rows by event id.
 */
module ClassifiedData {
  import opened Wrappers
  import opened Seqs
  import opened Strings
  import opened Frames

  const EventIdColumn: string := "event_id"
  const S1Column: string := "s1_photons"
  const S2Column: string := "s2_photons"
  const TrueLabelColumn: string := "true_label"
  const ClassificationColumn: string := "classification"
  const LogColumn: string := "log10_s2_s1"
  const ConfidenceColumn: string := "confidence"
  const ReasoningColumn: string := "reasoning"

  const RequiredColumns: seq<string> :=
    [EventIdColumn, S1Column, S2Column, TrueLabelColumn, ClassificationColumn]

  /** The columns the preparation adds when the input lacks them, in the order it adds them. */
  const DerivedColumns: seq<string> := [LogColumn, ConfidenceColumn, ReasoningColumn]

  /** The columns whose cells the preparation reads as numbers. */
  const NumericColumns: seq<string> := [EventIdColumn, S1Column, S2Column]

  /** The names of `required` absent from `columns`, in the order of `required`. */
  function MissingColumns(required: seq<string>, columns: seq<string>): (missing: seq<string>)
    ensures IsSubsequence(missing, required)
    ensures forall i :: 0 <= i < |missing| ==> missing[i] !in columns
    ensures forall i :: 0 <= i < |required| && required[i] !in columns ==> required[i] in missing
  {
    Filter(required, Absent(columns))
  }

  /** The test "is not one of `columns`". */
  function Absent(columns: seq<string>): string -> bool
  {
    (c: string) => c !in columns
  }

  /** No required name is missing exactly when every one of them is a column. */
  lemma NoneMissing(required: seq<string>, columns: seq<string>)
    ensures MissingColumns(required, columns) == [] <==>
            forall i :: 0 <= i < |required| ==> required[i] in columns
  {
    var missing := MissingColumns(required, columns);
    if missing != [] {
      SubsequenceBounds(missing, required);
      assert missing[0] in required;
    }
  }

  /** Float formatting, which the model does not compute: `:.1f`, `:.2f` and `str`. */
  datatype Formatter = Formatter(fixed1: real -> string, fixed2: real -> string, show: real -> string)

  /** What an f-string prints for a cell. */
  function CellText(c: Cell, fmt: Formatter): string
  {
    match c
    case Num(x) => fmt.show(x)
    case Str(s) => s
  }

  const LowS1: string := "**Low S1 signal**"
  const ModerateS1: string := "**Moderate S1 signal**"
  const HighS1: string := "**High S1 signal**"
  const LowRatio: string := "**Low S2/S1 ratio**"
  const ModerateRatio: string := "**Moderate S2/S1 ratio**"
  const HighRatio: string := "**High S2/S1 ratio**"
  const NuclearRecoilName: string := "nuclear_recoil"
  const NuclearVerdict: string := "**Classification: Nuclear Recoil**"
  const ElectronicVerdict: string := "**Classification: Electronic Recoil**"
  const MatchNote: string := "\U{2713} Classification matches ground truth."
  const MismatchNote: string := "\U{26A0} Ground truth: "

  /** A string that starts with `p` does not start with a `q` that differs from `p` at `k`. */
  lemma PrefixClash(s: string, p: string, q: string, k: nat)
    requires StartsWith(s, p) && k < |p| && k < |q| && p[k] != q[k]
    ensures !StartsWith(s, q)
  {
    assert s[k] == p[k];
  }

  /** The S1 paragraph: exactly one of the three levels, by the thresholds 10 and 50. */
  function S1Part(s1: real, fmt: Formatter): (part: string)
    ensures StartsWith(part, LowS1) <==> s1 < 10.0
    ensures StartsWith(part, ModerateS1) <==> 10.0 <= s1 < 50.0
    ensures StartsWith(part, HighS1) <==> 50.0 <= s1
  {
    var tail := " (" + fmt.fixed1(s1) + " photons).";
    if s1 < 10.0 then
      var part := LowS1 + tail;
      assert StartsWith(part, LowS1);
      PrefixClash(part, LowS1, ModerateS1, 2);
      PrefixClash(part, LowS1, HighS1, 2);
      part
    else if s1 < 50.0 then
      var part := ModerateS1 + tail;
      assert StartsWith(part, ModerateS1);
      PrefixClash(part, ModerateS1, LowS1, 2);
      PrefixClash(part, ModerateS1, HighS1, 2);
      part
    else
      var part := HighS1 + tail;
      assert StartsWith(part, HighS1);
      PrefixClash(part, HighS1, LowS1, 2);
      PrefixClash(part, HighS1, ModerateS1, 2);
      part
  }

  /** The ratio paragraph: exactly one of the three levels, by the thresholds 1.5 and 2.5. */
  function RatioPart(logRatio: real, fmt: Formatter): (part: string)
    ensures StartsWith(part, LowRatio) <==> logRatio < 1.5
    ensures StartsWith(part, ModerateRatio) <==> 1.5 <= logRatio < 2.5
    ensures StartsWith(part, HighRatio) <==> 2.5 <= logRatio
  {
    var value := " (log\U{2081}\U{2080}=" + fmt.fixed2(logRatio) + "): ";
    if logRatio < 1.5 then
      var part := LowRatio + value + "Nuclear recoil likely.";
      assert StartsWith(part, LowRatio);
      PrefixClash(part, LowRatio, ModerateRatio, 2);
      PrefixClash(part, LowRatio, HighRatio, 2);
      part
    else if logRatio < 2.5 then
      var part := ModerateRatio + value + "Borderline region.";
      assert StartsWith(part, ModerateRatio);
      PrefixClash(part, ModerateRatio, LowRatio, 2);
      PrefixClash(part, ModerateRatio, HighRatio, 2);
      part
    else
      var part := HighRatio + value + "Electronic recoil likely.";
      assert StartsWith(part, HighRatio);
      PrefixClash(part, HighRatio, LowRatio, 2);
      PrefixClash(part, HighRatio, ModerateRatio, 2);
      part
  }

  /** The verdict paragraph: "Nuclear Recoil" exactly for the class `nuclear_recoil`. */
  function VerdictPart(classification: Cell): (part: string)
    ensures part == NuclearVerdict <==> classification == Str(NuclearRecoilName)
    ensures part == ElectronicVerdict <==> classification != Str(NuclearRecoilName)
  {
    assert NuclearVerdict[18] != ElectronicVerdict[18];
    if classification == Str(NuclearRecoilName) then NuclearVerdict else ElectronicVerdict
  }

  /** The check paragraph: the match note exactly when the class equals the ground truth. */
  function CheckPart(classification: Cell, trueLabel: Cell, fmt: Formatter): (part: string)
    ensures part == MatchNote <==> classification == trueLabel
    ensures classification != trueLabel ==> part == MismatchNote + CellText(trueLabel, fmt)
  {
    if classification == trueLabel then MatchNote
    else
      var part := MismatchNote + CellText(trueLabel, fmt);
      assert part[0] != MatchNote[0];
      part
  }

  /** The row has the cells the reasoning reads: numeric S1 and S2, a label and a class. */
  predicate HasReadings(row: Row)
  {
    NumAt(row, S1Column) && NumAt(row, S2Column) && TrueLabelColumn in row && ClassificationColumn in row
  }

  /**
   * `generate_reasoning(row)`; `ratioLog(s2, s1)` stands for `np.log10(s2 / s1)`.
   * The text is the four reasoning parts joined by blank lines.
   */
  function GenerateReasoning(row: Row, ratioLog: (real, real) -> real, fmt: Formatter): (text: string)
    requires HasReadings(row)
    ensures var s1, s2 := row[S1Column].value, row[S2Column].value;
            var classification, trueLabel := row[ClassificationColumn], row[TrueLabelColumn];
            text == S1Part(s1, fmt) + "\n\n" + RatioPart(ratioLog(s2, s1), fmt) + "\n\n"
                    + VerdictPart(classification) + "\n\n" + CheckPart(classification, trueLabel, fmt)
  {
    var s1, s2 := row[S1Column].value, row[S2Column].value;
    var classification, trueLabel := row[ClassificationColumn], row[TrueLabelColumn];
    var parts := [S1Part(s1, fmt), RatioPart(ratioLog(s2, s1), fmt), VerdictPart(classification),
                  CheckPart(classification, trueLabel, fmt)];
    JoinFour(parts[0], parts[1], parts[2], parts[3], "\n\n");
    Join(parts, "\n\n")
  }

  /** The derived log column holds log10(S2/S1) of the row. */
  predicate LogFilled(row: Row, ratioLog: (real, real) -> real)
  {
    HasReadings(row) && LogColumn in row
    && row[LogColumn] == Num(ratioLog(row[S2Column].value, row[S1Column].value))
  }

  /** The mock confidence lies in [0.85, 0.99) for a correct classification, in [0.55, 0.80) otherwise. */
  predicate ConfidenceInBand(row: Row)
  {
    HasReadings(row) && NumAt(row, ConfidenceColumn)
    && (var c := row[ConfidenceColumn].value;
        if row[ClassificationColumn] == row[TrueLabelColumn] then 0.85 <= c < 0.99 else 0.55 <= c < 0.80)
  }

  /** The derived reasoning column holds the reasoning generated from the row itself. */
  predicate ReasoningFilled(row: Row, ratioLog: (real, real) -> real, fmt: Formatter)
  {
    HasReadings(row) && ReasoningColumn in row
    && row[ReasoningColumn] == Str(GenerateReasoning(row, ratioLog, fmt))
  }

  /** Each derived column that the input (with columns `cols`) lacked is filled in as specified. */
  predicate Derived(row: Row, cols: seq<string>, ratioLog: (real, real) -> real, fmt: Formatter)
  {
    && HasReadings(row)
    && (LogColumn !in cols ==> LogFilled(row, ratioLog))
    && (ConfidenceColumn !in cols ==> ConfidenceInBand(row))
    && (ReasoningColumn !in cols ==> ReasoningFilled(row, ratioLog, fmt))
  }

  /** The sort key: the numeric event id. */
  function EventIdKey(row: Row): real
  {
    if NumAt(row, EventIdColumn) then row[EventIdColumn].value else 0.0
  }

  /** The row restricted to the input's columns. */
  function Original(cols: seq<string>): Row -> Row
  {
    (row: Row) => Restrict(row, cols)
  }

  datatype PrepareError = FileNotFound | MissingRequired(columns: seq<string>)

  predicate AllReadings(f: Frame)
  {
    forall i :: 0 <= i < |f.rows| ==> HasReadings(f.rows[i])
  }

  function LogValues(f: Frame, ratioLog: (real, real) -> real): (values: seq<Cell>)
    requires AllReadings(f)
    ensures |values| == |f.rows|
  {
    seq(|f.rows|, i requires 0 <= i < |f.rows| =>
      Num(ratioLog(f.rows[i][S2Column].value, f.rows[i][S1Column].value)))
  }

  /**
   * `np.where(match, uniform(0.85, 0.99, n), uniform(0.55, 0.80, n))`: both arrays are
   * drawn, the first from draws 0..n-1 and the second from draws n..2n-1.
   */
  function ConfidenceValues(f: Frame, uniform: nat -> real): (values: seq<Cell>)
    requires AllReadings(f)
    ensures |values| == |f.rows|
    ensures forall i :: 0 <= i < |values| ==> values[i].Num?
    ensures forall i :: 0 <= i < |values| && 0.0 <= uniform(i) < 1.0 && 0.0 <= uniform(|values| + i) < 1.0 ==>
              if f.rows[i][ClassificationColumn] == f.rows[i][TrueLabelColumn]
              then 0.85 <= values[i].value < 0.99
              else 0.55 <= values[i].value < 0.80
  {
    var n := |f.rows|;
    seq(n, i requires 0 <= i < n =>
      Num(if f.rows[i][ClassificationColumn] == f.rows[i][TrueLabelColumn]
          then 0.85 + 0.14 * uniform(i)
          else 0.55 + 0.25 * uniform(n + i)))
  }

  function ReasoningValues(f: Frame, ratioLog: (real, real) -> real, fmt: Formatter): (values: seq<Cell>)
    requires AllReadings(f)
    ensures |values| == |f.rows|
  {
    seq(|f.rows|, i requires 0 <= i < |f.rows| => Str(GenerateReasoning(f.rows[i], ratioLog, fmt)))
  }

  /**
   * What holds of the working frame `df` while derived columns are added to the input `f`:
   * each row still holds the input row on the input's columns, and each derived column
   * that `df` has and `f` lacked is filled in as specified.
   */
  ghost predicate Progress(df: Frame, f: Frame, ratioLog: (real, real) -> real, fmt: Formatter)
  {
    && WellFormed(df)
    && |df.rows| == |f.rows|
    && AllReadings(df)
    && (forall i :: 0 <= i < |df.rows| ==> Restrict(df.rows[i], f.columns) == f.rows[i])
    && (forall i :: 0 <= i < |df.rows| && LogColumn in df.columns && LogColumn !in f.columns ==>
          LogFilled(df.rows[i], ratioLog))
    && (forall i :: 0 <= i < |df.rows| && ConfidenceColumn in df.columns && ConfidenceColumn !in f.columns ==>
          ConfidenceInBand(df.rows[i]))
    && (forall i :: 0 <= i < |df.rows| && ReasoningColumn in df.columns && ReasoningColumn !in f.columns ==>
          ReasoningFilled(df.rows[i], ratioLog, fmt))
  }

  /** A new cell in a column other than the readings leaves what was filled in a row filled. */
  lemma UpdateKeepsFilled(row: Row, name: string, v: Cell, ratioLog: (real, real) -> real, fmt: Formatter)
    requires HasReadings(row) && name !in row
    requires name != S1Column && name != S2Column && name != TrueLabelColumn && name != ClassificationColumn
    ensures HasReadings(row[name := v])
    ensures LogFilled(row, ratioLog) ==> LogFilled(row[name := v], ratioLog)
    ensures ConfidenceInBand(row) ==> ConfidenceInBand(row[name := v])
    ensures ReasoningFilled(row, ratioLog, fmt) ==> ReasoningFilled(row[name := v], ratioLog, fmt)
  {
    assert GenerateReasoning(row[name := v], ratioLog, fmt) == GenerateReasoning(row, ratioLog, fmt);
  }

  /**
   * Adding a column that is neither an input column nor a reading keeps the input rows,
   * the readings and every derived column already filled.
   */
  lemma AddKeepsRows(df: Frame, f: Frame, name: string, values: seq<Cell>,
                     ratioLog: (real, real) -> real, fmt: Formatter)
    requires Progress(df, f, ratioLog, fmt)
    requires name !in df.columns && |values| == |df.rows| && name !in f.columns
    requires name != S1Column && name != S2Column && name != TrueLabelColumn && name != ClassificationColumn
    ensures var g := WithColumn(df, name, values);
            forall i :: 0 <= i < |g.rows| ==>
              && Restrict(g.rows[i], f.columns) == f.rows[i] && HasReadings(g.rows[i])
              && (LogColumn in df.columns && LogColumn !in f.columns ==> LogFilled(g.rows[i], ratioLog))
              && (ConfidenceColumn in df.columns && ConfidenceColumn !in f.columns ==> ConfidenceInBand(g.rows[i]))
              && (ReasoningColumn in df.columns && ReasoningColumn !in f.columns ==>
                    ReasoningFilled(g.rows[i], ratioLog, fmt))
  {
    var g := WithColumn(df, name, values);
    forall i | 0 <= i < |g.rows|
      ensures Restrict(g.rows[i], f.columns) == f.rows[i] && HasReadings(g.rows[i])
      ensures LogColumn in df.columns && LogColumn !in f.columns ==> LogFilled(g.rows[i], ratioLog)
      ensures ConfidenceColumn in df.columns && ConfidenceColumn !in f.columns ==> ConfidenceInBand(g.rows[i])
      ensures ReasoningColumn in df.columns && ReasoningColumn !in f.columns ==>
                ReasoningFilled(g.rows[i], ratioLog, fmt)
    {
      assert df.rows[i].Keys == (set c | c in df.columns);
      UpdateKeepsFilled(df.rows[i], name, values[i], ratioLog, fmt);
      assert Restrict(g.rows[i], f.columns) == Restrict(df.rows[i], f.columns);
    }
  }

  lemma AddLog(df: Frame, f: Frame, ratioLog: (real, real) -> real, fmt: Formatter)
    requires Progress(df, f, ratioLog, fmt) && LogColumn !in df.columns && LogColumn !in f.columns
    ensures Progress(WithColumn(df, LogColumn, LogValues(df, ratioLog)), f, ratioLog, fmt)
  {
    AddKeepsRows(df, f, LogColumn, LogValues(df, ratioLog), ratioLog, fmt);
  }

  lemma AddConfidence(df: Frame, f: Frame, uniform: nat -> real, ratioLog: (real, real) -> real, fmt: Formatter)
    requires Progress(df, f, ratioLog, fmt) && ConfidenceColumn !in df.columns && ConfidenceColumn !in f.columns
    requires forall k :: 0.0 <= uniform(k) < 1.0
    ensures Progress(WithColumn(df, ConfidenceColumn, ConfidenceValues(df, uniform)), f, ratioLog, fmt)
  {
    var values := ConfidenceValues(df, uniform);
    AddKeepsRows(df, f, ConfidenceColumn, values, ratioLog, fmt);
    var g := WithColumn(df, ConfidenceColumn, values);
    forall i | 0 <= i < |g.rows|
      ensures ConfidenceInBand(g.rows[i])
    {
      var u, v := uniform(i), uniform(|df.rows| + i);
      assert 0.0 <= u < 1.0 && 0.0 <= v < 1.0;
    }
  }

  lemma AddReasoning(df: Frame, f: Frame, ratioLog: (real, real) -> real, fmt: Formatter)
    requires Progress(df, f, ratioLog, fmt) && ReasoningColumn !in df.columns && ReasoningColumn !in f.columns
    ensures Progress(WithColumn(df, ReasoningColumn, ReasoningValues(df, ratioLog, fmt)), f, ratioLog, fmt)
  {
    var values := ReasoningValues(df, ratioLog, fmt);
    AddKeepsRows(df, f, ReasoningColumn, values, ratioLog, fmt);
    var g := WithColumn(df, ReasoningColumn, values);
    forall i | 0 <= i < |g.rows|
      ensures ReasoningFilled(g.rows[i], ratioLog, fmt)
    {
      UpdateKeepsFilled(df.rows[i], ReasoningColumn, values[i], ratioLog, fmt);
    }
  }

  /** `[name]` when `cols` lacks it, otherwise nothing. */
  function IfAbsent(name: string, cols: seq<string>): seq<string>
  {
    if name in cols then [] else [name]
  }

  /** The derived columns absent from `cols`, listed by whether each is absent. */
  lemma MissingDerived(cols: seq<string>)
    ensures MissingColumns(DerivedColumns, cols) ==
            IfAbsent(LogColumn, cols) + IfAbsent(ConfidenceColumn, cols) + IfAbsent(ReasoningColumn, cols)
  {
    var p := Absent(cols);
    var last := IfAbsent(ReasoningColumn, cols);
    assert [ReasoningColumn][1..] == [];
    assert Filter([ReasoningColumn], p) == last;
    assert [ConfidenceColumn, ReasoningColumn][1..] == [ReasoningColumn];
    assert Filter([ConfidenceColumn, ReasoningColumn], p) == IfAbsent(ConfidenceColumn, cols) + last;
    assert DerivedColumns[1..] == [ConfidenceColumn, ReasoningColumn];
  }

  /** An input with the required columns and numeric readings has every reading in every row. */
  lemma ReadingsPresent(f: Frame)
    requires WellFormed(f) && NumericIn(f, NumericColumns)
    requires MissingColumns(RequiredColumns, f.columns) == []
    ensures AllReadings(f)
  {
    NoneMissing(RequiredColumns, f.columns);
    forall i | 0 <= i < |f.rows|
      ensures HasReadings(f.rows[i])
    {
      assert RequiredColumns[1] in f.columns && RequiredColumns[2] in f.columns;
      assert RequiredColumns[3] in f.columns && RequiredColumns[4] in f.columns;
      assert f.rows[i][NumericColumns[1]].Num? && f.rows[i][NumericColumns[2]].Num?;
    }
  }

  /** Before any column is added, the input itself satisfies the progress invariant. */
  lemma StartProgress(f: Frame, ratioLog: (real, real) -> real, fmt: Formatter)
    requires WellFormed(f) && AllReadings(f)
    ensures Progress(f, f, ratioLog, fmt)
  {
    forall i | 0 <= i < |f.rows|
      ensures Restrict(f.rows[i], f.columns) == f.rows[i]
    {
    }
  }

  /** Sorting the finished frame keeps its rows, so what held of every row still does. */
  lemma SortKeepsRows(df: Frame, f: Frame, ratioLog: (real, real) -> real, fmt: Formatter)
    requires Progress(df, f, ratioLog, fmt)
    requires LogColumn in df.columns && ConfidenceColumn in df.columns && ReasoningColumn in df.columns
    ensures var sorted := SortBy(df.rows, EventIdKey);
            && WellFormed(Frame(df.columns, sorted))
            && multiset(Map(sorted, Original(f.columns))) == multiset(f.rows)
            && forall row :: row in sorted ==> Derived(row, f.columns, ratioLog, fmt)
  {
    FinishedRows(df, f, ratioLog, fmt);
    SortedFinishedRows(df, f, ratioLog, fmt);
  }

  /** Once the derived columns are all present, every row is derived from its input row. */
  lemma FinishedRows(df: Frame, f: Frame, ratioLog: (real, real) -> real, fmt: Formatter)
    requires Progress(df, f, ratioLog, fmt)
    requires LogColumn in df.columns && ConfidenceColumn in df.columns && ReasoningColumn in df.columns
    ensures Map(df.rows, Original(f.columns)) == f.rows
    ensures forall j :: 0 <= j < |df.rows| ==> Derived(df.rows[j], f.columns, ratioLog, fmt)
  {
  }

  /** Sorting rows that are each derived from the input keeps the input's rows and their derivation. */
  lemma SortedFinishedRows(df: Frame, f: Frame, ratioLog: (real, real) -> real, fmt: Formatter)
    requires WellFormed(df)
    requires Map(df.rows, Original(f.columns)) == f.rows
    requires forall j :: 0 <= j < |df.rows| ==> Derived(df.rows[j], f.columns, ratioLog, fmt)
    ensures var sorted := SortBy(df.rows, EventIdKey);
            && WellFormed(Frame(df.columns, sorted))
            && multiset(Map(sorted, Original(f.columns))) == multiset(f.rows)
            && forall row :: row in sorted ==> Derived(row, f.columns, ratioLog, fmt)
  {
    var sorted := SortBy(df.rows, EventIdKey);
    MapPermutation(sorted, df.rows, Original(f.columns));
    forall i | 0 <= i < |sorted|
      ensures sorted[i].Keys == (set c | c in df.columns)
      ensures Derived(sorted[i], f.columns, ratioLog, fmt)
    {
      assert sorted[i] in multiset(df.rows);
      var j :| 0 <= j < |df.rows| && df.rows[j] == sorted[i];
    }
  }

  /** `df['log10_s2_s1'] = np.log10(df['s2_photons'] / df['s1_photons'])` when the column is absent. */
  method AddLogColumn(df: Frame, ghost f: Frame, ratioLog: (real, real) -> real, ghost fmt: Formatter)
    returns (g: Frame)
    requires Progress(df, f, ratioLog, fmt) && df.columns == f.columns
    ensures g.columns == f.columns + IfAbsent(LogColumn, f.columns)
    ensures Progress(g, f, ratioLog, fmt)
  {
    g := df;
    if LogColumn !in df.columns {
      AddLog(df, f, ratioLog, fmt);
      g := WithColumn(df, LogColumn, LogValues(df, ratioLog));
    }
  }

  /** The confidence column, drawn per row from the band its classification earns, when absent. */
  method AddConfidenceColumn(df: Frame, ghost f: Frame, uniform: nat -> real,
                             ghost ratioLog: (real, real) -> real, ghost fmt: Formatter)
    returns (g: Frame)
    requires Progress(df, f, ratioLog, fmt) && df.columns == f.columns + IfAbsent(LogColumn, f.columns)
    requires forall k :: 0.0 <= uniform(k) < 1.0
    ensures g.columns == df.columns + IfAbsent(ConfidenceColumn, f.columns)
    ensures Progress(g, f, ratioLog, fmt)
  {
    g := df;
    if ConfidenceColumn !in df.columns {
      AddConfidence(df, f, uniform, ratioLog, fmt);
      g := WithColumn(df, ConfidenceColumn, ConfidenceValues(df, uniform));
    }
  }

  /** The reasoning column, one explanation per row, when absent. */
  method AddReasoningColumn(df: Frame, ghost f: Frame, ratioLog: (real, real) -> real, fmt: Formatter)
    returns (g: Frame)
    requires Progress(df, f, ratioLog, fmt)
    requires df.columns == f.columns + IfAbsent(LogColumn, f.columns) + IfAbsent(ConfidenceColumn, f.columns)
    ensures g.columns == df.columns + IfAbsent(ReasoningColumn, f.columns)
    ensures Progress(g, f, ratioLog, fmt)
  {
    g := df;
    if ReasoningColumn !in df.columns {
      AddReasoning(df, f, ratioLog, fmt);
      g := WithColumn(df, ReasoningColumn, ReasoningValues(df, ratioLog, fmt));
    }
  }

  /**
   * The three conditional column assignments of the preparation, in order: each derived
   * column the input lacks is appended and filled in.
   */
  method AddDerivedColumns(f: Frame, ratioLog: (real, real) -> real, uniform: nat -> real, fmt: Formatter)
    returns (df: Frame)
    requires WellFormed(f) && AllReadings(f)
    requires forall k :: 0.0 <= uniform(k) < 1.0
    ensures df.columns == f.columns + MissingColumns(DerivedColumns, f.columns)
    ensures Progress(df, f, ratioLog, fmt)
  {
    MissingDerived(f.columns);
    StartProgress(f, ratioLog, fmt);
    df := AddLogColumn(f, f, ratioLog, fmt);
    df := AddConfidenceColumn(df, f, uniform, ratioLog, fmt);
    df := AddReasoningColumn(df, f, ratioLog, fmt);
  }

  /**
   * `prepare_classified_data`: `input` is the file's contents, or None when the file
   * does not exist; `uniform` is NumPy's stream of draws in [0, 1).
   */
  method PrepareClassifiedData(input: Option<Frame>, ratioLog: (real, real) -> real,
                               uniform: nat -> real, fmt: Formatter)
    returns (r: Result<Frame, PrepareError>)
    requires input.Some? ==> WellFormed(input.value) && NumericIn(input.value, NumericColumns)
    requires forall k :: 0.0 <= uniform(k) < 1.0
    ensures input.None? ==> r == Failure(FileNotFound)
    ensures input.Some? ==>
              (r.Failure? <==> MissingColumns(RequiredColumns, input.value.columns) != [])
    ensures input.Some? && r.Failure? ==>
              r.error == MissingRequired(MissingColumns(RequiredColumns, input.value.columns))
    ensures r.Success? ==> input.Some?
    ensures r.Success? ==>
              var f, out := input.value, r.value;
              && out.columns == f.columns + MissingColumns(DerivedColumns, f.columns)
              && WellFormed(out)
              && SortedBy(out.rows, EventIdKey)
              && multiset(Map(out.rows, Original(f.columns))) == multiset(f.rows)
              && forall row :: row in out.rows ==> Derived(row, f.columns, ratioLog, fmt)
  {
    if input.None? {
      return Failure(FileNotFound);
    }
    var f := input.value;
    var missing := MissingColumns(RequiredColumns, f.columns);
    if missing != [] {
      return Failure(MissingRequired(missing));
    }
    ReadingsPresent(f);
    MissingDerived(f.columns);

    var df := AddDerivedColumns(f, ratioLog, uniform, fmt);
    SortKeepsRows(df, f, ratioLog, fmt);
    df := Frame(df.columns, SortBy(df.rows, EventIdKey));
    return Success(df);
  }
}
