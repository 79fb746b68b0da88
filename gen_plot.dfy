/**
 * The plotting script's data handling (gen_plot.py): load a classified dataset by
 * file suffix, add the log10(S2/S1) column when it is missing, and count the
 * results for the text summary.
 */
module GenPlot {
  import opened Wrappers
  import opened Seqs
  import opened Strings
  import opened Frames
  import DataGenerator

  const LogColumn: string := "log10_s2_s1"
  const S1Column: string := "s1_photons"
  const S2ChargeColumn: string := "s2_charge"
  const ClassificationColumn: string := "classification"
  const TrueLabelColumn: string := "true_label"

  /** A string whose characters from `from` on are not `c` has no `c` in that tail. */
  lemma TailWithout(s: string, c: char, from: nat)
    requires from <= |s|
    requires forall j :: from <= j < |s| ==> s[j] != c
    ensures c !in s[from..]
  {
    forall k | 0 <= k < |s[from..]|
      ensures s[from..][k] != c
    {
      assert s[from..][k] == s[from + k];
    }
  }

  /** The path ends in a `.` component (`x/.` or `.`), which pathlib drops. */
  predicate EndsInDot(path: string)
  {
    |path| >= 1 && path[|path| - 1] == '.' && (|path| == 1 || path[|path| - 2] == '/')
  }

  /**
   * The last component of a POSIX path, as `pathlib.PurePath.name`: trailing `/`s and a
   * trailing `.` component are dropped, and what follows the last `/` is the name.
   */
  function BaseName(path: string): (name: string)
    ensures '/' !in name
    ensures |name| <= |path|
    ensures path == [] ==> name == []
    ensures path != [] && path[|path| - 1] != '/' && !EndsInDot(path) ==>
              && name == path[|path| - |name|..]
              && (|name| == |path| || path[|path| - |name| - 1] == '/')
    decreases |path|
  {
    if path == [] then []
    else if path[|path| - 1] == '/' || EndsInDot(path) then BaseName(path[..|path| - 1])
    else
      var i := RFind(path, '/');
      TailWithout(path, '/', i + 1);
      path[i + 1..]
  }

  /** A name that is not `.` keeps itself as the base name below any directory. */
  lemma BaseNameInDirectory(dir: string, name: string)
    requires name != [] && '/' !in name && name != "."
    ensures BaseName(dir + "/" + name) == name
  {
    var path := dir + "/" + name;
    assert path[|path| - 1] == name[|name| - 1];
    assert |name| >= 2 ==> path[|path| - 2] == name[|name| - 2];
    assert !EndsInDot(path) by {
      if |name| == 1 { assert name == [name[0]]; }
    }
    var b := BaseName(path);
    assert path[|path| - |name| - 1] == '/';
    assert path[|path| - |name|..] == name;
  }

  /**
   * `pathlib.PurePath.suffix`: from the last dot of the file name to its end, provided
   * that dot is neither the first nor the last character of the name; otherwise empty.
   */
  function Suffix(path: string): (suffix: string)
    ensures var name := BaseName(path);
            suffix != [] ==>
              && 2 <= |suffix| < |name| && suffix[0] == '.' && '.' !in suffix[1..]
              && name[|name| - |suffix|..] == suffix
    ensures var name := BaseName(path);
            suffix == [] <==> |name| <= 1 || '.' !in name[1..] || name[|name| - 1] == '.'
  {
    var name := BaseName(path);
    var i := RFind(name, '.');
    if 0 < i < |name| - 1 then
      TailWithout(name, '.', i + 1);
      assert name[i..][1..] == name[i + 1..];
      assert name[1..][i - 1] == '.';
      name[i..]
    else
      assert i <= 0 && |name| >= 1 ==> '.' !in name[1..] by {
        if i <= 0 && |name| >= 1 { TailWithout(name, '.', 1); }
      }
      []
  }

  /**
   * A plain file name `stem.ext`, written as `base + ext` where `base` is `stem.`, has
   * suffix `.ext` when `ext` holds no dot and `stem` is not empty.
   */
  lemma SuffixOfFileName(base: string, ext: string)
    requires |base| >= 2 && base[|base| - 1] == '.' && ext != []
    requires '/' !in base && '/' !in ext && '.' !in ext
    ensures Suffix(base + ext) == "." + ext
  {
    var path := base + ext;
    var n := |base| - 1;
    assert path[|path| - 1] == ext[|ext| - 1];
    assert '/' !in path;
    assert RFind(path, '/') == -1;
    assert BaseName(path) == path;
    assert path[n] == '.';
    assert forall j :: n < j < |path| ==> path[j] == ext[j - n - 1];
    assert RFind(path, '.') == n;
    assert path[n..] == "." + ext;
  }

  /** Below a directory, a file name `stem.ext` still has suffix `.ext`. */
  lemma SuffixInDirectory(dir: string, base: string, ext: string)
    requires |base| >= 2 && base[|base| - 1] == '.' && ext != []
    requires '/' !in base && '/' !in ext && '.' !in ext
    ensures Suffix(dir + "/" + base + ext) == "." + ext
  {
    var name := base + ext;
    assert dir + "/" + base + ext == dir + "/" + name;
    BaseNameInDirectory(dir, name);
    BaseNameOfName(base, ext);
    SuffixOfFileName(base, ext);
    SameNameSameSuffix(dir + "/" + name, name);
  }

  /** A `/`-free file name `stem.ext` is its own base name. */
  lemma BaseNameOfName(base: string, ext: string)
    requires ext != [] && '/' !in base && '/' !in ext && '.' !in ext
    ensures BaseName(base + ext) == base + ext
  {
    var name := base + ext;
    assert name[|name| - 1] == ext[|ext| - 1];
  }

  /** The suffix depends on the base name alone. */
  lemma SameNameSameSuffix(p: string, q: string)
    requires BaseName(p) == BaseName(q)
    ensures Suffix(p) == Suffix(q)
  {
  }

  /** The directory of the dataset that the script's `main` loads. */
  const ScriptDataDirectory: string := "C:/Users/wrich/Downloads/CluadeMain/CODEFATHER_ClaudeSolvathon-1/data"

  /** The dataset the script's `main` loads is read with the CSV reader. */
  lemma ScriptDatasetIsCsv()
    ensures FileKindOf(ScriptDataDirectory + "/" + "classified_dataset." + "csv") == Success(CsvFile)
  {
    DirectoryCsvIsCsv(ScriptDataDirectory, "classified_dataset.");
  }

  /** Any `stem.csv` below any directory is read with the CSV reader. */
  lemma DirectoryCsvIsCsv(dir: string, base: string)
    requires |base| >= 2 && base[|base| - 1] == '.' && '/' !in base
    ensures FileKindOf(dir + "/" + base + "csv") == Success(CsvFile)
  {
    var path := dir + "/" + base + "csv";
    SuffixInDirectory(dir, base, "csv");
    DotCsv();
  }

  /** The dotted CSV extension. */
  lemma DotCsv()
    ensures "." + "csv" == ".csv"
  {
  }

  datatype FileKind = CsvFile | JsonFile

  datatype LoadError = UnsupportedFileType | KeyError(column: string)

  /** Which reader a path is loaded with: CSV for `.csv`, JSON for `.json` and `.jsonl`. */
  function FileKindOf(path: string): (r: Result<FileKind, LoadError>)
    ensures r == Success(CsvFile) <==> Suffix(path) == ".csv"
    ensures r == Success(JsonFile) <==> Suffix(path) == ".json" || Suffix(path) == ".jsonl"
    ensures r.Failure? <==> Suffix(path) !in [".csv", ".json", ".jsonl"]
    ensures r.Failure? ==> r.error == UnsupportedFileType
  {
    var suffix := Suffix(path);
    if suffix == ".csv" then Success(CsvFile)
    else if suffix in [".json", ".jsonl"] then Success(JsonFile)
    else Failure(UnsupportedFileType)
  }

  /** A file the dashboard's download button saves is given to the reader its name's format selects. */
  lemma DownloadReaderChoice(format: DataGenerator.Format)
    ensures var name := DataGenerator.HandleDownload(format).fileName;
            FileKindOf(name) == Success(if format == DataGenerator.Csv then CsvFile else JsonFile)
  {
    var name := DataGenerator.HandleDownload(format).fileName;
    DownloadSuffix(format);
    if format == DataGenerator.Json {
      JsonSuffixIsJson(name);
    }
  }

  /** A name whose suffix is `.json` goes to the JSON reader. */
  lemma JsonSuffixIsJson(path: string)
    requires Suffix(path) == ".json"
    ensures FileKindOf(path) == Success(JsonFile)
  {
    assert ".json" != ".csv" by { assert ".json"[1] != ".csv"[1]; }
  }

  /** The suffix of a download's file name is its format's extension. */
  lemma DownloadSuffix(format: DataGenerator.Format)
    ensures Suffix(DataGenerator.FileStem + DataGenerator.Extension(format))
            == if format == DataGenerator.Csv then ".csv" else ".json"
  {
    assert '/' !in DataGenerator.FileStem;
    SuffixOfFileName(DataGenerator.FileStem, DataGenerator.Extension(format));
    DataGenerator.DottedExtension(format);
  }

  /** The readings the loader divides: S2 charge and S1 photons, numeric where present. */
  const ReadingColumns: seq<string> := [S2ChargeColumn, S1Column]

  /** The log column's values: `ratioLog(s2, s1)` stands for `np.log10(s2 / s1)`. */
  function LogOfRatio(f: Frame, ratioLog: (real, real) -> real): (values: seq<Cell>)
    requires forall i :: 0 <= i < |f.rows| ==> NumAt(f.rows[i], S2ChargeColumn) && NumAt(f.rows[i], S1Column)
    ensures |values| == |f.rows|
  {
    seq(|f.rows|, i requires 0 <= i < |f.rows| =>
      assert NumAt(f.rows[i], S2ChargeColumn) && NumAt(f.rows[i], S1Column);
      Num(ratioLog(f.rows[i][S2ChargeColumn].value, f.rows[i][S1Column].value)))
  }

  /**
   * `g` is `df` with the log column appended: every input cell kept, and each row's new
   * cell the log of its S2 charge over its S1 photons.
   */
  ghost predicate LogAdded(g: Frame, df: Frame, ratioLog: (real, real) -> real)
  {
    && g.columns == df.columns + [LogColumn]
    && |g.rows| == |df.rows|
    && forall i :: 0 <= i < |df.rows| ==>
         && Restrict(g.rows[i], df.columns) == df.rows[i]
         && NumAt(df.rows[i], S2ChargeColumn) && NumAt(df.rows[i], S1Column)
         && LogColumn in g.rows[i]
         && g.rows[i][LogColumn] == Num(ratioLog(df.rows[i][S2ChargeColumn].value, df.rows[i][S1Column].value))
  }

  /** A frame with both reading columns, numeric wherever present, has both readings in every row. */
  lemma ReadingsInEveryRow(df: Frame)
    requires WellFormed(df) && NumericIn(df, ReadingColumns)
    requires S2ChargeColumn in df.columns && S1Column in df.columns
    ensures forall i :: 0 <= i < |df.rows| ==> NumAt(df.rows[i], S2ChargeColumn) && NumAt(df.rows[i], S1Column)
  {
    forall i | 0 <= i < |df.rows|
      ensures NumAt(df.rows[i], S2ChargeColumn) && NumAt(df.rows[i], S1Column)
    {
      assert df.rows[i].Keys == (set c | c in df.columns);
      assert ReadingColumns[0] in df.rows[i] && ReadingColumns[1] in df.rows[i];
    }
  }

  /** The log column computed for a frame that lacks it but holds both readings. */
  function WithLogColumn(df: Frame, ratioLog: (real, real) -> real): (g: Frame)
    requires WellFormed(df) && NumericIn(df, ReadingColumns)
    requires LogColumn !in df.columns && S2ChargeColumn in df.columns && S1Column in df.columns
    ensures WellFormed(g) && LogAdded(g, df, ratioLog)
  {
    ReadingsInEveryRow(df);
    var g := WithColumn(df, LogColumn, LogOfRatio(df, ratioLog));
    assert forall i :: 0 <= i < |df.rows| ==> Restrict(g.rows[i], df.columns) == df.rows[i];
    g
  }

  /**
   * `load_classified_data(path)`: `read(kind)` is the frame the pandas reader of that
   * kind returns for the file. A missing log column is computed from `s2_charge` and
   * `s1_photons`; the division looks up `s2_charge` first.
   */
  function LoadClassifiedData(path: string, read: FileKind -> Frame, ratioLog: (real, real) -> real)
    : (r: Result<Frame, LoadError>)
    requires forall k :: WellFormed(read(k)) && NumericIn(read(k), ReadingColumns)
    ensures FileKindOf(path).Failure? <==> r == Failure(UnsupportedFileType)
    ensures FileKindOf(path).Success? && r.Failure? ==>
              var df := read(FileKindOf(path).value);
              && r.error.KeyError?
              && LogColumn !in df.columns && r.error.column !in df.columns
              && (r.error.column == S2ChargeColumn || (r.error.column == S1Column && S2ChargeColumn in df.columns))
    ensures r.Success? ==> FileKindOf(path).Success? && WellFormed(r.value)
    ensures FileKindOf(path).Success? && r.Success? ==>
              var df := read(FileKindOf(path).value);
              && (LogColumn in df.columns ==> r.value == df)
              && (LogColumn !in df.columns ==> LogAdded(r.value, df, ratioLog))
    ensures FileKindOf(path).Success? ==>
              var df := read(FileKindOf(path).value);
              (r.Success? <==> LogColumn in df.columns || (S2ChargeColumn in df.columns && S1Column in df.columns))
  {
    var kind := FileKindOf(path);
    if kind.Failure? then Failure(UnsupportedFileType)
    else
      var df := read(kind.value);
      if LogColumn in df.columns then Success(df)
      else if S2ChargeColumn !in df.columns then Failure(KeyError(S2ChargeColumn))
      else if S1Column !in df.columns then Failure(KeyError(S1Column))
      else Success(WithLogColumn(df, ratioLog))
  }

  /** The counts `synthesize_summary` reports; `accuracy` is None where NumPy yields NaN. */
  datatype Summary = Summary(total: nat, nrCount: nat, erCount: nat, correct: nat, accuracy: Option<real>)

  /** `classification == true_label` for one row. */
  function Correctly(row: Row): bool
  {
    ClassificationColumn in row && TrueLabelColumn in row && row[ClassificationColumn] == row[TrueLabelColumn]
  }

  /** `true_label == name` for one row. */
  function LabelledAs(name: string): Row -> bool
  {
    (row: Row) => TrueLabelColumn in row && row[TrueLabelColumn] == Str(name)
  }

  predicate NrOrEr(row: Row)
  {
    TrueLabelColumn in row && (row[TrueLabelColumn] == Str("NR") || row[TrueLabelColumn] == Str("ER"))
  }

  /** The NR and ER counts never exceed the row count, and reach it exactly when every label is one of the two. */
  lemma LabelCounts(rows: seq<Row>)
    ensures Count(rows, LabelledAs("NR")) + Count(rows, LabelledAs("ER")) <= |rows|
    ensures Count(rows, LabelledAs("NR")) + Count(rows, LabelledAs("ER")) == |rows|
            <==> forall i :: 0 <= i < |rows| ==> NrOrEr(rows[i])
  {
    var nr, er := LabelledAs("NR"), LabelledAs("ER");
    assert Str("NR") != Str("ER") by {
      assert "NR"[0] != "ER"[0];
    }
    CountDisjointPair(rows, nr, er);
    assert forall i :: 0 <= i < |rows| ==> (nr(rows[i]) || er(rows[i]) <==> NrOrEr(rows[i]));
  }

  /** A count out of a positive total, as a percentage, lies in [0, 100]. */
  lemma PercentageBounds(part: nat, total: nat)
    requires part <= total
    ensures 0 < total ==> 0.0 <= part as real / total as real * 100.0 <= 100.0
  {
    if 0 < total {
      assert part as real / total as real <= 1.0 by {
        assert part as real <= total as real;
      }
    }
  }

  /** `synthesize_summary(df)`: the comparison looks up `classification` before `true_label`. */
  function SynthesizeSummary(f: Frame): (r: Result<Summary, LoadError>)
    requires WellFormed(f)
    ensures r.Failure? <==> ClassificationColumn !in f.columns || TrueLabelColumn !in f.columns
    ensures r.Failure? ==>
              r.error == KeyError(if ClassificationColumn !in f.columns then ClassificationColumn else TrueLabelColumn)
    ensures r.Success? ==>
              var s := r.value;
              && s.total == |f.rows|
              && s.correct == Count(f.rows, Correctly)
              && s.nrCount == Count(f.rows, LabelledAs("NR"))
              && s.erCount == Count(f.rows, LabelledAs("ER"))
              && s.correct <= s.total
              && s.nrCount + s.erCount <= s.total
              && (s.nrCount + s.erCount == s.total <==> forall i :: 0 <= i < |f.rows| ==> NrOrEr(f.rows[i]))
              && (s.accuracy.None? <==> s.total == 0)
              && (s.accuracy.Some? ==> s.accuracy.value == s.correct as real / s.total as real * 100.0)
              && (s.accuracy.Some? ==> 0.0 <= s.accuracy.value <= 100.0)
  {
    if ClassificationColumn !in f.columns then Failure(KeyError(ClassificationColumn))
    else if TrueLabelColumn !in f.columns then Failure(KeyError(TrueLabelColumn))
    else
      var total := |f.rows|;
      var correct := Count(f.rows, Correctly);
      LabelCounts(f.rows);
      PercentageBounds(correct, total);
      var accuracy: Option<real> := if total == 0 then None else Some(correct as real / total as real * 100.0);
      Success(Summary(total, Count(f.rows, LabelledAs("NR")), Count(f.rows, LabelledAs("ER")), correct, accuracy))
  }

  /** Reordering the rows of a frame changes nothing in its summary. */
  lemma {:induction false} SummaryIgnoresOrder(f: Frame, g: Frame)
    requires WellFormed(f) && WellFormed(g) && f.columns == g.columns
    requires multiset(f.rows) == multiset(g.rows)
    ensures SynthesizeSummary(f) == SynthesizeSummary(g)
  {
    assert |f.rows| == |multiset(f.rows)| == |g.rows|;
    CountPermutation(f.rows, g.rows, Correctly);
    CountPermutation(f.rows, g.rows, LabelledAs("NR"));
    CountPermutation(f.rows, g.rows, LabelledAs("ER"));
  }

  const Closing: string :=
    "% accuracy).\nThe 'money plot' shows the separation between NR and ER events in log10(S2/S1) vs S1 space.\n"
    + "Well-separated clusters indicate good discrimination performance."

  /** The accuracy as printed: `:.2f` of the percentage, or `nan` when it is undefined. */
  function AccuracyText(s: Summary, fixed2: real -> string): string
  {
    if s.accuracy.Some? then fixed2(s.accuracy.value) else "nan"
  }

  /** The pieces of the summary f-string; `fixed2` stands for `:.2f`, and a NaN accuracy prints as `nan`. */
  function SummaryPieces(s: Summary, fixed2: real -> string): (pieces: seq<string>)
    ensures |pieces| == 11
  {
    var accuracy := AccuracyText(s, fixed2);
    ["Dataset contains ", Digits(s.total), " events:\n  - NR events: ", Digits(s.nrCount),
     "\n  - ER events: ", Digits(s.erCount), "\nAI classifier correctly labeled ", Digits(s.correct),
     " events (", accuracy, Closing]
  }

  /** The text of the summary: the total, the NR count, the ER count, the correct count and
      the accuracy (`nan` when undefined) appear in that order. */
  function SummaryText(s: Summary, fixed2: real -> string): (text: string)
    ensures exists p1, p2, p3, p4, p5 ::
              && p1 < p2 < p3 < p4 < p5
              && OccursAt(text, Digits(s.total), p1)
              && OccursAt(text, Digits(s.nrCount), p2)
              && OccursAt(text, Digits(s.erCount), p3)
              && OccursAt(text, Digits(s.correct), p4)
              && OccursAt(text, AccuracyText(s, fixed2), p5)
  {
    PiecesInOrder(s, fixed2);
    Concat(SummaryPieces(s, fixed2))
  }

  /** The reported values occur in `text` at the increasing positions `p1` to `p5`. */
  predicate OccursAtAll(text: string, s: Summary, fixed2: real -> string, p1: int, p2: int, p3: int, p4: int, p5: int)
  {
    && p1 < p2 < p3 < p4 < p5
    && OccursAt(text, Digits(s.total), p1)
    && OccursAt(text, Digits(s.nrCount), p2)
    && OccursAt(text, Digits(s.erCount), p3)
    && OccursAt(text, Digits(s.correct), p4)
    && OccursAt(text, AccuracyText(s, fixed2), p5)
  }

  /** The reported values sit in the assembled pieces at increasing positions. */
  lemma PiecesInOrder(s: Summary, fixed2: real -> string)
    ensures exists p1, p2, p3, p4, p5 :: OccursAtAll(Concat(SummaryPieces(s, fixed2)), s, fixed2, p1, p2, p3, p4, p5)
  {
    var pieces := SummaryPieces(s, fixed2);
    OddPiecesInOrder(pieces);
    var p1, p2, p3, p4, p5 :=
      |Concat(pieces[..1])|, |Concat(pieces[..3])|, |Concat(pieces[..5])|, |Concat(pieces[..7])|, |Concat(pieces[..9])|;
    var text := Concat(pieces);
    assert OccursAt(text, Digits(s.total), p1) && OccursAt(text, Digits(s.nrCount), p2);
    assert OccursAt(text, Digits(s.erCount), p3) && OccursAt(text, Digits(s.correct), p4);
    assert OccursAt(text, AccuracyText(s, fixed2), p5);
    assert p1 < p2 < p3 < p4 < p5;
    assert OccursAtAll(text, s, fixed2, p1, p2, p3, p4, p5);
  }
}
