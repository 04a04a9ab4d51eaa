/** The reusable data-file tools (data_files.py): CSVFile with its name
    normalisation and append operations, the frequency-sweeping DataFile and
    the GUI example's DataFileGuiExample. */
module CsvFiles {
  import opened Outcomes
  import opened Text
  import opened Gpib
  import opened Rows
  import opened Averaging

  // ------------------------------------------------- name normalisation

  /** The characters `name.rstrip(".csv")` removes: a set, not a suffix. */
  const CsvChars: set<char> := {'.', 'c', 's', 'v'}

  /** CSVFile's name rule (lines 29-31): strip trailing characters of
      {., c, s, v}, remove every '.', append ".csv". */
  function NormalizeName(name: string): (r: string)
    ensures |r| >= 4 && r[|r| - 4..] == ".csv"
  {
    Remove(RStrip(name, CsvChars), '.') + ".csv"
  }

  /** The stem of a normalised name holds no '.' and does not end in c, s
      or v (nor, then, in '.'). */
  lemma NormalizedStem(name: string)
    ensures var r := NormalizeName(name); var stem := r[..|r| - 4];
      '.' !in stem && (stem == [] || stem[|stem| - 1] !in CsvChars)
  {
    var r := NormalizeName(name);
    var stripped := RStrip(name, CsvChars);
    var stem := Remove(stripped, '.');
    assert r[..|r| - 4] == stem;
    if stripped != [] {
      RemoveKeepsLast(stripped, '.');
    }
  }

  /** Normalising a normalised name changes nothing. */
  lemma NormalizeIdempotent(name: string)
    ensures NormalizeName(NormalizeName(name)) == NormalizeName(name)
  {
    var r := NormalizeName(name);
    var stem := r[..|r| - 4];
    NormalizedStem(name);
    assert r == stem + ".csv";
    NormalStemTail(stem, ".csv");
  }

  /** A stem without '.' that does not end in c, s or v, followed by any
      run of those characters and '.', is normalised to the stem + ".csv". */
  lemma NormalStemTail(stem: string, tail: string)
    requires '.' !in stem && (stem == [] || stem[|stem| - 1] !in CsvChars)
    requires forall i :: 0 <= i < |tail| ==> tail[i] in CsvChars
    ensures NormalizeName(stem + tail) == stem + ".csv"
  {
    RStripAppend(stem, tail, CsvChars);
    RStripKeeps(stem, CsvChars);
  }

  /** The set semantics eats the stem's own trailing "ss": "mass.csv" is
      normalised to "ma.csv". */
  lemma MassLosesItsEss()
    ensures NormalizeName("mass.csv") == "ma.csv"
  {
    assert "mass.csv" == "ma" + "ss.csv";
    assert "ma"[1] !in CsvChars;
    NormalStemTail("ma", "ss.csv");
  }

  function CsvCreationLine(createdAt: string): string {
    "# This data file was created on " + createdAt
  }

  /** The lines a CSVFile leaves behind when it is opened. */
  function OpenedLines(comment: string, existing: Option<seq<string>>, createdAt: string): seq<string> {
    (if existing.Some? then existing.value else [CsvCreationLine(createdAt)])
    + (if comment != "" then [CommentLine(comment)] else [])
  }

  /** CSVFile over the file named `filename`, whose content is `lines`. */
  class CSVFile {
    var filename: string
    var isNew: bool
    var lines: seq<string>

    /** __init__ (lines 20-48).  `existing` is the content of the file at the
        normalised name when that file exists: only a missing file is created,
        and a comment line is added only for a non-empty comment.  The
        directory creation (lines 36-37) is outside the model. */
    constructor(path: string, name: string, comment: string, existing: Option<seq<string>>, createdAt: string)
      ensures filename == PathJoin(path, NormalizeName(name))
      ensures isNew <==> existing.None?
      ensures lines == OpenedLines(comment, existing, createdAt)
    {
      filename := PathJoin(path, NormalizeName(name));
      isNew := existing.None?;
      lines := if existing.Some? then existing.value else [];
      new;
      if existing.None? {
        CreateFile(createdAt);
      }
      if comment != "" {
        WriteComment(comment);
      }
    }

    /** write_row (lines 50-53) */
    method WriteRow(row: seq<Cell>)
      modifies this
      ensures lines == old(lines) + [RowLine(row)]
      ensures filename == old(filename) && isNew == old(isNew)
    {
      lines := lines + [RowLine(row)];
    }

    /** write_comment (lines 55-58) */
    method WriteComment(comment: string)
      modifies this
      ensures lines == old(lines) + [CommentLine(comment)]
      ensures filename == old(filename) && isNew == old(isNew)
    {
      lines := lines + [CommentLine(comment)];
    }

    /** create_file (lines 60-63): the file is replaced by one line. */
    method CreateFile(createdAt: string)
      modifies this
      ensures lines == [CsvCreationLine(createdAt)]
      ensures filename == old(filename) && isNew == old(isNew)
    {
      lines := [CsvCreationLine(createdAt)];
    }
  }

  // ------------------------------------------------------------ DataFile

  /** DataFile.labels (line 69) */
  const ClassLabels: seq<string> := ["Time (s)", "Temperature (K)", "Voltage (V)", "Frequency Hz"]
  const PointWidth: nat := 4

  /** The unit prefix get_labels picks for a frequency and the frequency in
      that unit (lines 148-164). */
  function FrequencyPrefix(f: real): (r: (string, real))
    ensures f < 1000.0 ==> r == ("", f)
    ensures 1000.0 <= f < 1000000.0 ==> r.0 == "k"
    ensures 1000000.0 <= f < 1000000000.0 ==> r.0 == "M"
    ensures 1000000000.0 <= f < 1000000000000.0 ==> r.0 == "G"
    ensures 1000000000000.0 <= f < 1000000000000000.0 ==> r.0 == "T"
    ensures 1000000000000000.0 <= f ==> r.0 == "P"
    ensures r.1 * PrefixPower(r.0) == f
    ensures 1000.0 <= f < 1000000000000000.0 ==> 1.0 <= r.1 < 1000.0
    ensures 1000000000000000.0 <= f ==> 1.0 <= r.1
  {
    if f < 1000.0 then ("", f)
    else if f < 1000000.0 then ("k", f / 1000.0)
    else if f < 1000000000.0 then ("M", f / 1000000.0)
    else if f < 1000000000000.0 then ("G", f / 1000000000.0)
    else if f < 1000000000000000.0 then ("T", f / 1000000000000.0)
    else ("P", f / 1000000000000000.0)
  }

  function PrefixPower(unit: string): real {
    if unit == "k" then 1000.0
    else if unit == "M" then 1000000.0
    else if unit == "G" then 1000000000.0
    else if unit == "T" then 1000000000000.0
    else if unit == "P" then 1000000000000000.0
    else 1.0
  }

  /** DataFile.get_labels as written (lines 142-169): with no frequency the
      labels stay the empty list; with any frequency the loop
      `for ll, label in DataFile.labels` unpacks a label string into two names
      and raises ValueError. */
  function FrequencyLabels(freqs: seq<real>): (r: Result<seq<string>>)
    ensures freqs == [] ==> r == Ok([])
    ensures freqs != [] ==> r == Fault(ValueError)
  {
    if freqs == [] then Ok([]) else Fault(ValueError)
  }

  /** get_data_point as written (lines 122-131): `self.device` is None, so
      its first call raises AttributeError. */
  function GetDataPoint(frequency: real): (r: Result<seq<real>>)
    ensures r == Fault(AttributeError)
  {
    Fault(AttributeError)
  }

  /** `data[lo:hi] = v` on a list: the clamped slice is replaced by `v`,
      whatever its length. */
  function SliceAssign(data: seq<real>, lo: nat, hi: nat, v: seq<real>): (r: seq<real>)
    requires lo <= hi
    ensures hi <= |data| ==> |r| == |data| - (hi - lo) + |v| && r[..lo] == data[..lo] && r[lo..lo + |v|] == v
  {
    var a := if lo <= |data| then lo else |data|;
    var b := if hi <= |data| then hi else |data|;
    data[..a] + v + data[b..]
  }

  /** sweep_frequencies' list after its first n frequencies (lines 133-140):
      `point(f)` is get_data_point(f); the first failing point decides. */
  function SweepPrefix(freqs: seq<real>, width: nat, point: real -> Result<seq<real>>, n: nat): Result<seq<real>>
    requires n <= |freqs|
  {
    if n == 0 then Ok(seq(width, _ => 0.0))
    else
      var data :- SweepPrefix(freqs, width, point, n - 1);
      var v :- point(freqs[n - 1]);
      Ok(SliceAssign(data, PointWidth * (n - 1), PointWidth * n, v))
  }

  /** The loop of sweep_frequencies, proved to compute `SweepPrefix`. */
  method SweepFrequencies(freqs: seq<real>, width: nat, point: real -> Result<seq<real>>) returns (r: Result<seq<real>>)
    ensures r == SweepPrefix(freqs, width, point, |freqs|)
  {
    var data := seq(width, _ => 0.0);
    var ff := 0;
    while ff < |freqs|
      invariant 0 <= ff <= |freqs|
      invariant SweepPrefix(freqs, width, point, ff) == Ok(data)
    {
      var v := point(freqs[ff]);
      if v.Fault? {
        SweepFaultStays(freqs, width, point, ff + 1, |freqs|);
        return Fault(v.error);
      }
      data := SliceAssign(data, PointWidth * ff, PointWidth * (ff + 1), v.value);
      ff := ff + 1;
    }
    r := Ok(data);
  }

  lemma {:induction false} SweepFaultStays(freqs: seq<real>, width: nat, point: real -> Result<seq<real>>, m: nat, n: nat)
    requires m <= n <= |freqs| && SweepPrefix(freqs, width, point, m).Fault?
    ensures SweepPrefix(freqs, width, point, n) == SweepPrefix(freqs, width, point, m)
    decreases n - m
  {
    if m < n {
      SweepFaultStays(freqs, width, point, m, n - 1);
    }
  }

  /** With a list as wide as 4 per frequency and points of 4 values each,
      the sweep keeps the width and block ff (positions 4ff .. 4ff+3) is the
      point taken at frequency ff. */
  lemma {:induction false} SweepBlocks(freqs: seq<real>, point: real -> Result<seq<real>>, n: nat)
    requires n <= |freqs|
    requires forall i :: 0 <= i < |freqs| ==> point(freqs[i]).Ok? && |point(freqs[i]).value| == PointWidth
    ensures SweepPrefix(freqs, PointWidth * |freqs|, point, n).Ok?
    ensures |SweepPrefix(freqs, PointWidth * |freqs|, point, n).value| == PointWidth * |freqs|
    ensures forall ff :: 0 <= ff < n ==>
      SweepPrefix(freqs, PointWidth * |freqs|, point, n).value[PointWidth * ff..PointWidth * ff + PointWidth]
        == point(freqs[ff]).value
  {
    if n > 0 {
      SweepBlocks(freqs, point, n - 1);
      var w := PointWidth * |freqs|;
      var data := SweepPrefix(freqs, w, point, n - 1).value;
      var v := point(freqs[n - 1]).value;
      var lo := PointWidth * (n - 1);
      var next := SliceAssign(data, lo, lo + PointWidth, v);
      assert next == data[..lo] + v + data[lo + PointWidth..];
      forall ff | 0 <= ff < n
        ensures next[PointWidth * ff..PointWidth * ff + PointWidth] == point(freqs[ff]).value
      {
        if ff < n - 1 {
          assert next[PointWidth * ff..PointWidth * ff + PointWidth] == data[PointWidth * ff..PointWidth * ff + PointWidth];
        }
      }
    }
  }

  /** A label naming a temperature, found case-insensitively (line 108). */
  predicate IsTemperatureLabel(name: string) {
    Contains(Lower(name), "temperature")
  }

  /** The index the unit loop stops at: the first temperature label, else
      the last label. */
  function TemperatureIndex(labels: seq<string>): (k: nat)
    requires labels != []
    ensures k < |labels|
    ensures forall j :: 0 <= j < k ==> !IsTemperatureLabel(labels[j])
    ensures IsTemperatureLabel(labels[k]) || k == |labels| - 1
    decreases |labels|
  {
    if IsTemperatureLabel(labels[0]) || |labels| == 1 then 0
    else 1 + TemperatureIndex(labels[1..])
  }

  /** `label.split('(')[1].split(')')[0]` (line 111) */
  function UnitsOf(text: string): (r: Result<string>)
    ensures r.Fault? <==> !Contains(text, "(")
    ensures r.Fault? ==> r.error == IndexError
  {
    SplitOnePiece(text, "(");
    var pieces := Split(text, "(");
    if |pieces| < 2 then Fault(IndexError) else Ok(Split(pieces[1], ")")[0])
  }

  /** A label "name (units) rest" gives `units` when no parenthesis occurs
      elsewhere. */
  lemma UnitsBetweenParens(name: string, units: string, rest: string)
    requires '(' !in name && '(' !in units && ')' !in units && '(' !in rest
    ensures UnitsOf(name + "(" + units + ")" + rest) == Ok(units)
  {
    var tail := units + ")" + rest;
    assert name + "(" + units + ")" + rest == name + "(" + tail;
    assert FreeOfSepHead(name, "(");
    SplitAfter(name, "(", tail);
    assert FreeOfSepHead(tail, "(") by {
      forall i | 0 <= i < |tail| ensures tail[i] != '(' {
        if i < |units| { assert tail[i] == units[i]; }
        else if i > |units| { assert tail[i] == rest[i - |units| - 1]; }
      }
    }
    SplitWhole(tail, "(");
    assert FreeOfSepHead(units, ")");
    SplitAfter(units, ")", rest);
  }

  /** The temperature-unit loop (lines 106-111), proved against
      `TemperatureIndex` and `UnitsOf`: with no labels the loop variable is
      never bound. */
  method TemperatureUnits(labels: seq<string>) returns (r: Result<string>)
    ensures labels == [] ==> r == Fault(UnboundLocalError)
    ensures labels != [] ==> r == UnitsOf(labels[TemperatureIndex(labels)])
  {
    var index := -1;
    var ii := 0;
    while ii < |labels|
      invariant 0 <= ii <= |labels|
      invariant forall j :: 0 <= j < ii ==> !IsTemperatureLabel(labels[j])
      invariant index == ii - 1
    {
      index := ii;
      if IsTemperatureLabel(labels[ii]) {
        break;
      }
      ii := ii + 1;
    }
    if index < 0 {
      return Fault(UnboundLocalError);
    }
    TemperatureIndexIs(labels, index);
    r := UnitsOf(labels[index]);
  }

  lemma {:induction false} TemperatureIndexIs(labels: seq<string>, k: nat)
    requires k < |labels|
    requires forall j :: 0 <= j < k ==> !IsTemperatureLabel(labels[j])
    requires IsTemperatureLabel(labels[k]) || k == |labels| - 1
    ensures TemperatureIndex(labels) == k
    decreases |labels|
  {
    if !IsTemperatureLabel(labels[0]) && |labels| > 1 {
      TemperatureIndexIs(labels[1..], k - 1);
    }
  }

  /** For the class labels the unit is "K". */
  lemma ClassLabelUnits()
    ensures TemperatureIndex(ClassLabels) == 1
    ensures UnitsOf(ClassLabels[1]) == Ok("K")
  {
    var ls := ClassLabels;
    assert !IsTemperatureLabel(ls[0]) by {
      IndexOfFirst(Lower(ls[0]), "temperature");
    }
    var low := Lower(ls[1]);
    assert low[..11] == "temperature";
    assert OccursAt(low, "temperature", 0);
    ContainsOccurs(low, "temperature", 0);
    TemperatureIndexIs(ls, 1);
    assert ls[1] == "Temperature " + "(" + "K" + ")" + "";
    UnitsBetweenParens("Temperature ", "K", "");
  }

  /** DataFile (lines 66-120), holding its CSVFile part.  Construction
      requires an empty frequency list: for any other list `FrequencyLabels`
      shows the source raises while building the labels. */
  class DataFile {
    const csv: CSVFile
    const freqs: seq<real>
    var labels: seq<string>
    var running: bool
    var temperatureUnits: string

    constructor(path: string, name: string, freqs: seq<real>, comment: string,
                existing: Option<seq<string>>, createdAt: string)
      requires FrequencyLabels(freqs).Ok?
      ensures this.freqs == freqs && labels == [] && !running && temperatureUnits == "K"
      ensures csv.filename == PathJoin(path, NormalizeName(name))
      ensures csv.lines == OpenedLines(comment, existing, createdAt)
                           + (if existing.None? then [RowLine([])] else [])
      ensures fresh(csv)
    {
      var file := new CSVFile(path, name, comment, existing, createdAt);
      var units := TemperatureUnits(ClassLabels);
      ClassLabelUnits();
      csv := file;
      this.freqs := freqs;
      running := false;
      labels := FrequencyLabels(freqs).value;
      temperatureUnits := units.value;
      new;
      if file.isNew {
        assert Strs(labels) == [];
        file.WriteRow(Strs(labels));
      }
    }

    /** take_data_continuous (lines 113-120): sets `running`, then appends one
        sweep row per iteration until `running` is cleared.  The clearing
        comes from another thread; here it happens after `sweeps` rows.  A
        failing sweep raises out of the loop with `running` still set. */
    method TakeDataContinuous(sweeps: nat, fmt: real -> string) returns (r: Option<PyError>)
      modifies this, csv
      ensures r.None? ==> !running
      ensures r.Some? ==> running
      ensures r.Some? <==> sweeps > 0 && SweepPrefix(freqs, |labels|, GetDataPoint, |freqs|).Fault?
      ensures r.Some? ==> r.value == SweepPrefix(freqs, |labels|, GetDataPoint, |freqs|).error
      ensures r.Some? || sweeps == 0 ==> csv.lines == old(csv.lines)
      ensures r.None? && sweeps > 0 ==>
        csv.lines == old(csv.lines) + Copies(sweeps, RowLine(Nums(SweepPrefix(freqs, |labels|, GetDataPoint, |freqs|).value, fmt)))
      ensures labels == old(labels) && temperatureUnits == old(temperatureUnits)
    {
      running := true;
      var done := 0;
      if sweeps == 0 {
        running := false;
      }
      ghost var sweep := SweepPrefix(freqs, |labels|, GetDataPoint, |freqs|);
      while running
        invariant done <= sweeps && (running <==> done < sweeps)
        invariant done > 0 ==> sweep.Ok? && csv.lines == old(csv.lines) + Copies(done, RowLine(Nums(sweep.value, fmt)))
        invariant done == 0 ==> csv.lines == old(csv.lines)
        invariant labels == old(labels) && temperatureUnits == old(temperatureUnits)
        decreases sweeps - done
      {
        var data := SweepFrequencies(freqs, |labels|, GetDataPoint);
        if data.Fault? {
          return Some(data.error);
        }
        csv.WriteRow(Nums(data.value, fmt));
        done := done + 1;
        if done == sweeps {
          running := false;
        }
      }
      r := None;
    }
  }

  /** A DataFile's sweep over its (empty) frequency list is the empty list,
      so every row take_data_continuous writes is an empty line. */
  lemma DataFileRowsEmpty(freqs: seq<real>, fmt: real -> string)
    requires FrequencyLabels(freqs).Ok?
    ensures SweepPrefix(freqs, |FrequencyLabels(freqs).value|, GetDataPoint, |freqs|) == Ok([])
    ensures RowLine(Nums([], fmt)) == ""
  {
    assert seq(0, _ => 0.0) == [];
    assert Nums([], fmt) == [];
    EmptyRowLine();
  }

  // --------------------------------------------------- DataFileGuiExample

  /** DataFileGuiExample.labels (line 174) */
  const GuiLabels: seq<string> := ["Time [s]", "Voltage [V]", "Temperature [K]", "Counts"]

  /** DataFileGuiExample (lines 172-212), holding its CSVFile part. */
  class DataFileGuiExample {
    const csv: CSVFile

    /** __init__ (lines 176-195): the path is cut at its last os.sep (the
        POSIX '/') into the
        directory and the file name handed to CSVFile; the label row is
        written only for a new file. */
    constructor(filePath: string, comment: string, existing: Option<seq<string>>, createdAt: string)
      ensures csv.filename == PathJoin(SplitLast(filePath, "/").0, NormalizeName(SplitLast(filePath, "/").1))
      ensures csv.lines == OpenedLines(comment, existing, createdAt)
                           + (if existing.None? then [RowLine(Strs(GuiLabels))] else [])
      ensures fresh(csv)
    {
      var (path, name) := SplitLast(filePath, "/");
      var file := new CSVFile(path, name, comment, existing, createdAt);
      csv := file;
      new;
      if csv.isNew {
        csv.WriteRow(Strs(GuiLabels));
      }
    }

    /** take_data_point (lines 197-212): as in the acquisition example, the
        averaged point is appended once. */
    method TakeDataPoint(ave: int, clock: nat -> real, client: nat -> (ClientCall -> string), fmt: real -> string)
      returns (point: Result<seq<real>>)
      modifies csv
      ensures point == Averaged(ave, InstrumentRounds(clock, client))
      ensures point.Ok? ==> csv.lines == old(csv.lines) + [RowLine(Nums(point.value, fmt))]
      ensures point.Fault? ==> csv.lines == old(csv.lines)
      ensures csv.filename == old(csv.filename)
    {
      point := Average(ave, InstrumentRounds(clock, client));
      if point.Ok? {
        csv.WriteRow(Nums(point.value, fmt));
      }
    }
  }
}
