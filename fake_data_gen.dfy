/** The fake data generator (fake_data_gen.py): a file of (time, voltage)
    rows with a voltage that follows 3·cos(time) plus noise. */
module FakeData {
  import opened Text
  import opened Rows

  const FakeLabels: seq<string> := ["Time [s]", "Voltage [V]"]
  const FakeNotice: string := "THIS IS A FAKE DATA FILE!!"

  function FakeCreationLine(createdAt: string): string {
    "# This FAKE data file was created on " + createdAt
  }

  /** The file a new DataFile holds: creation line, notice, label row. */
  function FakeHeader(createdAt: string): seq<string> {
    [FakeCreationLine(createdAt), CommentLine(FakeNotice), RowLine(Strs(FakeLabels))]
  }

  /** generate_data_point (lines 27-31): the time first, then
      3·cos(now) + r; `cosine` is cos(now) and `draw` the uniform draw r. */
  function GenerateDataPoint(now: real, cosine: real, draw: real): (point: seq<real>)
    ensures |point| == 2 && point[0] == now
    ensures -1.0 <= cosine <= 1.0 && 0.0 <= draw < 1.0 ==> -3.0 <= point[1] < 4.0
  {
    [now, 3.0 * cosine + draw]
  }

  /** The rows `run` writes in its first `steps` iterations. */
  function RunRows(steps: nat, now: nat -> real, cosine: nat -> real, draw: nat -> real, fmt: real -> string): (rows: seq<string>)
    ensures |rows| == steps
  {
    if steps == 0 then []
    else RunRows(steps - 1, now, cosine, draw, fmt) + [PointRow(steps - 1, now, cosine, draw, fmt)]
  }

  /** One more iteration appends one more row. */
  lemma RunRowsStep(before: seq<string>, i: nat, now: nat -> real, cosine: nat -> real, draw: nat -> real,
                    fmt: real -> string)
    ensures before + RunRows(i + 1, now, cosine, draw, fmt)
         == before + RunRows(i, now, cosine, draw, fmt) + [PointRow(i, now, cosine, draw, fmt)]
  {
  }

  /** The row of the i-th iteration's point. */
  function PointRow(i: nat, now: nat -> real, cosine: nat -> real, draw: nat -> real, fmt: real -> string): string {
    RowLine(Nums(GenerateDataPoint(now(i), cosine(i), draw(i)), fmt))
  }

  /** Row k of a run is the row of the k-th generated point. */
  lemma {:induction false} RunRowsArePoints(steps: nat, now: nat -> real, cosine: nat -> real, draw: nat -> real,
                                            fmt: real -> string, k: nat)
    requires k < steps
    ensures RunRows(steps, now, cosine, draw, fmt)[k] == PointRow(k, now, cosine, draw, fmt)
    decreases steps
  {
    if k < steps - 1 {
      RunRowsArePoints(steps - 1, now, cosine, draw, fmt, k);
    }
  }

  /** Every row of a run is a two-number row: the time, then the voltage. */
  lemma RunRowsAreTwoNumbers(steps: nat, now: nat -> real, cosine: nat -> real, draw: nat -> real,
                             fmt: real -> string, k: nat)
    requires k < steps
    ensures RunRows(steps, now, cosine, draw, fmt)[k] == RowLine([Num(fmt(now(k))), Num(fmt(3.0 * cosine(k) + draw(k)))])
  {
    RunRowsArePoints(steps, now, cosine, draw, fmt, k);
    var cells := Nums(GenerateDataPoint(now(k), cosine(k), draw(k)), fmt);
    assert PointRow(k, now, cosine, draw, fmt) == RowLine(cells);
    PointCells(now(k), cosine(k), draw(k), fmt);
    assert cells == [Num(fmt(now(k))), Num(fmt(3.0 * cosine(k) + draw(k)))];
    assert RunRows(steps, now, cosine, draw, fmt)[k] == RowLine(cells);
  }

  lemma PointCells(now: real, cosine: real, draw: real, fmt: real -> string)
    ensures Nums(GenerateDataPoint(now, cosine, draw), fmt) == [Num(fmt(now)), Num(fmt(3.0 * cosine + draw))]
  {
    assert GenerateDataPoint(now, cosine, draw) == [now, 3.0 * cosine + draw];
  }

  /** fake_data_gen.DataFile, whose content is `lines`. */
  class FakeDataFile {
    var filename: string
    var lines: seq<string>

    /** __init__ (lines 7-18): ".csv" is added to the name unless it already
        occurs in it, then the header is written in order.  The directory
        creation (lines 8-9) is outside the model. */
    constructor(path: string, name: string, existing: seq<string>, createdAt: string)
      ensures filename == PathJoin(path, WithCsv(name))
      ensures lines == FakeHeader(createdAt)
    {
      filename := PathJoin(path, WithCsv(name));
      lines := existing;
      new;
      CreateFile(createdAt);
      WriteComment(FakeNotice);
      WriteRow(Strs(FakeLabels));
    }

    /** write_row (lines 33-36) */
    method WriteRow(row: seq<Cell>)
      modifies this
      ensures lines == old(lines) + [RowLine(row)]
      ensures filename == old(filename)
    {
      lines := lines + [RowLine(row)];
    }

    /** write_comment (lines 38-41) */
    method WriteComment(comment: string)
      modifies this
      ensures lines == old(lines) + [CommentLine(comment)]
      ensures filename == old(filename)
    {
      lines := lines + [CommentLine(comment)];
    }

    /** create_file (lines 43-45): the file is replaced by one line. */
    method CreateFile(createdAt: string)
      modifies this
      ensures lines == [FakeCreationLine(createdAt)]
      ensures filename == old(filename)
    {
      lines := [FakeCreationLine(createdAt)];
    }

    /** run (lines 20-25) for its first `steps` iterations: iteration i writes
        the point generated at time now(i). */
    method Run(steps: nat, now: nat -> real, cosine: nat -> real, draw: nat -> real, fmt: real -> string)
      modifies this
      ensures lines == old(lines) + RunRows(steps, now, cosine, draw, fmt)
      ensures filename == old(filename)
    {
      var i := 0;
      while i < steps
        invariant 0 <= i <= steps
        invariant lines == old(lines) + RunRows(i, now, cosine, draw, fmt)
        invariant filename == old(filename)
      {
        WritePoint(i, now, cosine, draw, fmt);
        RunRowsStep(old(lines), i, now, cosine, draw, fmt);
        i := i + 1;
      }
    }

    /** Iteration i of run (lines 23-24): the point generated at now(i), written as a row. */
    method WritePoint(i: nat, now: nat -> real, cosine: nat -> real, draw: nat -> real, fmt: real -> string)
      modifies this
      ensures lines == old(lines) + [PointRow(i, now, cosine, draw, fmt)]
      ensures filename == old(filename)
    {
      var data := GenerateDataPoint(now(i), cosine(i), draw(i));
      WriteRow(Nums(data, fmt));
    }
  }
}
