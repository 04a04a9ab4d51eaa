/** The data file of the acquisition example (data_file.py): a file is a
    list of lines, created with a three-line header and appended to one line
    at a time. */
module OpenFiles {
  import opened Outcomes
  import opened Text
  import opened Gpib
  import opened Rows
  import opened Averaging

  /** The column labels NewDataFile writes (line 81). */
  const ColumnLabels: seq<string> := ["Time [s]", "Voltage [V]", "Temperature [K]", "Counts"]

  /** create_file's line; `createdAt` is time.ctime() of the creation time. */
  function CreationLine(createdAt: string): string {
    "# This file was created on " + createdAt
  }

  /** The header every new file holds, in order. */
  function Header(comment: string, createdAt: string): seq<string> {
    [CreationLine(createdAt), CommentLine(comment), RowLine(Strs(ColumnLabels))]
  }

  /** The full name NewDataFile writes to (lines 73-75). */
  function NewFileName(path: string, filename: string): (name: string)
    ensures Contains(name, ".csv")
    ensures Contains(PathJoin(path, filename), ".csv") ==> name == PathJoin(path, filename)
  {
    WithCsv(PathJoin(path, filename))
  }

  /** OpenDataFile and its subclass NewDataFile over the file named
      `fullName`, whose content is `lines`. */
  class OpenDataFile {
    var fullName: string
    var lines: seq<string>

    /** OpenDataFile.__init__ (lines 34-41): only records the path; the
        clients it builds are not part of the file's state. */
    constructor Open(filePath: string, existing: seq<string>)
      ensures fullName == filePath && lines == existing
    {
      fullName := filePath;
      lines := existing;
    }

    /** NewDataFile.__init__ (lines 72-83): the name, then create_file, the
        comment line (even an empty one) and the label row, in that order. */
    constructor New(path: string, filename: string, comment: string, existing: seq<string>, createdAt: string)
      ensures fullName == NewFileName(path, filename)
      ensures lines == Header(comment, createdAt)
    {
      fullName := PathJoin(path, filename);
      lines := existing;
      new;
      if !Contains(fullName, ".csv") {
        fullName := fullName + ".csv";
      }
      CreateFile(createdAt);
      WriteComment(comment);
      WriteRow(Strs(ColumnLabels));
    }

    /** write_row (lines 60-63): one more line; earlier lines unchanged. */
    method WriteRow(row: seq<Cell>)
      modifies this
      ensures lines == old(lines) + [RowLine(row)]
      ensures fullName == old(fullName)
    {
      lines := lines + [RowLine(row)];
    }

    /** write_comment (lines 65-68) */
    method WriteComment(comment: string)
      modifies this
      ensures lines == old(lines) + [CommentLine(comment)]
      ensures fullName == old(fullName)
    {
      lines := lines + [CommentLine(comment)];
    }

    /** create_file (lines 85-87): the file is replaced by one line. */
    method CreateFile(createdAt: string)
      modifies this
      ensures lines == [CreationLine(createdAt)]
      ensures fullName == old(fullName)
    {
      lines := [CreationLine(createdAt)];
    }

    /** take_data_point (lines 43-58): `ave` rounds, `round(i)` being what
        round i stores (against the instruments, Averaging.InstrumentRounds
        of the clock times and the device answers); the returned point is
        appended as one row, rendered by `fmt`.  Nothing is written when the
        source raises. */
    method TakeDataPoint(ave: int, round: nat -> Result<Sample>, fmt: real -> string)
      returns (point: Result<seq<real>>)
      modifies this
      ensures point == Averaged(ave, round)
      ensures point.Ok? ==> lines == old(lines) + [RowLine(Nums(point.value, fmt))]
      ensures point.Fault? ==> lines == old(lines)
      ensures fullName == old(fullName)
    {
      point := Average(ave, round);
      if point.Ok? {
        WriteRow(Nums(point.value, fmt));
      }
    }
  }

  /** The column labels are plain: repr() writes each between single quotes
      unchanged. */
  lemma ColumnLabelsPlain()
    ensures forall i :: 0 <= i < |ColumnLabels| ==> Plain(ColumnLabels[i])
  {
    var ls := ColumnLabels;
    assert Plain(ls[0]) && Plain(ls[1]) && Plain(ls[2]) && Plain(ls[3]);
  }
}
