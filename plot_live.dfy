/** The live plotting application (plot_live.py): the label-line parser, the
    open/close/live-plotting state of the window, and the load retry. */
module PlotLive {
  import opened Outcomes
  import opened Text
  import opened Rows
  import OpenFiles

  // ------------------------------------------------------------- labels

  /** How many lines get_labels reads at most (line 259). */
  const Attempts: nat := 50

  /** f.readline() for the i-th read of a file whose lines are `lines`: the
      line with its newline, or "" past the end. */
  function ReadLine(lines: seq<string>, i: nat): string {
    if i < |lines| then lines[i] + "\n" else ""
  }

  /** The line get_labels settles on when `lines` are the lines still unread
      and `left` reads remain: the first one not starting with '#', or the
      last one allowed; reading past the end gives "" and `label_line[0]`
      raises IndexError. */
  function LabelLineIn(lines: seq<string>, left: nat): (r: Result<string>)
    requires left >= 1
    ensures r.Fault? ==> r.error == IndexError
  {
    var line := ReadLine(lines, 0);
    if line == "" then Fault(IndexError)
    else if line[0] != '#' || left == 1 then Ok(line)
    else LabelLineIn(lines[1..], left - 1)
  }

  /** `label_line.rstrip('\n').replace("'", "").split(',')`, each piece
      stripped of spaces (lines 263-264). */
  function ParseLabelLine(line: string): (labels: seq<string>)
    ensures |labels| >= 1
  {
    StripAll(Split(Remove(RStrip(line, {'\n'}), '\''), ","))
  }

  /** Each piece stripped of spaces at both ends. */
  function StripAll(pieces: seq<string>): (r: seq<string>)
    ensures |r| == |pieces| && forall i :: 0 <= i < |pieces| ==> r[i] == Strip(pieces[i], {' '})
  {
    if pieces == [] then [] else [Strip(pieces[0], {' '})] + StripAll(pieces[1..])
  }

  function LabelsOf(lines: seq<string>): (r: Result<seq<string>>)
    ensures r.Ok? ==> |r.value| >= 1
  {
    var line :- LabelLineIn(lines, Attempts);
    Ok(ParseLabelLine(line))
  }

  /** get_labels' reading loop (lines 258-264), proved to compute `LabelsOf`. */
  method GetLabels(lines: seq<string>) returns (r: Result<seq<string>>)
    ensures r == LabelsOf(lines)
  {
    var labelLine := "";
    for ii := 0 to Attempts
      invariant ii <= |lines|
      invariant ii < Attempts ==> LabelLineIn(lines, Attempts) == LabelLineIn(lines[ii..], Attempts - ii)
      invariant ii == Attempts ==> LabelLineIn(lines, Attempts) == Ok(labelLine)
    {
      labelLine := ReadLine(lines, ii);
      if labelLine == "" {
        return Fault(IndexError);
      }
      if labelLine[0] != '#' {
        break;
      }
    }
    r := Ok(ParseLabelLine(labelLine));
  }

  /** A label that survives the row format and the parser unchanged: plain
      for repr(), no comma, no space at either end. */
  predicate Readable(name: string) {
    Plain(name) && ',' !in name && (name == [] || (name[0] != ' ' && name[|name| - 1] != ' '))
  }

  lemma {:induction false} RemoveQuotes(ls: seq<string>)
    requires |ls| >= 1 && forall i :: 0 <= i < |ls| ==> Plain(ls[i])
    ensures Remove(Join(Quoted(ls), ", "), '\'') == Join(ls, ", ")
    decreases |ls|
  {
    var q := Quoted(ls);
    assert Remove(q[0], '\'') == ls[0] by {
      RemoveConcat("'" + ls[0], "'", '\'');
      RemoveConcat("'", ls[0], '\'');
      assert '\'' !in ls[0];
    }
    if |ls| > 1 {
      RemoveQuotes(ls[1..]);
      assert Quoted(ls)[1..] == Quoted(ls[1..]);
      RemoveConcat(q[0] + ", ", Join(q[1..], ", "), '\'');
      RemoveConcat(q[0], ", ", '\'');
    }
  }

  /** Each text preceded by `pad`. */
  function Padded(ls: seq<string>, pad: string): (r: seq<string>)
    ensures |r| == |ls| && forall i :: 0 <= i < |ls| ==> r[i] == pad + ls[i]
  {
    if ls == [] then [] else [pad + ls[0]] + Padded(ls[1..], pad)
  }

  /** Splitting the joined labels on ',' gives the first label, then each
      later label after its space; `p` is what precedes the first. */
  lemma {:induction false} SplitJoined(p: string, ls: seq<string>)
    requires |ls| >= 1 && ',' !in p && forall i :: 0 <= i < |ls| ==> ',' !in ls[i]
    ensures Split(p + Join(ls, ", "), ",") == [p + ls[0]] + Padded(ls[1..], " ")
    decreases |ls|
  {
    var head := p + ls[0];
    assert FreeOfSepHead(head, ",");
    if |ls| == 1 {
      SplitWhole(head, ",");
    } else {
      var rest := " " + Join(ls[1..], ", ");
      assert p + Join(ls, ", ") == head + "," + rest;
      SplitAfter(head, ",", rest);
      SplitJoined(" ", ls[1..]);
      assert [" " + ls[1]] + Padded(ls[2..], " ") == Padded(ls[1..], " ");
    }
  }

  /** The round trip between the two programs: a row of readable labels that
      write_row appended is read back by get_labels' parser as those labels. */
  lemma LabelRowRoundTrip(ls: seq<string>)
    requires |ls| >= 1 && forall i :: 0 <= i < |ls| ==> Readable(ls[i])
    ensures ParseLabelLine(RowLine(Strs(ls)) + "\n") == ls
  {
    LabelRowLine(ls);
    RowNewlineStripped(ls);
    RemoveQuotes(ls);
    SplitLabels(ls);
    StripLabels(ls);
  }

  lemma SplitLabels(ls: seq<string>)
    requires |ls| >= 1 && forall i :: 0 <= i < |ls| ==> ',' !in ls[i]
    ensures Split(Join(ls, ", "), ",") == [ls[0]] + Padded(ls[1..], " ")
  {
    var j := Join(ls, ", ");
    SplitJoined("", ls);
    assert "" + j == j;
    assert "" + ls[0] == ls[0];
  }

  lemma StripLabels(ls: seq<string>)
    requires |ls| >= 1 && forall i :: 0 <= i < |ls| ==> Readable(ls[i])
    ensures StripAll([ls[0]] + Padded(ls[1..], " ")) == ls
  {
    var pieces := [ls[0]] + Padded(ls[1..], " ");
    forall i | 0 <= i < |ls| ensures Strip(pieces[i], {' '}) == ls[i] {
      StripPiece(ls, i);
    }
    StripAllOf(pieces, ls);
  }

  lemma StripAllOf(pieces: seq<string>, ls: seq<string>)
    requires |pieces| == |ls| && forall i :: 0 <= i < |ls| ==> Strip(pieces[i], {' '}) == ls[i]
    ensures StripAll(pieces) == ls
  {
    assert forall i :: 0 <= i < |ls| ==> StripAll(pieces)[i] == ls[i];
  }

  lemma StripPiece(ls: seq<string>, i: nat)
    requires i < |ls| && Readable(ls[i])
    ensures Strip(([ls[0]] + Padded(ls[1..], " "))[i], {' '}) == ls[i]
  {
    if i == 0 {
      StripReadable(ls[0], "");
      assert "" + ls[0] == ls[0];
    } else {
      assert ([ls[0]] + Padded(ls[1..], " "))[i] == " " + ls[i];
      StripReadable(ls[i], " ");
    }
  }

  lemma StripReadable(x: string, pad: string)
    requires Readable(x) && (pad == "" || pad == " ")
    ensures Strip(pad + x, {' '}) == x
  {
    StripPadded(x, {' '}, pad);
  }

  /** The label row ends in a quote, so `rstrip('\n')` takes off only the
      newline. */
  lemma RowNewlineStripped(ls: seq<string>)
    requires |ls| >= 1
    ensures RStrip(Join(Quoted(ls), ", ") + "\n", {'\n'}) == Join(Quoted(ls), ", ")
  {
    var q := Quoted(ls);
    var row := Join(q, ", ");
    Rows.JoinEnds(q, ", ");
    assert row[|row| - 1] == q[|q| - 1][|q[|q| - 1]| - 1] == '\'';
    RStripAppend(row, "\n", {'\n'});
    RStripKeeps(row, {'\n'});
  }

  /** After two comment lines, get_labels settles on the third line. */
  lemma ThirdLineRead(first: string, second: string, row: string, rows: seq<string>)
    requires first != [] && first[0] == '#' && second != [] && second[0] == '#'
    requires row != [] && row[0] != '#'
    ensures LabelLineIn([first, second, row] + rows, Attempts) == Ok(row + "\n")
  {
    var lines := [first, second, row] + rows;
    assert lines[1..][1..] == [row] + rows;
    assert LabelLineIn([row] + rows, Attempts - 2) == Ok(row + "\n");
  }

  /** A file of two comment lines, a row of readable labels and any rows
      after it opens with those labels. */
  lemma LabelsAfterComments(first: string, second: string, ls: seq<string>, rows: seq<string>)
    requires first != [] && first[0] == '#' && second != [] && second[0] == '#'
    requires |ls| >= 1 && forall i :: 0 <= i < |ls| ==> Readable(ls[i])
    ensures LabelsOf([first, second, RowLine(Strs(ls))] + rows) == Ok(ls)
  {
    LabelRowStart(ls);
    ThirdLineRead(first, second, RowLine(Strs(ls)), rows);
    LabelRowRoundTrip(ls);
  }

  /** A row of labels starts with the quote of its first label. */
  lemma LabelRowStart(ls: seq<string>)
    requires |ls| >= 1 && forall i :: 0 <= i < |ls| ==> Readable(ls[i])
    ensures RowLine(Strs(ls)) != [] && RowLine(Strs(ls))[0] == '\''
  {
    LabelRowLine(ls);
    JoinStarts(Quoted(ls), ", ");
  }

  lemma ColumnLabelsReadable()
    ensures forall i :: 0 <= i < |OpenFiles.ColumnLabels| ==> Readable(OpenFiles.ColumnLabels[i])
  {
    OpenFiles.ColumnLabelsPlain();
    var ls := OpenFiles.ColumnLabels;
    assert Readable(ls[0]);
    assert Readable(ls[1]);
    assert Readable(ls[2]);
    assert Readable(ls[3]);
  }

  /** Opening a file the acquisition example created gives its four column
      labels, whatever rows follow the header. */
  lemma NewDataFileLabels(comment: string, createdAt: string, rows: seq<string>)
    ensures LabelsOf(OpenFiles.Header(comment, createdAt) + rows) == Ok(OpenFiles.ColumnLabels)
  {
    ColumnLabelsReadable();
    var first := OpenFiles.CreationLine(createdAt);
    assert first[0] == '#';
    LabelsAfterComments(first, CommentLine(comment), OpenFiles.ColumnLabels, rows);
  }

  // ------------------------------------------------------------- window

  /** An RGB pen colour. */
  datatype Colour = Colour(red: int, green: int, blue: int)

  /** The seven pen colours, in order (lines 30-36). */
  const PenColours: seq<Colour> := [Colour(155, 0, 0), Colour(76, 145, 0), Colour(0, 0, 200), Colour(122, 23, 220),
                                    Colour(204, 102, 0), Colour(0, 204, 204), Colour(288, 104, 232)]

  /** A solid pen of width 2, and a curve drawn with a pen under a legend name. */
  datatype Pen = Pen(colour: Colour)
  datatype Curve = Curve(pen: Pen, name: string)

  const LiveOffText: string := "Live &Plotting (turn off)"
  const LiveOnText: string := "Live &Plotting (turn on)"

  /** Python's `xs * n` for a list: `n` copies of `xs` one after another. */
  function Times<T>(xs: seq<T>, n: nat): (r: seq<T>)
    ensures xs == [] ==> r == []
    ensures |xs| >= 1 ==> |r| >= n
    ensures n >= 1 ==> |r| >= |xs| && r[..|xs|] == xs
  {
    if n == 0 then [] else xs + Times(xs, n - 1)
  }

  /** A one-entry list repeated `n` times is `n` copies of its entry. */
  lemma {:induction false} TimesSingle<T>(x: T, n: nat)
    ensures |Times([x], n)| == n
    ensures forall i :: 0 <= i < n ==> Times([x], n)[i] == x
  {
    if n > 0 {
      TimesSingle(x, n - 1);
    }
  }

  /** `xs` with its first |front| entries replaced by those of `front`, as
      the item assignments of a loop leave a list. */
  function Overwrite<T>(xs: seq<T>, front: seq<T>): (r: seq<T>)
    requires |front| <= |xs|
    ensures |r| == |xs|
    ensures forall i :: 0 <= i < |xs| ==> r[i] == if i < |front| then front[i] else xs[i]
  {
    front + xs[|front|..]
  }

  /** A list that agrees entry by entry with `Overwrite(xs, front)` is it. */
  lemma OverwriteAgrees<T>(xs: seq<T>, front: seq<T>, ys: seq<T>)
    requires |front| <= |xs| == |ys|
    requires forall i :: 0 <= i < |xs| ==> ys[i] == if i < |front| then front[i] else xs[i]
    ensures ys == Overwrite(xs, front)
  {
  }

  /** The pens open_file makes for `n` y columns (line 161). */
  function PensFor(n: nat): (pens: seq<Option<Pen>>)
    requires n <= |PenColours|
    ensures |pens| == n && forall i :: 0 <= i < n ==> pens[i] == Some(Pen(PenColours[i]))
  {
    seq(n, i requires 0 <= i < n => Some(Pen(PenColours[i])))
  }

  /** The curves open_file makes for the labels `col`: one per y column,
      named by its label and drawn with its pen (line 162). */
  function CurvesFor(col: seq<string>): (curves: seq<Option<Curve>>)
    requires 1 <= |col| <= |PenColours| + 1
    ensures |curves| == |col| - 1
    ensures forall i :: 0 <= i < |col| - 1 ==> curves[i] == Some(Curve(Pen(PenColours[i]), col[i + 1]))
  {
    seq(|col| - 1, i requires 0 <= i < |col| - 1 => Some(Curve(Pen(PenColours[i]), col[i + 1])))
  }

  /** How many y columns the loop of lines 160-162 gives a pen and a curve
      before the pen colours run out. */
  function Painted(yNum: nat): (k: nat)
    ensures k <= yNum && k <= |PenColours|
    ensures k == yNum || k == |PenColours|
  {
    if yNum <= |PenColours| then yNum else |PenColours|
  }

  /** The pens and curves open_file leaves for the labels `col` (two or
      more), starting from the lists `pens0` and `curves0`: each list
      repeated once per y column (lines 157-158), with its first entries set
      by the loop until it stops. */
  function PensAfter(col: seq<string>, pens0: seq<Option<Pen>>): (pens: seq<Option<Pen>>)
    requires |col| >= 2 && |pens0| >= 1
    ensures |pens| == |Times(pens0, |col| - 1)|
    ensures forall i :: 0 <= i < |pens| ==>
      pens[i] == if i < Painted(|col| - 1) then Some(Pen(PenColours[i])) else Times(pens0, |col| - 1)[i]
  {
    var yNum := |col| - 1;
    Overwrite(Times(pens0, yNum), PensFor(Painted(yNum)))
  }

  function CurvesAfter(col: seq<string>, curves0: seq<Option<Curve>>): (curves: seq<Option<Curve>>)
    requires |col| >= 2 && |curves0| >= 1
    ensures |curves| == |Times(curves0, |col| - 1)|
    ensures forall i :: 0 <= i < |curves| ==>
      curves[i] == if i < Painted(|col| - 1) then Some(Curve(Pen(PenColours[i]), col[i + 1])) else Times(curves0, |col| - 1)[i]
  {
    var yNum := |col| - 1;
    Overwrite(Times(curves0, yNum), CurvesFor(col[..Painted(yNum) + 1]))
  }

  /** From the single empty pen and curve the window starts with, a file
      with at most seven y columns gets exactly one pen and one curve per
      column. */
  lemma FreshListsPainted(col: seq<string>)
    requires 2 <= |col| <= |PenColours| + 1
    ensures PensAfter(col, [None]) == PensFor(|col| - 1)
    ensures CurvesAfter(col, [None]) == CurvesFor(col)
  {
    TimesSingle<Option<Pen>>(None, |col| - 1);
    TimesSingle<Option<Curve>>(None, |col| - 1);
  }

  /** From those lists, a file with more than seven y columns is left with
      the seven set entries followed by empty ones, one per further column. */
  lemma FreshListsOverflow(col: seq<string>)
    requires |col| - 1 > |PenColours|
    ensures |PensAfter(col, [None])| == |CurvesAfter(col, [None])| == |col| - 1
    ensures PensAfter(col, [None])[..|PenColours|] == PensFor(|PenColours|)
    ensures forall i :: |PenColours| <= i < |col| - 1 ==> PensAfter(col, [None])[i] == None && CurvesAfter(col, [None])[i] == None
  {
    TimesSingle<Option<Pen>>(None, |col| - 1);
    TimesSingle<Option<Curve>>(None, |col| - 1);
  }

  /** The directory open_file remembers for the file `filename`: its name
      with the last component dropped (line 143), split and joined at
      os.sep, which on a POSIX system is '/'. */
  function BasePath(filename: string): string {
    SplitLast(filename, "/").0
  }

  /** The base path and the file's own name give the file name back. */
  lemma BasePathParts(filename: string)
    ensures !Contains(filename, "/") ==> BasePath(filename) == ""
    ensures Contains(filename, "/") ==> BasePath(filename) + "/" + SplitLast(filename, "/").1 == filename
  {
    SplitLastParts(filename, "/");
  }

  /** The plot widget's settings: axis labels, legend, date axis. */
  datatype Plot = Plot(bottomLabel: Option<string>, leftLabel: Option<string>, legend: bool, dateAxis: bool)

  const FreshPlot: Plot := Plot(None, None, false, false)

  /** The main window of the live plotting application; the update thread is
      whether one has been started. */
  class PlotApp {
    var basePath: string
    var filename: Option<string>
    var updateThread: bool
    var forceQuit: bool
    var livePlotting: bool
    var activeFile: bool
    var curves: seq<Option<Curve>>
    var pens: seq<Option<Pen>>
    var closeEnabled: bool
    var updateEnabled: bool
    var liveText: string
    var plot: Plot

    /** The update button and the live-plotting action follow
        `livePlotting`, the pen and curve lists are never empty, and a
        thread runs only for an open file. */
    predicate Valid()
      reads this
    {
      updateEnabled == !livePlotting
      && liveText == (if livePlotting then LiveOffText else LiveOnText)
      && |pens| >= 1 && |curves| >= 1
      && (updateThread ==> activeFile)
    }

    /** No file name and a blank plot. */
    predicate Idle()
      reads this
    {
      filename.None? && Blank()
    }

    /** A fresh plot, no thread, one empty curve and pen. */
    predicate Blank()
      reads this
    {
      !updateThread && curves == [None] && pens == [None] && plot == FreshPlot
    }

    /** __init__ (lines 38-116); `basePath` is the shared drive's path. */
    constructor(basePath: string)
      ensures Valid() && Idle() && !activeFile && livePlotting && forceQuit && !closeEnabled
      ensures this.basePath == basePath
    {
      this.basePath := basePath;
      filename := None;
      updateThread := false;
      forceQuit := true;
      livePlotting := true;
      activeFile := false;
      curves := [None];
      pens := [None];
      closeEnabled := false;
      updateEnabled := false;
      liveText := LiveOffText;
      plot := FreshPlot;
    }

    /** set_live_plotting (lines 172-182): manual update is offered exactly
        when live plotting is off. */
    method SetLivePlotting(on: bool)
      modifies this`livePlotting, this`updateEnabled, this`liveText
      ensures livePlotting == on && updateEnabled == !on
      ensures liveText == (if on then LiveOffText else LiveOnText)
    {
      livePlotting := on;
      updateEnabled := !on;
      if on {
        liveText := LiveOffText;
      } else {
        liveText := LiveOnText;
      }
    }

    /** swap_live (lines 168-170): live plotting is negated and only its two
        indicators follow, so swapping twice restores the window. */
    method SwapLive()
      requires Valid()
      modifies this`livePlotting, this`updateEnabled, this`liveText
      ensures Valid()
      ensures livePlotting == !old(livePlotting) && updateEnabled == old(livePlotting)
    {
      SetLivePlotting(!livePlotting);
    }

    /** close_file (lines 209-225): only when the user confirms is the file
        dropped.  Joining the update thread (line 217) raises AttributeError
        when none was started, as after an open that failed: the file is then
        no longer active and live plotting is off, but its name, pens, curves
        and plot stay.  Otherwise the window returns to its start-up state. */
    method CloseFile(confirmed: bool) returns (r: Option<PyError>)
      requires Valid()
      modifies this`activeFile, this`livePlotting, this`updateEnabled, this`liveText, this`filename
      modifies this`pens, this`curves, this`updateThread, this`plot
      ensures Valid()
      ensures !confirmed ==> r.None? && unchanged(this)
      ensures confirmed ==> !activeFile && !livePlotting
      ensures confirmed && old(updateThread) ==> r.None? && Idle()
      ensures confirmed && !old(updateThread) ==>
        r == Some(AttributeError) && !updateThread && filename == old(filename) && pens == old(pens) && curves == old(curves) && plot == old(plot)
    {
      r := None;
      if confirmed {
        activeFile := false;
        SetLivePlotting(false);
        if !updateThread {
          return Some(AttributeError);
        }
        filename := None;
        pens := [None];
        curves := [None];
        updateThread := false;
        plot := FreshPlot;
      }
    }

    /** open_file (lines 126-165).  An open file is first closed if the user
        confirms `closeConfirmed`, and an exception of close_file ends
        open_file; then `chosen` is the dialog's answer ("" when cancelled)
        and `fileLines` the chosen file's lines.  The file is shown on what
        the window holds at that point: a blank plot after a close, and
        otherwise whatever an earlier open that failed left.  The result is
        the exception open_file raises, if any. */
    method OpenFile(closeConfirmed: bool, chosen: string, fileLines: seq<string>) returns (r: Option<PyError>)
      requires Valid()
      modifies this`activeFile, this`livePlotting, this`updateEnabled, this`liveText, this`filename
      modifies this`pens, this`curves, this`updateThread, this`plot, this`closeEnabled, this`basePath
      ensures Valid()
      ensures old(activeFile) && !closeConfirmed ==> r.None? && unchanged(this)
      ensures old(activeFile) && closeConfirmed && !old(updateThread) ==>
        r == Some(AttributeError) && !activeFile && !livePlotting && !updateThread
        && filename == old(filename) && basePath == old(basePath) && closeEnabled == old(closeEnabled)
        && pens == old(pens) && curves == old(curves) && plot == old(plot)
      ensures old(activeFile) && closeConfirmed && old(updateThread) && chosen == "" ==>
        r.None? && !activeFile && !livePlotting && Idle()
      ensures old(activeFile) && closeConfirmed && old(updateThread) && chosen != "" ==>
        OpenedFrom(chosen, LabelsOf(fileLines), r, FreshPlot, [None], [None])
      ensures !old(activeFile) && chosen == "" ==> r.None? && unchanged(this)
      ensures !old(activeFile) && chosen != "" ==>
        OpenedFrom(chosen, LabelsOf(fileLines), r, old(plot), old(pens), old(curves))
    {
      r := None;
      if activeFile {
        r := CloseFile(closeConfirmed);
        if r.Some? {
          return;
        }
      }
      if !activeFile {
        if chosen != "" {
          var labels := GetLabels(fileLines);
          r := OpenChosen(chosen, labels);
        }
      }
    }

    /** Lines 134-165 of open_file, for the chosen file `chosen` with no file
        open, whose get_labels (line 144) gives `labels`.  Reading the labels
        changes nothing in the window, so it may be done first. */
    method OpenChosen(chosen: string, labels: Result<seq<string>>) returns (r: Option<PyError>)
      requires Valid() && !activeFile
      requires labels.Ok? ==> |labels.value| >= 1
      modifies this`activeFile, this`livePlotting, this`updateEnabled, this`liveText, this`filename
      modifies this`pens, this`curves, this`updateThread, this`plot, this`closeEnabled, this`basePath
      ensures Valid() && OpenedFrom(chosen, labels, r, old(plot), old(pens), old(curves))
    {
      closeEnabled := true;
      activeFile := true;
      SetLivePlotting(true);
      filename := Some(chosen);
      basePath := BasePath(chosen);
      r := ShowRead(labels);
    }

    /** Lines 144-165 of open_file: the labels get_labels returned or the
        exception it raised. */
    method ShowRead(labels: Result<seq<string>>) returns (r: Option<PyError>)
      requires |pens| >= 1 && |curves| >= 1 && !updateThread
      requires labels.Ok? ==> |labels.value| >= 1
      modifies this`pens, this`curves, this`updateThread, this`plot
      ensures ShownFrom(labels, r, old(plot), old(pens), old(curves))
    {
      if labels.Fault? {
        return Some(labels.error);
      }
      r := ShowLabels(labels.value);
    }

    /** The window after the labels read from the chosen file are `labels`,
        starting from the plot `plot0` and the lists `pens0` and `curves0`:
        the exception get_labels raised with nothing changed, or the labels
        shown. */
    predicate ShownFrom(labels: Result<seq<string>>, r: Option<PyError>,
                        plot0: Plot, pens0: seq<Option<Pen>>, curves0: seq<Option<Curve>>)
      reads this
    {
      match labels {
        case Fault(e) => r == Some(e) && !updateThread && plot == plot0 && pens == pens0 && curves == curves0
        case Ok(col) => OpenedWith(col, r, plot0, pens0, curves0)
      }
    }

    /** The window after the dialog answered the file name `chosen`: the file
        is open and live-plotted with its directory as base path, and the
        labels read from it either failed or are shown. */
    predicate OpenedFrom(chosen: string, labels: Result<seq<string>>, r: Option<PyError>,
                         plot0: Plot, pens0: seq<Option<Pen>>, curves0: seq<Option<Curve>>)
      reads this
    {
      activeFile && closeEnabled && livePlotting && filename == Some(chosen) && basePath == BasePath(chosen)
      && ShownFrom(labels, r, plot0, pens0, curves0)
    }

    /** Lines 145-165 of open_file, once the labels `col` have been read. */
    method ShowLabels(col: seq<string>) returns (r: Option<PyError>)
      requires |col| >= 1 && |pens| >= 1 && |curves| >= 1 && !updateThread
      modifies this`pens, this`curves, this`updateThread, this`plot
      ensures OpenedWith(col, r, old(plot), old(pens), old(curves))
    {
      r := None;
      plot := plot.(bottomLabel := Some(col[0]));
      if |col| < 2 {
        return Some(IndexError);
      }
      plot := plot.(leftLabel := Some(col[1]));
      if |col| > 2 {
        plot := plot.(legend := true);
      }
      if Contains(Lower(col[0]), "time") {
        plot := plot.(dateAxis := true);
      }
      var yNum := |col| - 1;
      curves := Times(curves, yNum);
      pens := Times(pens, yNum);
      r := MakeCurves(col);
      if r.None? {
        updateThread := true;
      }
    }

    /** The loop of lines 160-162: pen and curve ii for label ii + 1, until
        the pen colours run out; the lists are long enough for every y
        column. */
    method MakeCurves(col: seq<string>) returns (r: Option<PyError>)
      requires |col| >= 2 && |pens| >= |col| - 1 && |curves| >= |col| - 1
      modifies this`pens, this`curves
      ensures r.None? <==> |col| - 1 <= |PenColours|
      ensures r.Some? ==> r == Some(IndexError)
      ensures pens == Overwrite(old(pens), PensFor(Painted(|col| - 1)))
      ensures curves == Overwrite(old(curves), CurvesFor(col[..Painted(|col| - 1) + 1]))
    {
      var yNum := |col| - 1;
      ghost var pensIn, curvesIn := pens, curves;
      for ii := 0 to yNum
        invariant |pens| == |pensIn| && |curves| == |curvesIn| && ii <= |PenColours|
        invariant forall i :: 0 <= i < |pens| ==> pens[i] == if i < ii then Some(Pen(PenColours[i])) else pensIn[i]
        invariant forall i :: 0 <= i < |curves| ==>
          curves[i] == if i < ii then Some(Curve(Pen(PenColours[i]), col[i + 1])) else curvesIn[i]
      {
        if ii >= |PenColours| {
          OverwriteAgrees(pensIn, PensFor(ii), pens);
          OverwriteAgrees(curvesIn, CurvesFor(col[..ii + 1]), curves);
          return Some(IndexError);
        }
        pens := pens[ii := Some(Pen(PenColours[ii]))];
        curves := curves[ii := Some(Curve(Pen(PenColours[ii]), col[ii + 1]))];
      }
      OverwriteAgrees(pensIn, PensFor(yNum), pens);
      OverwriteAgrees(curvesIn, CurvesFor(col[..yNum + 1]), curves);
      r := None;
    }

    /** What the window shows once open_file has read the labels `col`,
        starting from the plot `plot0` and the lists `pens0` and `curves0`:
        fewer than two labels set only the bottom label and raise
        IndexError; otherwise the plot is `ShownPlot`, the lists are those of
        `PensAfter` and `CurvesAfter`, and the update thread is started unless
        there are more y columns than pen colours, which raises IndexError. */
    predicate OpenedWith(col: seq<string>, r: Option<PyError>,
                         plot0: Plot, pens0: seq<Option<Pen>>, curves0: seq<Option<Curve>>)
      reads this
    {
      if |col| == 0 then false
      else if |col| < 2 then
        r == Some(IndexError) && !updateThread && plot == plot0.(bottomLabel := Some(col[0]))
        && pens == pens0 && curves == curves0
      else
        |pens0| >= 1 && |curves0| >= 1
        && plot == ShownPlot(plot0, col) && pens == PensAfter(col, pens0) && curves == CurvesAfter(col, curves0)
        && (if |col| - 1 <= |PenColours| then r.None? && updateThread else r == Some(IndexError) && !updateThread)
    }

    /** quit (lines 233-243) and closeEvent (lines 245-250): an open file is
        closed first, and an exception of close_file ends quit before the exit
        question (`r`); the window only closes for real once no file is open
        and the user confirmed the exit, and `closed` says whether it did. */
    method Quit(closeConfirmed: bool, exitConfirmed: bool) returns (closed: bool, r: Option<PyError>)
      requires Valid()
      modifies this`activeFile, this`livePlotting, this`updateEnabled, this`liveText, this`filename
      modifies this`pens, this`curves, this`updateThread, this`plot, this`forceQuit
      ensures Valid()
      ensures r.Some? <==> old(activeFile) && closeConfirmed && !old(updateThread)
      ensures r.Some? ==>
        r == Some(AttributeError) && !activeFile && !livePlotting && filename == old(filename) && pens == old(pens) && curves == old(curves) && plot == old(plot)
      ensures closed <==> (!old(activeFile) || (closeConfirmed && old(updateThread))) && exitConfirmed
      ensures closed ==> !forceQuit && !activeFile
      ensures !closed ==> forceQuit == old(forceQuit)
    {
      closed, r := false, None;
      if activeFile {
        r := CloseFile(closeConfirmed);
        if r.Some? {
          return;
        }
      }
      if !activeFile {
        if exitConfirmed {
          forceQuit := false;
          closed := true;
        }
      }
    }
  }

  /** The plot open_file sets up for the labels `col` (two or more) on the
      plot `prior`: the first label on the bottom axis, the second on the
      left, a legend added beyond two labels and a date axis when the first
      label, lower-cased, holds "time"; a legend or date axis `prior` already
      has is kept. */
  function ShownPlot(prior: Plot, col: seq<string>): (p: Plot)
    requires |col| >= 2
    ensures p.bottomLabel == Some(col[0]) && p.leftLabel == Some(col[1])
    ensures p.legend <==> prior.legend || |col| > 2
    ensures p.dateAxis <==> prior.dateAxis || Contains(Lower(col[0]), "time")
  {
    prior.(bottomLabel := Some(col[0]), leftLabel := Some(col[1]),
           legend := prior.legend || |col| > 2,
           dateAxis := prior.dateAxis || Contains(Lower(col[0]), "time"))
  }

  /** On the blank plot of a fresh window, the legend appears exactly beyond
      two labels and the date axis exactly for a time column. */
  lemma FreshPlotShown(col: seq<string>)
    requires |col| >= 2
    ensures ShownPlot(FreshPlot, col) == Plot(Some(col[0]), Some(col[1]), |col| > 2, Contains(Lower(col[0]), "time"))
  {
  }

  /** A file whose header names a single column, opened in a fresh window:
      open_file raises IndexError with the file left open and no update
      thread; the first quit then raises AttributeError from close_file and
      the window stays, keeping the file's name; a second quit closes it. */
  method SingleColumnFileBlocksQuit() returns (openFault: Option<PyError>, first: Option<PyError>, closedFirst: bool, closedSecond: bool)
    ensures openFault == Some(IndexError) && first == Some(AttributeError)
    ensures !closedFirst && closedSecond
  {
    var app := new PlotApp("/shared");
    openFault := app.OpenChosen("/shared/run.csv", Ok(["time"]));
    assert app.OpenedWith(["time"], openFault, FreshPlot, [None], [None]);
    assert app.activeFile && !app.updateThread;
    closedFirst, first := app.Quit(true, true);
    assert app.filename == Some("/shared/run.csv");
    var second;
    closedSecond, second := app.Quit(true, true);
  }

  /** load_data (lines 184-194): `load(k)` is np.loadtxt skipping k rows,
      None when it raises ValueError.  The first success among skips 0 to
      attempts - 1 is returned, or None when every attempt fails. */
  method LoadData<T>(attempts: int, load: nat -> Option<T>) returns (data: Option<T>)
    ensures data.None? <==> forall k: nat :: k < attempts ==> load(k).None?
    ensures data.Some? ==> exists k: nat :: k < attempts && data == load(k) && forall j: nat :: j < k ==> load(j).None?
  {
    data := None;
    var attempt: nat := 0;
    while attempt < attempts
      invariant forall j: nat :: j < attempt ==> load(j).None?
      invariant data.None?
      invariant attempt <= attempts || attempt == 0
    {
      data := load(attempt);
      if data.Some? {
        return;
      }
      attempt := attempt + 1;
    }
  }
}
