/** The data-taking tab (gui/tab_data.py): it opens an existing data file or
    starts a new one, runs the acquisition thread that appends a data point
    per tick while `running` is set, and pauses, continues or stops it.
    Threads are modelled by their sequential effect: starting one records
    an event and sets what its first statement sets, and a tick of the data
    thread is one pass of its inner loop. */
module TabData {
  import opened Outcomes
  import opened Text
  import opened Rows
  import opened Gpib
  import OpenFiles
  import Averaging
  import PlotLive
  import NewDataPrompt
  import DataTaking
  import Server

  // ------------------------------------------------- the averaging setting

  const AverageWord: string := "average"

  /** Lines 141-146: int() of the slices of lengths ii, ii+1, … (up to 2)
      that end at `end`; the first that `parse` (int(), in the source)
      accepts wins, else the default 1. */
  function FirstInteger(line: string, end: int, ii: nat, parse: string -> Option<int>): int
    decreases 3 - ii
  {
    if ii >= 3 then 1
    else match parse(PySlice(line, end - ii, end))
      case Some(v) => v
      case None => FirstInteger(line, end, ii + 1, parse)
  }

  /** Lines 137-146: the averaging count read from a file's comment line:
      1 unless "average" occurs, otherwise the first of the slices of
      length 0, 1 and 2 before the character ahead of it that int() accepts. */
  function AveragingOf(line: string): (n: int)
    ensures !Contains(line, AverageWord) ==> n == 1
  {
    match IndexOf(line, AverageWord)
    case None => 1
    case Some(k) => FirstInteger(line, k - 1, 0, ParseInt)
  }

  lemma AveragingAt(line: string, k: nat)
    requires IndexOf(line, AverageWord) == Some(k)
    ensures AveragingOf(line) == FirstInteger(line, k - 1, 0, ParseInt)
  {
  }

  /** Lines 137-146: where "average" first occurs, then the for/try/break
      loop over the slices ahead of it. */
  method ReadAveraging(line: string) returns (ave: int)
    ensures ave == AveragingOf(line)
  {
    var found := IndexOf(line, AverageWord);
    if found.None? {
      return 1;                                 // FakeDialog's default (line 278)
    }
    AveragingAt(line, found.value);
    ave := ScanCount(line, found.value - 1, ParseInt);
  }

  /** The for/try/break loop of lines 141-146 for the slices ending at `aveNumEnd`. */
  method ScanCount(line: string, aveNumEnd: int, parse: string -> Option<int>) returns (ave: int)
    ensures ave == FirstInteger(line, aveNumEnd, 0, parse)
  {
    ave := 1;
    for ii := 0 to 3
      invariant ave == 1
      invariant FirstInteger(line, aveNumEnd, 0, parse) == FirstInteger(line, aveNumEnd, ii, parse)
    {
      var parsed := parse(PySlice(line, aveNumEnd - ii, aveNumEnd));
      if parsed.Some? {
        ave := parsed.value;
        return;
      }
    }
  }

  lemma ParseIntEmpty()
    ensures ParseInt("").None?
  {
    assert Strip("", Whitespace) == "";
  }

  lemma LastDigit(n: nat)
    ensures var d := NatToString(n); d[|d| - 1] == DigitChar(n % 10)
  {
  }

  /** A first occurrence: `w` at k and nowhere before. */
  lemma FirstAt(s: string, w: string, k: nat)
    requires OccursAt(s, w, k)
    requires forall j: nat :: j < k ==> !OccursAt(s, w, j)
    ensures IndexOf(s, w) == Some(k)
  {
    IndexOfFirst(s, w);
  }

  /** Where "average" first occurs right after a word and a space, it is
      found there. */
  lemma AverageAfterWord(head: string, rest: string)
    requires !Contains(head, AverageWord)
    ensures IndexOf(head + " " + AverageWord + rest, AverageWord) == Some(|head| + 1)
  {
    var s := head + " " + AverageWord + rest;
    var k := |head| + 1;
    assert s[k..k + 7] == AverageWord;
    forall j: nat | j < k
      ensures !OccursAt(s, AverageWord, j)
    {
      if j + 7 <= |head| {
        assert s[j..j + 7] == head[j..j + 7];
        if OccursAt(s, AverageWord, j) {
          assert OccursAt(head, AverageWord, j);
          ContainsOccurs(head, AverageWord, j);
        }
      } else {
        assert s[j..j + 7][|head| - j] == ' ';
      }
    }
    FirstAt(s, AverageWord, k);
  }

  /** The averaging read back from "… N average…" is the last digit of N:
      N itself for N from 0 to 9, only its last digit for N ≥ 10. */
  lemma AveragingReadsLastDigit(p: string, n: nat, rest: string)
    requires !Contains(p + NatToString(n), AverageWord)
    ensures AveragingOf(p + NatToString(n) + " " + AverageWord + rest) == n % 10
  {
    LastDigit(n);
    AveragingReadsLast(p + NatToString(n), rest);
  }

  /** The averaging read back after a word ending in a digit is that digit. */
  lemma AveragingReadsLast(head: string, rest: string)
    requires |head| > 0 && IsDigit(head[|head| - 1])
    requires !Contains(head, AverageWord)
    ensures AveragingOf(head + " " + AverageWord + rest) == DigitValue(head[|head| - 1])
  {
    var s := head + " " + AverageWord + rest;
    var end := |head|;
    LastDigitSlice(head, " " + AverageWord + rest);
    AppendAssoc(head, " ", AverageWord);
    AppendAssoc(head, " " + AverageWord, rest);
    EmptySliceNone(s, end);
    SecondSliceWins(s, end, DigitValue(head[end - 1]));
    AverageAfterWord(head, rest);
    AveragingAt(s, end + 1);
  }

  lemma EmptySliceNone(s: string, end: nat)
    requires end <= |s|
    ensures ParseInt(PySlice(s, end, end)).None?
  {
    assert PySlice(s, end, end) == [];
    ParseIntEmpty();
  }

  /** The one-character slice ending a digit string is that digit. */
  lemma LastDigitSlice(head: string, tail: string)
    requires |head| > 0 && IsDigit(head[|head| - 1])
    ensures ParseInt(PySlice(head + tail, |head| - 1, |head|)) == Some(DigitValue(head[|head| - 1]) as int)
  {
    var c := head[|head| - 1];
    assert PySlice(head + tail, |head| - 1, |head|) == [c];
    ParseDigit(c);
  }

  /** The loop stops at the one-character slice when the empty one is refused. */
  lemma SecondSliceWins(s: string, end: int, v: int)
    requires ParseInt(PySlice(s, end, end)).None?
    requires ParseInt(PySlice(s, end - 1, end)) == Some(v)
    ensures FirstInteger(s, end, 0, ParseInt) == v
  {
  }

  // ----------------------------------------------------- a new data file

  /** The creation moment of a new file. */
  datatype Moment = Moment(year: nat, month: nat, day: nat, hour: nat, minute: nat, second: nat)

  /** Lines 162-168 */
  function StartMessage(t: Moment): string {
    "Starting new data file on " + PadNat(t.month, 2) + "/" + PadNat(t.day, 2) + "/" + PadNat(t.year, 4)
    + " at " + PadNat(t.hour, 2) + ":" + PadNat(t.minute, 2) + ":" + NatToString(t.second)
  }

  lemma {:induction false} ReplaceSpaces(s: string)
    ensures |Replace(s, ' ', "_")| == |s|
    ensures forall i :: 0 <= i < |s| ==> Replace(s, ' ', "_")[i] == (if s[i] == ' ' then '_' else s[i])
    decreases |s|
  {
    if s != [] {
      ReplaceSpaces(s[1..]);
    }
  }

  /** Lines 170-172: spaces become underscores, and an empty name "none". */
  function SampleToken(sample: string): (tok: string)
    ensures sample == "" ==> tok == "none"
    ensures sample != "" ==> |tok| == |sample|
    ensures sample != "" ==> forall i :: 0 <= i < |sample| ==> tok[i] == (if sample[i] == ' ' then '_' else sample[i])
    ensures ' ' !in tok
  {
    ReplaceSpaces(sample);
    var s := Replace(sample, ' ', "_");
    if s == "" then "none" else s
  }

  lemma DigitsNoSpace(d: string)
    requires AllDigits(d)
    ensures ' ' !in d
  {
    forall i | 0 <= i < |d| ensures d[i] != ' ' {
      assert IsDigit(d[i]);
    }
  }

  /** Three digit groups joined by dashes. */
  function Dashed(a: string, b: string, c: string): (r: string)
    requires AllDigits(a) && AllDigits(b) && AllDigits(c)
    ensures ' ' !in r
  {
    DigitsNoSpace(a);
    DigitsNoSpace(b);
    DigitsNoSpace(c);
    a + "-" + b + "-" + c
  }

  /** Lines 173-179: "{sample}_{MM}-{DD}-{YYYY}_{HH}-{mm}-{s}", the seconds
      unpadded; the name holds no space and starts with the sample token. */
  function DataFileName(sample: string, t: Moment): (name: string)
    ensures ' ' !in name
    ensures |name| > |SampleToken(sample)| && name[..|SampleToken(sample)| + 1] == SampleToken(sample) + "_"
  {
    var tok := SampleToken(sample);
    var date := Dashed(PadNat(t.month, 2), PadNat(t.day, 2), PadNat(t.year, 4));
    var time := Dashed(PadNat(t.hour, 2), PadNat(t.minute, 2), NatToString(t.second));
    var lead := tok + "_";
    var name := lead + (date + "_" + time);
    assert name[..|lead|] == lead;
    name
  }

  function CommentBase(setup: string, sample: string): string {
    "Experiment performed on the " + setup + " setup with sample: " + sample + "."
  }

  function AveragesClause(ave: int): string {
    if ave > 1 then " Data is taken with " + IntToString(ave) + " averages." else ""
  }

  function CalibrationClause(cal: string): string {
    if cal != "" then " Using calibration file: " + cal + "." else ""
  }

  function NoteClause(note: string): string {
    if note != "" then " ... " + note + "." else ""
  }

  /** Lines 180-188: the base sentence, then the averages, calibration and
      comment clauses, each only when it applies, in that order. */
  function NewFileComment(setup: string, sample: string, ave: int, cal: string, note: string): (c: string)
    ensures |c| >= |CommentBase(setup, sample)| && c[..|CommentBase(setup, sample)|] == CommentBase(setup, sample)
    ensures ave <= 1 && cal == "" && note == "" ==> c == CommentBase(setup, sample)
  {
    var base := CommentBase(setup, sample);
    var c := base + AveragesClause(ave) + CalibrationClause(cal) + NoteClause(note);
    assert c[..|base|] == base;
    c
  }

  /** What a new file's comment line holds ahead of its averaging count. */
  function AveragingPrefix(setup: string, sample: string): string {
    "# " + CommentBase(setup, sample) + " Data is taken with "
  }

  lemma Regroup(h: string, base: string, mid: string, d: string, sp: string, w: string, tail: string, cl: string)
    ensures h + (base + (mid + d + (sp + w + tail)) + cl) + "\n" == (h + base + mid) + d + sp + w + (tail + cl + "\n")
  {
  }

  lemma CommentHasCount(setup: string, sample: string, ave: nat, cal: string, note: string)
    requires ave > 1
    ensures CommentLine(NewFileComment(setup, sample, ave, cal, note)) + "\n"
            == AveragingPrefix(setup, sample) + NatToString(ave) + " " + AverageWord
               + ("s." + (CalibrationClause(cal) + NoteClause(note)) + "\n")
  {
    var base, d, cl := CommentBase(setup, sample), NatToString(ave), CalibrationClause(cal) + NoteClause(note);
    assert " averages." == " " + AverageWord + "s.";
    assert AveragesClause(ave) == " Data is taken with " + d + (" " + AverageWord + "s.");
    assert NewFileComment(setup, sample, ave, cal, note) == base + AveragesClause(ave) + cl;
    Regroup("# ", base, " Data is taken with ", d, " ", AverageWord, "s.", cl);
  }

  /** A file made with N > 1 averages and opened again reads back the last
      digit of N, provided "average" does not already occur in the comment
      line ahead of the count (through the setup or sample name). */
  lemma NewFileAveragingReadBack(setup: string, sample: string, ave: nat, cal: string, note: string,
                                 createdAt: string, rows: seq<string>)
    requires ave > 1
    requires !Contains(AveragingPrefix(setup, sample) + NatToString(ave), AverageWord)
    ensures AveragingOf(PlotLive.ReadLine(OpenFiles.Header(NewFileComment(setup, sample, ave, cal, note), createdAt) + rows, 1))
            == ave % 10
  {
    SecondHeaderLine(NewFileComment(setup, sample, ave, cal, note), createdAt, rows);
    CommentHasCount(setup, sample, ave, cal, note);
    AveragingReadsLastDigit(AveragingPrefix(setup, sample), ave,
                            "s." + (CalibrationClause(cal) + NoteClause(note)) + "\n");
  }

  /** The second readline of a data file gives its comment line back. */
  lemma SecondHeaderLine(comment: string, createdAt: string, rows: seq<string>)
    ensures PlotLive.ReadLine(OpenFiles.Header(comment, createdAt) + rows, 1) == CommentLine(comment) + "\n"
  {
    assert (OpenFiles.Header(comment, createdAt) + rows)[1] == OpenFiles.Header(comment, createdAt)[1];
  }

  /** In particular every count from 2 to 9 survives the round trip. */
  lemma SmallAveragingRoundTrip(setup: string, sample: string, ave: nat, cal: string, note: string,
                                createdAt: string, rows: seq<string>)
    requires 2 <= ave <= 9
    requires !Contains(AveragingPrefix(setup, sample) + NatToString(ave), AverageWord)
    ensures AveragingOf(PlotLive.ReadLine(OpenFiles.Header(NewFileComment(setup, sample, ave, cal, note), createdAt) + rows, 1))
            == ave
  {
    assert ave % 10 == ave;
    NewFileAveragingReadBack(setup, sample, ave, cal, note, createdAt, rows);
  }

  /** Entries as accept_click leaves them: every one of its type. */
  predicate Typed(e: NewDataPrompt.Entries) {
    e.setup.Str? && e.sample.Str? && e.cal.Str? && e.ave.Int? && e.comment.Str?
  }

  // ---------------------------------------------------------------- the tab

  /** What `self.dialog` holds: nothing, the new-file prompt with its
      entries, or the FakeDialog of open_file with its averaging entry. */
  datatype Dialog = NoDialog | Prompt(entries: NewDataPrompt.Entries) | Fake(averagingEntry: int)

  const PausedNotice: string := "Paused data taking."
  const ClosingNotice: string := "Closing File"

  function OpeningNotices(filename: string, ave: int): seq<string> {
    ["Opening file \"" + filename + "\"", "Using averaging setting of " + IntToString(ave)]
  }

  /** A data-taking tab: `log` is what it wrote to its text stream,
      `events` the thread and server operations, `plotFile` the file the
      plot tab was told to show and `plotUpdates` the update signals sent. */
  class DataTab {
    var dialog: Dialog
    var data: OpenFiles.OpenDataFile?
    var threadsMade: bool
    var dataAlive: bool
    var running: bool
    var activeFile: bool
    var plotFile: Option<string>
    var plotUpdates: nat
    var log: seq<string>
    var events: seq<DataTaking.Event>

    /** The data thread runs only with an active file, the FakeDialog's
        averaging entry and a data file to write to. */
    predicate Valid()
      reads this
    {
      dataAlive ==> activeFile && threadsMade && dialog.Fake? && data != null
    }

    /** Lines 43-50: no dialog, no data file, no threads, both flags clear. */
    constructor()
      ensures Valid()
      ensures dialog == NoDialog && data == null && !threadsMade && !dataAlive && !running && !activeFile
      ensures plotFile.None? && plotUpdates == 0 && log == [] && events == []
    {
      dialog := NoDialog;
      data := null;
      threadsMade := false;
      dataAlive := false;
      running := false;
      activeFile := false;
      plotFile := None;
      plotUpdates := 0;
      log := [];
      events := [];
    }

    /** activate_data_file (lines 194-219): the threads are made, the plot
        tab is given the file, the file is active and the server thread
        starts. */
    method ActivateDataFile(filename: string)
      modifies this`threadsMade, this`plotFile, this`activeFile, this`events
      ensures threadsMade && activeFile && plotFile == Some(filename)
      ensures events == old(events) + [DataTaking.StartServerThread]
    {
      threadsMade := true;
      plotFile := Some(filename);
      activeFile := true;
      events := events + [DataTaking.StartServerThread];
    }

    /** The data thread starts; take_data first sets `running` (line 222). */
    method StartDataThread()
      modifies this`dataAlive, this`running, this`events
      ensures dataAlive && running && events == old(events) + [DataTaking.StartDataThread]
    {
      events := events + [DataTaking.StartDataThread];
      dataAlive := true;
      running := true;
    }

    /** open_file (lines 124-152) with `chosen` the file picked ("" when the
        file dialog is cancelled) and `existing` its lines. */
    method OpenFile(chosen: string, existing: seq<string>)
      requires Valid()
      modifies this
      ensures chosen == "" ==> unchanged(this)
      ensures chosen != "" ==> Opened(chosen, existing, AveragingOf(PlotLive.ReadLine(existing, 1)))
      ensures chosen != "" ==>
        && fresh(data)
        && log == old(log) + OpeningNotices(chosen, AveragingOf(PlotLive.ReadLine(existing, 1)))
        && events == old(events) + [DataTaking.StartServerThread, DataTaking.StartDataThread]
        && plotUpdates == old(plotUpdates)
      ensures Valid()
    {
      if chosen == "" {
        return;
      }
      var ave := ReadAveraging(PlotLive.ReadLine(existing, 1));
      OpenWith(chosen, existing, ave);
    }

    /** The state open_file leaves: the FakeDialog holding the averaging
        read, the chosen file open for appending with its lines, and both
        threads running on it. */
    predicate Opened(chosen: string, existing: seq<string>, ave: int)
      reads this, data
    {
      && dialog == Fake(ave)
      && data != null && data.fullName == chosen && data.lines == existing
      && activeFile && threadsMade && dataAlive && running && plotFile == Some(chosen)
    }

    /** Lines 147-152, once the averaging has been read. */
    method OpenWith(chosen: string, existing: seq<string>, ave: int)
      modifies this
      ensures Opened(chosen, existing, ave) && fresh(data)
      ensures log == old(log) + OpeningNotices(chosen, ave)
      ensures events == old(events) + [DataTaking.StartServerThread, DataTaking.StartDataThread]
      ensures plotUpdates == old(plotUpdates)
      ensures Valid()
    {
      dialog := Fake(ave);
      log := log + OpeningNotices(chosen, ave);
      ActivateDataFile(chosen);
      data := new OpenFiles.OpenDataFile.Open(chosen, existing);
      StartDataThread();
    }

    /** make_new_file (lines 155-192) after the prompt's exec: on OK the
        start message is written, and the call activate_data_file() without
        its filename raises TypeError (line 190), so no file is made. */
    method MakeNewFile(prompt: NewDataPrompt.PromptDialog, now: Moment) returns (r: Option<PyError>)
      requires prompt.accepted ==> Typed(prompt.CurrentEntries())
      modifies this`dialog, this`log
      ensures dialog == Prompt(prompt.CurrentEntries())
      ensures prompt.accepted ==> log == old(log) + [StartMessage(now)] && r == Some(TypeError)
      ensures !prompt.accepted ==> log == old(log) && r.None?
    {
      dialog := Prompt(prompt.CurrentEntries());
      r := None;
      if prompt.accepted {
        log := log + [StartMessage(now)];
        r := Some(TypeError);
      }
    }

    /** One pass of take_data's inner loop (lines 224-230), when the data
        thread is alive and `running` is set: `point` is what
        take_data_point returns for the dialog's averaging, having written
        it as a row; it is written as a row once more and shown, and the
        plots are told to update when `livePlotting` is on.  A raising
        take_data_point ends the thread. */
    method Tick(round: nat -> Result<Averaging.Sample>, fmt: real -> string, livePlotting: bool)
      returns (point: Option<Result<seq<real>>>)
      requires Valid()
      modifies this, data
      ensures Valid()
      ensures point.None? <==> !old(dataAlive && running)
      ensures point.None? ==> unchanged(this) && (data != null ==> unchanged(data))
      ensures point.Some? ==> point.value == Averaging.Averaged(old(dialog.averagingEntry), round)
      ensures point.Some? ==>
        && data == old(data) && data.fullName == old(data.fullName)
        && running && activeFile && dialog == old(dialog) && events == old(events)
      ensures point.Some? && point.value.Fault? ==>
        !dataAlive && data.lines == old(data.lines) && log == old(log) && plotUpdates == old(plotUpdates)
      ensures point.Some? && point.value.Ok? ==>
        && dataAlive
        && data.lines == old(data.lines) + [RowLine(Nums(point.value.value, fmt)), RowLine(Nums(point.value.value, fmt))]
        && log == old(log) + [ListText(Nums(point.value.value, fmt))]
        && plotUpdates == old(plotUpdates) + (if livePlotting then 1 else 0)
    {
      if !(dataAlive && running) {
        return None;
      }
      var taken := data.TakeDataPoint(dialog.averagingEntry, round, fmt);
      point := Some(taken);
      Record(taken, fmt, livePlotting);
    }

    /** The rest of the pass once take_data_point has returned (lines
        226-230): a fault ends the thread; a point is written as a row once
        more and shown, and the plots are told to update when live
        plotting is on. */
    method Record(taken: Result<seq<real>>, fmt: real -> string, livePlotting: bool)
      requires data != null
      modifies this`dataAlive, this`log, this`plotUpdates, data
      ensures data.fullName == old(data.fullName)
      ensures taken.Fault? ==> !dataAlive && data.lines == old(data.lines) && log == old(log) && plotUpdates == old(plotUpdates)
      ensures taken.Ok? ==>
        && dataAlive == old(dataAlive)
        && data.lines == old(data.lines) + [RowLine(Nums(taken.value, fmt))]
        && log == old(log) + [ListText(Nums(taken.value, fmt))]
        && plotUpdates == old(plotUpdates) + (if livePlotting then 1 else 0)
    {
      if taken.Fault? {
        dataAlive := false;
        return;
      }
      var cells := Nums(taken.value, fmt);
      data.WriteRow(cells);
      log := log + [ListText(cells)];
      if livePlotting {
        plotUpdates := plotUpdates + 1;
      }
    }

    /** continue_data (lines 233-238) */
    method ContinueData()
      modifies this`running
      ensures running
    {
      running := true;
    }

    /** pause_data (lines 241-247) */
    method PauseData()
      modifies this`running, this`log
      ensures !running && log == old(log) + [PausedNotice]
    {
      running := false;
      log := log + [PausedNotice];
    }

    /** stop (lines 250-273), with `confirmed` the answer to the question:
        both flags are cleared, the data thread joined, the server sent the
        shutdown command and joined, the file and the dialog dropped.
        Before any file was activated the thread is None and its join
        raises AttributeError (line 256) after the flags are cleared. */
    method Stop(confirmed: bool) returns (r: Option<PyError>)
      requires Valid()
      modifies this
      ensures Valid()
      ensures !confirmed ==> unchanged(this) && r.None?
      ensures confirmed ==> !running && !activeFile && !dataAlive
      ensures confirmed && !old(threadsMade) ==>
        r == Some(AttributeError) && events == old(events) && log == old(log)
        && dialog == old(dialog) && data == old(data)
      ensures confirmed && old(threadsMade) ==>
        r.None? && events == old(events) + DataTaking.StopEvents && log == old(log) + [ClosingNotice]
        && data == null && dialog == NoDialog
      ensures plotFile == old(plotFile) && plotUpdates == old(plotUpdates) && threadsMade == old(threadsMade)
    {
      r := None;
      if !confirmed {
        return;
      }
      running := false;
      activeFile := false;
      if !threadsMade {
        return Some(AttributeError);
      }
      events := events + [DataTaking.JoinDataThread];
      dataAlive := false;
      events := events + [DataTaking.SendToServer(Server.ShutdownCommand)];
      events := events + [DataTaking.JoinServerThread];
      log := log + [ClosingNotice];
      data := null;
      dialog := NoDialog;
    }
  }

  // ------------------------------------------------------------ sessions

  /** A paused tab takes no point; once continued, its next tick averages
      as often as the opened file's comment line says. */
  method PauseThenContinue(chosen: string, existing: seq<string>, round: nat -> Result<Averaging.Sample>,
                           fmt: real -> string)
    returns (paused: Option<Result<seq<real>>>, resumed: Option<Result<seq<real>>>)
    requires chosen != ""
    ensures paused.None?
    ensures resumed == Some(Averaging.Averaged(AveragingOf(PlotLive.ReadLine(existing, 1)), round))
  {
    var tab := new DataTab();
    tab.OpenFile(chosen, existing);
    tab.PauseData();
    paused := tab.Tick(round, fmt, false);
    tab.ContinueData();
    resumed := tab.Tick(round, fmt, false);
  }

  /** A file made with 2 to 9 averages and opened again is taken with as
      many averages. */
  method ReopenNewFile(setup: string, sample: string, ave: nat, cal: string, note: string,
                       createdAt: string, rows: seq<string>, chosen: string)
    returns (dialog: Dialog)
    requires chosen != "" && 2 <= ave <= 9
    requires !Contains(AveragingPrefix(setup, sample) + NatToString(ave), AverageWord)
    ensures dialog == Fake(ave)
  {
    var lines := OpenFiles.Header(NewFileComment(setup, sample, ave, cal, note), createdAt) + rows;
    var tab := new DataTab();
    tab.OpenFile(chosen, lines);
    SmallAveragingRoundTrip(setup, sample, ave, cal, note, createdAt, rows);
    dialog := tab.dialog;
  }

  /** Stopping before any file was opened raises AttributeError. */
  method StopBeforeOpen() returns (r: Option<PyError>)
    ensures r == Some(AttributeError)
  {
    var tab := new DataTab();
    r := tab.Stop(true);
  }
}
