/** The "Measurement Details" dialog (gui/new_data_file_prompt.py): it
    pre-fills its form from the most recent preset file, and on OK stores
    the form's entries and saves them as the next preset.  The preset file
    is the YAML mapping it holds; widgets are the values they display. */
module NewDataPrompt {
  import opened Outcomes
  import opened Text

  /** A scalar read from a preset file. */
  datatype Value = Str(text: string) | Int(number: int) | Null

  /** Python truthiness of a preset value. */
  predicate Truthy(v: Value) {
    match v
    case Str(t) => t != ""
    case Int(n) => n != 0
    case Null => false
  }

  const SetupOptions: seq<string> := ["Main", "Secondary"]
  const Placeholder: string := "Click to find file"
  const PresetKeys: set<string> := {"setup", "sample", "cal", "ave", "comment"}
  /** The largest value a QSpinBox accepts by default (its range is 0..99). */
  const SpinMax: int := 99

  /** The five `*_entry` attributes. */
  datatype Entries = Entries(setup: Value, sample: Value, cal: Value, ave: Value, comment: Value)

  const Defaults: Entries := Entries(Str("Main"), Str(""), Str(Placeholder), Int(1), Str(""))

  /** What the form widgets show: the setup box's current index, the three
      texts and the spin box value. */
  datatype Form = Form(setupIndex: int, sample: string, cal: string, ave: int, comment: string)

  /** A form a user can submit: a setup is selected and the spin box is in range. */
  predicate Shown(f: Form) {
    0 <= f.setupIndex < |SetupOptions| && 0 <= f.ave <= SpinMax
  }

  /** Lines 46-60: with all five keys present the entries are the preset's,
      a falsy calibration becoming the placeholder; if any key is missing
      the KeyError handler puts all five defaults in place. */
  function PresetEntries(preset: map<string, Value>): (e: Entries)
    ensures !(PresetKeys <= preset.Keys) ==> e == Defaults
    ensures PresetKeys <= preset.Keys ==>
      e.setup == preset["setup"] && e.sample == preset["sample"] && e.ave == preset["ave"]
      && e.comment == preset["comment"]
    ensures PresetKeys <= preset.Keys && Truthy(preset["cal"]) ==> e.cal == preset["cal"]
    ensures Truthy(e.cal)
  {
    if PresetKeys <= preset.Keys then
      var cal := preset["cal"];
      Entries(preset["setup"], preset["sample"], if Truthy(cal) then cal else Str(Placeholder),
              preset["ave"], preset["comment"])
    else Defaults
  }

  /** list.index: the position of `v` among the options, else ValueError. */
  function OptionIndex(options: seq<string>, v: Value): (r: Result<nat>)
    ensures r.Ok? ==> r.value < |options| && v == Str(options[r.value])
    ensures r.Ok? ==> forall j :: 0 <= j < r.value ==> v != Str(options[j])
    ensures r.Fault? ==> r.error == ValueError && forall j :: 0 <= j < |options| ==> v != Str(options[j])
  {
    if options == [] then Fault(ValueError)
    else if v == Str(options[0]) then Ok(0)
    else
      var k :- OptionIndex(options[1..], v);
      Ok(k + 1)
  }

  /** setText takes a string only. */
  function TextOf(v: Value): (r: Result<string>)
    ensures r.Ok? <==> v.Str?
    ensures r.Ok? ==> r.value == v.text
    ensures r.Fault? ==> r.error == TypeError
  {
    if v.Str? then Ok(v.text) else Fault(TypeError)
  }

  /** QSpinBox.setValue: an integer, pulled into the box's range. */
  function SpinValue(v: Value): (r: Result<int>)
    ensures r.Ok? <==> v.Int?
    ensures r.Ok? ==> 0 <= r.value <= SpinMax
    ensures r.Ok? && 0 <= v.number <= SpinMax ==> r.value == v.number
    ensures r.Fault? ==> r.error == TypeError
  {
    if !v.Int? then Fault(TypeError)
    else if v.number < 0 then Ok(0)
    else if v.number > SpinMax then Ok(SpinMax)
    else Ok(v.number)
  }

  /** Lines 66-77: the form filled from the entries, in the source's order;
      a setup that is not an option raises ValueError at `index`, and a
      value of the wrong type TypeError at its setter. */
  function FormOf(e: Entries): (r: Result<Form>)
    ensures r.Ok? ==> Shown(r.value)
    ensures r.Ok? <==> (exists k :: 0 <= k < |SetupOptions| && e.setup == Str(SetupOptions[k]))
                       && e.sample.Str? && e.cal.Str? && e.ave.Int? && e.comment.Str?
    ensures r.Ok? ==> e.setup == Str(SetupOptions[r.value.setupIndex])
                      && r.value.sample == e.sample.text && r.value.cal == e.cal.text
                      && r.value.comment == e.comment.text
  {
    var index :- OptionIndex(SetupOptions, e.setup);
    var sample :- TextOf(e.sample);
    var cal :- TextOf(e.cal);
    var ave :- SpinValue(e.ave);
    var comment :- TextOf(e.comment);
    Ok(Form(index, sample, cal, ave, comment))
  }

  /** Lines 119-130: the entries read back from a submitted form; a
      calibration text without the path separator os.sep (the POSIX '/') is
      stored blank. */
  function AcceptedEntries(f: Form): (e: Entries)
    requires Shown(f)
    ensures e.setup.Str? && e.setup.text in SetupOptions
    ensures e.cal == Str(if '/' in f.cal then f.cal else "")
    ensures e.sample == Str(f.sample) && e.ave == Int(f.ave) && e.comment == Str(f.comment)
  {
    Entries(Str(SetupOptions[f.setupIndex]), Str(f.sample),
            Str(if '/' in f.cal then f.cal else ""), Int(f.ave), Str(f.comment))
  }

  /** Lines 133-137: the preset saved for next time. */
  function SavedPreset(e: Entries): (p: map<string, Value>)
    ensures p.Keys == PresetKeys
  {
    map["setup" := e.setup, "sample" := e.sample, "cal" := e.cal, "ave" := e.ave, "comment" := e.comment]
  }

  /** The moment OK is pressed, as far as the preset name uses it. */
  datatype Stamp = Stamp(year: nat, month: nat, day: nat, hour: nat)

  /** A datetime's fields: years run to 9999. */
  predicate ValidStamp(d: Stamp) {
    1 <= d.year <= 9999 && 1 <= d.month <= 12 && 1 <= d.day <= 31 && d.hour < 24
  }

  /** Line 138: "presets{YYYY}-{MM}-{DD}_{HH}.yml" */
  function PresetFileName(d: Stamp): string {
    "presets" + PadNat(d.year, 4) + "-" + PadNat(d.month, 2) + "-" + PadNat(d.day, 2) + "_"
    + PadNat(d.hour, 2) + ".yml"
  }

  /** Line 139 */
  function PresetPath(basePath: string, d: Stamp): string {
    PathJoin(PathJoin(basePath, "presets"), PresetFileName(d))
  }

  class PromptDialog {
    var basePath: string
    var date: Option<Stamp>
    var setupEntry: Value
    var sampleEntry: Value
    var calEntry: Value
    var aveEntry: Value
    var commentEntry: Value
    var form: Form
    var accepted: bool

    function CurrentEntries(): Entries
      reads this
    {
      Entries(setupEntry, sampleEntry, calEntry, aveEntry, commentEntry)
    }

    /** Lines 14-60, with `preset` the mapping of the newest preset file
        (empty when there is none): the entries are taken from it or
        defaulted; the widgets start empty. */
    constructor(basePath: string, preset: map<string, Value>)
      ensures this.basePath == basePath && date.None? && !accepted
      ensures CurrentEntries() == PresetEntries(preset)
      ensures form == Form(-1, "", "", 0, "")
    {
      this.basePath := basePath;
      date := None;
      accepted := false;
      form := Form(-1, "", "", 0, "");
      if PresetKeys <= preset.Keys {
        setupEntry := preset["setup"];
        sampleEntry := preset["sample"];
        var cal := preset["cal"];
        if !Truthy(cal) {
          cal := Str(Placeholder);
        }
        calEntry := cal;
        aveEntry := preset["ave"];
        commentEntry := preset["comment"];
      } else {
        setupEntry := Str("Main");
        sampleEntry := Str("");
        calEntry := Str(Placeholder);
        aveEntry := Int(1);
        commentEntry := Str("");
      }
    }

    /** Lines 66-77: the widgets take the entries' values. */
    method FillForm() returns (r: Option<PyError>)
      modifies this`form
      ensures r.None? <==> FormOf(CurrentEntries()).Ok?
      ensures r.None? ==> form == FormOf(CurrentEntries()).value && Shown(form)
      ensures r.Some? ==> r.value == FormOf(CurrentEntries()).error && form == old(form)
    {
      var filled := FormOf(CurrentEntries());
      if filled.Fault? {
        return Some(filled.error);
      }
      form := filled.value;
      r := None;
    }

    /** find_calibration (lines 103-110): the button shows the chosen file
        name, or "" when the file dialog is cancelled. */
    method FindCalibration(chosen: string)
      modifies this`form
      ensures form == old(form).(cal := chosen)
    {
      form := form.(cal := chosen);
    }

    /** accept_click (lines 114-143) at moment `now`: the entries are read
        from the form, and the preset `saved` is written to `path`. */
    method Accept(now: Stamp) returns (path: string, saved: map<string, Value>)
      requires Shown(form)
      modifies this`date, this`setupEntry, this`sampleEntry, this`calEntry, this`aveEntry,
               this`commentEntry, this`accepted
      ensures date == Some(now) && accepted
      ensures CurrentEntries() == AcceptedEntries(form)
      ensures setupEntry.Str? && setupEntry.text in SetupOptions
      ensures saved == SavedPreset(CurrentEntries())
      ensures path == PresetPath(basePath, now)
    {
      date := Some(now);
      setupEntry := Str(SetupOptions[form.setupIndex]);
      sampleEntry := Str(form.sample);
      calEntry := Str(form.cal);
      if '/' !in calEntry.text {
        calEntry := Str("");
      }
      aveEntry := Int(form.ave);
      commentEntry := Str(form.comment);
      saved := map["setup" := setupEntry, "sample" := sampleEntry, "cal" := calEntry,
                   "ave" := aveEntry, "comment" := commentEntry];
      path := PathJoin(PathJoin(basePath, "presets"), PresetFileName(now));
      accepted := true;
    }
  }

  // ------------------------------------------------------------ properties

  /** Without a usable preset the form shows "Main", empty texts, the
      placeholder and one average. */
  lemma DefaultForm()
    ensures FormOf(Defaults) == Ok(Form(0, "", Placeholder, 1, ""))
  {
  }

  /** The calibration text a reopened dialog shows for a submitted one. */
  function ReopenedCal(cal: string): string {
    if '/' in cal then cal else Placeholder
  }

  /** Saving a submitted form and loading the preset again gives back its
      entries, except that a blanked calibration comes back as the
      placeholder. */
  lemma SaveLoadEntries(f: Form)
    requires Shown(f)
    ensures PresetEntries(SavedPreset(AcceptedEntries(f)))
            == AcceptedEntries(f).(cal := Str(ReopenedCal(f.cal)))
  {
    var e := AcceptedEntries(f);
    var p := SavedPreset(e);
    assert p["cal"] == e.cal;
  }

  /** The next dialog opened after a submit shows the same form, except
      that a calibration text that is not a path shows the placeholder. */
  lemma ReopenAfterAccept(f: Form)
    requires Shown(f)
    ensures FormOf(PresetEntries(SavedPreset(AcceptedEntries(f))))
            == Ok(f.(cal := ReopenedCal(f.cal)))
  {
    SaveLoadEntries(f);
    var e := AcceptedEntries(f).(cal := Str(ReopenedCal(f.cal)));
    assert OptionIndex(SetupOptions, e.setup) == Ok(f.setupIndex as nat);
  }

  /** A calibration the user never chose (the button still reads the
      placeholder) is saved blank. */
  lemma PlaceholderSavedBlank(f: Form)
    requires Shown(f) && f.cal == Placeholder
    ensures AcceptedEntries(f).cal == Str("")
  {
    assert forall i :: 0 <= i < |Placeholder| ==> Placeholder[i] != '/';
  }

  // ----------------------------------------------------- preset file names

  lemma {:induction false} ZerosValue(k: nat, d: string)
    requires AllDigits(d)
    ensures AllDigits(Repeat('0', k) + d)
    ensures DigitsValue(Repeat('0', k) + d) == DigitsValue(d)
    decreases |d|
  {
    var z := Repeat('0', k);
    if d == [] {
      assert z + d == z;
      ZerosOnly(k);
    } else {
      ZerosValue(k, d[..|d| - 1]);
      assert (z + d)[..|z + d| - 1] == z + d[..|d| - 1];
    }
  }

  lemma {:induction false} ZerosOnly(k: nat)
    ensures DigitsValue(Repeat('0', k)) == 0
  {
    if k > 0 {
      ZerosOnly(k - 1);
      assert Repeat('0', k) == [] + ['0'] + Repeat('0', k - 1);
      ZerosFront(k);
    }
  }

  lemma {:induction false} ZerosFront(k: nat)
    requires k > 0
    ensures Repeat('0', k)[..k - 1] == Repeat('0', k - 1)
  {
  }

  /** A zero-padded number reads back as the number. */
  lemma PadNatValue(n: nat, w: nat)
    ensures DigitsValue(PadNat(n, w)) == n
  {
    var d := NatToString(n);
    NatToStringValue(n);
    if |d| < w {
      ZerosValue(w - |d|, d);
    } else {
      assert PadNat(n, w) == d;
    }
  }

  lemma NatToStringShort(n: nat, w: nat)
    requires 1 <= w && n < Pow10(w)
    ensures |NatToString(n)| <= w
    decreases w
  {
    if n >= 10 {
      NatToStringShort(n / 10, w - 1);
    }
  }

  /** The layout of "presets{y}-{m}-{d}_{h}.yml" for fields of fixed width. */
  lemma NameLayout(y: string, m: string, dd: string, h: string)
    requires |y| == 4 && |m| == 2 && |dd| == 2 && |h| == 2
    ensures var name := "presets" + y + "-" + m + "-" + dd + "_" + h + ".yml";
      |name| == 24 && name[..7] == "presets" && name[20..] == ".yml"
      && name[11] == '-' && name[14] == '-' && name[17] == '_'
      && name[7..11] == y && name[12..14] == m && name[15..17] == dd && name[18..20] == h
  {
  }

  /** A number below 10^w is padded to exactly w digits that read back as it. */
  lemma PadNatExact(n: nat, w: nat)
    requires 1 <= w && n < Pow10(w)
    ensures |PadNat(n, w)| == w && DigitsValue(PadNat(n, w)) == n
  {
    NatToStringShort(n, w);
    PadNatValue(n, w);
  }

  /** The preset name of a valid moment has fixed fields: "presets", the
      four-digit year, the month, day and hour in two digits each, ".yml";
      each field reads back as the moment's value. */
  lemma PresetFileNameFields(d: Stamp)
    requires ValidStamp(d)
    ensures var name := PresetFileName(d);
      |name| == 24 && name[..7] == "presets" && name[20..] == ".yml"
      && name[11] == '-' && name[14] == '-' && name[17] == '_'
      && AllDigits(name[7..11]) && DigitsValue(name[7..11]) == d.year
      && AllDigits(name[12..14]) && DigitsValue(name[12..14]) == d.month
      && AllDigits(name[15..17]) && DigitsValue(name[15..17]) == d.day
      && AllDigits(name[18..20]) && DigitsValue(name[18..20]) == d.hour
  {
    assert Pow10(2) == 100 && Pow10(4) == 10000 by {
      assert Pow10(0) == 1;
      assert Pow10(1) == 10;
      assert Pow10(3) == 1000;
    }
    PadNatExact(d.year, 4);
    PadNatExact(d.month, 2);
    PadNatExact(d.day, 2);
    PadNatExact(d.hour, 2);
    NameLayout(PadNat(d.year, 4), PadNat(d.month, 2), PadNat(d.day, 2), PadNat(d.hour, 2));
  }

  /** Two moments share a preset file exactly when they fall in the same hour. */
  lemma PresetFileNameInjective(d: Stamp, e: Stamp)
    requires ValidStamp(d) && ValidStamp(e)
    ensures PresetFileName(d) == PresetFileName(e) <==> d == e
  {
    PresetFileNameFields(d);
    PresetFileNameFields(e);
  }
}
