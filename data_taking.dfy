/** The data-taking script (data_taking_example.py): a manager that starts
    the relay server and the data thread, stops them in order, and reads
    commands typed at its prompt. */
module DataTaking {
  import opened Outcomes
  import opened Text
  import opened Gpib
  import LakeShore
  import Server
  import CsvFiles

  /** Manager.commands (lines 18-19): a command and what it does. */
  const Commands: seq<(string, string)> := [("stop", "end script"), ("T=[xx.x] K", "set temperature to [xx.x] Kelvin")]

  const Greeting: string := "Type 'help' to get info"

  /** The line "help" prints for one command (line 63). */
  function HelpLine(command: (string, string)): string {
    "Type '" + command.0 + "' to " + command.1
  }

  function HelpLines(commands: seq<(string, string)>): (lines: seq<string>)
    ensures |lines| == |commands| && forall i :: 0 <= i < |commands| ==> lines[i] == HelpLine(commands[i])
  {
    seq(|commands|, i requires 0 <= i < |commands| => HelpLine(commands[i]))
  }

  // ------------------------------------------------------------ the parser

  /** What a typed message asks for. */
  datatype Command =
    | ShowHelp
    | StopAll
    | SetTemperature(text: string, value: real)
    | BadTemperature
    | Unknown

  /** The text float() is given for a "T=" message (line 69): the upper-cased
      message without spaces, its second '='-field, leading K's removed. */
  function TemperatureText(message: string): string
    requires |message| >= 2 && message[..2] == "T="
  {
    var pieces := Split(Remove(Upper(message), ' '), "=");
    TemperatureFieldExists(message);
    LStrip(pieces[1], {'K'})
  }

  lemma TemperatureFieldExists(message: string)
    requires |message| >= 2 && message[..2] == "T="
    ensures |Split(Remove(Upper(message), ' '), "=")| >= 2
  {
    TemperatureField(message[2..]);
    assert message == "T=" + message[2..];
  }

  /** For "T=" followed by `rest`, the second field is everything of the
      upper-cased, space-free rest up to its first '='. */
  lemma TemperatureField(rest: string)
    ensures Split(Remove(Upper("T=" + rest), ' '), "=") == ["T"] + Split(Remove(Upper(rest), ' '), "=")
  {
    UpperConcat("T=", rest);
    assert Upper("T=") == "T=" by {
      assert Upper("T=")[0] == 'T' && Upper("T=")[1] == '=';
    }
    RemoveConcat("T=", Upper(rest), ' ');
    assert Remove("T=", ' ') == "T=";
    assert FreeOfSepHead("T", "=");
    SplitAfter("T", "=", Remove(Upper(rest), ' '));
    assert "T=" + Remove(Upper(rest), ' ') == "T" + "=" + Remove(Upper(rest), ' ');
  }

  /** Manager.parse's classification (lines 59-75): "help" and "stop" in any
      case, then the case-sensitive "T=" prefix with the temperature float()
      accepts or rejects, then anything else. */
  function Classify(message: string): (c: Command)
    ensures c == ShowHelp <==> Lower(message) == "help"
    ensures c == StopAll <==> Lower(message) == "stop"
    ensures (c.SetTemperature? || c == BadTemperature) <==>
      Lower(message) != "help" && Lower(message) != "stop" && |message| >= 2 && message[..2] == "T="
    ensures c.SetTemperature? ==> ParseFloat(c.text) == Some(c.value)
  {
    if Lower(message) == "help" then ShowHelp
    else if Lower(message) == "stop" then StopAll
    else if |message| >= 2 && message[..2] == "T=" then
      var text := TemperatureText(message);
      match ParseFloat(text)
      case Some(v) => SetTemperature(text, v)
      case None => BadTemperature
    else Unknown
  }

  /** A message starting with "T=" is a temperature command. */
  lemma TemperatureCommand(message: string)
    requires |message| >= 2 && message[..2] == "T="
    ensures Classify(message) == match ParseFloat(TemperatureText(message))
      case Some(v) => SetTemperature(TemperatureText(message), v)
      case None => BadTemperature
  {
    assert Lower(message)[0] == 't';
    assert "help"[0] == 'h' && "stop"[0] == 's';
  }

  /** The prefix test is case-sensitive: "t=…" is no temperature command. */
  lemma LowerCasePrefixUnknown(rest: string)
    ensures Classify("t=" + rest) == Unknown
  {
    var m := "t=" + rest;
    assert Lower(m)[0] == 't' && Lower(m)[1] == '=';
    assert m[..2] == "t=";
  }

  /** Without a further '=', the temperature is the upper-cased, space-free
      rest with its leading K's removed. */
  lemma TemperatureOfRest(rest: string)
    requires '=' !in rest
    ensures TemperatureText("T=" + rest) == LStrip(Remove(Upper(rest), ' '), {'K'})
  {
    TemperatureField(rest);
    var x := Remove(Upper(rest), ' ');
    assert '=' !in Upper(rest) by {
      forall i | 0 <= i < |rest| ensures Upper(rest)[i] != '=' {
        assert rest[i] != '=';
      }
    }
    RemoveSubset(Upper(rest), ' ');
    assert FreeOfSepHead(x, "=");
    SplitWhole(x, "=");
    assert ("T=" + rest)[..2] == "T=";
  }

  /** Remove only drops characters. */
  lemma {:induction false} RemoveSubset(s: string, c: char)
    ensures forall x :: x in Remove(s, c) ==> x in s
    decreases |s|
  {
    if s != [] {
      RemoveSubset(s[1..], c);
    }
  }

  /** A whole number after "T=" sets that temperature. */
  lemma WholeTemperatureAccepted(n: nat)
    ensures Classify("T=" + NatToString(n)) == SetTemperature(NatToString(n), n as real)
  {
    var m := "T=" + NatToString(n);
    DigitsTemperatureText(NatToString(n));
    ParseFloatNat(n);
    assert m[..2] == "T=";
    TemperatureCommand(m);
  }

  /** Digits after "T=" are the temperature text as they stand. */
  lemma DigitsTemperatureText(ds: string)
    requires |ds| >= 1 && AllDigits(ds)
    ensures TemperatureText("T=" + ds) == ds
  {
    forall i | 0 <= i < |ds| ensures ds[i] != '=' && ds[i] != ' ' && ds[i] != 'K' {
      assert IsDigit(ds[i]);
    }
    TemperatureOfRest(ds);
    UpperDigits(ds);
    assert Remove(ds, ' ') == ds;
    LStripKeeps(ds, {'K'});
  }

  lemma UpperDigits(ds: string)
    requires AllDigits(ds)
    ensures Upper(ds) == ds
  {
  }

  /** A trailing unit, as in the help text's own "T=[xx.x] K", survives into
      the text float() is given, so the command is rejected. */
  lemma TrailingUnitRejected(x: string)
    requires '=' !in x
    ensures Classify("T=" + x + " K") == BadTemperature
  {
    var m := "T=" + x + " K";
    assert |m| >= 2 && m[..2] == "T=";
    assert ParseFloat(TemperatureText(m)).None? by {
      UnitText(x);
      KEndRejected(Remove(Upper(x), ' '));
    }
    TemperatureCommand(m);
  }

  lemma UnitText(x: string)
    requires '=' !in x
    ensures TemperatureText("T=" + x + " K") == LStrip(Remove(Upper(x), ' ') + "K", {'K'})
  {
    var rest := x + " K";
    assert "T=" + x + " K" == "T=" + rest;
    assert TemperatureText("T=" + rest) == LStrip(Remove(Upper(rest), ' '), {'K'}) by {
      assert '=' !in rest;
      TemperatureOfRest(rest);
    }
    UnitRemoved(x);
  }

  /** Upper-cased and without spaces, x + " K" is x's own such text and a K. */
  lemma UnitRemoved(x: string)
    ensures Remove(Upper(x + " K"), ' ') == Remove(Upper(x), ' ') + "K"
  {
    UpperConcat(x, " K");
    assert Upper(" K") == " K" by {
      assert Upper(" K")[0] == ' ' && Upper(" K")[1] == 'K';
    }
    RemoveConcat(Upper(x), " K", ' ');
    assert Remove(" K", ' ') == "K";
  }

  /** float() rejects what is left of a text ending in K once its leading
      K's are removed: either nothing or a text still ending in K. */
  lemma KEndRejected(y: string)
    ensures ParseFloat(LStrip(y + "K", {'K'})).None?
  {
    var t := LStrip(y + "K", {'K'});
    if t == [] {
      ParseFloatEmpty();
    } else {
      assert t[|t| - 1] == 'K';
      ParseFloatRejectsLetterEnd(t);
    }
  }

  /** The help text's own example, "T=[xx.x] K", typed literally is an
      invalid temperature. */
  lemma HelpExampleRejected()
    ensures Classify(Commands[1].0) == BadTemperature
  {
    var x := "[xx.x]";
    assert "T=" + x + " K" == Commands[1].0;
    assert '=' !in x;
    TrailingUnitRejected(x);
  }

  // ------------------------------------------------------------ the manager

  /** The thread and server operations start and stop perform, in order. */
  datatype Event =
    | StartServerThread
    | StartDataThread
    | JoinDataThread
    | SendToServer(message: string)
    | JoinServerThread

  /** What stop does after clearing the flag (lines 49-51). */
  const StopEvents: seq<Event> := [JoinDataThread, SendToServer(Server.ShutdownCommand), JoinServerThread]

  const ExitNotice: string := "Exiting Program"
  const InvalidTemperatureNotice: string := "Invalid temperature value"
  const InvalidCommandNotice: string := "Invalid command. Try 'help'"

  function SetpointNotice(value: real, fmt: real -> string): string {
    "Set temperature set-point to " + fmt(value)
  }

  /** The manager of the script: `running` is its data file's flag, `events`
      the thread operations so far, `printed` the console output and `sent`
      the temperature controller's commands. */
  class Manager {
    var running: bool
    var events: seq<Event>
    var printed: seq<string>
    var sent: seq<Op>

    /** The state lines 28-38 build, with the data file not yet running. */
    constructor()
      ensures !running && events == [] && printed == [Greeting] && sent == []
    {
      running := false;
      events := [];
      printed := [Greeting];
      sent := [];
    }

    /** start (lines 40-44): the server before the data taking. */
    method Start()
      modifies this
      ensures events == old(events) + [StartServerThread, StartDataThread]
      ensures running == old(running) && printed == old(printed) && sent == old(sent)
    {
      events := events + [StartServerThread];
      events := events + [StartDataThread];
    }

    /** stop (lines 46-51): the flag is cleared before the data thread is
        joined, and the shutdown is sent before the server thread is joined. */
    method Stop()
      modifies this
      ensures !running && events == old(events) + StopEvents
      ensures printed == old(printed) && sent == old(sent)
    {
      running := false;
      events := events + [JoinDataThread];
      events := events + [SendToServer(Server.ShutdownCommand)];
      events := events + [JoinServerThread];
    }

    /** parse (lines 59-75); `fmt` renders a float as str() does.  The
        setpoint is written for loop 1. */
    method Parse(message: string, fmt: real -> string)
      modifies this
      ensures Classify(message) == ShowHelp ==> printed == old(printed) + HelpLines(Commands) && Unchanged(old(running), old(events), old(sent))
      ensures Classify(message) == StopAll ==>
        !running && events == old(events) + StopEvents && printed == old(printed) + [ExitNotice] && sent == old(sent)
      ensures Classify(message).SetTemperature? ==>
        var v := Classify(message).value;
        sent == old(sent) + [WriteOp("SETP 1, " + fmt(v))] && printed == old(printed) + [SetpointNotice(v, fmt)]
        && running == old(running) && events == old(events)
      ensures Classify(message) == BadTemperature ==>
        printed == old(printed) + [InvalidTemperatureNotice] && Unchanged(old(running), old(events), old(sent))
      ensures Classify(message) == Unknown ==>
        printed == old(printed) + [InvalidCommandNotice] && Unchanged(old(running), old(events), old(sent))
    {
      if Lower(message) == "help" {
        PrintHelp();
      } else if Lower(message) == "stop" {
        StopAndSay();
      } else if |message| >= 2 && message[..2] == "T=" {
        TemperatureCommand(message);
        SetTemperatureFrom(message, fmt);
      } else {
        printed := printed + [InvalidCommandNotice];
      }
    }

    /** Lines 64-66 */
    method StopAndSay()
      modifies this
      ensures !running && events == old(events) + StopEvents && printed == old(printed) + [ExitNotice] && sent == old(sent)
    {
      Stop();
      printed := printed + [ExitNotice];
    }

    /** Lines 62-63: one line per command. */
    method PrintHelp()
      modifies this`printed
      ensures printed == old(printed) + HelpLines(Commands)
    {
      var i := 0;
      while i < |Commands|
        invariant 0 <= i <= |Commands|
        invariant printed == old(printed) + HelpLines(Commands[..i])
      {
        printed := printed + [HelpLine(Commands[i])];
        assert HelpLines(Commands[..i + 1]) == HelpLines(Commands[..i]) + [HelpLine(Commands[i])];
        i := i + 1;
      }
      assert Commands[..i] == Commands;
    }

    /** Lines 68-73: the setpoint is written only for a temperature float()
        accepts. */
    method SetTemperatureFrom(message: string, fmt: real -> string)
      requires |message| >= 2 && message[..2] == "T="
      modifies this`printed, this`sent
      ensures var t := ParseFloat(TemperatureText(message));
        if t.Some? then
          sent == old(sent) + [WriteOp("SETP 1, " + fmt(t.value))] && printed == old(printed) + [SetpointNotice(t.value, fmt)]
        else
          sent == old(sent) && printed == old(printed) + [InvalidTemperatureNotice]
    {
      var text := TemperatureText(message);
      var temperature := ParseFloat(text);
      if temperature.Some? {
        var op := LakeShore.SetSetpoint(1, text, fmt);
        SetpointForLoopOne(text, fmt);
        sent := sent + [op.value];
        printed := printed + [SetpointNotice(temperature.value, fmt)];
      } else {
        printed := printed + [InvalidTemperatureNotice];
      }
    }

    predicate Unchanged(running0: bool, events0: seq<Event>, sent0: seq<Op>)
      reads this
    {
      running == running0 && events == events0 && sent == sent0
    }

    /** wait_for_input (lines 53-57) given the typed message: it is parsed
        and handed back; after "stop" the manager is stopped. */
    method WaitForInput(typed: string, fmt: real -> string) returns (msg: string)
      modifies this
      ensures msg == typed
      ensures Lower(msg) == "stop" ==> !running && |events| >= 3 && events[|events| - 3..] == StopEvents
    {
      ghost var before := events;
      Parse(typed, fmt);
      if Lower(typed) == "stop" {
        assert Classify(typed) == StopAll;
        StopEventsLast(before, events);
      }
      msg := typed;
    }

    /** The script's main loop (lines 90-93, each message read by wait_for_input, lines
        53-57): messages are parsed one by one until one reads "stop" in any
        case; running out of input raises EOFError.  `consumed` counts the
        messages read. */
    method Converse(inputs: seq<string>, fmt: real -> string) returns (consumed: nat, r: Option<PyError>)
      modifies this
      ensures consumed <= |inputs|
      ensures forall j :: 0 <= j < consumed - 1 ==> Lower(inputs[j]) != "stop"
      ensures r.None? ==>
        consumed >= 1 && Lower(inputs[consumed - 1]) == "stop" && !running && |events| >= 3 && events[|events| - 3..] == StopEvents
      ensures r.Some? ==> r == Some(EOFError) && consumed == |inputs| && forall j :: 0 <= j < |inputs| ==> Lower(inputs[j]) != "stop"
    {
      consumed := 0;
      while true
        invariant consumed <= |inputs|
        invariant forall j :: 0 <= j < consumed ==> Lower(inputs[j]) != "stop"
        decreases |inputs| - consumed
      {
        if consumed == |inputs| {
          return consumed, Some(EOFError);
        }
        var msg := WaitForInput(inputs[consumed], fmt);
        consumed := consumed + 1;
        if Lower(msg) == "stop" {
          return consumed, None;
        }
      }
    }
  }

  /** After stop the last three events are stop's own. */
  lemma StopEventsLast(before: seq<Event>, after: seq<Event>)
    requires after == before + StopEvents
    ensures |after| >= 3 && after[|after| - 3..] == StopEvents
  {
    assert after[|before|..] == StopEvents;
  }

  /** set_setpoint for loop 1 of a value float() accepts. */
  lemma SetpointForLoopOne(text: string, fmt: real -> string)
    requires ParseFloat(text).Some?
    ensures LakeShore.SetSetpoint(1, text, fmt) == Ok(WriteOp("SETP 1, " + fmt(ParseFloat(text).value)))
  {
    assert LakeShore.ValidLoop(1);
    assert NatToString(1) == "1";
    var f := fmt(ParseFloat(text).value);
    assert "SETP " + NatToString(1) + ", " + f == "SETP 1, " + f;
  }

  /** The default file name (line 86); `seconds` is int(time.time()). */
  function DefaultName(seconds: nat): string {
    "data_example_" + NatToString(seconds) + ".csv"
  }

  /** The first argument names the file, else the default (lines 83-86). */
  function ScriptFileName(argv: seq<string>, seconds: nat): (name: string)
    ensures |argv| > 1 ==> name == argv[1]
    ensures |argv| <= 1 ==> name == DefaultName(seconds)
  {
    if |argv| > 1 then argv[1] else DefaultName(seconds)
  }

  /** The default name survives the data file's name normalisation. */
  lemma DefaultNameNormal(seconds: nat)
    ensures CsvFiles.NormalizeName(DefaultName(seconds)) == DefaultName(seconds)
  {
    var ds := NatToString(seconds);
    DigitStem(ds);
    assert DefaultName(seconds) == "data_example_" + ds + ".csv";
    CsvFiles.NormalStemTail("data_example_" + ds, ".csv");
  }

  /** The default stem, for any digits, has no '.' and ends in a digit. */
  lemma DigitStem(ds: string)
    requires |ds| >= 1 && AllDigits(ds)
    ensures var stem := "data_example_" + ds;
      '.' !in stem && stem[|stem| - 1] !in CsvFiles.CsvChars
  {
    var stem := "data_example_" + ds;
    assert stem[|stem| - 1] == ds[|ds| - 1];
    assert IsDigit(ds[|ds| - 1]);
    forall i | 0 <= i < |stem| ensures stem[i] != '.' {
      if i >= 13 {
        assert stem[i] == ds[i - 13];
        assert IsDigit(ds[i - 13]);
      }
    }
  }
}
