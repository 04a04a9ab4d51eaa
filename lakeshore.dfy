/** The LakeShore temperature controller (GPIB/lakeshore.py).  `Client`
    talks to the controller through the relay server and `GPIB` talks to it
    on the bus; their methods are the same code, so one model covers both.
    Arguments are checked before any device operation; commands are exact
    texts; replies are decoded from comma-separated fields.  A device is a
    function from the operation to the text it answers, and str() of a
    float is the parameter `fmt`. */
module LakeShore {
  import opened Outcomes
  import opened Text
  import opened Gpib
  import FakeDevices

  const DefaultInstrument: int := 331
  const DefaultPort: nat := 62538

  // ------------------------------------------------------------ arguments

  function LoopMessage(loop: int): string {
    "invalid loop: " + IntToString(loop)
  }

  predicate ValidLoop(loop: int) {
    loop == 1 || loop == 2
  }

  /** The loop check every loop-taking method starts with. */
  function CheckLoop(loop: int): (r: Result<string>)
    ensures r.Ok? <==> ValidLoop(loop)
    ensures r.Ok? ==> r.value == NatToString(loop as nat) && |r.value| == 1
    ensures r.Fault? ==> r.error == InvalidArgument(LoopMessage(loop))
  {
    if ValidLoop(loop) then Ok(NatToString(loop as nat)) else Fault(InvalidArgument(LoopMessage(loop)))
  }

  // ---------------------------------------------------------- decoding

  /** float(reply) */
  function DecodeFloat(reply: string): (r: Result<real>)
    ensures r.Ok? <==> ParseFloat(reply).Some?
    ensures r.Ok? ==> r.value == ParseFloat(reply).value
    ensures r.Fault? ==> r.error == ValueError
  {
    match ParseFloat(reply)
    case None => Fault(ValueError)
    case Some(x) => Ok(x)
  }

  /** [float(e) for e in fields]: fails at the first field float() rejects. */
  function DecodeFloats(fields: seq<string>): (r: Result<seq<real>>)
    ensures r.Ok? <==> forall i :: 0 <= i < |fields| ==> ParseFloat(fields[i]).Some?
    ensures r.Ok? ==> |r.value| == |fields|
    ensures r.Ok? ==> forall i :: 0 <= i < |fields| ==> r.value[i] == ParseFloat(fields[i]).value
    ensures r.Fault? ==> r.error == ValueError
    decreases |fields|
  {
    if fields == [] then Ok([])
    else
      match ParseFloat(fields[0])
      case None => Fault(ValueError)
      case Some(x) =>
        match DecodeFloats(fields[1..])
        case Fault(e) => Fault(e)
        case Ok(xs) => Ok([x] + xs)
  }

  // ------------------------------------------------------------- reads

  /** read_heater_output (lines 30-32) */
  function ReadHeaterOutput(device: Op -> string): (r: Result<real>)
    ensures r == DecodeFloat(device(QueryOp("HTR?")))
  {
    DecodeFloat(device(QueryOp("HTR?")))
  }

  /** read_pid (lines 38-44): the reply's comma-separated fields, each as a
      float, in order. */
  function ReadPid(loop: int, device: Op -> string): (r: Result<seq<real>>)
    ensures !ValidLoop(loop) ==> r == Fault(InvalidArgument(LoopMessage(loop)))
    ensures ValidLoop(loop) ==>
      r == DecodeFloats(Split(device(QueryOp("PID? " + NatToString(loop as nat))), ","))
  {
    var l :- CheckLoop(loop);
    DecodeFloats(Split(device(QueryOp("PID? " + l)), ","))
  }

  /** read_ramp_speed (lines 46-50): field 1 of the reply; a reply without
      a comma has no field 1. */
  function ReadRampSpeed(loop: int, device: Op -> string): (r: Result<real>)
    ensures !ValidLoop(loop) ==> r == Fault(InvalidArgument(LoopMessage(loop)))
    ensures ValidLoop(loop) ==>
      var fields := Split(device(QueryOp("RAMP? " + NatToString(loop as nat))), ",");
      r == if |fields| < 2 then Fault(IndexError) else DecodeFloat(fields[1])
  {
    var l :- CheckLoop(loop);
    var fields := Split(device(QueryOp("RAMP? " + l)), ",");
    if |fields| < 2 then Fault(IndexError) else DecodeFloat(fields[1])
  }

  /** read_ramp_status (lines 52-56): bool(int(reply)). */
  function ReadRampStatus(loop: int, device: Op -> string): (r: Result<bool>)
    ensures !ValidLoop(loop) ==> r == Fault(InvalidArgument(LoopMessage(loop)))
    ensures ValidLoop(loop) ==>
      var n := ParseInt(device(QueryOp("RAMPST? " + NatToString(loop as nat))));
      r == if n.None? then Fault(ValueError) else Ok(n.value != 0)
  {
    var l :- CheckLoop(loop);
    match ParseInt(device(QueryOp("RAMPST? " + l)))
    case None => Fault(ValueError)
    case Some(n) => Ok(n != 0)
  }

  /** read_setpoint (lines 58-62) */
  function ReadSetpoint(loop: int, device: Op -> string): (r: Result<real>)
    ensures !ValidLoop(loop) ==> r == Fault(InvalidArgument(LoopMessage(loop)))
    ensures ValidLoop(loop) ==> r == DecodeFloat(device(QueryOp("SETP? " + NatToString(loop as nat))))
  {
    var l :- CheckLoop(loop);
    DecodeFloat(device(QueryOp("SETP? " + l)))
  }

  /** The query read_temperature sends (lines 64-75): channel and units
      upper-cased, the channel checked before the units. */
  function TemperatureRequest(channel: string, units: string): (r: Result<Op>)
    ensures Upper(channel) !in {"A", "B"} ==> r == Fault(InvalidArgument("Invalid channel: " + Upper(channel)))
    ensures Upper(channel) in {"A", "B"} && Upper(units) !in {"K", "C"} ==>
      r == Fault(InvalidArgument("Invalid units: " + Upper(units)))
    ensures r.Ok? <==> Upper(channel) in {"A", "B"} && Upper(units) in {"K", "C"}
    ensures r.Ok? ==> r.value == QueryOp(Upper(units) + "RDG? " + Upper(channel))
  {
    var c, u := Upper(channel), Upper(units);
    if c != "A" && c != "B" then Fault(InvalidArgument("Invalid channel: " + c))
    else if u != "K" && u != "C" then Fault(InvalidArgument("Invalid units: " + u))
    else Ok(QueryOp(u + "RDG? " + c))
  }

  function ReadTemperature(channel: string, units: string, device: Op -> string): (r: Result<real>)
    ensures TemperatureRequest(channel, units).Fault? ==> r.Fault? && r.error == TemperatureRequest(channel, units).error
    ensures TemperatureRequest(channel, units).Ok? ==> r == DecodeFloat(device(TemperatureRequest(channel, units).value))
  {
    var op :- TemperatureRequest(channel, units);
    DecodeFloat(device(op))
  }

  /** The default read, channel "a" in kelvin, is the temperature query
      the simulated controller answers with its reading. */
  lemma DefaultTemperatureQuery()
    ensures TemperatureRequest("A", "K") == Ok(QueryOp("KRDG? A"))
    ensures TemperatureRequest("a", "k") == Ok(QueryOp("KRDG? A"))
  {
    assert Upper("a") == "A" by { assert Upper("a")[0] == 'A'; }
    assert Upper("A") == "A" by { assert Upper("A")[0] == 'A'; }
    assert Upper("k") == "K" by { assert Upper("k")[0] == 'K'; }
    assert Upper("K") == "K" by { assert Upper("K")[0] == 'K'; }
    assert "K" + "RDG? " + "A" == "KRDG? A";
  }

  /** Argument checks come before any I/O: a bad loop, channel or unit
      gives the same fault whatever the device would have said. */
  lemma ChecksBeforeIO(loop: int, channel: string, units: string, d1: Op -> string, d2: Op -> string)
    ensures !ValidLoop(loop) ==>
      ReadPid(loop, d1) == ReadPid(loop, d2) &&
      ReadRampSpeed(loop, d1) == ReadRampSpeed(loop, d2) &&
      ReadRampStatus(loop, d1) == ReadRampStatus(loop, d2) &&
      ReadSetpoint(loop, d1) == ReadSetpoint(loop, d2)
    ensures TemperatureRequest(channel, units).Fault? ==>
      ReadTemperature(channel, units, d1) == ReadTemperature(channel, units, d2)
  {
  }

  // ------------------------------------------------------------- writes

  /** set_ramp_speed (lines 106-110); `rate` is the text of the rate. */
  function SetRampSpeed(loop: int, rate: string): (r: Result<Op>)
    ensures !ValidLoop(loop) ==> r == Fault(InvalidArgument(LoopMessage(loop)))
    ensures ValidLoop(loop) ==> r == Ok(WriteOp("RAMP " + NatToString(loop as nat) + ", 1, " + rate))
  {
    var l :- CheckLoop(loop);
    Ok(WriteOp("RAMP " + l + ", 1, " + rate))
  }

  /** set_setpoint (lines 112-118): float(value) first, so a value float()
      rejects writes nothing. */
  function SetSetpoint(loop: int, value: string, fmt: real -> string): (r: Result<Op>)
    ensures !ValidLoop(loop) ==> r == Fault(InvalidArgument(LoopMessage(loop)))
    ensures ValidLoop(loop) && ParseFloat(value).None? ==> r == Fault(ValueError)
    ensures ValidLoop(loop) && ParseFloat(value).Some? ==>
      r == Ok(WriteOp("SETP " + NatToString(loop as nat) + ", " + fmt(ParseFloat(value).value)))
  {
    var l :- CheckLoop(loop);
    var v :- DecodeFloat(value);
    Ok(WriteOp("SETP " + l + ", " + fmt(v)))
  }

  function PidCommand(loop: string, p: string, i: string, d: string): string {
    "PID " + loop + ", " + p + ", " + i + ", " + d
  }

  // ------------------------------------------------------- heater ranges

  /** The heater powers in watts, indexed by the instrument's setting
      (lines 23-26). */
  function HeaterRanges(instNum: int): (ranges: seq<real>)
    ensures instNum == 340 ==> ranges == [0.0, 0.05, 0.5, 5.0, 50.0]
    ensures instNum != 340 ==> ranges == [0.0, 0.5, 5.0, 50.0]
  {
    if instNum == 340 then [0.0, 0.05, 0.5, 5.0, 50.0] else [0.0, 0.5, 5.0, 50.0]
  }

  predicate Ascending(a: seq<real>) {
    forall i, j :: 0 <= i < j < |a| ==> a[i] < a[j]
  }

  lemma HeaterRangesAscending(instNum: int)
    ensures Ascending(HeaterRanges(instNum))
    ensures HeaterRanges(instNum)[0] == 0.0 && HeaterRanges(instNum)[|HeaterRanges(instNum)| - 1] == 50.0
  {
  }

  /** read_heater_range (lines 34-36): the table entry at the integer the
      instrument replies with; negative replies count from the end, as
      numpy indexing does. */
  function ReadHeaterRange(ranges: seq<real>, device: Op -> string): (r: Result<real>)
    ensures r.Ok? ==> r.value in ranges
    ensures ParseInt(device(QueryOp("RANGE?"))).None? ==> r == Fault(ValueError)
    ensures ParseInt(device(QueryOp("RANGE?"))).Some? ==>
      var k := ParseInt(device(QueryOp("RANGE?"))).value;
      (r.Ok? <==> -|ranges| <= k < |ranges|) && (r.Fault? ==> r.error == IndexError)
  {
    match ParseInt(device(QueryOp("RANGE?")))
    case None => Fault(ValueError)
    case Some(k) =>
      match PyIndex(ranges, k)
      case None => Fault(IndexError)
      case Some(w) => Ok(w)
  }

  /** np.argmin: the first position holding the least value. */
  predicate IsFirstMin(a: seq<real>, m: nat) {
    m < |a| && (forall j :: 0 <= j < |a| ==> a[m] <= a[j]) && (forall j :: 0 <= j < m ==> a[j] > a[m])
  }

  /** np.argmin over a non-empty array, scanning left to right. */
  method ArgMin(a: seq<real>) returns (m: nat)
    requires |a| > 0
    ensures IsFirstMin(a, m)
  {
    m := 0;
    var j := 1;
    while j < |a|
      invariant 1 <= j <= |a| && m < j
      invariant forall k :: 0 <= k < j ==> a[m] <= a[k]
      invariant forall k :: 0 <= k < m ==> a[k] > a[m]
    {
      if a[j] < a[m] {
        m := j;
      }
      j := j + 1;
    }
  }

  function Shift(a: seq<real>, p: real): (b: seq<real>)
    ensures |b| == |a| && forall i :: 0 <= i < |a| ==> b[i] == a[i] - p
  {
    seq(|a|, i requires 0 <= i < |a| => a[i] - p)
  }

  /** Subtracting the same power from every entry moves no minimum. */
  lemma ArgMinShiftInvariant(a: seq<real>, p: real, m: nat)
    ensures IsFirstMin(Shift(a, p), m) <==> IsFirstMin(a, m)
  {
  }

  /** In an ascending table the first entry is the minimum. */
  lemma AscendingFirstMin(a: seq<real>)
    requires |a| > 0 && Ascending(a)
    ensures IsFirstMin(a, 0)
  {
  }

  /** set_heater_range (lines 77-87): `power` is the number given; the
      setting is argmin(ranges - |power|), refused only for the 50 W entry
      without override.  Returns the write it performs, if any. */
  method SetHeaterRange(ranges: seq<real>, power: real, override: bool) returns (w: Option<Op>)
    requires |ranges| > 0
    ensures exists m: nat :: (IsFirstMin(ranges, m) &&
      w == if ranges[m] == 50.0 && !override then None else Some(WriteOp("RANGE " + NatToString(m))))
  {
    var level := if power < 0.0 then -power else power;
    var setting := ArgMin(Shift(ranges, level));
    ArgMinShiftInvariant(ranges, level, setting);
    if ranges[setting] == 50.0 && !override {
      w := None;
    } else {
      w := Some(WriteOp("RANGE " + NatToString(setting)));
    }
  }

  /** Whatever power is asked for, the tables' setting is index 0: the
      command is always "RANGE 0" and the 50 W guard is never reached. */
  lemma {:induction false} HeaterRangeAlwaysZero(instNum: int, m: nat, p: real)
    requires IsFirstMin(Shift(HeaterRanges(instNum), p), m)
    ensures m == 0 && HeaterRanges(instNum)[m] != 50.0
  {
    HeaterRangesAscending(instNum);
    ArgMinShiftInvariant(HeaterRanges(instNum), p, m);
    AscendingFirstMin(HeaterRanges(instNum));
    var a := HeaterRanges(instNum);
  }

  // -------------------------------------------------------------- client

  class Client {
    const instNum: int
    const heaterRanges: seq<real>
    /** The stored PID terms per loop: entry 0 is the dummy 0 (held here as
        the empty sequence), entries 1 and 2 the tuples read at start. */
    const pid: seq<seq<real>>

    /** Client.__init__ (lines 15-28) / GPIB.__init__ (lines 122-134), once
        read_pid(1) and read_pid(2) on `device` have both decoded; `Connect`
        is the construction whose reads may fail. */
    constructor(instNum: int, device: Op -> string)
      requires ReadPid(1, device).Ok? && ReadPid(2, device).Ok?
      ensures this.instNum == instNum && heaterRanges == HeaterRanges(instNum)
      ensures pid == [[], ReadPid(1, device).value, ReadPid(2, device).value]
    {
      this.instNum := instNum;
      heaterRanges := HeaterRanges(instNum);
      pid := [[], ReadPid(1, device).value, ReadPid(2, device).value];
    }

    /** The table set_heater_range and read_heater_range use. */
    predicate Valid()
      reads this
    {
      heaterRanges == HeaterRanges(instNum) && |pid| == 3
    }

    /** set_heater_range on this controller: always "RANGE 0". */
    method SetRange(power: real, override: bool) returns (w: Option<Op>)
      requires Valid()
      ensures w == Some(WriteOp("RANGE 0"))
    {
      w := SetHeaterRange(heaterRanges, power, override);
      ghost var m: nat :| IsFirstMin(heaterRanges, m) &&
        w == if heaterRanges[m] == 50.0 && !override then None else Some(WriteOp("RANGE " + NatToString(m)));
      ArgMinShiftInvariant(heaterRanges, 0.0, m);
      assert Shift(heaterRanges, 0.0) == heaterRanges;
      HeaterRangeAlwaysZero(instNum, m, 0.0);
      assert NatToString(0) == "0";
      assert "RANGE " + "0" == "RANGE 0";
    }

    /** set_pid (lines 89-104), step by step as written.  An omitted term
        ("") is read from the stored tuple; an explicit one is converted by
        float() and then stored into the tuple, which Python refuses
        (TypeError), so only a call with every term omitted writes. */
    method SetPid(p: string, i: string, d: string, loop: int, fmt: real -> string)
      returns (r: Result<Op>)
      requires Valid()
      ensures !ValidLoop(loop) ==> r == Fault(InvalidArgument(LoopMessage(loop)))
      ensures ValidLoop(loop) && (p != "" || i != "" || d != "") ==> r.Fault?
      ensures r.Ok? <==> ValidLoop(loop) && p == "" && i == "" && d == "" && |pid[loop]| >= 3
      ensures r.Ok? ==> (r.value ==
        WriteOp(PidCommand(NatToString(loop as nat), fmt(pid[loop][0]), fmt(pid[loop][1]), fmt(pid[loop][2]))))
    {
      if !ValidLoop(loop) {
        return Fault(InvalidArgument(LoopMessage(loop)));
      }
      var stored := pid[loop];
      var pText, iText, dText;
      if p == "" {
        if |stored| < 1 { return Fault(IndexError); }
        pText := fmt(stored[0]);
      } else {
        return if ParseFloat(p).None? then Fault(ValueError) else Fault(TypeError);
      }
      if i == "" {
        if |stored| < 2 { return Fault(IndexError); }
        iText := fmt(stored[1]);
      } else {
        return if ParseFloat(i).None? then Fault(ValueError) else Fault(TypeError);
      }
      if d == "" {
        if |stored| < 3 { return Fault(IndexError); }
        dText := fmt(stored[2]);
      } else {
        return if ParseFloat(d).None? then Fault(ValueError) else Fault(TypeError);
      }
      r := Ok(WriteOp(PidCommand(NatToString(loop as nat), pText, iText, dText)));
    }
  }

  /** Building a controller client (lines 15-28, 122-134): the heater
      table, then read_pid(1) and read_pid(2), whose exception, if any,
      ends the construction. */
  method Connect(instNum: int, device: Op -> string) returns (r: Result<Client>)
    ensures ReadPid(1, device).Fault? ==> r == Fault(ReadPid(1, device).error)
    ensures ReadPid(1, device).Ok? && ReadPid(2, device).Fault? ==> r == Fault(ReadPid(2, device).error)
    ensures r.Ok? <==> ReadPid(1, device).Ok? && ReadPid(2, device).Ok?
    ensures r.Ok? ==>
      fresh(r.value) && r.value.Valid() && r.value.instNum == instNum && r.value.pid == [[], ReadPid(1, device).value, ReadPid(2, device).value]
  {
    var pid1 := ReadPid(1, device);
    if pid1.Fault? {
      return Fault(pid1.error);
    }
    var pid2 := ReadPid(2, device);
    if pid2.Fault? {
      return Fault(pid2.error);
    }
    var c := new Client(instNum, device);
    r := Ok(c);
  }

  // ------------------------------------------------- with the fake device

  /** The simulated controller reached through a query: "PID? n" gets
      "1,1,1". */
  function FakeController(reading: string): Op -> string {
    (op: Op) => if op.QueryOp? then FakeDevices.LakeShoreQuery(op.message, reading) else ""
  }

  lemma SplitOnes()
    ensures Split(FakeDevices.FakePid, ",") == ["1", "1", "1"]
  {
    assert FakeDevices.FakePid == "1" + "," + ("1" + "," + "1");
    SplitAfter("1", ",", "1" + "," + "1");
    SplitAfter("1", ",", "1");
    SplitWhole("1", ",");
  }

  lemma DecodeOnes()
    ensures DecodeFloats(["1", "1", "1"]) == Ok([1.0, 1.0, 1.0])
  {
    ParseDigit('1');
    assert "1" == ['1'];
    var r := DecodeFloats(["1", "1", "1"]);
    assert r.Ok? && |r.value| == 3;
    assert r.value[0] == 1.0 && r.value[1] == 1.0 && r.value[2] == 1.0;
    assert r.value == [1.0, 1.0, 1.0];
  }

  /** Fed through read_pid, the simulated controller's "1,1,1" gives the
      stored triple (1, 1, 1) for both loops. */
  lemma FakePidIsOnes(loop: int, reading: string)
    requires ValidLoop(loop)
    ensures ReadPid(loop, FakeController(reading)) == Ok([1.0, 1.0, 1.0])
  {
    FakeDevices.PidQueriesAnswered(loop as nat, reading);
    assert FakeController(reading)(QueryOp("PID? " + NatToString(loop as nat))) == FakeDevices.FakePid;
    SplitOnes();
    DecodeOnes();
  }

  /** The simulated controller always connects, with (1, 1, 1) stored for
      both loops. */
  lemma FakeControllerConnects(reading: string)
    ensures ReadPid(1, FakeController(reading)).Ok? && ReadPid(2, FakeController(reading)).Ok?
    ensures ReadPid(1, FakeController(reading)).value == ReadPid(2, FakeController(reading)).value == [1.0, 1.0, 1.0]
  {
    FakePidIsOnes(1, reading);
    FakePidIsOnes(2, reading);
  }
}
