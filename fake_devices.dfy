/** Simulated instruments and their clients (fake_gpib_devices.py and
    GPIB/fake_gpib_devices.py, whose simulated devices are the same code).
    Each simulated device overrides only `query` of the Fake driver; the
    elapsed time since import and the random draws are parameters, and the
    text Python's str() makes of a simulated number is passed in. */
module FakeDevices {
  import opened Outcomes
  import opened Text
  import opened Gpib

  const TemperatureQuery: string := "KRDG? A"
  const PidQuery: string := "PID?"
  const FakePid: string := "1,1,1"

  /** The simulated temperature behind "KRDG? A": 300 K cooling by 0.1 K
      per second, plus a draw from [0, 1). */
  function SimulatedTemperature(elapsed: real, draw: real): (t: real)
    requires 0.0 <= draw < 1.0
    ensures 300.0 - elapsed / 10.0 <= t < 301.0 - elapsed / 10.0
  {
    300.0 - 0.1 * elapsed + draw
  }

  /** LakeShore.query: the exact temperature query first, then any message
      containing "PID?", else the Fake echo.  `reading` is the text of the
      simulated temperature. */
  function LakeShoreQuery(msg: string, reading: string): (reply: string)
  {
    if msg == TemperatureQuery then reading
    else if Contains(msg, PidQuery) then FakePid
    else FakeQuery(msg)
  }

  /** The rule order: "KRDG? A" never counts as a PID query, every other
      text holding "PID?" anywhere gets "1,1,1", and everything else is
      echoed so the message can be read back from the reply. */
  lemma LakeShoreRules(msg: string, reading: string)
    ensures msg == TemperatureQuery ==> LakeShoreQuery(msg, reading) == reading
    ensures msg != TemperatureQuery && Contains(msg, PidQuery) ==>
      LakeShoreQuery(msg, reading) == FakePid
    ensures msg != TemperatureQuery && !Contains(msg, PidQuery) ==>
      LakeShoreQuery(msg, reading)[|FakeQueryPrefix|..] == msg
  {
  }

  /** "PID? 1" and "PID? 2", the queries read_pid sends, both get
      "1,1,1". */
  lemma {:induction false} PidQueriesAnswered(loop: nat, reading: string)
    ensures LakeShoreQuery(PidQuery + " " + NatToString(loop), reading) == FakePid
  {
    var m := PidQuery + " " + NatToString(loop);
    assert m != TemperatureQuery by { assert m[0] != TemperatureQuery[0]; }
    ContainsOccurs(m, PidQuery, 0);
  }

  /** A simulated device answers every operation other than query exactly
      as the Fake driver it inherits from. */
  function LakeShoreCall(op: Op, reading: string): (reply: Option<string>)
    ensures !op.QueryOp? ==> reply == FakeCall(op)
    ensures op.QueryOp? ==> reply == Some(LakeShoreQuery(op.message, reading))
  {
    match op
    case QueryOp(m) => Some(LakeShoreQuery(m, reading))
    case _ => FakeCall(op)
  }

  const VoltageQuery: string := "V?"
  const CountsQuery: string := "C?"

  /** A value below k in size, scaled by a factor in [-1, 1], stays
      below k in size. */
  lemma ScaleBound(a: real, b: real, k: real)
    requires 0.0 <= a < k && -1.0 <= b <= 1.0
    ensures -k < a * b < k
  {
    if b >= 0.0 {
      assert a * b <= a * 1.0;
    } else {
      assert a * b >= a * -1.0;
    }
  }

  /** The simulated voltage behind "V?": (3 + r1) * sin(elapsed + r2/10),
      with the sine value given; it never exceeds 4 V in magnitude. */
  function SimulatedVoltage(draw: real, sine: real): (v: real)
    requires 0.0 <= draw < 1.0 && -1.0 <= sine <= 1.0
    ensures -4.0 < v < 4.0
  {
    ScaleBound(3.0 + draw, sine, 4.0);
    (3.0 + draw) * sine
  }

  /** The simulated count rate behind "C?": 3000 + 1000 * r * sin(now),
      strictly between 2000 and 4000. */
  function SimulatedCounts(draw: real, sine: real): (c: real)
    requires 0.0 <= draw < 1.0 && -1.0 <= sine <= 1.0
    ensures 2000.0 < c < 4000.0
  {
    ScaleBound(draw, sine, 1.0);
    3000.0 + 1000.0 * (draw * sine)
  }

  /** VoltageSupply.query and PhotonCounter.query: one exact message gets
      the reading, every other message the Fake echo. */
  function SingleQuery(special: string, msg: string, reading: string): (reply: string)
  {
    if msg == special then reading else FakeQuery(msg)
  }

  function VoltageSupplyQuery(msg: string, reading: string): (reply: string)
  {
    SingleQuery(VoltageQuery, msg, reading)
  }

  function PhotonCounterQuery(msg: string, reading: string): (reply: string)
  {
    SingleQuery(CountsQuery, msg, reading)
  }

  /** Only the exact query is special: any other message, including one
      that merely contains it or differs in case, comes back inside the
      echo unchanged. */
  lemma SingleQueryRules(special: string, msg: string, reading: string)
    ensures msg == special ==> SingleQuery(special, msg, reading) == reading
    ensures msg != special ==>
      SingleQuery(special, msg, reading)[..|FakeQueryPrefix|] == FakeQueryPrefix &&
      SingleQuery(special, msg, reading)[|FakeQueryPrefix|..] == msg
  {
  }

  /** The voltage supply and the photon counter do not answer each
      other's query: each echoes it. */
  lemma QueriesNotShared(reading: string)
    ensures VoltageSupplyQuery(CountsQuery, reading) == FakeQuery(CountsQuery)
    ensures PhotonCounterQuery(VoltageQuery, reading) == FakeQuery(VoltageQuery)
  {
  }

  // ------------------------------------------------------------- clients

  const VoltageSupplyId: string := "VS"
  const PhotonCounterId: string := "PC"

  /** FakeVoltageSupply.set_voltage (GPIB/fake_gpib_devices.py:13-16):
      writes "V: v" to the "VS" device and returns "Set voltage to v";
      `voltage` is the two-decimal text of the requested voltage. */
  function SetVoltage(voltage: string): (r: (ClientCall, string))
    ensures r.0 == ClientCall(VoltageSupplyId, WriteOp("V: " + voltage))
    ensures r.1 == "Set voltage to " + voltage
  {
    (ClientCall(VoltageSupplyId, WriteOp("V: " + voltage)), "Set voltage to " + voltage)
  }

  /** FakeVoltageSupply.read_voltage: the exact query the simulated supply
      answers with its reading. */
  function ReadVoltage(reading: string): (r: (ClientCall, string))
    ensures r.0 == ClientCall(VoltageSupplyId, QueryOp(VoltageQuery))
    ensures r.1 == reading
  {
    var call := ClientCall(VoltageSupplyId, QueryOp(VoltageQuery));
    (call, VoltageSupplyQuery(call.op.message, reading))
  }

  /** FakePhotonCounter.read_counts: the exact query the simulated counter
      answers with its reading. */
  function ReadCounts(reading: string): (r: (ClientCall, string))
    ensures r.0 == ClientCall(PhotonCounterId, QueryOp(CountsQuery))
    ensures r.1 == reading
  {
    var call := ClientCall(PhotonCounterId, QueryOp(CountsQuery));
    (call, PhotonCounterQuery(call.op.message, reading))
  }
}
