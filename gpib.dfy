/** GPIB device drivers (GPIB/gpib.py).  A driver offers read, write and
    query; the bus-backed `Device` turns every transport error into the
    literal "timed out", and `Fake` answers with constant texts. */
module Gpib {
  import opened Outcomes
  import opened Text

  /** One device operation, as the relay server and the clients issue it. */
  datatype Op = WriteOp(message: string) | QueryOp(message: string) | ReadOp

  /** A device operation addressed to an instrument by its short id; what a
      client object hands to the (unmodelled) client transport. */
  datatype ClientCall = ClientCall(devId: string, op: Op)

  /** What the bus transport did with one operation: it answered with text
      (for a write, it accepted the message) or raised VisaIOError. */
  datatype Transport = Answer(text: string) | VisaIOError

  const TimedOut: string := "timed out"
  const Sent: string := "sent"

  /** The VISA resource name Device opens (line 17). */
  function ResourceName(address: nat, gpibNum: nat): (name: string)
    ensures name == "GPIB" + NatToString(gpibNum) + "::" + NatToString(address) + "::INSTR"
    ensures Split(name, "::") == ["GPIB" + NatToString(gpibNum), NatToString(address), "INSTR"]
  {
    var name := "GPIB" + NatToString(gpibNum) + "::" + NatToString(address) + "::INSTR";
    var bus, addr := "GPIB" + NatToString(gpibNum), NatToString(address);
    assert FreeOfSepHead(bus, "::") by {
      forall i | 0 <= i < |bus| ensures bus[i] != ':' {
        if i >= 4 { assert bus[i] == NatToString(gpibNum)[i - 4]; }
      }
    }
    assert FreeOfSepHead(addr, "::");
    assert FreeOfSepHead("INSTR", "::");
    SplitAfter(bus, "::", addr + "::" + "INSTR");
    assert name == bus + "::" + (addr + "::" + "INSTR");
    SplitAfter(addr, "::", "INSTR");
    SplitWhole("INSTR", "::");
    name
  }

  /** Device.read, Device.write and Device.query (lines 19-39): the
      transport's text on success ("sent" for a write) and "timed out" on
      VisaIOError. */
  function DeviceCall(op: Op, t: Transport): (reply: string)
    ensures t.VisaIOError? ==> reply == TimedOut
    ensures t.Answer? && op.WriteOp? ==> reply == Sent
    ensures t.Answer? && !op.WriteOp? ==> reply == t.text
  {
    match t
    case VisaIOError => TimedOut
    case Answer(text) => if op.WriteOp? then Sent else text
  }

  /** A reply of "timed out" is ambiguous only when the instrument itself
      said "timed out": otherwise it means the transport failed. */
  lemma TimedOutMeansError(op: Op, t: Transport)
    requires t.Answer? ==> t.text != TimedOut
    ensures DeviceCall(op, t) == TimedOut <==> t.VisaIOError?
  {
  }

  /** Device.get_id (lines 48-49) is exactly query("*IDN?"). */
  function DeviceGetId(t: Transport): (reply: string)
    ensures reply == DeviceCall(QueryOp("*IDN?"), t)
  {
    DeviceCall(QueryOp("*IDN?"), t)
  }

  // ------------------------------------------------------------- Fake

  const FakeReadText: string := "Read from fake GPIB interface"
  const FakeQueryPrefix: string := "You queried the fake GPIB interface with "
  const FakeIdText: string := "This is a fake GPIB interface device"

  /** Fake.query (lines 69-72): the message echoed after a fixed prefix. */
  function FakeQuery(message: string): (reply: string)
    ensures |reply| == |FakeQueryPrefix| + |message|
    ensures reply[..|FakeQueryPrefix|] == FakeQueryPrefix
    ensures reply[|FakeQueryPrefix|..] == message
  {
    FakeQueryPrefix + message
  }

  /** The echo can be undone: the message is recovered from the reply. */
  lemma FakeQueryInjective(m1: string, m2: string)
    ensures FakeQuery(m1) == FakeQuery(m2) <==> m1 == m2
  {
    if FakeQuery(m1) == FakeQuery(m2) {
      assert m1 == FakeQuery(m1)[|FakeQueryPrefix|..];
    }
  }

  /** What each Fake method gives back: read and get_id a constant, write
      nothing (None), query the echo (lines 59-81). */
  function FakeCall(op: Op): (reply: Option<string>)
    ensures op.WriteOp? <==> reply.None?
    ensures op.ReadOp? ==> reply == Some(FakeReadText)
    ensures op.QueryOp? ==> reply == Some(FakeQuery(op.message))
  {
    match op
    case WriteOp(_) => None
    case QueryOp(m) => Some(FakeQuery(m))
    case ReadOp => Some(FakeReadText)
  }

  /** Fake.get_id (lines 79-81) */
  function FakeGetId(): (reply: string)
    ensures forall m :: reply != FakeQuery(m)
  {
    forall m ensures FakeIdText != FakeQuery(m) {
      assert FakeQuery(m)[0] == 'Y' != FakeIdText[0];
    }
    FakeIdText
  }

  /** Fake.query_ascii (lines 74-77): the values 0..9, whatever the message. */
  function FakeQueryAscii(message: string): (values: seq<int>)
    ensures |values| == 10
    ensures forall i :: 0 <= i < 10 ==> values[i] == i
  {
    seq(10, i => i)
  }
}
