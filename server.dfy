/** The command relay server (GPIB/server.py).  A client sends text of the
    form DEV::VERB::PAYLOAD; the server resolves DEV to an instrument,
    performs the operation the first letter of VERB names and sends back
    the instrument's answer.  Sockets are sequences: a connection is the
    sequence of messages the client sends (the end of the sequence is the
    client closing it), and the k-th device operation of the server's life
    meets the bus as `bus(k)`. */
module Server {
  import opened Outcomes
  import opened Text
  import opened Gpib
  import Get

  const ShutdownCommand: string := "shutdown"
  const DefaultPort: nat := 62538
  const Delimiter: string := "::"
  const LakeShoreId: string := "LS"
  const UnknownDevicePrefix: string := "Did not give a valid device id: "
  const WriteReply: string := "empty"

  /** The three fields of a message, after upper-casing. */
  datatype Command = Command(devId: string, verb: string, payload: string)

  /** GpibServer.handle, lines 42-51: upper-case the whole message, cut it at
      every "::"; the verb must be there, the payload defaults to "". */
  function Parse(message: string): Result<Command> {
    var fields := Split(Upper(message), Delimiter);
    if |fields| < 2 then Fault(IndexError)
    else Ok(Command(fields[0], fields[1], if |fields| > 2 then fields[2] else ""))
  }

  /** What handle does with a parsed message: one device operation, or a
      reply without touching any device. */
  datatype Action = Perform(op: Op) | Refuse(reply: string)

  /** Lines 54-87: only "LS" names a device; the verb's first letter picks
      the operation.  An empty verb fails at command[0], and a letter other
      than W, Q, R leaves msgout unassigned. */
  function Resolve(cmd: Command): Result<Action> {
    if cmd.devId != LakeShoreId then Ok(Refuse(UnknownDevicePrefix + cmd.devId))
    else if |cmd.verb| == 0 then Fault(IndexError)
    else if cmd.verb[0] == 'W' then Ok(Perform(WriteOp(cmd.payload)))
    else if cmd.verb[0] == 'Q' then Ok(Perform(QueryOp(cmd.payload)))
    else if cmd.verb[0] == 'R' then Ok(Perform(ReadOp))
    else Fault(UnboundLocalError)
  }

  function Plan(message: string): Result<Action> {
    var cmd :- Parse(message);
    Resolve(cmd)
  }

  /** The reply to an action when the device operation, if any, met the
      bus outcome `t`: a write answers 'empty' whatever the driver said. */
  function Reply(a: Action, t: Transport): string {
    match a
    case Refuse(text) => text
    case Perform(op) => if op.WriteOp? then WriteReply else DeviceCall(op, t)
  }

  /** GpibServer.handle (lines 36-88), with `t` the bus outcome of the
      device operation it performs.  It faults exactly where planning does,
      and the bus outcome matters only for a query or a read. */
  function Handle(message: string, t: Transport): (r: Result<string>)
    ensures r.Fault? <==> Plan(message).Fault?
  {
    var a :- Plan(message);
    Ok(Reply(a, t))
  }

  // ------------------------------------------------------- message format

  /** No "::" occurs in `s`: split('::') finds nothing to cut in it. */
  predicate NoDelimiter(s: string) {
    forall i :: 0 <= i < |s| - 1 ==> !(s[i] == ':' && s[i + 1] == ':')
  }

  /** A field followed by "::": no "::" inside and no ':' at its end, so the
      first "::" split finds is the one right after it. */
  predicate FieldBeforeDelimiter(s: string) {
    NoDelimiter(s) && (s == [] || s[|s| - 1] != ':')
  }

  /** NoDelimiter is the absence of "::" as `in` tests it. */
  lemma NoDelimiterContains(s: string)
    ensures NoDelimiter(s) <==> !Contains(s, Delimiter)
  {
    IndexOfFirst(s, Delimiter);
    if !NoDelimiter(s) {
      var i :| 0 <= i < |s| - 1 && s[i] == ':' && s[i + 1] == ':';
      assert s[i..i + 2] == Delimiter;
      ContainsOccurs(s, Delimiter, i);
    }
    if Contains(s, Delimiter) {
      var k := IndexOf(s, Delimiter).value;
      assert s[k..k + 2][0] == s[k] && s[k..k + 2][1] == s[k + 1];
    }
  }

  /** Upper-casing moves no ':' and makes none. */
  lemma UpperFields(s: string)
    ensures NoDelimiter(s) ==> NoDelimiter(Upper(s))
    ensures FieldBeforeDelimiter(s) ==> FieldBeforeDelimiter(Upper(s))
  {
  }

  /** A text without "::" is one piece. */
  lemma {:induction false} SplitWholeField(a: string)
    requires NoDelimiter(a)
    ensures Split(a, Delimiter) == [a]
    decreases |a|
  {
    if |a| >= 2 {
      assert a[..2] != Delimiter by {
        assert a[..2][0] == a[0] && a[..2][1] == a[1];
      }
      SplitWholeField(a[1..]);
      assert [a[0]] + a[1..] == a;
    }
  }

  /** Splitting `a + "::" + rest` cuts exactly after the field `a`. */
  lemma {:induction false} SplitAfterField(a: string, rest: string)
    requires FieldBeforeDelimiter(a)
    ensures Split(a + Delimiter + rest, Delimiter) == [a] + Split(rest, Delimiter)
    decreases |a|
  {
    var s := a + Delimiter + rest;
    if |a| == 0 {
      assert s[..2] == Delimiter;
      assert s[2..] == rest;
    } else {
      assert s[..2] != Delimiter by {
        assert s[..2][0] == a[0];
        if |a| == 1 {
          assert s[..2][0] == a[|a| - 1];
        } else {
          assert s[..2][1] == a[1];
        }
      }
      assert s[1..] == a[1..] + Delimiter + rest;
      SplitAfterField(a[1..], rest);
      assert [a[0]] + a[1..] == a;
    }
  }

  lemma UpperFrame(a: string, b: string)
    ensures Upper(a + Delimiter + b) == Upper(a) + Delimiter + Upper(b)
  {
    UpperConcat(a + Delimiter, b);
    UpperConcat(a, Delimiter);
  }

  /** A framed message parses to its three fields, upper-cased; the
      payload is upper-cased too. */
  lemma ParseFrame(id: string, verb: string, payload: string)
    requires FieldBeforeDelimiter(id) && FieldBeforeDelimiter(verb) && NoDelimiter(payload)
    ensures Parse(id + Delimiter + verb + Delimiter + payload) ==
      Ok(Command(Upper(id), Upper(verb), Upper(payload)))
  {
    UpperFrame(id + Delimiter + verb, payload);
    UpperFrame(id, verb);
    UpperFields(id);
    UpperFields(verb);
    UpperFields(payload);
    var u := Upper(id) + Delimiter + Upper(verb) + Delimiter + Upper(payload);
    assert u == Upper(id) + Delimiter + (Upper(verb) + Delimiter + Upper(payload));
    SplitAfterField(Upper(id), Upper(verb) + Delimiter + Upper(payload));
    SplitAfterField(Upper(verb), Upper(payload));
    SplitWholeField(Upper(payload));
  }

  /** Without a third field the payload is "". */
  lemma ParseNoPayload(id: string, verb: string)
    requires FieldBeforeDelimiter(id) && NoDelimiter(verb)
    ensures Parse(id + Delimiter + verb) == Ok(Command(Upper(id), Upper(verb), ""))
  {
    UpperFrame(id, verb);
    UpperFields(id);
    UpperFields(verb);
    SplitAfterField(Upper(id), Upper(verb));
    SplitWholeField(Upper(verb));
  }

  /** Fields after the third are ignored. */
  lemma ParseIgnoresExtraFields(id: string, verb: string, payload: string, extra: string)
    requires FieldBeforeDelimiter(id) && FieldBeforeDelimiter(verb) && FieldBeforeDelimiter(payload)
    ensures Parse(id + Delimiter + verb + Delimiter + payload + Delimiter + extra) ==
      Parse(id + Delimiter + verb + Delimiter + payload)
  {
    ParseFrame(id, verb, payload);
    ExtraFieldsSplit(id, verb, payload, extra);
  }

  /** The fields of a message with more than three of them. */
  lemma ExtraFieldsSplit(id: string, verb: string, payload: string, extra: string)
    requires FieldBeforeDelimiter(id) && FieldBeforeDelimiter(verb) && FieldBeforeDelimiter(payload)
    ensures Split(Upper(id + Delimiter + verb + Delimiter + payload + Delimiter + extra), Delimiter) ==
      [Upper(id), Upper(verb), Upper(payload)] + Split(Upper(extra), Delimiter)
  {
    UpperFrame(id + Delimiter + verb + Delimiter + payload, extra);
    UpperFrame(id + Delimiter + verb, payload);
    UpperFrame(id, verb);
    UpperFields(id);
    UpperFields(verb);
    UpperFields(payload);
    var ui, uv, up, ux := Upper(id), Upper(verb), Upper(payload), Upper(extra);
    assert ui + Delimiter + uv + Delimiter + up + Delimiter + ux == ui + Delimiter + (uv + Delimiter + (up + Delimiter + ux));
    SplitThree(ui, uv, up, ux);
  }

  /** Three separator-free fields, then the rest. */
  lemma SplitThree(a: string, b: string, c: string, rest: string)
    requires FieldBeforeDelimiter(a) && FieldBeforeDelimiter(b) && FieldBeforeDelimiter(c)
    ensures Split(a + Delimiter + (b + Delimiter + (c + Delimiter + rest)), Delimiter) == [a, b, c] + Split(rest, Delimiter)
  {
    SplitAfterField(a, b + Delimiter + (c + Delimiter + rest));
    SplitAfterField(b, c + Delimiter + rest);
    SplitAfterField(c, rest);
  }

  /** A message faults at msg_list[1] exactly when it holds no "::". */
  lemma ParseFaultIffNoDelimiter(message: string)
    ensures Parse(message).Fault? <==> !Contains(Upper(message), Delimiter)
  {
    SplitOnePiece(Upper(message), Delimiter);
  }

  // ------------------------------------------------------------ dispatch

  /** Any id but "LS" gets exactly the refusal text with the upper-cased
      id, and no device operation runs, whatever the verb (even an empty
      one) and the payload. */
  lemma UnknownDeviceRefused(id: string, verb: string, payload: string, t: Transport)
    requires FieldBeforeDelimiter(id) && FieldBeforeDelimiter(verb) && NoDelimiter(payload)
    requires Upper(id) != LakeShoreId
    ensures Plan(id + Delimiter + verb + Delimiter + payload) ==
      Ok(Refuse(UnknownDevicePrefix + Upper(id)))
    ensures Handle(id + Delimiter + verb + Delimiter + payload, t) ==
      Ok(UnknownDevicePrefix + Upper(id))
  {
    ParseFrame(id, verb, payload);
  }

  /** A set_voltage write framed for the relay, "VS::W::V: 1.00", is
      refused: its payload keeps its single ':', and "VS" is no device id
      of the server. */
  lemma VoltageFrameRefused(t: Transport)
    ensures Handle("VS::W::V: 1.00", t) == Ok(UnknownDevicePrefix + "VS")
  {
    assert "VS::W::V: 1.00" == "VS" + Delimiter + "W" + Delimiter + "V: 1.00";
    assert Upper("VS") == "VS";
    UnknownDeviceRefused("VS", "W", "V: 1.00", t);
  }

  /** For "LS" the first letter of the verb alone decides, in either case:
      W writes the payload and answers 'empty', Q queries with the payload,
      R reads and ignores the payload; any other letter and an empty verb
      fault, so no reply is invented. */
  lemma LakeShoreDispatch(id: string, verb: string, payload: string, t: Transport)
    requires FieldBeforeDelimiter(id) && FieldBeforeDelimiter(verb) && NoDelimiter(payload)
    requires Upper(id) == LakeShoreId
    ensures var m := id + Delimiter + verb + Delimiter + payload;
      && (verb == [] ==> Plan(m) == Fault(IndexError) && Handle(m, t).Fault?)
      && (verb != [] && UpperChar(verb[0]) == 'W' ==>
            Plan(m) == Ok(Perform(WriteOp(Upper(payload)))) && Handle(m, t) == Ok(WriteReply))
      && (verb != [] && UpperChar(verb[0]) == 'Q' ==>
            Plan(m) == Ok(Perform(QueryOp(Upper(payload)))) &&
            Handle(m, t) == Ok(DeviceCall(QueryOp(Upper(payload)), t)))
      && (verb != [] && UpperChar(verb[0]) == 'R' ==>
            Plan(m) == Ok(Perform(ReadOp)) && Handle(m, t) == Ok(DeviceCall(ReadOp, t)))
      && (verb != [] && UpperChar(verb[0]) !in {'W', 'Q', 'R'} ==>
            Plan(m) == Fault(UnboundLocalError) && Handle(m, t).Fault?)
  {
    ParseFrame(id, verb, payload);
  }

  /** The sentinel is compared before upper-casing: "SHUTDOWN" is an
      ordinary message, and having no "::" it makes handle fault. */
  lemma UpperCaseSentinelFaults(t: Transport)
    ensures "SHUTDOWN" != ShutdownCommand
    ensures Handle("SHUTDOWN", t) == Fault(IndexError)
  {
    assert "SHUTDOWN"[0] != ShutdownCommand[0];
    assert NoDelimiter("SHUTDOWN");
    NoDelimiterFaults("SHUTDOWN", t);
  }

  /** A message without "::" is one field, so handle faults at msg_list[1]. */
  lemma NoDelimiterFaults(m: string, t: Transport)
    requires NoDelimiter(m)
    ensures Handle(m, t) == Fault(IndexError)
  {
    UpperFields(m);
    SplitWholeField(Upper(m));
  }

  // ------------------------------------------------------------ sessions

  /** How serving stopped: the connection (or, for a whole run, every
      connection) was closed by the client, the shutdown sentinel arrived,
      or handle raised. */
  datatype End = Closed | Shutdown | Crashed(error: PyError)

  /** The replies sent, the device operations performed so far, and how it
      stopped. */
  datatype Session = Session(replies: seq<string>, ops: nat, end: End)

  /** The inner loop of run (lines 116-136) on one connection, specified on
      values: an empty read closes the connection, the exact sentinel stops
      without a reply, anything else is decoded, planned by `plan` (Plan in
      the server) and answered.  The loop's properties hold for any plan. */
  function ServeConnection(msgs: seq<string>, plan: string -> Result<Action>,
                           bus: nat -> Transport, k: nat): (s: Session)
    decreases |msgs|
  {
    if msgs == [] || msgs[0] == [] then Session([], k, Closed)
    else if msgs[0] == ShutdownCommand then Session([], k, Shutdown)
    else
      match plan(msgs[0])
      case Fault(e) => Session([], k, Crashed(e))
      case Ok(a) =>
        var rest := ServeConnection(msgs[1..], plan, bus, if a.Perform? then k + 1 else k);
        Session([Reply(a, bus(k))] + rest.replies, rest.ops, rest.end)
  }

  /** The outer loop of run (lines 108-113) over the connections accepted
      one after the other; once the sentinel arrives no further connection
      is served.  `Closed` here means every connection was served and the
      server waits for the next one. */
  function Serve(conns: seq<seq<string>>, plan: string -> Result<Action>,
                 bus: nat -> Transport, k: nat): (t: Session)
    decreases |conns|
  {
    if conns == [] then Session([], k, Closed)
    else
      var s := ServeConnection(conns[0], plan, bus, k);
      if s.end.Closed? then
        var t := Serve(conns[1..], plan, bus, s.ops);
        Session(s.replies + t.replies, t.ops, t.end)
      else s
  }

  /** An ordinary message: neither an empty read nor the sentinel, and
      planning it does not raise. */
  predicate Ordinary(m: string, plan: string -> Result<Action>) {
    m != [] && m != ShutdownCommand && plan(m).Ok?
  }

  /** The device operations a sequence of ordinary messages performs: one
      for each message planned as a device operation. */
  function OpsOf(msgs: seq<string>, plan: string -> Result<Action>): nat
    decreases |msgs|
  {
    if msgs == [] then 0
    else (if plan(msgs[0]).Ok? && plan(msgs[0]).value.Perform? then 1 else 0) + OpsOf(msgs[1..], plan)
  }

  /** The operation count after message m: one more when it is planned as a
      device operation. */
  function OpsAfter(m: string, plan: string -> Result<Action>, k: nat): nat {
    if plan(m).Ok? && plan(m).value.Perform? then k + 1 else k
  }

  /** Session s answers every message of msgs, served from operation count
      k: one reply per message, in order, each answering the message's own
      plan with the bus outcome of the operations before it; the connection
      is left waiting to be closed and every operation is counted. */
  predicate AnswersAll(msgs: seq<string>, plan: string -> Result<Action>, bus: nat -> Transport, k: nat, s: Session) {
    && |s.replies| == |msgs|
    && s.end == Closed
    && s.ops == k + OpsOf(msgs, plan)
    && forall i :: 0 <= i < |msgs| ==>
         plan(msgs[i]).Ok? && s.replies[i] == Reply(plan(msgs[i]).value, bus(k + OpsOf(msgs[..i], plan)))
  }

  /** Every ordinary message gets exactly one reply, in order, and that
      reply answers the message's own plan with the bus outcome of the
      device operation it performs. */
  lemma {:induction false} OneReplyPerMessage(msgs: seq<string>, plan: string -> Result<Action>,
                                            bus: nat -> Transport, k: nat)
    requires forall i :: 0 <= i < |msgs| ==> Ordinary(msgs[i], plan)
    ensures AnswersAll(msgs, plan, bus, k, ServeConnection(msgs, plan, bus, k))
    decreases |msgs|
  {
    if msgs != [] {
      assert Ordinary(msgs[0], plan);
      var k' := OpsAfter(msgs[0], plan, k);
      OneReplyPerMessage(msgs[1..], plan, bus, k');
      OneReplyStep(msgs, plan, bus, k);
    }
  }

  /** The step of OneReplyPerMessage: from the messages after the first to all of them. */
  lemma OneReplyStep(msgs: seq<string>, plan: string -> Result<Action>, bus: nat -> Transport, k: nat)
    requires msgs != [] && Ordinary(msgs[0], plan)
    requires AnswersAll(msgs[1..], plan, bus, OpsAfter(msgs[0], plan, k),
                        ServeConnection(msgs[1..], plan, bus, OpsAfter(msgs[0], plan, k)))
    ensures AnswersAll(msgs, plan, bus, k, ServeConnection(msgs, plan, bus, k))
  {
    var s := ServeConnection(msgs, plan, bus, k);
    FirstReply(msgs, plan, bus, k);
    assert OpsOf(msgs, plan) == (OpsAfter(msgs[0], plan, k) - k) + OpsOf(msgs[1..], plan);
    forall i | 0 <= i < |msgs|
      ensures plan(msgs[i]).Ok? && s.replies[i] == Reply(plan(msgs[i]).value, bus(k + OpsOf(msgs[..i], plan)))
    {
      if i == 0 {
        assert msgs[..0] == [];
      } else {
        LaterReply(msgs, plan, bus, k, i);
      }
    }
  }

  /** Serving an ordinary first message: its reply, then the rest served
      from the count after it. */
  lemma FirstReply(msgs: seq<string>, plan: string -> Result<Action>, bus: nat -> Transport, k: nat)
    requires msgs != [] && Ordinary(msgs[0], plan)
    ensures var r := ServeConnection(msgs[1..], plan, bus, OpsAfter(msgs[0], plan, k));
      ServeConnection(msgs, plan, bus, k) == Session([Reply(plan(msgs[0]).value, bus(k))] + r.replies, r.ops, r.end)
  {
  }

  /** Reply i > 0 of the step is reply i - 1 of the rest. */
  lemma LaterReply(msgs: seq<string>, plan: string -> Result<Action>, bus: nat -> Transport, k: nat, i: nat)
    requires 0 < i < |msgs| && Ordinary(msgs[0], plan)
    requires AnswersAll(msgs[1..], plan, bus, OpsAfter(msgs[0], plan, k),
                        ServeConnection(msgs[1..], plan, bus, OpsAfter(msgs[0], plan, k)))
    ensures plan(msgs[i]).Ok?
    ensures ServeConnection(msgs, plan, bus, k).replies[i] == Reply(plan(msgs[i]).value, bus(k + OpsOf(msgs[..i], plan)))
  {
    var k' := OpsAfter(msgs[0], plan, k);
    var tail := msgs[1..];
    FirstReply(msgs, plan, bus, k);
    assert tail[i - 1] == msgs[i];
    assert msgs[..i][0] == msgs[0] && msgs[..i][1..] == tail[..i - 1];
    assert OpsOf(msgs[..i], plan) == (k' - k) + OpsOf(tail[..i - 1], plan);
  }

  /** In the server each such reply is exactly what handle returns for the
      message, with the message's own bus outcome. */
  lemma HandleIsReply(m: string, t: Transport)
    requires Ordinary(m, Plan)
    ensures Handle(m, t) == Ok(Reply(Plan(m).value, t))
  {
  }

  /** What follows a connection that ended by the sentinel or by a fault
      is never read. */
  lemma {:induction false} ConnectionEndIsFinal(msgs: seq<string>, more: seq<string>,
                                              plan: string -> Result<Action>,
                                              bus: nat -> Transport, k: nat)
    requires !ServeConnection(msgs, plan, bus, k).end.Closed?
    ensures ServeConnection(msgs + more, plan, bus, k) == ServeConnection(msgs, plan, bus, k)
    decreases |msgs|
  {
    assert (msgs + more)[0] == msgs[0];
    if msgs[0] != ShutdownCommand && plan(msgs[0]).Ok? {
      assert (msgs + more)[1..] == msgs[1..] + more;
      ConnectionEndIsFinal(msgs[1..], more, plan, bus,
                           if plan(msgs[0]).value.Perform? then k + 1 else k);
    }
  }

  /** A connection is served message after message: serving ordinary
      messages and then the rest is serving the rest after them. */
  lemma {:induction false} ConnectionAppend(msgs: seq<string>, rest: seq<string>,
                                          plan: string -> Result<Action>,
                                          bus: nat -> Transport, k: nat)
    requires forall i :: 0 <= i < |msgs| ==> Ordinary(msgs[i], plan)
    ensures var s := ServeConnection(msgs, plan, bus, k);
      var r := ServeConnection(rest, plan, bus, s.ops);
      ServeConnection(msgs + rest, plan, bus, k) == Session(s.replies + r.replies, r.ops, r.end)
    decreases |msgs|
  {
    if msgs == [] {
      assert msgs + rest == rest;
    } else {
      assert Ordinary(msgs[0], plan);
      ConnectionAppend(msgs[1..], rest, plan, bus, OpsAfter(msgs[0], plan, k));
      ConnectionAppendStep(msgs, rest, plan, bus, k);
    }
  }

  /** The step of ConnectionAppend: from the messages after the first to all of them. */
  lemma ConnectionAppendStep(msgs: seq<string>, rest: seq<string>,
                             plan: string -> Result<Action>, bus: nat -> Transport, k: nat)
    requires msgs != [] && Ordinary(msgs[0], plan)
    requires var k' := OpsAfter(msgs[0], plan, k);
      var s := ServeConnection(msgs[1..], plan, bus, k');
      var r := ServeConnection(rest, plan, bus, s.ops);
      ServeConnection(msgs[1..] + rest, plan, bus, k') == Session(s.replies + r.replies, r.ops, r.end)
    ensures var s := ServeConnection(msgs, plan, bus, k);
      var r := ServeConnection(rest, plan, bus, s.ops);
      ServeConnection(msgs + rest, plan, bus, k) == Session(s.replies + r.replies, r.ops, r.end)
  {
    var k' := OpsAfter(msgs[0], plan, k);
    var s1 := ServeConnection(msgs[1..], plan, bus, k');
    var r := ServeConnection(rest, plan, bus, s1.ops);
    FirstReply(msgs, plan, bus, k);
    assert (msgs + rest)[0] == msgs[0] && (msgs + rest)[1..] == msgs[1..] + rest;
    FirstReply(msgs + rest, plan, bus, k);
    AppendAssoc([Reply(plan(msgs[0]).value, bus(k))], s1.replies, r.replies);
  }

  /** An empty read ends the connection: whatever the client sends after it
      on that connection is dropped. */
  lemma EmptyReadEndsConnection(msgs: seq<string>, rest: seq<string>,
                                plan: string -> Result<Action>, bus: nat -> Transport, k: nat)
    requires forall i :: 0 <= i < |msgs| ==> Ordinary(msgs[i], plan)
    ensures ServeConnection(msgs + [[]] + rest, plan, bus, k) == ServeConnection(msgs, plan, bus, k)
  {
    ConnectionAppend(msgs, [[]] + rest, plan, bus, k);
    OneReplyPerMessage(msgs, plan, bus, k);
    assert msgs + [[]] + rest == msgs + ([[]] + rest);
  }

  /** The sentinel stops the connection with no reply of its own. */
  lemma ShutdownEndsConnection(msgs: seq<string>, rest: seq<string>,
                               plan: string -> Result<Action>, bus: nat -> Transport, k: nat)
    requires forall i :: 0 <= i < |msgs| ==> Ordinary(msgs[i], plan)
    ensures var s := ServeConnection(msgs, plan, bus, k);
      ServeConnection(msgs + [ShutdownCommand] + rest, plan, bus, k) ==
        Session(s.replies, s.ops, Shutdown)
  {
    ConnectionAppend(msgs, [ShutdownCommand] + rest, plan, bus, k);
    assert msgs + [ShutdownCommand] + rest == msgs + ([ShutdownCommand] + rest);
  }

  /** A closed connection does not stop the server: the next connection
      is served from the device-operation count the first one left. */
  lemma {:induction false} ServeAppend(a: seq<seq<string>>, b: seq<seq<string>>,
                                     plan: string -> Result<Action>,
                                     bus: nat -> Transport, k: nat)
    requires Serve(a, plan, bus, k).end.Closed?
    ensures var s := Serve(a, plan, bus, k);
      var t := Serve(b, plan, bus, s.ops);
      Serve(a + b, plan, bus, k) == Session(s.replies + t.replies, t.ops, t.end)
    decreases |a|
  {
    if a == [] {
      assert a + b == b;
    } else {
      var s := ServeConnection(a[0], plan, bus, k);
      ServeClosedFirst(a, plan, bus, k);
      ServeAppend(a[1..], b, plan, bus, s.ops);
      ServeAppendStep(a, b, plan, bus, k);
    }
  }

  /** The step of ServeAppend: from the rest of `a` followed by `b` to all of it. */
  lemma ServeAppendStep(a: seq<seq<string>>, b: seq<seq<string>>,
                        plan: string -> Result<Action>, bus: nat -> Transport, k: nat)
    requires a != [] && ServeConnection(a[0], plan, bus, k).end.Closed?
    requires var s := ServeConnection(a[0], plan, bus, k);
      var t := Serve(a[1..], plan, bus, s.ops);
      var u := Serve(b, plan, bus, t.ops);
      Serve(a[1..] + b, plan, bus, s.ops) == Session(t.replies + u.replies, u.ops, u.end)
    ensures var s := ServeConnection(a[0], plan, bus, k);
      var t := Serve(a[1..], plan, bus, s.ops);
      var u := Serve(b, plan, bus, t.ops);
      Serve(a + b, plan, bus, k) == Session((s.replies + t.replies) + u.replies, u.ops, u.end)
  {
    var s := ServeConnection(a[0], plan, bus, k);
    var t := Serve(a[1..], plan, bus, s.ops);
    var u := Serve(b, plan, bus, t.ops);
    assert (a + b)[0] == a[0] && (a + b)[1..] == a[1..] + b;
    ServeClosedFirst(a + b, plan, bus, k);
    assert s.replies + (t.replies + u.replies) == (s.replies + t.replies) + u.replies;
  }

  /** Serving a first connection that the client closed, then the rest. */
  lemma ServeClosedFirst(conns: seq<seq<string>>, plan: string -> Result<Action>,
                         bus: nat -> Transport, k: nat)
    requires conns != [] && ServeConnection(conns[0], plan, bus, k).end.Closed?
    ensures var s := ServeConnection(conns[0], plan, bus, k);
      var t := Serve(conns[1..], plan, bus, s.ops);
      Serve(conns, plan, bus, k) == Session(s.replies + t.replies, t.ops, t.end)
  {
  }

  /** The sentinel (or a fault) ends the run: later connections are never
      served. */
  lemma {:induction false} ServeEndIsFinal(a: seq<seq<string>>, b: seq<seq<string>>,
                                         plan: string -> Result<Action>,
                                         bus: nat -> Transport, k: nat)
    requires !Serve(a, plan, bus, k).end.Closed?
    ensures Serve(a + b, plan, bus, k) == Serve(a, plan, bus, k)
    decreases |a|
  {
    var s := ServeConnection(a[0], plan, bus, k);
    assert (a + b)[0] == a[0];
    if s.end.Closed? {
      assert (a + b)[1..] == a[1..] + b;
      ServeEndIsFinal(a[1..], b, plan, bus, s.ops);
    }
  }

  /** Serving from connection ci on is serving connection ci, then (if the
      client closed it) the rest. */
  lemma ServeStep(conns: seq<seq<string>>, ci: nat, plan: string -> Result<Action>,
                  bus: nat -> Transport, k: nat)
    requires ci < |conns|
    ensures var s := ServeConnection(conns[ci], plan, bus, k);
      var t := Serve(conns[ci + 1..], plan, bus, s.ops);
      Serve(conns[ci..], plan, bus, k) ==
        if s.end.Closed? then Session(s.replies + t.replies, t.ops, t.end) else s
  {
    assert conns[ci..][0] == conns[ci] && conns[ci..][1..] == conns[ci + 1..];
  }

  // -------------------------------------------------------------- server

  class GpibServer {
    /** The loop flag of run. */
    var running: bool
    /** Every reply sent so far, over all connections, in order. */
    var replies: seq<string>
    /** The device operations performed so far. */
    var deviceOps: nat
    const port: nat
    const silent: bool
    /** The VISA resource of the LakeShore device opened at construction. */
    const lakeshore: string

    /** GpibServer.__init__ (lines 17-30): not running yet; the LakeShore is
        the bus device at its address from the address table. */
    constructor(port: nat, silent: bool)
      ensures !running && replies == [] && deviceOps == 0
      ensures this.port == port && this.silent == silent
      ensures lakeshore == ResourceName(Get.GpibAddress[LakeShoreId], 0)
    {
      running := false;
      replies := [];
      deviceOps := 0;
      this.port := port;
      this.silent := silent;
      lakeshore := ResourceName(Get.GpibAddress[LakeShoreId], 0);
    }

    /** GpibServer.run (lines 90-136) over the given connections.  It sends
        exactly the replies of Serve, leaves `running` false only when the
        sentinel arrived (a fault leaves it true, as the exception does),
        and returns how it stopped; `Closed` means it waits in accept. */
    method Run(conns: seq<seq<string>>, bus: nat -> Transport) returns (end: End)
      modifies this
      ensures var t := Serve(conns, Plan, bus, old(deviceOps));
        replies == old(replies) + t.replies && deviceOps == t.ops && end == t.end
      ensures running <==> !end.Shutdown?
    {
      end := Listen(conns, Plan, bus);
    }

    /** The accept loop of run (lines 94-136), proved for any way `plan` of
        planning a message; Run uses the server's own, Plan. */
    method Listen(conns: seq<seq<string>>, plan: string -> Result<Action>, bus: nat -> Transport)
      returns (end: End)
      modifies this
      ensures var t := Serve(conns, plan, bus, old(deviceOps));
        replies == old(replies) + t.replies && deviceOps == t.ops && end == t.end
      ensures running <==> !end.Shutdown?
    {
      ghost var total := Serve(conns, plan, bus, deviceOps);
      running := true;
      var ci := 0;
      while running
        invariant 0 <= ci <= |conns|
        invariant running ==>
          var t := Serve(conns[ci..], plan, bus, deviceOps);
          old(replies) + total.replies == replies + t.replies &&
          total.ops == t.ops && total.end == t.end
        invariant !running ==>
          old(replies) + total.replies == replies && total.ops == deviceOps && total.end == Shutdown
        decreases |conns| - ci
      {
        if ci == |conns| {
          end := Closed;
          return;
        }
        ghost var before := replies;
        ghost var session := ServeConnection(conns[ci], plan, bus, deviceOps);
        ghost var later := Serve(conns[ci + 1..], plan, bus, session.ops);
        ServeStep(conns, ci, plan, bus, deviceOps);
        var e := Converse(conns[ci], plan, bus);
        assert replies == before + session.replies;
        AppendAssoc(before, session.replies, later.replies);
        if e.Crashed? {
          end := e;
          return;
        }
        ci := ci + 1;
      }
      end := Shutdown;
    }

    /** One accepted connection (lines 113-136): read, answer, repeat, until
        the client closes, the sentinel arrives or handle raises. */
    method Converse(msgs: seq<string>, plan: string -> Result<Action>, bus: nat -> Transport) returns (end: End)
      requires running
      modifies this
      ensures var s := ServeConnection(msgs, plan, bus, old(deviceOps));
        replies == old(replies) + s.replies && deviceOps == s.ops && end == s.end
      ensures running <==> !end.Shutdown?
    {
      ghost var session := ServeConnection(msgs, plan, bus, deviceOps);
      var mi := 0;
      while true
        invariant 0 <= mi <= |msgs| && running
        invariant var s := ServeConnection(msgs[mi..], plan, bus, deviceOps);
          old(replies) + session.replies == replies + s.replies &&
          session.ops == s.ops && session.end == s.end
        decreases |msgs| - mi
      {
        if mi == |msgs| || msgs[mi] == [] {
          return Closed;
        }
        assert msgs[mi..][0] == msgs[mi];
        assert msgs[mi..][1..] == msgs[mi + 1..];
        if msgs[mi] == ShutdownCommand {
          running := false;
          return Shutdown;
        }
        var action := plan(msgs[mi]);
        if action.Fault? {
          return Crashed(action.error);
        }
        var reply := Reply(action.value, bus(deviceOps));
        ghost var rest := ServeConnection(msgs[mi + 1..], plan, bus, if action.value.Perform? then deviceOps + 1 else deviceOps);
        AppendAssoc(replies, [reply], rest.replies);
        if action.value.Perform? {
          deviceOps := deviceOps + 1;
        }
        replies := replies + [reply];
        mi := mi + 1;
      }
    }
  }

  // ---------------------------------------------------------- echo server

  /** server_echo_rev (line 171): the reply is the message reversed. */
  function EchoReply(message: string): (reply: string)
    ensures |reply| == |message|
    ensures forall i :: 0 <= i < |message| ==> reply[i] == message[|message| - 1 - i]
  {
    forall i | 0 <= i < |message| ensures Reverse(message)[i] == message[|message| - 1 - i] {
      ReverseAt(message, i);
    }
    Reverse(message)
  }

  /** Reversing the reply recovers the message; "ping" gets "gnip". */
  lemma EchoRoundTrip(message: string)
    ensures Reverse(EchoReply(message)) == message
    ensures EchoReply("ping") == "gnip"
  {
    ReverseTwice(message);
    assert EchoReply("ping")[0] == 'g';
    assert EchoReply("ping")[1] == 'n';
  }

  /** The default port of the server is the one the address table names. */
  lemma PortAgrees()
    ensures DefaultPort == Get.Port
  {
  }
}
