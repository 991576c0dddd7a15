/** The echo server of test/test_server.cc: its message callback takes all input and sends it back. */
module Echo {
  import opened Sequences
  import opened Checks
  import opened NetBuffer
  import opened Connection
  import opened ConnectionEffects
  import P = Poller

  /** `handle_message`: retrieve everything as one string, then send it; `result` is the outcome of the direct write. */
  function EchoCalls(message: seq<byte>, result: WriteResult): seq<Call>
  {
    [CallRetrieve(|message|), CallSend(message, result)]
  }

  datatype EchoOp = Start | Ready(mask: P.Mask, read: Option<seq<byte>>, result: WriteResult, accepted: Option<nat>)

  function AsOp(c: Conn, op: EchoOp): Connection.Op
    requires c.Valid()
  {
    match op
    case Start => Establish
    case Ready(mask, read, result, accepted) =>
      var message := c.input.Readable() + if read.Some? then read.value else [];
      Connection.Op.Ready(mask, Env(read, EchoCalls(message, result), accepted))
  }

  predicate NoFault(op: EchoOp)
  {
    op.Ready? ==> !op.result.Failed?
  }

  function EchoRun(c: Conn, ops: seq<EchoOp>): (r: Checked<Conn>)
    requires c.Valid()
    ensures r.Fine? ==> r.value.Valid()
    decreases |ops|
  {
    if ops == [] then Fine(c)
    else if !NoFault(ops[0]) || !Connection.Allowed(c, AsOp(c, ops[0])) then EchoRun(c, ops[1..])
    else
      var c' :- Connection.Apply(c, AsOp(c, ops[0]));
      EchoRun(c', ops[1..])
  }

  /** Nothing is left unread, there is room for the next read, and what arrived is what was taken for sending. */
  predicate EchoInv(c: Conn)
  {
    && Inv(c)
    && !c.state.Disconnecting?
    && c.input.reader == PREPEND && c.input.Readable() == []
    && |c.input.storage| >= PREPEND + INITIAL_SIZE
    && c.arrived == c.taken
  }

  lemma EchoStarts(notifies: bool)
    ensures EchoInv(NewConn(notifies))
  {
  }

  /** Room is never the problem: a read fails exactly when one call delivers as much as the scratch copy holds. */
  lemma EchoReadFitsIff(c: Conn, len: nat)
    requires EchoInv(c)
    ensures c.input.ReadFits(len) <==> len < SCATTER_SPACE
  {
  }

  lemma ScatterReadNeverShrinks(b: Image, data: seq<byte>)
    requires b.Valid()
    ensures |b.ScatterRead(data).storage| >= |b.storage|
  {
    if |data| > b.Writable() {
      AppendGrowsIff(b.Fill(data[..b.Writable()]), data[b.Writable()..]);
    }
  }

  lemma EchoMessage(c: Conn, data: seq<byte>, result: WriteResult)
    requires EchoInv(c) && c.state.Connected? && data != [] && !result.Failed?
    requires CallsPossible(Received(c, data), EchoCalls(data, result))
    ensures EchoInv(AfterCalls(Received(c, data), EchoCalls(data, result)))
  {
    hide Image.ScatterRead, Image.Append, Wire, Conserved, InterestMatches, ShutLast, InOrder;
    ScatterReadNeverShrinks(c.input, data);
    var c1 := Received(c, data);
    var calls := EchoCalls(data, result);
    assert c1.input.Readable() == data;
    assert Inv(c1) by { ReceivedInv(c, data); }
    InvokeAllInv(c1, calls);
    var c2 := AfterCall(c1, calls[0]);
    assert c2.input.Readable() == [] && c2.input.reader == PREPEND;
    assert calls[1..] == [calls[1]] && calls[1..][1..] == [];
    var c3 := AfterCall(c2, calls[1]);
    assert AfterCalls(c2, calls[1..]) == c3;
    assert AfterCalls(c1, calls) == c3;
    assert c3.taken == c.taken + data;
  }

  lemma ReceivedInv(c: Conn, data: seq<byte>)
    requires Inv(c) && c.IsUp()
    ensures Inv(Received(c, data))
  {
  }

  /** Closing and writing touch neither the input buffer nor the two histories. */
  lemma EventKeepsInput(c: Conn, mask: P.Mask, env: Env)
    requires c.Valid() && EventPossible(c, mask, env) && AfterHandleEvent(c, mask, env).Fine?
    requires env.read.Some? && env.read.value != [] ==> !ReadsNow(mask)
    ensures var c' := AfterHandleEvent(c, mask, env).value;
      && c'.input == c.input && c'.arrived == c.arrived && c'.taken == c.taken
      && (c'.state == c.state || c'.state.Disconnected?)
  {
  }

  /** After the message callback only the write handler is left. */
  lemma EventAfterMessage(c: Conn, mask: P.Mask, env: Env)
    requires Inv(c) && c.IsUp() && EventPossible(c, mask, env) && FitsIfRead(c, mask, env) && !ClosesAndReads(mask)
    requires env.read.Some? && env.read.value != [] && ReadsNow(mask)
    ensures var c1 := AfterCalls(Received(c, env.read.value), env.calls);
      var c' := AfterHandleEvent(c, mask, env).value;
      c'.input == c1.input && c'.arrived == c1.arrived && c'.taken == c1.taken && c'.state == c1.state
  {
    hide Inv, AfterCalls, Received;
    HandleEventFaultIff(c, mask, env);
  }

  lemma EchoStep(c: Conn, op: EchoOp)
    requires EchoInv(c) && NoFault(op) && Connection.Allowed(c, AsOp(c, op))
    ensures Connection.Apply(c, AsOp(c, op)).Fine? && EchoInv(Connection.Apply(c, AsOp(c, op)).value)
  {
    ApplyInv(c, AsOp(c, op));
    if op.Ready? {
      var env := AsOp(c, op).env;
      if env.read.Some? && env.read.value != [] && ReadsNow(op.mask) {
        assert c.input.Readable() + env.read.value == env.read.value;
        EchoMessage(c, env.read.value, op.result);
        EventAfterMessage(c, op.mask, env);
      } else {
        EventKeepsInput(c, op.mask, env);
      }
    }
  }

  /** The message callback on an idle connection whose socket takes everything. */
  lemma EchoSends(c: Conn, data: seq<byte>)
    requires EchoInv(c) && c.state.Connected? && c.output.Readable() == [] && data != []
    ensures var calls := EchoCalls(data, Accepted(|data|)); CallsPossible(Received(c, data), calls)
    ensures var c' := AfterCalls(Received(c, data), EchoCalls(data, Accepted(|data|)));
      Wire(c'.socket) == Wire(c.socket) + data && c'.arrived == c.arrived + data
  {
    hide Wire, ShutLast, InOrder, Announced, Conserved, Image.ScatterRead, Image.Append, AfterSend;
    var calls := EchoCalls(data, Accepted(|data|));
    var c1 := Received(c, data);
    ReceivedInv(c, data);
    assert c1.input.Readable() == data;
    var c2 := AfterCall(c1, calls[0]);
    InvokeInv(c1, calls[0]);
    var c3 := AfterSend(c2, data, Accepted(|data|));
    SendWritesAndKeeps(c2, data, |data|);
    assert data[..|data|] == data;
    assert calls[1..] == [calls[1]] && calls[1..][1..] == [];
    assert CallsPossible(c2, calls[1..]) && AfterCalls(c2, calls[1..]) == c3;
    assert CallsPossible(c1, calls) && AfterCalls(c1, calls) == c3;
  }

  lemma EchoRunOne(c: Conn, op: EchoOp, c': Conn)
    requires c.Valid() && NoFault(op) && Connection.Allowed(c, AsOp(c, op)) && Connection.Apply(c, AsOp(c, op)) == Fine(c')
    ensures EchoRun(c, [op]) == Fine(c')
  {
    hide Connection.Allowed, Connection.Apply, AsOp;
    assert [op][1..] == [];
    assert EchoRun(c', []) == Fine(c');
  }

  /** So what arrives is on the wire when the event has been handled. */
  lemma EchoAnswers(c: Conn, data: seq<byte>)
    requires EchoInv(c) && c.state.Connected? && c.output.Readable() == [] && 0 < |data| < SCATTER_SPACE
    ensures var r := EchoRun(c, [EchoOp.Ready(P.EPOLLIN, Some(data), Accepted(|data|), None)]);
      r.Fine? && Wire(r.value.socket) == Wire(c.socket) + data && r.value.arrived == c.arrived + data
  {
    hide Wire, ShutLast, InOrder, Announced, Conserved, InterestMatches, CallsPossible, AfterCalls, Received, EchoRun;
    var op, calls := EchoOp.Ready(P.EPOLLIN, Some(data), Accepted(|data|), None), EchoCalls(data, Accepted(|data|));
    assert c.input.Readable() + data == data;
    assert AsOp(c, op) == Connection.Op.Ready(P.EPOLLIN, Env(Some(data), calls, None));
    EchoReadFitsIff(c, |data|);
    EchoSends(c, data);
    EchoRunOne(c, op, AfterCalls(Received(c, data), calls));
  }

  /**
   * Echo is the identity on byte streams: in every run without a write fault whose reads fit, what was read is what is
   * on the wire followed by what is waiting; the input buffer is empty after every event and has room, so `read_fd`
   * never finds it full.
   */
  lemma {:induction false} EchoIsIdentity(c: Conn, ops: seq<EchoOp>)
    requires EchoInv(c)
    ensures EchoRun(c, ops).Fine? && EchoInv(EchoRun(c, ops).value)
    ensures var c' := EchoRun(c, ops).value;
      c'.arrived == Wire(c'.socket) + c'.output.Readable() && c'.input.Writable() >= INITIAL_SIZE
    decreases |ops|
  {
    if ops == [] {
    } else if !NoFault(ops[0]) || !Connection.Allowed(c, AsOp(c, ops[0])) {
      EchoIsIdentity(c, ops[1..]);
    } else {
      EchoStep(c, ops[0]);
      EchoIsIdentity(Connection.Apply(c, AsOp(c, ops[0])).value, ops[1..]);
    }
  }
}
