/**
 * What the user, the peer and the socket observe of each operation of a connection, stated without the operation's own
 * branches: which bytes leave, which wait, which arrive, which callbacks run, for which bits of a ready mask.
 */
module ConnectionEffects {
  import opened Sequences
  import opened Checks
  import opened NetBuffer
  import opened Connection
  import P = Poller

  /** The reading side is as it was. */
  predicate SameInput(c: Conn, c': Conn)
  {
    c'.input == c.input && c'.arrived == c.arrived && c'.callbacks == c.callbacks && c'.notifies == c.notifies
  }

  // ----- send -----

  /** A write error on an idle connection loses the message: nothing is written, kept or announced. */
  lemma FailedSendTakesNothing(c: Conn, data: seq<byte>)
    requires Inv(c) && c.state.Connected? && c.output.Readable() == []
    ensures AfterSend(c, data, Failed) == c
  {
  }

  /** On an idle connection what the socket accepts is on the wire, the rest waits, and only a whole message completes. */
  lemma SendWritesAndKeeps(c: Conn, data: seq<byte>, n: nat)
    requires Inv(c) && c.state.Connected? && c.output.Readable() == [] && n <= |data|
    ensures var c' := AfterSend(c, data, Accepted(n));
      && Wire(c'.socket) == Wire(c.socket) + data[..n] && c'.output.Readable() == data[n..]
      && c'.taken == c.taken + data && (c'.Writing() <==> n < |data|)
      && c'.completions == c.completions + (if n == |data| && c.notifies then [|c.taken| + |data|] else [])
      && c'.state.Connected? && c'.events == c.events.(output := n < |data|) && SameInput(c, c')
  {
    hide Wire, ShutLast, InOrder, Announced, Image.Append;
    assert !c.Writing();
    WireSnoc(c.socket, Wrote(data[..n]));
    assert [] + data[n..] == data[n..];
    assert c.completions + [] == c.completions;
    assert data[|data|..] == [];
  }

  /** A socket that would block takes nothing, and all of the message waits. */
  lemma BlockedSendKeepsAll(c: Conn, data: seq<byte>)
    requires Inv(c) && c.state.Connected? && c.output.Readable() == []
    ensures var c' := AfterSend(c, data, WouldBlock);
      && c'.socket == c.socket && c'.output.Readable() == data && c'.taken == c.taken + data
      && (c'.Writing() <==> data != []) && c'.completions == c.completions && c'.state.Connected? && SameInput(c, c')
  {
    hide Wire, ShutLast, InOrder, Announced, Image.Append;
    assert !c.Writing();
    assert data[0..] == data && [] + data == data;
  }

  /** Behind waiting output a message waits its turn, whatever the socket would say. */
  lemma SendQueuesBehind(c: Conn, data: seq<byte>, result: WriteResult)
    requires Inv(c) && c.state.Connected? && c.output.Readable() != [] && Possible(|data|, result)
    ensures var c' := AfterSend(c, data, result);
      && c'.socket == c.socket && c'.output.Readable() == c.output.Readable() + data && c'.taken == c.taken + data
      && c'.Writing() && c'.completions == c.completions && c'.state.Connected? && SameInput(c, c')
  {
    hide Wire, ShutLast, InOrder, Announced, Image.Append;
    assert c.Writing();
    assert data[0..] == data && c.output.Readable() + [] == c.output.Readable();
  }

  /** A connection that is not Connected sends nothing. */
  lemma SendOutsideConnected(c: Conn, data: seq<byte>, result: WriteResult)
    requires c.Valid() && !c.state.Connected? && Possible(|data|, result)
    ensures AfterSend(c, data, result) == c
  {
  }

  // ----- shutdown -----

  /** A first shutdown closes the write side at once, or leaves that to the last waiting byte; a second does nothing. */
  lemma ShutdownShutsOrWaits(c: Conn)
    requires Inv(c)
    ensures var c' := AfterShutdown(c);
      if !c.state.Connected? then c' == c
      else c' == c.(state := Disconnecting,
                    socket := if c.output.Readable() == [] then c.socket + [ShutWrite] else c.socket)
  {
    hide Wire, ShutLast, InOrder, Announced;
  }

  // ----- the write handler -----

  /** Exactly the accepted bytes move from the output to the wire; the last one ends write interest and completes. */
  lemma HandleWriteMovesAccepted(c: Conn, n: nat)
    requires Inv(c) && c.Writing() && n <= |c.output.Readable()|
    ensures var c' := AfterHandleWrite(c, Some(n)); var drained := n == |c.output.Readable()|;
      && Wire(c'.socket) == Wire(c.socket) + c.output.Readable()[..n]
      && c'.output.Readable() == c.output.Readable()[n..]
      && (c'.Writing() <==> !drained) && c'.state == c.state && c'.taken == c.taken && SameInput(c, c')
      && c'.completions == c.completions + (if drained && c.notifies then [|c.taken|] else [])
      && (drained && c.state.Disconnecting? <==> c'.socket[|c'.socket| - 1] == ShutWrite)
  {
    hide Wire, ShutLast, InOrder, Announced;
    WritingIsOpen(c);
    var sent := c.output.Readable()[..n];
    WireSnoc(c.socket, Wrote(sent));
    WireSnoc(c.socket + [Wrote(sent)], ShutWrite);
    assert c.completions + [] == c.completions;
  }

  /** A write error, or an event without write interest, changes nothing. */
  lemma HandleWriteIdle(c: Conn, accepted: Option<nat>)
    requires c.Valid() && (accepted.Some? ==> accepted.value <= |c.output.Readable()|)
    requires accepted.None? || !c.events.output
    ensures AfterHandleWrite(c, accepted) == c
  {
  }

  // ----- what user code may call -----

  /** In every state user code may send with any outcome, shut down, and retrieve what is readable, one after another. */
  lemma CallsAreFree(c: Conn, call: Call, more: seq<Call>)
    requires c.Valid()
    requires match call
             case CallSend(data, result) => result.Accepted? ==> result.n <= |data|
             case CallShutdown => true
             case CallRetrieve(len) => len <= |c.input.Readable()|
    ensures Connection.Allowed(c, UserCall(call)) && CallPossible(c, call)
    ensures CallsPossible(AfterCall(c, call), more) ==> CallsPossible(c, [call] + more)
    ensures CallsPossible(AfterCall(c, call), more) ==> AfterCalls(c, [call] + more) == AfterCalls(AfterCall(c, call), more)
  {
    hide AfterCall;
    assert ([call] + more)[1..] == more;
  }

  // ----- establishing, reading, closing -----

  /** Only a Connecting connection is established; it then wants to read and has told the user. */
  lemma EstablishedTells(c: Conn)
    requires Inv(c)
    ensures var r := AfterConnectEstablished(c);
      && (r.Fine? <==> c.state.Connecting?)
      && (r.Fine? ==> r.value == c.(state := Connected, events := P.Mask(true, true, false, false, false, false),
                                    callbacks := [Up]))
  {
  }

  /** Only a connection that is up can be closed; nothing more is wanted of its socket, and the user is told twice. */
  lemma CloseTells(c: Conn)
    requires c.Valid()
    ensures var r := AfterHandleClose(c);
      && (r.Fine? <==> c.state.Connected? || c.state.Disconnecting?)
      && (r.Fine? ==>
            && r.value.state.Disconnected? && r.value.events == P.Mask(false, false, false, false, false, false)
            && r.value.callbacks == c.callbacks + [Down, Close]
            && r.value.(state := c.state, events := c.events, callbacks := c.callbacks) == c)
  {
  }

  // ----- ready masks, bit by bit -----

  /** The mask asks for a read; the mask closes the connection before anything else. */
  lemma ReadBits(mask: P.Mask)
    ensures ReadsNow(mask) <==> mask.input || mask.urgent || mask.peerClosed
    ensures ClosesAndReads(mask) <==> mask.hangUp && !mask.input && (mask.urgent || mask.peerClosed)
  {
  }

  /** What reading data does, before the message callback does anything with it. */
  lemma ReadDelivers(c: Conn, data: seq<byte>)
    requires c.Valid() && data != [] && c.input.Writable() > 0 && |c.input.Readable()| + |data| < 65536
    ensures var r := AfterHandleRead(c, Some(data), []);
      && r.Fine? && r.value.arrived == c.arrived + data && r.value.callbacks == c.callbacks + [Message]
      && r.value.input.Readable() == c.input.Readable() + data
      && r.value.(input := c.input, arrived := c.arrived, callbacks := c.callbacks) == c
  {
    hide Image.ScatterRead;
  }

  /** A read error changes nothing; the connection stays as it is. */
  lemma ReadErrorIdle(c: Conn, calls: seq<Call>)
    requires c.Valid() && c.input.Writable() > 0 && |c.input.Readable()| < 65536
    ensures AfterHandleRead(c, None, calls) == Fine(c)
  {
  }

  /** Taking bytes out of the input leaves exactly those behind them, and touches nothing else. */
  lemma RetrieveTakesFront(c: Conn, len: nat)
    requires c.Valid() && len <= |c.input.Readable()|
    ensures CallPossible(c, CallRetrieve(len))
    ensures var c' := AfterCall(c, CallRetrieve(len));
      c'.input.Readable() == c.input.Readable()[len..] && c'.(input := c.input) == c
  {
  }

  /** Any read bit of a mask that does not close delivers what has arrived, and the user is told once. */
  lemma AnyReadBitDelivers(c: Conn, mask: P.Mask, data: seq<byte>)
    requires Inv(c) && c.IsUp() && (mask.input || mask.urgent || mask.peerClosed) && !(mask.hangUp && !mask.input)
    requires data != [] && c.input.Writable() > 0 && |c.input.Readable()| + |data| < 65536
    ensures Connection.Allowed(c, Ready(mask, Env(Some(data), [], None)))
    ensures var r := AfterHandleEvent(c, mask, Env(Some(data), [], None));
      && r.Fine? && r.value.arrived == c.arrived + data && r.value.callbacks == c.callbacks + [Message]
      && r.value.input.Readable() == c.input.Readable() + data
      && r.value.socket == c.socket && r.value.output == c.output && r.value.state == c.state
  {
    hide Wire, Conserved, InterestMatches, ShutLast, InOrder, Announced;
    hide Image.ScatterRead, AfterHandleRead, AfterHandleWrite;
    ReadDelivers(c, data);
    assert AfterCalls(Received(c, data), []) == Received(c, data);
    HandleWriteIdle(AfterHandleRead(c, Some(data), []).value, None);
  }

  /** End of stream on any such mask closes the connection. */
  lemma EndOfStreamCloses(c: Conn, mask: P.Mask)
    requires Inv(c) && c.IsUp() && (mask.input || mask.urgent || mask.peerClosed) && !(mask.hangUp && !mask.input)
    requires c.input.Writable() > 0 && |c.input.Readable()| < 65536
    ensures Connection.Allowed(c, Ready(mask, Env(Some([]), [], None)))
    ensures AfterHandleEvent(c, mask, Env(Some([]), [], None)) == AfterHandleClose(c)
  {
    hide Wire, Conserved, InterestMatches, ShutLast, InOrder, Announced, AfterHandleWrite;
    CloseTells(c);
    HandleWriteIdle(AfterHandleClose(c).value, None);
  }

  /** A hang-up without input and without another read bit closes it too, whatever the socket would deliver. */
  lemma HangUpCloses(c: Conn, mask: P.Mask, env: Env)
    requires Inv(c) && c.IsUp() && mask.hangUp && !mask.input && !mask.urgent && !mask.peerClosed
    requires EventPossible(c, mask, env)
    ensures AfterHandleEvent(c, mask, env) == AfterHandleClose(c)
  {
    hide Wire, Conserved, InterestMatches, ShutLast, InOrder, Announced, AfterHandleWrite;
    CloseTells(c);
    HandleWriteIdle(AfterHandleClose(c).value, env.accepted);
  }

  /** The output bit alone hands the accepted bytes to the socket and leaves the reading side alone. */
  lemma OutputBitWrites(c: Conn, mask: P.Mask, n: nat)
    requires Inv(c) && c.IsUp() && n <= |c.output.Readable()|
    requires mask.output && !mask.hangUp && !mask.input && !mask.urgent && !mask.peerClosed
    ensures Connection.Allowed(c, Ready(mask, Env(None, [], Some(n))))
    ensures AfterHandleEvent(c, mask, Env(None, [], Some(n))) == Fine(AfterHandleWrite(c, Some(n)))
  {
    hide Wire, Conserved, InterestMatches, ShutLast, InOrder, Announced, AfterHandleWrite;
  }

  /** Input and output in one mask: the data is delivered first, and then the accepted bytes go out. */
  lemma ReadsThenWrites(c: Conn, mask: P.Mask, data: seq<byte>, n: nat)
    requires Inv(c) && c.IsUp() && mask.input && mask.output && data != [] && n <= |c.output.Readable()|
    requires c.input.Writable() > 0 && |c.input.Readable()| + |data| < 65536
    ensures Connection.Allowed(c, Ready(mask, Env(Some(data), [], Some(n))))
    ensures AfterHandleEvent(c, mask, Env(Some(data), [], Some(n)))
      == Fine(AfterHandleWrite(AfterHandleRead(c, Some(data), []).value, Some(n)))
  {
    hide Wire, Conserved, InterestMatches, ShutLast, InOrder, Announced;
    hide Image.ScatterRead, AfterHandleRead, AfterHandleWrite;
    ReadDelivers(c, data);
    assert AfterCalls(Received(c, data), []) == Received(c, data);
  }

  /** A mask without any of these bits changes nothing. */
  lemma OtherBitsDoNothing(c: Conn, mask: P.Mask, env: Env)
    requires Inv(c) && !mask.hangUp && !mask.input && !mask.urgent && !mask.peerClosed && !mask.output
    requires EventPossible(c, mask, env)
    ensures AfterHandleEvent(c, mask, env) == Fine(c)
  {
    hide Wire, Conserved, InterestMatches, ShutLast, InOrder, Announced;
  }

  /** A new connection: nothing wanted of the socket yet, empty buffers of 1024 bytes behind 8, empty histories. */
  lemma NewConnIs(notifies: bool)
    ensures var c := NewConn(notifies);
      && c.state.Connecting? && c.events == P.Mask(false, false, false, false, false, false) && c.notifies == notifies
      && c.input == c.output && c.input.reader == 8 && c.input.writer == 8 && c.input.Writable() == 1024
      && c.socket == [] && c.taken == [] && c.arrived == [] && c.callbacks == [] && c.completions == []
  {
  }
}
