/**
 * One TCP connection on its loop thread (clia/src/net/tcp_connection.cc, clia/src/reactor/channel.cc): direct, partial
 * and deferred writes, half-close, reads, close, and the dispatch of one ready mask.
 */
module Connection {
  import opened Sequences
  import opened Checks
  import opened NetBuffer
  import P = Poller

  datatype State = Connecting | Connected | Disconnecting | Disconnected

  /** What the peer can observe of the socket's write side. */
  datatype SocketEvent = Wrote(data: seq<byte>) | ShutWrite

  /** What the user of the connection observes. */
  datatype Callback = Up | Message | Down | Close

  /** Result of `write`: bytes accepted, EWOULDBLOCK, or any other error. */
  datatype WriteResult = Accepted(n: nat) | WouldBlock | Failed

  /** What user code on the loop thread may do, for instance inside the message callback. */
  datatype Call = CallSend(data: seq<byte>, result: WriteResult) | CallShutdown | CallRetrieve(len: nat)

  /**
   * `notifies` says whether a write-complete callback is set. The rest are histories: socket events, bytes of messages
   * that `send` took over, bytes read from the socket, callbacks made, and for each write-complete functor queued the
   * number of bytes taken until then.
   */
  datatype Conn = Conn(
    state: State, events: P.Mask, input: Image, output: Image, notifies: bool,
    socket: seq<SocketEvent>, taken: seq<byte>, arrived: seq<byte>, callbacks: seq<Callback>, completions: seq<nat>) {

    predicate Writing() { events.Has(P.WRITE_EVENT) }

    predicate IsUp() { state.Connected? || state.Disconnecting? }

    predicate Valid() { input.Valid() && output.Valid() }

    /** The write-complete functor is queued, if there is one. */
    function Complete(): Conn { if notifies then this.(completions := completions + [|taken|]) else this }
  }

  const INITIAL_SIZE: nat := 1024

  function NewBuffer(): (b: Image)
    ensures b.Valid() && b.Readable() == []
  {
    Image(Zeros(PREPEND + INITIAL_SIZE), PREPEND, PREPEND)
  }

  function NewConn(notifies: bool): (c: Conn)
    ensures Inv(c)
  {
    Conn(Connecting, P.NO_EVENT, NewBuffer(), NewBuffer(), notifies, [], [], [], [], [])
  }

  /** All bytes written to the socket. */
  function Wire(socket: seq<SocketEvent>): seq<byte>
  {
    if socket == [] then []
    else
      var last := socket[|socket| - 1];
      Wire(socket[..|socket| - 1]) + if last.Wrote? then last.data else []
  }

  lemma WireSnoc(socket: seq<SocketEvent>, e: SocketEvent)
    ensures Wire(socket + [e]) == Wire(socket) + if e.Wrote? then e.data else []
  {
    assert (socket + [e])[..|socket|] == socket;
  }

  // ----- the handlers -----

  predicate Possible(len: nat, result: WriteResult) { result.Accepted? ==> result.n <= len }

  /** A message whose first n bytes are written: the others wait, or its completion is announced if it was written now. */
  function TakenOver(c: Conn, data: seq<byte>, n: nat, wrote: bool): (c': Conn)
    requires c.Valid() && n <= |data|
    ensures c'.Valid()
  {
    var c1 := c.(taken := c.taken + data);
    if n == |data| then if wrote then c1.Complete() else c1
    else c1.(output := c.output.Append(data[n..]), events := c.events.Or(P.WRITE_EVENT))
  }

  function AfterSendInLoop(c: Conn, data: seq<byte>, result: WriteResult): (c': Conn)
    requires c.Valid() && Possible(|data|, result)
    ensures c'.Valid()
  {
    if c.state.Disconnected? then c
    else
      var direct := !c.Writing() && |c.output.Readable()| == 0;
      if direct && result.Failed? then c
      else
        var wrote := direct && result.Accepted?;
        var nwrote := if wrote then result.n else 0;
        TakenOver(if wrote then c.(socket := c.socket + [Wrote(data[..nwrote])]) else c, data, nwrote, wrote)
  }

  function AfterSend(c: Conn, data: seq<byte>, result: WriteResult): (c': Conn)
    requires c.Valid() && Possible(|data|, result)
    ensures c'.Valid()
  {
    if c.state.Connected? then AfterSendInLoop(c, data, result) else c
  }

  function AfterShutdownInLoop(c: Conn): Conn
  {
    if c.Writing() then c else c.(socket := c.socket + [ShutWrite])
  }

  function AfterShutdown(c: Conn): Conn
  {
    if c.state.Connected? then AfterShutdownInLoop(c.(state := Disconnecting)) else c
  }

  /** `accepted` is the result of `write` on the readable output; None stands for an error. */
  function AfterHandleWrite(c: Conn, accepted: Option<nat>): (c': Conn)
    requires c.Valid() && (accepted.Some? ==> accepted.value <= |c.output.Readable()|)
    ensures c'.Valid()
  {
    if !c.Writing() || accepted.None? then c
    else
      var n := accepted.value;
      var c1 := c.(output := c.output.Retrieve(n), socket := c.socket + [Wrote(c.output.Readable()[..n])]);
      if n > 0 && |c1.output.Readable()| == 0 then
        var c2 := c1.(events := c1.events.Without(P.WRITE_EVENT)).Complete();
        if c2.state.Disconnecting? then AfterShutdownInLoop(c2) else c2
      else c1
  }

  function AfterHandleClose(c: Conn): Checked<Conn>
  {
    var _ :- Check(c.IsUp(), "tcp_connection.cc:149");
    Fine(c.(state := Disconnected, events := P.NO_EVENT, callbacks := c.callbacks + [Down, Close]))
  }

  function AfterConnectEstablished(c: Conn): Checked<Conn>
  {
    var _ :- Check(c.state.Connecting?, "tcp_connection.cc:83");
    Fine(c.(state := Connected, events := c.events.Or(P.READ_EVENT), callbacks := c.callbacks + [Up]))
  }

  predicate CallPossible(c: Conn, call: Call)
    requires c.Valid()
  {
    match call
    case CallSend(data, result) => Possible(|data|, result)
    case CallShutdown => true
    case CallRetrieve(len) => len <= |c.input.Readable()|
  }

  function AfterCall(c: Conn, call: Call): (c': Conn)
    requires c.Valid() && CallPossible(c, call)
    ensures c'.Valid()
  {
    match call
    case CallSend(data, result) => AfterSend(c, data, result)
    case CallShutdown => AfterShutdown(c)
    case CallRetrieve(len) => c.(input := c.input.Retrieve(len))
  }

  predicate CallsPossible(c: Conn, calls: seq<Call>)
    requires c.Valid()
    decreases |calls|
  {
    calls == [] || (CallPossible(c, calls[0]) && CallsPossible(AfterCall(c, calls[0]), calls[1..]))
  }

  function AfterCalls(c: Conn, calls: seq<Call>): (c': Conn)
    requires c.Valid() && CallsPossible(c, calls)
    ensures c'.Valid()
    decreases |calls|
  {
    if calls == [] then c else AfterCalls(AfterCall(c, calls[0]), calls[1..])
  }

  /** Bytes just read, before the message callback runs. */
  function Received(c: Conn, data: seq<byte>): (c': Conn)
    requires c.Valid()
    ensures c'.Valid()
  {
    c.(input := c.input.ScatterRead(data), arrived := c.arrived + data, callbacks := c.callbacks + [Message])
  }

  function Delivered(data: Option<seq<byte>>): nat { if data.Some? then |data.value| else 0 }

  /** `data` is what `readv` delivered (empty at end of stream), None an error; `calls` is the message callback. */
  function AfterHandleRead(c: Conn, data: Option<seq<byte>>, calls: seq<Call>): (r: Checked<Conn>)
    requires c.Valid() && (data.Some? && data.value != [] ==> CallsPossible(Received(c, data.value), calls))
    ensures r.Fine? ==> r.value.Valid()
  {
    var _ :- Check(c.input.Writable() > 0, "buffer.cc:131");
    var _ :- Check(|c.input.Readable()| + Delivered(data) < SCATTER_SPACE, "buffer.cc:145-146");
    if data.None? then Fine(c)
    else if data.value == [] then AfterHandleClose(c)
    else Fine(AfterCalls(Received(c, data.value), calls))
  }

  /** What happens outside while one ready mask is handled. */
  datatype Env = Env(read: Option<seq<byte>>, calls: seq<Call>, accepted: Option<nat>)

  function EventBegin(c: Conn, mask: P.Mask): Checked<Conn>
  {
    if mask.Has(P.EPOLLHUP) && !mask.Has(P.EPOLLIN) then AfterHandleClose(c) else Fine(c)
  }

  predicate ReadsNow(mask: P.Mask) { mask.Has(P.READ_EVENT.Or(P.EPOLLRDHUP)) }

  predicate ReadPossible(c: Conn, env: Env)
    requires c.Valid()
  {
    && Delivered(env.read) <= c.input.Writable() + SCATTER_SPACE
    && (env.read.Some? && env.read.value != [] ==> CallsPossible(Received(c, env.read.value), env.calls))
  }

  function EventRead(c: Conn, mask: P.Mask, env: Env): (r: Checked<Conn>)
    requires c.Valid() && ReadPossible(c, env)
    ensures r.Fine? ==> r.value.Valid()
  {
    if ReadsNow(mask) then AfterHandleRead(c, env.read, env.calls) else Fine(c)
  }

  predicate EventPossible(c: Conn, mask: P.Mask, env: Env)
    requires c.Valid()
  {
    var r := EventBegin(c, mask);
    r.Fine? ==>
      && ReadPossible(r.value, env)
      && var r' := EventRead(r.value, mask, env);
         r'.Fine? && env.accepted.Some? ==> env.accepted.value <= |r'.value.output.Readable()|
  }

  /** `Channel::handle_event_with_guard`: close, then read, then write, as the ready mask says. */
  function AfterHandleEvent(c: Conn, mask: P.Mask, env: Env): (r: Checked<Conn>)
    requires c.Valid() && EventPossible(c, mask, env)
    ensures r.Fine? ==> r.value.Valid()
  {
    var c1 :- EventBegin(c, mask);
    var c2 :- EventRead(c1, mask, env);
    Fine(if mask.Has(P.EPOLLOUT) then AfterHandleWrite(c2, env.accepted) else c2)
  }

  // ----- the invariant -----

  /** The callbacks so far are: nothing, then one Up, then messages, then one Down directly followed by one Close. */
  predicate InOrder(state: State, callbacks: seq<Callback>)
  {
    var up := callbacks != [] && callbacks[0] == Up;
    match state
    case Connecting => callbacks == []
    case Disconnected =>
      var n := |callbacks|;
      up && n >= 3 && callbacks[n - 2..] == [Down, Close] && forall k :: 1 <= k < n - 2 ==> callbacks[k] == Message
    case _ => up && forall k :: 1 <= k < |callbacks| ==> callbacks[k] == Message
  }

  /** Everything `send` took is on the wire or in the output buffer, in order. */
  predicate Conserved(c: Conn)
    requires c.Valid()
  {
    Wire(c.socket) + c.output.Readable() == c.taken
  }

  /** Write interest tells exactly whether output is waiting, as long as the connection is up. */
  predicate InterestMatches(c: Conn)
    requires c.Valid()
  {
    c.IsUp() ==> c.events.Has(P.READ_EVENT) && (c.Writing() <==> c.output.Readable() != [])
  }

  /** The write side is shut at most once, as the last socket event, and only with every taken byte on the wire. */
  predicate ShutLast(c: Conn)
    requires c.Valid()
  {
    && (forall k :: 0 <= k < |c.socket| && c.socket[k].ShutWrite? ==>
          k == |c.socket| - 1 && c.output.Readable() == [] && (c.state.Disconnecting? || c.state.Disconnected?))
    && (c.state.Disconnecting? && !c.Writing() ==> c.socket != [] && c.socket[|c.socket| - 1].ShutWrite?)
  }

  /**
   * A completion is never announced for bytes that are not on the wire, and whenever nothing is waiting the last
   * announcement covers everything taken.
   */
  predicate Announced(c: Conn)
    requires c.Valid()
  {
    && (forall k :: 0 <= k < |c.completions| ==> c.completions[k] <= |Wire(c.socket)|)
    && (c.notifies && c.output.Readable() == [] && c.taken != [] ==>
          c.completions != [] && c.completions[|c.completions| - 1] == |c.taken|)
  }

  predicate Inv(c: Conn)
  {
    && c.Valid()
    && Conserved(c)
    && InterestMatches(c)
    && ShutLast(c)
    && Announced(c)
    && InOrder(c.state, c.callbacks)
    && (c.state.Connecting? ==> c.events == P.NO_EVENT && c.output.Readable() == [])
    && (c.state.Disconnected? ==> c.events == P.NO_EVENT)
  }

  // ----- every operation keeps it -----

  /** Sequence bookkeeping of a send that put the first n bytes on the wire and kept the others behind `waiting`. */
  lemma SplitConserved(wire: seq<byte>, waiting: seq<byte>, taken: seq<byte>, data: seq<byte>, n: nat)
    requires wire + waiting == taken && n <= |data| && (n > 0 ==> waiting == [])
    ensures (wire + data[..n]) + (waiting + data[n..]) == taken + data
  {
    assert data == data[..n] + data[n..];
    if n == 0 {
      assert data[..0] == [] && data[0..] == data;
      assert (wire + waiting) + data == wire + (waiting + data);
    } else {
      assert wire == taken;
      assert (wire + data[..n]) + data[n..] == wire + data;
    }
  }

  lemma SendConserves(c: Conn, data: seq<byte>, result: WriteResult)
    requires Inv(c) && c.state.Connected? && Possible(|data|, result)
    ensures Conserved(AfterSendInLoop(c, data, result))
  {
    var c', direct := AfterSendInLoop(c, data, result), !c.Writing();
    if !(direct && result.Failed?) {
      var n := if direct && result.Accepted? then result.n else 0;
      SplitConserved(Wire(c.socket), c.output.Readable(), c.taken, data, n);
      WireSnoc(c.socket, Wrote(data[..n]));
      assert Wire(c'.socket) == Wire(c.socket) + data[..n];
      assert c'.output.Readable() == c.output.Readable() + data[n..];
    }
  }

  /** Nothing is due to be announced, or it is announced with all of it on the wire. */
  lemma AnnounceStep(c: Conn, c': Conn)
    requires c.Valid() && c'.Valid() && Announced(c) && c'.notifies == c.notifies
    requires |Wire(c.socket)| <= |Wire(c'.socket)|
    requires
      || (c'.completions == c.completions
          && (!c.notifies || c'.output.Readable() != [] || (c.output.Readable() == [] && c'.taken == c.taken)))
      || (c'.completions == c.completions + [|c'.taken|] && |c'.taken| <= |Wire(c'.socket)|)
    ensures Announced(c')
  {
    hide Wire;
  }

  lemma SendAnnounces(c: Conn, data: seq<byte>, result: WriteResult)
    requires Inv(c) && c.state.Connected? && Possible(|data|, result)
    ensures Announced(AfterSendInLoop(c, data, result))
  {
    hide Wire, InterestMatches, ShutLast, InOrder, Image.Append, Announced;
    SendConserves(c, data, result);
    var c' := AfterSendInLoop(c, data, result);
    if c' != c {
      var direct := !c.Writing() && |c.output.Readable()| == 0;
      var n := if direct && result.Accepted? then result.n else 0;
      WireSnoc(c.socket, Wrote(data[..n]));
      assert c.taken + [] == c.taken;
      AnnounceStep(c, c');
    }
  }

  lemma SendInterest(c: Conn, data: seq<byte>, result: WriteResult)
    requires Inv(c) && c.state.Connected? && Possible(|data|, result)
    ensures InterestMatches(AfterSendInLoop(c, data, result))
  {
    hide Wire, Conserved, ShutLast, InOrder;
  }

  lemma SendShutsLast(c: Conn, data: seq<byte>, result: WriteResult)
    requires Inv(c) && c.state.Connected? && Possible(|data|, result)
    ensures ShutLast(AfterSendInLoop(c, data, result))
  {
    hide Wire, Conserved, InterestMatches, InOrder, Image.Append;
    assert forall k :: 0 <= k < |c.socket| ==> !c.socket[k].ShutWrite?;
    var c' := AfterSendInLoop(c, data, result);
    assert c'.state == c.state && (c'.socket == c.socket || exists d :: c'.socket == c.socket + [Wrote(d)]);
  }

  lemma SendInv(c: Conn, data: seq<byte>, result: WriteResult)
    requires Inv(c) && Possible(|data|, result)
    ensures Inv(AfterSend(c, data, result))
    ensures AfterSend(c, data, result).state == c.state
  {
    hide Wire, Conserved, InterestMatches, ShutLast, InOrder, Announced;
    if c.state.Connected? {
      SendConserves(c, data, result);
      SendAnnounces(c, data, result);
      SendInterest(c, data, result);
      SendShutsLast(c, data, result);
    }
  }

  lemma ShutdownInv(c: Conn)
    requires Inv(c)
    ensures Inv(AfterShutdown(c))
  {
    WireSnoc(c.socket, ShutWrite);
  }

  lemma InvokeInv(c: Conn, call: Call)
    requires Inv(c) && CallPossible(c, call)
    ensures Inv(AfterCall(c, call))
  {
    match call
    case CallSend(data, result) => SendInv(c, data, result);
    case CallShutdown => ShutdownInv(c);
    case CallRetrieve(_) =>
  }

  lemma {:induction false} InvokeAllInv(c: Conn, calls: seq<Call>)
    requires Inv(c) && CallsPossible(c, calls)
    ensures Inv(AfterCalls(c, calls))
    decreases |calls|
  {
    if calls != [] {
      InvokeInv(c, calls[0]);
      InvokeAllInv(AfterCall(c, calls[0]), calls[1..]);
    }
  }

  lemma HandleWriteConserves(c: Conn, accepted: Option<nat>)
    requires Inv(c) && (accepted.Some? ==> accepted.value <= |c.output.Readable()|)
    ensures Conserved(AfterHandleWrite(c, accepted))
  {
    hide Wire, InterestMatches, ShutLast, InOrder;
    if c.Writing() && accepted.Some? {
      var n, all, c' := accepted.value, c.output.Readable(), AfterHandleWrite(c, accepted);
      WireSnoc(c.socket, Wrote(all[..n]));
      WireSnoc(c.socket + [Wrote(all[..n])], ShutWrite);
      assert Wire(c'.socket) == Wire(c.socket) + all[..n];
      assert c'.output.Readable() == all[n..] && c'.taken == c.taken;
      assert (Wire(c.socket) + all[..n]) + all[n..] == Wire(c.socket) + all;
    }
  }

  lemma HandleWriteAnnounces(c: Conn, accepted: Option<nat>)
    requires Inv(c) && (accepted.Some? ==> accepted.value <= |c.output.Readable()|)
    ensures Announced(AfterHandleWrite(c, accepted))
  {
    hide Wire, ShutLast, InOrder, Announced;
    HandleWriteConserves(c, accepted);
    if c.Writing() && accepted.Some? {
      var sent, c' := c.output.Readable()[..accepted.value], AfterHandleWrite(c, accepted);
      WireSnoc(c.socket, Wrote(sent));
      WireSnoc(c.socket + [Wrote(sent)], ShutWrite);
      assert |Wire(c.socket)| <= |Wire(c'.socket)|;
      AnnounceStep(c, c');
    }
  }

  /** A connection that waits to write has not shut its write side. */
  lemma WritingIsOpen(c: Conn)
    requires Inv(c) && c.Writing()
    ensures c.IsUp() && c.output.Readable() != [] && forall k :: 0 <= k < |c.socket| ==> !c.socket[k].ShutWrite?
  {
    hide Wire, Conserved, InOrder, Announced;
  }

  lemma HandleWriteInterest(c: Conn, accepted: Option<nat>)
    requires Inv(c) && (accepted.Some? ==> accepted.value <= |c.output.Readable()|)
    ensures InterestMatches(AfterHandleWrite(c, accepted))
  {
    hide Wire, Conserved, InOrder, Announced, ShutLast;
    var c' := AfterHandleWrite(c, accepted);
    if c.Writing() && accepted.Some? {
      WritingIsOpen(c);
      assert c'.output.Readable() == c.output.Readable()[accepted.value..];
    } else {
      assert c' == c;
    }
  }

  lemma HandleWriteShutsLast(c: Conn, accepted: Option<nat>)
    requires Inv(c) && (accepted.Some? ==> accepted.value <= |c.output.Readable()|)
    ensures ShutLast(AfterHandleWrite(c, accepted))
  {
    hide Wire, Conserved, InOrder, Announced, InterestMatches;
    if c.Writing() && accepted.Some? {
      WritingIsOpen(c);
      var c', sent := AfterHandleWrite(c, accepted), Wrote(c.output.Readable()[..accepted.value]);
      assert c'.socket == c.socket + [sent] || c'.socket == c.socket + [sent] + [ShutWrite];
    }
  }

  lemma HandleWriteInv(c: Conn, accepted: Option<nat>)
    requires Inv(c) && (accepted.Some? ==> accepted.value <= |c.output.Readable()|)
    ensures Inv(AfterHandleWrite(c, accepted))
  {
    hide Wire, Conserved, InterestMatches, ShutLast, Announced;
    HandleWriteConserves(c, accepted);
    HandleWriteAnnounces(c, accepted);
    HandleWriteInterest(c, accepted);
    HandleWriteShutsLast(c, accepted);
  }

  lemma HandleCloseInv(c: Conn)
    requires Inv(c) && c.IsUp()
    ensures AfterHandleClose(c).Fine? && Inv(AfterHandleClose(c).value)
  {
  }

  lemma EstablishedInv(c: Conn)
    requires Inv(c) && c.state.Connecting?
    ensures AfterConnectEstablished(c).Fine? && Inv(AfterConnectEstablished(c).value)
  {
  }

  lemma HandleReadInv(c: Conn, data: Option<seq<byte>>, calls: seq<Call>)
    requires Inv(c) && c.IsUp() && c.input.ReadFits(Delivered(data))
    requires data.Some? && data.value != [] ==> CallsPossible(Received(c, data.value), calls)
    ensures AfterHandleRead(c, data, calls).Fine? && Inv(AfterHandleRead(c, data, calls).value)
  {
    if data.Some? && data.value == [] {
      HandleCloseInv(c);
    } else if data.Some? {
      InvokeAllInv(Received(c, data.value), calls);
    }
  }

  // ----- room for the next read -----

  /** How many bytes user code takes out of the input buffer. */
  function Retrieved(calls: seq<Call>): nat
  {
    if calls == [] then 0 else (if calls[0].CallRetrieve? then calls[0].len else 0) + Retrieved(calls[1..])
  }

  lemma CallKeepsInput(c: Conn, call: Call)
    requires c.Valid() && CallPossible(c, call) && (c.input.Readable() == [] ==> c.input.writer == PREPEND)
    ensures var b, b' := c.input, AfterCall(c, call).input; var n := if call.CallRetrieve? then call.len else 0;
      && n <= |b.Readable()| && b'.Readable() == b.Readable()[n..] && |b'.storage| == |b.storage|
      && b'.writer == if b'.Readable() == [] then PREPEND else b.writer
  {
    hide Image.Append;
    assert c.input.Readable()[0..] == c.input.Readable();
  }

  lemma {:induction false} CallsKeepInput(c: Conn, calls: seq<Call>)
    requires c.Valid() && CallsPossible(c, calls) && (c.input.Readable() == [] ==> c.input.writer == PREPEND)
    ensures var b, b' := c.input, AfterCalls(c, calls).input; var n := Retrieved(calls);
      && n <= |b.Readable()| && b'.Readable() == b.Readable()[n..] && |b'.storage| == |b.storage|
      && b'.writer == if b'.Readable() == [] then PREPEND else b.writer
    decreases |calls|
  {
    hide AfterCall, CallPossible;
    if calls == [] {
      assert c.input.Readable()[0..] == c.input.Readable();
    } else {
      CallKeepsInput(c, calls[0]);
      CallsKeepInput(AfterCall(c, calls[0]), calls[1..]);
    }
  }

  /**
   * Exactly when the read after this one finds no room: the message callback left bytes unread, and the read filled
   * the free room to the last byte or, having overflowed it, left no slack beyond the prepend area.
   */
  lemma NextReadFindsNoRoomIff(c: Conn, data: seq<byte>, calls: seq<Call>)
    requires c.Valid() && data != [] && CallsPossible(Received(c, data), calls)
    ensures AfterCalls(Received(c, data), calls).input.Writable() == 0 <==>
      && Retrieved(calls) < |c.input.Readable()| + |data|
      && if |data| <= c.input.Writable() then |data| == c.input.Writable()
         else |c.input.Readable()| + |data| + PREPEND >= |c.input.storage|
  {
    ReadLeavesNoRoomIff(c.input, data);
    hide Image.ScatterRead;
    CallsKeepInput(Received(c, data), calls);
  }

  const FILLING: seq<Op> := [Establish, Ready(P.EPOLLIN, Env(Some(Zeros(1025)), [], None))]

  /** A new connection that reads 1025 bytes which its message callback leaves alone cannot read again. */
  lemma RoomCanRunOut(notifies: bool)
    ensures Run(NewConn(notifies), FILLING).Fine?
    ensures var c := Run(NewConn(notifies), FILLING).value; c.IsUp() && forall len :: !c.input.ReadFits(len)
  {
    var c0 := NewConn(notifies);
    var c1 := AfterConnectEstablished(c0).value;
    var c2 := Received(c1, Zeros(1025));
    assert FILLING[1..][1..] == [] && FILLING[1..][0] == FILLING[1];
    assert AfterCalls(c2, []) == c2;
    assert AfterHandleEvent(c1, P.EPOLLIN, FILLING[1].env) == Fine(c2);
    assert Run(c1, FILLING[1..]) == Run(c2, []) == Fine(c2);
    NextReadFindsNoRoomIff(c1, Zeros(1025), []);
  }

  // ----- which ready masks are safe -----

  /** A hang-up without input that also asks for a read: close and read handlers both run. */
  predicate ClosesAndReads(mask: P.Mask)
  {
    mask.Has(P.EPOLLHUP) && !mask.Has(P.EPOLLIN) && ReadsNow(mask)
  }

  /** If the mask asks for a read, the input buffer has room for it and the scratch copy holds the result. */
  predicate FitsIfRead(c: Conn, mask: P.Mask, env: Env)
    requires c.Valid()
  {
    ReadsNow(mask) ==> c.input.ReadFits(Delivered(env.read))
  }

  predicate HandledWell(c: Conn, mask: P.Mask, env: Env)
    requires c.Valid() && EventPossible(c, mask, env)
  {
    AfterHandleEvent(c, mask, env).Fine? && Inv(AfterHandleEvent(c, mask, env).value)
  }

  lemma HandleEventInv(c: Conn, mask: P.Mask, env: Env)
    requires Inv(c) && c.IsUp() && EventPossible(c, mask, env) && FitsIfRead(c, mask, env) && !ClosesAndReads(mask)
    ensures HandledWell(c, mask, env)
  {
    if mask.Has(P.EPOLLHUP) && !mask.Has(P.EPOLLIN) {
      HandleCloseInv(c);
    } else if ReadsNow(mask) {
      HandleReadInv(c, env.read, env.calls);
    }
    var c2 := EventRead(EventBegin(c, mask).value, mask, env).value;
    HandleWriteInv(c2, env.accepted);
  }

  /**
   * Handling a mask breaks an assertion or overruns the scratch copy exactly when it has a read bit and there is no room,
   * or 65536 or more bytes would be readable, or it also has hang-up and no input and the read meets end of stream.
   */
  lemma HandleEventFaultIff(c: Conn, mask: P.Mask, env: Env)
    requires Inv(c) && c.IsUp() && EventPossible(c, mask, env)
    ensures AfterHandleEvent(c, mask, env).Fault? <==>
      && (mask.input || mask.urgent || mask.peerClosed)
      && (|| c.input.Writable() == 0
          || |c.input.Readable()| + (if env.read.Some? then |env.read.value| else 0) >= 65536
          || (mask.hangUp && !mask.input && env.read == Some([])))
  {
    if FitsIfRead(c, mask, env) && !ClosesAndReads(mask) {
      HandleEventInv(c, mask, env);
    }
  }

  /**
   * A mask is handled without fault and in callback order, whatever the socket delivers that fits, exactly when it does
   * not close and read, or no read fits anyway.
   */
  lemma SafeMaskIff(c: Conn, mask: P.Mask)
    requires Inv(c) && c.IsUp()
    ensures !(mask.hangUp && !mask.input && (mask.urgent || mask.peerClosed)) || !c.input.ReadFits(0) <==>
      forall env :: EventPossible(c, mask, env) && FitsIfRead(c, mask, env) ==> HandledWell(c, mask, env)
  {
    if ClosesAndReads(mask) && c.input.ReadFits(0) {
      var env := Env(Some([]), [], None);
      assert EventPossible(c, mask, env) && FitsIfRead(c, mask, env);
      HandleEventFaultIff(c, mask, env);
    } else {
      forall env | EventPossible(c, mask, env) && FitsIfRead(c, mask, env) ensures HandledWell(c, mask, env) {
        HandleEventInv(c, mask, env);
      }
    }
  }

  /** Without any promise about how much the socket delivers, exactly the masks that do not read are safe. */
  lemma AlwaysSafeMaskIff(c: Conn, mask: P.Mask)
    requires Inv(c) && c.IsUp()
    ensures !mask.input && !mask.urgent && !mask.peerClosed <==>
      forall env :: EventPossible(c, mask, env) ==> HandledWell(c, mask, env)
  {
    if ReadsNow(mask) {
      var n := if |c.input.Readable()| < SCATTER_SPACE then SCATTER_SPACE - |c.input.Readable()| else 0;
      var env := Env(Some(Zeros(n)), [], None);
      assert EventPossible(c, mask, env) && !FitsIfRead(c, mask, env);
      HandleEventFaultIff(c, mask, env);
    } else {
      forall env | EventPossible(c, mask, env) ensures HandledWell(c, mask, env) {
        HandleEventInv(c, mask, env);
      }
    }
  }

  // ----- runs -----

  datatype Op = Establish | UserCall(call: Call) | Ready(mask: P.Mask, env: Env)

  /** Establishment comes first; only a registered channel becomes ready, with a safe mask, and what is read fits. */
  predicate Allowed(c: Conn, op: Op)
    requires c.Valid()
  {
    match op
    case Establish => c.state.Connecting?
    case UserCall(call) => CallPossible(c, call)
    case Ready(mask, env) =>
      c.IsUp() && !ClosesAndReads(mask) && EventPossible(c, mask, env) && FitsIfRead(c, mask, env)
  }

  function Apply(c: Conn, op: Op): (r: Checked<Conn>)
    requires c.Valid() && Allowed(c, op)
    ensures r.Fine? ==> r.value.Valid()
  {
    match op
    case Establish => AfterConnectEstablished(c)
    case UserCall(call) => Fine(AfterCall(c, call))
    case Ready(mask, env) => AfterHandleEvent(c, mask, env)
  }

  /** Operations that are not allowed when their turn comes do not happen. */
  function Run(c: Conn, ops: seq<Op>): (r: Checked<Conn>)
    requires c.Valid()
    ensures r.Fine? ==> r.value.Valid()
    decreases |ops|
  {
    if ops == [] then Fine(c)
    else if !Allowed(c, ops[0]) then Run(c, ops[1..])
    else
      var c' :- Apply(c, ops[0]);
      Run(c', ops[1..])
  }

  lemma ApplyInv(c: Conn, op: Op)
    requires Inv(c) && Allowed(c, op)
    ensures Apply(c, op).Fine? && Inv(Apply(c, op).value)
  {
    match op
    case Establish => EstablishedInv(c);
    case UserCall(call) => InvokeInv(c, call);
    case Ready(mask, env) => HandleEventInv(c, mask, env);
  }

  /**
   * In every run of a connection no assertion fails, output is conserved, write interest mirrors waiting output, the
   * write side is shut at most once and last with everything written, and callbacks come in order.
   */
  lemma {:induction false} EveryRunInv(c: Conn, ops: seq<Op>)
    requires Inv(c)
    ensures Run(c, ops).Fine? && Inv(Run(c, ops).value)
    decreases |ops|
  {
    if ops == [] {
    } else if !Allowed(c, ops[0]) {
      EveryRunInv(c, ops[1..]);
    } else {
      ApplyInv(c, ops[0]);
      EveryRunInv(Apply(c, ops[0]).value, ops[1..]);
    }
  }

  lemma ReadNothing(b: Image)
    requires b.Valid()
    ensures b.ScatterRead([]) == b
  {
    assert b.storage[..b.writer] + [] + b.storage[b.writer..] == b.storage;
  }

  // ----- the class -----

  class TcpConnection {
    const channel: P.Channel
    const input: Buffer
    const output: Buffer
    const notifies: bool
    var state: State
    ghost var socket: seq<SocketEvent>
    ghost var taken: seq<byte>
    ghost var arrived: seq<byte>
    ghost var callbacks: seq<Callback>
    ghost var completions: seq<nat>

    ghost predicate Valid()
      reads this, channel, channel.poller, channel.poller.owned, input, output
    {
      input != output && input.storage != output.storage
      && input.Valid() && output.Valid() && channel.Usable()
    }

    ghost function Model(): Conn
      reads this, channel, input, input.storage, output, output.storage
    {
      Conn(state, channel.events, input.State(), output.State(), notifies,
           socket, taken, arrived, callbacks, completions)
    }

    constructor (poller: P.Epoller, fd: int, notifies: bool)
      requires poller.Valid() && fd !in poller.channels
      modifies poller`owned
      ensures Valid() && fresh(channel) && fresh(input) && fresh(output)
      ensures fresh(input.storage) && fresh(output.storage)
      ensures channel.poller == poller && channel.fd == fd
      ensures Model() == NewConn(notifies)
    {
      hide P.Refines;
      channel := new P.Channel(poller, fd);
      input := new Buffer(INITIAL_SIZE);
      output := new Buffer(INITIAL_SIZE);
      this.notifies, state := notifies, Connecting;
      socket, taken, arrived, callbacks, completions := [], [], [], [], [];
      new;
    }

    method SendInLoop(data: seq<byte>, result: WriteResult)
      requires Valid() && Possible(|data|, result)
      modifies this, channel, channel.poller, output, output.storage
      ensures Valid() && (output.storage == old(output.storage) || fresh(output.storage))
      ensures Model() == AfterSendInLoop(old(Model()), data, result)
    {
      hide P.Refines, P.SetEvents, Image.Append, TakenOver;
      if state.Disconnected? {
        return;
      }
      var nwrote, wrote, fault := 0, false, false;
      if !channel.events.Has(P.WRITE_EVENT) && output.writer - output.reader == 0 {
        if result.Accepted? {
          nwrote, wrote := result.n, true;
          socket := socket + [Wrote(data[..nwrote])];
        } else {
          fault := result.Failed?;
        }
      }
      if !fault {
        TakeOver(data, nwrote, wrote);
      }
    }

    method TakeOver(data: seq<byte>, nwrote: nat, wrote: bool)
      requires Valid() && nwrote <= |data|
      modifies this`taken, this`completions, channel, channel.poller, output, output.storage
      ensures Valid() && (output.storage == old(output.storage) || fresh(output.storage))
      ensures Model() == TakenOver(old(Model()), data, nwrote, wrote)
    {
      hide P.Refines, P.SetEvents, Image.Append;
      taken := taken + data;
      if nwrote < |data| {
        Defer(data[nwrote..]);
      } else if wrote {
        QueueWriteComplete();
      }
    }

    /** Queues the write-complete callback, if there is one. */
    method QueueWriteComplete()
      modifies this`completions
      ensures Model() == old(Model()).Complete()
    {
      if notifies {
        completions := completions + [|taken|];
      }
    }

    /** Keeps bytes for later and makes sure the loop will ask for them. */
    method Defer(rest: seq<byte>)
      requires Valid()
      modifies channel, channel.poller, output, output.storage
      ensures Valid() && (output.storage == old(output.storage) || fresh(output.storage))
      ensures output.State() == old(output.State()).Append(rest)
      ensures channel.events == old(channel.events).Or(P.WRITE_EVENT)
    {
      output.Append(rest);
      if !channel.events.Has(P.WRITE_EVENT) {
        channel.EnableWriting();
      }
    }

    method Send(data: seq<byte>, result: WriteResult)
      requires Valid() && Possible(|data|, result)
      modifies this, channel, channel.poller, output, output.storage
      ensures Valid() && (output.storage == old(output.storage) || fresh(output.storage))
      ensures Model() == AfterSend(old(Model()), data, result)
    {
      if state.Connected? {
        SendInLoop(data, result);
      }
    }

    method ShutdownInLoop()
      modifies this`socket
      ensures Model() == AfterShutdownInLoop(old(Model()))
    {
      if !channel.events.Has(P.WRITE_EVENT) {
        socket := socket + [ShutWrite];
      }
    }

    method Shutdown()
      modifies this
      ensures Model() == AfterShutdown(old(Model()))
    {
      if state.Connected? {
        state := Disconnecting;
        ShutdownInLoop();
      }
    }

    method HandleWrite(accepted: Option<nat>)
      requires Valid() && (accepted.Some? ==> accepted.value <= |output.State().Readable()|)
      modifies this, channel, channel.poller, output
      ensures Valid() && output.storage == old(output.storage)
      ensures Model() == AfterHandleWrite(old(Model()), accepted)
    {
      hide P.Refines, P.SetEvents;
      if channel.events.Has(P.WRITE_EVENT) {
        var n, sent := output.WriteFd(accepted);
        if n >= 0 {
          socket := socket + [Wrote(sent)];
        }
        if n > 0 && output.writer - output.reader == 0 {
          channel.DisableWriting();
          QueueWriteComplete();
          if state.Disconnecting? {
            ShutdownInLoop();
          }
        }
      }
    }

    method HandleClose()
      requires Valid() && Model().IsUp()
      modifies this, channel, channel.poller
      ensures Valid() && Fine(Model()) == AfterHandleClose(old(Model()))
    {
      hide P.Refines, P.SetEvents;
      state := Disconnected;
      channel.DisableAll();
      callbacks := callbacks + [Down, Close];
    }

    /** User code on the loop thread. */
    method Invoke(call: Call)
      requires Valid() && CallPossible(Model(), call)
      modifies this, channel, channel.poller, input, output, output.storage
      ensures Valid() && input.storage == old(input.storage)
      ensures output.storage == old(output.storage) || fresh(output.storage)
      ensures Model() == AfterCall(old(Model()), call)
    {
      match call
      case CallSend(data, result) => Send(data, result);
      case CallShutdown => Shutdown();
      case CallRetrieve(len) => input.Retrieve(len);
    }

    method InvokeAll(calls: seq<Call>)
      requires Valid() && CallsPossible(Model(), calls)
      modifies this, channel, channel.poller, input, output, output.storage
      ensures Valid() && input.storage == old(input.storage)
      ensures output.storage == old(output.storage) || fresh(output.storage)
      ensures Model() == AfterCalls(old(Model()), calls)
    {
      ghost var final := AfterCalls(Model(), calls);
      for i := 0 to |calls|
        invariant Valid() && input.storage == old(input.storage)
        invariant output.storage == old(output.storage) || fresh(output.storage)
        invariant CallsPossible(Model(), calls[i..]) && AfterCalls(Model(), calls[i..]) == final
      {
        assert calls[i..][1..] == calls[i + 1..];
        Invoke(calls[i]);
      }
    }

    /** `data` is what `readv` delivers; `calls` is what the message callback does. */
    method HandleRead(data: Option<seq<byte>>, calls: seq<Call>)
      requires Valid() && input.State().ReadFits(Delivered(data))
      requires data == Some([]) ==> Model().IsUp()
      requires data.Some? && data.value != [] ==> CallsPossible(Received(Model(), data.value), calls)
      modifies this, channel, channel.poller, input, input.storage, output, output.storage
      ensures Valid()
      ensures input.storage == old(input.storage) || fresh(input.storage)
      ensures output.storage == old(output.storage) || fresh(output.storage)
      ensures Fine(Model()) == AfterHandleRead(old(Model()), data, calls)
    {
      hide P.Refines, P.SetEvents, Image.Append, Image.ScatterRead;
      var read := input.ReadFd(data);
      var n := read.value;
      if n == 0 {
        assert input.State() == old(input.State()) by { ReadNothing(old(input.State())); }
        HandleClose();
      } else if n > 0 {
        arrived := arrived + data.value;
        callbacks := callbacks + [Message];
        assert Model() == Received(old(Model()), data.value);
        InvokeAll(calls);
      }
    }

    /** One ready mask of a registered channel. */
    method HandleEvent(mask: P.Mask, env: Env)
      requires Valid() && Model().IsUp() && EventPossible(Model(), mask, env)
      requires FitsIfRead(Model(), mask, env) && !ClosesAndReads(mask)
      modifies this, channel, channel.poller, input, input.storage, output, output.storage
      ensures Valid()
      ensures Fine(Model()) == AfterHandleEvent(old(Model()), mask, env)
    {
      ghost var was := Model();
      if mask.Has(P.EPOLLHUP) && !mask.Has(P.EPOLLIN) {
        HandleClose();
      }
      assert Fine(Model()) == EventBegin(was, mask);
      if ReadsNow(mask) {
        HandleRead(env.read, env.calls);
      }
      assert Fine(Model()) == EventRead(EventBegin(was, mask).value, mask, env);
      if mask.Has(P.EPOLLOUT) {
        HandleWrite(env.accepted);
      }
    }

    method ConnectEstablished()
      requires Valid() && state.Connecting?
      modifies this, channel, channel.poller
      ensures Valid() && Fine(Model()) == AfterConnectEstablished(old(Model()))
    {
      hide P.Refines, P.SetEvents;
      state := Connected;
      channel.EnableReading();
      callbacks := callbacks + [Up];
    }
  }
}
