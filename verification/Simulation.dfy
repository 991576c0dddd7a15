/**
 * One connection seen twice: `Connection` has its bytes and buffers, `Lifecycle` its threads and references. Every event,
 * call and establishment of the first is one of the second, with the same assertions broken or kept.
 */
module Simulation {
  import opened Sequences
  import opened Checks
  import opened NetBuffer
  import opened Lifecycle
  import S = LifecycleSafety
  import C = Connection
  import P = Poller

  /** State, interest and callbacks are the same in both. */
  predicate Matches(w: World, c: ConnId, k: C.Conn)
  {
    && Live(w, c)
    && w.conns[c].state == k.state && w.conns[c].callbacks == k.callbacks && ChanOf(w, c).events == k.events
  }

  // ----- how the inputs correspond -----

  /** What a call on the connection is in the protocol: whether it leaves a backlog, completes, or shuts down. */
  function ActsOfCall(c: ConnId, k: C.Conn, call: C.Call): seq<Act>
    requires k.Valid() && C.CallPossible(k, call)
  {
    match call
    case CallSend(data, result) =>
      var wrote := !k.Writing() && |k.output.Readable()| == 0 && result.Accepted?;
      var failed := !k.Writing() && |k.output.Readable()| == 0 && result.Failed?;
      if !k.state.Connected? || failed then []
      else if (if wrote then result.n else 0) < |data| then [SendLeavesBacklog(c)]
      else if wrote && k.notifies then [SendCompletes(c)]
      else []
    case CallShutdown => [Shutdown(c)]
    case CallRetrieve(_) => []
  }

  function ActsOf(c: ConnId, k: C.Conn, calls: seq<C.Call>): (acts: seq<Act>)
    requires k.Valid() && C.CallsPossible(k, calls)
    ensures forall j :: 0 <= j < |acts| ==> acts[j].d == c
    decreases |calls|
  {
    if calls == [] then [] else ActsOfCall(c, k, calls[0]) + ActsOf(c, C.AfterCall(k, calls[0]), calls[1..])
  }

  function ReadOf(read: Option<seq<byte>>): ReadResult
  {
    if read.None? then ReadError else if read.value == [] then EndOfStream else Data
  }

  /** The acts of the message callback, which runs after a close if the mask asks for one. */
  function MessageActs(c: ConnId, k: C.Conn, mask: P.Mask, env: C.Env): (acts: seq<Act>)
    requires k.Valid() && C.EventPossible(k, mask, env)
    ensures forall j :: 0 <= j < |acts| ==> acts[j].d == c
  {
    var begin := C.EventBegin(k, mask);
    if begin.Fine? && ReadOf(env.read).Data? then ActsOf(c, C.Received(begin.value, env.read.value), env.calls) else []
  }

  /** Whether the write handler writes out all that is waiting. */
  predicate Drains(k: C.Conn, accepted: Option<nat>)
    requires k.Valid()
  {
    accepted.Some? && 0 < accepted.value == |k.output.Readable()|
  }

  predicate EventDrains(k: C.Conn, mask: P.Mask, env: C.Env)
    requires k.Valid() && C.EventPossible(k, mask, env)
  {
    var begin := C.EventBegin(k, mask);
    begin.Fine? && var read := C.EventRead(begin.value, mask, env); read.Fine? && Drains(read.value, env.accepted)
  }

  function EnvOf(c: ConnId, k: C.Conn, mask: P.Mask, env: C.Env): Env
    requires k.Valid() && C.EventPossible(k, mask, env)
  {
    Env(ReadOf(env.read), MessageActs(c, k, mask, env), EventDrains(k, mask, env), k.notifies,
        k.input.ReadFits(C.Delivered(env.read)))
  }

  // ----- building blocks -----

  lemma SetEventsSets(r: P.Registry<ConnId>, c: ConnId, events: P.Mask)
    requires c in r.chans && P.SetEvents(r, c, events).Fine?
    ensures var r' := P.SetEvents(r, c, events).value; c in r'.chans && r'.chans[c].events == events
  {
  }

  lemma InterestMatches(w: World, c: ConnId, k: C.Conn, events: P.Mask)
    requires Matches(w, c, k) && SetInterest(w, c, events).Fine?
    ensures Matches(SetInterest(w, c, events).value, c, k.(events := events))
    ensures SetInterest(w, c, events).value.conns == w.conns
  {
    hide P.SetEvents;
    SetEventsSets(w.loops[w.conns[c].loop].reg, c, events);
  }

  lemma QueueMatches(w: World, c: ConnId, k: C.Conn, l: LoopId, f: Functor)
    requires Matches(w, c, k) && QueueInLoop(w, l, f).Fine?
    ensures Matches(QueueInLoop(w, l, f).value, c, k) && QueueInLoop(w, l, f).value.conns == w.conns
  {
  }

  lemma NoteMatches(w: World, c: ConnId, k: C.Conn, cb: C.Callback)
    requires Matches(w, c, k)
    ensures Matches(Note(w, c, cb), c, k.(callbacks := k.callbacks + [cb]))
  {
  }

  // ----- calls -----

  lemma CallSimulated(w: World, l: LoopId, c: ConnId, k: C.Conn, call: C.Call)
    requires Matches(w, c, k) && w.conns[c].loop == l && k.Valid() && C.CallPossible(k, call)
    requires UserActs(w, l, ActsOfCall(c, k, call)).Fine?
    ensures var w' := UserActs(w, l, ActsOfCall(c, k, call)).value;
      Matches(w', c, C.AfterCall(k, call)) && w'.conns[c].loop == l
  {
    hide SetInterest, QueueInLoop, Image.Append, P.Mask.Or;
    var acts := ActsOfCall(c, k, call);
    if acts == [] {
    } else {
      assert acts[1..] == [];
      assert UserActs(w, l, acts) == UserAct(w, l, acts[0]) by { OneAct(w, l, acts); }
      if k.state.Connected? {
        match acts[0]
        case SendLeavesBacklog(_) => InterestMatches(w, c, k, k.events.Or(P.WRITE_EVENT));
        case SendCompletes(_) => QueueMatches(w, c, k, l, WriteComplete(c));
        case Shutdown(_) =>
      }
    }
  }

  lemma OneAct(w: World, l: LoopId, acts: seq<Act>)
    requires |acts| == 1
    ensures UserActs(w, l, acts) == UserAct(w, l, acts[0])
  {
    hide UserAct;
    var r := UserAct(w, l, acts[0]);
    if r.Fine? {
      assert UserActs(r.value, l, acts[1..]) == r;
    }
  }

  lemma {:induction false} ActsConcat(w: World, l: LoopId, a: seq<Act>, b: seq<Act>)
    ensures var r := UserActs(w, l, a); UserActs(w, l, a + b) == if r.Fine? then UserActs(r.value, l, b) else r
    decreases |a|
  {
    hide UserAct;
    if a == [] {
      assert a + b == b;
    } else {
      assert (a + b)[0] == a[0] && (a + b)[1..] == a[1..] + b;
      if UserAct(w, l, a[0]).Fine? {
        ActsConcat(UserAct(w, l, a[0]).value, l, a[1..], b);
      }
    }
  }

  /** User code that calls `send`, `shutdown` and `retrieve` is user code of the protocol. */
  lemma {:induction false} CallsSimulated(w: World, l: LoopId, c: ConnId, k: C.Conn, calls: seq<C.Call>)
    requires Matches(w, c, k) && w.conns[c].loop == l && k.Valid() && C.CallsPossible(k, calls)
    requires UserActs(w, l, ActsOf(c, k, calls)).Fine?
    ensures var w' := UserActs(w, l, ActsOf(c, k, calls)).value;
      Matches(w', c, C.AfterCalls(k, calls)) && w'.conns[c].loop == l
    decreases |calls|
  {
    hide Matches, ActsOfCall, C.AfterCall, C.CallPossible, UserAct;
    if calls == [] {
      assert ActsOf(c, k, calls) == [];
    } else {
      var now := ActsOfCall(c, k, calls[0]);
      var later := ActsOf(c, C.AfterCall(k, calls[0]), calls[1..]);
      ActsConcat(w, l, now, later);
      CallSimulated(w, l, c, k, calls[0]);
      var w1 := UserActs(w, l, now).value;
      CallsSimulated(w1, l, c, C.AfterCall(k, calls[0]), calls[1..]);
    }
  }

  /** On a connection that is down they do nothing. */
  lemma {:induction false} DownActsIdle(w: World, l: LoopId, acts: seq<Act>, c: ConnId)
    requires c in w.conns && w.conns[c].state.Disconnected? && forall j :: 0 <= j < |acts| ==> acts[j].d == c
    ensures UserActs(w, l, acts) == Fine(w)
    decreases |acts|
  {
    if acts != [] {
      assert acts[0].d == c;
      DownActsIdle(w, l, acts[1..], c);
    }
  }

  // ----- handlers -----

  lemma EstablishSimulated(w: World, l: LoopId, c: ConnId, k: C.Conn)
    requires Matches(w, c, k) && ConnectEstablished(w, l, c, []).Fine?
    ensures C.AfterConnectEstablished(k).Fine?
    ensures Matches(ConnectEstablished(w, l, c, []).value, c, C.AfterConnectEstablished(k).value)
  {
    hide SetInterest;
    var events := k.events.Or(P.READ_EVENT);
    var w1 := SetState(w, c, C.Connected);
    InterestMatches(w1, c, k.(state := C.Connected), events);
    var w2 := SetInterest(w1, c, events).value;
    NoteMatches(w2, c, k.(state := C.Connected, events := events), C.Up);
  }

  lemma EraseMatches(w: World, w': World, c: ConnId, k: C.Conn)
    requires Matches(w, c, k) && w' == w.(connections := w'.connections)
    ensures Matches(w', c, k)
  {
  }

  lemma CloseSimulated(w: World, l: LoopId, c: ConnId, k: C.Conn, acts: seq<Act>)
    requires Matches(w, c, k) && HandleClose(w, l, c, acts).Fine? && forall j :: 0 <= j < |acts| ==> acts[j].d == c
    ensures C.AfterHandleClose(k).Fine? && Matches(HandleClose(w, l, c, acts).value, c, C.AfterHandleClose(k).value)
    ensures HandleClose(w, l, c, acts).value.conns[c].loop == w.conns[c].loop
  {
    hide SetInterest, QueueInLoop, UserActs;
    var k1 := k.(state := C.Disconnected, events := P.NO_EVENT);
    InterestMatches(SetState(w, c, C.Disconnected), c, k.(state := C.Disconnected), P.NO_EVENT);
    var w0 := SetInterest(SetState(w, c, C.Disconnected), c, P.NO_EVENT).value;
    NoteMatches(w0, c, k1, C.Down);
    var w1 := Note(w0, c, C.Down);
    DownActsIdle(w1, l, acts, c);
    var k2 := k1.(callbacks := k.callbacks + [C.Down]);
    NoteMatches(w1, c, k2, C.Close);
    var w2, k3 := Note(w1, c, C.Close), k2.(callbacks := k2.callbacks + [C.Close]);
    assert k.callbacks + [C.Down] + [C.Close] == k.callbacks + [C.Down, C.Close];
    if l == w2.base {
      var w3 := w2.(connections := w2.connections - {w2.conns[c].fd});
      EraseMatches(w2, w3, c, k3);
      QueueMatches(w3, c, k3, w2.conns[c].loop, Destroy(c));
    } else {
      QueueMatches(w2, c, k3, w2.base, Remove(c));
    }
  }

  lemma ReadSimulated(w: World, l: LoopId, c: ConnId, k: C.Conn, read: Option<seq<byte>>, calls: seq<C.Call>, env: Env)
    requires Matches(w, c, k) && w.conns[c].loop == l && k.Valid() && HandleRead(w, l, c, env).Fine?
    requires read.Some? && read.value != [] ==> C.CallsPossible(C.Received(k, read.value), calls)
    requires env.read == ReadOf(read) && env.fits == k.input.ReadFits(C.Delivered(read))
    requires env.acts == if env.read.Data? then ActsOf(c, C.Received(k, read.value), calls) else []
    ensures C.AfterHandleRead(k, read, calls).Fine?
    ensures var w' := HandleRead(w, l, c, env).value;
      Matches(w', c, C.AfterHandleRead(k, read, calls).value) && w'.conns[c].loop == l
  {
    hide HandleClose, UserActs, ActsOf, Image.ScatterRead;
    match env.read
    case Data =>
      NoteMatches(w, c, k, C.Message);
      assert Matches(Note(w, c, C.Message), c, C.Received(k, read.value));
      CallsSimulated(Note(w, c, C.Message), l, c, C.Received(k, read.value), calls);
    case EndOfStream => CloseSimulated(w, l, c, k, env.acts);
    case ReadError =>
  }

  lemma WriteSimulated(w: World, l: LoopId, c: ConnId, k: C.Conn, accepted: Option<nat>, env: Env)
    requires Matches(w, c, k) && k.Valid() && HandleWrite(w, l, c, env).Fine?
    requires accepted.Some? ==> accepted.value <= |k.output.Readable()|
    requires env.drains == Drains(k, accepted) && env.wantsComplete == k.notifies
    ensures Matches(HandleWrite(w, l, c, env).value, c, C.AfterHandleWrite(k, accepted))
  {
    hide SetInterest, QueueInLoop, P.Mask.Without, P.Mask.Has;
    if k.Writing() && env.drains {
      var events := k.events.Without(P.WRITE_EVENT);
      InterestMatches(w, c, k, events);
      var w1 := SetInterest(w, c, events).value;
      if env.wantsComplete {
        QueueMatches(w1, c, k.(events := events), l, WriteComplete(c));
      }
    }
  }

  lemma CallKeepsNotifies(k: C.Conn, call: C.Call)
    requires k.Valid() && C.CallPossible(k, call)
    ensures C.AfterCall(k, call).notifies == k.notifies
  {
    hide Image.Append;
  }

  lemma {:induction false} CallsKeepNotifies(k: C.Conn, calls: seq<C.Call>)
    requires k.Valid() && C.CallsPossible(k, calls)
    ensures C.AfterCalls(k, calls).notifies == k.notifies
    decreases |calls|
  {
    hide C.AfterCall, C.CallPossible;
    if calls != [] {
      CallKeepsNotifies(k, calls[0]);
      CallsKeepNotifies(C.AfterCall(k, calls[0]), calls[1..]);
    }
  }

  /** The three parts of the protocol's dispatch: close, read, write. */
  function Begun(w: World, l: LoopId, c: ConnId, mask: P.Mask, acts: seq<Act>): Checked<World>
  {
    if mask.Has(P.EPOLLHUP) && !mask.Has(P.EPOLLIN) then HandleClose(w, l, c, acts) else Fine(w)
  }

  function ReadNext(w: World, l: LoopId, c: ConnId, mask: P.Mask, e: Env): Checked<World>
  {
    if C.ReadsNow(mask) then HandleRead(w, l, c, e) else Fine(w)
  }

  lemma BeginSimulated(w: World, l: LoopId, c: ConnId, k: C.Conn, mask: P.Mask, acts: seq<Act>)
    requires Matches(w, c, k) && Begun(w, l, c, mask, acts).Fine? && forall j :: 0 <= j < |acts| ==> acts[j].d == c
    ensures var r := C.EventBegin(k, mask);
      r.Fine? && Matches(Begun(w, l, c, mask, acts).value, c, r.value) && r.value.notifies == k.notifies
    ensures Begun(w, l, c, mask, acts).value.conns[c].loop == w.conns[c].loop
  {
    hide HandleClose, P.Mask.Has;
    if mask.Has(P.EPOLLHUP) && !mask.Has(P.EPOLLIN) {
      CloseSimulated(w, l, c, k, acts);
    }
  }

  lemma ReadNextSimulated(w: World, l: LoopId, c: ConnId, k: C.Conn, mask: P.Mask, env: C.Env, e: Env)
    requires Matches(w, c, k) && w.conns[c].loop == l && k.Valid() && C.ReadPossible(k, env)
    requires ReadNext(w, l, c, mask, e).Fine?
    requires e.read == ReadOf(env.read) && e.fits == k.input.ReadFits(C.Delivered(env.read))
    requires e.acts == if e.read.Data? then ActsOf(c, C.Received(k, env.read.value), env.calls) else []
    ensures var r := C.EventRead(k, mask, env);
      r.Fine? && Matches(ReadNext(w, l, c, mask, e).value, c, r.value) && r.value.notifies == k.notifies
  {
    hide HandleRead, P.Mask.Has, ActsOf;
    if C.ReadsNow(mask) {
      ReadSimulated(w, l, c, k, env.read, env.calls, e);
      if e.read.Data? {
        CallsKeepNotifies(C.Received(k, env.read.value), env.calls);
      }
    }
  }

  lemma DispatchParts(w: World, l: LoopId, c: ConnId, mask: P.Mask, e: Env)
    requires HandleEvent(w, l, c, mask, e).Fine?
    ensures Begun(w, l, c, mask, e.acts).Fine?
    ensures var w1 := Begun(w, l, c, mask, e.acts).value; ReadNext(w1, l, c, mask, e).Fine?
    ensures var w2 := ReadNext(Begun(w, l, c, mask, e.acts).value, l, c, mask, e).value;
      HandleEvent(w, l, c, mask, e) == if mask.Has(P.EPOLLOUT) then HandleWrite(w2, l, c, e) else Fine(w2)
  {
    hide HandleClose, HandleRead, HandleWrite, P.Mask.Has;
  }

  lemma BeginKeepsInput(k: C.Conn, mask: P.Mask)
    requires k.Valid() && C.EventBegin(k, mask).Fine?
    ensures C.EventBegin(k, mask).value.input == k.input && C.EventBegin(k, mask).value.Valid()
  {
  }

  lemma DispatchSimulated(w: World, l: LoopId, c: ConnId, k: C.Conn, mask: P.Mask, env: C.Env)
    requires Matches(w, c, k) && w.conns[c].loop == l && k.Valid() && C.EventPossible(k, mask, env)
    requires HandleEvent(w, l, c, mask, EnvOf(c, k, mask, env)).Fine?
    ensures C.AfterHandleEvent(k, mask, env).Fine?
    ensures Matches(HandleEvent(w, l, c, mask, EnvOf(c, k, mask, env)).value, c, C.AfterHandleEvent(k, mask, env).value)
  {
    hide Matches, Begun, ReadNext, HandleEvent, HandleWrite, MessageActs, EventDrains, ActsOf, P.Mask.Has;
    hide C.EventBegin, C.EventRead, C.AfterHandleWrite, C.ReadPossible, C.Received;
    var e := EnvOf(c, k, mask, env);
    DispatchParts(w, l, c, mask, e);
    BeginSimulated(w, l, c, k, mask, e.acts);
    BeginKeepsInput(k, mask);
    var w1, k1 := Begun(w, l, c, mask, e.acts).value, C.EventBegin(k, mask).value;
    MessageActsAre(c, k, k1, mask, env);
    ReadNextSimulated(w1, l, c, k1, mask, env, e);
    var w2, k2 := ReadNext(w1, l, c, mask, e).value, C.EventRead(k1, mask, env).value;
    EventDrainsIs(k, k1, k2, mask, env);
    if mask.Has(P.EPOLLOUT) {
      WriteSimulated(w2, l, c, k2, env.accepted, e);
    }
  }

  /**
   * Handling a ready mask: whatever the socket delivers and the message callback does with the bytes, the protocol's
   * handler with the corresponding inputs breaks an assertion exactly when this one does, and otherwise ends in the same
   * state, interest and callbacks. So whether a read fits is no free choice of the protocol's.
   */
  lemma EventSimulated(w: World, l: LoopId, c: ConnId, k: C.Conn, mask: P.Mask, env: C.Env)
    requires S.Inv(w, S.Nothing) && Matches(w, c, k) && w.conns[c].loop == l && S.NotWaiting(w, c)
    requires C.Inv(k) && k.IsUp() && C.EventPossible(k, mask, env)
    ensures var r, r' := HandleEvent(w, l, c, mask, EnvOf(c, k, mask, env)), C.AfterHandleEvent(k, mask, env);
      (r.Fault? <==> r'.Fault?) && (r.Fine? ==> Matches(r.value, c, r'.value))
  {
    hide S.Inv, S.NotWaiting, HandleEvent, C.AfterHandleEvent, EnvOf;
    SameFaults(w, l, c, k, mask, env);
    if HandleEvent(w, l, c, mask, EnvOf(c, k, mask, env)).Fine? {
      DispatchSimulated(w, l, c, k, mask, env);
    }
  }

  lemma SameFaults(w: World, l: LoopId, c: ConnId, k: C.Conn, mask: P.Mask, env: C.Env)
    requires S.Inv(w, S.Nothing) && Matches(w, c, k) && w.conns[c].loop == l && S.NotWaiting(w, c)
    requires C.Inv(k) && k.IsUp() && C.EventPossible(k, mask, env)
    ensures HandleEvent(w, l, c, mask, EnvOf(c, k, mask, env)).Fault? <==> C.AfterHandleEvent(k, mask, env).Fault?
  {
    hide S.Inv, S.NotWaiting, HandleEvent, C.AfterHandleEvent, MessageActs, EventDrains, P.Mask.Has;
    S.HandleEventFaultIff(w, l, c, mask, EnvOf(c, k, mask, env));
    C.HandleEventFaultIff(k, mask, env);
  }

  lemma MessageActsAre(c: ConnId, k: C.Conn, k1: C.Conn, mask: P.Mask, env: C.Env)
    requires k.Valid() && C.EventPossible(k, mask, env) && C.EventBegin(k, mask) == Fine(k1)
    ensures k1.Valid() && C.ReadPossible(k1, env)
    ensures MessageActs(c, k, mask, env) ==
      if ReadOf(env.read).Data? then ActsOf(c, C.Received(k1, env.read.value), env.calls) else []
  {
  }

  lemma EventDrainsIs(k: C.Conn, k1: C.Conn, k2: C.Conn, mask: P.Mask, env: C.Env)
    requires k.Valid() && C.EventPossible(k, mask, env) && C.EventBegin(k, mask) == Fine(k1)
    requires C.EventRead(k1, mask, env) == Fine(k2)
    ensures EventDrains(k, mask, env) == Drains(k2, env.accepted)
    ensures env.accepted.Some? ==> env.accepted.value <= |k2.output.Readable()|
  {
  }
}
