/**
 * The life of connections across threads: TcpServer on the base loop, connections on I/O loops, functors between them
 * (clia/src/net/tcp_server.cc, clia/src/net/tcp_connection.cc, clia/src/reactor/event_loop.cc). One step is what one
 * thread does between two points where another may interfere: a poll result, one handled event, one called functor, the
 * end of a batch. Every assertion of the code on the way is a check that may report a fault.
 */
module Lifecycle {
  import opened Checks
  import C = Connection
  import P = Poller

  type LoopId = nat
  type ConnId = nat

  /** Functors hold a reference to their connection. */
  datatype Functor = Establish(c: ConnId) | Remove(c: ConnId) | Destroy(c: ConnId) | WriteComplete(c: ConnId)

  datatype Phase = Polling | Dispatching | Calling

  datatype Ready = Ready(c: ConnId, mask: P.Mask)

  /** `next` counts the active channels already handed out; `done` are the functors of this batch already called. */
  datatype Loop = Loop(
    reg: P.Registry<ConnId>, phase: Phase, active: seq<Ready>, next: nat,
    done: seq<Functor>, batch: seq<Functor>, pending: seq<Functor>)

  datatype Conn = Conn(fd: int, loop: LoopId, state: C.State, alive: bool, callbacks: seq<C.Callback>)

  /** `conns` remembers every connection ever made; `held` are those that user code keeps a pointer to. */
  datatype World = World(
    base: LoopId, loops: map<LoopId, Loop>, conns: map<ConnId, Conn>, connections: map<int, ConnId>,
    open: set<int>, held: set<ConnId>)

  // ----- building blocks -----

  /** The object exists, so touching it is not a use after free. */
  predicate Live(w: World, c: ConnId)
  {
    c in w.conns && w.conns[c].alive && w.conns[c].loop in w.loops && c in w.loops[w.conns[c].loop].reg.chans
  }

  function ChanOf(w: World, c: ConnId): P.Chan
    requires Live(w, c)
  {
    w.loops[w.conns[c].loop].reg.chans[c]
  }

  predicate IsUp(state: C.State) { state.Connected? || state.Disconnecting? }

  function WithLoop(w: World, l: LoopId, lp: Loop): World { w.(loops := w.loops[l := lp]) }

  function WithConn(w: World, c: ConnId, conn: Conn): World { w.(conns := w.conns[c := conn]) }

  function SetState(w: World, c: ConnId, state: C.State): World
    requires c in w.conns
  {
    WithConn(w, c, w.conns[c].(state := state))
  }

  function Note(w: World, c: ConnId, cb: C.Callback): World
    requires c in w.conns
  {
    WithConn(w, c, w.conns[c].(callbacks := w.conns[c].callbacks + [cb]))
  }

  function SetInterest(w: World, c: ConnId, events: P.Mask): Checked<World>
    requires Live(w, c)
  {
    var l := w.conns[c].loop;
    var reg :- P.SetEvents(w.loops[l].reg, c, events);
    Fine(WithLoop(w, l, w.loops[l].(reg := reg)))
  }

  function QueueInLoop(w: World, l: LoopId, f: Functor): Checked<World>
  {
    var _ :- Check(l in w.loops, "queue of no loop");
    Fine(WithLoop(w, l, w.loops[l].(pending := w.loops[l].pending + [f])))
  }

  // ----- user code in callbacks, on the thread of loop l -----

  datatype Act = SendLeavesBacklog(d: ConnId) | SendCompletes(d: ConnId) | Shutdown(d: ConnId)

  function UserAct(w: World, l: LoopId, act: Act): Checked<World>
  {
    if !Live(w, act.d) || w.conns[act.d].loop != l || !w.conns[act.d].state.Connected? then Fine(w)
    else match act
      case SendLeavesBacklog(d) => SetInterest(w, d, ChanOf(w, d).events.Or(P.WRITE_EVENT))
      case SendCompletes(d) => QueueInLoop(w, l, WriteComplete(d))
      case Shutdown(d) => Fine(SetState(w, d, C.Disconnecting))
  }

  function UserActs(w: World, l: LoopId, acts: seq<Act>): Checked<World>
    decreases |acts|
  {
    if acts == [] then Fine(w)
    else
      var w' :- UserAct(w, l, acts[0]);
      UserActs(w', l, acts[1..])
  }

  // ----- TcpConnection and TcpServer, on the thread of loop l -----

  function ConnectEstablished(w: World, l: LoopId, c: ConnId, acts: seq<Act>): Checked<World>
  {
    var _ :- Check(Live(w, c), "use after free");
    var _ :- Check(w.conns[c].loop == l, "tcp_connection.cc:82");
    var _ :- Check(w.conns[c].state.Connecting?, "tcp_connection.cc:83");
    var w1 :- SetInterest(SetState(w, c, C.Connected), c, ChanOf(w, c).events.Or(P.READ_EVENT));
    UserActs(Note(w1, c, C.Up), l, acts)
  }

  function ConnectDestroyed(w: World, l: LoopId, c: ConnId, acts: seq<Act>): Checked<World>
  {
    var _ :- Check(Live(w, c), "use after free");
    var _ :- Check(w.conns[c].loop == l, "tcp_connection.cc:95");
    var w1 :-
      if w.conns[c].state.Connected? then
        var w0 :- SetInterest(SetState(w, c, C.Disconnected), c, P.NO_EVENT);
        UserActs(Note(w0, c, C.Down), l, acts)
      else Fine(w);
    RemoveFromLoop(w1, l, c)
  }

  /** `Channel::remove` by way of `EventLoop::remove_channel`. */
  function RemoveFromLoop(w: World, l: LoopId, c: ConnId): Checked<World>
  {
    var _ :- Check(Live(w, c) && w.conns[c].loop == l, "use after free");
    var lp := w.loops[l];
    var _ :- Check(lp.phase.Dispatching? ==>
      || (0 < lp.next <= |lp.active| && lp.active[lp.next - 1].c == c)
      || forall k :: 0 <= k < |lp.active| ==> lp.active[k].c != c, "event_loop.cc:116");
    var reg :- P.Detach(lp.reg, c);
    Fine(WithLoop(w, l, lp.(reg := reg)))
  }

  function RemoveConnectionInLoop(w: World, l: LoopId, c: ConnId): Checked<World>
  {
    var _ :- Check(Live(w, c), "use after free");
    var _ :- Check(l == w.base, "tcp_server.cc:87");
    var fd := w.conns[c].fd;
    var _ :- Check(fd in w.connections && w.connections[fd] == c, "tcp_server.cc:89");
    QueueInLoop(w.(connections := w.connections - {fd}), w.conns[c].loop, Destroy(c))
  }

  /** The close callback: `run_in_loop` on the base loop. */
  function RemoveConnection(w: World, l: LoopId, c: ConnId): Checked<World>
  {
    if l == w.base then RemoveConnectionInLoop(w, l, c) else QueueInLoop(w, w.base, Remove(c))
  }

  /** `handle_close` up to the down callback. */
  function BeginClose(w: World, l: LoopId, c: ConnId): Checked<World>
  {
    var _ :- Check(Live(w, c), "use after free");
    var _ :- Check(w.conns[c].loop == l, "tcp_connection.cc:148");
    var _ :- Check(IsUp(w.conns[c].state), "tcp_connection.cc:149");
    var w1 :- SetInterest(SetState(w, c, C.Disconnected), c, P.NO_EVENT);
    Fine(Note(w1, c, C.Down))
  }

  function EndClose(w: World, l: LoopId, c: ConnId): Checked<World>
  {
    var _ :- Check(Live(w, c), "use after free");
    RemoveConnection(Note(w, c, C.Close), l, c)
  }

  function HandleClose(w: World, l: LoopId, c: ConnId, acts: seq<Act>): Checked<World>
  {
    var w1 :- BeginClose(w, l, c);
    var w2 :- UserActs(w1, l, acts);
    EndClose(w2, l, c)
  }

  /** The new connection's object, its channel and its entry in the server's map. */
  function Construct(w: World, fd: int, io: LoopId, c: ConnId): World
    requires io in w.loops
  {
    var reg := w.loops[io].reg;
    var w1 := WithConn(w, c, Conn(fd, io, C.Connecting, true, []));
    var w2 := WithLoop(w1, io,
      w.loops[io].(reg := reg.(chans := reg.chans[c := P.Chan(fd, P.NO_EVENT, P.New, false)])));
    w2.(connections := w.connections[fd := c], open := w.open + {fd})
  }

  function NewConnection(w: World, l: LoopId, fd: int, io: LoopId, c: ConnId, acts: seq<Act>): Checked<World>
    requires io in w.loops
  {
    var _ :- Check(l == w.base, "tcp_server.cc:58");
    var _ :- Check(fd !in w.connections, "tcp_server.cc:66");
    var w1 := Construct(w, fd, io, c);
    if io == l then ConnectEstablished(w1, l, c, acts) else QueueInLoop(w1, io, Establish(c))
  }

  // ----- one ready channel -----

  datatype ReadResult = Data | EndOfStream | ReadError

  /**
   * What the socket and user code do while one event is handled. `fits` says that the input buffer, whose bytes are not
   * modelled here, has room for the read and its scratch copy (`Connection.FitsIfRead`).
   */
  datatype Env = Env(read: ReadResult, acts: seq<Act>, drains: bool, wantsComplete: bool, fits: bool)

  function HandleRead(w: World, l: LoopId, c: ConnId, env: Env): Checked<World>
  {
    var _ :- Check(Live(w, c), "use after free");
    var _ :- Check(w.conns[c].loop == l, "tcp_connection.cc:113");
    var _ :- Check(env.fits, "buffer.cc:131, buffer.cc:145-146");
    match env.read
    case Data => UserActs(Note(w, c, C.Message), l, env.acts)
    case EndOfStream => HandleClose(w, l, c, env.acts)
    case ReadError => Fine(w)
  }

  function HandleWrite(w: World, l: LoopId, c: ConnId, env: Env): Checked<World>
  {
    var _ :- Check(Live(w, c), "use after free");
    var _ :- Check(w.conns[c].loop == l, "tcp_connection.cc:128");
    var events := ChanOf(w, c).events;
    if !events.Has(P.WRITE_EVENT) || !env.drains then Fine(w)
    else
      var w1 :- SetInterest(w, c, events.Without(P.WRITE_EVENT));
      if env.wantsComplete then QueueInLoop(w1, l, WriteComplete(c)) else Fine(w1)
  }

  function HandleEvent(w: World, l: LoopId, c: ConnId, mask: P.Mask, env: Env): Checked<World>
  {
    var _ :- Check(Live(w, c), "use after free");
    var w1 :- if mask.Has(P.EPOLLHUP) && !mask.Has(P.EPOLLIN) then HandleClose(w, l, c, env.acts) else Fine(w);
    var w2 :- if C.ReadsNow(mask) then HandleRead(w1, l, c, env) else Fine(w1);
    if mask.Has(P.EPOLLOUT) then HandleWrite(w2, l, c, env) else Fine(w2)
  }

  function CallFunctor(w: World, l: LoopId, f: Functor, acts: seq<Act>): Checked<World>
  {
    match f
    case Establish(c) => ConnectEstablished(w, l, c, acts)
    case Remove(c) => RemoveConnectionInLoop(w, l, c)
    case Destroy(c) => ConnectDestroyed(w, l, c, acts)
    case WriteComplete(c) =>
      var _ :- Check(Live(w, c), "use after free");
      UserActs(w, l, acts)
  }

  // ----- the end of objects -----

  ghost predicate Mentions(fs: seq<Functor>, c: ConnId)
  {
    exists k :: 0 <= k < |fs| && fs[k].c == c
  }

  ghost predicate Queued(lp: Loop, c: ConnId)
  {
    Mentions(lp.done, c) || Mentions(lp.batch, c) || Mentions(lp.pending, c)
  }

  ghost predicate Referenced(w: World, c: ConnId)
  {
    || c in w.held
    || (exists fd :: fd in w.connections && w.connections[fd] == c)
    || (exists l :: l in w.loops && Queued(w.loops[l], c))
  }

  /** A connection whose last reference is gone is destroyed at once, and its descriptor closed. */
  ghost predicate Expires(w: World, c: ConnId)
  {
    c in w.conns && w.conns[c].alive && !Referenced(w, c)
  }

  ghost predicate MayEnd(w: World, c: ConnId)
  {
    && Live(w, c)
    && w.conns[c].state.Disconnected?
    && !ChanOf(w, c).addedToLoop
    && !Registered(w.loops[w.conns[c].loop].reg, c)
  }

  ghost function Reap(w: World): Checked<World>
  {
    var _ :- Check(forall c :: Expires(w, c) ==> MayEnd(w, c), "tcp_connection.cc:28, channel.cc:30, channel.cc:32");
    var dead := set c | c in w.conns && Expires(w, c);
    Fine(w.(
      conns := map c | c in w.conns :: if c in dead then w.conns[c].(alive := false) else w.conns[c],
      loops := map l | l in w.loops :: w.loops[l].(reg := w.loops[l].reg.(chans := w.loops[l].reg.chans - dead)),
      open := w.open - set c | c in dead :: w.conns[c].fd))
  }

  // ----- steps -----

  datatype Step =
    | PollReturns(l: LoopId, ready: seq<Ready>)
    | Accept(fd: int, io: LoopId, c: ConnId, acts: seq<Act>)
    | HandleNext(l: LoopId, env: Env)
    | EndDispatch(l: LoopId)
    | CallNext(l: LoopId, acts: seq<Act>)
    | EndBatch(l: LoopId)
    | Hold(c: ConnId)
    | Release(c: ConnId)
    | OpenOther(fd: int)
    | CloseOther(fd: int)

  ghost predicate InKernel(reg: P.Registry<ConnId>, c: ConnId)
  {
    exists fd :: fd in reg.kernel && reg.kernel[fd].owner == c
  }

  /** What the kernel reports: registered descriptors, each at most once, with masks that do not close and read. */
  ghost predicate Reportable(reg: P.Registry<ConnId>, ready: seq<Ready>)
  {
    && (forall k :: 0 <= k < |ready| ==> !C.ClosesAndReads(ready[k].mask))
    && (forall k :: 0 <= k < |ready| ==> InKernel(reg, ready[k].c))
    && (forall j, k :: 0 <= j < k < |ready| ==> ready[j].c != ready[k].c)
  }

  ghost predicate Enabled(w: World, step: Step)
  {
    match step
    case PollReturns(l, ready) => l in w.loops && w.loops[l].phase.Polling? && Reportable(w.loops[l].reg, ready)
    case Accept(fd, io, c, _) =>
      w.base in w.loops && w.loops[w.base].phase.Dispatching? && io in w.loops && fd !in w.open && c !in w.conns
    case HandleNext(l, env) =>
      l in w.loops && w.loops[l].phase.Dispatching? && w.loops[l].next < |w.loops[l].active| && env.fits
    case EndDispatch(l) => l in w.loops && w.loops[l].phase.Dispatching? && w.loops[l].next >= |w.loops[l].active|
    case CallNext(l, _) => l in w.loops && w.loops[l].phase.Calling? && w.loops[l].batch != []
    case EndBatch(l) => l in w.loops && w.loops[l].phase.Calling? && w.loops[l].batch == []
    case Hold(c) => Live(w, c)
    case Release(c) => c in w.held
    case OpenOther(fd) => fd !in w.open
    case CloseOther(fd) => fd in w.open && forall c :: c in w.conns && w.conns[c].alive ==> w.conns[c].fd != fd
  }

  ghost predicate Registered(reg: P.Registry<ConnId>, c: ConnId)
  {
    exists fd :: fd in reg.channels && reg.channels[fd] == c
  }

  /** The assertion of `fill_active_channels`. */
  ghost predicate InPollerMap(reg: P.Registry<ConnId>, ready: seq<Ready>)
  {
    forall k :: 0 <= k < |ready| ==> Registered(reg, ready[k].c)
  }

  ghost function Perform(w: World, step: Step): Checked<World>
    requires Enabled(w, step)
  {
    match step
    case PollReturns(l, ready) =>
      var _ :- Check(InPollerMap(w.loops[l].reg, ready), "epoller.cc:61");
      Fine(WithLoop(w, l, w.loops[l].(phase := Dispatching, active := ready, next := 0)))
    case Accept(fd, io, c, acts) => NewConnection(w, w.base, fd, io, c, acts)
    case HandleNext(l, env) =>
      var lp := w.loops[l];
      var ready := lp.active[lp.next];
      HandleEvent(WithLoop(w, l, lp.(next := lp.next + 1)), l, ready.c, ready.mask, env)
    case EndDispatch(l) =>
      var lp := w.loops[l];
      Fine(WithLoop(w, l, lp.(phase := Calling, active := [], next := 0, batch := lp.pending, pending := [])))
    case CallNext(l, acts) =>
      var lp := w.loops[l];
      CallFunctor(WithLoop(w, l, lp.(batch := lp.batch[1..], done := lp.done + [lp.batch[0]])), l, lp.batch[0], acts)
    case EndBatch(l) => Fine(WithLoop(w, l, w.loops[l].(phase := Polling, done := [])))
    case Hold(c) => Fine(w.(held := w.held + {c}))
    case Release(c) => Fine(w.(held := w.held - {c}))
    case OpenOther(fd) => Fine(w.(open := w.open + {fd}))
    case CloseOther(fd) => Fine(w.(open := w.open - {fd}))
  }

  ghost function Next(w: World, step: Step): Checked<World>
    requires Enabled(w, step)
  {
    var w' :- Perform(w, step);
    Reap(w')
  }

  ghost function Run(w: World, steps: seq<Step>): Checked<World>
    decreases |steps|
  {
    if steps == [] then Fine(w)
    else if !Enabled(w, steps[0]) then Run(w, steps[1..])
    else
      var w' :- Next(w, steps[0]);
      Run(w', steps[1..])
  }

  ghost predicate Initial(w: World)
  {
    && w.base in w.loops && w.conns == map[] && w.connections == map[] && w.held == {}
    && forall l :: l in w.loops ==> w.loops[l] == Loop(P.Registry(map[], map[], map[]), Polling, [], 0, [], [], [])
  }
}
