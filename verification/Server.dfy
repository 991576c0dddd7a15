/**
 * TcpServer and TcpConnection as objects that update their fields (clia/src/net/tcp_server.cc,
 * clia/src/net/tcp_connection.cc). `l` is the loop whose thread runs a method. Bodies follow the source with its
 * assertions; contracts equate the new state with the protocol's step, and the stepping methods need only its invariant.
 */
module Server {
  import opened Checks
  import opened Lifecycle
  import S = LifecycleSafety
  import C = Connection
  import P = Poller

  class TcpServer {
    const base: LoopId
    var loops: map<LoopId, Loop>
    var conns: map<ConnId, Conn>
    var connections: map<int, ConnId>
    var open: set<int>
    var held: set<ConnId>

    function State(): World
      reads this
    {
      World(base, loops, conns, connections, open, held)
    }

    /** A server whose loops have just started; `others` are descriptors that belong to something else. */
    constructor (base: LoopId, all: set<LoopId>, others: set<int>)
      requires base in all
      ensures Initial(State()) && S.Inv(State(), S.Nothing) && loops.Keys == all && open == others
    {
      this.base := base;
      loops := map l | l in all :: Loop(P.Registry(map[], map[], map[]), Polling, [], 0, [], [], []);
      conns, connections, open, held := map[], map[], others, {};
      new;
      S.InitialInv(State());
      hide S.Inv;
    }

    method SetInterest(c: ConnId, events: P.Mask)
      requires Live(State(), c) && Lifecycle.SetInterest(State(), c, events).Fine?
      modifies this`loops
      ensures Fine(State()) == Lifecycle.SetInterest(old(State()), c, events)
    {
      var l := conns[c].loop;
      loops := loops[l := loops[l].(reg := P.SetEvents(loops[l].reg, c, events).value)];
    }

    method QueueInLoop(l: LoopId, f: Functor)
      requires l in loops
      modifies this`loops
      ensures Fine(State()) == Lifecycle.QueueInLoop(old(State()), l, f)
    {
      loops := loops[l := loops[l].(pending := loops[l].pending + [f])];
    }

    /** User code inside a callback. */
    method Callback(l: LoopId, acts: seq<Act>)
      requires UserActs(State(), l, acts).Fine?
      modifies this
      ensures Fine(State()) == UserActs(old(State()), l, acts)
    {
      ghost var final := UserActs(State(), l, acts);
      for i := 0 to |acts|
        invariant UserActs(State(), l, acts[i..]) == final
      {
        assert acts[i..][1..] == acts[i + 1..];
        UserCall(l, acts[i]);
      }
    }

    method UserCall(l: LoopId, act: Act)
      requires UserAct(State(), l, act).Fine?
      modifies this
      ensures Fine(State()) == UserAct(old(State()), l, act)
    {
      var d := act.d;
      if Live(State(), d) && conns[d].loop == l && conns[d].state.Connected? {
        match act
        case SendLeavesBacklog(_) => SetInterest(d, ChanOf(State(), d).events.Or(P.WRITE_EVENT));
        case SendCompletes(_) => QueueInLoop(l, WriteComplete(d));
        case Shutdown(_) => conns := conns[d := conns[d].(state := C.Disconnecting)];
      }
    }

    method ConnectEstablished(l: LoopId, c: ConnId, acts: seq<Act>)
      requires Lifecycle.ConnectEstablished(State(), l, c, acts).Fine?
      modifies this
      ensures Fine(State()) == Lifecycle.ConnectEstablished(old(State()), l, c, acts)
    {
      hide P.SetEvents, UserActs;
      assert l == conns[c].loop;
      assert conns[c].state.Connecting?;
      var events := ChanOf(State(), c).events;
      conns := conns[c := conns[c].(state := C.Connected)];
      SetInterest(c, events.Or(P.READ_EVENT));
      conns := conns[c := conns[c].(callbacks := conns[c].callbacks + [C.Up])];
      Callback(l, acts);
    }

    method HandleClose(l: LoopId, c: ConnId, acts: seq<Act>)
      requires Lifecycle.HandleClose(State(), l, c, acts).Fine?
      modifies this
      ensures Fine(State()) == Lifecycle.HandleClose(old(State()), l, c, acts)
    {
      hide P.SetEvents, UserActs;
      assert l == conns[c].loop;
      assert conns[c].state.Connected? || conns[c].state.Disconnecting?;
      conns := conns[c := conns[c].(state := C.Disconnected)];
      SetInterest(c, P.NO_EVENT);
      conns := conns[c := conns[c].(callbacks := conns[c].callbacks + [C.Down])];
      assert Fine(State()) == BeginClose(old(State()), l, c);
      Callback(l, acts);
      conns := conns[c := conns[c].(callbacks := conns[c].callbacks + [C.Close])];
      RemoveConnection(l, c);
    }

    /** `run_in_loop` on the base loop: at once on its own thread, otherwise queued. */
    method RemoveConnection(l: LoopId, c: ConnId)
      requires Lifecycle.RemoveConnection(State(), l, c).Fine?
      modifies this
      ensures Fine(State()) == Lifecycle.RemoveConnection(old(State()), l, c)
    {
      if l == base {
        RemoveConnectionInLoop(l, c);
      } else {
        QueueInLoop(base, Remove(c));
      }
    }

    method RemoveConnectionInLoop(l: LoopId, c: ConnId)
      requires Lifecycle.RemoveConnectionInLoop(State(), l, c).Fine?
      modifies this
      ensures Fine(State()) == Lifecycle.RemoveConnectionInLoop(old(State()), l, c)
    {
      var fd := conns[c].fd;
      assert l == base;
      assert fd in connections && connections[fd] == c;
      connections := connections - {fd};
      QueueInLoop(conns[c].loop, Destroy(c));
    }

    method ConnectDestroyed(l: LoopId, c: ConnId, acts: seq<Act>)
      requires Lifecycle.ConnectDestroyed(State(), l, c, acts).Fine?
      modifies this
      ensures Fine(State()) == Lifecycle.ConnectDestroyed(old(State()), l, c, acts)
    {
      hide P.SetEvents, P.Detach, UserActs;
      assert l == conns[c].loop;
      if conns[c].state.Connected? {
        conns := conns[c := conns[c].(state := C.Disconnected)];
        SetInterest(c, P.NO_EVENT);
        conns := conns[c := conns[c].(callbacks := conns[c].callbacks + [C.Down])];
        Callback(l, acts);
      }
      loops := loops[l := loops[l].(reg := P.Detach(loops[l].reg, c).value)];
    }

    method NewConnection(l: LoopId, fd: int, io: LoopId, c: ConnId, acts: seq<Act>)
      requires io in loops && Lifecycle.NewConnection(State(), l, fd, io, c, acts).Fine?
      modifies this
      ensures Fine(State()) == Lifecycle.NewConnection(old(State()), l, fd, io, c, acts)
    {
      hide Lifecycle.ConnectEstablished;
      assert l == base;
      assert fd !in connections;
      var reg := loops[io].reg;
      conns := conns[c := Conn(fd, io, C.Connecting, true, [])];
      loops := loops[io := loops[io].(reg := reg.(chans := reg.chans[c := P.Chan(fd, P.NO_EVENT, P.New, false)]))];
      connections, open := connections[fd := c], open + {fd};
      if io == l {
        ConnectEstablished(l, c, acts);
      } else {
        QueueInLoop(io, Establish(c));
      }
    }

    method HandleRead(l: LoopId, c: ConnId, env: Env)
      requires Lifecycle.HandleRead(State(), l, c, env).Fine?
      modifies this
      ensures Fine(State()) == Lifecycle.HandleRead(old(State()), l, c, env)
    {
      hide Lifecycle.HandleClose, UserActs;
      assert l == conns[c].loop;
      match env.read
      case Data =>
        conns := conns[c := conns[c].(callbacks := conns[c].callbacks + [C.Message])];
        Callback(l, env.acts);
      case EndOfStream => HandleClose(l, c, env.acts);
      case ReadError =>
    }

    method HandleWrite(l: LoopId, c: ConnId, env: Env)
      requires Lifecycle.HandleWrite(State(), l, c, env).Fine?
      modifies this
      ensures Fine(State()) == Lifecycle.HandleWrite(old(State()), l, c, env)
    {
      hide P.SetEvents;
      assert l == conns[c].loop;
      var events := ChanOf(State(), c).events;
      if events.Has(P.WRITE_EVENT) && env.drains {
        SetInterest(c, events.Without(P.WRITE_EVENT));
        if env.wantsComplete {
          QueueInLoop(l, WriteComplete(c));
        }
      }
    }

    /** `Channel::handle_event`, under the guard that keeps the connection alive. */
    method HandleEvent(l: LoopId, c: ConnId, mask: P.Mask, env: Env)
      requires Lifecycle.HandleEvent(State(), l, c, mask, env).Fine?
      modifies this
      ensures Fine(State()) == Lifecycle.HandleEvent(old(State()), l, c, mask, env)
    {
      hide Lifecycle.HandleClose, Lifecycle.HandleRead, Lifecycle.HandleWrite;
      if mask.Has(P.EPOLLHUP) && !mask.Has(P.EPOLLIN) {
        HandleClose(l, c, env.acts);
      }
      if C.ReadsNow(mask) {
        HandleRead(l, c, env);
      }
      if mask.Has(P.EPOLLOUT) {
        HandleWrite(l, c, env);
      }
    }

    /** The next active channel, in a state the protocol can be in: the source's assertions hold on the way. */
    method HandleNext(l: LoopId, env: Env)
      requires S.Inv(State(), S.Nothing) && Enabled(State(), Step.HandleNext(l, env))
      modifies this
      ensures Fine(State()) == Perform(old(State()), Step.HandleNext(l, env)) && S.Inv(State(), S.Nothing)
    {
      hide S.Inv, Lifecycle.HandleEvent;
      S.PerformInv(State(), Step.HandleNext(l, env));
      var lp := loops[l];
      loops := loops[l := lp.(next := lp.next + 1)];
      HandleEvent(l, lp.active[lp.next].c, lp.active[lp.next].mask, env);
    }

    method Call(l: LoopId, f: Functor, acts: seq<Act>)
      requires CallFunctor(State(), l, f, acts).Fine?
      modifies this
      ensures Fine(State()) == CallFunctor(old(State()), l, f, acts)
    {
      hide Lifecycle.ConnectEstablished, Lifecycle.ConnectDestroyed, Lifecycle.RemoveConnectionInLoop, UserActs;
      match f
      case Establish(c) => ConnectEstablished(l, c, acts);
      case Remove(c) => RemoveConnectionInLoop(l, c);
      case Destroy(c) => ConnectDestroyed(l, c, acts);
      case WriteComplete(c) => Callback(l, acts);
    }

    /** A new connection in a state the protocol can be in: the source's assertions hold on the way. */
    method Accept(fd: int, io: LoopId, c: ConnId, acts: seq<Act>)
      requires S.Inv(State(), S.Nothing) && Enabled(State(), Step.Accept(fd, io, c, acts))
      modifies this
      ensures Fine(State()) == Perform(old(State()), Step.Accept(fd, io, c, acts)) && S.Inv(State(), S.Nothing)
    {
      hide S.Inv, Lifecycle.NewConnection;
      S.PerformInv(State(), Step.Accept(fd, io, c, acts));
      NewConnection(base, fd, io, c, acts);
    }

    /** `do_pending_functors`, without other threads in between: everything taken is called, and the invariant holds. */
    method CallBatch(l: LoopId, acts: nat -> seq<Act>)
      requires S.Inv(State(), S.Nothing) && l in loops && loops[l].phase.Calling?
      modifies this
      ensures S.Inv(State(), S.Nothing) && l in loops && loops[l].phase.Calling? && loops[l].batch == []
      ensures loops[l].done == old(loops[l].done) + old(loops[l].batch)
    {
      hide S.Inv, CallFunctor;
      var i := 0;
      while loops[l].batch != []
        invariant S.Inv(State(), S.Nothing) && l in loops && loops[l].phase.Calling?
        invariant loops[l].done + loops[l].batch == old(loops[l].done) + old(loops[l].batch)
        decreases |loops[l].batch|
      {
        var f, lp := loops[l].batch[0], loops[l];
        S.CallNextInv(State(), l, acts(i));
        S.CallKeepsRounds(S.Popped(State(), l), l, f, acts(i));
        assert lp.batch == [f] + lp.batch[1..];
        assert (lp.done + [f]) + lp.batch[1..] == lp.done + lp.batch;
        loops := loops[l := lp.(batch := lp.batch[1..], done := lp.done + [f])];
        Call(l, f, acts(i));
        i := i + 1;
      }
      assert loops[l].done + [] == loops[l].done;
    }
  }
}
