/**
 * What each step of the protocol does to connections, maps and queues, and which assertions of the code it has passed,
 * stated without the step's own branches.
 */
module LifecycleEffects {
  import opened Checks
  import opened Lifecycle
  import S = LifecycleSafety
  import C = Connection
  import P = Poller

  // ----- assertions -----

  /** A poller update that reports no fault has met epoller.cc:79, 82, 87 and the rules of epoll_ctl. */
  lemma UpdateChecks(r: P.Registry<ConnId>, c: ConnId, events: P.Mask)
    requires c in r.chans && P.SetEvents(r, c, events).Fine?
    ensures var ch := r.chans[c];
      && (ch.index.New? ==> ch.fd !in r.channels)
      && (!ch.index.New? ==> ch.fd in r.channels && r.channels[ch.fd] == c)
      && (ch.index.Added? <==> ch.fd in r.kernel)
  {
  }

  /** Leaving a poller has met channel.cc:129, epoller.cc:105, 107 and event_loop.cc:116. */
  lemma LeaveChecks(w: World, l: LoopId, c: ConnId)
    requires RemoveFromLoop(w, l, c).Fine?
    ensures Live(w, c) && w.conns[c].loop == l && ChanOf(w, c).events == P.NO_EVENT && !ChanOf(w, c).index.New?
    ensures ChanOf(w, c).fd in w.loops[l].reg.channels && w.loops[l].reg.channels[ChanOf(w, c).fd] == c
    ensures var lp := w.loops[l]; forall k :: 0 <= k < |lp.active| && lp.phase.Dispatching? && lp.active[k].c == c ==>
      0 < lp.next <= |lp.active| && lp.active[lp.next - 1].c == c
  {
  }

  /** The handlers and functors of a connection have met the assertions on its life, its thread and its state. */
  lemma HandlersCheck(w: World, l: LoopId, c: ConnId, env: Env, acts: seq<Act>)
    ensures ConnectEstablished(w, l, c, acts).Fine? ==> Live(w, c) && w.conns[c].loop == l && w.conns[c].state.Connecting?
    ensures ConnectDestroyed(w, l, c, acts).Fine? ==> Live(w, c) && w.conns[c].loop == l
    ensures HandleClose(w, l, c, acts).Fine? ==> Live(w, c) && w.conns[c].loop == l && IsUp(w.conns[c].state)
    ensures HandleRead(w, l, c, env).Fine? ==> Live(w, c) && w.conns[c].loop == l && env.fits
    ensures HandleWrite(w, l, c, env).Fine? ==> Live(w, c) && w.conns[c].loop == l
  {
    hide SetInterest, UserActs, RemoveFromLoop, QueueInLoop;
  }

  /** The server's functions have met tcp_server.cc:58, 66, 87 and 89. */
  lemma ServerChecks(w: World, l: LoopId, fd: int, io: LoopId, c: ConnId, acts: seq<Act>)
    requires io in w.loops
    ensures NewConnection(w, l, fd, io, c, acts).Fine? ==> l == w.base && fd !in w.connections
    ensures RemoveConnectionInLoop(w, l, c).Fine? ==>
      Live(w, c) && l == w.base && w.conns[c].fd in w.connections && w.connections[w.conns[c].fd] == c
  {
    hide ConnectEstablished, QueueInLoop;
  }

  /** A poll has met epoller.cc:61; an object that ends has met tcp_connection.cc:28 and channel.cc:30 and 32. */
  lemma PollAndEndCheck(w: World, l: LoopId, ready: seq<Ready>, c: ConnId)
    ensures Enabled(w, PollReturns(l, ready)) && Perform(w, PollReturns(l, ready)).Fine? ==>
      forall k :: 0 <= k < |ready| ==> Registered(w.loops[l].reg, ready[k].c)
    ensures Reap(w).Fine? && c in w.conns && w.conns[c].alive && !Referenced(w, c) ==>
      && Live(w, c) && w.conns[c].state.Disconnected? && !ChanOf(w, c).addedToLoop
      && !Registered(w.loops[w.conns[c].loop].reg, c)
  {
    hide Referenced, Registered, NewConnection, HandleEvent, CallFunctor;
    if Reap(w).Fine? && c in w.conns && w.conns[c].alive && !Referenced(w, c) {
      assert Expires(w, c);
    }
  }

  // ----- accept -----

  /** In every state of the protocol a descriptor that is not open can be accepted for any loop. */
  lemma AcceptIsOpen(w: World, fd: int, io: LoopId, c: ConnId, acts: seq<Act>)
    requires S.Inv(w, S.Nothing) && w.loops[w.base].phase.Dispatching? && io in w.loops && fd !in w.open && c !in w.conns
    ensures Enabled(w, Accept(fd, io, c, acts)) && Perform(w, Accept(fd, io, c, acts)).Fine?
  {
    hide S.Inv, Perform;
    assert w.base in w.loops by { S.InvStructure(w, S.Nothing); S.BaseIsLoop(w); }
    S.PerformInv(w, Accept(fd, io, c, acts));
  }

  /** Another loop's connection enters the server's map at once, Connecting, and its establishment is queued there. */
  lemma AcceptQueuesElsewhere(w: World, fd: int, io: LoopId, c: ConnId, acts: seq<Act>)
    requires io in w.loops && io != w.base && NewConnection(w, w.base, fd, io, c, acts).Fine?
    ensures var w' := NewConnection(w, w.base, fd, io, c, acts).value;
      && w'.conns == w.conns[c := Conn(fd, io, C.Connecting, true, [])]
      && w'.connections == w.connections[fd := c] && w'.open == w.open + {fd} && w'.held == w.held
      && w'.loops.Keys == w.loops.Keys && w'.loops[io].pending == w.loops[io].pending + [Establish(c)]
      && (forall l :: l in w.loops && l != io ==> w'.loops[l] == w.loops[l])
  {
    hide ConnectEstablished;
  }

  /** On the base loop it is established before anything else happens: in the map, read from, and the user told. */
  lemma AcceptEstablishesHere(w: World, fd: int, c: ConnId)
    requires w.base in w.loops && c !in w.conns && NewConnection(w, w.base, fd, w.base, c, []).Fine?
    ensures var w' := NewConnection(w, w.base, fd, w.base, c, []).value;
      && w'.conns == w.conns[c := Conn(fd, w.base, C.Connected, true, [C.Up])]
      && w'.connections == w.connections[fd := c] && w'.open == w.open + {fd} && w'.held == w.held
      && Live(w', c) && ChanOf(w', c) == P.Chan(fd, P.Mask(true, true, false, false, false, false), P.Added, true)
      && w'.loops[w.base].pending == w.loops[w.base].pending
  {
    hide P.SetEvents;
    var w1 := Construct(w, fd, w.base, c);
    FirstInterest(w1.loops[w.base].reg, c, fd);
    assert [] + [C.Up] == [C.Up];
    var w2 := SetInterest(SetState(w1, c, C.Connected), c, P.NO_EVENT.Or(P.READ_EVENT)).value;
    var w3 := Note(w2, c, C.Up);
    assert UserActs(w3, w.base, []) == Fine(w3);
    assert w3.conns == w.conns[c := Conn(fd, w.base, C.Connected, true, [C.Up])];
  }

  lemma FirstInterest(r: P.Registry<ConnId>, c: ConnId, fd: int)
    requires c in r.chans && r.chans[c] == P.Chan(fd, P.NO_EVENT, P.New, false)
    requires P.SetEvents(r, c, P.NO_EVENT.Or(P.READ_EVENT)).Fine?
    ensures var s := P.SetEvents(r, c, P.NO_EVENT.Or(P.READ_EVENT)).value;
      c in s.chans && s.chans[c] == P.Chan(fd, P.Mask(true, true, false, false, false, false), P.Added, true)
  {
  }

  /** A destroyed connection has left its poller; one that was still Connected is taken down first, and the user told. */
  lemma DestroyLeaves(w: World, l: LoopId, c: ConnId)
    requires ConnectDestroyed(w, l, c, []).Fine?
    ensures var w' := ConnectDestroyed(w, l, c, []).value;
      && Live(w, c) && Live(w', c) && ChanOf(w', c).index.New? && !ChanOf(w', c).addedToLoop
      && w'.conns == if !w.conns[c].state.Connected? then w.conns
                     else w.conns[c := w.conns[c].(state := C.Disconnected, callbacks := w.conns[c].callbacks + [C.Down])]
  {
    hide SetInterest, RemoveFromLoop;
    if w.conns[c].state.Connected? {
      var w0 := SetInterest(SetState(w, c, C.Disconnected), c, P.NO_EVENT).value;
      InterestIs(SetState(w, c, C.Disconnected), c, P.NO_EVENT);
      var w1 := Note(w0, c, C.Down);
      assert UserActs(w1, l, []) == Fine(w1);
      assert w1.conns == w.conns[c := w.conns[c].(state := C.Disconnected, callbacks := w.conns[c].callbacks + [C.Down])];
      LeftPoller(w1, l, c);
    } else {
      LeftPoller(w, l, c);
    }
  }

  lemma LeftPoller(w: World, l: LoopId, c: ConnId)
    requires RemoveFromLoop(w, l, c).Fine?
    ensures var w' := RemoveFromLoop(w, l, c).value;
      w'.conns == w.conns && Live(w', c) && ChanOf(w', c).index.New? && !ChanOf(w', c).addedToLoop
  {
  }

  // ----- a loop's round -----

  /** Whatever registered connections become ready, each once and with masks that do not close and read, can be reported. */
  lemma ReadyIsReportable(w: World, l: LoopId, ready: seq<Ready>, fds: seq<int>)
    requires l in w.loops && w.loops[l].phase.Polling? && |fds| == |ready|
    requires forall k :: 0 <= k < |ready| ==>
      && fds[k] in w.loops[l].reg.kernel && w.loops[l].reg.kernel[fds[k]].owner == ready[k].c
      && !(ready[k].mask.hangUp && !ready[k].mask.input && (ready[k].mask.urgent || ready[k].mask.peerClosed))
    requires forall j, k :: 0 <= j < k < |ready| ==> ready[j].c != ready[k].c
    ensures Enabled(w, PollReturns(l, ready))
  {
    forall k | 0 <= k < |ready| ensures InKernel(w.loops[l].reg, ready[k].c) && !C.ClosesAndReads(ready[k].mask) {
      OwnerInKernel(w.loops[l].reg, fds[k]);
    }
  }

  lemma OwnerInKernel(reg: P.Registry<ConnId>, fd: int)
    requires fd in reg.kernel
    ensures InKernel(reg, reg.kernel[fd].owner)
  {
    var c := reg.kernel[fd].owner;
    assert reg.kernel[fd].owner == c;
  }

  /** One loop moves; everything else in the world is as it was. */
  predicate OnlyLoop(w: World, w': World, l: LoopId, lp: Loop)
  {
    l in w.loops && w' == w.(loops := w.loops[l := lp])
  }

  /** The loop is at this place of its round, with more pending at most; the other loops are where they were. */
  ghost predicate InRound(w: World, w': World, l: LoopId, lp: Loop)
  {
    l in w.loops && S.SameRounds(w.(loops := w.loops[l := lp]), w')
  }

  /** A poll hands over everything that is ready, in order; its end takes everything pending, in order, for the batch. */
  lemma RoundMoves(w: World, l: LoopId, ready: seq<Ready>)
    requires l in w.loops
    ensures var step := PollReturns(l, ready); Enabled(w, step) && Perform(w, step).Fine? ==>
      OnlyLoop(w, Perform(w, step).value, l, w.loops[l].(phase := Dispatching, active := ready, next := 0))
    ensures var step := EndDispatch(l); Enabled(w, step) ==>
      && w.loops[l].next >= |w.loops[l].active|
      && Perform(w, step).Fine?
      && OnlyLoop(w, Perform(w, step).value, l,
                  w.loops[l].(phase := Calling, active := [], next := 0, batch := w.loops[l].pending, pending := []))
    ensures var step := EndBatch(l); Enabled(w, step) ==>
      && w.loops[l].batch == [] && Perform(w, step).Fine?
      && OnlyLoop(w, Perform(w, step).value, l, w.loops[l].(phase := Polling, done := []))
    ensures w.loops[l].phase.Dispatching? && w.loops[l].next >= |w.loops[l].active| ==> Enabled(w, EndDispatch(l))
    ensures w.loops[l].phase.Calling? && w.loops[l].batch == [] ==> Enabled(w, EndBatch(l))
  {
    hide NewConnection, HandleEvent, CallFunctor, Reportable;
  }

  /** Active channels are handled one by one in order, each once; handlers disturb no loop's round. */
  lemma HandlesInOrder(w: World, l: LoopId, env: Env)
    requires S.Inv(w, S.Nothing) && l in w.loops && w.loops[l].phase.Dispatching? && w.loops[l].next < |w.loops[l].active|
    requires env.fits
    ensures Enabled(w, HandleNext(l, env)) && Perform(w, HandleNext(l, env)).Fine?
    ensures InRound(w, Perform(w, HandleNext(l, env)).value, l, w.loops[l].(next := w.loops[l].next + 1))
  {
    hide S.Inv, HandleEvent, NewConnection, CallFunctor;
    S.PerformInv(w, HandleNext(l, env));
    var lp := w.loops[l];
    var w1 := WithLoop(w, l, lp.(next := lp.next + 1));
    S.EventKeepsRounds(w1, l, lp.active[lp.next].c, lp.active[lp.next].mask, env);
  }

  /** Functors of a batch are called one by one in order, each once; what they queue waits for the next batch. */
  lemma CallsInOrder(w: World, l: LoopId, acts: seq<Act>)
    requires S.Inv(w, S.Nothing) && l in w.loops && w.loops[l].phase.Calling? && w.loops[l].batch != []
    ensures Enabled(w, CallNext(l, acts)) && Perform(w, CallNext(l, acts)).Fine?
    ensures InRound(w, Perform(w, CallNext(l, acts)).value, l,
                    w.loops[l].(batch := w.loops[l].batch[1..], done := w.loops[l].done + [w.loops[l].batch[0]]))
  {
    hide S.Inv, HandleEvent, NewConnection, CallFunctor;
    S.PerformInv(w, CallNext(l, acts));
    var lp := w.loops[l];
    var w1 := WithLoop(w, l, lp.(batch := lp.batch[1..], done := lp.done + [lp.batch[0]]));
    S.CallKeepsRounds(w1, l, lp.batch[0], acts);
  }

  // ----- user code and the write handler -----

  /** The up callback runs user code on an established connection, and the completion callback runs it on the world as is. */
  lemma UpAndCompletionRunUserCode(w: World, l: LoopId, c: ConnId, acts: seq<Act>)
    ensures ConnectEstablished(w, l, c, []).Fine? ==>
      ConnectEstablished(w, l, c, acts) == UserActs(ConnectEstablished(w, l, c, []).value, l, acts)
    ensures Live(w, c) ==> CallFunctor(w, l, WriteComplete(c), acts) == UserActs(w, l, acts)
  {
    hide SetInterest;
  }

  /** The down callback runs user code when the connection is down and before it leaves the server's map. */
  lemma DownRunsUserCode(w: World, l: LoopId, c: ConnId, acts: seq<Act>)
    requires HandleClose(w, l, c, acts).Fine?
    ensures BeginClose(w, l, c).Fine?
    ensures var w1 := BeginClose(w, l, c).value;
      && c in w1.conns && w1.conns[c].state.Disconnected? && w1.connections == w.connections
      && UserActs(w1, l, acts).Fine? && HandleClose(w, l, c, acts) == EndClose(UserActs(w1, l, acts).value, l, c)
  {
    hide SetInterest, UserActs, EndClose;
    InterestIs(SetState(w, c, C.Disconnected), c, P.NO_EVENT);
    SameMap(SetState(w, c, C.Disconnected), c, P.NO_EVENT);
  }

  lemma SameMap(w: World, c: ConnId, events: P.Mask)
    requires Live(w, c) && SetInterest(w, c, events).Fine?
    ensures SetInterest(w, c, events).value.connections == w.connections
  {
    hide P.SetEvents;
  }

  /** User pointers and descriptors of others come and go, and nothing else. */
  lemma OutsideDoes(w: World, c: ConnId, fd: int)
    ensures Live(w, c) ==> Enabled(w, Hold(c)) && Perform(w, Hold(c)) == Fine(w.(held := w.held + {c}))
    ensures c in w.held ==> Enabled(w, Release(c)) && Perform(w, Release(c)) == Fine(w.(held := w.held - {c}))
    ensures fd !in w.open ==> Enabled(w, OpenOther(fd)) && Perform(w, OpenOther(fd)) == Fine(w.(open := w.open + {fd}))
    ensures fd in w.open && (forall d :: d in w.conns && w.conns[d].alive ==> w.conns[d].fd != fd) ==>
      Enabled(w, CloseOther(fd)) && Perform(w, CloseOther(fd)) == Fine(w.(open := w.open - {fd}))
  {
    hide NewConnection, HandleEvent, CallFunctor;
  }

  lemma InterestIs(w: World, c: ConnId, events: P.Mask)
    requires Live(w, c) && SetInterest(w, c, events).Fine?
    ensures var w' := SetInterest(w, c, events).value;
      && Live(w', c) && ChanOf(w', c).events == events && w'.conns == w.conns
      && forall l :: l in w.loops ==> l in w'.loops && w'.loops[l].pending == w.loops[l].pending
  {
  }

  /** User code acts on connections of its own loop that are Connected, and on nothing else. */
  lemma ActDoes(w: World, l: LoopId, act: Act)
    requires UserAct(w, l, act).Fine?
    ensures var w' := UserAct(w, l, act).value; var d := act.d;
      if !Live(w, d) || w.conns[d].loop != l || !w.conns[d].state.Connected? then w' == w
      else match act
        case SendLeavesBacklog(_) => Live(w', d) && ChanOf(w', d).events == ChanOf(w, d).events.(output := true)
        case SendCompletes(_) =>
          OnlyLoop(w, w', l, w.loops[l].(pending := w.loops[l].pending + [WriteComplete(d)]))
        case Shutdown(_) => w' == w.(conns := w.conns[d := w.conns[d].(state := C.Disconnecting)])
  {
    hide SetInterest;
    var d := act.d;
    if Live(w, d) && w.conns[d].loop == l && w.conns[d].state.Connected? && act.SendLeavesBacklog? {
      InterestIs(w, d, ChanOf(w, d).events.Or(P.WRITE_EVENT));
    }
  }

  /** When the last waiting byte is out, write interest ends and, if wanted, one completion is queued on this loop. */
  lemma DrainCompletes(w: World, l: LoopId, c: ConnId, env: Env)
    requires HandleWrite(w, l, c, env).Fine? && l in w.loops
    ensures Live(w, c) && w.conns[c].loop == l
    ensures var w' := HandleWrite(w, l, c, env).value;
      if !env.drains || !ChanOf(w, c).events.output then w' == w
      else
        && Live(w', c) && ChanOf(w', c).events == ChanOf(w, c).events.(output := false) && l in w'.loops
        && w'.loops[l].pending == w.loops[l].pending + if env.wantsComplete then [WriteComplete(c)] else []
  {
    hide SetInterest;
    var events := ChanOf(w, c).events;
    if env.drains && events.output {
      InterestIs(w, c, events.Without(P.WRITE_EVENT));
      assert w.loops[l].pending + [] == w.loops[l].pending;
    }
  }
}
