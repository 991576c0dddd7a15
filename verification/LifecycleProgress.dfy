/**
 * Removal completes. Once a connection is down and user code holds no pointer to it, every step of any thread either
 * leaves its removal where it is or brings it nearer, so every fair run ends its object and closes its descriptor, and
 * turns of the loops alone are enough.
 */
module LifecycleProgress {
  import opened Checks
  import opened Lifecycle
  import S = LifecycleSafety
  import C = Connection
  import P = Poller

  datatype Mover = Loops(l: LoopId) | Others

  /** Whose round a step moves on; an accept and the steps of users and others move none. */
  function MoverOf(step: Step): Mover
  {
    match step
    case PollReturns(l, _) => Loops(l)
    case HandleNext(l, _) => Loops(l)
    case EndDispatch(l) => Loops(l)
    case CallNext(l, _) => Loops(l)
    case EndBatch(l) => Loops(l)
    case _ => Others
  }

  // ----- what is left alone -----

  /** Only the pending functors may grow, by functors of other connections. */
  ghost predicate LoopSpares(lp: Loop, lp': Loop, c: ConnId)
  {
    && lp'.phase == lp.phase && lp'.active == lp.active && lp'.next == lp.next
    && lp'.done == lp.done && lp'.batch == lp.batch
    && (Mentions(lp'.pending, c) ==> Mentions(lp.pending, c))
  }

  /** Nothing that concerns the connection changes. */
  ghost predicate Spares(w: World, w': World, c: ConnId)
  {
    && c in w.conns && c in w'.conns && S.SameView(w, w', c)
    && (c in w'.held ==> c in w.held) && w'.loops.Keys == w.loops.Keys
    && forall l :: l in w.loops ==> LoopSpares(w.loops[l], w'.loops[l], c)
  }

  predicate IsDown(w: World, c: ConnId) { c in w.conns && w.conns[c].state.Disconnected? }

  lemma SparesTransitive(w: World, w1: World, w2: World, c: ConnId)
    requires Spares(w, w1, c) && Spares(w1, w2, c)
    ensures Spares(w, w2, c)
  {
    forall l | l in w.loops ensures LoopSpares(w.loops[l], w2.loops[l], c) {
      assert LoopSpares(w.loops[l], w1.loops[l], c) && LoopSpares(w1.loops[l], w2.loops[l], c);
    }
  }

  lemma SparesReflexive(w: World, c: ConnId)
    requires c in w.conns
    ensures Spares(w, w, c)
  {
  }

  lemma SparesKeepsDown(w: World, w': World, c: ConnId)
    requires Spares(w, w', c) && IsDown(w, c)
    ensures IsDown(w', c)
  {
  }

  lemma ConnSpares(w: World, d: ConnId, conn: Conn, c: ConnId)
    requires c in w.conns && d != c
    ensures Spares(w, WithConn(w, d, conn), c)
  {
  }

  /** A poller that changes another channel. */
  lemma RegSpares(w: World, l: LoopId, reg: P.Registry<ConnId>, d: ConnId, c: ConnId)
    requires c in w.conns && d != c && l in w.loops && P.SameOthers(w.loops[l].reg, reg, d)
    ensures Spares(w, WithLoop(w, l, w.loops[l].(reg := reg)), c)
  {
    assert c in reg.chans <==> c in w.loops[l].reg.chans;
  }

  lemma InterestSpares(w: World, d: ConnId, events: P.Mask, c: ConnId)
    requires c in w.conns && d != c && Live(w, d) && SetInterest(w, d, events).Fine?
    ensures Spares(w, SetInterest(w, d, events).value, c) && SetInterest(w, d, events).value.conns == w.conns
  {
    hide P.SetEvents, Spares;
    var l := w.conns[d].loop;
    SetEventsOthers(w.loops[l].reg, d, events);
    RegSpares(w, l, P.SetEvents(w.loops[l].reg, d, events).value, d, c);
  }

  lemma SetEventsOthers(r: P.Registry<ConnId>, d: ConnId, events: P.Mask)
    requires d in r.chans && P.SetEvents(r, d, events).Fine?
    ensures P.SameOthers(r, P.SetEvents(r, d, events).value, d)
  {
  }

  lemma DetachOthers(r: P.Registry<ConnId>, d: ConnId)
    requires d in r.chans && P.Detach(r, d).Fine?
    ensures P.SameOthers(r, P.Detach(r, d).value, d)
  {
  }

  lemma QueueSpares(w: World, l: LoopId, f: Functor, c: ConnId)
    requires c in w.conns && f.c != c && QueueInLoop(w, l, f).Fine?
    ensures Spares(w, QueueInLoop(w, l, f).value, c)
  {
    var pending := w.loops[l].pending;
    if Mentions(pending + [f], c) {
      var k :| 0 <= k < |pending + [f]| && (pending + [f])[k].c == c;
      assert pending[k].c == c;
    }
  }

  // ----- user code, and handlers of another connection -----

  lemma ActSpares(w: World, l: LoopId, act: Act, c: ConnId)
    requires IsDown(w, c) && UserAct(w, l, act).Fine?
    ensures Spares(w, UserAct(w, l, act).value, c)
  {
    hide Spares, SetInterest, QueueInLoop;
    if !Live(w, act.d) || w.conns[act.d].loop != l || !w.conns[act.d].state.Connected? {
      SparesReflexive(w, c);
    } else {
      match act
      case SendLeavesBacklog(d) => InterestSpares(w, d, ChanOf(w, d).events.Or(P.WRITE_EVENT), c);
      case SendCompletes(d) => QueueSpares(w, l, WriteComplete(d), c);
      case Shutdown(d) => ConnSpares(w, d, w.conns[d].(state := C.Disconnecting), c);
    }
  }

  lemma {:induction false} ActsSpare(w: World, l: LoopId, acts: seq<Act>, c: ConnId)
    requires IsDown(w, c) && UserActs(w, l, acts).Fine?
    ensures Spares(w, UserActs(w, l, acts).value, c)
    decreases |acts|
  {
    hide Spares, UserAct, IsDown;
    if acts == [] {
      assert c in w.conns by { DownIsKnown(w, c); }
      SparesReflexive(w, c);
    } else {
      var w1 := UserAct(w, l, acts[0]).value;
      ActSpares(w, l, acts[0], c);
      SparesKeepsDown(w, w1, c);
      ActsSpare(w1, l, acts[1..], c);
      SparesTransitive(w, w1, UserActs(w, l, acts).value, c);
    }
  }

  lemma DownIsKnown(w: World, c: ConnId)
    requires IsDown(w, c)
    ensures c in w.conns
  {
  }

  /** A change that spares the connection, and then user code. */
  lemma ThenActsSpare(w: World, w1: World, l: LoopId, acts: seq<Act>, c: ConnId)
    requires IsDown(w, c) && Spares(w, w1, c) && UserActs(w1, l, acts).Fine?
    ensures Spares(w, UserActs(w1, l, acts).value, c) && IsDown(w1, c) && IsDown(UserActs(w1, l, acts).value, c)
  {
    hide Spares, UserActs;
    SparesKeepsDown(w, w1, c);
    ActsSpare(w1, l, acts, c);
    SparesKeepsDown(w1, UserActs(w1, l, acts).value, c);
    SparesTransitive(w, w1, UserActs(w1, l, acts).value, c);
  }

  /** State, interest and callbacks of another connection change. */
  lemma RestateSpares(w: World, d: ConnId, state: C.State, events: P.Mask, cb: C.Callback, c: ConnId)
    requires c in w.conns && d != c && Live(w, d) && SetInterest(SetState(w, d, state), d, events).Fine?
    ensures d in SetInterest(SetState(w, d, state), d, events).value.conns
    ensures Spares(w, Note(SetInterest(SetState(w, d, state), d, events).value, d, cb), c)
  {
    hide Spares, SetInterest;
    var w1 := SetState(w, d, state);
    ConnSpares(w, d, w1.conns[d], c);
    InterestSpares(w1, d, events, c);
    var w2 := SetInterest(w1, d, events).value;
    ConnSpares(w2, d, Note(w2, d, cb).conns[d], c);
    SparesTransitive(w, w1, w2, c);
    SparesTransitive(w, w2, Note(w2, d, cb), c);
  }

  lemma EstablishedSpares(w: World, l: LoopId, d: ConnId, acts: seq<Act>, c: ConnId)
    requires IsDown(w, c) && d != c && ConnectEstablished(w, l, d, acts).Fine?
    ensures Spares(w, ConnectEstablished(w, l, d, acts).value, c)
  {
    hide Spares, SetInterest, UserActs;
    var events := ChanOf(w, d).events.Or(P.READ_EVENT);
    RestateSpares(w, d, C.Connected, events, C.Up, c);
    ThenActsSpare(w, Note(SetInterest(SetState(w, d, C.Connected), d, events).value, d, C.Up), l, acts, c);
  }

  lemma LeaveSpares(w: World, l: LoopId, d: ConnId, c: ConnId)
    requires c in w.conns && d != c && RemoveFromLoop(w, l, d).Fine?
    ensures Spares(w, RemoveFromLoop(w, l, d).value, c)
  {
    hide P.Detach;
    DetachOthers(w.loops[l].reg, d);
    RegSpares(w, l, P.Detach(w.loops[l].reg, d).value, d, c);
  }

  lemma DestroyedSpares(w: World, l: LoopId, d: ConnId, acts: seq<Act>, c: ConnId)
    requires IsDown(w, c) && d != c && ConnectDestroyed(w, l, d, acts).Fine?
    ensures Spares(w, ConnectDestroyed(w, l, d, acts).value, c)
  {
    hide Spares, SetInterest, RemoveFromLoop, UserActs;
    if w.conns[d].state.Connected? {
      RestateSpares(w, d, C.Disconnected, P.NO_EVENT, C.Down, c);
      var w1 := Note(SetInterest(SetState(w, d, C.Disconnected), d, P.NO_EVENT).value, d, C.Down);
      ThenActsSpare(w, w1, l, acts, c);
      var w2 := UserActs(w1, l, acts).value;
      LeaveSpares(w2, l, d, c);
      SparesTransitive(w, w2, RemoveFromLoop(w2, l, d).value, c);
    } else {
      LeaveSpares(w, l, d, c);
    }
  }

  /** Taking another connection out of the server's map. */
  lemma EraseSpares(w: World, d: ConnId, c: ConnId)
    requires c in w.conns && d in w.conns && d != c && S.InMap(w, d)
    ensures Spares(w, w.(connections := w.connections - {w.conns[d].fd}), c)
  {
  }

  lemma RemoveInLoopSpares(w: World, l: LoopId, d: ConnId, c: ConnId)
    requires c in w.conns && d != c && RemoveConnectionInLoop(w, l, d).Fine?
    ensures Spares(w, RemoveConnectionInLoop(w, l, d).value, c)
  {
    hide Spares;
    var w1 := w.(connections := w.connections - {w.conns[d].fd});
    EraseSpares(w, d, c);
    QueueSpares(w1, w.conns[d].loop, Destroy(d), c);
    SparesTransitive(w, w1, RemoveConnectionInLoop(w, l, d).value, c);
  }

  lemma EndCloseSpares(w: World, l: LoopId, d: ConnId, c: ConnId)
    requires c in w.conns && d != c && EndClose(w, l, d).Fine?
    ensures Spares(w, EndClose(w, l, d).value, c)
  {
    hide Spares, RemoveConnectionInLoop, QueueInLoop;
    var w1 := Note(w, d, C.Close);
    ConnSpares(w, d, w1.conns[d], c);
    if l == w.base {
      RemoveInLoopSpares(w1, l, d, c);
    } else {
      QueueSpares(w1, w.base, Remove(d), c);
    }
    SparesTransitive(w, w1, RemoveConnection(w1, l, d).value, c);
  }

  lemma CloseSpares(w: World, l: LoopId, d: ConnId, acts: seq<Act>, c: ConnId)
    requires IsDown(w, c) && d != c && HandleClose(w, l, d, acts).Fine?
    ensures Spares(w, HandleClose(w, l, d, acts).value, c)
  {
    hide Spares, SetInterest, EndClose, UserActs;
    RestateSpares(w, d, C.Disconnected, P.NO_EVENT, C.Down, c);
    var w1 := BeginClose(w, l, d).value;
    ThenActsSpare(w, w1, l, acts, c);
    var w2 := UserActs(w1, l, acts).value;
    EndCloseSpares(w2, l, d, c);
    SparesTransitive(w, w2, EndClose(w2, l, d).value, c);
  }

  lemma ReadSpares(w: World, l: LoopId, d: ConnId, env: Env, c: ConnId)
    requires IsDown(w, c) && d != c && HandleRead(w, l, d, env).Fine?
    ensures Spares(w, HandleRead(w, l, d, env).value, c)
  {
    hide Spares, HandleClose, UserActs;
    match env.read
    case Data =>
      ConnSpares(w, d, Note(w, d, C.Message).conns[d], c);
      ThenActsSpare(w, Note(w, d, C.Message), l, env.acts, c);
    case EndOfStream => CloseSpares(w, l, d, env.acts, c);
    case ReadError => SparesReflexive(w, c);
  }

  lemma WriteSpares(w: World, l: LoopId, d: ConnId, env: Env, c: ConnId)
    requires c in w.conns && d != c && HandleWrite(w, l, d, env).Fine?
    ensures Spares(w, HandleWrite(w, l, d, env).value, c)
  {
    hide Spares, SetInterest, QueueInLoop;
    SparesReflexive(w, c);
    var events := ChanOf(w, d).events;
    if events.Has(P.WRITE_EVENT) && env.drains {
      InterestSpares(w, d, events.Without(P.WRITE_EVENT), c);
      var w1 := SetInterest(w, d, events.Without(P.WRITE_EVENT)).value;
      if env.wantsComplete {
        QueueSpares(w1, l, WriteComplete(d), c);
        SparesTransitive(w, w1, QueueInLoop(w1, l, WriteComplete(d)).value, c);
      }
    }
  }

  lemma EventSpares(w: World, l: LoopId, d: ConnId, mask: P.Mask, env: Env, c: ConnId)
    requires IsDown(w, c) && d != c && HandleEvent(w, l, d, mask, env).Fine?
    ensures Spares(w, HandleEvent(w, l, d, mask, env).value, c)
  {
    hide Spares, HandleClose, HandleRead, HandleWrite, P.Mask.Has;
    SparesReflexive(w, c);
    var w1, w2 := w, w;
    if mask.Has(P.EPOLLHUP) && !mask.Has(P.EPOLLIN) {
      CloseSpares(w, l, d, env.acts, c);
      w1 := HandleClose(w, l, d, env.acts).value;
      SparesKeepsDown(w, w1, c);
    }
    w2 := w1;
    if C.ReadsNow(mask) {
      ReadSpares(w1, l, d, env, c);
      w2 := HandleRead(w1, l, d, env).value;
      SparesKeepsDown(w1, w2, c);
      SparesTransitive(w, w1, w2, c);
    }
    if mask.Has(P.EPOLLOUT) {
      WriteSpares(w2, l, d, env, c);
      SparesTransitive(w, w2, HandleWrite(w2, l, d, env).value, c);
    }
  }

  lemma CallSpares(w: World, l: LoopId, f: Functor, acts: seq<Act>, c: ConnId)
    requires IsDown(w, c) && (f.c != c || f.WriteComplete?) && CallFunctor(w, l, f, acts).Fine?
    ensures Spares(w, CallFunctor(w, l, f, acts).value, c)
  {
    hide Spares, ConnectEstablished, RemoveConnectionInLoop, ConnectDestroyed, UserActs;
    match f
    case Establish(d) => EstablishedSpares(w, l, d, acts, c);
    case Remove(d) => RemoveInLoopSpares(w, l, d, c);
    case Destroy(d) => DestroyedSpares(w, l, d, acts, c);
    case WriteComplete(d) => ActsSpare(w, l, acts, c);
  }

  lemma ConstructSpares(w: World, fd: int, io: LoopId, d: ConnId, c: ConnId)
    requires S.Structure(w) && io in w.loops && d !in w.conns && fd !in w.open && c in w.conns
    ensures Spares(w, Construct(w, fd, io, d), c)
  {
    hide S.RegsAgree, S.FdsOwned, S.MapAgrees, S.AllRefine, S.SameView;
    S.ConstructView(w, fd, io, d, c);
  }

  lemma AcceptSpares(w: World, fd: int, io: LoopId, d: ConnId, acts: seq<Act>, c: ConnId)
    requires S.Structure(w) && io in w.loops && d !in w.conns && fd !in w.open && IsDown(w, c)
    requires NewConnection(w, w.base, fd, io, d, acts).Fine?
    ensures Spares(w, NewConnection(w, w.base, fd, io, d, acts).value, c)
  {
    hide S.Structure, Spares, ConnectEstablished, QueueInLoop;
    var w1 := Construct(w, fd, io, d);
    ConstructSpares(w, fd, io, d, c);
    SparesKeepsDown(w, w1, c);
    if io == w.base {
      EstablishedSpares(w1, io, d, acts, c);
      SparesTransitive(w, w1, ConnectEstablished(w1, io, d, acts).value, c);
    } else {
      QueueSpares(w1, io, Establish(d), c);
      SparesTransitive(w, w1, QueueInLoop(w1, io, Establish(d)).value, c);
    }
  }

  lemma OutsideSpares(w: World, w': World, c: ConnId)
    requires c in w.conns && w' == w.(held := w'.held, open := w'.open) && (c in w'.held ==> c in w.held)
    ensures Spares(w, w', c)
  {
  }

  // ----- how far a removal has come -----

  ghost predicate Down(w: World, c: ConnId)
  {
    Live(w, c) && w.conns[c].state.Disconnected? && c !in w.held
  }

  /** Still in the server's map, still in its poller, or only referenced by functors. */
  function Stage(w: World, c: ConnId): nat
    requires Live(w, c)
  {
    if S.InMap(w, c) then 2 else if !ChanOf(w, c).index.New? then 1 else 0
  }

  /** Whether the connection's functors wait for another round; how many phases and calls this round still has. */
  ghost function Rounds(lp: Loop, c: ConnId): nat { if Mentions(lp.pending, c) then 1 else 0 }

  function Phases(lp: Loop): nat { match lp.phase case Calling => 2 case Polling => 1 case Dispatching => 0 }

  function Calls(lp: Loop): nat
  {
    if lp.phase.Calling? then |lp.batch| else if lp.next <= |lp.active| then |lp.active| - lp.next else 0
  }

  /** Fewer rounds, then phases, then calls until the loop has dropped the connection. */
  ghost predicate Nearer(lp: Loop, lp': Loop, c: ConnId)
  {
    || Rounds(lp', c) < Rounds(lp, c)
    || (Rounds(lp', c) == Rounds(lp, c) && Phases(lp') < Phases(lp))
    || (Rounds(lp', c) == Rounds(lp, c) && Phases(lp') == Phases(lp) && Calls(lp') < Calls(lp))
  }

  ghost predicate NoFarther(lp: Loop, lp': Loop, c: ConnId)
  {
    Nearer(lp, lp', c) || (Rounds(lp', c) == Rounds(lp, c) && Phases(lp') == Phases(lp) && Calls(lp') == Calls(lp))
  }

  /** A loop takes up no functor of the connection, and gets no farther from dropping those it has; the mover nearer. */
  ghost predicate LoopAdvances(lp: Loop, lp': Loop, moves: bool, c: ConnId)
  {
    Queued(lp', c) ==> Queued(lp, c) && if moves then Nearer(lp, lp', c) else NoFarther(lp, lp', c)
  }

  /** What a step does for a connection that is down: its removal enters the next stage, or all loops advance in this one. */
  ghost predicate Advances(w: World, w': World, mover: Mover, c: ConnId)
    requires Down(w, c)
  {
    && w'.loops.Keys == w.loops.Keys && Down(w', c) && w'.conns[c] == w.conns[c]
    && (Stage(w', c) < Stage(w, c)
        || (Stage(w', c) == Stage(w, c)
            && forall k :: k in w.loops ==> LoopAdvances(w.loops[k], w'.loops[k], mover == Loops(k), c)))
  }

  lemma SparesAdvances(w: World, w1: World, w2: World, mover: Mover, c: ConnId)
    requires Down(w, c) && Advances(w, w1, mover, c) && Spares(w1, w2, c)
    ensures Advances(w, w2, mover, c)
  {
    hide Queued, Mentions, Nearer;
    forall k | k in w.loops && LoopAdvances(w.loops[k], w1.loops[k], mover == Loops(k), c)
      ensures LoopAdvances(w.loops[k], w2.loops[k], mover == Loops(k), c)
    {
      assert LoopSpares(w1.loops[k], w2.loops[k], c);
      LoopSparesAdvances(w.loops[k], w1.loops[k], w2.loops[k], mover == Loops(k), c);
    }
  }

  lemma LoopSparesAdvances(lp: Loop, lp1: Loop, lp2: Loop, moves: bool, c: ConnId)
    requires LoopAdvances(lp, lp1, moves, c) && LoopSpares(lp1, lp2, c)
    ensures LoopAdvances(lp, lp2, moves, c)
  {
  }

  lemma StaysAdvances(w: World, mover: Mover, c: ConnId)
    requires Down(w, c) && mover == Others
    ensures Advances(w, w, mover, c)
  {
  }

  // ----- a loop's own move -----

  /** The loop's own move, before its handler runs; `ready` is what a poll reports. */
  function Onward(lp: Loop, ready: seq<Ready>): Loop
  {
    match lp.phase
    case Polling => lp.(phase := Dispatching, active := ready, next := 0)
    case Dispatching =>
      if lp.next < |lp.active| then lp.(next := lp.next + 1)
      else lp.(phase := Calling, active := [], next := 0, batch := lp.pending, pending := [])
    case Calling =>
      if lp.batch != [] then lp.(batch := lp.batch[1..], done := lp.done + [lp.batch[0]])
      else lp.(phase := Polling, done := [])
  }

  lemma PopMentions(lp: Loop, c: ConnId)
    requires lp.batch != []
    ensures Queued(lp.(batch := lp.batch[1..], done := lp.done + [lp.batch[0]]), c) ==> Queued(lp, c)
  {
    var batch, done := lp.batch[1..], lp.done + [lp.batch[0]];
    if Mentions(batch, c) {
      var k :| 0 <= k < |batch| && batch[k].c == c;
      assert lp.batch[k + 1].c == c;
    } else if Mentions(done, c) {
      var k :| 0 <= k < |done| && done[k].c == c;
      assert if k < |lp.done| then lp.done[k].c == c else lp.batch[0].c == c;
    }
  }

  lemma OnwardAdvances(lp: Loop, ready: seq<Ready>, c: ConnId)
    requires !lp.phase.Calling? ==> lp.batch == [] && lp.done == []
    ensures LoopAdvances(lp, Onward(lp, ready), true, c) && Onward(lp, ready).reg == lp.reg
  {
    if lp.phase.Calling? && lp.batch != [] {
      PopMentions(lp, c);
    }
  }

  lemma MoveAdvances(w: World, l: LoopId, ready: seq<Ready>, c: ConnId)
    requires S.Inv(w, S.Nothing) && l in w.loops && Down(w, c)
    ensures var w' := WithLoop(w, l, Onward(w.loops[l], ready));
      Advances(w, w', Loops(l), c) && IsDown(w', c) && Stage(w', c) == Stage(w, c)
  {
    hide S.Structure, S.Stages, S.Queues, Onward, LoopAdvances;
    var w' := WithLoop(w, l, Onward(w.loops[l], ready));
    S.LoopFacts(w, S.Nothing, l);
    OnwardAdvances(w.loops[l], ready, c);
    S.MovesView(w, w', l);
    assert S.SameView(w, w', c);
    forall k | k in w.loops ensures LoopAdvances(w.loops[k], w'.loops[k], Loops(l) == Loops(k), c) {
      if k != l {
        IdleAdvances(w.loops[k], c);
      }
    }
  }

  lemma IdleAdvances(lp: Loop, c: ConnId)
    ensures LoopAdvances(lp, lp, false, c)
  {
  }

  // ----- the connection's own removal and destruction -----

  /** The removal enters its next stage. */
  ghost predicate StageFalls(w: World, w': World, c: ConnId)
    requires Down(w, c)
  {
    w'.loops.Keys == w.loops.Keys && Down(w', c) && w'.conns[c] == w.conns[c] && Stage(w', c) < Stage(w, c)
  }

  lemma RemoveFalls(w: World, l: LoopId, c: ConnId)
    requires Down(w, c) && S.InMap(w, c) && RemoveConnectionInLoop(w, l, c).Fine?
    ensures StageFalls(w, RemoveConnectionInLoop(w, l, c).value, c)
  {
  }

  lemma DestroyFalls(w: World, l: LoopId, c: ConnId, acts: seq<Act>)
    requires Down(w, c) && !S.InMap(w, c) && !ChanOf(w, c).index.New? && ConnectDestroyed(w, l, c, acts).Fine?
    requires S.Structure(w) && ChanOf(w, c).events == P.NO_EVENT && !w.loops[w.conns[c].loop].phase.Dispatching?
    ensures StageFalls(w, ConnectDestroyed(w, l, c, acts).value, c)
  {
    hide S.Structure, RemoveFromLoop, S.SameRegs, S.AllRefine, UserActs;
    S.DetachTouches(w, c);
  }

  lemma OwnCallFalls(w: World, l: LoopId, c: ConnId, acts: seq<Act>)
    requires S.Inv(w, S.Nothing) && l in w.loops && w.loops[l].phase.Calling? && w.loops[l].batch != []
    requires Down(w, c) && w.loops[l].batch[0].c == c && !w.loops[l].batch[0].WriteComplete?
    ensures var r := CallFunctor(S.Popped(w, l), l, w.loops[l].batch[0], acts); r.Fine? && StageFalls(w, r.value, c)
  {
    hide S.Structure, S.Stages, S.Queues, S.Refs, S.Actives, RemoveConnectionInLoop, ConnectDestroyed, ConnectEstablished;
    var f, w1 := w.loops[l].batch[0], S.Popped(w, l);
    S.PopHome(w, l);
    S.PopInv(w, l);
    S.CallNextInv(w, l, acts);
    S.OwedIsDue(w1, S.Owes(f), f);
    assert S.SameView(w, w1, c) && Down(w1, c) && Stage(w1, c) == Stage(w, c);
    match f
    case Remove(_) => RemoveFalls(w1, l, c);
    case Destroy(_) => DestroyFalls(w1, l, c, acts);
  }

  // ----- every step -----

  lemma DownIs(w: World, c: ConnId)
    requires Down(w, c)
    ensures IsDown(w, c) && w.conns[c].alive && c !in w.held
  {
  }

  lemma ActiveIsAnother(w: World, l: LoopId, c: ConnId)
    requires S.Inv(w, S.Nothing) && l in w.loops && w.loops[l].next < |w.loops[l].active| && Down(w, c)
    ensures w.loops[l].active[w.loops[l].next].c != c
  {
    hide S.Structure, S.Stages, S.Queues, S.Refs;
    assert S.LoopOk(w, l);
  }

  lemma MoverAdvances(w: World, step: Step, c: ConnId)
    requires S.Inv(w, S.Nothing) && Down(w, c) && Enabled(w, step) && MoverOf(step).Loops?
    ensures var r := Perform(w, step); r.Fine? && Advances(w, r.value, MoverOf(step), c)
  {
    hide S.Inv, Advances, HandleEvent, CallFunctor, NewConnection, InPollerMap, Reportable, Down, Stage, Spares, StageFalls;
    S.PerformInv(w, step);
    var l := MoverOf(step).l;
    var lp := w.loops[l];
    var ready := if step.PollReturns? then step.ready else [];
    var w1 := WithLoop(w, l, Onward(lp, ready));
    MoveAdvances(w, l, ready, c);
    match step
    case HandleNext(_, env) =>
      var d, mask := lp.active[lp.next].c, lp.active[lp.next].mask;
      ActiveIsAnother(w, l, c);
      EventSpares(w1, l, d, mask, env, c);
      SparesAdvances(w, w1, HandleEvent(w1, l, d, mask, env).value, Loops(l), c);
    case CallNext(_, acts) =>
      var f := lp.batch[0];
      if f.c == c && !f.WriteComplete? {
        OwnCallFalls(w, l, c, acts);
        FallsAdvances(w, CallFunctor(w1, l, f, acts).value, Loops(l), c);
      } else {
        CallSpares(w1, l, f, acts, c);
        SparesAdvances(w, w1, CallFunctor(w1, l, f, acts).value, Loops(l), c);
      }
    case _ =>
  }

  lemma FallsAdvances(w: World, w': World, mover: Mover, c: ConnId)
    requires Down(w, c) && StageFalls(w, w', c)
    ensures Advances(w, w', mover, c)
  {
  }

  lemma OthersAdvance(w: World, step: Step, c: ConnId)
    requires S.Inv(w, S.Nothing) && Down(w, c) && Enabled(w, step) && MoverOf(step).Others? && step != Hold(c)
    ensures var r := Perform(w, step); r.Fine? && Advances(w, r.value, Others, c)
  {
    hide S.Inv, Advances, HandleEvent, CallFunctor, NewConnection, Down, Stage, Spares;
    S.PerformInv(w, step);
    DownIs(w, c);
    StaysAdvances(w, Others, c);
    var w' := Perform(w, step).value;
    match step
    case Accept(fd, io, d, acts) =>
      S.InvStructure(w, S.Nothing);
      AcceptSpares(w, fd, io, d, acts, c);
      SparesAdvances(w, w, w', Others, c);
    case _ =>
      OutsideSpares(w, w', c);
      SparesAdvances(w, w, w', Others, c);
  }

  // ----- the end of objects after a step -----

  ghost predicate NoneExpires(w: World)
  {
    forall c :: !Expires(w, c)
  }

  /** The end of objects leaves no object without a reference. */
  lemma ReapLeavesNone(m: World)
    requires Reap(m).Fine?
    ensures NoneExpires(Reap(m).value)
  {
    hide MayEnd;
    var w' := Reap(m).value;
    forall c | c in w'.conns && w'.conns[c].alive ensures Referenced(w', c) {
      assert Referenced(m, c);
      if l :| l in m.loops && Queued(m.loops[l], c) {
        assert Queued(w'.loops[l], c);
      }
    }
  }

  lemma {:induction false} RunLeavesNone(w: World, steps: seq<Step>)
    requires Run(w, steps).Fine? && NoneExpires(w)
    ensures NoneExpires(Run(w, steps).value)
    decreases |steps|
  {
    hide Enabled, Perform, Reap, NoneExpires;
    if steps == [] {
    } else if !Enabled(w, steps[0]) {
      RunLeavesNone(w, steps[1..]);
    } else {
      ReapLeavesNone(Perform(w, steps[0]).value);
      RunLeavesNone(Next(w, steps[0]).value, steps[1..]);
    }
  }

  /** An object either ends with its descriptor closed, or nothing about it changes. */
  lemma ReapEndsOrSpares(m: World, c: ConnId)
    requires Reap(m).Fine? && c in m.conns && m.conns[c].alive
    ensures var w' := Reap(m).value;
      && c in w'.conns && w'.conns[c].fd == m.conns[c].fd
      && if w'.conns[c].alive then Spares(m, w', c) else m.conns[c].fd !in w'.open
  {
    hide MayEnd, Referenced;
    var dead := set d | d in m.conns && Expires(m, d);
    assert Reap(m).value == S.Reaped(m, dead);
    if c !in dead {
      S.ReapView(m, dead, c);
    }
  }

  ghost predicate EndsOrAdvances(w: World, w': World, mover: Mover, c: ConnId)
    requires Down(w, c)
  {
    && c in w'.conns && w'.conns[c].fd == w.conns[c].fd
    && if w'.conns[c].alive then Advances(w, w', mover, c) else w.conns[c].fd !in w'.open
  }

  /**
   * No step but taking a new pointer to the connection postpones its removal: the object ends with its descriptor
   * closed, or the removal enters its next stage, or no loop gets farther from dropping it and the one that moves comes
   * nearer.
   */
  lemma EveryStepAdvances(w: World, step: Step, c: ConnId)
    requires S.Inv(w, S.Nothing) && Down(w, c) && Enabled(w, step) && step != Hold(c)
    ensures Next(w, step).Fine?
    ensures var w' := Next(w, step).value;
      S.Inv(w', S.Nothing) && NoneExpires(w') && EndsOrAdvances(w, w', MoverOf(step), c)
  {
    hide S.Inv, Perform, Reap, Spares, NoneExpires, MoverOf;
    S.NextInv(w, step);
    if MoverOf(step).Loops? {
      MoverAdvances(w, step, c);
    } else {
      OthersAdvance(w, step, c);
    }
    var m := Perform(w, step).value;
    ReapLeavesNone(m);
    ReapEndsOrSpares(m, c);
    if Reap(m).value.conns[c].alive {
      SparesAdvances(w, m, Reap(m).value, MoverOf(step), c);
    }
  }

  // ----- until it is gone -----

  /** The loops that still have functors of the connection. */
  ghost function Mentioning(w: World, c: ConnId): set<LoopId>
  {
    set l | l in w.loops && Queued(w.loops[l], c)
  }

  /** While the connection lives, some loop has a functor of it: its removal, its destruction, or one already called. */
  lemma MentionedSomewhere(w: World, c: ConnId) returns (l: LoopId)
    requires S.Inv(w, S.Nothing) && NoneExpires(w) && Down(w, c)
    ensures l in w.loops && Queued(w.loops[l], c)
  {
    hide S.Stages, S.Refs, S.Actives, S.RegsAgree, S.FdsOwned, S.AllRefine, Queued;
    if S.InMap(w, c) {
      l := w.base;
      assert S.QueueOk(w, S.Nothing, l, Remove(c));
      S.DueIsQueued(w.loops[l], Remove(c));
    } else if !ChanOf(w, c).index.New? {
      l := w.conns[c].loop;
      assert S.QueueOk(w, S.Nothing, l, Destroy(c));
      S.DueIsQueued(w.loops[l], Destroy(c));
    } else {
      assert !Expires(w, c) && Referenced(w, c);
      l :| l in w.loops && Queued(w.loops[l], c);
    }
  }

  /** The removal has come farther: the object has ended, a stage has passed, or a loop has dropped the connection. */
  ghost predicate EndsOrShrinks(w: World, w': World, c: ConnId)
    requires Down(w, c)
  {
    && S.Inv(w', S.Nothing) && NoneExpires(w')
    && c in w'.conns && w'.conns[c].fd == w.conns[c].fd
    && if !w'.conns[c].alive then w.conns[c].fd !in w'.open
       else
         && Down(w', c)
         && (Stage(w', c) < Stage(w, c) || (Stage(w', c) == Stage(w, c) && Mentioning(w', c) < Mentioning(w, c)))
  }

  /** The removal is where it was, with loop l still on its way. */
  ghost predicate OnItsWay(w: World, w': World, moves: bool, l: LoopId, c: ConnId)
    requires Down(w, c) && l in w.loops
  {
    && Down(w', c) && w'.conns[c].fd == w.conns[c].fd && Stage(w', c) == Stage(w, c)
    && l in Mentioning(w', c) && Mentioning(w', c) <= Mentioning(w, c)
    && if moves then Nearer(w.loops[l], w'.loops[l], c) else NoFarther(w.loops[l], w'.loops[l], c)
  }

  /** One step, seen from a loop that has functors of the connection. */
  lemma StepDropsOrApproaches(w: World, step: Step, l: LoopId, c: ConnId)
    requires S.Inv(w, S.Nothing) && Down(w, c) && l in Mentioning(w, c) && Enabled(w, step) && step != Hold(c)
    ensures Next(w, step).Fine?
    ensures var w' := Next(w, step).value;
      && S.Inv(w', S.Nothing) && NoneExpires(w')
      && (EndsOrShrinks(w, w', c) || OnItsWay(w, w', MoverOf(step) == Loops(l), l, c))
  {
    hide S.Inv, Enabled, Next, MoverOf, Queued, Stage, Nearer, NoFarther, NoneExpires;
    EveryStepAdvances(w, step, c);
    var w' := Next(w, step).value;
    if w'.conns[c].alive && Stage(w', c) == Stage(w, c) {
      assert LoopAdvances(w.loops[l], w'.loops[l], MoverOf(step) == Loops(l), c);
      assert Mentioning(w', c) <= Mentioning(w, c);
    }
  }

  lemma WayAndShrinks(w: World, w1: World, w2: World, moves: bool, l: LoopId, c: ConnId)
    requires Down(w, c) && l in w.loops && OnItsWay(w, w1, moves, l, c) && EndsOrShrinks(w1, w2, c)
    ensures EndsOrShrinks(w, w2, c)
  {
    hide S.Inv, Mentioning, Nearer, NoFarther, NoneExpires;
  }

  lemma FewerLoops(a: set<LoopId>, b: set<LoopId>)
    requires a < b
    ensures |a| < |b|
  {
    var x :| x in b && x !in a;
    assert a <= b - {x};
    SubsetSize(a, b - {x});
  }

  lemma {:induction false} SubsetSize(a: set<LoopId>, b: set<LoopId>)
    requires a <= b
    ensures |a| <= |b|
  {
    if a != {} {
      var x :| x in a;
      SubsetSize(a - {x}, b - {x});
    }
  }

  // ----- every fair run -----

  /** An endless run: each step is taken if it is enabled when its turn comes. */
  ghost predicate StepAt(worlds: nat -> World, sched: nat -> Step, n: nat)
  {
    if Enabled(worlds(n), sched(n)) then Next(worlds(n), sched(n)) == Fine(worlds(n + 1)) else worlds(n + 1) == worlds(n)
  }

  ghost predicate EndlessRun(worlds: nat -> World, sched: nat -> Step)
  {
    forall n: nat :: StepAt(worlds, sched, n)
  }

  ghost predicate MovesAt(worlds: nat -> World, sched: nat -> Step, l: LoopId, n: nat)
  {
    Enabled(worlds(n), sched(n)) && MoverOf(sched(n)) == Loops(l)
  }

  /** From any time on, a loop moves again. */
  ghost predicate MovesAfter(worlds: nat -> World, sched: nat -> Step, l: LoopId, n: nat)
  {
    exists m: nat :: n <= m && MovesAt(worlds, sched, l, m)
  }

  ghost predicate Fair(worlds: nat -> World, sched: nat -> Step)
  {
    forall l: LoopId, n: nat :: l in worlds(n).loops ==> MovesAfter(worlds, sched, l, n)
  }

  ghost predicate NeverHeldAgain(sched: nat -> Step, c: ConnId)
  {
    forall n: nat :: sched(n) != Hold(c)
  }

  /** Until the next move of loop l at time `next`, and then again, it only comes nearer to dropping the connection. */
  lemma {:induction false} LoopDrops(worlds: nat -> World, sched: nat -> Step, c: ConnId, l: LoopId, n: nat, next: nat)
    returns (m: nat)
    requires EndlessRun(worlds, sched) && Fair(worlds, sched) && NeverHeldAgain(sched, c)
    requires S.Inv(worlds(n), S.Nothing) && NoneExpires(worlds(n)) && Down(worlds(n), c) && l in Mentioning(worlds(n), c)
    requires n <= next && MovesAt(worlds, sched, l, next)
    ensures n < m && EndsOrShrinks(worlds(n), worlds(m), c)
    decreases Rounds(worlds(n).loops[l], c), Phases(worlds(n).loops[l]), Calls(worlds(n).loops[l]), next - n
  {
    hide S.Inv, Enabled, Next, MoverOf, Queued, Rounds, Phases, Calls, NoneExpires, Down, EndsOrShrinks;
    var w, w1 := worlds(n), worlds(n + 1);
    assert StepAt(worlds, sched, n);
    if !Enabled(w, sched(n)) {
      m := LoopDrops(worlds, sched, c, l, n + 1, next);
      return;
    }
    assert sched(n) != Hold(c);
    var moves := MoverOf(sched(n)) == Loops(l);
    StepDropsOrApproaches(w, sched(n), l, c);
    if EndsOrShrinks(w, w1, c) {
      return n + 1;
    }
    var again: nat := next;
    if moves {
      assert MovesAfter(worlds, sched, l, n + 1);
      again :| n + 1 <= again && MovesAt(worlds, sched, l, again);
    }
    m := LoopDrops(worlds, sched, c, l, n + 1, again);
    WayAndShrinks(w, w1, worlds(m), moves, l, c);
  }

  lemma {:induction false} Ends(worlds: nat -> World, sched: nat -> Step, c: ConnId, n: nat) returns (m: nat)
    requires EndlessRun(worlds, sched) && Fair(worlds, sched) && NeverHeldAgain(sched, c)
    requires S.Inv(worlds(n), S.Nothing) && NoneExpires(worlds(n)) && Down(worlds(n), c)
    ensures n < m && c in worlds(m).conns && !worlds(m).conns[c].alive && worlds(n).conns[c].fd !in worlds(m).open
    decreases Stage(worlds(n), c), |Mentioning(worlds(n), c)|
  {
    hide S.Inv, Stage, NoneExpires, EndlessRun, MovesAt;
    var l := MentionedSomewhere(worlds(n), c);
    assert MovesAfter(worlds, sched, l, n);
    var next: nat :| n <= next && MovesAt(worlds, sched, l, next);
    m := LoopDrops(worlds, sched, c, l, n, next);
    if worlds(m).conns[c].alive {
      if Stage(worlds(m), c) == Stage(worlds(n), c) {
        FewerLoops(Mentioning(worlds(m), c), Mentioning(worlds(n), c));
      }
      m := Ends(worlds, sched, c, m);
    }
  }

  /**
   * No descriptor leaks: in every endless run in which each loop keeps going (a wait ends after ten seconds at the
   * latest), whatever else every thread, every user and every peer does, a connection that is down and that user code
   * neither holds nor takes hold of again ends, and its descriptor is closed.
   */
  lemma EveryFairRunCloses(worlds: nat -> World, sched: nat -> Step, c: ConnId) returns (m: nat)
    requires EndlessRun(worlds, sched) && Fair(worlds, sched) && NeverHeldAgain(sched, c)
    requires S.Reachable(worlds(0)) && Down(worlds(0), c)
    ensures 0 < m && c in worlds(m).conns && !worlds(m).conns[c].alive && worlds(0).conns[c].fd !in worlds(m).open
  {
    hide S.Inv, EndlessRun, Fair, NeverHeldAgain, Down;
    S.ReachableInv(worlds(0));
    ReachableNoneExpires(worlds(0));
    m := Ends(worlds, sched, c, 0);
  }

  lemma ReachableNoneExpires(w: World)
    requires S.Reachable(w)
    ensures NoneExpires(w)
  {
    hide Run;
    var w0, before :| Initial(w0) && Run(w0, before) == Fine(w);
    RunLeavesNone(w0, before);
  }

  // ----- turns of the loops alone -----

  const QUIET: Env := Env(ReadError, [], false, false, true)

  /** The next step of a loop's round when no event, no data and no user action comes in. */
  function Turn(w: World, l: LoopId): Step
    requires l in w.loops
  {
    var lp := w.loops[l];
    match lp.phase
    case Polling => PollReturns(l, [])
    case Dispatching => if lp.next < |lp.active| then HandleNext(l, QUIET) else EndDispatch(l)
    case Calling => if lp.batch != [] then CallNext(l, []) else EndBatch(l)
  }

  predicate IsTurn(step: Step)
  {
    match step
    case PollReturns(_, ready) => ready == []
    case HandleNext(_, env) => env == QUIET
    case EndDispatch(_) => true
    case CallNext(_, acts) => acts == []
    case EndBatch(_) => true
    case _ => false
  }

  ghost predicate Turns(steps: seq<Step>)
  {
    forall k :: 0 <= k < |steps| ==> IsTurn(steps[k])
  }

  lemma TurnIsEnabled(w: World, l: LoopId)
    requires l in w.loops
    ensures var turn := Turn(w, l); Enabled(w, turn) && IsTurn(turn) && MoverOf(turn) == Loops(l)
  {
  }

  lemma {:induction false} RunConcat(w: World, a: seq<Step>, b: seq<Step>)
    requires Run(w, a).Fine?
    ensures Run(w, a + b) == Run(Run(w, a).value, b)
    decreases |a|
  {
    hide Enabled, Next;
    if a == [] {
      assert a + b == b;
    } else {
      assert (a + b)[0] == a[0] && (a + b)[1..] == a[1..] + b;
      if Enabled(w, a[0]) {
        RunConcat(Next(w, a[0]).value, a[1..], b);
      } else {
        RunConcat(w, a[1..], b);
      }
    }
  }

  lemma OneStep(w: World, step: Step)
    requires Enabled(w, step) && Next(w, step).Fine?
    ensures Run(w, [step]) == Next(w, step)
  {
    hide Enabled, Next;
    assert [step][1..] == [];
    assert Run(Next(w, step).value, []) == Next(w, step);
  }

  /** A loop that goes on with its rounds drops the connection, unless the removal comes to its next stage first. */
  lemma {:induction false} DriveLoop(w: World, l: LoopId, c: ConnId) returns (steps: seq<Step>, w': World)
    requires S.Inv(w, S.Nothing) && Down(w, c) && l in Mentioning(w, c)
    ensures Run(w, steps) == Fine(w') && Turns(steps) && EndsOrShrinks(w, w', c)
    decreases Rounds(w.loops[l], c), Phases(w.loops[l]), Calls(w.loops[l])
  {
    hide S.Inv, Enabled, Next, Run, Turn, MoverOf, Rounds, Phases, Calls, NoneExpires, Down, EndsOrShrinks;
    var turn := Turn(w, l);
    TurnIsEnabled(w, l);
    assert turn != Hold(c);
    StepDropsOrApproaches(w, turn, l, c);
    OneStep(w, turn);
    var w1 := Next(w, turn).value;
    if EndsOrShrinks(w, w1, c) {
      return [turn], w1;
    }
    var more;
    more, w' := DriveLoop(w1, l, c);
    WayAndShrinks(w, w1, w', true, l, c);
    steps := [turn] + more;
    RunConcat(w, [turn], more);
  }

  lemma {:induction false} Removal(w: World, c: ConnId) returns (steps: seq<Step>, w': World)
    requires S.Inv(w, S.Nothing) && NoneExpires(w) && Down(w, c)
    ensures Run(w, steps) == Fine(w') && Turns(steps)
    ensures c in w'.conns && !w'.conns[c].alive && w.conns[c].fd !in w'.open
    decreases Stage(w, c), |Mentioning(w, c)|
  {
    hide S.Inv, Run, Stage, NoneExpires;
    var l := MentionedSomewhere(w, c);
    steps, w' := DriveLoop(w, l, c);
    if w'.conns[c].alive {
      var w1 := w';
      if Stage(w1, c) == Stage(w, c) {
        FewerLoops(Mentioning(w1, c), Mentioning(w, c));
      }
      var more;
      more, w' := Removal(w1, c);
      RunConcat(w, steps, more);
      steps := steps + more;
    }
  }

  /** From every such state there is a run that closes it, made of turns of the loops alone. */
  lemma RemovalCompletes(w: World, c: ConnId) returns (steps: seq<Step>, w': World)
    requires S.Reachable(w) && Down(w, c)
    ensures Run(w, steps) == Fine(w') && Turns(steps)
    ensures c in w'.conns && !w'.conns[c].alive && w.conns[c].fd !in w'.open
  {
    hide S.Inv, Run, Down;
    S.ReachableInv(w);
    ReachableNoneExpires(w);
    steps, w' := Removal(w, c);
  }
}
