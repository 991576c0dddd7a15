/**
 * `shutdown` from another thread (clia/src/net/tcp_connection.cc:57-62): it tests the state and stores Disconnecting
 * later, and the connection's loop may close the connection in between. The exact condition for the store to do no harm.
 */
module ShutdownRace {
  import opened Checks
  import opened Lifecycle
  import opened LifecycleProgress
  import S = LifecycleSafety
  import C = Connection
  import P = Poller

  /** The world right after the store. */
  function Stored(w: World, c: ConnId): World
    requires c in w.conns
  {
    SetState(w, c, C.Disconnecting)
  }

  // ----- what does not look at the state of a connection that is down -----

  lemma StoredLive(w: World, c: ConnId, d: ConnId)
    requires c in w.conns
    ensures Live(Stored(w, c), d) == Live(w, d) && (Live(w, d) ==> ChanOf(Stored(w, c), d) == ChanOf(w, d))
  {
  }

  lemma StoredConn(w: World, c: ConnId, d: ConnId, conn: Conn)
    requires c in w.conns && d != c
    ensures WithConn(Stored(w, c), d, conn) == Stored(WithConn(w, d, conn), c)
  {
    assert WithConn(Stored(w, c), d, conn).conns == Stored(WithConn(w, d, conn), c).conns;
  }

  /** Another connection changes its state, its interest and its callbacks. */
  lemma StoredRestate(w: World, c: ConnId, d: ConnId, state: C.State, events: P.Mask, cb: C.Callback)
    requires c in w.conns && d != c && Live(w, d) && SetInterest(SetState(w, d, state), d, events).Fine?
    ensures Live(Stored(w, c), d) && Stored(w, c).conns[d] == w.conns[d]
    ensures var r := SetInterest(SetState(w, d, state), d, events);
      var r' := SetInterest(SetState(Stored(w, c), d, state), d, events);
      r'.Fine? && d in r.value.conns && c in r.value.conns && Note(r'.value, d, cb) == Stored(Note(r.value, d, cb), c)
  {
    hide P.SetEvents;
    StoredConn(w, c, d, w.conns[d].(state := state));
    var r := SetInterest(SetState(w, d, state), d, events);
    var r' := SetInterest(SetState(Stored(w, c), d, state), d, events);
    assert r' == Fine(Stored(r.value, c));
    StoredConn(r.value, c, d, Note(r.value, d, cb).conns[d]);
  }

  lemma StoredEstablished(w: World, l: LoopId, d: ConnId, c: ConnId)
    requires c in w.conns && d != c && ConnectEstablished(w, l, d, []).Fine?
    ensures var r := ConnectEstablished(w, l, d, []);
      c in r.value.conns && ConnectEstablished(Stored(w, c), l, d, []) == Fine(Stored(r.value, c))
  {
    hide SetInterest;
    StoredLive(w, c, d);
    StoredRestate(w, c, d, C.Connected, ChanOf(w, d).events.Or(P.READ_EVENT), C.Up);
  }

  lemma StoredLeave(w: World, l: LoopId, d: ConnId, c: ConnId)
    requires c in w.conns && RemoveFromLoop(w, l, d).Fine?
    ensures var r := RemoveFromLoop(w, l, d);
      c in r.value.conns && RemoveFromLoop(Stored(w, c), l, d) == Fine(Stored(r.value, c))
  {
    hide P.Detach;
  }

  lemma StoredDestroyed(w: World, l: LoopId, d: ConnId, c: ConnId)
    requires IsDown(w, c) && ConnectDestroyed(w, l, d, []).Fine?
    ensures var r := ConnectDestroyed(w, l, d, []);
      c in r.value.conns && ConnectDestroyed(Stored(w, c), l, d, []) == Fine(Stored(r.value, c))
  {
    hide SetInterest, RemoveFromLoop;
    StoredLive(w, c, d);
    if w.conns[d].state.Connected? {
      StoredRestate(w, c, d, C.Disconnected, P.NO_EVENT, C.Down);
      StoredLeave(Note(SetInterest(SetState(w, d, C.Disconnected), d, P.NO_EVENT).value, d, C.Down), l, d, c);
    } else {
      StoredLeave(w, l, d, c);
    }
  }

  lemma StoredRemove(w: World, l: LoopId, d: ConnId, c: ConnId)
    requires c in w.conns && RemoveConnectionInLoop(w, l, d).Fine?
    ensures var r := RemoveConnectionInLoop(w, l, d);
      c in r.value.conns && RemoveConnectionInLoop(Stored(w, c), l, d) == Fine(Stored(r.value, c))
  {
  }

  lemma StoredQueue(w: World, l: LoopId, f: Functor, c: ConnId)
    requires c in w.conns && QueueInLoop(w, l, f).Fine?
    ensures var r := QueueInLoop(w, l, f);
      c in r.value.conns && QueueInLoop(Stored(w, c), l, f) == Fine(Stored(r.value, c))
  {
  }

  lemma StoredClose(w: World, l: LoopId, d: ConnId, c: ConnId)
    requires c in w.conns && d != c && HandleClose(w, l, d, []).Fine?
    ensures var r := HandleClose(w, l, d, []);
      c in r.value.conns && HandleClose(Stored(w, c), l, d, []) == Fine(Stored(r.value, c))
  {
    hide SetInterest, RemoveConnectionInLoop, QueueInLoop;
    StoredLive(w, c, d);
    StoredRestate(w, c, d, C.Disconnected, P.NO_EVENT, C.Down);
    var w1 := BeginClose(w, l, d).value;
    assert BeginClose(Stored(w, c), l, d) == Fine(Stored(w1, c));
    assert UserActs(w1, l, []) == Fine(w1) && UserActs(Stored(w1, c), l, []) == Fine(Stored(w1, c));
    StoredLive(w1, c, d);
    var w2 := Note(w1, d, C.Close);
    StoredConn(w1, c, d, w2.conns[d]);
    if l == w2.base {
      StoredRemove(w2, l, d, c);
    } else {
      StoredQueue(w2, w2.base, Remove(d), c);
    }
  }

  lemma StoredEvent(w: World, l: LoopId, d: ConnId, mask: P.Mask, c: ConnId)
    requires c in w.conns && d != c && HandleEvent(w, l, d, mask, QUIET).Fine?
    ensures var r := HandleEvent(w, l, d, mask, QUIET);
      c in r.value.conns && HandleEvent(Stored(w, c), l, d, mask, QUIET) == Fine(Stored(r.value, c))
  {
    hide HandleClose, P.Mask.Has;
    StoredLive(w, c, d);
    var w1 := w;
    if mask.Has(P.EPOLLHUP) && !mask.Has(P.EPOLLIN) {
      StoredClose(w, l, d, c);
      w1 := HandleClose(w, l, d, []).value;
    }
    StoredLive(w1, c, d);
  }

  lemma StoredCall(w: World, l: LoopId, f: Functor, c: ConnId)
    requires IsDown(w, c) && f != Establish(c) && CallFunctor(w, l, f, []).Fine?
    ensures var r := CallFunctor(w, l, f, []);
      c in r.value.conns && CallFunctor(Stored(w, c), l, f, []) == Fine(Stored(r.value, c))
  {
    hide ConnectEstablished, ConnectDestroyed, RemoveConnectionInLoop;
    match f
    case Establish(d) => StoredEstablished(w, l, d, c);
    case Remove(d) => StoredRemove(w, l, d, c);
    case Destroy(d) => StoredDestroyed(w, l, d, c);
    case WriteComplete(d) => StoredLive(w, c, d);
  }

  // ----- one turn, and the end of objects -----

  lemma StoredPerform(w: World, step: Step, c: ConnId)
    requires S.Inv(w, S.Nothing) && Down(w, c) && IsTurn(step) && Enabled(w, step)
    ensures Enabled(Stored(w, c), step) && Perform(w, step).Fine?
    ensures var r := Perform(w, step); c in r.value.conns && Perform(Stored(w, c), step) == Fine(Stored(r.value, c))
  {
    hide S.Inv, HandleEvent, CallFunctor, NewConnection;
    S.PerformInv(w, step);
    match step
    case HandleNext(l, _) =>
      var lp := w.loops[l];
      ActiveIsAnother(w, l, c);
      StoredEvent(WithLoop(w, l, lp.(next := lp.next + 1)), l, lp.active[lp.next].c, lp.active[lp.next].mask, c);
    case CallNext(l, _) =>
      var lp := w.loops[l];
      BatchHasNoEstablish(w, l, c);
      StoredCall(WithLoop(w, l, lp.(batch := lp.batch[1..], done := lp.done + [lp.batch[0]])), l, lp.batch[0], c);
    case _ =>
  }

  lemma BatchHasNoEstablish(w: World, l: LoopId, c: ConnId)
    requires S.Inv(w, S.Nothing) && l in w.loops && w.loops[l].batch != [] && Down(w, c)
    ensures w.loops[l].batch[0] != Establish(c)
  {
    hide S.Structure, S.Stages, S.Refs, S.Actives;
    assert S.QueueOk(w, S.Nothing, l, Establish(c));
    assert w.loops[l].batch[0] in w.loops[l].batch;
  }

  /** The destructor's assertion fails when the object ends; until then the state makes no difference. */
  lemma StoredReap(m: World, c: ConnId)
    requires Reap(m).Fine? && c in m.conns && m.conns[c].alive
    ensures c in Reap(m).value.conns
    ensures if Reap(m).value.conns[c].alive then Reap(Stored(m, c)) == Fine(Stored(Reap(m).value, c))
      else Reap(Stored(m, c)).Fault?
  {
    hide Referenced, Registered;
    var v := Stored(m, c);
    forall d ensures Expires(v, d) == Expires(m, d) {
      SameReferences(m, v, d);
    }
    forall d | d != c ensures MayEnd(v, d) == MayEnd(m, d) {
      StoredLive(m, c, d);
    }
    if Expires(m, c) {
      assert Expires(v, c) && !MayEnd(v, c);
    } else {
      assert forall d :: Expires(v, d) ==> MayEnd(v, d);
      var dead := set d | d in m.conns && Expires(m, d);
      assert dead == set d | d in v.conns && Expires(v, d);
      assert Reap(m).value == S.Reaped(m, dead) && Reap(v).value == S.Reaped(v, dead);
      StoredReaped(m, dead, c);
    }
  }

  lemma StoredReaped(m: World, dead: set<ConnId>, c: ConnId)
    requires c in m.conns && c !in dead && dead <= m.conns.Keys
    ensures S.Reaped(Stored(m, c), dead) == Stored(S.Reaped(m, dead), c)
  {
    var w1, w2 := Stored(S.Reaped(m, dead), c), S.Reaped(Stored(m, c), dead);
    assert w2.conns == w1.conns;
    assert w2.loops == w1.loops;
    assert w2.open == w1.open;
  }

  lemma SameReferences(m: World, v: World, d: ConnId)
    requires v == m.(conns := v.conns)
    ensures Referenced(v, d) == Referenced(m, d)
  {
  }

  // ----- the run that fails -----

  /** A run of turns that would end the object breaks the destructor's assertion after the store. */
  lemma {:induction false} StoredRunFails(w: World, steps: seq<Step>, c: ConnId)
    requires S.Inv(w, S.Nothing) && Down(w, c) && Turns(steps)
    requires Run(w, steps).Fine? && c in Run(w, steps).value.conns && !Run(w, steps).value.conns[c].alive
    ensures Run(Stored(w, c), steps).Fault?
    decreases |steps|
  {
    hide S.Inv, Enabled, Perform, Reap, MoverOf, Advances, NoneExpires;
    DownIs(w, c);
    var step := steps[0];
    assert IsTurn(step) && Turns(steps[1..]);
    if !Enabled(w, step) {
      assert !Enabled(Stored(w, c), step) by { SameTurns(w, step, c); }
      StoredRunFails(w, steps[1..], c);
    } else {
      assert step != Hold(c);
      StoredPerform(w, step, c);
      EveryStepAdvances(w, step, c);
      var m, w1 := Perform(w, step).value, Next(w, step).value;
      AliveStays(w, step, c);
      StoredReap(m, c);
      if w1.conns[c].alive {
        assert Down(w1, c) by { AdvancesDown(w, w1, MoverOf(step), c); }
        StoredRunFails(w1, steps[1..], c);
      }
    }
  }

  lemma SameTurns(w: World, step: Step, c: ConnId)
    requires c in w.conns && IsTurn(step)
    ensures Enabled(Stored(w, c), step) == Enabled(w, step)
  {
  }

  lemma AdvancesDown(w: World, w': World, mover: Mover, c: ConnId)
    requires Down(w, c) && Advances(w, w', mover, c)
    ensures Down(w', c)
  {
  }

  lemma AliveStays(w: World, step: Step, c: ConnId)
    requires S.Inv(w, S.Nothing) && Down(w, c) && Enabled(w, step) && step != Hold(c)
    ensures Perform(w, step).Fine? && c in Perform(w, step).value.conns && Perform(w, step).value.conns[c].alive
  {
    hide S.Inv, Enabled, Perform, MoverOf;
    if MoverOf(step).Loops? {
      MoverAdvances(w, step, c);
    } else {
      OthersAdvance(w, step, c);
    }
  }

  ghost predicate RunsFine(w: World, steps: seq<Step>) { Run(w, steps).Fine? }

  /** Once user code has let go of the connection, if it held it, turns of the loops lead to the failing destructor. */
  lemma StoreTooLate(w: World, c: ConnId) returns (steps: seq<Step>)
    requires S.Inv(w, S.Nothing) && NoneExpires(w) && Live(w, c) && w.conns[c].state.Disconnected?
    ensures !RunsFine(Stored(w, c), steps)
  {
    hide S.Inv, Run, Reap, NoneExpires;
    if c !in w.held {
      var w';
      steps, w' := Removal(w, c);
      StoredRunFails(w, steps, c);
    } else {
      var m := w.(held := w.held - {c});
      S.NextInv(w, Release(c));
      assert Perform(w, Release(c)) == Fine(m) && Perform(Stored(w, c), Release(c)) == Fine(Stored(m, c));
      StoredReap(m, c);
      ReapEndsOrSpares(m, c);
      ReapLeavesNone(m);
      var w1 := Reap(m).value;
      if w1.conns[c].alive {
        assert Down(w1, c);
        var rest, w' := Removal(w1, c);
        StoredRunFails(w1, rest, c);
        steps := [Release(c)] + rest;
        assert Next(Stored(w, c), Release(c)) == Fine(Stored(w1, c));
      } else {
        steps := [Release(c)];
      }
      FirstStep(Stored(w, c), steps);
    }
  }

  lemma FirstStep(w: World, steps: seq<Step>)
    requires steps != [] && Enabled(w, steps[0])
    ensures Run(w, steps) == if Next(w, steps[0]).Fault? then Next(w, steps[0]) else Run(Next(w, steps[0]).value, steps[1..])
  {
    hide Enabled, Next;
  }

  /**
   * After a test that found the connection Connected the state is that or a later one. The store keeps every later run
   * free of faults exactly if the connection's loop has not closed it in between.
   */
  lemma StoreIsSafeIff(w: World, c: ConnId)
    requires S.Reachable(w) && Live(w, c) && !w.conns[c].state.Connecting?
    ensures IsUp(w.conns[c].state) <==> forall steps :: RunsFine(Stored(w, c), steps)
  {
    hide S.Inv, Run, S.Reachable;
    S.ReachableInv(w);
    if IsUp(w.conns[c].state) {
      if w.conns[c].state.Connected? {
        S.ShutdownInv(w, S.Nothing, c);
      } else {
        assert Stored(w, c).conns == w.conns;
      }
      forall steps ensures RunsFine(Stored(w, c), steps) {
        S.RunInv(Stored(w, c), steps);
      }
    } else {
      ReachableNoneExpires(w);
      var steps := StoreTooLate(w, c);
    }
  }
}
