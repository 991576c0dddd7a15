/** The global inductive invariant of the connection protocol, kept by every step of every thread. */
module LifecycleSafety {
  import opened Checks
  import opened Lifecycle
  import C = Connection
  import P = Poller

  // ----- the invariant -----

  /** A duty taken off a queue, or not yet put on one, in the middle of a step. */
  datatype Owed = Nothing | Owes(f: Functor) | Closing(c: ConnId)

  predicate InMap(w: World, c: ConnId)
    requires c in w.conns
  {
    w.conns[c].fd in w.connections && w.connections[w.conns[c].fd] == c
  }

  /** The loop a functor has to run on. */
  function Home(w: World, f: Functor): LoopId
    requires f.c in w.conns
  {
    if f.Remove? then w.base else w.conns[f.c].loop
  }

  /** How often a functor is still to be called by a loop. */
  function Count(lp: Loop, f: Functor): nat
  {
    multiset(lp.batch)[f] + multiset(lp.pending)[f]
  }

  /** What the state of its connection says about a functor. */
  predicate Due(w: World, f: Functor)
    requires f.c in w.conns
  {
    && Live(w, f.c)
    && match f
       case Establish(c) => w.conns[c].state.Connecting?
       case Remove(c) => w.conns[c].state.Disconnected? && InMap(w, c)
       case Destroy(c) => w.conns[c].state.Disconnected? && !InMap(w, c) && !ChanOf(w, c).index.New?
       case WriteComplete(c) => false
  }

  predicate OwedNow(owed: Owed, f: Functor)
  {
    owed == Owes(f) || (owed.Closing? && f == Remove(owed.c))
  }

  /** The channels a poller knows are those of the living connections of its loop, and every poller refines its kernel. */
  ghost predicate RegsAgree(w: World)
  {
    && (forall c :: c in w.conns ==> w.conns[c].loop in w.loops)
    && (forall l, c :: l in w.loops && c in w.loops[l].reg.chans ==>
          c in w.conns && w.conns[c].alive && w.conns[c].loop == l && w.loops[l].reg.chans[c].fd == w.conns[c].fd)
    && (forall c :: c in w.conns && w.conns[c].alive ==> c in w.loops[w.conns[c].loop].reg.chans)
  }

  /** A living connection's descriptor is open, and no two living connections share one. */
  ghost predicate FdsOwned(w: World)
  {
    && (forall c :: c in w.conns && w.conns[c].alive ==> w.conns[c].fd in w.open)
    && (forall c, d :: c in w.conns && d in w.conns ==>
          w.conns[c].alive && w.conns[d].alive && w.conns[c].fd == w.conns[d].fd ==> c == d)
  }

  ghost predicate MapAgrees(w: World)
  {
    && (forall fd :: fd in w.connections ==>
          w.connections[fd] in w.conns && w.conns[w.connections[fd]].alive && w.conns[w.connections[fd]].fd == fd)
    && (forall c :: c in w.held ==> c in w.conns && w.conns[c].alive)
  }

  ghost predicate AllRefine(w: World)
  {
    forall l :: l in w.loops ==> P.Refines(w.loops[l].reg)
  }

  ghost predicate Structure(w: World)
  {
    w.base in w.loops && RegsAgree(w) && FdsOwned(w) && MapAgrees(w) && AllRefine(w)
  }

  ghost predicate ConnOk(w: World, owed: Owed, c: ConnId)
    requires c in w.conns
  {
    var conn := w.conns[c];
    && C.InOrder(conn.state, conn.callbacks + if owed == Closing(c) then [C.Close] else [])
    && if !conn.alive then conn.state.Disconnected?
       else
         && Live(w, c)
         && var ch := ChanOf(w, c);
            match conn.state
            case Connecting => InMap(w, c) && ch == P.Chan(conn.fd, P.NO_EVENT, P.New, false)
            case Disconnected => ch.events == P.NO_EVENT
              && if ch.index.New? then !InMap(w, c) && !ch.addedToLoop else ch.index.Deleted?
            case _ => InMap(w, c) && ch.index.Added? && ch.events.Has(P.READ_EVENT)
  }

  ghost predicate Stages(w: World, owed: Owed)
  {
    forall c :: c in w.conns ==> ConnOk(w, owed, c)
  }

  function Bit(b: bool): nat { if b then 1 else 0 }

  /** A due functor is outstanding exactly once, on its loop and nowhere else; one that is not due is not outstanding. */
  predicate QueueOk(w: World, owed: Owed, l: LoopId, f: Functor)
    requires l in w.loops && f.c in w.conns
  {
    Count(w.loops[l], f) + Bit(l == Home(w, f) && OwedNow(owed, f)) == Bit(l == Home(w, f) && Due(w, f))
  }

  ghost predicate Queues(w: World, owed: Owed)
  {
    forall l, f: Functor :: l in w.loops && f.c in w.conns && !f.WriteComplete? ==> QueueOk(w, owed, l, f)
  }

  /** Functors on a loop belong to living connections, and completions to connections of that loop. */
  ghost predicate AllAlive(w: World, l: LoopId, fs: seq<Functor>)
  {
    forall k :: 0 <= k < |fs| ==>
      fs[k].c in w.conns && w.conns[fs[k].c].alive && (fs[k].WriteComplete? ==> w.conns[fs[k].c].loop == l)
  }

  ghost predicate Refs(w: World, owed: Owed)
  {
    && (forall l :: l in w.loops ==>
          AllAlive(w, l, w.loops[l].done) && AllAlive(w, l, w.loops[l].batch) && AllAlive(w, l, w.loops[l].pending))
    && (owed.Owes? ==> owed.f.c in w.conns && w.conns[owed.f.c].alive && !owed.f.WriteComplete?)
    && (owed.Closing? ==> owed.c in w.conns && w.conns[owed.c].alive)
  }

  /** Active channels not yet handed out belong to living connections that are up, each once. */
  ghost predicate LoopOk(w: World, l: LoopId)
    requires l in w.loops
  {
    var lp := w.loops[l];
    && (!lp.phase.Dispatching? ==> lp.active == [] && lp.next == 0)
    && (!lp.phase.Calling? ==> lp.batch == [] && lp.done == [])
    && (forall k :: lp.next <= k < |lp.active| ==>
          && lp.active[k].c in w.conns && w.conns[lp.active[k].c].alive && w.conns[lp.active[k].c].loop == l
          && IsUp(w.conns[lp.active[k].c].state) && !C.ClosesAndReads(lp.active[k].mask))
    && (forall j, k :: 0 <= j < k < |lp.active| ==> lp.active[j].c != lp.active[k].c)
  }

  ghost predicate Actives(w: World)
  {
    forall l :: l in w.loops ==> LoopOk(w, l)
  }

  ghost predicate Inv(w: World, owed: Owed)
  {
    Structure(w) && Stages(w, owed) && Queues(w, owed) && Refs(w, owed) && Actives(w)
  }

  // ----- what a change leaves alone -----

  /** No object is made, moved or ended. */
  ghost predicate SameConns(w: World, w': World)
  {
    && w'.conns.Keys == w.conns.Keys
    && (forall c :: c in w.conns ==>
          && w'.conns[c].fd == w.conns[c].fd
          && w'.conns[c].loop == w.conns[c].loop
          && w'.conns[c].alive == w.conns[c].alive)
  }

  /** Loops keep their place in their round. */
  ghost predicate SamePhases(w: World, w': World)
  {
    && w'.loops.Keys == w.loops.Keys
    && (forall l :: l in w.loops ==>
          && w'.loops[l].phase == w.loops[l].phase
          && w'.loops[l].next == w.loops[l].next
          && w'.loops[l].active == w.loops[l].active)
  }

  ghost predicate SameQueues(w: World, w': World)
  {
    && w'.loops.Keys == w.loops.Keys
    && (forall l :: l in w.loops ==>
          && w'.loops[l].done == w.loops[l].done
          && w'.loops[l].batch == w.loops[l].batch
          && w'.loops[l].pending == w.loops[l].pending)
  }

  /** Pollers keep refining their kernels and know the same channels, all but one unchanged. */
  ghost predicate SameRegs(w: World, w': World, d: ConnId)
  {
    && w'.loops.Keys == w.loops.Keys
    && (forall l :: l in w.loops ==>
          && P.SameOthers(w.loops[l].reg, w'.loops[l].reg, d)
          && (d in w.loops[l].reg.chans ==> w'.loops[l].reg.chans[d].fd == w.loops[l].reg.chans[d].fd))
  }

  ghost predicate SameObjects(w: World, w': World)
  {
    w'.base == w.base && SameConns(w, w') && SamePhases(w, w')
  }

  // ----- changes to one connection -----

  /** Everything the invariant says about a connection reads the same in both worlds. */
  ghost predicate SameView(w: World, w': World, c: ConnId)
    requires c in w.conns && c in w'.conns
  {
    && w'.conns[c] == w.conns[c]
    && Live(w', c) == Live(w, c)
    && (Live(w, c) ==> ChanOf(w', c) == ChanOf(w, c))
    && InMap(w', c) == InMap(w, c)
  }

  /** Only the state, the callbacks and the channel of one connection change. */
  ghost predicate Touches(w: World, w': World, d: ConnId)
  {
    && d in w.conns
    && SameObjects(w, w') && SameQueues(w, w') && SameRegs(w, w', d)
    && (forall c :: c in w.conns && c != d ==> w'.conns[c] == w.conns[c])
    && AllRefine(w')
    && w'.connections == w.connections && w'.open == w.open && w'.held == w.held
  }

  lemma TouchChan(w: World, w': World, d: ConnId, l: LoopId, c: ConnId)
    requires SameRegs(w, w', d) && l in w.loops
    ensures l in w'.loops && (c in w'.loops[l].reg.chans <==> c in w.loops[l].reg.chans)
    ensures c in w.loops[l].reg.chans ==> w'.loops[l].reg.chans[c].fd == w.loops[l].reg.chans[c].fd
  {
  }

  lemma TouchRegs(w: World, w': World, d: ConnId)
    requires RegsAgree(w) && SameConns(w, w') && SameRegs(w, w', d)
    ensures RegsAgree(w')
  {
    hide SameRegs, SameConns;
    TouchKeys(w, w', d);
    forall l, c | l in w'.loops && c in w'.loops[l].reg.chans
      ensures c in w'.conns && w'.conns[c].alive && w'.conns[c].loop == l && w'.loops[l].reg.chans[c].fd == w'.conns[c].fd
    {
      TouchChan(w, w', d, l, c);
      TouchConn(w, w', c);
    }
    forall c | c in w'.conns
      ensures w'.conns[c].loop in w'.loops && (w'.conns[c].alive ==> c in w'.loops[w'.conns[c].loop].reg.chans)
    {
      TouchConn(w, w', c);
      TouchChan(w, w', d, w.conns[c].loop, c);
    }
  }

  lemma TouchKeys(w: World, w': World, d: ConnId)
    requires SameConns(w, w') && SameRegs(w, w', d)
    ensures w'.loops.Keys == w.loops.Keys && w'.conns.Keys == w.conns.Keys
  {
  }

  lemma TouchConn(w: World, w': World, c: ConnId)
    requires SameConns(w, w') && c in w.conns
    ensures c in w'.conns && w'.conns[c].fd == w.conns[c].fd && w'.conns[c].loop == w.conns[c].loop
    ensures w'.conns[c].alive == w.conns[c].alive
  {
  }

  lemma TouchStructure(w: World, w': World, d: ConnId)
    requires Structure(w) && Touches(w, w', d)
    ensures Structure(w')
  {
    TouchRegs(w, w', d);
    TouchFds(w, w');
    TouchMap(w, w');
  }

  lemma TouchFds(w: World, w': World)
    requires FdsOwned(w) && SameConns(w, w') && w'.open == w.open
    ensures FdsOwned(w')
  {
  }

  lemma TouchMap(w: World, w': World)
    requires MapAgrees(w) && SameConns(w, w') && w'.connections == w.connections && w'.held == w.held
    ensures MapAgrees(w')
  {
  }

  lemma TouchView(w: World, w': World, d: ConnId, c: ConnId)
    requires c in w.conns && c in w'.conns && c != d && w'.conns[c] == w.conns[c]
    requires SameRegs(w, w', d) && w'.connections == w.connections
    ensures SameView(w, w', c)
  {
  }

  /** No loop still has to hand this connection an event. */
  ghost predicate NotWaiting(w: World, d: ConnId)
  {
    forall l, k :: l in w.loops && w.loops[l].next <= k < |w.loops[l].active| ==> w.loops[l].active[k].c != d
  }

  lemma TouchActives(w: World, w': World, d: ConnId)
    requires Actives(w) && SameConns(w, w') && SamePhases(w, w') && SameQueues(w, w') && d in w.conns
    requires forall c :: c in w.conns && c != d ==> w'.conns[c] == w.conns[c]
    requires IsUp(w'.conns[d].state) || NotWaiting(w, d)
    ensures Actives(w')
  {
    forall l | l in w'.loops ensures LoopOk(w', l) {
      assert LoopOk(w, l);
    }
  }

  /** What is due and not owed of this connection's functors stays the same. */
  ghost predicate SameDuty(w: World, owed: Owed, w': World, owed': Owed, f: Functor)
    requires f.c in w.conns && f.c in w'.conns
  {
    Bit(Due(w, f)) - Bit(OwedNow(owed, f)) == Bit(Due(w', f)) - Bit(OwedNow(owed', f))
  }

  ghost predicate SameDuties(w: World, owed: Owed, w': World, owed': Owed, d: ConnId)
    requires d in w.conns && d in w'.conns
  {
    && SameDuty(w, owed, w', owed', Establish(d))
    && SameDuty(w, owed, w', owed', Remove(d))
    && SameDuty(w, owed, w', owed', Destroy(d))
  }

  predicate OwedAbout(owed: Owed, d: ConnId)
  {
    (owed.Owes? ==> owed.f.c == d) && (owed.Closing? ==> owed.c == d)
  }

  /** The duty changes, if at all, from one about this connection to another about it. */
  predicate OwedSwitch(owed: Owed, owed': Owed, d: ConnId)
  {
    owed == owed' || (OwedAbout(owed, d) && OwedAbout(owed', d))
  }

  lemma TouchQueue(w: World, owed: Owed, w': World, owed': Owed, l: LoopId, f: Functor)
    requires l in w.loops && l in w'.loops && f.c in w.conns && f.c in w'.conns
    requires QueueOk(w, owed, l, f) && Count(w'.loops[l], f) == Count(w.loops[l], f)
    requires Home(w', f) == Home(w, f) && SameDuty(w, owed, w', owed', f)
    ensures QueueOk(w', owed', l, f)
  {
  }

  lemma TouchQueues(w: World, owed: Owed, w': World, owed': Owed, d: ConnId)
    requires Queues(w, owed) && w'.base == w.base && SameConns(w, w') && SameQueues(w, w') && d in w.conns
    requires forall c :: c in w.conns && c != d ==> SameView(w, w', c)
    requires OwedSwitch(owed, owed', d) && SameDuties(w, owed, w', owed', d)
    ensures Queues(w', owed')
  {
    hide QueueOk, SameView, SameDuty, OwedSwitch;
    forall l, f: Functor | l in w'.loops && f.c in w'.conns && !f.WriteComplete?
      ensures QueueOk(w', owed', l, f)
    {
      if f.c == d {
        assert SameDuty(w, owed, w', owed', f);
      } else {
        OtherDuty(w, owed, w', owed', d, f);
      }
      assert Count(w'.loops[l], f) == Count(w.loops[l], f);
      TouchQueue(w, owed, w', owed', l, f);
    }
  }

  lemma OtherDuty(w: World, owed: Owed, w': World, owed': Owed, d: ConnId, f: Functor)
    requires f.c in w.conns && f.c in w'.conns && f.c != d && SameView(w, w', f.c) && OwedSwitch(owed, owed', d)
    ensures SameDuty(w, owed, w', owed', f)
  {
  }

  lemma TouchStages(w: World, owed: Owed, w': World, owed': Owed, d: ConnId)
    requires Stages(w, owed) && Touches(w, w', d)
    requires OwedSwitch(owed, owed', d) && ConnOk(w', owed', d)
    ensures Stages(w', owed')
  {
    forall c | c in w'.conns ensures ConnOk(w', owed', c) {
      if c != d {
        TouchView(w, w', d, c);
        assert ConnOk(w, owed, c);
      }
    }
  }

  lemma TouchRefs(w: World, owed: Owed, w': World, owed': Owed, d: ConnId)
    requires Refs(w, owed) && SameConns(w, w') && SameQueues(w, w') && OwedSwitch(owed, owed', d)
    requires d in w.conns && w.conns[d].alive
    requires owed'.Owes? ==> !owed'.f.WriteComplete?
    ensures Refs(w', owed')
  {
    forall l | l in w'.loops
      ensures AllAlive(w', l, w'.loops[l].done) && AllAlive(w', l, w'.loops[l].batch) && AllAlive(w', l, w'.loops[l].pending)
    {
      assert AllAlive(w, l, w.loops[l].done) && AllAlive(w, l, w.loops[l].batch) && AllAlive(w, l, w.loops[l].pending);
    }
  }

  lemma TouchInv(w: World, owed: Owed, w': World, owed': Owed, d: ConnId)
    requires Inv(w, owed) && Touches(w, w', d) && w.conns[d].alive
    requires OwedSwitch(owed, owed', d) && SameDuties(w, owed, w', owed', d) && ConnOk(w', owed', d)
    requires owed'.Owes? ==> !owed'.f.WriteComplete?
    requires IsUp(w'.conns[d].state) || NotWaiting(w, d)
    ensures Inv(w', owed') && SameObjects(w, w')
  {
    hide Structure, Stages, Queues, Refs, Actives, SameView, ConnOk, SameDuties, OwedSwitch, NotWaiting, AllRefine;
    TouchStructure(w, w', d);
    TouchActives(w, w', d);
    forall c | c in w.conns && c != d ensures SameView(w, w', c) {
      TouchView(w, w', d, c);
    }
    TouchQueues(w, owed, w', owed', d);
    TouchStages(w, owed, w', owed', d);
    TouchRefs(w, owed, w', owed', d);
  }

  // ----- user code -----

  lemma RegTouches(w: World, d: ConnId, reg: P.Registry<ConnId>)
    requires Live(w, d) && AllRefine(w) && P.Refines(reg)
    requires P.SameOthers(w.loops[w.conns[d].loop].reg, reg, d) && reg.chans[d].fd == ChanOf(w, d).fd
    requires forall l :: l in w.loops && l != w.conns[d].loop ==> d !in w.loops[l].reg.chans
    ensures var l := w.conns[d].loop; var w' := WithLoop(w, l, w.loops[l].(reg := reg));
      Touches(w, w', d) && Live(w', d) && ChanOf(w', d) == reg.chans[d]
  {
    hide P.Refines;
    var l0 := w.conns[d].loop;
    var w' := WithLoop(w, l0, w.loops[l0].(reg := reg));
    assert forall l :: l in w.loops && l != l0 ==> w'.loops[l] == w.loops[l];
  }

  lemma InterestTouches(w: World, d: ConnId, events: P.Mask)
    requires Structure(w) && Live(w, d)
    requires ChanOf(w, d).index.New? ==> ChanOf(w, d).fd !in w.loops[w.conns[d].loop].reg.channels
    ensures SetInterest(w, d, events).Fine?
    ensures var w' := SetInterest(w, d, events).value; var ch := ChanOf(w, d);
      && Touches(w, w', d) && w'.conns == w.conns && Live(w', d)
      && ChanOf(w', d) == P.Chan(ch.fd, events, if ch.index.Added? && events == P.NO_EVENT then P.Deleted else P.Added, true)
  {
    hide P.Refines, P.SetEvents, FdsOwned, MapAgrees, Touches;
    var reg := w.loops[w.conns[d].loop].reg;
    assert forall l :: l in w.loops && l != w.conns[d].loop ==> d !in w.loops[l].reg.chans;
    P.SetEventsFineIff(reg, d, events);
    P.SetEventsRefines(reg, d, events);
    RegTouches(w, d, P.SetEvents(reg, d, events).value);
  }

  lemma TouchSelf(w: World, w': World, d: ConnId)
    requires Touches(w, w', d)
    ensures d in w'.conns && InMap(w', d) == InMap(w, d) && w'.base == w.base && SameObjects(w, w')
    ensures w'.conns[d].fd == w.conns[d].fd && w'.conns[d].loop == w.conns[d].loop && w'.conns[d].alive == w.conns[d].alive
  {
  }

  /** A connection that stays up, registered for reading, with its callbacks in order. */
  lemma UpInv(w: World, owed: Owed, w': World, d: ConnId)
    requires Inv(w, owed) && Touches(w, w', d) && Live(w, d) && Live(w', d)
    requires IsUp(w.conns[d].state) && IsUp(w'.conns[d].state)
    requires C.InOrder(w'.conns[d].state, w'.conns[d].callbacks)
    requires ChanOf(w', d).index.Added? && ChanOf(w', d).events.Has(P.READ_EVENT)
    ensures Inv(w', owed) && SameObjects(w, w')
  {
    hide Structure, Stages, Queues, Refs, Actives, Touches, SameObjects, ConnOk, SameDuties, SameDuty, Due;
    BaseIsLoop(w);
    UpOwesNothing(w, owed, d);
    TouchSelf(w, w', d);
    UpOk(w, owed, w', d);
    UpDuties(w, owed, w', d);
    RefsTell(w, owed);
    TouchInv(w, owed, w', owed, d);
  }

  lemma RefsTell(w: World, owed: Owed)
    requires Refs(w, owed)
    ensures owed.Owes? ==> !owed.f.WriteComplete?
  {
  }

  lemma UpOk(w: World, owed: Owed, w': World, d: ConnId)
    requires d in w.conns && ConnOk(w, owed, d) && owed != Closing(d) && IsUp(w.conns[d].state) && w.conns[d].alive
    requires d in w'.conns && InMap(w', d) == InMap(w, d) && w'.conns[d].alive && Live(w', d)
    requires IsUp(w'.conns[d].state) && C.InOrder(w'.conns[d].state, w'.conns[d].callbacks)
    requires ChanOf(w', d).index.Added? && ChanOf(w', d).events.Has(P.READ_EVENT)
    ensures ConnOk(w', owed, d)
  {
    assert w'.conns[d].callbacks + [] == w'.conns[d].callbacks;
  }

  /** A connection that is up has no duties. */
  lemma UpDuties(w: World, owed: Owed, w': World, d: ConnId)
    requires d in w.conns && IsUp(w.conns[d].state) && d in w'.conns && IsUp(w'.conns[d].state)
    ensures SameDuties(w, owed, w', owed, d)
  {
  }

  lemma BaseIsLoop(w: World)
    requires Structure(w)
    ensures w.base in w.loops && AllRefine(w)
  {
  }

  lemma UpOwesNothing(w: World, owed: Owed, d: ConnId)
    requires Queues(w, owed) && Stages(w, owed) && w.base in w.loops && d in w.conns && IsUp(w.conns[d].state)
    ensures ConnOk(w, owed, d) && owed != Closing(d)
  {
    assert QueueOk(w, owed, w.base, Remove(d));
  }

  lemma InterestInv(w: World, owed: Owed, d: ConnId, events: P.Mask)
    requires Inv(w, owed) && Live(w, d) && IsUp(w.conns[d].state) && events.Has(P.READ_EVENT)
    ensures SetInterest(w, d, events).Fine?
    ensures var w' := SetInterest(w, d, events).value; Inv(w', owed) && SameObjects(w, w')
  {
    hide Structure, Stages, Queues, Refs, Actives, SameObjects, SetInterest, Touches;
    BaseIsLoop(w);
    UpOwesNothing(w, owed, d);
    assert w.conns[d].callbacks + [] == w.conns[d].callbacks;
    InterestTouches(w, d, events);
    UpInv(w, owed, SetInterest(w, d, events).value, d);
  }

  lemma ConnTouches(w: World, d: ConnId, state: C.State, callbacks: seq<C.Callback>)
    requires Live(w, d) && AllRefine(w)
    ensures var w' := WithConn(w, d, w.conns[d].(state := state, callbacks := callbacks));
      Touches(w, w', d) && Live(w', d) && ChanOf(w', d) == ChanOf(w, d)
  {
  }

  lemma ShutdownInv(w: World, owed: Owed, d: ConnId)
    requires Inv(w, owed) && Live(w, d) && w.conns[d].state.Connected?
    ensures var w' := SetState(w, d, C.Disconnecting); Inv(w', owed) && SameObjects(w, w')
  {
    hide Structure, Stages, Queues, Refs, Actives, Touches, SameObjects;
    BaseIsLoop(w);
    UpOwesNothing(w, owed, d);
    assert w.conns[d].callbacks + [] == w.conns[d].callbacks;
    ConnTouches(w, d, C.Disconnecting, w.conns[d].callbacks);
    UpInv(w, owed, SetState(w, d, C.Disconnecting), d);
  }

  lemma MessageInv(w: World, owed: Owed, d: ConnId)
    requires Inv(w, owed) && Live(w, d) && IsUp(w.conns[d].state)
    ensures var w' := Note(w, d, C.Message); Inv(w', owed) && SameObjects(w, w')
  {
    hide Structure, Stages, Queues, Refs, Actives, Touches, SameObjects;
    BaseIsLoop(w);
    UpOwesNothing(w, owed, d);
    assert w.conns[d].callbacks + [] == w.conns[d].callbacks;
    ConnTouches(w, d, w.conns[d].state, w.conns[d].callbacks + [C.Message]);
    UpInv(w, owed, Note(w, d, C.Message), d);
  }

  // ----- pushing onto a queue -----

  /** One more pending functor, everything else alike. */
  ghost predicate Pushes(w: World, w': World, l: LoopId, f: Functor)
  {
    l in w.loops && w' == WithLoop(w, l, w.loops[l].(pending := w.loops[l].pending + [f]))
  }

  lemma PushMoves(w: World, w': World, l: LoopId, f: Functor)
    requires Pushes(w, w', l, f)
    ensures Moves(w, w', l) && SameObjects(w, w')
  {
  }

  lemma PushCount(w: World, w': World, l: LoopId, f: Functor, m: LoopId, g: Functor)
    requires Pushes(w, w', l, f) && m in w.loops
    ensures m in w'.loops && Count(w'.loops[m], g) == Count(w.loops[m], g) + Bit(m == l && g == f)
  {
  }

  lemma PushActives(w: World, w': World, l: LoopId, f: Functor)
    requires Actives(w) && Pushes(w, w', l, f)
    ensures Actives(w')
  {
    forall m | m in w'.loops ensures LoopOk(w', m) {
      assert LoopOk(w, m);
    }
  }

  lemma PushRefs(w: World, owed: Owed, w': World, owed': Owed, l: LoopId, f: Functor)
    requires Refs(w, owed) && Pushes(w, w', l, f) && f.c in w.conns && w.conns[f.c].alive
    requires (f.WriteComplete? ==> w.conns[f.c].loop == l) && (owed' == owed || owed' == Nothing)
    ensures Refs(w', owed')
  {
    forall m | m in w'.loops
      ensures AllAlive(w', m, w'.loops[m].done) && AllAlive(w', m, w'.loops[m].batch) && AllAlive(w', m, w'.loops[m].pending)
    {
      assert AllAlive(w, m, w.loops[m].done) && AllAlive(w, m, w.loops[m].batch) && AllAlive(w, m, w.loops[m].pending);
    }
  }

  lemma PushQueue(w: World, owed: Owed, w': World, owed': Owed, l: LoopId, f: Functor, m: LoopId, g: Functor)
    requires Pushes(w, w', l, f) && f.c in w.conns && m in w.loops && m in w'.loops && g.c in w.conns && g.c in w'.conns
    requires if f.WriteComplete? then owed' == owed else owed == Owes(f) && owed' == Nothing && l == Home(w, f)
    requires !g.WriteComplete? && QueueOk(w, owed, m, g) && SameView(w, w', g.c)
    ensures QueueOk(w', owed', m, g)
  {
    PushCount(w, w', l, f, m, g);
    hide Count;
  }

  lemma PushQueues(w: World, owed: Owed, w': World, owed': Owed, l: LoopId, f: Functor)
    requires Queues(w, owed) && Pushes(w, w', l, f) && f.c in w.conns
    requires if f.WriteComplete? then owed' == owed else owed == Owes(f) && owed' == Nothing && l == Home(w, f)
    ensures Queues(w', owed')
  {
    PushMoves(w, w', l, f);
    MovesView(w, w', l);
    hide QueueOk, SameView, Pushes, Moves, SameObjects;
    forall m, g: Functor | m in w'.loops && g.c in w'.conns && !g.WriteComplete? ensures QueueOk(w', owed', m, g) {
      PushQueue(w, owed, w', owed', l, f, m, g);
    }
  }

  /** Putting the owed functor on its loop, or a write-complete notice on its connection's, keeps the invariant. */
  lemma PushInv(w: World, owed: Owed, owed': Owed, l: LoopId, f: Functor)
    requires Inv(w, owed) && l in w.loops && f.c in w.conns && w.conns[f.c].alive
    requires l == Home(w, f) && if f.WriteComplete? then owed' == owed else owed == Owes(f) && owed' == Nothing
    ensures QueueInLoop(w, l, f).Fine?
    ensures var w' := QueueInLoop(w, l, f).value; Inv(w', owed') && SameObjects(w, w')
  {
    hide Structure, Stages, Queues, Refs, Actives, SameObjects, Moves;
    var w' := QueueInLoop(w, l, f).value;
    PushMoves(w, w', l, f);
    MoveStructure(w, w', l);
    MoveStages(w, owed, w', owed', l);
    PushActives(w, w', l, f);
    PushRefs(w, owed, w', owed', l, f);
    PushQueues(w, owed, w', owed', l, f);
  }

  // ----- user code in callbacks -----

  lemma UserActInv(w: World, owed: Owed, l: LoopId, act: Act)
    requires Inv(w, owed) && l in w.loops
    ensures UserAct(w, l, act).Fine?
    ensures var w' := UserAct(w, l, act).value; Inv(w', owed) && SameObjects(w, w')
  {
    hide Structure, Stages, Queues, Refs, Actives, SameObjects, SetInterest, QueueInLoop;
    SameObjectsReflexive(w);
    if Live(w, act.d) && w.conns[act.d].loop == l && w.conns[act.d].state.Connected? {
      BaseIsLoop(w);
      match act
      case SendLeavesBacklog(d) =>
        UpOwesNothing(w, owed, d);
        InterestInv(w, owed, d, ChanOf(w, d).events.Or(P.WRITE_EVENT));
      case SendCompletes(d) => PushInv(w, owed, owed, l, WriteComplete(d));
      case Shutdown(d) => ShutdownInv(w, owed, d);
    }
  }

  lemma SameObjectsTransitive(w: World, w1: World, w2: World)
    requires SameObjects(w, w1) && SameObjects(w1, w2)
    ensures SameObjects(w, w2)
  {
  }

  lemma {:induction false} UserActsInv(w: World, owed: Owed, l: LoopId, acts: seq<Act>)
    requires Inv(w, owed) && l in w.loops
    ensures UserActs(w, l, acts).Fine?
    ensures var w' := UserActs(w, l, acts).value; Inv(w', owed) && SameObjects(w, w')
    decreases |acts|
  {
    hide Inv;
    if acts != [] {
      UserActInv(w, owed, l, acts[0]);
      var w1 := UserAct(w, l, acts[0]).value;
      UserActsInv(w1, owed, l, acts[1..]);
      SameObjectsTransitive(w, w1, UserActs(w1, l, acts[1..]).value);
    }
  }

  // ----- establishing -----

  /** A channel that was never registered finds its descriptor free in its poller. */
  lemma FdFree(w: World, c: ConnId)
    requires RegsAgree(w) && FdsOwned(w) && AllRefine(w) && Live(w, c) && ChanOf(w, c).index.New?
    ensures ChanOf(w, c).fd !in w.loops[w.conns[c].loop].reg.channels
  {
    hide P.Refines;
    var reg := w.loops[w.conns[c].loop].reg;
    forall fd | fd in reg.channels ensures fd != ChanOf(w, c).fd {
      var d := reg.channels[fd];
      P.MapMember(reg, fd);
      assert w.conns[d].alive && w.conns[d].fd == fd;
    }
  }

  lemma TouchesTransitive(w: World, w1: World, w2: World, d: ConnId)
    requires Touches(w, w1, d) && Touches(w1, w2, d)
    ensures Touches(w, w2, d)
  {
  }

  /** State, callbacks and interest mask of one connection change together. */
  lemma RestateTouches(w: World, d: ConnId, state: C.State, events: P.Mask, cb: C.Callback)
    requires Structure(w) && Live(w, d)
    ensures SetInterest(SetState(w, d, state), d, events).Fine?
    ensures var w' := Note(SetInterest(SetState(w, d, state), d, events).value, d, cb);
      var ch := ChanOf(w, d);
      && Touches(w, w', d) && Live(w', d)
      && w'.conns[d] == w.conns[d].(state := state, callbacks := w.conns[d].callbacks + [cb])
      && ChanOf(w', d) == P.Chan(ch.fd, events, if ch.index.Added? && events == P.NO_EVENT then P.Deleted else P.Added, true)
  {
    hide Touches, RegsAgree, FdsOwned, MapAgrees, AllRefine;
    ConnTouches(w, d, state, w.conns[d].callbacks);
    var w1 := SetState(w, d, state);
    TouchStructure(w, w1, d);
    if ChanOf(w1, d).index.New? {
      FdFree(w1, d);
    }
    InterestTouches(w1, d, events);
    var w2 := SetInterest(w1, d, events).value;
    TouchStructure(w1, w2, d);
    ConnTouches(w2, d, state, w2.conns[d].callbacks + [cb]);
    TouchesTransitive(w, w1, w2, d);
    TouchesTransitive(w, w2, Note(w2, d, cb), d);
  }

  /** An owed functor is due. */
  lemma OwedIsDue(w: World, owed: Owed, f: Functor)
    requires Structure(w) && Queues(w, owed) && Stages(w, owed) && Refs(w, owed)
    requires OwedNow(owed, f) && !f.WriteComplete?
    ensures f.c in w.conns && Live(w, f.c) && Due(w, f) && ConnOk(w, owed, f.c) && Home(w, f) in w.loops
  {
    assert QueueOk(w, owed, Home(w, f), f);
  }

  lemma DownNotWaiting(w: World, c: ConnId)
    requires Actives(w) && c in w.conns && !IsUp(w.conns[c].state)
    ensures NotWaiting(w, c)
  {
    forall l, k | l in w.loops && w.loops[l].next <= k < |w.loops[l].active| ensures w.loops[l].active[k].c != c {
      assert LoopOk(w, l);
    }
  }

  lemma EstablishedInv(w: World, l: LoopId, c: ConnId, acts: seq<Act>)
    requires Inv(w, Owes(Establish(c))) && w.conns[c].loop == l
    ensures ConnectEstablished(w, l, c, acts).Fine? && Inv(ConnectEstablished(w, l, c, acts).value, Nothing)
  {
    hide Structure, Stages, Queues, Refs, Actives, Touches, SameObjects, UserActs;
    OwedIsDue(w, Owes(Establish(c)), Establish(c));
    var events := ChanOf(w, c).events.Or(P.READ_EVENT);
    RestateTouches(w, c, C.Connected, events, C.Up);
    var w1 := Note(SetInterest(SetState(w, c, C.Connected), c, events).value, c, C.Up);
    TouchSelf(w, w1, c);
    assert w.conns[c].callbacks + [] == [];
    assert w1.conns[c].callbacks + [] == [C.Up];
    TouchInv(w, Owes(Establish(c)), w1, Nothing, c);
    UserActsInv(w1, Nothing, l, acts);
  }

  // ----- closing -----

  lemma BeginCloseInv(w: World, l: LoopId, c: ConnId)
    requires Inv(w, Nothing) && Live(w, c) && w.conns[c].loop == l && IsUp(w.conns[c].state) && NotWaiting(w, c)
    ensures BeginClose(w, l, c).Fine?
    ensures var w' := BeginClose(w, l, c).value; Inv(w', Closing(c)) && SameObjects(w, w')
  {
    hide Structure, Stages, Queues, Refs, Actives, Touches, SameObjects;
    BaseIsLoop(w);
    UpOwesNothing(w, Nothing, c);
    RestateTouches(w, c, C.Disconnected, P.NO_EVENT, C.Down);
    var w1 := BeginClose(w, l, c).value;
    TouchSelf(w, w1, c);
    ClosingOrder(w.conns[c].state, w.conns[c].callbacks);
    TouchInv(w, Nothing, w1, Closing(c), c);
  }

  lemma ClosingOrder(state: C.State, callbacks: seq<C.Callback>)
    requires IsUp(state) && C.InOrder(state, callbacks + [])
    ensures C.InOrder(C.Disconnected, callbacks + [C.Down] + [C.Close])
  {
    assert callbacks + [] == callbacks;
    var all := callbacks + [C.Down] + [C.Close];
    assert all[|all| - 2..] == [C.Down, C.Close];
  }

  lemma EraseStages(w: World, c: ConnId)
    requires Stages(w, Owes(Remove(c))) && c in w.conns && Due(w, Remove(c))
    ensures Stages(w.(connections := w.connections - {w.conns[c].fd}), Owes(Destroy(c)))
  {
    var w' := w.(connections := w.connections - {w.conns[c].fd});
    forall d | d in w'.conns ensures ConnOk(w', Owes(Destroy(c)), d) {
      assert ConnOk(w, Owes(Remove(c)), d);
    }
  }

  lemma EraseQueues(w: World, c: ConnId)
    requires Queues(w, Owes(Remove(c))) && c in w.conns && Due(w, Remove(c)) && ConnOk(w, Owes(Remove(c)), c)
    ensures Queues(w.(connections := w.connections - {w.conns[c].fd}), Owes(Destroy(c)))
  {
    var w' := w.(connections := w.connections - {w.conns[c].fd});
    forall l, f: Functor | l in w'.loops && f.c in w'.conns && !f.WriteComplete?
      ensures QueueOk(w', Owes(Destroy(c)), l, f)
    {
      assert QueueOk(w, Owes(Remove(c)), l, f);
      assert f.c != c ==> InMap(w', f.c) == InMap(w, f.c);
    }
  }

  lemma EraseStructure(w: World, c: ConnId)
    requires Structure(w) && c in w.conns
    ensures Structure(w.(connections := w.connections - {w.conns[c].fd}))
  {
  }

  lemma EraseRest(w: World, c: ConnId)
    requires Actives(w) && Refs(w, Owes(Remove(c))) && c in w.conns
    ensures var w' := w.(connections := w.connections - {w.conns[c].fd}); Actives(w') && Refs(w', Owes(Destroy(c)))
  {
    var w' := w.(connections := w.connections - {w.conns[c].fd});
    forall l | l in w'.loops ensures LoopOk(w', l) {
      assert LoopOk(w, l);
    }
    forall m | m in w'.loops
      ensures AllAlive(w', m, w'.loops[m].done) && AllAlive(w', m, w'.loops[m].batch) && AllAlive(w', m, w'.loops[m].pending)
    {
      assert AllAlive(w, m, w.loops[m].done) && AllAlive(w, m, w.loops[m].batch) && AllAlive(w, m, w.loops[m].pending);
    }
  }

  lemma SameObjectsErased(w: World, w': World)
    requires w' == w.(connections := w'.connections)
    ensures SameObjects(w, w')
  {
  }

  lemma RemoveInLoopInv(w: World, l: LoopId, c: ConnId)
    requires Inv(w, Owes(Remove(c))) && l == w.base
    ensures RemoveConnectionInLoop(w, l, c).Fine?
    ensures var w' := RemoveConnectionInLoop(w, l, c).value; Inv(w', Nothing) && SameObjects(w, w')
  {
    hide Structure, Stages, Queues, Refs, Actives, SameObjects;
    OwedIsDue(w, Owes(Remove(c)), Remove(c));
    var w1 := w.(connections := w.connections - {w.conns[c].fd});
    EraseStages(w, c);
    EraseQueues(w, c);
    EraseStructure(w, c);
    EraseRest(w, c);
    OwedIsDue(w1, Owes(Destroy(c)), Destroy(c));
    PushInv(w1, Owes(Destroy(c)), Nothing, w.conns[c].loop, Destroy(c));
    SameObjectsErased(w, w1);
    SameObjectsTransitive(w, w1, RemoveConnectionInLoop(w, l, c).value);
  }

  lemma EndCloseInv(w: World, l: LoopId, c: ConnId)
    requires Inv(w, Closing(c))
    ensures EndClose(w, l, c).Fine?
    ensures var w' := EndClose(w, l, c).value; Inv(w', Nothing) && SameObjects(w, w')
  {
    hide Structure, Stages, Queues, Refs, Actives, Touches, SameObjects;
    OwedIsDue(w, Closing(c), Remove(c));
    BaseIsLoop(w);
    DownNotWaiting(w, c);
    ConnTouches(w, c, w.conns[c].state, w.conns[c].callbacks + [C.Close]);
    var w1 := Note(w, c, C.Close);
    TouchSelf(w, w1, c);
    assert w1.conns[c].callbacks + [] == w1.conns[c].callbacks;
    TouchInv(w, Closing(c), w1, Owes(Remove(c)), c);
    if l == w.base {
      RemoveInLoopInv(w1, l, c);
    } else {
      PushInv(w1, Owes(Remove(c)), Nothing, w.base, Remove(c));
    }
    SameObjectsTransitive(w, w1, EndClose(w, l, c).value);
  }

  lemma HandleCloseInv(w: World, l: LoopId, c: ConnId, acts: seq<Act>)
    requires Inv(w, Nothing) && Live(w, c) && w.conns[c].loop == l && IsUp(w.conns[c].state) && NotWaiting(w, c)
    ensures HandleClose(w, l, c, acts).Fine?
    ensures var w' := HandleClose(w, l, c, acts).value; Inv(w', Nothing) && SameObjects(w, w')
  {
    hide Inv, UserActs, BeginClose, EndClose;
    BeginCloseInv(w, l, c);
    var w1 := BeginClose(w, l, c).value;
    UserActsInv(w1, Closing(c), l, acts);
    var w2 := UserActs(w1, l, acts).value;
    EndCloseInv(w2, l, c);
    SameObjectsTransitive(w, w1, w2);
    SameObjectsTransitive(w, w2, EndClose(w2, l, c).value);
  }

  // ----- destroying -----

  lemma DestroyedInv(w: World, l: LoopId, c: ConnId, acts: seq<Act>)
    requires Inv(w, Owes(Destroy(c))) && w.conns[c].loop == l && !w.loops[l].phase.Dispatching?
    ensures ConnectDestroyed(w, l, c, acts).Fine? && Inv(ConnectDestroyed(w, l, c, acts).value, Nothing)
  {
    hide Structure, Stages, Queues, Refs, Actives, Touches, SameObjects, UserActs;
    OwedIsDue(w, Owes(Destroy(c)), Destroy(c));
    DownNotWaiting(w, c);
    DetachTouches(w, c);
    var w' := RemoveFromLoop(w, l, c).value;
    TouchSelf(w, w', c);
    TouchInv(w, Owes(Destroy(c)), w', Nothing, c);
  }

  lemma DetachTouches(w: World, c: ConnId)
    requires Structure(w) && Live(w, c) && !ChanOf(w, c).index.New? && ChanOf(w, c).events == P.NO_EVENT
    requires !w.loops[w.conns[c].loop].phase.Dispatching?
    ensures RemoveFromLoop(w, w.conns[c].loop, c).Fine?
    ensures var w' := RemoveFromLoop(w, w.conns[c].loop, c).value;
      && Touches(w, w', c) && w'.conns == w.conns && Live(w', c)
      && ChanOf(w', c) == P.Chan(ChanOf(w, c).fd, P.NO_EVENT, P.New, false)
  {
    hide P.Refines, P.Detach, FdsOwned, MapAgrees, Touches;
    var reg := w.loops[w.conns[c].loop].reg;
    assert forall l :: l in w.loops && l != w.conns[c].loop ==> c !in w.loops[l].reg.chans;
    P.DetachFineIff(reg, c);
    P.DetachRefines(reg, c);
    RegTouches(w, c, P.Detach(reg, c).value);
  }

  lemma LeaveFineIff(w: World, c: ConnId)
    requires Structure(w) && Live(w, c) && !w.loops[w.conns[c].loop].phase.Dispatching?
    ensures RemoveFromLoop(w, w.conns[c].loop, c).Fine? <==> !ChanOf(w, c).index.New? && ChanOf(w, c).events == P.NO_EVENT
  {
    hide P.Refines, P.Detach, RegsAgree, FdsOwned, MapAgrees;
    P.DetachFineIff(w.loops[w.conns[c].loop].reg, c);
  }

  /**
   * What destroying a connection out of turn, as the server's destructor does, would find: the assertions hold exactly
   * for a connection that is Connected, or Disconnected and still in its poller. One that is Connecting or has left is
   * not registered, one that is Disconnecting keeps its interest.
   */
  lemma DestroyFineIff(w: World, c: ConnId)
    requires Inv(w, Nothing) && Live(w, c) && !w.loops[w.conns[c].loop].phase.Dispatching?
    ensures ConnectDestroyed(w, w.conns[c].loop, c, []).Fine? <==>
      w.conns[c].state.Connected? || (w.conns[c].state.Disconnected? && !ChanOf(w, c).index.New?)
  {
    hide Structure, Stages, Queues, Refs, Actives, Touches, SameObjects, P.SetEvents, RemoveFromLoop;
    StageOf(w, Nothing, c);
    if w.conns[c].state.Connected? {
      RestateTouches(w, c, C.Disconnected, P.NO_EVENT, C.Down);
      var w1 := Note(SetInterest(SetState(w, c, C.Disconnected), c, P.NO_EVENT).value, c, C.Down);
      TouchStructure(w, w1, c);
      TouchSelf(w, w1, c);
      SamePhaseOf(w, w1, w.conns[c].loop);
      LeaveFineIff(w1, c);
    } else {
      LeaveFineIff(w, c);
    }
  }

  lemma SamePhaseOf(w: World, w': World, l: LoopId)
    requires SameObjects(w, w') && l in w.loops
    ensures l in w'.loops && w'.loops[l].phase == w.loops[l].phase
  {
  }

  // ----- a new connection -----

  lemma ConstructView(w: World, fd: int, io: LoopId, c: ConnId, d: ConnId)
    requires RegsAgree(w) && FdsOwned(w) && MapAgrees(w)
    requires io in w.loops && c !in w.conns && fd !in w.open && d in w.conns
    ensures SameView(w, Construct(w, fd, io, c), d)
  {
  }

  lemma ConstructRegs(w: World, fd: int, io: LoopId, c: ConnId)
    requires RegsAgree(w) && io in w.loops && c !in w.conns
    ensures RegsAgree(Construct(w, fd, io, c))
  {
  }

  lemma NewChannelRefines(reg: P.Registry<ConnId>, c: ConnId, fd: int)
    requires P.Refines(reg) && c !in reg.chans
    ensures P.Refines(reg.(chans := reg.chans[c := P.Chan(fd, P.NO_EVENT, P.New, false)]))
  {
  }

  lemma ConstructRefines(w: World, fd: int, io: LoopId, c: ConnId)
    requires AllRefine(w) && io in w.loops && c !in w.loops[io].reg.chans
    ensures AllRefine(Construct(w, fd, io, c))
  {
    hide P.Refines;
    NewChannelRefines(w.loops[io].reg, c, fd);
  }

  lemma ConstructFds(w: World, fd: int, io: LoopId, c: ConnId)
    requires FdsOwned(w) && MapAgrees(w) && io in w.loops && c !in w.conns && fd !in w.open
    ensures FdsOwned(Construct(w, fd, io, c)) && MapAgrees(Construct(w, fd, io, c))
  {
  }

  lemma ConstructStructure(w: World, fd: int, io: LoopId, c: ConnId)
    requires Structure(w) && io in w.loops && c !in w.conns && fd !in w.open
    ensures Structure(Construct(w, fd, io, c))
  {
    hide FdsOwned, MapAgrees, AllRefine;
    assert c !in w.loops[io].reg.chans;
    ConstructFds(w, fd, io, c);
    ConstructRegs(w, fd, io, c);
    ConstructRefines(w, fd, io, c);
  }

  lemma ConstructStages(w: World, fd: int, io: LoopId, c: ConnId)
    requires Structure(w) && Stages(w, Nothing) && io in w.loops && c !in w.conns && fd !in w.open
    ensures Stages(Construct(w, fd, io, c), Owes(Establish(c)))
  {
    hide RegsAgree, FdsOwned, MapAgrees, AllRefine;
    var w' := Construct(w, fd, io, c);
    forall d | d in w'.conns ensures ConnOk(w', Owes(Establish(c)), d) {
      if d == c {
        assert w'.conns[c].callbacks + [] == [];
      } else {
        ConstructView(w, fd, io, c, d);
        assert ConnOk(w, Nothing, d);
      }
    }
  }

  lemma NotMentioned(w: World, l: LoopId, f: Functor)
    requires l in w.loops && AllAlive(w, l, w.loops[l].batch) && AllAlive(w, l, w.loops[l].pending) && f.c !in w.conns
    ensures Count(w.loops[l], f) == 0
  {
    assert f !in w.loops[l].batch && f !in w.loops[l].pending;
  }

  lemma ConstructQueue(w: World, fd: int, io: LoopId, c: ConnId, l: LoopId, f: Functor)
    requires io in w.loops && c !in w.conns && l in w.loops && (f.c == c || f.c in w.conns) && !f.WriteComplete?
    requires if f.c == c then Count(w.loops[l], f) == 0
             else QueueOk(w, Nothing, l, f) && SameView(w, Construct(w, fd, io, c), f.c)
    ensures QueueOk(Construct(w, fd, io, c), Owes(Establish(c)), l, f)
  {
    assert Count(Construct(w, fd, io, c).loops[l], f) == Count(w.loops[l], f);
  }

  lemma ConstructQueues(w: World, fd: int, io: LoopId, c: ConnId)
    requires Structure(w) && Queues(w, Nothing) && Refs(w, Nothing) && io in w.loops && c !in w.conns && fd !in w.open
    ensures Queues(Construct(w, fd, io, c), Owes(Establish(c)))
  {
    hide RegsAgree, FdsOwned, MapAgrees, AllRefine, SameView, QueueOk, Count, AllAlive;
    var w' := Construct(w, fd, io, c);
    forall l, f: Functor | l in w'.loops && f.c in w'.conns && !f.WriteComplete?
      ensures QueueOk(w', Owes(Establish(c)), l, f)
    {
      if f.c == c {
        NotMentioned(w, l, f);
      } else {
        ConstructView(w, fd, io, c, f.c);
      }
      ConstructQueue(w, fd, io, c, l, f);
    }
  }

  lemma ConstructRest(w: World, fd: int, io: LoopId, c: ConnId)
    requires Actives(w) && Refs(w, Nothing) && io in w.loops && c !in w.conns
    ensures Actives(Construct(w, fd, io, c)) && Refs(Construct(w, fd, io, c), Owes(Establish(c)))
  {
    var w' := Construct(w, fd, io, c);
    forall l | l in w'.loops ensures LoopOk(w', l) {
      assert LoopOk(w, l);
    }
    forall m | m in w'.loops
      ensures AllAlive(w', m, w'.loops[m].done) && AllAlive(w', m, w'.loops[m].batch) && AllAlive(w', m, w'.loops[m].pending)
    {
      assert AllAlive(w, m, w.loops[m].done) && AllAlive(w, m, w.loops[m].batch) && AllAlive(w, m, w.loops[m].pending);
    }
  }

  lemma ConnectionsOpen(w: World)
    requires Structure(w)
    ensures w.base in w.loops && forall fd :: fd in w.connections ==> fd in w.open
  {
  }

  lemma NewConnectionInv(w: World, fd: int, io: LoopId, c: ConnId, acts: seq<Act>)
    requires Inv(w, Nothing) && io in w.loops && c !in w.conns && fd !in w.open
    ensures NewConnection(w, w.base, fd, io, c, acts).Fine?
    ensures Inv(NewConnection(w, w.base, fd, io, c, acts).value, Nothing)
  {
    hide Structure, Stages, Queues, Refs, Actives, SameObjects, ConnectEstablished;
    ConnectionsOpen(w);
    ConstructStructure(w, fd, io, c);
    ConstructStages(w, fd, io, c);
    ConstructQueues(w, fd, io, c);
    ConstructRest(w, fd, io, c);
    var w1 := Construct(w, fd, io, c);
    if io == w.base {
      EstablishedInv(w1, io, c, acts);
    } else {
      PushInv(w1, Owes(Establish(c)), Nothing, io, Establish(c));
    }
  }

  // ----- one event -----

  lemma HandleWriteInv(w: World, l: LoopId, c: ConnId, env: Env)
    requires Inv(w, Nothing) && Live(w, c) && w.conns[c].loop == l
    ensures HandleWrite(w, l, c, env).Fine? && Inv(HandleWrite(w, l, c, env).value, Nothing)
  {
    hide Structure, Stages, Queues, Refs, Actives, SameConns, SamePhases, SetInterest;
    StageOf(w, Nothing, c);
    var events := ChanOf(w, c).events;
    if events.Has(P.WRITE_EVENT) && env.drains {
      assert IsUp(w.conns[c].state);
      InterestInv(w, Nothing, c, events.Without(P.WRITE_EVENT));
      var w1 := SetInterest(w, c, events.Without(P.WRITE_EVENT)).value;
      StillLive(w, w1, c);
      PushInv(w1, Nothing, Nothing, l, WriteComplete(c));
    }
  }

  lemma StageOf(w: World, owed: Owed, c: ConnId)
    requires Stages(w, owed) && c in w.conns
    ensures ConnOk(w, owed, c)
  {
  }

  lemma StillLive(w: World, w': World, c: ConnId)
    requires Live(w, c) && Structure(w') && SameObjects(w, w')
    ensures Live(w', c) && w'.conns[c].loop == w.conns[c].loop
  {
  }

  lemma HandleReadInv(w: World, l: LoopId, c: ConnId, env: Env)
    requires Inv(w, Nothing) && Live(w, c) && w.conns[c].loop == l && IsUp(w.conns[c].state) && NotWaiting(w, c)
    requires env.fits
    ensures HandleRead(w, l, c, env).Fine?
    ensures var w' := HandleRead(w, l, c, env).value; Inv(w', Nothing) && SameObjects(w, w')
  {
    SameObjectsReflexive(w);
    hide Inv, UserActs, HandleClose, SameObjects, NotWaiting;
    match env.read
    case Data =>
      MessageInv(w, Nothing, c);
      var w1 := Note(w, c, C.Message);
      LoopsOf(w, w1);
      UserActsInv(w1, Nothing, l, env.acts);
      SameObjectsTransitive(w, w1, UserActs(w1, l, env.acts).value);
    case EndOfStream => HandleCloseInv(w, l, c, env.acts);
    case ReadError =>
  }

  lemma SameObjectsReflexive(w: World)
    ensures SameObjects(w, w)
  {
  }

  lemma LoopsOf(w: World, w': World)
    requires SameObjects(w, w')
    ensures w'.loops.Keys == w.loops.Keys && w'.base == w.base
  {
  }

  lemma InvStructure(w: World, owed: Owed)
    requires Inv(w, owed)
    ensures Structure(w)
  {
  }

  lemma HandleEventInv(w: World, l: LoopId, c: ConnId, mask: P.Mask, env: Env)
    requires Inv(w, Nothing) && Live(w, c) && w.conns[c].loop == l && IsUp(w.conns[c].state) && NotWaiting(w, c)
    requires !C.ClosesAndReads(mask) && (C.ReadsNow(mask) ==> env.fits)
    ensures HandleEvent(w, l, c, mask, env).Fine? && Inv(HandleEvent(w, l, c, mask, env).value, Nothing)
  {
    hide Inv, HandleClose, HandleRead, HandleWrite, SameObjects;
    var w2 := w;
    if mask.Has(P.EPOLLHUP) && !mask.Has(P.EPOLLIN) {
      HandleCloseInv(w, l, c, env.acts);
      w2 := HandleClose(w, l, c, env.acts).value;
      InvStructure(w2, Nothing);
      StillLive(w, w2, c);
    } else if C.ReadsNow(mask) {
      HandleReadInv(w, l, c, env);
      w2 := HandleRead(w, l, c, env).value;
      InvStructure(w2, Nothing);
      StillLive(w, w2, c);
    }
    HandleWriteInv(w2, l, c, env);
  }

  /** After a close nothing of the connection is wanted by the poller any more. */
  lemma ClosedIsSilent(w: World, c: ConnId)
    requires Inv(w, Nothing) && Live(w, c) && w.conns[c].state.Disconnected?
    ensures ChanOf(w, c).events == P.NO_EVENT
  {
    assert ConnOk(w, Nothing, c);
  }

  /** User code leaves a connection that is down alone, and never looks at the callbacks it has seen. */
  lemma ActAfterNote(w: World, l: LoopId, act: Act, c: ConnId, cb: C.Callback)
    requires UserAct(w, l, act).Fine? && c in w.conns && w.conns[c].state.Disconnected?
    ensures var w' := UserAct(w, l, act).value;
      c in w'.conns && w'.conns[c] == w.conns[c] && UserAct(Note(w, c, cb), l, act) == Fine(Note(w', c, cb))
  {
    hide P.SetEvents;
    var w', n := UserAct(w, l, act).value, Note(w, c, cb);
    assert Live(n, act.d) == Live(w, act.d);
    if Live(w, act.d) && w.conns[act.d].loop == l && w.conns[act.d].state.Connected? {
      assert act.d != c && n.conns[act.d] == w.conns[act.d];
      assert Note(w', c, cb).conns == UserAct(n, l, act).value.conns;
    }
  }

  lemma {:induction false} ActsAfterNote(w: World, l: LoopId, acts: seq<Act>, c: ConnId, cb: C.Callback)
    requires UserActs(w, l, acts).Fine? && c in w.conns && w.conns[c].state.Disconnected?
    ensures var w' := UserActs(w, l, acts).value;
      c in w'.conns && w'.conns[c] == w.conns[c] && UserActs(Note(w, c, cb), l, acts) == Fine(Note(w', c, cb))
    decreases |acts|
  {
    hide UserAct, Note;
    if acts != [] {
      ActAfterNote(w, l, acts[0], c, cb);
      ActsAfterNote(UserAct(w, l, acts[0]).value, l, acts[1..], c, cb);
    }
  }

  lemma BeginCloseIsDown(w: World, l: LoopId, c: ConnId)
    requires BeginClose(w, l, c).Fine?
    ensures var w' := BeginClose(w, l, c).value; c in w'.conns && w'.conns[c].state.Disconnected?
  {
    hide P.SetEvents;
  }

  lemma EndCloseStaysDown(w: World, l: LoopId, c: ConnId)
    requires EndClose(w, l, c).Fine? && c in w.conns
    ensures var w' := EndClose(w, l, c).value; c in w'.conns && w'.conns[c].state == w.conns[c].state
  {
  }

  lemma HandleCloseIsDown(w: World, l: LoopId, c: ConnId, acts: seq<Act>)
    requires HandleClose(w, l, c, acts).Fine?
    ensures var w' := HandleClose(w, l, c, acts).value; c in w'.conns && w'.conns[c].state.Disconnected?
  {
    hide BeginClose, UserActs, EndClose;
    var w1 := BeginClose(w, l, c).value;
    BeginCloseIsDown(w, l, c);
    ActsAfterNote(w1, l, acts, c, C.Close);
    EndCloseStaysDown(UserActs(w1, l, acts).value, l, c);
  }

  /**
   * Whatever the callbacks do, handling a mask fails exactly when it reads and the read does not fit, or it closes and
   * reads and meets end of stream.
   */
  lemma HandleEventFaultIff(w: World, l: LoopId, c: ConnId, mask: P.Mask, env: Env)
    requires Inv(w, Nothing) && Live(w, c) && w.conns[c].loop == l && IsUp(w.conns[c].state) && NotWaiting(w, c)
    ensures HandleEvent(w, l, c, mask, env).Fault? <==>
      && (mask.input || mask.urgent || mask.peerClosed)
      && (!env.fits || (mask.hangUp && !mask.input && env.read.EndOfStream?))
  {
    hide Inv, SameObjects, HandleClose, HandleRead, HandleWrite, NotWaiting;
    if C.ReadsNow(mask) && !env.fits {
      ReadNeedsRoom(w, l, c, mask, env);
    } else if !C.ClosesAndReads(mask) {
      HandleEventInv(w, l, c, mask, env);
    } else {
      HandleCloseInv(w, l, c, env.acts);
      HandleCloseIsDown(w, l, c, env.acts);
      var w1 := HandleClose(w, l, c, env.acts).value;
      InvStructure(w1, Nothing);
      StillLive(w, w1, c);
      ReadAfterClose(w1, l, c, env);
    }
  }

  /** A connection without write interest is not written to. */
  lemma SilentWrite(w: World, l: LoopId, c: ConnId, env: Env)
    requires Live(w, c) && w.conns[c].loop == l && ChanOf(w, c).events == P.NO_EVENT
    ensures HandleWrite(w, l, c, env).Fine?
  {
  }

  lemma DownCannotClose(w: World, l: LoopId, c: ConnId, acts: seq<Act>)
    requires Live(w, c) && w.conns[c].state.Disconnected?
    ensures HandleClose(w, l, c, acts).Fault?
  {
  }

  lemma ReadNeedsRoom(w: World, l: LoopId, c: ConnId, mask: P.Mask, env: Env)
    requires C.ReadsNow(mask) && !env.fits
    ensures HandleEvent(w, l, c, mask, env).Fault?
  {
    hide HandleClose, HandleWrite;
  }

  lemma ReadAfterClose(w: World, l: LoopId, c: ConnId, env: Env)
    requires Inv(w, Nothing) && Live(w, c) && w.conns[c].loop == l && w.conns[c].state.Disconnected? && env.fits
    ensures HandleRead(w, l, c, env).Fault? <==> env.read.EndOfStream?
    ensures HandleRead(w, l, c, env).Fine? ==> HandleWrite(HandleRead(w, l, c, env).value, l, c, env).Fine?
  {
    hide Inv, UserActs, HandleClose, HandleWrite, SameObjects;
    match env.read
    case EndOfStream => DownCannotClose(w, l, c, env.acts);
    case Data =>
      UserActsInv(w, Nothing, l, env.acts);
      var w1 := UserActs(w, l, env.acts).value;
      ActsAfterNote(w, l, env.acts, c, C.Message);
      InvStructure(w1, Nothing);
      StillLive(w, w1, c);
      ClosedIsSilent(w1, c);
      SilentWrite(Note(w1, c, C.Message), l, c, env);
    case ReadError =>
      ClosedIsSilent(w, c);
      SilentWrite(w, l, c, env);
  }

  // ----- a loop moves on in its round -----

  /** One loop changes its place, its active list or its list of called functors, but not what it still has to call. */
  ghost predicate Moves(w: World, w': World, l: LoopId)
  {
    && l in w.loops && l in w'.loops && w' == WithLoop(w, l, w'.loops[l])
    && w'.loops[l].reg == w.loops[l].reg
  }

  lemma MovesView(w: World, w': World, l: LoopId)
    requires l in w.loops && l in w'.loops && Moves(w, w', l)
    ensures w'.conns == w.conns && w'.loops.Keys == w.loops.Keys
    ensures forall m :: m in w.loops ==> w'.loops[m].reg == w.loops[m].reg
    ensures forall m :: m in w.loops && m != l ==> w'.loops[m] == w.loops[m]
    ensures forall c :: c in w.conns ==> SameView(w, w', c)
  {
  }

  lemma MoveRegs(w: World, w': World, l: LoopId)
    requires l in w.loops && l in w'.loops && RegsAgree(w) && AllRefine(w) && Moves(w, w', l)
    ensures RegsAgree(w') && AllRefine(w')
  {
    hide P.Refines, Moves, SameView, RegsAgree;
    MovesView(w, w', l);
    SameRegsAgree(w, w');
  }

  lemma SameRegsAgree(w: World, w': World)
    requires RegsAgree(w) && w'.conns == w.conns && w'.loops.Keys == w.loops.Keys
    requires forall m :: m in w.loops ==> w'.loops[m].reg == w.loops[m].reg
    ensures RegsAgree(w')
  {
    forall m, c | m in w'.loops && c in w'.loops[m].reg.chans
      ensures c in w'.conns && w'.conns[c].alive && w'.conns[c].loop == m && w'.loops[m].reg.chans[c].fd == w'.conns[c].fd
    {
      assert c in w.loops[m].reg.chans;
    }
  }

  lemma MoveStructure(w: World, w': World, l: LoopId)
    requires l in w.loops && l in w'.loops && Structure(w) && Moves(w, w', l)
    ensures Structure(w')
  {
    hide RegsAgree, AllRefine;
    MoveRegs(w, w', l);
  }

  lemma MoveStages(w: World, owed: Owed, w': World, owed': Owed, l: LoopId)
    requires l in w.loops && l in w'.loops && Stages(w, owed) && Moves(w, w', l)
    requires forall c :: (owed == Closing(c)) == (owed' == Closing(c))
    ensures Stages(w', owed')
  {
    MovesView(w, w', l);
    forall c | c in w'.conns ensures ConnOk(w', owed', c) {
      assert SameView(w, w', c) && ConnOk(w, owed, c);
    }
  }

  lemma MoveActives(w: World, w': World, l: LoopId)
    requires l in w.loops && l in w'.loops && Actives(w) && Moves(w, w', l) && LoopOk(w', l)
    ensures Actives(w')
  {
    MovesView(w, w', l);
    forall m | m in w'.loops ensures LoopOk(w', m) {
      if m != l {
        assert LoopOk(w, m);
      }
    }
  }

  lemma MoveRefs(w: World, owed: Owed, w': World, owed': Owed, l: LoopId)
    requires l in w.loops && l in w'.loops && Refs(w, owed) && Moves(w, w', l)
    requires AllAlive(w, l, w'.loops[l].done) && AllAlive(w, l, w'.loops[l].batch) && AllAlive(w, l, w'.loops[l].pending)
    requires owed'.Nothing? || (owed'.Owes? && AllAlive(w, l, [owed'.f]) && !owed'.f.WriteComplete?)
    ensures Refs(w', owed')
  {
    MovesView(w, w', l);
    assert owed'.Owes? ==> [owed'.f][0].c in w.conns;
    forall m | m in w'.loops
      ensures AllAlive(w', m, w'.loops[m].done) && AllAlive(w', m, w'.loops[m].batch) && AllAlive(w', m, w'.loops[m].pending)
    {
      if m != l {
        assert AllAlive(w, m, w.loops[m].done) && AllAlive(w, m, w.loops[m].batch) && AllAlive(w, m, w.loops[m].pending);
      }
    }
  }

  lemma MoveQueue(w: World, owed: Owed, w': World, owed': Owed, m: LoopId, f: Functor)
    requires m in w.loops && m in w'.loops && f.c in w.conns && f.c in w'.conns && w'.base == w.base && SameView(w, w', f.c)
    requires QueueOk(w, owed, m, f)
    requires Count(w'.loops[m], f) + Bit(m == Home(w, f) && OwedNow(owed', f))
      == Count(w.loops[m], f) + Bit(m == Home(w, f) && OwedNow(owed, f))
    ensures QueueOk(w', owed', m, f)
  {
    hide Count;
  }

  lemma MoveQueues(w: World, owed: Owed, w': World, owed': Owed, l: LoopId)
    requires l in w.loops && l in w'.loops && Queues(w, owed) && Moves(w, w', l)
    requires forall f: Functor :: f.c in w.conns && !f.WriteComplete? ==>
      Count(w'.loops[l], f) + Bit(l == Home(w, f) && OwedNow(owed', f))
        == Count(w.loops[l], f) + Bit(l == Home(w, f) && OwedNow(owed, f))
    requires forall f: Functor :: f.c in w.conns && l != Home(w, f) ==> OwedNow(owed, f) == OwedNow(owed', f)
    ensures Queues(w', owed')
  {
    MovesView(w, w', l);
    hide QueueOk, SameView, Count, OwedNow;
    forall m, f: Functor | m in w'.loops && f.c in w'.conns && !f.WriteComplete? ensures QueueOk(w', owed', m, f) {
      MoveQueue(w, owed, w', owed', m, f);
    }
  }

  /** A move that keeps what is still to be called. */
  lemma MoveInv(w: World, w': World, l: LoopId)
    requires l in w.loops && l in w'.loops && Inv(w, Nothing) && Moves(w, w', l) && LoopOk(w', l)
    requires AllAlive(w, l, w'.loops[l].done) && AllAlive(w, l, w'.loops[l].batch) && AllAlive(w, l, w'.loops[l].pending)
    requires forall f :: Count(w'.loops[l], f) == Count(w.loops[l], f)
    ensures Inv(w', Nothing)
  {
    hide Structure, Stages, Queues, Refs, Actives, Moves;
    MoveStructure(w, w', l);
    MoveStages(w, Nothing, w', Nothing, l);
    MoveActives(w, w', l);
    MoveRefs(w, Nothing, w', Nothing, l);
    MoveQueues(w, Nothing, w', Nothing, l);
  }

  lemma LoopFacts(w: World, owed: Owed, l: LoopId)
    requires Actives(w) && Refs(w, owed) && l in w.loops
    ensures LoopOk(w, l)
    ensures AllAlive(w, l, w.loops[l].done) && AllAlive(w, l, w.loops[l].batch) && AllAlive(w, l, w.loops[l].pending)
  {
  }

  // ----- calling a functor -----

  lemma PopCount(lp: Loop, f: Functor)
    requires lp.batch != []
    ensures Count(lp.(batch := lp.batch[1..], done := lp.done + [lp.batch[0]]), f) + Bit(f == lp.batch[0]) == Count(lp, f)
  {
    assert lp.batch == [lp.batch[0]] + lp.batch[1..];
  }

  function Popped(w: World, l: LoopId): World
    requires l in w.loops && w.loops[l].batch != []
  {
    var lp := w.loops[l];
    WithLoop(w, l, lp.(batch := lp.batch[1..], done := lp.done + [lp.batch[0]]))
  }

  function Duty(f: Functor): Owed { if f.WriteComplete? then Nothing else Owes(f) }

  lemma PopHome(w: World, l: LoopId)
    requires Queues(w, Nothing) && Refs(w, Nothing) && l in w.loops && w.loops[l].batch != []
    ensures var f := w.loops[l].batch[0]; f.c in w.conns && w.conns[f.c].alive && (!f.WriteComplete? ==> Home(w, f) == l)
  {
    var f := w.loops[l].batch[0];
    assert AllAlive(w, l, w.loops[l].batch);
    if !f.WriteComplete? {
      assert QueueOk(w, Nothing, l, f);
      assert f in w.loops[l].batch;
    }
  }

  lemma PopQueues(w: World, l: LoopId)
    requires Queues(w, Nothing) && Refs(w, Nothing) && l in w.loops && w.loops[l].batch != []
    ensures Queues(Popped(w, l), Duty(w.loops[l].batch[0]))
  {
    var w', f0 := Popped(w, l), w.loops[l].batch[0];
    PopHome(w, l);
    hide Queues, Refs, Count;
    forall f: Functor | f.c in w.conns && !f.WriteComplete?
      ensures Count(w'.loops[l], f) + Bit(l == Home(w, f) && OwedNow(Duty(f0), f))
        == Count(w.loops[l], f) + Bit(l == Home(w, f) && OwedNow(Nothing, f))
    {
      PopCount(w.loops[l], f);
    }
    MoveQueues(w, Nothing, w', Duty(f0), l);
  }

  lemma PopFacts(w: World, l: LoopId)
    requires Actives(w) && Refs(w, Nothing) && l in w.loops && w.loops[l].phase.Calling? && w.loops[l].batch != []
    ensures var w' := Popped(w, l);
      && LoopOk(w', l) && Moves(w, w', l) && AllAlive(w, l, [w.loops[l].batch[0]])
      && AllAlive(w, l, w'.loops[l].done) && AllAlive(w, l, w'.loops[l].batch) && AllAlive(w, l, w'.loops[l].pending)
  {
    LoopFacts(w, Nothing, l);
  }

  lemma PopInv(w: World, l: LoopId)
    requires Inv(w, Nothing) && l in w.loops && w.loops[l].phase.Calling? && w.loops[l].batch != []
    ensures Inv(Popped(w, l), Duty(w.loops[l].batch[0]))
  {
    hide Structure, Stages, Queues, Refs, Actives, AllAlive, LoopOk;
    var w', f := Popped(w, l), w.loops[l].batch[0];
    PopFacts(w, l);
    PopQueues(w, l);
    MoveStructure(w, w', l);
    MoveStages(w, Nothing, w', Duty(f), l);
    MoveActives(w, w', l);
    MoveRefs(w, Nothing, w', Duty(f), l);
  }

  lemma CallNextInv(w: World, l: LoopId, acts: seq<Act>)
    requires Inv(w, Nothing) && l in w.loops && w.loops[l].phase.Calling? && w.loops[l].batch != []
    ensures var r := CallFunctor(Popped(w, l), l, w.loops[l].batch[0], acts); r.Fine? && Inv(r.value, Nothing)
  {
    hide Structure, Stages, Queues, Refs, Actives, SameObjects, UserActs, ConnectEstablished, ConnectDestroyed,
         RemoveConnectionInLoop;
    PopHome(w, l);
    PopInv(w, l);
    var w' := Popped(w, l);
    match w.loops[l].batch[0]
    case Establish(c) => EstablishedInv(w', l, c, acts);
    case Remove(c) => RemoveInLoopInv(w', l, c);
    case Destroy(c) => DestroyedInv(w', l, c, acts);
    case WriteComplete(c) =>
      AliveIsLive(w', c);
      UserActsInv(w', Nothing, l, acts);
  }

  lemma AliveIsLive(w: World, c: ConnId)
    requires Structure(w) && c in w.conns && w.conns[c].alive
    ensures Live(w, c)
  {
  }

  // ----- the other moves -----

  lemma ReadyIsUp(w: World, l: LoopId, c: ConnId, fd: int)
    requires RegsAgree(w) && AllRefine(w) && Stages(w, Nothing) && l in w.loops
    requires fd in w.loops[l].reg.kernel && w.loops[l].reg.kernel[fd].owner == c
    ensures c in w.conns && w.conns[c].alive && w.conns[c].loop == l && IsUp(w.conns[c].state)
    ensures fd in w.loops[l].reg.channels && w.loops[l].reg.channels[fd] == c
  {
    var reg := w.loops[l].reg;
    assert P.Refines(reg);
    assert c in reg.chans && reg.chans[c].index.Added?;
    assert ConnOk(w, Nothing, c);
  }

  lemma PollFacts(w: World, l: LoopId, ready: seq<Ready>)
    requires RegsAgree(w) && AllRefine(w) && Stages(w, Nothing) && l in w.loops && Reportable(w.loops[l].reg, ready)
    ensures InPollerMap(w.loops[l].reg, ready)
    ensures forall k :: 0 <= k < |ready| ==>
      && ready[k].c in w.conns && w.conns[ready[k].c].alive && w.conns[ready[k].c].loop == l
      && IsUp(w.conns[ready[k].c].state)
  {
    hide RegsAgree, AllRefine, Stages;
    forall k | 0 <= k < |ready|
      ensures Registered(w.loops[l].reg, ready[k].c)
      ensures ready[k].c in w.conns && w.conns[ready[k].c].alive && w.conns[ready[k].c].loop == l
      ensures IsUp(w.conns[ready[k].c].state)
    {
      assert InKernel(w.loops[l].reg, ready[k].c);
      var fd :| fd in w.loops[l].reg.kernel && w.loops[l].reg.kernel[fd].owner == ready[k].c;
      ReadyIsUp(w, l, ready[k].c, fd);
    }
  }

  lemma PollInv(w: World, l: LoopId, ready: seq<Ready>)
    requires Inv(w, Nothing) && Enabled(w, PollReturns(l, ready))
    ensures var r := Perform(w, PollReturns(l, ready)); r.Fine? && Inv(r.value, Nothing)
  {
    hide RegsAgree, FdsOwned, MapAgrees, AllRefine, Stages, Queues, Refs, Actives, AllAlive, InPollerMap;
    LoopFacts(w, Nothing, l);
    PollFacts(w, l, ready);
    MoveInv(w, WithLoop(w, l, w.loops[l].(phase := Dispatching, active := ready, next := 0)), l);
  }

  lemma EndDispatchInv(w: World, l: LoopId)
    requires Inv(w, Nothing) && Enabled(w, EndDispatch(l))
    ensures Inv(Perform(w, EndDispatch(l)).value, Nothing)
  {
    hide Structure, Stages, Queues, Refs, Actives, NewConnection, HandleEvent, CallFunctor;
    LoopFacts(w, Nothing, l);
    var w' := Perform(w, EndDispatch(l)).value;
    MoveInv(w, w', l);
  }

  lemma EndBatchInv(w: World, l: LoopId)
    requires Inv(w, Nothing) && Enabled(w, EndBatch(l))
    ensures Inv(Perform(w, EndBatch(l)).value, Nothing)
  {
    hide Structure, Stages, Queues, Refs, Actives, NewConnection, HandleEvent, CallFunctor;
    LoopFacts(w, Nothing, l);
    var w' := Perform(w, EndBatch(l)).value;
    MoveInv(w, w', l);
  }

  lemma NextFacts(w: World, l: LoopId)
    requires Actives(w) && l in w.loops && w.loops[l].phase.Dispatching? && w.loops[l].next < |w.loops[l].active|
    ensures LoopOk(WithLoop(w, l, w.loops[l].(next := w.loops[l].next + 1)), l)
    ensures var ready := w.loops[l].active[w.loops[l].next];
      && ready.c in w.conns && w.conns[ready.c].alive && w.conns[ready.c].loop == l && IsUp(w.conns[ready.c].state)
      && !C.ClosesAndReads(ready.mask)
  {
    assert LoopOk(w, l);
  }

  lemma HandleNextInv(w: World, l: LoopId, env: Env)
    requires Inv(w, Nothing) && Enabled(w, HandleNext(l, env))
    ensures Perform(w, HandleNext(l, env)).Fine? && Inv(Perform(w, HandleNext(l, env)).value, Nothing)
  {
    hide Structure, Stages, Queues, Refs, Actives, AllAlive, LoopOk, HandleEvent, NotWaiting;
    var lp := w.loops[l];
    var w1 := WithLoop(w, l, lp.(next := lp.next + 1));
    var ready := lp.active[lp.next];
    NextFacts(w, l);
    OnlyOnce(w, l);
    LoopFacts(w, Nothing, l);
    MoveInv(w, w1, l);
    AliveIsLive(w1, ready.c);
    HandleEventInv(w1, l, ready.c, ready.mask, env);
  }

  /** Once handed out, a connection is on no loop's list any more. */
  lemma OnlyOnce(w: World, l: LoopId)
    requires Actives(w) && l in w.loops && w.loops[l].next < |w.loops[l].active|
    ensures NotWaiting(WithLoop(w, l, w.loops[l].(next := w.loops[l].next + 1)), w.loops[l].active[w.loops[l].next].c)
  {
    var w1 := WithLoop(w, l, w.loops[l].(next := w.loops[l].next + 1));
    var c := w.loops[l].active[w.loops[l].next].c;
    assert LoopOk(w, l);
    forall m, k | m in w1.loops && w1.loops[m].next <= k < |w1.loops[m].active| ensures w1.loops[m].active[k].c != c {
      assert LoopOk(w, m);
    }
  }

  // ----- references and descriptors outside the server -----

  lemma OutsideRest(w: World, w': World)
    requires Actives(w) && Refs(w, Nothing) && w' == w.(held := w'.held, open := w'.open)
    ensures Actives(w') && Refs(w', Nothing)
  {
    forall l | l in w'.loops ensures LoopOk(w', l) {
      assert LoopOk(w, l);
    }
    forall m | m in w'.loops
      ensures AllAlive(w', m, w'.loops[m].done) && AllAlive(w', m, w'.loops[m].batch) && AllAlive(w', m, w'.loops[m].pending)
    {
      assert AllAlive(w, m, w.loops[m].done) && AllAlive(w, m, w.loops[m].batch) && AllAlive(w, m, w.loops[m].pending);
    }
  }

  lemma OutsideStages(w: World, w': World)
    requires Stages(w, Nothing) && Queues(w, Nothing) && w' == w.(held := w'.held, open := w'.open)
    ensures Stages(w', Nothing) && Queues(w', Nothing)
  {
    forall c | c in w'.conns ensures ConnOk(w', Nothing, c) {
      assert ConnOk(w, Nothing, c);
    }
    forall l, f: Functor | l in w'.loops && f.c in w'.conns && !f.WriteComplete? ensures QueueOk(w', Nothing, l, f) {
      assert QueueOk(w, Nothing, l, f);
    }
  }

  lemma OutsideStructure(w: World, w': World)
    requires Structure(w) && w' == w.(held := w'.held, open := w'.open)
    requires forall c :: c in w'.held ==> c in w.conns && w.conns[c].alive
    requires forall c :: c in w.conns && w.conns[c].alive ==> w.conns[c].fd in w'.open
    ensures Structure(w')
  {
  }

  /** Only user pointers and descriptors of others change. */
  lemma OutsideInv(w: World, w': World)
    requires Inv(w, Nothing) && w' == w.(held := w'.held, open := w'.open)
    requires forall c :: c in w'.held ==> c in w.conns && w.conns[c].alive
    requires forall c :: c in w.conns && w.conns[c].alive ==> w.conns[c].fd in w'.open
    ensures Inv(w', Nothing)
  {
    hide Structure, Stages, Queues, Refs, Actives;
    OutsideStructure(w, w');
    OutsideStages(w, w');
    OutsideRest(w, w');
  }

  lemma OutsideFacts(w: World)
    requires Structure(w)
    ensures forall c :: c in w.held ==> c in w.conns && w.conns[c].alive
    ensures forall c :: c in w.conns && w.conns[c].alive ==> w.conns[c].fd in w.open
  {
  }

  lemma OutsideStepInv(w: World, step: Step)
    requires Inv(w, Nothing) && Enabled(w, step)
    requires step.Hold? || step.Release? || step.OpenOther? || step.CloseOther?
    ensures Perform(w, step).Fine? && Inv(Perform(w, step).value, Nothing)
  {
    hide Inv, Structure;
    InvStructure(w, Nothing);
    OutsideFacts(w);
    OutsideInv(w, Perform(w, step).value);
  }

  lemma PerformInv(w: World, step: Step)
    requires Inv(w, Nothing) && Enabled(w, step)
    ensures Perform(w, step).Fine? && Inv(Perform(w, step).value, Nothing)
  {
    match step
    case PollReturns(l, ready) =>
      hide Inv;
      PollInv(w, l, ready);
    case Accept(fd, io, c, acts) =>
      hide Inv, NewConnection;
      NewConnectionInv(w, fd, io, c, acts);
    case HandleNext(l, env) =>
      hide Inv, HandleEvent;
      HandleNextInv(w, l, env);
    case EndDispatch(l) =>
      hide Inv;
      EndDispatchInv(w, l);
    case CallNext(l, acts) =>
      hide Inv, CallFunctor;
      CallNextInv(w, l, acts);
    case EndBatch(l) =>
      hide Inv;
      EndBatchInv(w, l);
    case _ =>
      hide Inv;
      OutsideStepInv(w, step);
  }

  // ----- the end of objects -----

  /** Whatever has duties ahead of it is referenced, so only a fully removed connection can expire. */
  lemma ExpiredIsRemoved(w: World, c: ConnId)
    requires Inv(w, Nothing) && Expires(w, c)
    ensures Live(w, c) && w.conns[c].state.Disconnected? && !InMap(w, c) && ChanOf(w, c).index.New?
    ensures !ChanOf(w, c).addedToLoop
  {
    hide Structure, Refs, Actives;
    AliveIsLive(w, c);
    BaseIsLoop(w);
    assert ConnOk(w, Nothing, c);
    assert !InMap(w, c);
    if !ChanOf(w, c).index.New? {
      var l := w.conns[c].loop;
      assert QueueOk(w, Nothing, l, Destroy(c));
      DueIsQueued(w.loops[l], Destroy(c));
    }
  }

  lemma DueIsQueued(lp: Loop, f: Functor)
    requires Count(lp, f) == 1
    ensures Queued(lp, f.c)
  {
    if f in multiset(lp.batch) {
      assert f in lp.batch;
      var k :| 0 <= k < |lp.batch| && lp.batch[k] == f;
      assert Mentions(lp.batch, f.c);
    } else {
      assert f in lp.pending;
      var k :| 0 <= k < |lp.pending| && lp.pending[k] == f;
      assert Mentions(lp.pending, f.c);
    }
  }

  lemma ExpiredMayEnd(w: World, c: ConnId)
    requires Inv(w, Nothing) && Expires(w, c)
    ensures MayEnd(w, c)
  {
    ExpiredIsRemoved(w, c);
    hide Stages, Queues, Refs, Actives, RegsAgree, FdsOwned, MapAgrees;
    assert P.Refines(w.loops[w.conns[c].loop].reg);
  }

  /** What the destructors find, and all that the invariant needs to know about the objects that end. */
  ghost predicate Ends(w: World, dead: set<ConnId>)
  {
    && (forall c :: c in dead ==> Live(w, c) && w.conns[c].state.Disconnected? && !InMap(w, c) && ChanOf(w, c).index.New?)
    && (forall c :: c in dead ==> !Referenced(w, c))
  }

  ghost function Reaped(w: World, dead: set<ConnId>): World
    requires dead <= w.conns.Keys
  {
    w.(conns := map c | c in w.conns :: if c in dead then w.conns[c].(alive := false) else w.conns[c],
       loops := map l | l in w.loops :: w.loops[l].(reg := w.loops[l].reg.(chans := w.loops[l].reg.chans - dead)),
       open := w.open - set c | c in dead :: w.conns[c].fd)
  }

  lemma ReapView(w: World, dead: set<ConnId>, c: ConnId)
    requires dead <= w.conns.Keys && c in w.conns && c !in dead
    ensures SameView(w, Reaped(w, dead), c)
  {
  }

  lemma DropRefines(reg: P.Registry<ConnId>, dead: set<ConnId>)
    requires P.Refines(reg) && forall c :: c in dead && c in reg.chans ==> reg.chans[c].index.New?
    ensures P.Refines(reg.(chans := reg.chans - dead))
  {
  }

  lemma ReapRegs(w: World, dead: set<ConnId>)
    requires RegsAgree(w) && AllRefine(w) && dead <= w.conns.Keys && Ends(w, dead)
    ensures RegsAgree(Reaped(w, dead)) && AllRefine(Reaped(w, dead))
  {
    hide P.Refines;
    var w' := Reaped(w, dead);
    forall l | l in w'.loops ensures P.Refines(w'.loops[l].reg) {
      DropRefines(w.loops[l].reg, dead);
    }
  }

  lemma ReapFds(w: World, dead: set<ConnId>)
    requires FdsOwned(w) && dead <= w.conns.Keys && (forall c :: c in dead ==> w.conns[c].alive)
    ensures FdsOwned(Reaped(w, dead))
  {
  }

  lemma ReapMap(w: World, dead: set<ConnId>)
    requires MapAgrees(w) && dead <= w.conns.Keys && (forall c :: c in dead ==> !Referenced(w, c))
    ensures MapAgrees(Reaped(w, dead))
  {
    var w' := Reaped(w, dead);
    forall fd | fd in w'.connections ensures w'.connections[fd] !in dead {
      assert Referenced(w, w.connections[fd]);
    }
    forall c | c in w'.held ensures c !in dead {
      assert Referenced(w, c);
    }
  }

  lemma ReapStructure(w: World, dead: set<ConnId>)
    requires Structure(w) && dead <= w.conns.Keys && Ends(w, dead)
    ensures Structure(Reaped(w, dead))
  {
    hide RegsAgree, FdsOwned, MapAgrees, AllRefine, Referenced;
    ReapRegs(w, dead);
    ReapFds(w, dead);
    ReapMap(w, dead);
  }

  lemma ReapStages(w: World, dead: set<ConnId>)
    requires Stages(w, Nothing) && dead <= w.conns.Keys && Ends(w, dead)
    ensures Stages(Reaped(w, dead), Nothing)
  {
    var w' := Reaped(w, dead);
    hide Referenced;
    forall c | c in w'.conns ensures ConnOk(w', Nothing, c) {
      assert ConnOk(w, Nothing, c);
      if c !in dead {
        ReapView(w, dead, c);
      }
    }
  }

  lemma ReapQueues(w: World, dead: set<ConnId>)
    requires Queues(w, Nothing) && dead <= w.conns.Keys && Ends(w, dead)
    ensures Queues(Reaped(w, dead), Nothing)
  {
    var w' := Reaped(w, dead);
    hide Referenced;
    forall l, f: Functor | l in w'.loops && f.c in w'.conns && !f.WriteComplete? ensures QueueOk(w', Nothing, l, f) {
      assert QueueOk(w, Nothing, l, f);
      assert Count(w'.loops[l], f) == Count(w.loops[l], f);
      if f.c !in dead {
        ReapView(w, dead, f.c);
      }
    }
  }

  lemma AllAliveAfter(w: World, dead: set<ConnId>, l: LoopId, fs: seq<Functor>)
    requires dead <= w.conns.Keys && AllAlive(w, l, fs) && forall c :: c in dead ==> !Mentions(fs, c)
    ensures AllAlive(Reaped(w, dead), l, fs)
  {
    var w' := Reaped(w, dead);
    forall k | 0 <= k < |fs|
      ensures fs[k].c in w'.conns && w'.conns[fs[k].c].alive && (fs[k].WriteComplete? ==> w'.conns[fs[k].c].loop == l)
    {
      assert Mentions(fs, fs[k].c);
    }
  }

  lemma ReapRefs(w: World, dead: set<ConnId>)
    requires Refs(w, Nothing) && dead <= w.conns.Keys && (forall c :: c in dead ==> !Referenced(w, c))
    ensures Refs(Reaped(w, dead), Nothing)
  {
    var w' := Reaped(w, dead);
    forall l | l in w'.loops
      ensures AllAlive(w', l, w'.loops[l].done) && AllAlive(w', l, w'.loops[l].batch) && AllAlive(w', l, w'.loops[l].pending)
    {
      forall c | c in dead ensures !Queued(w.loops[l], c) {
      }
      AllAliveAfter(w, dead, l, w.loops[l].done);
      AllAliveAfter(w, dead, l, w.loops[l].batch);
      AllAliveAfter(w, dead, l, w.loops[l].pending);
    }
  }

  lemma ReapActives(w: World, dead: set<ConnId>)
    requires Actives(w) && dead <= w.conns.Keys && (forall c :: c in dead ==> w.conns[c].state.Disconnected?)
    ensures Actives(Reaped(w, dead))
  {
    var w' := Reaped(w, dead);
    forall l | l in w'.loops ensures LoopOk(w', l) {
      assert LoopOk(w, l);
    }
  }

  lemma ReapInv(w: World)
    requires Inv(w, Nothing)
    ensures Reap(w).Fine? && Inv(Reap(w).value, Nothing)
  {
    hide Structure, Stages, Queues, Refs, Actives, MayEnd, Referenced;
    var dead := set c | c in w.conns && Expires(w, c);
    forall c | Expires(w, c) ensures MayEnd(w, c) {
      ExpiredMayEnd(w, c);
    }
    forall c | c in dead
      ensures Live(w, c) && w.conns[c].state.Disconnected? && !InMap(w, c) && ChanOf(w, c).index.New?
    {
      ExpiredIsRemoved(w, c);
    }
    assert Ends(w, dead);
    assert Reap(w).value == Reaped(w, dead);
    ReapStructure(w, dead);
    ReapStages(w, dead);
    ReapQueues(w, dead);
    ReapRefs(w, dead);
    ReapActives(w, dead);
  }

  // ----- every run -----

  lemma NextInv(w: World, step: Step)
    requires Inv(w, Nothing) && Enabled(w, step)
    ensures Next(w, step).Fine? && Inv(Next(w, step).value, Nothing)
  {
    hide Inv, Perform, Reap;
    PerformInv(w, step);
    ReapInv(Perform(w, step).value);
  }

  lemma InitialInv(w: World)
    requires Initial(w)
    ensures Inv(w, Nothing)
  {
  }

  lemma {:induction false} RunInv(w: World, steps: seq<Step>)
    requires Inv(w, Nothing)
    ensures Run(w, steps).Fine? && Inv(Run(w, steps).value, Nothing)
    decreases |steps|
  {
    hide Inv, Next, Enabled;
    if steps == [] {
    } else if !Enabled(w, steps[0]) {
      RunInv(w, steps[1..]);
    } else {
      NextInv(w, steps[0]);
      RunInv(Next(w, steps[0]).value, steps[1..]);
    }
  }

  /** From a started server with any number of loops, no interleaving ever breaks an assertion. */
  lemma NoAssertionFails(w: World, steps: seq<Step>)
    requires Initial(w)
    ensures Run(w, steps).Fine?
  {
    hide Inv, Run;
    InitialInv(w);
    RunInv(w, steps);
  }

  ghost predicate Reachable(w: World)
  {
    exists w0, steps :: Initial(w0) && Run(w0, steps) == Fine(w)
  }

  lemma ReachableInv(w: World)
    requires Reachable(w)
    ensures Inv(w, Nothing)
  {
    hide Inv, Run, Initial;
    var w0, steps :| Initial(w0) && Run(w0, steps) == Fine(w);
    InitialInv(w0);
    RunInv(w0, steps);
  }

  /** A living connection's descriptor is open and belongs to no other living connection. */
  lemma DescriptorsAreExclusive(w: World, c: ConnId, d: ConnId)
    requires Reachable(w) && c in w.conns && w.conns[c].alive && d in w.conns && w.conns[d].alive
    ensures w.conns[c].fd in w.open && (w.conns[c].fd == w.conns[d].fd ==> c == d)
  {
    hide Reachable, Stages, Queues, Refs, Actives, RegsAgree, MapAgrees, AllRefine;
    ReachableInv(w);
  }

  /**
   * When a step closes a connection's descriptor, the connection is down and ends with that step, and its channel has
   * already left the poller's map and the kernel.
   */
  lemma ClosedOnlyAfterLeaving(w: World, step: Step, c: ConnId)
    requires Reachable(w) && Enabled(w, step)
    ensures Perform(w, step).Fine? && Next(w, step).Fine?
    ensures var m, w' := Perform(w, step).value, Next(w, step).value;
      c in m.conns && m.conns[c].alive && m.conns[c].fd !in w'.open ==>
        && MayEnd(m, c) && m.conns[c].fd !in m.loops[m.conns[c].loop].reg.kernel
        && c in w'.conns && !w'.conns[c].alive
  {
    hide Inv, Reachable, Enabled, Perform, Reap, MayEnd;
    ReachableInv(w);
    PerformInv(w, step);
    ReapInv(Perform(w, step).value);
    ReapCloses(Perform(w, step).value, c);
  }

  lemma ReapCloses(m: World, c: ConnId)
    requires Inv(m, Nothing) && Reap(m).Fine?
    ensures c in m.conns && m.conns[c].alive && m.conns[c].fd !in Reap(m).value.open ==>
      && MayEnd(m, c) && m.conns[c].fd !in m.loops[m.conns[c].loop].reg.kernel
      && c in Reap(m).value.conns && !Reap(m).value.conns[c].alive
  {
    hide Stages, Queues, Refs, Actives, MapAgrees, Referenced;
    if c in m.conns && m.conns[c].alive && m.conns[c].fd !in Reap(m).value.open {
      assert m.conns[c].fd in m.open;
      var d :| d in m.conns && Expires(m, d) && m.conns[d].fd == m.conns[c].fd;
      assert d == c && MayEnd(m, c);
      NotInKernel(m, c);
    }
  }

  lemma NotInKernel(m: World, c: ConnId)
    requires RegsAgree(m) && FdsOwned(m) && AllRefine(m) && MayEnd(m, c)
    ensures m.conns[c].fd !in m.loops[m.conns[c].loop].reg.kernel
  {
    hide P.Refines;
    var reg := m.loops[m.conns[c].loop].reg;
    forall fd | fd in reg.kernel ensures fd != m.conns[c].fd {
      P.KernelOwner(reg, fd);
      var d := reg.channels[fd];
      assert m.conns[d].fd == fd && Registered(reg, d);
    }
  }

  /** Each functor that a connection's state calls for is outstanding exactly once, on its loop; no other ever is. */
  lemma FunctorsOutstandingOnce(w: World, l: LoopId, f: Functor)
    requires Reachable(w) && l in w.loops && f.c in w.conns && !f.WriteComplete?
    ensures Count(w.loops[l], f) == if l == Home(w, f) && Due(w, f) then 1 else 0
  {
    hide Reachable, Structure, Stages, Refs, Actives;
    ReachableInv(w);
    assert QueueOk(w, Nothing, l, f);
  }

  /** Every functor a loop has, called, in its batch or pending, belongs to a living connection and is at home there. */
  lemma FunctorsAreAtHome(w: World, l: LoopId, f: Functor)
    requires Reachable(w) && l in w.loops && (f in w.loops[l].done || f in w.loops[l].batch || f in w.loops[l].pending)
    ensures f.c in w.conns && w.conns[f.c].alive && (f.WriteComplete? ==> w.conns[f.c].loop == l)
  {
    hide Reachable, Structure, Stages, Queues, Actives;
    ReachableInv(w);
    assert AllAlive(w, l, w.loops[l].done) && AllAlive(w, l, w.loops[l].batch) && AllAlive(w, l, w.loops[l].pending);
  }

  /** From poll to dispatch an active channel stays in its poller's map and its owner stays alive and up. */
  lemma ActiveStaysAlive(w: World, l: LoopId, k: nat)
    requires Reachable(w) && l in w.loops && w.loops[l].next <= k < |w.loops[l].active|
    ensures var c := w.loops[l].active[k].c;
      Live(w, c) && w.conns[c].loop == l && IsUp(w.conns[c].state) && Registered(w.loops[l].reg, c)
  {
    hide Reachable, Queues, Refs, FdsOwned, MapAgrees;
    ReachableInv(w);
    assert LoopOk(w, l);
    var c := w.loops[l].active[k].c;
    assert ConnOk(w, Nothing, c) && P.Refines(w.loops[l].reg);
    assert w.loops[l].reg.chans[c].fd in w.loops[l].reg.channels;
  }

  /** Callbacks come in order; a connection that has ended saw one up, then messages, then one down and one close. */
  lemma CallbacksInOrder(w: World, c: ConnId)
    requires Reachable(w) && c in w.conns
    ensures C.InOrder(w.conns[c].state, w.conns[c].callbacks)
    ensures !w.conns[c].alive ==> w.conns[c].state.Disconnected?
  {
    hide Reachable, Structure, Queues, Refs, Actives;
    ReachableInv(w);
    assert ConnOk(w, Nothing, c);
    assert w.conns[c].callbacks + [] == w.conns[c].callbacks;
  }

  // ----- handlers and functors leave every loop's round alone -----

  /** Loops keep their place in their round, and what is pending only grows at its end. */
  ghost predicate SameRounds(w: World, w': World)
  {
    && w'.loops.Keys == w.loops.Keys
    && (forall l :: l in w.loops ==>
          && w'.loops[l].phase == w.loops[l].phase
          && w'.loops[l].active == w.loops[l].active
          && w'.loops[l].next == w.loops[l].next
          && w'.loops[l].done == w.loops[l].done
          && w'.loops[l].batch == w.loops[l].batch
          && w.loops[l].pending <= w'.loops[l].pending)
  }

  lemma SameRoundsTransitive(w: World, w1: World, w2: World)
    requires SameRounds(w, w1) && SameRounds(w1, w2)
    ensures SameRounds(w, w2)
  {
  }

  lemma InterestKeepsRounds(w: World, c: ConnId, events: P.Mask)
    requires Live(w, c) && SetInterest(w, c, events).Fine?
    ensures SameRounds(w, SetInterest(w, c, events).value) && SetInterest(w, c, events).value.conns == w.conns
  {
    hide P.SetEvents;
  }

  lemma QueueKeepsRounds(w: World, l: LoopId, f: Functor)
    requires QueueInLoop(w, l, f).Fine?
    ensures SameRounds(w, QueueInLoop(w, l, f).value)
  {
  }

  lemma ActKeepsRounds(w: World, l: LoopId, act: Act)
    requires UserAct(w, l, act).Fine?
    ensures SameRounds(w, UserAct(w, l, act).value)
  {
    hide SetInterest, QueueInLoop;
    if Live(w, act.d) && w.conns[act.d].loop == l && w.conns[act.d].state.Connected? {
      match act
      case SendLeavesBacklog(d) => InterestKeepsRounds(w, d, ChanOf(w, d).events.Or(P.WRITE_EVENT));
      case SendCompletes(d) => QueueKeepsRounds(w, l, WriteComplete(d));
      case Shutdown(d) =>
    }
  }

  lemma {:induction false} ActsKeepRounds(w: World, l: LoopId, acts: seq<Act>)
    requires UserActs(w, l, acts).Fine?
    ensures SameRounds(w, UserActs(w, l, acts).value)
    decreases |acts|
  {
    hide UserAct;
    if acts != [] {
      var w1 := UserAct(w, l, acts[0]).value;
      ActKeepsRounds(w, l, acts[0]);
      ActsKeepRounds(w1, l, acts[1..]);
      SameRoundsTransitive(w, w1, UserActs(w1, l, acts[1..]).value);
    }
  }

  /** State, interest and callbacks of one connection, and then user code. */
  lemma RestateKeepsRounds(w: World, l: LoopId, c: ConnId, state: C.State, events: P.Mask, cb: C.Callback, acts: seq<Act>)
    requires Live(w, c) && SetInterest(SetState(w, c, state), c, events).Fine?
    ensures c in SetInterest(SetState(w, c, state), c, events).value.conns
    ensures var w1 := Note(SetInterest(SetState(w, c, state), c, events).value, c, cb);
      && SameRounds(w, w1) && (UserActs(w1, l, acts).Fine? ==> SameRounds(w, UserActs(w1, l, acts).value))
  {
    hide SetInterest, UserActs;
    InterestKeepsRounds(SetState(w, c, state), c, events);
    var w1 := Note(SetInterest(SetState(w, c, state), c, events).value, c, cb);
    assert SameRounds(w, w1);
    if UserActs(w1, l, acts).Fine? {
      ActsKeepRounds(w1, l, acts);
      SameRoundsTransitive(w, w1, UserActs(w1, l, acts).value);
    }
  }

  lemma EstablishedKeepsRounds(w: World, l: LoopId, c: ConnId, acts: seq<Act>)
    requires ConnectEstablished(w, l, c, acts).Fine?
    ensures SameRounds(w, ConnectEstablished(w, l, c, acts).value)
  {
    hide SameRounds, SetInterest, UserActs;
    RestateKeepsRounds(w, l, c, C.Connected, ChanOf(w, c).events.Or(P.READ_EVENT), C.Up, acts);
  }

  lemma LeaveKeepsRounds(w: World, l: LoopId, c: ConnId)
    requires RemoveFromLoop(w, l, c).Fine?
    ensures SameRounds(w, RemoveFromLoop(w, l, c).value)
  {
    hide P.Detach;
  }

  lemma DestroyedKeepsRounds(w: World, l: LoopId, c: ConnId, acts: seq<Act>)
    requires ConnectDestroyed(w, l, c, acts).Fine?
    ensures SameRounds(w, ConnectDestroyed(w, l, c, acts).value)
  {
    hide SameRounds, SetInterest, UserActs, RemoveFromLoop;
    if w.conns[c].state.Connected? {
      RestateKeepsRounds(w, l, c, C.Disconnected, P.NO_EVENT, C.Down, acts);
      var w1 := Note(SetInterest(SetState(w, c, C.Disconnected), c, P.NO_EVENT).value, c, C.Down);
      var w2 := UserActs(w1, l, acts).value;
      LeaveKeepsRounds(w2, l, c);
      SameRoundsTransitive(w, w2, RemoveFromLoop(w2, l, c).value);
    } else {
      LeaveKeepsRounds(w, l, c);
    }
  }

  lemma RemoveKeepsRounds(w: World, l: LoopId, c: ConnId)
    requires RemoveConnectionInLoop(w, l, c).Fine?
    ensures SameRounds(w, RemoveConnectionInLoop(w, l, c).value)
  {
  }

  lemma CloseKeepsRounds(w: World, l: LoopId, c: ConnId, acts: seq<Act>)
    requires HandleClose(w, l, c, acts).Fine?
    ensures SameRounds(w, HandleClose(w, l, c, acts).value)
  {
    hide SetInterest, UserActs, RemoveConnectionInLoop, QueueInLoop;
    RestateKeepsRounds(w, l, c, C.Disconnected, P.NO_EVENT, C.Down, acts);
    var w2 := UserActs(BeginClose(w, l, c).value, l, acts).value;
    var w3 := Note(w2, c, C.Close);
    assert SameRounds(w2, w3);
    if l == w3.base {
      RemoveKeepsRounds(w3, l, c);
    } else {
      QueueKeepsRounds(w3, w3.base, Remove(c));
    }
    SameRoundsTransitive(w, w2, w3);
    SameRoundsTransitive(w, w3, EndClose(w2, l, c).value);
  }

  lemma ReadKeepsRounds(w: World, l: LoopId, c: ConnId, env: Env)
    requires HandleRead(w, l, c, env).Fine?
    ensures SameRounds(w, HandleRead(w, l, c, env).value)
  {
    hide HandleClose, UserActs;
    match env.read
    case Data => ActsKeepRounds(Note(w, c, C.Message), l, env.acts);
    case EndOfStream => CloseKeepsRounds(w, l, c, env.acts);
    case ReadError =>
  }

  lemma WriteKeepsRounds(w: World, l: LoopId, c: ConnId, env: Env)
    requires HandleWrite(w, l, c, env).Fine?
    ensures SameRounds(w, HandleWrite(w, l, c, env).value)
  {
    hide SetInterest, QueueInLoop;
    var events := ChanOf(w, c).events;
    if events.Has(P.WRITE_EVENT) && env.drains {
      InterestKeepsRounds(w, c, events.Without(P.WRITE_EVENT));
      var w1 := SetInterest(w, c, events.Without(P.WRITE_EVENT)).value;
      if env.wantsComplete {
        QueueKeepsRounds(w1, l, WriteComplete(c));
        SameRoundsTransitive(w, w1, QueueInLoop(w1, l, WriteComplete(c)).value);
      }
    }
  }

  /** Handling an event takes nothing off any queue; what it queues, on any loop, goes to the end. */
  lemma EventKeepsRounds(w: World, l: LoopId, c: ConnId, mask: P.Mask, env: Env)
    requires HandleEvent(w, l, c, mask, env).Fine?
    ensures SameRounds(w, HandleEvent(w, l, c, mask, env).value)
  {
    hide HandleClose, HandleRead, HandleWrite, P.Mask.Has;
    var w1 := w;
    if mask.Has(P.EPOLLHUP) && !mask.Has(P.EPOLLIN) {
      CloseKeepsRounds(w, l, c, env.acts);
      w1 := HandleClose(w, l, c, env.acts).value;
    }
    assert SameRounds(w, w1);
    var w2 := w1;
    if C.ReadsNow(mask) {
      ReadKeepsRounds(w1, l, c, env);
      w2 := HandleRead(w1, l, c, env).value;
      SameRoundsTransitive(w, w1, w2);
    }
    if mask.Has(P.EPOLLOUT) {
      WriteKeepsRounds(w2, l, c, env);
      SameRoundsTransitive(w, w2, HandleWrite(w2, l, c, env).value);
    }
  }

  /** So does calling a functor: what it queues waits for the next batch. */
  lemma CallKeepsRounds(w: World, l: LoopId, f: Functor, acts: seq<Act>)
    requires CallFunctor(w, l, f, acts).Fine?
    ensures SameRounds(w, CallFunctor(w, l, f, acts).value)
  {
    hide ConnectEstablished, ConnectDestroyed, RemoveConnectionInLoop, UserActs, SameRounds;
    match f
    case Establish(c) => EstablishedKeepsRounds(w, l, c, acts);
    case Remove(c) => RemoveKeepsRounds(w, l, c);
    case Destroy(c) => DestroyedKeepsRounds(w, l, c, acts);
    case WriteComplete(c) => ActsKeepRounds(w, l, acts);
  }
}
