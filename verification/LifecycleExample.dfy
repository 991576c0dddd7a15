/** One whole life of a connection on a server with a single loop, so that the protocol's steps can indeed be taken. */
module LifecycleExample {
  import opened Checks
  import opened Lifecycle
  import C = Connection
  import P = Poller

  const FD: int := 7

  /** The channel before it is registered and after it has left, while it is read, and once the connection is down. */
  const APART: P.Registry<ConnId> := P.Registry(map[0 := P.Chan(FD, P.NO_EVENT, P.New, false)], map[], map[])
  const READING: P.Registry<ConnId> :=
    P.Registry(map[0 := P.Chan(FD, P.READ_EVENT, P.Added, true)], map[FD := 0], map[FD := P.Entry(P.READ_EVENT, 0)])
  const SILENT: P.Registry<ConnId> := P.Registry(map[0 := P.Chan(FD, P.NO_EVENT, P.Deleted, true)], map[FD := 0], map[])

  const START: World :=
    World(0, map[0 := Loop(P.Registry(map[], map[], map[]), Polling, [], 0, [], [], [])], map[], map[], {}, {})

  function Up(lp: Loop): World
  {
    World(0, map[0 := lp], map[0 := Conn(FD, 0, C.Connected, true, [C.Up])], map[FD := 0], {FD}, {})
  }

  function Down(lp: Loop): World
  {
    World(0, map[0 := lp], map[0 := Conn(FD, 0, C.Disconnected, true, [C.Up, C.Down, C.Close])], map[], {FD}, {})
  }

  const READY: seq<Ready> := [Ready(0, P.EPOLLIN)]
  const DUTY: seq<Functor> := [Destroy(0)]
  const AT_END: Env := Env(EndOfStream, [], false, false, true)

  const LIFE: seq<Step> := [
    PollReturns(0, []), Accept(FD, 0, 0, []), EndDispatch(0), EndBatch(0),
    PollReturns(0, READY), HandleNext(0, AT_END), EndDispatch(0), CallNext(0, []), EndBatch(0)]

  lemma ReapNone(w: World)
    requires forall c :: !Expires(w, c)
    ensures Reap(w) == Fine(w)
  {
    var w' := Reap(w).value;
    assert w'.conns == w.conns;
    assert forall l :: l in w.loops ==> w'.loops[l] == w.loops[l];
    assert w'.loops == w.loops;
    assert w'.open == w.open;
  }

  lemma UpStays(lp: Loop)
    ensures Reap(Up(lp)) == Fine(Up(lp))
  {
    assert Up(lp).connections[FD] == 0;
    ReapNone(Up(lp));
  }

  lemma DownStays(lp: Loop)
    requires lp.pending == DUTY || lp.batch == DUTY || lp.done == DUTY
    ensures Reap(Down(lp)) == Fine(Down(lp))
  {
    assert DUTY[0].c == 0;
    assert Queued(Down(lp).loops[0], 0);
    ReapNone(Down(lp));
  }

  lemma Registers()
    ensures P.SetEvents(APART, 0, P.READ_EVENT) == Fine(READING)
    ensures P.SetEvents(READING, 0, P.NO_EVENT) == Fine(SILENT)
    ensures P.Detach(SILENT, 0) == Fine(APART)
  {
    assert P.SetEvents(APART, 0, P.READ_EVENT).value.chans == READING.chans;
    assert P.SetEvents(READING, 0, P.NO_EVENT).value.chans == SILENT.chans;
    assert P.SetEvents(READING, 0, P.NO_EVENT).value.kernel == SILENT.kernel;
    assert P.Detach(SILENT, 0).value.chans == APART.chans;
    assert P.Detach(SILENT, 0).value.channels == APART.channels;
  }

  lemma Connects(lp: Loop)
    requires lp.reg == P.Registry(map[], map[], map[])
    ensures var w := START.(loops := map[0 := lp]);
      NewConnection(w, 0, FD, 0, 0, []) == Fine(Up(lp.(reg := READING)))
  {
    hide P.SetEvents;
    Registers();
    var w, w' := START.(loops := map[0 := lp]), Up(lp.(reg := READING));
    var w1 := Construct(w, FD, 0, 0);
    assert w1.loops == map[0 := lp.(reg := APART)];
    assert w1.conns == map[0 := Conn(FD, 0, C.Connecting, true, [])];
    var w2 := SetInterest(SetState(w1, 0, C.Connected), 0, P.READ_EVENT).value;
    assert w2.loops == w'.loops;
    assert [] + [C.Up] == [C.Up];
    assert Note(w2, 0, C.Up).conns == w'.conns;
    assert Note(w2, 0, C.Up) == w';
    assert P.NO_EVENT.Or(P.READ_EVENT) == P.READ_EVENT;
  }

  lemma Closes(lp: Loop)
    requires lp.reg == READING && lp.pending == []
    ensures HandleClose(Up(lp), 0, 0, []) == Fine(Down(lp.(reg := SILENT, pending := DUTY)))
  {
    hide P.SetEvents;
    Registers();
    var w' := Down(lp.(reg := SILENT, pending := DUTY));
    var w1 := BeginClose(Up(lp), 0, 0).value;
    assert w1.loops == map[0 := lp.(reg := SILENT)];
    assert [C.Up] + [C.Down] == [C.Up, C.Down];
    assert w1.conns == map[0 := Conn(FD, 0, C.Disconnected, true, [C.Up, C.Down])];
    assert UserActs(w1, 0, []) == Fine(w1);
    var w2 := EndClose(w1, 0, 0).value;
    assert [C.Up, C.Down] + [C.Close] == [C.Up, C.Down, C.Close];
    assert w2.conns == w'.conns;
    assert [] + [Destroy(0)] == DUTY;
    assert w2.loops == w'.loops;
    assert w2.connections == w'.connections;
  }

  lemma Leaves(lp: Loop)
    requires lp.reg == SILENT && lp.phase.Calling?
    ensures ConnectDestroyed(Down(lp), 0, 0, []) == Fine(Down(lp.(reg := APART)))
  {
    hide P.Detach;
    Registers();
    assert RemoveFromLoop(Down(lp), 0, 0).value.loops == map[0 := lp.(reg := APART)];
  }

  const IDLE: Loop := START.loops[0]

  /** The world before each step of that life, and after the last. */
  function At(i: nat): World
    requires i <= |LIFE|
  {
    if i == 0 then START
    else if i == 1 then START.(loops := map[0 := IDLE.(phase := Dispatching)])
    else if i == 2 then Up(IDLE.(reg := READING, phase := Dispatching))
    else if i == 3 then Up(IDLE.(reg := READING, phase := Calling))
    else if i == 4 then Up(IDLE.(reg := READING))
    else if i == 5 then Up(IDLE.(reg := READING, phase := Dispatching, active := READY))
    else if i == 6 then Down(IDLE.(reg := SILENT, phase := Dispatching, active := READY, next := 1, pending := DUTY))
    else if i == 7 then Down(IDLE.(reg := SILENT, phase := Calling, batch := DUTY))
    else if i == 8 then Down(IDLE.(reg := APART, phase := Calling, done := DUTY))
    else START.(conns := map[0 := Conn(FD, 0, C.Disconnected, false, [C.Up, C.Down, C.Close])])
  }

  ghost predicate Taken(i: nat)
    requires i < |LIFE|
  {
    Enabled(At(i), LIFE[i]) && Next(At(i), LIFE[i]) == Fine(At(i + 1))
  }

  lemma PollTaken(i: nat)
    requires i == 0 || i == 4
    ensures Taken(i)
  {
    hide HandleEvent, CallFunctor, NewConnection, Reap;
    assert READING.kernel[FD].owner == 0 && READING.channels[FD] == 0;
    var m := Perform(At(i), LIFE[i]).value;
    assert m.loops == At(i + 1).loops;
    assert m == At(i + 1);
    if i == 0 { ReapNone(m); } else { UpStays(m.loops[0]); }
  }

  lemma MoveTaken(i: nat)
    requires i == 2 || i == 3 || i == 6
    ensures Taken(i)
  {
    hide HandleEvent, CallFunctor, NewConnection, Reap;
    var m := Perform(At(i), LIFE[i]).value;
    assert m.loops == At(i + 1).loops;
    if i == 6 { DownStays(m.loops[0]); } else { UpStays(m.loops[0]); }
  }

  lemma AcceptTaken()
    ensures Taken(1)
  {
    hide HandleEvent, CallFunctor, NewConnection, Reap;
    Connects(At(1).loops[0]);
    UpStays(At(2).loops[0]);
  }

  lemma CloseTaken()
    ensures Taken(5)
  {
    hide HandleClose, CallFunctor, NewConnection, Reap;
    var lp := At(5).loops[0].(next := 1);
    assert At(5).loops[0 := lp] == map[0 := lp];
    Closes(lp);
    DownStays(At(6).loops[0]);
  }

  lemma DestroyTaken()
    ensures Taken(7)
  {
    hide HandleEvent, ConnectDestroyed, NewConnection, Reap;
    var lp := At(7).loops[0].(batch := [], done := DUTY);
    assert DUTY[1..] == [] && [] + [DUTY[0]] == DUTY;
    assert At(7).loops[0 := lp] == map[0 := lp];
    Leaves(lp);
    DownStays(At(8).loops[0]);
  }

  /** With the batch the last reference goes, and with it the object and its descriptor. */
  lemma Ends()
    ensures Reap(Down(IDLE.(reg := APART))) == Fine(At(9))
  {
    var m := Down(IDLE.(reg := APART));
    assert Expires(m, 0);
    assert forall c :: Expires(m, c) ==> c == 0 && MayEnd(m, c);
    var w := Reap(m).value;
    assert w.conns == At(9).conns;
    assert w.loops[0].reg.chans == map[];
    assert w.loops == At(9).loops;
    assert w.open == {};
  }

  lemma EndTaken()
    ensures Taken(8)
  {
    hide HandleEvent, CallFunctor, NewConnection, Reap;
    var m := Perform(At(8), LIFE[8]).value;
    assert m.loops == map[0 := IDLE.(reg := APART)];
    Ends();
  }

  lemma EachTaken(i: nat)
    requires i < |LIFE|
    ensures Taken(i)
  {
    hide Taken;
    match i
    case 1 => AcceptTaken();
    case 5 => CloseTaken();
    case 7 => DestroyTaken();
    case 8 => EndTaken();
    case _ => if i == 0 || i == 4 { PollTaken(i); } else { MoveTaken(i); }
  }

  lemma {:induction false} RunFrom(i: nat)
    requires i <= |LIFE|
    ensures Run(At(i), LIFE[i..]) == Fine(At(|LIFE|))
    decreases |LIFE| - i
  {
    if i < |LIFE| {
      hide Enabled, Next, At;
      EachTaken(i);
      assert LIFE[i..][0] == LIFE[i] && LIFE[i..][1..] == LIFE[i + 1..];
      RunFrom(i + 1);
    }
  }

  /** Connected by an accept, closed at end of stream, and at the end gone from everywhere with its descriptor closed. */
  lemma WholeLife()
    ensures Initial(START) && Run(START, LIFE).Fine?
    ensures var w := Run(START, LIFE).value;
      && w.conns == map[0 := Conn(FD, 0, C.Disconnected, false, [C.Up, C.Down, C.Close])]
      && w.connections == map[] && w.open == {} && w.loops == START.loops
  {
    hide Run;
    RunFrom(0);
    assert LIFE[0..] == LIFE;
  }
}
