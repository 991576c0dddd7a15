/**
 * The double-buffered logger of clia/src/log/async_logger.cc as a protocol: producers that log, one thread that swaps
 * and writes buffers, and the destructor. Each locked region and each write to the appender is one step.
 */
module AsyncLog {
  import opened Sequences
  import opened Checks

  type Message = seq<char>
  type ThreadId = nat

  const MAX_BATCH := 25
  const KEPT := 2

  /** A buffer is the messages copied into it, one after another. */
  datatype Buf = Buf(msgs: seq<Message>) {
    function Bytes(): seq<char> { Flatten(msgs) }
    function Size(): nat { |Bytes()| }
    function Add(m: Message): Buf { Buf(msgs + [m]) }
  }

  const EMPTY := Buf([])

  /** What one call of the appender receives: a buffer's messages, or the notice that buffers were dropped. */
  datatype Chunk = Data(msgs: seq<Message>) | Notice(dropped: nat)

  /** Where the writing thread is: not yet started, the loop test, before the lock, after it, writing, gone. */
  datatype Pc = AtStart | AtTest | AtSwap | AtDrop | Writing(i: nat) | Ended

  /**
   * `inflight` are producers past the guard of `log` and before its lock. `admitted` are the messages in the order of
   * that lock, `batches` every batch of buffers ever swapped out; both are histories.
   */
  datatype Logger = Logger(
    capacity: nat, running: bool, current: Buf, next: Option<Buf>, buffers: seq<Buf>,
    spare1: Option<Buf>, spare2: Option<Buf>, batch: seq<Buf>, pc: Pc, inflight: map<ThreadId, Message>,
    output: seq<Chunk>, admitted: seq<Message>, batches: seq<seq<Buf>>)

  function NewLogger(capacity: nat): Logger
  {
    Logger(capacity, true, EMPTY, Some(EMPTY), [], None, None, [], AtStart, map[], [], [], [])
  }

  // ----- log -----

  predicate PassesGuard(s: Logger, m: Message)
  {
    s.running && 0 < |m| <= s.capacity
  }

  function AppendTo(b: Buf, m: Message, capacity: nat): Checked<Buf>
  {
    var _ :- Check(b.Size() + |m| < capacity, "fixed_buffer.h:100");
    Fine(b.Add(m))
  }

  /** The locked region of `log`. */
  function Store(s: Logger, m: Message): Checked<Logger>
  {
    if s.current.Size() + |m| < s.capacity then
      var b :- AppendTo(s.current, m, s.capacity);
      Fine(s.(current := b, admitted := s.admitted + [m]))
    else
      var spare := if s.next.Some? then s.next.value else EMPTY;
      var b :- AppendTo(spare, m, s.capacity);
      Fine(s.(buffers := s.buffers + [s.current], current := b, next := None, admitted := s.admitted + [m]))
  }

  // ----- sync_thread -----

  /** The thread begins with two spare buffers of its own. */
  function Begin(s: Logger): Logger
  {
    s.(spare1 := Some(EMPTY), spare2 := Some(EMPTY), pc := AtTest)
  }

  predicate Reusable(b: Option<Buf>) { b.Some? && b.value.Size() == 0 }

  function Test(s: Logger): Checked<Logger>
  {
    if !s.running && s.current.Size() == 0 then Fine(s.(pc := Ended))
    else
      var _ :- Check(Reusable(s.spare1), "async_logger.cc:60");
      var _ :- Check(Reusable(s.spare2), "async_logger.cc:61");
      var _ :- Check(s.batch == [], "async_logger.cc:62");
      Fine(s.(pc := AtSwap))
  }

  function Swap(s: Logger): Checked<Logger>
  {
    var _ :- Check(s.spare1.Some?, "null current buffer");
    var taken := s.buffers + [s.current];
    var _ :- Check(taken != [], "async_logger.cc:76");
    Fine(s.(buffers := s.batch, batch := taken, current := s.spare1.value, spare1 := None,
            next := if s.next.None? then s.spare2 else s.next, spare2 := if s.next.None? then None else s.spare2,
            pc := AtDrop, batches := s.batches + [taken]))
  }

  function Kept(batch: seq<Buf>): seq<Buf>
  {
    if |batch| > MAX_BATCH then batch[..KEPT] else batch
  }

  function Announced(batch: seq<Buf>): seq<Chunk>
  {
    if |batch| > MAX_BATCH then [Notice(|batch| - KEPT)] else []
  }

  function DropExcess(s: Logger): Logger
  {
    s.(output := s.output + Announced(s.batch), batch := Kept(s.batch), pc := Writing(0))
  }

  function Written(b: Buf): seq<Chunk>
  {
    if b.Size() == 0 then [] else [Data(b.msgs)]
  }

  function WriteOne(s: Logger): Logger
    requires s.pc.Writing? && s.pc.i < |s.batch|
  {
    s.(output := s.output + Written(s.batch[s.pc.i]), pc := Writing(s.pc.i + 1))
  }

  /** Takes the last buffer of the batch, emptied, for a missing spare. */
  function Refill(spare: Option<Buf>, batch: seq<Buf>, place: string): Checked<(Option<Buf>, seq<Buf>)>
  {
    if spare.Some? then Fine((spare, batch))
    else
      var _ :- Check(batch != [], place);
      Fine((Some(EMPTY), batch[..|batch| - 1]))
  }

  function Recycle(s: Logger): Checked<Logger>
  {
    var (spare1, rest1) :- Refill(s.spare1, s.batch, "async_logger.cc:98");
    var (spare2, rest2) :- Refill(s.spare2, rest1, "async_logger.cc:105");
    Fine(s.(spare1 := spare1, spare2 := spare2, batch := [], pc := AtTest))
  }

  // ----- steps -----

  datatype Step =
    | Enter(t: ThreadId, m: Message)
    | Commit(t: ThreadId)
    | Destroy
    | SyncBegin
    | SyncTest
    | SyncSwap
    | SyncDrop
    | SyncWrite
    | SyncRecycle

  /** The logger is destroyed once, when no `log` call is in progress; a message is shorter than a whole buffer. */
  predicate Enabled(s: Logger, step: Step)
  {
    match step
    case Enter(t, m) => t !in s.inflight && PassesGuard(s, m) && |m| < s.capacity
    case Commit(t) => t in s.inflight
    case Destroy => s.running && s.inflight == map[]
    case SyncBegin => s.pc.AtStart?
    case SyncTest => s.pc.AtTest?
    case SyncSwap => s.pc.AtSwap?
    case SyncDrop => s.pc.AtDrop?
    case SyncWrite => s.pc.Writing? && s.pc.i < |s.batch|
    case SyncRecycle => s.pc.Writing? && s.pc.i >= |s.batch|
  }

  function Next(s: Logger, step: Step): Checked<Logger>
    requires Enabled(s, step)
  {
    match step
    case Enter(t, m) => Fine(s.(inflight := s.inflight[t := m]))
    case Commit(t) => Store(s.(inflight := s.inflight - {t}), s.inflight[t])
    case Destroy => Fine(s.(running := false))
    case SyncBegin => Fine(Begin(s))
    case SyncTest => Test(s)
    case SyncSwap => Swap(s)
    case SyncDrop => Fine(DropExcess(s))
    case SyncWrite => Fine(WriteOne(s))
    case SyncRecycle => Recycle(s)
  }

  function Run(s: Logger, steps: seq<Step>): Checked<Logger>
    decreases |steps|
  {
    if steps == [] then Fine(s)
    else if !Enabled(s, steps[0]) then Run(s, steps[1..])
    else
      var s' :- Next(s, steps[0]);
      Run(s', steps[1..])
  }

  // ----- what a run has to preserve -----

  function MsgsOf(bufs: seq<Buf>): seq<Message>
  {
    if bufs == [] then [] else bufs[0].msgs + MsgsOf(bufs[1..])
  }

  function WrittenAll(bufs: seq<Buf>): seq<Chunk>
  {
    if bufs == [] then [] else Written(bufs[0]) + WrittenAll(bufs[1..])
  }

  /** What the appender receives for one batch: the notice first, then the kept buffers that are not empty. */
  function Rendered(batch: seq<Buf>): seq<Chunk>
  {
    Announced(batch) + WrittenAll(Kept(batch))
  }

  function RenderedAll(batches: seq<seq<Buf>>): seq<Chunk>
  {
    if batches == [] then [] else RenderedAll(batches[..|batches| - 1]) + Rendered(batches[|batches| - 1])
  }

  function AllMsgs(batches: seq<seq<Buf>>): seq<Message>
  {
    if batches == [] then [] else AllMsgs(batches[..|batches| - 1]) + MsgsOf(batches[|batches| - 1])
  }

  /** Every admitted message is, in lock order, in a batch already swapped out, in `buffers_` or in the current buffer. */
  predicate Accounted(s: Logger)
  {
    AllMsgs(s.batches) + MsgsOf(s.buffers) + s.current.msgs == s.admitted
  }

  /** What the appender still has to receive for the batch in hand. */
  function Remaining(s: Logger): seq<Chunk>
  {
    match s.pc
    case AtDrop => Rendered(s.batch)
    case Writing(i) => if i <= |s.batch| then WrittenAll(s.batch[i..]) else []
    case _ => []
  }

  /** The appender has received exactly what the batches call for, up to the rest of the batch in hand. */
  predicate Delivered(s: Logger)
  {
    s.output + Remaining(s) == RenderedAll(s.batches)
  }

  predicate BufOk(b: Buf, capacity: nat)
  {
    b.Size() < capacity && forall k :: 0 <= k < |b.msgs| ==> b.msgs[k] != []
  }

  predicate AllOk(bufs: seq<Buf>, capacity: nat)
  {
    forall k :: 0 <= k < |bufs| ==> BufOk(bufs[k], capacity)
  }

  /** No buffer is ever full and none holds an empty message. */
  predicate BuffersOk(s: Logger)
  {
    && BufOk(s.current, s.capacity) && AllOk(s.buffers, s.capacity)
    && forall k :: 0 <= k < |s.batches| ==> AllOk(s.batches[k], s.capacity)
  }

  /** Spares and the next buffer are empty; a missing next buffer, or a missing second spare, has left a trace. */
  predicate Stocked(s: Logger)
  {
    && (s.next.Some? ==> s.next.value == EMPTY)
    && (s.spare1.Some? ==> s.spare1.value == EMPTY)
    && (s.spare2.Some? ==> s.spare2.value == EMPTY)
    && (s.next.None? ==> s.buffers != [])
    && (s.buffers != [] ==> s.current.Size() > 0)
    && match s.pc
       case AtStart => s.spare1.None? && s.spare2.None? && s.batch == []
       case AtDrop => s.spare1.None? && s.batch != [] && (s.spare2.None? ==> |s.batch| >= 2)
       case Writing(i) => s.spare1.None? && s.batch != [] && (s.spare2.None? ==> |s.batch| >= 2) && i <= |s.batch|
       case _ => s.spare1.Some? && s.spare2.Some? && s.batch == []
  }

  predicate Shutdown(s: Logger)
  {
    && (!s.running ==> s.inflight == map[])
    && (s.pc.Ended? ==> !s.running && s.current.Size() == 0)
  }

  predicate InflightOk(s: Logger)
  {
    forall t :: t in s.inflight ==> 0 < |s.inflight[t]| < s.capacity
  }

  predicate Inv(s: Logger)
  {
    && s.capacity > 0 && BuffersOk(s) && InflightOk(s)
    && Accounted(s) && Delivered(s) && Stocked(s) && Shutdown(s)
  }

  // ----- small facts -----

  lemma SizeAdd(b: Buf, m: Message)
    ensures b.Add(m).Size() == b.Size() + |m|
  {
    FlattenSnoc(b.msgs, m);
  }

  lemma {:induction false} MsgsOfSnoc(bufs: seq<Buf>, b: Buf)
    ensures MsgsOf(bufs + [b]) == MsgsOf(bufs) + b.msgs
  {
    if bufs == [] {
      assert ([b])[1..] == [];
      assert bufs + [b] == [b];
    } else {
      assert (bufs + [b])[1..] == bufs[1..] + [b];
      MsgsOfSnoc(bufs[1..], b);
    }
  }

  lemma AllMsgsSnoc(batches: seq<seq<Buf>>, batch: seq<Buf>)
    ensures AllMsgs(batches + [batch]) == AllMsgs(batches) + MsgsOf(batch)
  {
    assert (batches + [batch])[..|batches|] == batches;
  }

  lemma MsgsOfNone()
    ensures MsgsOf([]) == []
  {
  }

  lemma EmptySize(b: Buf, capacity: nat)
    requires BufOk(b, capacity)
    ensures b.Size() == 0 <==> b.msgs == []
  {
    if b.msgs != [] {
      assert b.Bytes() == b.msgs[0] + Flatten(b.msgs[1..]);
    }
  }

  lemma StoreAccounted(s: Logger, m: Message)
    requires Accounted(s) && Store(s, m).Fine? && (s.next.Some? ==> s.next.value == EMPTY)
    ensures Accounted(Store(s, m).value)
  {
    hide AllMsgs, MsgsOf, Flatten;
    var past := AllMsgs(s.batches);
    if s.current.Size() + |m| < s.capacity {
      Regroup(past + MsgsOf(s.buffers), s.current.msgs, [m]);
    } else {
      MsgsOfSnoc(s.buffers, s.current);
      assert EMPTY.Add(m).msgs == [m];
      Regroup(past, MsgsOf(s.buffers), s.current.msgs);
    }
  }

  lemma StoreInv(s: Logger, m: Message)
    requires Inv(s) && s.running && 0 < |m| < s.capacity
    ensures Store(s, m).Fine? && Inv(Store(s, m).value)
  {
    hide Accounted, RenderedAll, Rendered, WrittenAll, Flatten;
    SizeAdd(s.current, m);
    SizeAdd(EMPTY, m);
    FlattenNone();
    StoreAccounted(s, m);
  }

  lemma FlattenNone()
    ensures EMPTY.Size() == 0
  {
  }

  lemma SwapAccounted(s: Logger)
    requires Accounted(s) && Swap(s).Fine? && s.spare1 == Some(EMPTY) && s.batch == []
    ensures Accounted(Swap(s).value)
  {
    hide AllMsgs, MsgsOf, Flatten;
    var s' := Swap(s).value;
    AllMsgsSnoc(s.batches, s.buffers + [s.current]);
    MsgsOfSnoc(s.buffers, s.current);
    MsgsOfNone();
    Regroup(AllMsgs(s.batches), MsgsOf(s.buffers), s.current.msgs);
    assert AllMsgs(s'.batches) + [] + [] == AllMsgs(s'.batches);
  }

  lemma SwapDelivered(s: Logger)
    requires Delivered(s) && Swap(s).Fine? && s.pc.AtSwap?
    ensures Delivered(Swap(s).value)
  {
    var s' := Swap(s).value;
    assert s'.batches[..|s'.batches| - 1] == s.batches;
    assert s.output + [] == s.output;
  }

  lemma SwapInv(s: Logger)
    requires Inv(s) && s.pc.AtSwap?
    ensures Swap(s).Fine? && Inv(Swap(s).value)
  {
    hide Accounted, Delivered;
    SwapAccounted(s);
    SwapDelivered(s);
  }

  lemma DropInv(s: Logger)
    requires Inv(s) && s.pc.AtDrop?
    ensures Inv(DropExcess(s))
  {
    hide AllMsgs, MsgsOf, RenderedAll, WrittenAll, Flatten;
    assert Kept(s.batch)[0..] == Kept(s.batch);
    Regroup(s.output, Announced(s.batch), WrittenAll(Kept(s.batch)));
  }

  lemma WrittenAllFirst(bufs: seq<Buf>)
    requires bufs != []
    ensures WrittenAll(bufs) == Written(bufs[0]) + WrittenAll(bufs[1..])
  {
  }

  lemma WriteInv(s: Logger)
    requires Inv(s) && s.pc.Writing? && s.pc.i < |s.batch|
    ensures Inv(WriteOne(s))
  {
    hide AllMsgs, MsgsOf, RenderedAll, Flatten;
    var i := s.pc.i;
    assert s.batch[i..][1..] == s.batch[i + 1..];
    WrittenAllFirst(s.batch[i..]);
    hide WrittenAll, Written;
    Regroup(s.output, Written(s.batch[i]), WrittenAll(s.batch[i + 1..]));
  }

  lemma RecycleInv(s: Logger)
    requires Inv(s) && s.pc.Writing? && s.pc.i >= |s.batch|
    ensures Recycle(s).Fine? && Inv(Recycle(s).value)
  {
    assert s.batch[s.pc.i..] == [];
  }

  lemma RecycleFacts(s: Logger)
    requires Inv(s) && s.pc.Writing? && s.pc.i >= |s.batch|
    ensures s.spare1.None? && (s.spare2.None? ==> |s.batch| >= 2) && s.batch != []
    ensures Recycle(s).Fine?
    ensures Recycle(s).value == s.(spare1 := Some(EMPTY), spare2 := Some(EMPTY), batch := [], pc := AtTest)
  {
  }

  lemma NextInv(s: Logger, step: Step)
    requires Inv(s) && Enabled(s, step)
    ensures Next(s, step).Fine? && Inv(Next(s, step).value)
  {
    hide Store, Swap, DropExcess, WriteOne, Recycle, AllMsgs, MsgsOf, RenderedAll, Rendered, WrittenAll, Flatten;
    FlattenNone();
    match step
    case Commit(t) => StoreInv(s.(inflight := s.inflight - {t}), s.inflight[t]);
    case SyncSwap => SwapInv(s);
    case SyncDrop => DropInv(s);
    case SyncWrite => WriteInv(s);
    case SyncRecycle => RecycleInv(s);
    case _ =>
  }

  /** What holds before the writing thread has its spares. */
  lemma BeginFacts(s: Logger)
    requires Inv(s) && s.pc.AtStart?
    ensures s.spare1 == s.spare2 == None && Inv(Begin(s))
  {
    NextInv(s, SyncBegin);
  }

  /** What holds whenever the loop is tested. */
  lemma TestFacts(s: Logger)
    requires Inv(s) && s.pc.AtTest?
    ensures s.spare1 == s.spare2 == Some(EMPTY) && s.batch == [] && Test(s).Fine? && Inv(Test(s).value)
    ensures Test(s).value == s.(pc := if s.running || s.current.Size() != 0 then AtSwap else Ended)
  {
    NextInv(s, SyncTest);
  }

  /** In every interleaving of producers, writer and destructor no assertion fails and every message is accounted for. */
  lemma {:induction false} EveryRunInv(s: Logger, steps: seq<Step>)
    requires Inv(s)
    ensures Run(s, steps).Fine? && Inv(Run(s, steps).value)
    decreases |steps|
  {
    if steps == [] {
    } else if !Enabled(s, steps[0]) {
      EveryRunInv(s, steps[1..]);
    } else {
      NextInv(s, steps[0]);
      EveryRunInv(Next(s, steps[0]).value, steps[1..]);
    }
  }

  // ----- what each step does, in bytes and buffers -----

  /** Whatever else is going on, a message shorter than a buffer that is logged while the logger runs is admitted, last. */
  lemma LoggedIsAdmitted(s: Logger, t: ThreadId, m: Message)
    requires Inv(s) && s.running && t !in s.inflight && 0 < |m| < s.capacity
    ensures Enabled(s, Enter(t, m)) && Next(s, Enter(t, m)).Fine?
    ensures var s1 := Next(s, Enter(t, m)).value;
      && Enabled(s1, Commit(t)) && Next(s1, Commit(t)).Fine?
      && var s2 := Next(s1, Commit(t)).value;
         s2.admitted == s.admitted + [m] && s2.inflight == s.inflight && s2.running && s2.output == s.output && s2.pc == s.pc
  {
    hide Inv, Store, Flatten;
    var s1 := s.(inflight := s.inflight[t := m]);
    assert s1.inflight - {t} == s.inflight;
    assert s1.(inflight := s1.inflight - {t}) == s;
    StoreBeginsBufferIff(s, m);
  }

  /** A step of the writing thread that reports no fault has met the assertions of `sync_thread` on the way. */
  lemma SyncChecks(s: Logger)
    ensures Test(s).Fine? && Test(s).value.pc.AtSwap? ==>
      && s.spare1.Some? && s.spare1.value.Size() == 0 && s.spare2.Some? && s.spare2.value.Size() == 0 && s.batch == []
    ensures Swap(s).Fine? ==> s.spare1.Some? && Swap(s).value.batch != []
    ensures Recycle(s).Fine? ==>
      |s.batch| >= (if s.spare1.None? then 1 else 0) + (if s.spare2.None? then 1 else 0)
  {
  }

  /** A message that is stored leaves at least one byte of its buffer free, as the buffer's own assertion demands. */
  lemma StoreChecks(s: Logger, m: Message)
    requires Store(s, m).Fine?
    ensures Store(s, m).value.current.Size() < s.capacity
  {
    var spare := if s.next.Some? then s.next.value else EMPTY;
    SizeAdd(s.current, m);
    SizeAdd(spare, m);
  }

  /** A new buffer is begun exactly if the message would leave no free byte; then the full one is kept, in order. */
  lemma StoreBeginsBufferIff(s: Logger, m: Message)
    requires Inv(s) && s.running && 0 < |m| < s.capacity
    ensures Store(s, m).Fine?
    ensures var s' := Store(s, m).value;
      && s' == s.(current := s'.current, buffers := s'.buffers, next := s'.next, admitted := s.admitted + [m])
      && if |Flatten(s.current.msgs)| + |m| < s.capacity
         then s'.current.msgs == s.current.msgs + [m] && s'.buffers == s.buffers && s'.next == s.next
         else s'.current.msgs == [m] && s'.buffers == s.buffers + [s.current] && s'.next == None
  {
    StoreInv(s, m);
    hide Accounted, Delivered, Flatten;
  }

  /** The swap takes every full buffer and then the current one, and leaves an empty current and an empty next buffer. */
  lemma SwapTakesEverything(s: Logger)
    requires Inv(s) && s.pc.AtSwap?
    ensures Swap(s).Fine?
    ensures var s' := Swap(s).value;
      && s'.batch == s.buffers + [s.current] && s'.buffers == [] && s'.current.msgs == [] && s'.next == Some(Buf([]))
      && s'.spare1 == None && (s'.spare2.Some? <==> s.next.Some?) && s'.pc.AtDrop?
      && s'.admitted == s.admitted && s'.output == s.output && s'.inflight == s.inflight && s'.running == s.running
  {
    hide Accounted, Delivered, BuffersOk, Flatten;
  }

  /** A batch of up to 25 buffers is kept; of a longer one the first two, and the appender is told how many were not. */
  lemma DropsOverTwentyFive(s: Logger)
    ensures var s' := DropExcess(s);
      && s' == s.(batch := s'.batch, output := s'.output, pc := Writing(0))
      && if |s.batch| <= 25 then s'.batch == s.batch && s'.output == s.output
         else s'.batch == [s.batch[0], s.batch[1]] && s'.output == s.output + [Notice(|s.batch| - 2)]
  {
    assert s.output + [] == s.output;
    assert |s.batch| > 25 ==> s.batch[..2] == [s.batch[0], s.batch[1]];
  }

  /** The appender gets the next buffer of the batch if it holds any byte, and nothing else changes. */
  lemma WritesNextBuffer(s: Logger)
    requires s.pc.Writing? && s.pc.i < |s.batch|
    ensures var s' := WriteOne(s); var msgs := s.batch[s.pc.i].msgs;
      s' == s.(output := s.output + (if Flatten(msgs) == [] then [] else [Data(msgs)]), pc := Writing(s.pc.i + 1))
  {
  }

  // ----- what a whole message is worth -----

  /** A message meets the buffer's own assertion exactly when it is shorter than a whole buffer. */
  lemma StoreFaultIff(s: Logger, m: Message)
    requires Inv(s) && PassesGuard(s, m)
    ensures Store(s, m).Fault? <==> |m| == s.capacity
  {
    FlattenNone();
  }

  /** The messages the appender was handed, in order. */
  function Payload(output: seq<Chunk>): seq<Message>
  {
    if output == [] then []
    else
      var last := output[|output| - 1];
      Payload(output[..|output| - 1]) + if last.Data? then last.msgs else []
  }

  /** The number of buffers the notices own up to. */
  function Confessed(output: seq<Chunk>): nat
  {
    if output == [] then 0
    else
      var last := output[|output| - 1];
      Confessed(output[..|output| - 1]) + if last.Notice? then last.dropped else 0
  }

  function KeptMsgs(batches: seq<seq<Buf>>): seq<Message>
  {
    if batches == [] then [] else KeptMsgs(batches[..|batches| - 1]) + MsgsOf(Kept(batches[|batches| - 1]))
  }

  function DroppedBuffers(batches: seq<seq<Buf>>): nat
  {
    if batches == [] then 0
    else
      var last := batches[|batches| - 1];
      DroppedBuffers(batches[..|batches| - 1]) + |last| - |Kept(last)|
  }

  lemma {:induction false} PayloadConcat(a: seq<Chunk>, b: seq<Chunk>)
    ensures Payload(a + b) == Payload(a) + Payload(b) && Confessed(a + b) == Confessed(a) + Confessed(b)
    decreases |b|
  {
    if b == [] {
      assert a + b == a;
    } else {
      assert (a + b)[..|a + b| - 1] == a + b[..|b| - 1];
      PayloadConcat(a, b[..|b| - 1]);
    }
  }

  lemma PayloadOne(c: Chunk)
    ensures Payload([c]) == (if c.Data? then c.msgs else []) && Confessed([c]) == if c.Notice? then c.dropped else 0
  {
    assert [c][..0] == [];
  }

  lemma {:induction false} PayloadWritten(bufs: seq<Buf>, capacity: nat)
    requires AllOk(bufs, capacity)
    ensures Payload(WrittenAll(bufs)) == MsgsOf(bufs) && Confessed(WrittenAll(bufs)) == 0
  {
    if bufs != [] {
      EmptySize(bufs[0], capacity);
      PayloadOne(Data(bufs[0].msgs));
      PayloadConcat(Written(bufs[0]), WrittenAll(bufs[1..]));
      PayloadWritten(bufs[1..], capacity);
    }
  }

  lemma PayloadRendered(batch: seq<Buf>, capacity: nat)
    requires AllOk(batch, capacity)
    ensures Payload(Rendered(batch)) == MsgsOf(Kept(batch))
    ensures Confessed(Rendered(batch)) == |batch| - |Kept(batch)|
  {
    PayloadWritten(Kept(batch), capacity);
    PayloadConcat(Announced(batch), WrittenAll(Kept(batch)));
    PayloadOne(Notice(if |batch| > MAX_BATCH then |batch| - KEPT else 0));
  }

  lemma {:induction false} PayloadRenderedAll(batches: seq<seq<Buf>>, capacity: nat)
    requires forall k :: 0 <= k < |batches| ==> AllOk(batches[k], capacity)
    ensures Payload(RenderedAll(batches)) == KeptMsgs(batches)
    ensures Confessed(RenderedAll(batches)) == DroppedBuffers(batches)
  {
    if batches != [] {
      var init, last := batches[..|batches| - 1], batches[|batches| - 1];
      PayloadRenderedAll(init, capacity);
      PayloadRendered(last, capacity);
      PayloadConcat(RenderedAll(init), Rendered(last));
    }
  }

  /** The appender is never handed an empty buffer, nor told of no dropped buffer. */
  predicate Filled(output: seq<Chunk>)
  {
    forall k :: 0 <= k < |output| ==>
      match output[k]
      case Data(msgs) => Flatten(msgs) != []
      case Notice(dropped) => dropped > 0
  }

  lemma {:induction false} WrittenAllFilled(bufs: seq<Buf>)
    ensures Filled(WrittenAll(bufs))
  {
    if bufs != [] {
      WrittenAllFilled(bufs[1..]);
    }
  }

  lemma {:induction false} RenderedAllFilled(batches: seq<seq<Buf>>)
    ensures Filled(RenderedAll(batches))
  {
    hide Flatten, WrittenAll;
    if batches != [] {
      RenderedAllFilled(batches[..|batches| - 1]);
      WrittenAllFilled(Kept(batches[|batches| - 1]));
    }
  }

  /**
   * The thread ends only when everything admitted was written or dropped with a notice: the batches hold exactly the
   * admitted messages, the appender received exactly the kept ones in order, and the notices count the dropped buffers.
   */
  lemma DrainedOnExit(capacity: nat, steps: seq<Step>)
    requires capacity > 0
    ensures Run(NewLogger(capacity), steps).Fine?
    ensures var s := Run(NewLogger(capacity), steps).value;
      s.pc.Ended? ==>
        && AllMsgs(s.batches) == s.admitted
        && Payload(s.output) == KeptMsgs(s.batches)
        && Confessed(s.output) == DroppedBuffers(s.batches)
        && Filled(s.output)
  {
    NewLoggerInv(capacity);
    EveryRunInv(NewLogger(capacity), steps);
    var s := Run(NewLogger(capacity), steps).value;
    if s.pc.Ended? {
      hide Run;
      EmptySize(s.current, s.capacity);
      assert AllMsgs(s.batches) + [] + [] == AllMsgs(s.batches);
      assert s.output + [] == s.output;
      PayloadRenderedAll(s.batches, s.capacity);
      RenderedAllFilled(s.batches);
    }
  }

  lemma NewLoggerInv(capacity: nat)
    requires capacity > 0
    ensures Inv(NewLogger(capacity))
  {
  }

  lemma {:induction false} KeptWithoutDrops(batches: seq<seq<Buf>>)
    requires DroppedBuffers(batches) == 0
    ensures KeptMsgs(batches) == AllMsgs(batches)
  {
    if batches != [] {
      KeptWithoutDrops(batches[..|batches| - 1]);
      assert Kept(batches[|batches| - 1]) == batches[|batches| - 1];
    }
  }

  /** Without a notice, the appender has received every admitted message exactly once, in order. */
  lemma NothingLostWithoutNotice(capacity: nat, steps: seq<Step>)
    requires capacity > 0
    ensures Run(NewLogger(capacity), steps).Fine?
    ensures var s := Run(NewLogger(capacity), steps).value;
      s.pc.Ended? && Confessed(s.output) == 0 ==> Payload(s.output) == s.admitted
  {
    DrainedOnExit(capacity, steps);
    var s := Run(NewLogger(capacity), steps).value;
    hide Run;
    if s.pc.Ended? && Confessed(s.output) == 0 {
      KeptWithoutDrops(s.batches);
    }
  }

  // ----- the destructor's join returns -----

  function WriteRest(s: Logger): (s': Logger)
    requires s.pc.Writing? && s.pc.i <= |s.batch|
    ensures s'.pc.Writing? && s'.pc.i == |s'.batch|
    decreases |s.batch| - s.pc.i
  {
    if s.pc.i == |s.batch| then s else WriteRest(WriteOne(s))
  }

  lemma {:induction false} WriteRestInv(s: Logger)
    requires Inv(s) && s.pc.Writing? && s.pc.i <= |s.batch|
    ensures var s' := WriteRest(s); Inv(s') && s' == s.(output := s'.output, pc := s'.pc)
    decreases |s.batch| - s.pc.i
  {
    if s.pc.i < |s.batch| {
      WriteInv(s);
      WriteRestInv(WriteOne(s));
    }
  }

  /** One turn of the writing loop, with nothing else happening. */
  function Round(s: Logger): Checked<Logger>
    requires s.pc.AtTest?
  {
    var s1 :- Test(s);
    if s1.pc.Ended? then Fine(s1)
    else
      var s2 :- Swap(s1);
      Recycle(WriteRest(DropExcess(s2)))
  }

  lemma RoundInv(s: Logger)
    requires Inv(s) && s.pc.AtTest?
    ensures Round(s).Fine? && Inv(Round(s).value)
    ensures var s' := Round(s).value; s'.pc.Ended? || (s'.pc.AtTest? && s'.current == EMPTY && s'.running == s.running)
  {
    hide Accounted, Delivered, BuffersOk, WriteRest;
    var s1 := Test(s).value;
    assert Inv(s1) by { NextInv(s, SyncTest); }
    if !s1.pc.Ended? {
      SwapInv(s1);
      DropInv(Swap(s1).value);
      WriteRestInv(DropExcess(Swap(s1).value));
      RecycleInv(WriteRest(DropExcess(Swap(s1).value)));
    }
  }

  /** The writing thread's next step. */
  function NextSync(s: Logger): Step
  {
    match s.pc
    case AtStart => SyncBegin
    case AtTest => SyncTest
    case AtSwap => SyncSwap
    case AtDrop => SyncDrop
    case Writing(i) => if i < |s.batch| then SyncWrite else SyncRecycle
    case Ended => SyncTest
  }

  /** How far the end is: with an empty current buffer the next test is the last, otherwise a swap comes first. */
  function PlacesLeft(s: Logger): nat
  {
    match s.pc
    case AtStart => 6
    case AtTest => if s.current.Size() == 0 then 1 else 3
    case AtSwap => if s.current.Size() == 0 then 4 else 2
    case AtDrop => if s.current.Size() == 0 then 3 else 5
    case Writing(_) => if s.current.Size() == 0 then 2 else 4
    case Ended => 0
  }

  function WritesLeft(s: Logger): nat
  {
    if s.pc.Writing? && s.pc.i <= |s.batch| then |s.batch| - s.pc.i else 0
  }

  lemma SyncComesNearer(s: Logger)
    requires Inv(s) && !s.running && !s.pc.Ended?
    ensures Enabled(s, NextSync(s)) && Next(s, NextSync(s)).Fine?
    ensures var s' := Next(s, NextSync(s)).value; var before, after := s.current.Size(), s'.current.Size();
      && Inv(s') && !s'.running
      && (before == 0 ==> after == 0)
      && ((before != 0 && after == 0)
          || ((before == 0 <==> after == 0)
              && (PlacesLeft(s') < PlacesLeft(s)
                  || (PlacesLeft(s') == PlacesLeft(s) && WritesLeft(s') < WritesLeft(s)))))
  {
    hide Inv, Recycle, Swap, Test, DropExcess, Flatten;
    NextInv(s, NextSync(s));
    SyncSizes(s);
  }

  /** What the writing thread's steps do to the current buffer and to its place. */
  lemma SyncSizes(s: Logger)
    requires Inv(s)
    ensures s.pc.AtTest? && !s.running ==>
      Test(s) == Fine(s.(pc := if s.current.Size() != 0 then AtSwap else Ended))
    ensures s.pc.AtSwap? ==>
      var r := Swap(s); r.Fine? && r.value.pc.AtDrop? && r.value.current.Size() == 0 && r.value.running == s.running
    ensures s.pc.AtDrop? ==>
      var s' := DropExcess(s); s'.pc == Writing(0) && s'.current == s.current && s'.running == s.running
    ensures s.pc.Writing? && s.pc.i >= |s.batch| ==>
      var r := Recycle(s); r.Fine? && r.value.pc.AtTest? && r.value.current == s.current && r.value.running == s.running
  {
    hide Accounted, Delivered, BuffersOk, InflightOk, Flatten;
    FlattenNone();
  }

  /**
   * Wherever the writing thread is when the destructor clears `running_`, its own steps bring it to its end, so the
   * join returns.
   */
  lemma {:induction false} EndsAfterDestroy(s: Logger) returns (steps: seq<Step>)
    requires Inv(s) && !s.running
    ensures forall k :: 0 <= k < |steps| ==> IsSync(steps[k])
    ensures Run(s, steps).Fine? && Run(s, steps).value.pc.Ended?
    decreases if s.current.Size() == 0 then 0 else 1, PlacesLeft(s), WritesLeft(s)
  {
    hide Inv, Next, Enabled, PlacesLeft, WritesLeft, Flatten;
    if s.pc.Ended? {
      return [];
    }
    SyncComesNearer(s);
    var step := NextSync(s);
    var rest := EndsAfterDestroy(Next(s, step).value);
    steps := [step] + rest;
    assert steps[0] == step && steps[1..] == rest;
  }

  // ----- a log call in progress at destruction -----

  predicate IsSync(step: Step) { !step.Enter? && !step.Commit? && !step.Destroy? }

  /** The writing thread does not look at the calls in progress. */
  lemma SyncIgnoresCalls(s: Logger, step: Step, calls: map<ThreadId, Message>)
    requires IsSync(step) && Enabled(s, step) && Next(s, step).Fine?
    ensures Enabled(s.(inflight := calls), step)
    ensures Next(s.(inflight := calls), step) == Fine(Next(s, step).value.(inflight := calls))
  {
    hide Flatten;
  }

  lemma {:induction false} SyncRunIgnoresCalls(s: Logger, steps: seq<Step>, calls: map<ThreadId, Message>)
    requires (forall k :: 0 <= k < |steps| ==> IsSync(steps[k])) && Run(s, steps).Fine?
    ensures Run(s.(inflight := calls), steps) == Fine(Run(s, steps).value.(inflight := calls))
    decreases |steps|
  {
    hide Next, Flatten;
    if steps == [] {
    } else if !Enabled(s, steps[0]) {
      SyncRunIgnoresCalls(s, steps[1..], calls);
    } else {
      SyncIgnoresCalls(s, steps[0], calls);
      SyncRunIgnoresCalls(Next(s, steps[0]).value, steps[1..], calls);
    }
  }

  lemma {:induction false} RunSnoc(s: Logger, steps: seq<Step>, step: Step)
    requires Run(s, steps).Fine? && Enabled(Run(s, steps).value, step)
    ensures Run(s, steps + [step]) == Next(Run(s, steps).value, step)
    decreases |steps|
  {
    hide Next, Enabled;
    if steps == [] {
      assert [step][1..] == [] && steps + [step] == [step];
      assert Next(s, step).Fine? ==> Run(Next(s, step).value, []) == Next(s, step);
    } else {
      assert (steps + [step])[0] == steps[0] && (steps + [step])[1..] == steps[1..] + [step];
      RunSnoc(if Enabled(s, steps[0]) then Next(s, steps[0]).value else s, steps[1..], step);
    }
  }

  /** If the thread has ended, everything admitted has been in a batch, so it was written or dropped with a notice. */
  predicate Drained(s: Logger, steps: seq<Step>)
  {
    var r := Run(s, steps);
    r.Fine? && (r.value.pc.Ended? ==> AllMsgs(r.value.batches) == r.value.admitted)
  }

  lemma DrainedFrom(s: Logger, steps: seq<Step>)
    requires Inv(s)
    ensures Drained(s, steps)
  {
    hide Run, AllMsgs, MsgsOf, Flatten;
    EveryRunInv(s, steps);
    var s' := Run(s, steps).value;
    if s'.pc.Ended? {
      EmptySize(s'.current, s'.capacity);
      MsgsOfNone();
      assert AllMsgs(s'.batches) + [] + [] == AllMsgs(s'.batches);
    }
  }

  /** A call in progress stores its message after the thread has gone. */
  lemma LateMessage(s: Logger, t: ThreadId) returns (steps: seq<Step>)
    requires Inv(s) && t in s.inflight
    ensures !Drained(s.(running := false), steps)
  {
    var calls := s.inflight;
    var quiet := s.(running := false, inflight := map[]);
    var sync := EndsAfterDestroy(quiet);
    DrainedFrom(quiet, sync);
    SyncRunIgnoresCalls(quiet, sync, calls);
    EveryRunInv(quiet, sync);
    hide Run, Flatten, AllMsgs;
    var end := Run(quiet, sync).value;
    assert quiet.(inflight := calls) == s.(running := false);
    steps := sync + [Commit(t)];
    RunSnoc(s.(running := false), sync, Commit(t));
    SameCapacity(quiet, sync);
    assert Next(end.(inflight := calls), Commit(t)).value.admitted == end.admitted + [calls[t]];
  }

  lemma {:induction false} SameCapacity(s: Logger, steps: seq<Step>)
    requires Run(s, steps).Fine?
    ensures Run(s, steps).value.capacity == s.capacity
    decreases |steps|
  {
    hide Enabled, Flatten;
    if steps != [] {
      SameCapacity(if Enabled(s, steps[0]) then Next(s, steps[0]).value else s, steps[1..]);
    }
  }

  /** Clearing `running_` leaves every later run drained at its end exactly if no `log` call is in progress. */
  lemma DestroyIsSafeIff(s: Logger)
    requires Inv(s) && s.running
    ensures s.inflight == map[] <==> forall steps :: Drained(s.(running := false), steps)
  {
    if s.inflight == map[] {
      NextInv(s, Destroy);
      forall steps ensures Drained(s.(running := false), steps) {
        DrainedFrom(s.(running := false), steps);
      }
    } else {
      var t :| t in s.inflight;
      var steps := LateMessage(s, t);
    }
  }
}
